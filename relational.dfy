/**
 * The relational layer the query text runs on: the join of product_scrapes with the rows its
 * foreign keys reference, the WHERE clauses the queries append, their meaning as criteria,
 * and projection onto grouping columns.
 */
module Relational {
  import opened Wrappers
  import opened Schema

  /**
   * One product_scrapes row with the product, keyword and scrape date it references, and the
   * client that keyword belongs to. A reference that matches no row is None, so an inner JOIN
   * keeps the fact only when the joined row is present.
   */
  datatype Fact = Fact(
    scrape: ProductScrape,
    product: Option<Product>,
    keyword: Option<Keyword>,
    client: Option<Client>,
    date: Option<ScrapeDate>)

  function FactOf(db: Db, s: ProductScrape): (f: Fact)
    ensures f.scrape == s
    ensures f.product.Some? ==> f.product.value in db.products && f.product.value.id == s.productId
    ensures f.keyword.Some? ==> f.keyword.value in db.keywords && f.keyword.value.id == s.keywordId
    ensures f.client.Some? ==> f.keyword.Some? && f.client.value in db.clients
                               && f.client.value.id == f.keyword.value.clientId
    ensures f.date.Some? ==> f.date.value in db.scrapeDates && f.date.value.id == s.scrapeDateId
    ensures f.product.None? <==> forall p :: p in db.products ==> p.id != s.productId
    ensures f.keyword.None? <==> forall k :: k in db.keywords ==> k.id != s.keywordId
    ensures f.date.None? <==> forall d :: d in db.scrapeDates ==> d.id != s.scrapeDateId
    ensures f.keyword.None? ==> f.client.None?
    ensures f.keyword.Some? ==> (f.client.None? <==> forall c :: c in db.clients ==> c.id != f.keyword.value.clientId)
  {
    var k := KeywordById(db.keywords, s.keywordId);
    Fact(s,
         ProductById(db.products, s.productId),
         k,
         if k.Some? then ClientById(db.clients, k.value.clientId) else None,
         ScrapeDateById(db.scrapeDates, s.scrapeDateId))
  }

  /** The scrape table with every reference looked up, one fact per scrape, in table order. */
  function Facts(db: Db): seq<Fact> {
    seq(|db.scrapes|, i requires 0 <= i < |db.scrapes| => FactOf(db, db.scrapes[i]))
  }

  datatype Table = Products | Keywords | Clients | ScrapeDates

  /** The predicates the queries' FROM ... JOIN and WHERE parts are made of. */
  datatype Clause =
    | Joined(table: Table)                  // JOIN <table> ON <its key> = <the scrape's reference>
    | KeywordClientIs(clientId: int)        // k.client_id = <id>
    | PositionAtMost(bound: int)            // ps.position <= <bound>
    | KeywordTextIs(text: string)           // k.keyword = '<text>'
    | ScrapedOnOrAfter(day: Date)           // sd.scrape_date >= '<day>'
    | ScrapedOnOrBefore(day: Date)          // sd.scrape_date <= '<day>'
    | ScrapeKeywordIs(keywordId: int)       // ps.keyword_id = <id>
    | KeywordIdIn(ids: seq<int>)            // k.id IN (<ids>)
    | FiltersNotNull                        // ps.filters IS NOT NULL
    | FiltersNotEmpty                       // ps.filters != ''
    | MerchantNotNull                       // p.merchant IS NOT NULL
    | ClientNameIs(name: string)            // c.name = '<name>'
    | MerchantIs(merchant: string)          // p.merchant = '<merchant>'

  /** The inner join with the table found the row the fact references. */
  predicate IsJoined(t: Table, f: Fact) {
    match t
    case Products => f.product.Some?
    case Keywords => f.keyword.Some?
    case Clients => f.client.Some?
    case ScrapeDates => f.date.Some?
  }

  /** What a clause says of a fact; a comparison with a missing (NULL) value is false, as in SQL. */
  predicate Holds(c: Clause, f: Fact) {
    match c
    case Joined(t) => IsJoined(t, f)
    case KeywordClientIs(id) => f.keyword.Some? && f.keyword.value.clientId == id
    case PositionAtMost(n) => f.scrape.position <= n
    case KeywordTextIs(t) => f.keyword.Some? && f.keyword.value.keyword == t
    case ScrapedOnOrAfter(d) => f.date.Some? && f.date.value.scrapeDate >= d
    case ScrapedOnOrBefore(d) => f.date.Some? && f.date.value.scrapeDate <= d
    case ScrapeKeywordIs(id) => f.scrape.keywordId == id
    case KeywordIdIn(ids) => f.keyword.Some? && f.keyword.value.id in ids
    case FiltersNotNull => f.scrape.filters.Some?
    case FiltersNotEmpty => f.scrape.filters.Some? && f.scrape.filters.value != ""
    case MerchantNotNull => f.product.Some? && f.product.value.merchant.Some?
    case ClientNameIs(n) => f.client.Some? && f.client.value.name == n
    case MerchantIs(m) => f.product.Some? && f.product.value.merchant == Some(m)
  }

  /** The clauses joined by AND. */
  predicate HoldsAll(clauses: seq<Clause>, f: Fact) {
    forall c :: c in clauses ==> Holds(c, f)
  }

  /** The rows a WHERE made of the given clauses keeps, in order. */
  function Where(facts: seq<Fact>, clauses: seq<Clause>): seq<Fact> {
    if facts == [] then []
    else (if HoldsAll(clauses, facts[0]) then [facts[0]] else []) + Where(facts[1..], clauses)
  }

  /** The optional date filter: it applies only to a range of exactly two dates, inclusive at both ends. */
  predicate InDateRange(dateRange: seq<Date>, f: Fact) {
    |dateRange| == 2 ==> f.date.Some? && dateRange[0] <= f.date.value.scrapeDate <= dateRange[1]
  }

  /**
   * The date clauses all four date-filtered queries append: two bounds when the range has
   * exactly two elements, nothing otherwise.
   */
  method AddDateRange(clauses: seq<Clause>, dateRange: seq<Date>) returns (r: seq<Clause>)
    ensures forall f :: HoldsAll(r, f) <==> HoldsAll(clauses, f) && InDateRange(dateRange, f)
    ensures |dateRange| != 2 ==> r == clauses
  {
    r := clauses;
    if |dateRange| == 2 {
      var startDate, endDate := dateRange[0], dateRange[1];
      r := r + [ScrapedOnOrAfter(startDate), ScrapedOnOrBefore(endDate)];
      assert forall f :: HoldsAll(r, f) ==> Holds(ScrapedOnOrAfter(startDate), f) && Holds(ScrapedOnOrBefore(endDate), f) by {
        assert ScrapedOnOrAfter(startDate) in r && ScrapedOnOrBefore(endDate) in r;
      }
    }
  }

  /** What each query selects, stated in terms of the schema rather than of clauses. */
  datatype Criteria =
    | TopProductScrapes(clientId: int, maxPosition: int, keyword: Option<string>, dateRange: seq<Date>)
    | FilterScrapes(keywordId: int, dateRange: seq<Date>)
    | MerchantScrapes(clientId: int, dateRange: seq<Date>)
    | TrendScrapes(keywordIds: seq<int>, dateRange: seq<Date>)
    | ListingScrapes(clientName: string, merchant: string)

  predicate Admits(c: Criteria, f: Fact) {
    match c
    case TopProductScrapes(clientId, maxPosition, keyword, dateRange) =>
      && f.product.Some? && f.keyword.Some? && f.date.Some?
      && f.keyword.value.clientId == clientId
      && f.scrape.position <= maxPosition
      && (keyword.Some? ==> f.keyword.value.keyword == keyword.value)
      && InDateRange(dateRange, f)
    case FilterScrapes(keywordId, dateRange) =>
      && f.date.Some?
      && f.scrape.keywordId == keywordId
      && f.scrape.filters.Some? && f.scrape.filters.value != ""
      && InDateRange(dateRange, f)
    case MerchantScrapes(clientId, dateRange) =>
      && f.product.Some? && f.keyword.Some? && f.date.Some?
      && f.keyword.value.clientId == clientId
      && f.product.value.merchant.Some?
      && InDateRange(dateRange, f)
    case TrendScrapes(keywordIds, dateRange) =>
      && f.keyword.Some? && f.date.Some?
      && f.keyword.value.id in keywordIds
      && InDateRange(dateRange, f)
    case ListingScrapes(clientName, merchant) =>
      && f.product.Some? && f.keyword.Some? && f.client.Some?
      && f.client.value.name == clientName
      && f.product.value.merchant == Some(merchant)
  }

  /** The facts a criteria admits, in order. */
  function Select(facts: seq<Fact>, c: Criteria): (r: seq<Fact>)
    ensures forall f :: f in r ==> f in facts && Admits(c, f)
    ensures forall f :: f in facts && Admits(c, f) ==> f in r
  {
    if facts == [] then []
    else
      assert facts == [facts[0]] + facts[1..];
      (if Admits(c, facts[0]) then [facts[0]] else []) + Select(facts[1..], c)
  }

  /** A criteria that admits none of the facts selects nothing. */
  lemma {:induction false} SelectNoneAdmitted(facts: seq<Fact>, c: Criteria)
    requires forall f :: f in facts ==> !Admits(c, f)
    ensures Select(facts, c) == []
  {
    if facts != [] {
      assert facts[0] in facts;
      assert forall f :: f in facts[1..] ==> f in facts;
      SelectNoneAdmitted(facts[1..], c);
    }
  }

  /** A clause list that denotes a criteria keeps exactly the facts the criteria admits. */
  lemma {:induction false} WhereIsSelect(facts: seq<Fact>, clauses: seq<Clause>, c: Criteria)
    requires forall f :: HoldsAll(clauses, f) <==> Admits(c, f)
    ensures Where(facts, clauses) == Select(facts, c)
  {
    if facts != [] {
      WhereIsSelect(facts[1..], clauses, c);
    }
  }

  /** The grouping columns of each fact that has them, in order (facts without them are skipped). */
  function Project<K>(facts: seq<Fact>, key: Fact -> Option<K>): seq<K> {
    if facts == [] then []
    else (match key(facts[0]) case Some(k) => [k] case None => []) + Project(facts[1..], key)
  }

  /** The number of facts the criteria admits whose grouping columns are k: the reference count of a group. */
  function CountWhere<K(==)>(facts: seq<Fact>, c: Criteria, key: Fact -> Option<K>, k: K): nat {
    if facts == [] then 0
    else (if Admits(c, facts[0]) && key(facts[0]) == Some(k) then 1 else 0) + CountWhere(facts[1..], c, key, k)
  }

  /** COUNT(*) of a group is the number of admitted facts with that group's columns. */
  lemma {:induction false} ProjectSelectCount<K>(facts: seq<Fact>, c: Criteria, key: Fact -> Option<K>, k: K)
    ensures multiset(Project(Select(facts, c), key))[k] == CountWhere(facts, c, key, k)
  {
    if facts != [] {
      var f, rest := facts[0], Select(facts[1..], c);
      ProjectSelectCount(facts[1..], c, key, k);
      if Admits(c, f) {
        assert Select(facts, c) == [f] + rest;
        ProjectAppend([f], rest, key);
        assert Project([f], key) == (match key(f) case Some(v) => [v] case None => []);
      } else {
        assert Select(facts, c) == rest;
      }
    }
  }

  lemma {:induction false} ProjectAppend<K>(a: seq<Fact>, b: seq<Fact>, key: Fact -> Option<K>)
    ensures Project(a + b, key) == Project(a, key) + Project(b, key)
  {
    if a == [] {
      assert a + b == b;
    } else {
      assert (a + b)[1..] == a[1..] + b;
      ProjectAppend(a[1..], b, key);
    }
  }

  /** A value occurs among the projected columns exactly when some admitted fact carries it. */
  lemma {:induction false} ProjectSelectMember<K>(facts: seq<Fact>, c: Criteria, key: Fact -> Option<K>, k: K)
    ensures k in Project(Select(facts, c), key) <==> exists f :: f in facts && Admits(c, f) && key(f) == Some(k)
  {
    ProjectSelectCount(facts, c, key, k);
    CountWherePositive(facts, c, key, k);
  }

  lemma {:induction false} CountWherePositive<K>(facts: seq<Fact>, c: Criteria, key: Fact -> Option<K>, k: K)
    ensures CountWhere(facts, c, key, k) > 0 <==> exists f :: f in facts && Admits(c, f) && key(f) == Some(k)
  {
    if facts != [] {
      CountWherePositive(facts[1..], c, key, k);
      assert facts == [facts[0]] + facts[1..];
      if Admits(c, facts[0]) && key(facts[0]) == Some(k) {
        assert facts[0] in facts;
      }
    }
  }

  /** A criteria that admits more facts counts every group at least as often. */
  lemma {:induction false} CountWhereMonotone<K>(facts: seq<Fact>, narrow: Criteria, wide: Criteria, key: Fact -> Option<K>, k: K)
    requires forall f :: Admits(narrow, f) ==> Admits(wide, f)
    ensures CountWhere(facts, narrow, key, k) <= CountWhere(facts, wide, key, k)
  {
    if facts != [] {
      CountWhereMonotone(facts[1..], narrow, wide, key, k);
    }
  }

  /** Two different admitted facts in the same group make that group's count at least 2. */
  lemma {:induction false} CountWhereTwo<K>(facts: seq<Fact>, c: Criteria, key: Fact -> Option<K>, i: nat, j: nat, k: K)
    requires i < j < |facts|
    requires Admits(c, facts[i]) && key(facts[i]) == Some(k)
    requires Admits(c, facts[j]) && key(facts[j]) == Some(k)
    ensures CountWhere(facts, c, key, k) >= 2
  {
    if i == 0 {
      assert facts[1..][j - 1] in facts[1..];
      CountWherePositive(facts[1..], c, key, k);
    } else {
      CountWhereTwo(facts[1..], c, key, i - 1, j - 1, k);
    }
  }
}

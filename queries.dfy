/**
 * The query functions of the database module: name resolution with short-circuit to an empty
 * table, the WHERE each query appends clause by clause, and the rows the database returns for it.
 * A DataFrame is a sequence of rows; the empty DataFrame is [].
 */
module Queries {
  import opened Wrappers
  import opened Seqs
  import opened Ordering
  import opened Schema
  import opened Relational
  import opened Aggregate

  /**
   * What the run_query RPC does with a query: it answers with the rows, or it raises (the store
   * is unreachable or rejects the statement). The caller's handler turns a raise into an empty table.
   */
  datatype Rpc = Answers | Raises(message: string)

  // ---------------------------------------------------------------- clients and keywords

  predicate ByName(a: Client, b: Client) { StrLe(a.name, b.name) }

  lemma ByNameTotalPreorder(clients: seq<Client>)
    ensures TotalPreorderOn(clients, ByName)
  {
    forall a, b | a in clients && b in clients ensures ByName(a, b) || ByName(b, a) {
      StrLeTotal(a.name, b.name);
    }
    forall a, b, c | a in clients && b in clients && c in clients && ByName(a, b) && ByName(b, c)
      ensures ByName(a, c)
    {
      StrLeTransitive(a.name, b.name, c.name);
    }
  }

  /** get_all_clients: every client row, ordered by name. */
  function AllClients(db: Db): (r: seq<Client>)
    ensures multiset(r) == multiset(db.clients)
    ensures forall i, j :: 0 <= i < j < |r| ==> StrLe(r[i].name, r[j].name)
  {
    ByNameTotalPreorder(db.clients);
    var r := SortBy(db.clients, ByName);
    assert forall i, j :: 0 <= i < j < |r| ==> ByName(r[i], r[j]);
    r
  }

  /** The keyword rows whose client_id is clientId, in table order. */
  function KeywordsOfClient(keywords: seq<Keyword>, clientId: int): (r: seq<Keyword>)
    ensures forall k :: k in r <==> k in keywords && k.clientId == clientId
    ensures |r| <= |keywords|
  {
    if keywords == [] then []
    else
      assert keywords == [keywords[0]] + keywords[1..];
      (if keywords[0].clientId == clientId then [keywords[0]] else []) + KeywordsOfClient(keywords[1..], clientId)
  }

  /** get_keywords_by_client: no rows for an unknown client, otherwise exactly that client's keywords. */
  function KeywordsByClient(db: Db, clientName: string): (r: seq<Keyword>)
    ensures ClientNamed(db.clients, clientName).None? ==> r == []
    ensures ClientNamed(db.clients, clientName).Some? ==>
              forall k :: k in r <==> k in db.keywords && k.clientId == ClientNamed(db.clients, clientName).value.id
  {
    match ClientNamed(db.clients, clientName)
    case None => []
    case Some(c) => KeywordsOfClient(db.keywords, c.id)
  }

  // ---------------------------------------------------------------- top products

  /** The grouping columns of the top-products query. */
  datatype ProductKey = ProductKey(productId: int, originalProductId: string, title: string, link: string, merchant: Option<string>)

  function ProductGroup(f: Fact): Option<ProductKey> {
    match f.product
    case Some(p) => Some(ProductKey(p.id, p.productId, p.title, p.link, p.merchant))
    case None => None
  }

  /**
   * The table of the top-products query for a client name: products ranked by how many of the
   * client's scrapes at position maxPosition or better (with the given keyword text, within the
   * date range) show them. get_top_products is this with no keyword; the dashboard's copy adds one.
   */
  function TopProducts(db: Db, rpc: Rpc, clientName: string, maxPosition: int, keyword: Option<string>,
                       limit: int, dateRange: seq<Date>): seq<Bucket<ProductKey>>
  {
    match ClientNamed(db.clients, clientName)
    case None => []
    case Some(c) =>
      if rpc.Raises? || limit < 0 then []
      else RankedTally(Project(Select(Facts(db), TopProductScrapes(c.id, maxPosition, keyword, dateRange)), ProductGroup), limit)
  }

  /** The clauses of the top-products query that both versions share. */
  method TopProductsBase(clientId: int, maxPosition: int) returns (query: seq<Clause>)
    ensures forall f :: HoldsAll(query, f) <==>
              f.product.Some? && f.keyword.Some? && f.date.Some?
              && f.keyword.value.clientId == clientId && f.scrape.position <= maxPosition
  {
    query := [Joined(Products), Joined(Keywords), Joined(ScrapeDates), KeywordClientIs(clientId), PositionAtMost(maxPosition)];
    assert forall f :: HoldsAll(query, f) ==>
             Holds(query[0], f) && Holds(query[1], f) && Holds(query[2], f) && Holds(query[3], f) && Holds(query[4], f) by {
      assert query[0] in query && query[1] in query && query[2] in query && query[3] in query && query[4] in query;
    }
  }

  /** get_top_products */
  method GetTopProducts(db: Db, rpc: Rpc, clientName: string, maxPosition: int, limit: int, dateRange: seq<Date>)
    returns (table: seq<Bucket<ProductKey>>)
    ensures ClientNamed(db.clients, clientName).None? ==> table == []
    ensures rpc.Raises? || limit < 0 ==> table == []
    ensures table == TopProducts(db, rpc, clientName, maxPosition, None, limit, dateRange)
  {
    var client := ClientNamed(db.clients, clientName);
    if client.None? {
      return [];
    }
    var clientId := client.value.id;
    var query := TopProductsBase(clientId, maxPosition);
    query := AddDateRange(query, dateRange);
    // run_query raises on a transport failure and on a negative LIMIT; the handler returns an empty table
    if rpc.Raises? || limit < 0 {
      return [];
    }
    WhereIsSelect(Facts(db), query, TopProductScrapes(clientId, maxPosition, None, dateRange));
    table := RankedTally(Project(Where(Facts(db), query), ProductGroup), limit);
  }

  /** The number of a client's qualifying scrapes that show product k: the count the query reports. */
  function ProductScrapeCount(db: Db, clientId: int, maxPosition: int, keyword: Option<string>,
                              dateRange: seq<Date>, k: ProductKey): nat
  {
    CountWhere(Facts(db), TopProductScrapes(clientId, maxPosition, keyword, dateRange), ProductGroup, k)
  }

  /**
   * For a known client and an answering store: at most limit rows, by count non-increasing, one
   * per product; each count is that product's number of qualifying scrapes, so at least 1; and a
   * product left out is shown by no more scrapes than any product listed.
   */
  lemma TopProductsTable(db: Db, rpc: Rpc, clientName: string, maxPosition: int, keyword: Option<string>,
                         limit: int, dateRange: seq<Date>)
    requires ClientNamed(db.clients, clientName).Some? && rpc.Answers? && limit >= 0
    ensures var r := TopProducts(db, rpc, clientName, maxPosition, keyword, limit, dateRange);
            var id := ClientNamed(db.clients, clientName).value.id;
            && |r| <= limit
            && NonIncreasing(r)
            && DistinctKeys(r)
            && (forall b :: b in r ==> b.count == ProductScrapeCount(db, id, maxPosition, keyword, dateRange, b.key) >= 1)
            && (forall k :: ProductScrapeCount(db, id, maxPosition, keyword, dateRange, k) > 0 ==>
                  Bucket(k, ProductScrapeCount(db, id, maxPosition, keyword, dateRange, k)) in r
                  || (|r| == limit && forall b :: b in r ==> b.count >= ProductScrapeCount(db, id, maxPosition, keyword, dateRange, k)))
  {
    var id := ClientNamed(db.clients, clientName).value.id;
    var crit := TopProductScrapes(id, maxPosition, keyword, dateRange);
    var keys := Project(Select(Facts(db), crit), ProductGroup);
    forall k ensures multiset(keys)[k] == ProductScrapeCount(db, id, maxPosition, keyword, dateRange, k) {
      ProjectSelectCount(Facts(db), crit, ProductGroup, k);
    }
  }

  /** Widening the position bound never lowers a product's count: position 1 counts are within top-5 counts. */
  lemma ProductCountGrowsWithPosition(db: Db, clientId: int, lo: int, hi: int, keyword: Option<string>,
                                      dateRange: seq<Date>, k: ProductKey)
    requires lo <= hi
    ensures ProductScrapeCount(db, clientId, lo, keyword, dateRange, k)
            <= ProductScrapeCount(db, clientId, hi, keyword, dateRange, k)
  {
    CountWhereMonotone(Facts(db), TopProductScrapes(clientId, lo, keyword, dateRange),
                       TopProductScrapes(clientId, hi, keyword, dateRange), ProductGroup, k);
  }

  /** The date range only ever removes scrapes: a product's count with a range is within its count without. */
  lemma ProductCountShrinksWithDateRange(db: Db, clientId: int, maxPosition: int, keyword: Option<string>,
                                         dateRange: seq<Date>, k: ProductKey)
    ensures ProductScrapeCount(db, clientId, maxPosition, keyword, dateRange, k)
            <= ProductScrapeCount(db, clientId, maxPosition, keyword, [], k)
  {
    CountWhereMonotone(Facts(db), TopProductScrapes(clientId, maxPosition, keyword, dateRange),
                       TopProductScrapes(clientId, maxPosition, keyword, []), ProductGroup, k);
  }

  // ---------------------------------------------------------------- filter frequency

  function FilterGroup(f: Fact): Option<string> { f.scrape.filters }

  /** The table of get_top_filters_by_keyword: whole filter strings of that keyword's scrapes, most frequent first. */
  function TopFilters(db: Db, rpc: Rpc, clientName: string, keyword: string, dateRange: seq<Date>, limit: int)
    : seq<Bucket<string>>
  {
    match ClientNamed(db.clients, clientName)
    case None => []
    case Some(c) =>
      match KeywordNamed(db.keywords, c.id, keyword)
      case None => []
      case Some(k) =>
        if rpc.Raises? || limit < 0 then []
        else RankedTally(Project(Select(Facts(db), FilterScrapes(k.id, dateRange)), FilterGroup), limit)
  }

  /** get_top_filters_by_keyword */
  method GetTopFiltersByKeyword(db: Db, rpc: Rpc, clientName: string, keyword: string, dateRange: seq<Date>, limit: int)
    returns (table: seq<Bucket<string>>)
    ensures ClientNamed(db.clients, clientName).None? ==> table == []
    ensures (ClientNamed(db.clients, clientName).Some? &&
             KeywordNamed(db.keywords, ClientNamed(db.clients, clientName).value.id, keyword).None?) ==> table == []
    ensures rpc.Raises? || limit < 0 ==> table == []
    ensures table == TopFilters(db, rpc, clientName, keyword, dateRange, limit)
  {
    var client := ClientNamed(db.clients, clientName);
    if client.None? {
      return [];
    }
    var clientId := client.value.id;
    var found := KeywordNamed(db.keywords, clientId, keyword);
    if found.None? {
      return [];
    }
    var keywordId := found.value.id;
    var query := [Joined(ScrapeDates), ScrapeKeywordIs(keywordId), FiltersNotNull, FiltersNotEmpty];
    assert forall f :: HoldsAll(query, f) ==>
             Holds(query[0], f) && Holds(query[1], f) && Holds(query[2], f) && Holds(query[3], f) by {
      assert query[0] in query && query[1] in query && query[2] in query && query[3] in query;
    }
    query := AddDateRange(query, dateRange);
    if rpc.Raises? || limit < 0 {
      return [];
    }
    WhereIsSelect(Facts(db), query, FilterScrapes(keywordId, dateRange));
    table := RankedTally(Project(Where(Facts(db), query), FilterGroup), limit);
  }

  /**
   * For a resolved keyword and an answering store: at most limit rows, most frequent first, no
   * filter string twice; no string is empty, and each count is the number of that keyword's
   * scrapes (within the range) carrying exactly that string; a string that occurs is listed, or
   * the table is full of strings occurring at least as often.
   */
  lemma TopFiltersTable(db: Db, rpc: Rpc, clientName: string, keyword: string, dateRange: seq<Date>, limit: int)
    requires ClientNamed(db.clients, clientName).Some?
    requires KeywordNamed(db.keywords, ClientNamed(db.clients, clientName).value.id, keyword).Some?
    requires rpc.Answers? && limit >= 0
    ensures var r := TopFilters(db, rpc, clientName, keyword, dateRange, limit);
            var crit := FilterScrapes(KeywordNamed(db.keywords, ClientNamed(db.clients, clientName).value.id, keyword).value.id, dateRange);
            && |r| <= limit
            && NonIncreasing(r)
            && DistinctKeys(r)
            && (forall b :: b in r ==> b.key != "" && b.count == CountWhere(Facts(db), crit, FilterGroup, b.key) >= 1)
            && (forall s :: CountWhere(Facts(db), crit, FilterGroup, s) > 0 ==>
                  Bucket(s, CountWhere(Facts(db), crit, FilterGroup, s)) in r
                  || (|r| == limit && forall b :: b in r ==> b.count >= CountWhere(Facts(db), crit, FilterGroup, s)))
  {
    var crit := FilterScrapes(KeywordNamed(db.keywords, ClientNamed(db.clients, clientName).value.id, keyword).value.id, dateRange);
    var keys := Project(Select(Facts(db), crit), FilterGroup);
    var r := TopFilters(db, rpc, clientName, keyword, dateRange, limit);
    forall b | b in r ensures b.key != "" && b.count == CountWhere(Facts(db), crit, FilterGroup, b.key) {
      ProjectSelectCount(Facts(db), crit, FilterGroup, b.key);
      ProjectSelectMember(Facts(db), crit, FilterGroup, b.key);
    }
    forall s | CountWhere(Facts(db), crit, FilterGroup, s) > 0 ensures s in keys {
      ProjectSelectCount(Facts(db), crit, FilterGroup, s);
    }
    forall s ensures multiset(keys)[s] == CountWhere(Facts(db), crit, FilterGroup, s) {
      ProjectSelectCount(Facts(db), crit, FilterGroup, s);
    }
  }

  // ---------------------------------------------------------------- shipping and returns placeholder

  /** The two policy texts of the placeholder lookup. */
  datatype ShippingReturns = ShippingReturns(shippingInfo: string, returnsInfo: string)

  const PlaceholderShipping: string := "Free shipping on orders over $25. Standard delivery in 3-5 business days."
  const PlaceholderReturns: string := "Free returns within 30 days of delivery. Must be in original packaging."

  /**
   * get_shipping_returns_for_product: nothing (the empty dict) for an unknown product or a failed
   * lookup, otherwise the same fixed texts for every product.
   */
  function ShippingReturnsForProduct(db: Db, rpc: Rpc, productId: int): (r: Option<ShippingReturns>)
    ensures r.Some? <==> rpc.Answers? && exists p :: p in db.products && p.id == productId
    ensures r.Some? ==> r.value == ShippingReturns(PlaceholderShipping, PlaceholderReturns)
  {
    if rpc.Raises? then None
    else
      match ProductById(db.products, productId)
      case None => None
      case Some(_) => Some(ShippingReturns(PlaceholderShipping, PlaceholderReturns))
  }

  // ---------------------------------------------------------------- merchant distribution

  /** The merchant and the product id of a scrape whose product has a merchant. */
  function MerchantProduct(f: Fact): Option<(string, int)> {
    match f.product
    case Some(p) => (match p.merchant case Some(m) => Some((m, p.id)) case None => None)
    case None => None
  }

  /** The table of get_merchant_distribution: merchants ranked by how many different products of theirs were scraped. */
  function MerchantDistribution(db: Db, rpc: Rpc, clientName: string, dateRange: seq<Date>, limit: int)
    : seq<Bucket<string>>
  {
    match ClientNamed(db.clients, clientName)
    case None => []
    case Some(c) =>
      if rpc.Raises? || limit < 0 then []
      else RankedDistinctTally(Project(Select(Facts(db), MerchantScrapes(c.id, dateRange)), MerchantProduct), limit)
  }

  /** get_merchant_distribution */
  method GetMerchantDistribution(db: Db, rpc: Rpc, clientName: string, dateRange: seq<Date>, limit: int)
    returns (table: seq<Bucket<string>>)
    ensures ClientNamed(db.clients, clientName).None? ==> table == []
    ensures rpc.Raises? || limit < 0 ==> table == []
    ensures table == MerchantDistribution(db, rpc, clientName, dateRange, limit)
  {
    var client := ClientNamed(db.clients, clientName);
    if client.None? {
      return [];
    }
    var clientId := client.value.id;
    var query := [Joined(Products), Joined(Keywords), Joined(ScrapeDates), KeywordClientIs(clientId), MerchantNotNull];
    assert forall f :: HoldsAll(query, f) ==>
             Holds(query[0], f) && Holds(query[1], f) && Holds(query[2], f) && Holds(query[3], f) && Holds(query[4], f) by {
      assert query[0] in query && query[1] in query && query[2] in query && query[3] in query && query[4] in query;
    }
    query := AddDateRange(query, dateRange);
    if rpc.Raises? || limit < 0 {
      return [];
    }
    WhereIsSelect(Facts(db), query, MerchantScrapes(clientId, dateRange));
    table := RankedDistinctTally(Project(Where(Facts(db), query), MerchantProduct), limit);
  }

  /** The ids of the different products of merchant m among the scrapes the criteria admits. */
  function ProductsOfMerchant(facts: seq<Fact>, c: Criteria, m: string): set<int> {
    set f | f in facts && Admits(c, f) && MerchantProduct(f).Some? && MerchantProduct(f).value.0 == m
          :: MerchantProduct(f).value.1
  }

  /**
   * For a known client and an answering store: at most limit rows, by count non-increasing, no
   * merchant twice; each count is the number of DIFFERENT products of that merchant among the
   * client's scrapes in the range (not the number of scrapes), so at least 1; a merchant with
   * products is listed, or the table is full of merchants with at least as many.
   */
  lemma MerchantDistributionTable(db: Db, rpc: Rpc, clientName: string, dateRange: seq<Date>, limit: int)
    requires ClientNamed(db.clients, clientName).Some? && rpc.Answers? && limit >= 0
    ensures var r := MerchantDistribution(db, rpc, clientName, dateRange, limit);
            var crit := MerchantScrapes(ClientNamed(db.clients, clientName).value.id, dateRange);
            && |r| <= limit
            && NonIncreasing(r)
            && DistinctKeys(r)
            && (forall b :: b in r ==> b.count == |ProductsOfMerchant(Facts(db), crit, b.key)| >= 1)
            && (forall m :: |ProductsOfMerchant(Facts(db), crit, m)| > 0 ==>
                  Bucket(m, |ProductsOfMerchant(Facts(db), crit, m)|) in r
                  || (|r| == limit && forall b :: b in r ==> b.count >= |ProductsOfMerchant(Facts(db), crit, m)|))
  {
    var crit := MerchantScrapes(ClientNamed(db.clients, clientName).value.id, dateRange);
    var pairs := Project(Select(Facts(db), crit), MerchantProduct);
    forall m ensures ValuesOf(pairs, m) == ProductsOfMerchant(Facts(db), crit, m) {
      forall id ensures id in ValuesOf(pairs, m) <==> id in ProductsOfMerchant(Facts(db), crit, m) {
        ProjectSelectMember(Facts(db), crit, MerchantProduct, (m, id));
        if id in ValuesOf(pairs, m) {
          var p :| p in pairs && p.0 == m && p.1 == id;
          assert p == (m, id);
        }
      }
    }
    forall m | |ProductsOfMerchant(Facts(db), crit, m)| > 0
      ensures exists id :: (m, id) in pairs
    {
      var id :| id in ProductsOfMerchant(Facts(db), crit, m);
      ProjectSelectMember(Facts(db), crit, MerchantProduct, (m, id));
    }
  }

  /** Another scrape of a product already counted leaves every merchant's count unchanged. */
  lemma RepeatedScrapeCountsOnce(facts: seq<Fact>, c: Criteria, seen: Fact, again: Fact, m: string)
    requires seen in facts && Admits(c, seen)
    requires MerchantProduct(again) == MerchantProduct(seen)
    ensures ProductsOfMerchant(facts + [again], c, m) == ProductsOfMerchant(facts, c, m)
  {
    var before, after := ProductsOfMerchant(facts, c, m), ProductsOfMerchant(facts + [again], c, m);
    forall id | id in after ensures id in before {
      var f :| f in facts + [again] && Admits(c, f) && MerchantProduct(f).Some?
               && MerchantProduct(f).value.0 == m && MerchantProduct(f).value.1 == id;
      if f !in facts {
        assert MerchantProduct(seen) == MerchantProduct(f);
      }
    }
  }

  // ---------------------------------------------------------------- position trends

  /** The ids of those texts that name a keyword of the client, in input order; unresolved texts are dropped. */
  function ResolvedKeywordIds(keywords: seq<Keyword>, clientId: int, texts: seq<string>): seq<int> {
    if texts == [] then []
    else
      (match KeywordNamed(keywords, clientId, texts[0]) case Some(k) => [k.id] case None => [])
      + ResolvedKeywordIds(keywords, clientId, texts[1..])
  }

  /** Resolution keeps input order: resolving a + b is resolving a, then b. */
  lemma {:induction false} ResolvedKeywordIdsAppend(keywords: seq<Keyword>, clientId: int, a: seq<string>, b: seq<string>)
    ensures ResolvedKeywordIds(keywords, clientId, a + b)
            == ResolvedKeywordIds(keywords, clientId, a) + ResolvedKeywordIds(keywords, clientId, b)
  {
    if a == [] {
      assert a + b == b;
    } else {
      assert (a + b)[1..] == a[1..] + b;
      ResolvedKeywordIdsAppend(keywords, clientId, a[1..], b);
    }
  }

  /**
   * Every resolved id is the id of a keyword of that client, at most one id per text, and the
   * result is empty exactly when no text resolves.
   */
  lemma {:induction false} ResolvedKeywordIdsScoped(keywords: seq<Keyword>, clientId: int, texts: seq<string>)
    ensures var ids := ResolvedKeywordIds(keywords, clientId, texts);
            && |ids| <= |texts|
            && (forall id :: id in ids ==> exists k :: k in keywords && k.id == id && k.clientId == clientId)
            && (ids == [] <==> forall t :: t in texts ==> KeywordNamed(keywords, clientId, t).None?)
  {
    if texts != [] {
      ResolvedKeywordIdsScoped(keywords, clientId, texts[1..]);
      assert texts == [texts[0]] + texts[1..];
      var head := KeywordNamed(keywords, clientId, texts[0]);
      assert texts[0] in texts;
      assert forall t :: t in texts ==> t == texts[0] || t in texts[1..];
      if head.Some? {
        assert head.value in keywords && head.value.clientId == clientId;
      }
    }
  }

  /** The loop that fills keyword_ids: one lookup per text, appending the ids that resolve. */
  method ResolveKeywordIds(db: Db, clientId: int, texts: seq<string>) returns (ids: seq<int>)
    ensures ids == ResolvedKeywordIds(db.keywords, clientId, texts)
  {
    ids := [];
    for i := 0 to |texts|
      invariant ids == ResolvedKeywordIds(db.keywords, clientId, texts[..i])
    {
      var found := KeywordNamed(db.keywords, clientId, texts[i]);
      if found.Some? {
        ids := ids + [found.value.id];
      }
      assert texts[..i + 1] == texts[..i] + [texts[i]];
      ResolvedKeywordIdsAppend(db.keywords, clientId, texts[..i], [texts[i]]);
    }
    assert texts[..|texts|] == texts;
  }

  /** The group and position of a scrape joined to its keyword and date. */
  function TrendSample(f: Fact): Option<(TrendKey, int)> {
    match f.keyword
    case Some(k) => (match f.date case Some(d) => Some((TrendKey(d.scrapeDate, k.keyword), f.scrape.position)) case None => None)
    case None => None
  }

  /** The samples the trend query averages: one per scrape of the resolved keywords within the range. */
  function TrendSamples(db: Db, ids: seq<int>, dateRange: seq<Date>): seq<(TrendKey, int)> {
    Project(Select(Facts(db), TrendScrapes(ids, dateRange)), TrendSample)
  }

  /** The table of get_position_trends_over_time. */
  function PositionTrends(db: Db, rpc: Rpc, clientName: string, keywords: seq<string>, dateRange: seq<Date>)
    : seq<TrendRow>
  {
    if keywords == [] then []
    else
      match ClientNamed(db.clients, clientName)
      case None => []
      case Some(c) =>
        var ids := ResolvedKeywordIds(db.keywords, c.id, keywords);
        if ids == [] || rpc.Raises? then []
        else TrendRows(TrendSamples(db, ids, dateRange))
  }

  /** get_position_trends_over_time */
  method GetPositionTrendsOverTime(db: Db, rpc: Rpc, clientName: string, keywords: seq<string>, dateRange: seq<Date>)
    returns (table: seq<TrendRow>)
    ensures keywords == [] ==> table == []
    ensures ClientNamed(db.clients, clientName).None? ==> table == []
    ensures (ClientNamed(db.clients, clientName).Some? &&
             forall t :: t in keywords ==> KeywordNamed(db.keywords, ClientNamed(db.clients, clientName).value.id, t).None?)
            ==> table == []
    ensures rpc.Raises? ==> table == []
    ensures table == PositionTrends(db, rpc, clientName, keywords, dateRange)
  {
    if keywords == [] {
      return [];
    }
    var client := ClientNamed(db.clients, clientName);
    if client.None? {
      return [];
    }
    var clientId := client.value.id;
    var keywordIds := ResolveKeywordIds(db, clientId, keywords);
    ResolvedKeywordIdsScoped(db.keywords, clientId, keywords);
    if keywordIds == [] {
      return [];
    }
    var query := [Joined(Keywords), Joined(ScrapeDates), KeywordIdIn(keywordIds)];
    assert forall f :: HoldsAll(query, f) ==> Holds(query[0], f) && Holds(query[1], f) && Holds(query[2], f) by {
      assert query[0] in query && query[1] in query && query[2] in query;
    }
    query := AddDateRange(query, dateRange);
    if rpc.Raises? {
      return [];
    }
    WhereIsSelect(Facts(db), query, TrendScrapes(keywordIds, dateRange));
    table := TrendRows(Project(Where(Facts(db), query), TrendSample));
  }

  /**
   * For resolved keywords and an answering store: rows strictly ascending by (date, keyword), one
   * per (date, keyword) group that has a scrape; each row holds its group's position sum and size,
   * and its average lies between the group's smallest and largest position.
   */
  lemma PositionTrendsTable(db: Db, rpc: Rpc, clientName: string, keywords: seq<string>, dateRange: seq<Date>)
    requires keywords != [] && ClientNamed(db.clients, clientName).Some? && rpc.Answers?
    requires ResolvedKeywordIds(db.keywords, ClientNamed(db.clients, clientName).value.id, keywords) != []
    ensures var r := PositionTrends(db, rpc, clientName, keywords, dateRange);
            var samples := TrendSamples(db, ResolvedKeywordIds(db.keywords, ClientNamed(db.clients, clientName).value.id, keywords), dateRange);
            && (forall i, j :: 0 <= i < j < |r| ==> TrendBefore(r[i], r[j]))
            && (forall k :: k in Firsts(samples) ==> GroupRow(samples, k) in r)
            && (forall row :: row in r ==>
                  && row == GroupRow(samples, KeyOfRow(row))
                  && row.samples >= 1
                  && MinOf(PositionsOf(samples, KeyOfRow(row))) as real <= AvgPosition(row)
                     <= MaxOf(PositionsOf(samples, KeyOfRow(row))) as real)
  {
    var samples := TrendSamples(db, ResolvedKeywordIds(db.keywords, ClientNamed(db.clients, clientName).value.id, keywords), dateRange);
    var r := PositionTrends(db, rpc, clientName, keywords, dateRange);
    forall row | row in r
      ensures MinOf(PositionsOf(samples, KeyOfRow(row))) as real <= AvgPosition(row)
              <= MaxOf(PositionsOf(samples, KeyOfRow(row))) as real
    {
      AvgWithinGroup(samples, KeyOfRow(row));
    }
  }

  /** A scrape's joined keyword is a row of the keywords table. */
  lemma FactKeywordInTable(db: Db, f: Fact)
    requires f in Facts(db) && f.keyword.Some?
    ensures f.keyword.value in db.keywords
  {
    var i :| 0 <= i < |db.scrapes| && Facts(db)[i] == f;
    assert f == FactOf(db, db.scrapes[i]);
  }

  /** Under unique ids, a keyword row is determined by its id. */
  lemma KeywordIdDetermines(db: Db, a: Keyword, b: Keyword)
    requires UniqueIds(db) && a in db.keywords && b in db.keywords && a.id == b.id
    ensures a == b
  {
    var i :| 0 <= i < |db.keywords| && db.keywords[i] == a;
    var j :| 0 <= j < |db.keywords| && db.keywords[j] == b;
    assert i == j;
  }

  /** Every group of trend samples comes from an admitted scrape joined to a keyword of that text. */
  lemma TrendGroupOrigin(db: Db, ids: seq<int>, dateRange: seq<Date>, key: TrendKey)
    requires key in Firsts(TrendSamples(db, ids, dateRange))
    ensures exists f :: f in Facts(db) && Admits(TrendScrapes(ids, dateRange), f)
                        && f.keyword.Some? && f.keyword.value.id in ids && f.keyword.value.keyword == key.keyword
                        && f.date.Some? && f.date.value.scrapeDate == key.scrapeDate
  {
    var samples := TrendSamples(db, ids, dateRange);
    var j :| 0 <= j < |samples| && samples[j].0 == key;
    ProjectSelectMember(Facts(db), TrendScrapes(ids, dateRange), TrendSample, samples[j]);
  }

  /** One trend group, traced back to its scrape: a keyword of the client, on a date inside the range. */
  lemma TrendGroupScoped(db: Db, clientId: int, ids: seq<int>, dateRange: seq<Date>, key: TrendKey)
    requires UniqueIds(db)
    requires forall id :: id in ids ==> exists k :: k in db.keywords && k.id == id && k.clientId == clientId
    requires key in Firsts(TrendSamples(db, ids, dateRange))
    ensures exists k :: k in db.keywords && k.clientId == clientId && k.keyword == key.keyword
    ensures |dateRange| == 2 ==> dateRange[0] <= key.scrapeDate <= dateRange[1]
  {
    TrendGroupOrigin(db, ids, dateRange, key);
    var f :| f in Facts(db) && Admits(TrendScrapes(ids, dateRange), f)
             && f.keyword.Some? && f.keyword.value.id in ids && f.keyword.value.keyword == key.keyword
             && f.date.Some? && f.date.value.scrapeDate == key.scrapeDate;
    FactKeywordInTable(db, f);
    var owner :| owner in db.keywords && owner.id == f.keyword.value.id && owner.clientId == clientId;
    KeywordIdDetermines(db, f.keyword.value, owner);
  }

  /**
   * No cross-client leakage: with unique ids, every trend row is about a keyword text of the
   * named client, observed on a date inside the range when a range is given.
   */
  lemma PositionTrendsScoped(db: Db, rpc: Rpc, clientName: string, keywords: seq<string>, dateRange: seq<Date>)
    requires UniqueIds(db)
    ensures forall row :: row in PositionTrends(db, rpc, clientName, keywords, dateRange) ==>
              && ClientNamed(db.clients, clientName).Some?
              && (exists k :: k in db.keywords && k.clientId == ClientNamed(db.clients, clientName).value.id
                              && k.keyword == row.keyword)
              && (|dateRange| == 2 ==> dateRange[0] <= row.scrapeDate <= dateRange[1])
  {
    var r := PositionTrends(db, rpc, clientName, keywords, dateRange);
    if r != [] {
      var cid := ClientNamed(db.clients, clientName).value.id;
      var ids := ResolvedKeywordIds(db.keywords, cid, keywords);
      ResolvedKeywordIdsScoped(db.keywords, cid, keywords);
      assert r == TrendRows(TrendSamples(db, ids, dateRange));
      forall row | row in r
        ensures exists k :: k in db.keywords && k.clientId == cid && k.keyword == row.keyword
        ensures |dateRange| == 2 ==> dateRange[0] <= row.scrapeDate <= dateRange[1]
      {
        TrendGroupScoped(db, cid, ids, dateRange, KeyOfRow(row));
      }
    }
  }
}

/**
 * The data side of the dashboard: the option lists its widgets offer, the keyword choice that
 * turns into a WHERE clause, the two top-products queries per chart, and the products listing of
 * the shipping and returns view. Widgets and charts themselves are not modelled.
 */
module Dashboard {
  import opened Wrappers
  import opened Schema
  import opened Relational
  import opened Aggregate
  import opened Queries

  /** The first keyword option, which stands for no keyword filter. */
  const AllKeywords: string := "All Keywords"

  /** The merchant products listing shows at most this many rows. */
  const ListingLimit: nat := 10

  /** The client selector: nothing to offer without clients, otherwise every client name in list order. */
  function ClientNames(clients: seq<Client>): (r: Option<seq<string>>)
    ensures r.None? <==> clients == []
    ensures r.Some? ==> |r.value| == |clients| && forall i :: 0 <= i < |clients| ==> r.value[i] == clients[i].name
  {
    if clients == [] then None
    else Some(seq(|clients|, i requires 0 <= i < |clients| => clients[i].name))
  }

  /** The keyword selector of the top-products view: "All Keywords" first, then each keyword text in order. */
  function KeywordOptions(keywords: seq<Keyword>): (r: seq<string>)
    ensures |r| == 1 + |keywords| && r[0] == AllKeywords
    ensures forall i :: 0 <= i < |keywords| ==> r[i + 1] == keywords[i].keyword
  {
    [AllKeywords] + seq(|keywords|, i requires 0 <= i < |keywords| => keywords[i].keyword)
  }

  /** The selected option as a keyword argument: "All Keywords" means none. */
  function KeywordFilter(selected: string): (r: Option<string>)
    ensures r.None? <==> selected == AllKeywords
    ensures r.Some? ==> r.value == selected
  {
    if selected == AllKeywords then None else Some(selected)
  }

  /** Whether the keyword argument adds a keyword clause: only a non-empty text other than "All Keywords" does. */
  function KeywordClause(keyword: Option<string>): (r: Option<string>)
    ensures r.Some? <==> keyword.Some? && keyword.value != "" && keyword.value != AllKeywords
    ensures r.Some? ==> r == keyword
  {
    match keyword
    case Some(t) => if t != "" && t != AllKeywords then Some(t) else None
    case None => None
  }

  /** get_filtered_top_products: the top-products query with the optional keyword clause. */
  method GetFilteredTopProducts(db: Db, rpc: Rpc, clientName: string, dateRange: seq<Date>, topN: int,
                                position: int, keyword: Option<string>)
    returns (table: seq<Bucket<ProductKey>>)
    ensures ClientNamed(db.clients, clientName).None? ==> table == []
    ensures rpc.Raises? || topN < 0 ==> table == []
    ensures table == TopProducts(db, rpc, clientName, position, KeywordClause(keyword), topN, dateRange)
  {
    var client := ClientNamed(db.clients, clientName);
    if client.None? {
      return [];
    }
    var clientId := client.value.id;
    var query := TopProductsBase(clientId, position);
    ghost var base := query;
    if keyword.Some? && keyword.value != "" && keyword.value != AllKeywords {
      query := query + [KeywordTextIs(keyword.value)];
      assert forall f :: HoldsAll(query, f) <==> HoldsAll(base, f) && Holds(KeywordTextIs(keyword.value), f) by {
        forall f ensures HoldsAll(query, f) <==> HoldsAll(base, f) && Holds(KeywordTextIs(keyword.value), f) {
          assert forall c :: c in query <==> c in base || c == KeywordTextIs(keyword.value);
        }
      }
    }
    query := AddDateRange(query, dateRange);
    if rpc.Raises? || topN < 0 {
      return [];
    }
    WhereIsSelect(Facts(db), query, TopProductScrapes(clientId, position, KeywordClause(keyword), dateRange));
    table := RankedTally(Project(Where(Facts(db), query), ProductGroup), topN);
  }

  /**
   * The two tables of the top-products view for the selected keyword option: products seen at
   * position 1, and products seen in the top 5. With "All Keywords" both are unfiltered by keyword.
   */
  method TopProductsChart(db: Db, rpcTop1: Rpc, rpcTop5: Rpc, clientName: string, dateRange: seq<Date>,
                          selected: string, topN: int)
    returns (top1: seq<Bucket<ProductKey>>, top5: seq<Bucket<ProductKey>>)
    ensures top1 == TopProducts(db, rpcTop1, clientName, 1, KeywordClause(KeywordFilter(selected)), topN, dateRange)
    ensures top5 == TopProducts(db, rpcTop5, clientName, 5, KeywordClause(KeywordFilter(selected)), topN, dateRange)
    ensures selected == AllKeywords ==>
              && top1 == TopProducts(db, rpcTop1, clientName, 1, None, topN, dateRange)
              && top5 == TopProducts(db, rpcTop5, clientName, 5, None, topN, dateRange)
  {
    var keywordFilter := KeywordFilter(selected);
    top1 := GetFilteredTopProducts(db, rpcTop1, clientName, dateRange, topN, 1, keywordFilter);
    top5 := GetFilteredTopProducts(db, rpcTop5, clientName, dateRange, topN, 5, keywordFilter);
  }

  /** A product's position-1 count never exceeds its top-5 count, whatever keyword and range are chosen. */
  lemma TopOneWithinTopFive(db: Db, clientId: int, keyword: Option<string>, dateRange: seq<Date>, k: ProductKey)
    ensures ProductScrapeCount(db, clientId, 1, keyword, dateRange, k) <= ProductScrapeCount(db, clientId, 5, keyword, dateRange, k)
  {
    ProductCountGrowsWithPosition(db, clientId, 1, 5, keyword, dateRange, k);
  }

  /** Choosing a keyword only narrows: a product's count for one keyword is within its count for all of them. */
  lemma KeywordNarrowsCount(db: Db, clientId: int, maxPosition: int, text: string, dateRange: seq<Date>, k: ProductKey)
    ensures ProductScrapeCount(db, clientId, maxPosition, Some(text), dateRange, k)
            <= ProductScrapeCount(db, clientId, maxPosition, None, dateRange, k)
  {
    CountWhereMonotone(Facts(db), TopProductScrapes(clientId, maxPosition, Some(text), dateRange),
                       TopProductScrapes(clientId, maxPosition, None, dateRange), ProductGroup, k);
  }

  /**
   * The trends view offers only the client's own keyword texts, so every text the user picks
   * resolves to an id: the query gets one id per selected keyword.
   */
  lemma {:induction false} SelectedKeywordsAllResolve(db: Db, clientName: string, selected: seq<string>)
    requires ClientNamed(db.clients, clientName).Some?
    requires forall t :: t in selected ==> exists k :: k in KeywordsByClient(db, clientName) && k.keyword == t
    ensures |ResolvedKeywordIds(db.keywords, ClientNamed(db.clients, clientName).value.id, selected)| == |selected|
  {
    if selected != [] {
      assert selected[0] in selected;
      assert forall t :: t in selected[1..] ==> t in selected;
      SelectedKeywordsAllResolve(db, clientName, selected[1..]);
      var k :| k in KeywordsByClient(db, clientName) && k.keyword == selected[0];
      assert KeywordNamed(db.keywords, ClientNamed(db.clients, clientName).value.id, selected[0]).Some?;
    }
  }

  // ---------------------------------------------------------------- merchant products listing

  /** The grouping columns of the merchant products listing. */
  datatype ListingKey = ListingKey(title: string, rating: Option<real>, price: Option<real>)

  function ListingGroup(f: Fact): Option<ListingKey> {
    match f.product
    case Some(p) => Some(ListingKey(p.title, p.rating, p.price))
    case None => None
  }

  /**
   * The products listing for a merchant: (title, rating, price) groups of the merchant's products,
   * ranked by appearances in scrapes of clients with that name, at most ten. No date filter, and
   * the client is matched by name inside the query.
   */
  function MerchantListing(db: Db, rpc: Rpc, clientName: string, merchant: string): seq<Bucket<ListingKey>> {
    if rpc.Raises? then []
    else RankedTally(Project(Select(Facts(db), ListingScrapes(clientName, merchant)), ListingGroup), ListingLimit)
  }

  /** The listing query of render_shipping_returns. */
  method ListMerchantProducts(db: Db, rpc: Rpc, clientName: string, merchant: string)
    returns (table: seq<Bucket<ListingKey>>)
    ensures rpc.Raises? ==> table == []
    ensures table == MerchantListing(db, rpc, clientName, merchant)
  {
    var query := [Joined(Products), Joined(Keywords), Joined(Clients), ClientNameIs(clientName), MerchantIs(merchant)];
    assert forall f :: HoldsAll(query, f) ==>
             Holds(query[0], f) && Holds(query[1], f) && Holds(query[2], f) && Holds(query[3], f) && Holds(query[4], f) by {
      assert query[0] in query && query[1] in query && query[2] in query && query[3] in query && query[4] in query;
    }
    if rpc.Raises? {
      return [];
    }
    WhereIsSelect(Facts(db), query, ListingScrapes(clientName, merchant));
    table := RankedTally(Project(Where(Facts(db), query), ListingGroup), ListingLimit);
  }

  /**
   * For an answering store: at most ten rows, by appearance count non-increasing, no
   * (title, rating, price) twice; a group that occurs is listed, or ten groups occurring at least
   * as often fill the table; each count is the number of that client's scrapes showing a product of
   * the merchant with those columns, so products that agree on all three are counted together.
   */
  lemma MerchantListingTable(db: Db, rpc: Rpc, clientName: string, merchant: string)
    requires rpc.Answers?
    ensures var r := MerchantListing(db, rpc, clientName, merchant);
            && |r| <= ListingLimit
            && NonIncreasing(r)
            && DistinctKeys(r)
            && (forall b :: b in r ==>
                  b.count == CountWhere(Facts(db), ListingScrapes(clientName, merchant), ListingGroup, b.key) >= 1)
            && (forall k :: CountWhere(Facts(db), ListingScrapes(clientName, merchant), ListingGroup, k) > 0 ==>
                  Bucket(k, CountWhere(Facts(db), ListingScrapes(clientName, merchant), ListingGroup, k)) in r
                  || (|r| == ListingLimit &&
                      forall b :: b in r ==> b.count >= CountWhere(Facts(db), ListingScrapes(clientName, merchant), ListingGroup, k)))
  {
    var crit := ListingScrapes(clientName, merchant);
    var keys := Project(Select(Facts(db), crit), ListingGroup);
    forall k ensures multiset(keys)[k] == CountWhere(Facts(db), crit, ListingGroup, k) {
      ProjectSelectCount(Facts(db), crit, ListingGroup, k);
    }
    forall k | CountWhere(Facts(db), crit, ListingGroup, k) > 0 ensures k in keys {
      ProjectSelectCount(Facts(db), crit, ListingGroup, k);
    }
  }

  /**
   * Grouping is by description, not by product: two scrapes of different products with the same
   * title, rating and price fall into one row, counted at least twice.
   */
  lemma IdenticallyDescribedProductsMerge(db: Db, clientName: string, merchant: string, i: nat, j: nat)
    requires i < j < |Facts(db)|
    requires Admits(ListingScrapes(clientName, merchant), Facts(db)[i])
    requires Admits(ListingScrapes(clientName, merchant), Facts(db)[j])
    requires ListingGroup(Facts(db)[i]) == ListingGroup(Facts(db)[j])
    ensures ListingGroup(Facts(db)[i]).Some?
    ensures CountWhere(Facts(db), ListingScrapes(clientName, merchant), ListingGroup, ListingGroup(Facts(db)[i]).value) >= 2
  {
    CountWhereTwo(Facts(db), ListingScrapes(clientName, merchant), ListingGroup, i, j, ListingGroup(Facts(db)[i]).value);
  }

  /** A client name that names no client lists nothing. */
  lemma MerchantListingUnknownClient(db: Db, rpc: Rpc, clientName: string, merchant: string)
    requires forall c :: c in db.clients ==> c.name != clientName
    ensures MerchantListing(db, rpc, clientName, merchant) == []
  {
    var crit := ListingScrapes(clientName, merchant);
    forall f | f in Facts(db) ensures !Admits(crit, f) {
      var i :| 0 <= i < |db.scrapes| && Facts(db)[i] == f;
      assert f == FactOf(db, db.scrapes[i]);
    }
    SelectNoneAdmitted(Facts(db), crit);
  }
}

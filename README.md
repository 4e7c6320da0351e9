# Shopping scraper analytics: the query layer

This project models the analytical query layer of a shopping-scraper dashboard. The scraper stores:

- clients;
- each client's search keywords;
- the products seen in search results;
- one scrape row per (product, keyword, scrape date) hit, with its position and the filter string in use;
- the scrape dates.

The query layer turns a client name, plus optional keywords and a date range, into result tables:

- products most often seen at position 1 or in the top 5;
- the most frequent filter strings of a keyword;
- merchants by number of distinct products;
- average position per (date, keyword);
- the products of one merchant.

The model is a relational aggregation engine over in-memory tables. It is organised by module:

- `Schema`: one datatype per table, and the first-match lookups the table API performs.
- `Relational`: a scrape together with its joined rows (a fact), and the WHERE clauses the queries append one `+=` at a time. It also holds the declarative criteria each finished clause list denotes (`WhereIsSelect` proves the two agree) and the count of the facts a criteria admits.
- `Aggregate`: SQL's aggregations.
  - GROUP BY with COUNT(\*) or COUNT(DISTINCT …), then ORDER BY count DESC and LIMIT.
  - GROUP BY with AVG, then ORDER BY (date, keyword).
- `Queries`: the query functions of `database/queries.py`. Each of the four SQL queries is a specification function plus a method that builds the clause list step by step, as the source does. The trend query also has a loop method that resolves its keywords. The table-API reads (`AllClients`, `KeywordsByClient`, `ShippingReturnsForProduct`) are functions only.
- `Dashboard`: the data side of `dashboard.py`:
  - its option lists;
  - the keyword choice;
  - the nested top-products query;
  - the merchant products listing.
- `Seqs` and `Ordering`: generic sequence helpers: deduplication, prefix, sum, min and max, a proved insertion sort and string order.

A DataFrame is a sequence of rows; the empty sequence is the empty DataFrame. The store's `run_query` call is a parameter `rpc: Rpc`. It either answers or raises, and a raise becomes the empty table, as the source's exception handlers do. Dates are integers, and `date_range` is a sequence: `None` and the empty tuple are `[]`. Averages are exact: a row holds the position sum and the sample count, and the average is their real quotient.

Where the code and the design description differ, the model follows the code:

- Filter frequency groups by the whole filter string, in the query itself. No comma-splitting happens, despite the comment at `dashboard.py:289`.
- The trend query groups by keyword *text*, although it selects the keywords by id.
- The merchant listing matches the client by name inside the query. So it does not short-circuit on an unknown client name; it just finds no rows.
- The merchant listing groups by (title, rating, price), not by product. So different products described identically share one row (`IdenticallyDescribedProductsMerge`).
- Merchant distribution drops products whose merchant is NULL (`p.merchant IS NOT NULL`). It does not put them in an "Unknown" bucket.

## Model

| member | source | states |
|---|---|---|
| Schema.ClientNamed | database/queries.py:49-54 | the client lookup finds nothing exactly when no client has that name; otherwise it finds a client row with that name |
| Schema.KeywordNamed | database/queries.py:135-140 | the keyword lookup is scoped to the client: it finds nothing exactly when no keyword of that client has that text; otherwise it finds a keyword row with that text and client id |
| Schema.ProductById | database/queries.py:67-68 | the join lookup finds nothing exactly when no product row has that id; otherwise it finds a row with that id |
| Schema.KeywordById | database/queries.py:69-70 | the join lookup finds nothing exactly when no keyword row has that id; otherwise it finds a row with that id |
| Schema.ScrapeDateById | database/queries.py:71-72 | the join lookup finds nothing exactly when no scrape-date row has that id; otherwise it finds a row with that id |
| Schema.ClientById | dashboard.py:377-378 | the join lookup finds nothing exactly when no client row has that id; otherwise it finds a row with that id |
| Schema.ProductByIdIsJoin | database/queries.py:67-68 | with unique primary keys, the first-match lookup returns p exactly when p is a product row with that id, so it is the inner join |
| Relational.FactOf | database/queries.py:65-72 | each joined row of a scrape is a row of its table whose id is the scrape's reference, and a reference is left unjoined exactly when no row has that id; the client is joined through the keyword's client_id in the same way |
| Relational.AddDateRange | database/queries.py:79-84 | the appended WHERE holds exactly when the old one holds and, for a range of exactly two dates, the scrape date lies in it inclusively at both ends; any other range leaves the clauses unchanged |
| Relational.Select | database/queries.py:73-75 | a fact is selected exactly when it is one of the facts and the criteria admits it |
| Relational.WhereIsSelect | database/queries.py:57-84 | a clause list whose conjunction denotes a criteria keeps exactly the facts the criteria selects, in order |
| Relational.ProjectSelectCount | database/queries.py:87-89 | the number of selected rows in a group equals the reference count of admitted facts with those grouping columns |
| Relational.ProjectSelectMember | database/queries.py:87-89 | a group appears among the selected rows exactly when some admitted fact has those grouping columns |
| Relational.CountWherePositive | database/queries.py:64 | a group's count is positive exactly when some admitted fact belongs to it |
| Relational.CountWhereMonotone | database/queries.py:73-75 | a criteria that admits fewer facts never gives a group a larger count |
| Relational.SelectNoneAdmitted | dashboard.py:380-382 | a criteria that admits no fact selects the empty table |
| Relational.CountWhereTwo | dashboard.py:383-384 | two different admitted facts in one group give it a count of at least two |
| Aggregate.Tally | database/queries.py:87-89 | GROUP BY with COUNT: one row per distinct key and one for every key present; each row's count is the key's multiplicity; no more rows than keys |
| Aggregate.DistinctTally | database/queries.py:249 | GROUP BY with COUNT(DISTINCT): one row per key and one for every key present; each count is the number of different values paired with the key, at least 1 |
| Aggregate.Rank | database/queries.py:90-92 | ORDER BY count DESC LIMIT n: the result has min(n, rows) rows, all taken from the input, in non-increasing count; no left-out row counts more than a kept row; if nothing needs cutting, every row is kept |
| Aggregate.RankedTally | database/queries.py:87-93 | at most limit rows, non-increasing, distinct keys, each count the key's multiplicity and at least 1; any key not listed counts no more than every listed key, and the table is full |
| Aggregate.RankedDistinctTally | database/queries.py:272-278 | the same as RankedTally, with each count the number of different values of the key |
| Aggregate.TrendRows | database/queries.py:358-363 | one row per (date, keyword) group present, each holding its group's position sum and sample count; rows strictly ascending by date, then keyword |
| Aggregate.AvgWithinGroup | database/queries.py:338 | a group's average position lies between its smallest and its largest position |
| Aggregate.PositionsOfGroup | database/queries.py:359-360 | a present group has at least one position, and each of its positions comes from a sample of that group |
| Ordering.SortBy | database/queries.py:90-91 | sorting yields a permutation of the input that is ordered by the given total preorder |
| Queries.AllClients | database/queries.py:9-12 | the client list is a permutation of the clients table, ordered by name |
| Queries.KeywordsOfClient | database/queries.py:25-26 | a keyword is returned exactly when it is a keyword row whose client_id is the given id |
| Queries.KeywordsByClient | database/queries.py:14-26 | an unknown client gives no keywords; otherwise it gives exactly that client's keyword rows |
| Queries.TopProductsBase | database/queries.py:57-76 | the base WHERE holds exactly when product, keyword and date are joined, the keyword belongs to the client and the position is within the bound |
| Queries.GetTopProducts | database/queries.py:28-104 | an unknown client, a store failure or a negative LIMIT gives the empty table; otherwise the table is the ranked count of qualifying scrapes per product |
| Queries.TopProductsTable | database/queries.py:57-93 | for a known client: at most limit rows, non-increasing, one per product; each count is the number of that client's scrapes showing the product at the bound or better within the range, so it is at least 1; a product left out counts no more than any listed product |
| Queries.ProductCountGrowsWithPosition | database/queries.py:75 | before truncation, a product's count under a smaller position bound is at most its count under a larger one |
| Queries.ProductCountShrinksWithDateRange | database/queries.py:79-84 | adding a date range never raises a product's count |
| Queries.GetTopFiltersByKeyword | database/queries.py:106-183 | an unknown client, a keyword that does not resolve under that client, a store failure or a negative LIMIT gives the empty table; otherwise the ranked count of that keyword's filter strings |
| Queries.TopFiltersTable | database/queries.py:143-172 | at most limit rows, non-increasing, no filter string twice; no string is empty; each count is the number of that keyword's scrapes within the range carrying exactly that string, at least 1; a string that occurs is listed, or the table is full of strings occurring at least as often |
| Queries.ShippingReturnsForProduct | database/queries.py:185-217 | an unknown product or a failed lookup gives nothing; any known product gets the same two fixed policy texts |
| Queries.GetMerchantDistribution | database/queries.py:219-289 | an unknown client, a store failure or a negative LIMIT gives the empty table; otherwise the ranked distinct-product count per merchant |
| Queries.MerchantDistributionTable | database/queries.py:246-278 | at most limit rows, non-increasing, no merchant twice; each count is the number of different product ids of that merchant among the client's scrapes in the range, at least 1; a merchant with products is listed, or the table is full of merchants with at least as many |
| Queries.RepeatedScrapeCountsOnce | database/queries.py:249 | another scrape of a product that is already counted leaves every merchant's product set unchanged |
| Queries.ResolvedKeywordIdsAppend | database/queries.py:321-325 | resolution keeps input order: resolving a + b is resolving a followed by resolving b |
| Queries.ResolvedKeywordIdsScoped | database/queries.py:321-328 | each resolved id belongs to a keyword of that client; there is at most one id per text; the result is empty exactly when no text resolves |
| Queries.ResolveKeywordIds | database/queries.py:321-325 | the loop's ids are the resolved ids of all texts, in input order |
| Queries.GetPositionTrendsOverTime | database/queries.py:291-377 | an empty keyword list, an unknown client, no resolving keyword or a store failure gives the empty table; otherwise the trend rows of the resolved keywords' scrapes in the range |
| Queries.PositionTrendsTable | database/queries.py:334-363 | rows strictly ascend by (date, keyword); there is one row for every group present; each row is its group's sum and size, with the average between the group's min and max position |
| Queries.TrendGroupOrigin | database/queries.py:341-346 | every trend group comes from an admitted scrape whose keyword id was resolved and whose text and date are the group's |
| Queries.FactKeywordInTable | database/queries.py:341-342 | a scrape's joined keyword is a row of the keywords table |
| Queries.KeywordIdDetermines | database/queries.py:342 | with unique ids, a keyword row is determined by its id |
| Queries.TrendGroupScoped | database/queries.py:341-355 | with unique ids, a trend group whose keyword ids all belong to the client is about a keyword text of that client, on a date inside a given range |
| Queries.PositionTrendsScoped | database/queries.py:313-363 | with unique ids, every trend row is about a keyword text of the named client, and its date lies within a given range |
| Dashboard.ClientNames | dashboard.py:47-58 | no clients gives no options; otherwise the options are the client names in list order |
| Dashboard.KeywordOptions | dashboard.py:94 | "All Keywords" followed by each keyword text in order, one more entry than keywords |
| Dashboard.KeywordFilter | dashboard.py:174 | the selection becomes no keyword exactly when it is "All Keywords"; otherwise it is the selection itself |
| Dashboard.KeywordClause | dashboard.py:135-138 | a keyword clause is added exactly when the keyword is given, non-empty and not "All Keywords" |
| Dashboard.GetFilteredTopProducts | dashboard.py:103-166 | an unknown client or a store failure gives the empty table; otherwise the top-products table with the keyword clause exactly when KeywordClause adds one |
| Dashboard.TopProductsChart | dashboard.py:88-221 | the two tables use position bounds 1 and 5 and the selected keyword; with "All Keywords" both equal the unfiltered top-products tables |
| Dashboard.TopOneWithinTopFive | dashboard.py:175-201 | a product's position-1 count is at most its top-5 count |
| Dashboard.KeywordNarrowsCount | dashboard.py:135-138 | counting one keyword's scrapes never exceeds counting all of the client's scrapes |
| Dashboard.SelectedKeywordsAllResolve | dashboard.py:235-246 | keywords picked from the client's own keyword texts all resolve: one id per selected keyword |
| Dashboard.ListMerchantProducts | dashboard.py:365-397 | a store failure gives the empty table; otherwise the listing is the top-ten ranked count per (title, rating, price) of the merchant's products in scrapes of clients with that name |
| Dashboard.MerchantListingTable | dashboard.py:365-387 | at most 10 rows, non-increasing, no (title, rating, price) twice; each count is the number of scrapes of that client name that show a product of the exact merchant with those columns; a group that occurs is listed, or ten groups occurring at least as often fill the table |
| Dashboard.IdenticallyDescribedProductsMerge | dashboard.py:383-384 | scrapes of different products sharing title, rating and price land in one row, counted at least twice |
| Dashboard.MerchantListingUnknownClient | dashboard.py:380-382 | a name that names no client lists nothing |

## Left out

- `database/connection.py`: environment lookup, client construction and caching are I/O with no logic.
- Rendering: Streamlit widgets, Plotly charts, columns, expanders and the control flow of `main` are not modelled. A widget's choice is a parameter of the model.
- SQL text: the model states the predicate each appended clause denotes, not the string bytes or their interpolation. The injection that f-string interpolation allows is therefore not modelled.
- Logging calls: they are a side channel and have no effect on any result.
- `pd.to_datetime` on the trend table: dates stay integers.
- Floating point: AVG is exact, as a sum and a count with their real quotient.
- Order among equal counts: SQL leaves it unspecified, so only non-increasing order is stated.
- Collation: the client list's `.order("name")` (`AllClients`) and the trend query's ORDER BY on keyword text are modelled as code-point lexicographic order. The database's collation may order non-ASCII text differently.
- `get_shipping_returns_by_merchant` is imported by the dashboard but defined nowhere, so it is not modelled. In the code as written the merchant listing runs only after that call succeeds, so the listing is modelled as the query text states it.
- Table-API failures: the client and keyword lookups always answer in the model; the source does not catch their exceptions either. The product lookup of the placeholder shipping query is the exception: its failure is caught there and is modelled by `rpc`.
- `COALESCE(p.merchant, 'Unknown')`: its fallback is unreachable behind `p.merchant IS NOT NULL`, so merchants are always the stored text.
- Negative LIMIT: the database rejects it, and the handler turns the failure into the empty table. The dashboard's listing uses the constant 10.
- Schema.KeywordNamed: returns the first match by table order, as `data[0]` does. Which row comes first when duplicate keyword texts exist depends on the store's order, which is not modelled.
- Dashboard.ClientNames: describes the options, not which one the user picks. The first one is the widget's default.
- Joins: every JOIN is a first-match lookup by id, giving one fact per scrape. That equals SQL's inner join only when primary keys are unique (`Schema.ProductByIdIsJoin` proves this for products). With duplicate ids, SQL would repeat a scrape once per matching row; the model does not capture that. The schema promises unique keys, but the model does not enforce them.
- Queries.PositionTrendsScoped: needs unique primary keys, for the same reason.
- Default arguments: the defaults `max_position=5` and `limit=10` (`get_top_products`), `limit=10` (`get_top_filters_by_keyword`, `get_merchant_distribution`) and `top_n=10` (`render_top_products_chart`) are not modelled. Each is an explicit parameter that callers always supply.

/**
 * The five read-only tables of the scrape store and the lookups the queries perform on them.
 * A scrape date is a day number; nullable columns are Options.
 */
module Schema {
  import opened Wrappers

  type Date = int

  datatype Client = Client(id: int, name: string)

  datatype Keyword = Keyword(id: int, clientId: int, keyword: string)

  datatype Product = Product(
    id: int,
    productId: string,         // the marketplace's own product id
    title: string,
    link: string,
    merchant: Option<string>,
    rating: Option<real>,
    price: Option<real>)

  datatype ProductScrape = ProductScrape(
    id: int,
    productId: int,            // references Product.id
    keywordId: int,            // references Keyword.id
    scrapeDateId: int,         // references ScrapeDate.id
    position: int,             // 1-based rank in the search results
    filters: Option<string>)   // the refinement filters active during the scrape

  datatype ScrapeDate = ScrapeDate(id: int, scrapeDate: Date)

  datatype Db = Db(
    clients: seq<Client>,
    keywords: seq<Keyword>,
    products: seq<Product>,
    scrapes: seq<ProductScrape>,
    scrapeDates: seq<ScrapeDate>)

  /** Primary keys: no two rows of a table share an id. */
  ghost predicate UniqueIds(db: Db) {
    && (forall i, j :: 0 <= i < j < |db.clients| ==> db.clients[i].id != db.clients[j].id)
    && (forall i, j :: 0 <= i < j < |db.keywords| ==> db.keywords[i].id != db.keywords[j].id)
    && (forall i, j :: 0 <= i < j < |db.products| ==> db.products[i].id != db.products[j].id)
    && (forall i, j :: 0 <= i < j < |db.scrapeDates| ==> db.scrapeDates[i].id != db.scrapeDates[j].id)
  }

  /** select id from clients where name = name: the first matching row. */
  function ClientNamed(clients: seq<Client>, name: string): (r: Option<Client>)
    ensures r.None? <==> forall c :: c in clients ==> c.name != name
    ensures r.Some? ==> r.value in clients && r.value.name == name
  {
    if clients == [] then None
    else if clients[0].name == name then Some(clients[0])
    else ClientNamed(clients[1..], name)
  }

  /** The row a foreign key client_id refers to, if any. */
  function ClientById(clients: seq<Client>, id: int): (r: Option<Client>)
    ensures r.None? <==> forall c :: c in clients ==> c.id != id
    ensures r.Some? ==> r.value in clients && r.value.id == id
  {
    if clients == [] then None
    else if clients[0].id == id then Some(clients[0])
    else ClientById(clients[1..], id)
  }

  /** The row a foreign key keyword_id refers to, if any. */
  function KeywordById(keywords: seq<Keyword>, id: int): (r: Option<Keyword>)
    ensures r.None? <==> forall k :: k in keywords ==> k.id != id
    ensures r.Some? ==> r.value in keywords && r.value.id == id
  {
    if keywords == [] then None
    else if keywords[0].id == id then Some(keywords[0])
    else KeywordById(keywords[1..], id)
  }

  /** select id from keywords where keyword = text and client_id = clientId: the first matching row. */
  function KeywordNamed(keywords: seq<Keyword>, clientId: int, text: string): (r: Option<Keyword>)
    ensures r.None? <==> forall k :: k in keywords ==> !(k.keyword == text && k.clientId == clientId)
    ensures r.Some? ==> r.value in keywords && r.value.keyword == text && r.value.clientId == clientId
  {
    if keywords == [] then None
    else if keywords[0].keyword == text && keywords[0].clientId == clientId then Some(keywords[0])
    else KeywordNamed(keywords[1..], clientId, text)
  }

  /** The row a foreign key product_id refers to, if any. */
  function ProductById(products: seq<Product>, id: int): (r: Option<Product>)
    ensures r.None? <==> forall p :: p in products ==> p.id != id
    ensures r.Some? ==> r.value in products && r.value.id == id
  {
    if products == [] then None
    else if products[0].id == id then Some(products[0])
    else ProductById(products[1..], id)
  }

  /** The row a foreign key scrape_date_id refers to, if any. */
  function ScrapeDateById(dates: seq<ScrapeDate>, id: int): (r: Option<ScrapeDate>)
    ensures r.None? <==> forall d :: d in dates ==> d.id != id
    ensures r.Some? ==> r.value in dates && r.value.id == id
  {
    if dates == [] then None
    else if dates[0].id == id then Some(dates[0])
    else ScrapeDateById(dates[1..], id)
  }

  /**
   * With unique ids the first-match lookup is exactly the equi-join of SQL:
   * a scrape joins the one product whose id it references, and no other.
   */
  lemma {:induction false} ProductByIdIsJoin(products: seq<Product>, id: int, p: Product)
    requires forall i, j :: 0 <= i < j < |products| ==> products[i].id != products[j].id
    ensures ProductById(products, id) == Some(p) <==> p in products && p.id == id
  {
    if products != [] && products[0].id != id {
      var rest := products[1..];
      assert forall i, j :: 0 <= i < j < |rest| ==> rest[i].id != rest[j].id by {
        forall i, j | 0 <= i < j < |rest| ensures rest[i].id != rest[j].id {
          assert rest[i] == products[i + 1] && rest[j] == products[j + 1];
        }
      }
      ProductByIdIsJoin(rest, id, p);
      assert p in products ==> p == products[0] || p in rest;
    } else if products != [] && p in products && p.id == id {
      var k :| 0 <= k < |products| && products[k] == p;
      assert k == 0;
    }
  }
}

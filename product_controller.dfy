/** The product endpoints' controller: it reads the query string, calls the
    product service and wraps the result in a JSON reply. Query parameters
    are given as optional strings (absent when the request has none). */
module ProductController {
  import opened Values
  import opened Text
  import opened ProductService

  /** What a handler does: answer with a status and a body, or pass an
      error on to the error middleware (`next(error)`). */
  datatype Reply =
    | Listed(count: nat, data: seq<Product>)     // 200 { success: true, count, data }
    | Found(product: Product)                    // 200 { success: true, data }
    | NotFound(message: string)                  // 404 { success: false, message }
    | BadRequest(message: string)                // 400 { success: false, message }
    | PassedOn(error: string)                    // next(error)

  /** Every list reply counts exactly the products it carries. */
  function ListReply(products: seq<Product>): (r: Reply)
    ensures r.Listed? && r.count == |r.data| && r.data == products
  {
    Listed(|products|, products)
  }

  /** `getAllProducts`: the service's list for its default limit of 50,
      with its count; each id once. */
  function GetAllProducts(cat: Catalogue): (r: Reply)
    ensures r.Listed? && r.count == |r.data| <= 50
    ensures r.data == AllProducts(cat, 50)
    ensures DistinctIds(r.data)
  {
    AllProductsProps(cat, 50);
    ListReply(AllProducts(cat, 50))
  }

  // ---------------------------------------------------------------------
  // getRecommendations: the conditions list
  // ---------------------------------------------------------------------

  /** `conditions ? conditions.split(',').map(c => c.trim()) : []`. */
  function ParseConditions(conditions: Option<string>): (r: seq<string>)
    ensures conditions.None? || conditions.value == "" ==> r == []
    ensures conditions.Some? && conditions.value != "" ==>
      |r| == |Split(conditions.value, ',')| && forall k :: 0 <= k < |r| ==> r[k] == Trim(Split(conditions.value, ',')[k])
  {
    if conditions.None? || conditions.value == "" then []
    else
      var parts := Split(conditions.value, ',');
      seq(|parts|, k requires 0 <= k < |parts| => Trim(parts[k]))
  }

  function CountChar(s: string, c: char): nat
  {
    if |s| == 0 then 0 else (if s[0] == c then 1 else 0) + CountChar(s[1..], c)
  }

  /** Splitting yields one more piece than there are separators. */
  lemma {:induction false} SplitCount(s: string, d: char)
    ensures |Split(s, d)| == CountChar(s, d) + 1
    decreases |s|
  {
    if |s| > 0 {
      SplitCount(s[1..], d);
    }
  }

  /** Trimming keeps a piece of the original: it adds no character. */
  lemma TrimWithin(s: string, c: char)
    requires c !in s
    ensures c !in Trim(s)
  {
    var t := TrimStart(s);
    forall i | 0 <= i < |t| ensures t[i] != c {
      assert t[i] == s[|s| - |t| + i];
    }
    var u := TrimEnd(t);
    forall i | 0 <= i < |u| ensures u[i] != c {
      assert u[i] == t[i];
    }
  }

  /** A present, non-empty parameter gives one condition per comma plus one,
      each trimmed at both ends and free of commas; an absent or empty one
      gives no condition at all. */
  lemma ConditionsShape(conditions: Option<string>)
    ensures conditions.None? || conditions.value == "" ==> ParseConditions(conditions) == []
    ensures conditions.Some? && conditions.value != "" ==>
      |ParseConditions(conditions)| == CountChar(conditions.value, ',') + 1
    ensures forall k :: 0 <= k < |ParseConditions(conditions)| ==>
      var c := ParseConditions(conditions)[k];
      ',' !in c && (c == [] || (!JsWhitespace(c[0]) && !JsWhitespace(c[|c| - 1])))
  {
    if conditions.Some? && conditions.value != "" {
      var parts := Split(conditions.value, ',');
      SplitCount(conditions.value, ',');
      forall k | 0 <= k < |parts| ensures ',' !in Trim(parts[k]) {
        TrimWithin(parts[k], ',');
      }
    }
  }

  /** `getRecommendations`: the service with its default limit of 10, so
      at most 10 products, each id once; no conditions give the trending
      list. */
  function GetRecommendations(cat: Catalogue, conditions: Option<string>): (r: Reply)
    ensures r.Listed? && r.count == |r.data|
    ensures r.data == Recommendations(cat, ParseConditions(conditions), 10)
    ensures r.count <= 10 && DistinctIds(r.data)
    ensures conditions.None? || conditions.value == "" ==> r.data == AllProducts(cat, 10)
  {
    RecommendationsProps(cat, ParseConditions(conditions), 10);
    TrendingIsAllProducts(cat, 10);
    ListReply(Recommendations(cat, ParseConditions(conditions), 10))
  }

  // ---------------------------------------------------------------------
  // getTrendingProducts: the limit
  // ---------------------------------------------------------------------

  /** `parseInt(req.query.limit) || 10`: NaN and 0 fall back to 10; any other
      value, negative ones included, is kept. */
  function TrendingLimit(limit: Option<string>): (n: int)
    ensures n != 0
    ensures limit.None? ==> n == 10
    ensures limit.Some? && ParseInt(limit.value).Some? && ParseInt(limit.value).value != 0 ==>
      n == ParseInt(limit.value).value
    ensures limit.Some? && (ParseInt(limit.value).None? || ParseInt(limit.value) == Some(0)) ==> n == 10
  {
    if limit.None? then 10
    else match ParseInt(limit.value)
      case None => 10
      case Some(v) => if v == 0 then 10 else v
  }

  /** A decimal `limit` (after white space and a sign, up to the first
      non-digit) is read as its value, and a zero value gives 10. */
  lemma TrendingLimitDecimal(ws: string, sign: string, digits: string, rest: string)
    requires forall i :: 0 <= i < |ws| ==> JsWhitespace(ws[i])
    requires sign == "" || sign == "+" || sign == "-"
    requires |digits| > 0 && AllDigits(digits, 10)
    requires rest == [] || !IsDecimalDigit(rest[0])
    requires !(digits == "0" && |rest| > 0 && (rest[0] == 'x' || rest[0] == 'X'))
    ensures var v := WithSign(sign, DigitsValue(digits, 10));
      TrendingLimit(Some(ws + sign + digits + rest)) == if v == 0 then 10 else v
  {
    ParseIntDecimal(ws, sign, digits, rest);
  }

  /** A `limit` with no digit after the white space and the sign is `NaN`,
      which gives 10. */
  lemma TrendingLimitNaN(ws: string, sign: string, rest: string)
    requires forall i :: 0 <= i < |ws| ==> JsWhitespace(ws[i])
    requires sign == "" || sign == "+" || sign == "-"
    requires sign == "" ==> rest == [] || (!JsWhitespace(rest[0]) && rest[0] != '+' && rest[0] != '-')
    requires rest == [] || !IsDecimalDigit(rest[0])
    ensures TrendingLimit(Some(ws + sign + rest)) == 10
  {
    ParseIntNaN(ws, sign, rest);
  }

  /** `getTrendingProducts`: the service's trending list for the parsed
      limit; a positive limit gives the first `limit` catalogue products,
      each id once. */
  function GetTrendingProducts(cat: Catalogue, limit: Option<string>): (r: Reply)
    ensures r.Listed? && r.count == |r.data|
    ensures r.data == Trending(cat, TrendingLimit(limit))
    ensures TrendingLimit(limit) > 0 ==> r.data == AllProducts(cat, TrendingLimit(limit)) && r.count <= TrendingLimit(limit)
    ensures DistinctIds(r.data)
    ensures limit.None? ==> r.data == AllProducts(cat, 10)
  {
    var n := TrendingLimit(limit);
    TrendingDistinct(cat, n);
    assert n > 0 ==> Trending(cat, n) == AllProducts(cat, n) by {
      if n > 0 {
        TrendingIsAllProducts(cat, n);
      }
    }
    ListReply(Trending(cat, n))
  }

  // ---------------------------------------------------------------------
  // searchProducts
  // ---------------------------------------------------------------------

  const QueryRequired: string := "Search query is required"

  /** `searchProducts`: a missing or empty `q` is refused with 400 before the
      service is consulted; otherwise the service's default limit of 10. */
  function SearchProducts(cat: Catalogue, q: Option<string>): (r: Reply)
    ensures r.BadRequest? <==> q.None? || q.value == ""
    ensures r.BadRequest? ==> r.message == QueryRequired
    ensures r.Listed? ==> r.count == |r.data| && r.data == Search(cat, q.value, 10)
  {
    if q.None? || q.value == "" then BadRequest(QueryRequired)
    else ListReply(Search(cat, q.value, 10))
  }

  /** Without a query the reply does not depend on the catalogue. */
  lemma SearchGuardIgnoresCatalogue(cat1: Catalogue, cat2: Catalogue, q: Option<string>)
    requires q.None? || q.value == ""
    ensures SearchProducts(cat1, q) == SearchProducts(cat2, q) == BadRequest(QueryRequired)
  {
  }

  // ---------------------------------------------------------------------
  // getProductById
  // ---------------------------------------------------------------------

  /** `getProductById` as written: the product service has no
      `getProductById`, so the call throws a `TypeError` which is passed on,
      whatever the id. */
  function GetProductByIdAsWritten(id: string): (r: Reply)
    ensures r.PassedOn? && !r.NotFound? && !r.Found?
  {
    PassedOn("productService.getProductById is not a function")
  }

  /** No id ever reaches the 404 or the 200 branch. */
  lemma ProductByIdNeverAnswers(id: string)
    ensures GetProductByIdAsWritten(id).PassedOn?
    ensures !GetProductByIdAsWritten(id).NotFound? && !GetProductByIdAsWritten(id).Found?
  {
  }

  /** The product whose id is `id`, first match in catalogue order. */
  function FindById(ps: seq<Product>, id: string): (r: Option<Product>)
    ensures r.Some? ==> r.value in ps && r.value.id == id
    ensures r.None? ==> forall p :: p in ps ==> p.id != id
  {
    if |ps| == 0 then None
    else if ps[0].id == id then Some(ps[0])
    else FindById(ps[1..], id)
  }

  /** `getProductById` with the look-up it means to call: a known id answers
      200 with its product, an unknown one 404. */
  function GetProductById(cat: Catalogue, id: string): (r: Reply)
    ensures r.NotFound? <==> forall p :: p in Everything(cat) ==> p.id != id
    ensures r.NotFound? ==> r.message == "Product not found"
    ensures r.Found? ==> r.product in Everything(cat) && r.product.id == id
    ensures !r.PassedOn?
  {
    match FindById(Everything(cat), id)
    case None => NotFound("Product not found")
    case Some(p) => Found(p)
  }
}

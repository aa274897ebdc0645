/** The product listing client: request options, the endpoint they select,
    the URL, and the normalised page. The HTTP exchange is a parameter. */
module ProductsApi {
  import opened Wrappers
  import opened Items
  import opened ErrorHandler

  const DefaultLimit: nat := 12
  const DefaultSkip: nat := 0
  const ListingPrefix := "https://dummyjson.com/products?limit="
  const SearchPrefix := "https://dummyjson.com/products/search?q="

  /** The options object; a missing field is None. */
  datatype FetchOptions = FetchOptions(limit: Option<nat>, skip: Option<nat>, q: Option<string>)

  /** The two endpoints of the catalogue service. */
  datatype Endpoint =
    | Listing(limit: nat, skip: nat)
    | Search(query: string, limit: nat, skip: nat)

  /** The body of a successful response; a field that is absent, null or
      otherwise falsy in the JSON is None. */
  datatype RawBody = RawBody(products: Option<seq<Item>>, total: Option<int>)

  /** What a fetch resolves to. */
  datatype Page = Page(products: seq<Item>, total: int)

  /** The characters String.prototype.trim removes: white space and line
      terminators of ECMAScript. */
  predicate IsJsWhitespace(c: char)
  {
    c == '\t' || c == '\n' || c == '\U{000B}' || c == '\U{000C}' || c == '\r' || c == ' '
    || c == '\U{00A0}' || c == '\U{1680}' || ('\U{2000}' <= c <= '\U{200A}')
    || c == '\U{2028}' || c == '\U{2029}' || c == '\U{202F}' || c == '\U{205F}'
    || c == '\U{3000}' || c == '\U{FEFF}'
  }

  predicate AllWhitespace(s: string)
  {
    forall i :: 0 <= i < |s| ==> IsJsWhitespace(s[i])
  }

  function TrimStart(s: string): (r: string)
    ensures |r| <= |s| && r == s[|s| - |r|..]
    ensures r != [] ==> !IsJsWhitespace(r[0])
  {
    if s != [] && IsJsWhitespace(s[0]) then TrimStart(s[1..]) else s
  }

  function TrimEnd(s: string): (r: string)
    ensures |r| <= |s| && r == s[..|r|]
    ensures r != [] ==> !IsJsWhitespace(r[|r| - 1])
  {
    if s != [] && IsJsWhitespace(s[|s| - 1]) then TrimEnd(s[..|s| - 1]) else s
  }

  /** What TrimStart removes is white space. */
  lemma {:induction false} TrimStartDrops(s: string)
    ensures AllWhitespace(s[..|s| - |TrimStart(s)|])
  {
    if s != [] && IsJsWhitespace(s[0]) {
      TrimStartDrops(s[1..]);
      var n := |s| - |TrimStart(s)|;
      forall i | 0 <= i < n ensures IsJsWhitespace(s[i]) {
        if i > 0 {
          assert s[i] == s[1..][..n - 1][i - 1];
        }
      }
    }
  }

  /** What TrimEnd removes is white space. */
  lemma {:induction false} TrimEndDrops(s: string)
    ensures AllWhitespace(s[|TrimEnd(s)|..])
  {
    if s != [] && IsJsWhitespace(s[|s| - 1]) {
      var t := s[..|s| - 1];
      TrimEndDrops(t);
      var m := |TrimEnd(s)|;
      forall i | m <= i < |s| ensures IsJsWhitespace(s[i]) {
        if i < |s| - 1 {
          assert s[i] == t[m..][i - m];
        }
      }
      assert forall i :: 0 <= i < |s| - m ==> s[m..][i] == s[m + i];
    }
  }

  function Trim(s: string): string
  {
    TrimEnd(TrimStart(s))
  }

  /** The trimmed query is empty exactly when the query is all white space,
      and otherwise it is a slice of the query with no white space at
      either end. */
  lemma TrimSpec(s: string)
    ensures Trim(s) == [] <==> AllWhitespace(s)
    ensures Trim(s) != [] ==> !IsJsWhitespace(Trim(s)[0]) && !IsJsWhitespace(Trim(s)[|Trim(s)| - 1])
    ensures exists i, j :: 0 <= i <= j <= |s| && Trim(s) == s[i..j]
  {
    var t := TrimStart(s);
    var n := |s| - |t|;
    TrimStartDrops(s);
    TrimEndDrops(t);
    if Trim(s) == [] {
      forall i | 0 <= i < |s| ensures IsJsWhitespace(s[i]) {
        assert s[i] == s[..n][i];
      }
    }
    assert Trim(s) == t[..|Trim(s)|];
    assert Trim(s) == s[n..n + |Trim(s)|];
  }

  /** `q && q.trim()`: a query that is present, non-empty and not blank. */
  predicate NonBlank(q: Option<string>)
  {
    q.Some? && q.value != [] && Trim(q.value) != []
  }

  lemma NonBlankSpec(q: Option<string>)
    ensures NonBlank(q) <==> q.Some? && !AllWhitespace(q.value)
  {
    if q.Some? {
      TrimSpec(q.value);
    }
  }

  /** The defaults are applied, and a non-blank query selects the search
      endpoint with the query as given (untrimmed). */
  function EndpointOf(options: FetchOptions): (e: Endpoint)
    ensures e.limit == options.limit.GetOr(DefaultLimit)
    ensures e.skip == options.skip.GetOr(DefaultSkip)
    ensures e.Search? <==> options.q.Some? && !AllWhitespace(options.q.value)
    ensures e.Search? ==> e.query == options.q.value
  {
    var limit := options.limit.GetOr(DefaultLimit);
    var skip := options.skip.GetOr(DefaultSkip);
    NonBlankSpec(options.q);
    if NonBlank(options.q) then Search(options.q.value, limit, skip)
    else Listing(limit, skip)
  }

  function DigitChar(d: nat): char
    requires d < 10
  {
    "0123456789"[d]
  }

  /** A natural number written in base ten without leading zeros. */
  function Decimal(n: nat): (r: string)
    ensures r != []
    ensures forall i :: 0 <= i < |r| ==> '0' <= r[i] <= '9'
  {
    if n < 10 then [DigitChar(n)] else Decimal(n / 10) + [DigitChar(n % 10)]
  }

  /** The number a string of decimal digits denotes. */
  function DecimalValue(s: string): nat
    requires forall i :: 0 <= i < |s| ==> '0' <= s[i] <= '9'
  {
    if s == [] then 0
    else DecimalValue(s[..|s| - 1]) * 10 + ((s[|s| - 1] as int) - ('0' as int))
  }

  lemma {:induction false} DecimalRoundTrip(n: nat)
    ensures DecimalValue(Decimal(n)) == n
  {
    if n >= 10 {
      var r := Decimal(n);
      assert r[..|r| - 1] == Decimal(n / 10);
      DecimalRoundTrip(n / 10);
    }
  }

  /** The request URL; encodeURIComponent is the parameter `encode`. */
  function Url(e: Endpoint, encode: string -> string): (r: string)
    ensures e.Listing? ==> |r| > |ListingPrefix| + |Decimal(e.limit)| && r[..|ListingPrefix|] == ListingPrefix
    ensures e.Listing? ==> r[|ListingPrefix|..][..|Decimal(e.limit)|] == Decimal(e.limit)
    ensures e.Search? ==> |r| > |SearchPrefix| + |encode(e.query)| && r[..|SearchPrefix|] == SearchPrefix
    ensures e.Search? ==> r[|SearchPrefix|..][..|encode(e.query)|] == encode(e.query)
  {
    match e
    case Listing(limit, skip) =>
      ListingPrefix + Decimal(limit) + "&skip=" + Decimal(skip)
    case Search(query, limit, skip) =>
      SearchPrefix + encode(query) + "&limit=" + Decimal(limit) + "&skip=" + Decimal(skip)
  }

  /** The two endpoints never share a URL: they part at the character after
      "products". */
  lemma UrlNamesEndpoint(e: Endpoint, encode: string -> string)
    ensures Url(e, encode)[30] == (if e.Search? then '/' else '?')
  {
  }

  /** `products || []` and `total || 0`. */
  function Normalise(body: RawBody): (p: Page)
    ensures body.products.Some? ==> p.products == body.products.value
    ensures body.products.None? ==> p.products == []
    ensures p.total == (if body.total.Some? then body.total.value else 0)
  {
    Page(body.products.GetOr([]), body.total.GetOr(0))
  }

  /** fetchProducts: the response of the request, normalised, or the
      message of the error it was rejected with. */
  function FetchProducts(options: FetchOptions, response: Result<RawBody, HttpError>): (r: Result<Page, string>)
    ensures response.Ok? <==> r.Ok?
    ensures r.Ok? ==> r.value == Normalise(response.value)
    ensures r.Err? ==> r.error == HandleError(response.error)
  {
    match response
    case Ok(body) => Ok(Normalise(body))
    case Err(e) => Err(HandleError(e))
  }
}

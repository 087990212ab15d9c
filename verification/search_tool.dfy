/** The `search_photo` tool: the argument schema, the defaults filled in for
    absent arguments, the query parameters and the authorization header of
    the upstream search request, and the single text item the handler
    returns. The HTTP call itself is a parameter of the model. */
module SearchTool {
  import opened Wrappers
  import opened JsValues

  // ---------------------------------------------------------------------
  // Enumerated arguments and their wire names

  datatype OrderBy = Latest | Relevant
  datatype ContentFilter = Low | High
  datatype Color =
    | BlackAndWhite | Black | White | Yellow | Orange | Red
    | Purple | Magenta | Green | Teal | Blue
  datatype Orientation = Landscape | Portrait | Squarish

  function OrderByName(o: OrderBy): string {
    match o
    case Latest => "latest"
    case Relevant => "relevant"
  }

  function ContentFilterName(f: ContentFilter): string {
    match f
    case Low => "low"
    case High => "high"
  }

  function ColorName(c: Color): string {
    match c
    case BlackAndWhite => "black_and_white"
    case Black => "black"
    case White => "white"
    case Yellow => "yellow"
    case Orange => "orange"
    case Red => "red"
    case Purple => "purple"
    case Magenta => "magenta"
    case Green => "green"
    case Teal => "teal"
    case Blue => "blue"
  }

  function OrientationName(o: Orientation): string {
    match o
    case Landscape => "landscape"
    case Portrait => "portrait"
    case Squarish => "squarish"
  }

  /** The schema's `order_by` enum: exactly the two listed names are accepted. */
  function ParseOrderBy(s: string): (r: Option<OrderBy>)
    ensures forall o :: r == Some(o) <==> OrderByName(o) == s
  {
    if s == "latest" then Some(Latest)
    else if s == "relevant" then Some(Relevant)
    else None
  }

  function ParseContentFilter(s: string): (r: Option<ContentFilter>)
    ensures forall f :: r == Some(f) <==> ContentFilterName(f) == s
  {
    if s == "low" then Some(Low)
    else if s == "high" then Some(High)
    else None
  }

  function ParseColor(s: string): (r: Option<Color>)
    ensures forall c :: r == Some(c) <==> ColorName(c) == s
  {
    if s == "black_and_white" then Some(BlackAndWhite)
    else if s == "black" then Some(Black)
    else if s == "white" then Some(White)
    else if s == "yellow" then Some(Yellow)
    else if s == "orange" then Some(Orange)
    else if s == "red" then Some(Red)
    else if s == "purple" then Some(Purple)
    else if s == "magenta" then Some(Magenta)
    else if s == "green" then Some(Green)
    else if s == "teal" then Some(Teal)
    else if s == "blue" then Some(Blue)
    else None
  }

  function ParseOrientation(s: string): (r: Option<Orientation>)
    ensures forall o :: r == Some(o) <==> OrientationName(o) == s
  {
    if s == "landscape" then Some(Landscape)
    else if s == "portrait" then Some(Portrait)
    else if s == "squarish" then Some(Squarish)
    else None
  }

  /** Every color in declaration order; the schema lists eleven. */
  const AllColors: seq<Color> :=
    [BlackAndWhite, Black, White, Yellow, Orange, Red, Purple, Magenta, Green, Teal, Blue]

  /** The schema accepts exactly eleven distinct color names. */
  lemma ElevenColors()
    ensures |AllColors| == 11
    ensures forall c: Color :: c in AllColors
    ensures forall i, j :: 0 <= i < j < |AllColors| ==> ColorName(AllColors[i]) != ColorName(AllColors[j])
  {
    forall c: Color
      ensures c in AllColors
    {
      match c
      case BlackAndWhite => assert AllColors[0] == c;
      case Black => assert AllColors[1] == c;
      case White => assert AllColors[2] == c;
      case Yellow => assert AllColors[3] == c;
      case Orange => assert AllColors[4] == c;
      case Red => assert AllColors[5] == c;
      case Purple => assert AllColors[6] == c;
      case Magenta => assert AllColors[7] == c;
      case Green => assert AllColors[8] == c;
      case Teal => assert AllColors[9] == c;
      case Blue => assert AllColors[10] == c;
    }
  }

  // ---------------------------------------------------------------------
  // Arguments

  /** Arguments as a client sends them, before schema validation; the enum
      fields are still free text. */
  datatype RawArgs = RawArgs(
    query: string,
    page: Option<int>,
    perPage: Option<int>,
    orderBy: Option<string>,
    collections: Option<string>,
    contentFilter: Option<string>,
    color: Option<string>,
    orientation: Option<string>)

  /** Arguments the schema accepted; absent fields stay absent. */
  datatype SearchArgs = SearchArgs(
    query: string,
    page: Option<int>,
    perPage: Option<int>,
    orderBy: Option<OrderBy>,
    collections: Option<string>,
    contentFilter: Option<ContentFilter>,
    color: Option<Color>,
    orientation: Option<Orientation>)

  /** An absent field is accepted; a present one must parse. */
  function ParseOptional<T>(s: Option<string>, parse: string -> Option<T>): (r: Option<Option<T>>)
    ensures r.Some? <==> s.None? || parse(s.value).Some?
    ensures r.Some? && s.Some? ==> r.value == parse(s.value)
    ensures r.Some? && s.None? ==> r.value.None?
  {
    match s
    case None => Some(None)
    case Some(v) => if parse(v).Some? then Some(parse(v)) else None
  }

  /** Schema validation of the tool arguments: rejected (None) exactly when
      some present enum field names a value the schema does not list. */
  function Validate(raw: RawArgs): (r: Option<SearchArgs>)
    ensures r.Some? <==>
      && (raw.orderBy.None? || ParseOrderBy(raw.orderBy.value).Some?)
      && (raw.contentFilter.None? || ParseContentFilter(raw.contentFilter.value).Some?)
      && (raw.color.None? || ParseColor(raw.color.value).Some?)
      && (raw.orientation.None? || ParseOrientation(raw.orientation.value).Some?)
    ensures r.Some? ==>
      && r.value.query == raw.query && r.value.page == raw.page && r.value.perPage == raw.perPage
      && r.value.collections == raw.collections
      && NameOf(r.value.orderBy, OrderByName) == raw.orderBy
      && NameOf(r.value.contentFilter, ContentFilterName) == raw.contentFilter
      && NameOf(r.value.color, ColorName) == raw.color
      && NameOf(r.value.orientation, OrientationName) == raw.orientation
  {
    var orderBy :- ParseOptional(raw.orderBy, ParseOrderBy);
    var contentFilter :- ParseOptional(raw.contentFilter, ParseContentFilter);
    var color :- ParseOptional(raw.color, ParseColor);
    var orientation :- ParseOptional(raw.orientation, ParseOrientation);
    Some(SearchArgs(raw.query, raw.page, raw.perPage, orderBy, raw.collections,
                    contentFilter, color, orientation))
  }

  /** The wire name of an optional enum value; absent stays absent. */
  function NameOf<T>(v: Option<T>, name: T -> string): Option<string> {
    match v
    case None => None
    case Some(x) => Some(name(x))
  }

  /** The raw arguments a client sends for the given validated arguments. */
  function ToRaw(args: SearchArgs): RawArgs {
    RawArgs(args.query, args.page, args.perPage, NameOf(args.orderBy, OrderByName),
            args.collections, NameOf(args.contentFilter, ContentFilterName),
            NameOf(args.color, ColorName), NameOf(args.orientation, OrientationName))
  }

  /** Validation accepts every well-typed argument record and loses nothing. */
  lemma ValidateAcceptsWellTyped(args: SearchArgs)
    ensures Validate(ToRaw(args)) == Some(args)
  {
    OrderByNameParses(args.orderBy);
    ContentFilterNameParses(args.contentFilter);
    ColorNameParses(args.color);
    OrientationNameParses(args.orientation);
  }

  lemma OrderByNameParses(v: Option<OrderBy>)
    ensures ParseOptional(NameOf(v, OrderByName), ParseOrderBy) == Some(v)
  {
    if v.Some? { assert ParseOrderBy(OrderByName(v.value)) == Some(v.value); }
  }

  lemma ContentFilterNameParses(v: Option<ContentFilter>)
    ensures ParseOptional(NameOf(v, ContentFilterName), ParseContentFilter) == Some(v)
  {
    if v.Some? { assert ParseContentFilter(ContentFilterName(v.value)) == Some(v.value); }
  }

  lemma ColorNameParses(v: Option<Color>)
    ensures ParseOptional(NameOf(v, ColorName), ParseColor) == Some(v)
  {
    if v.Some? { assert ParseColor(ColorName(v.value)) == Some(v.value); }
  }

  lemma OrientationNameParses(v: Option<Orientation>)
    ensures ParseOptional(NameOf(v, OrientationName), ParseOrientation) == Some(v)
  {
    if v.Some? { assert ParseOrientation(OrientationName(v.value)) == Some(v.value); }
  }

  // ---------------------------------------------------------------------
  // Defaults

  const DefaultPage: int := 1
  const DefaultPerPage: int := 10

  /** The arguments after destructuring with defaults: every field the
      upstream request always carries has a value. */
  datatype SearchRequest = SearchRequest(
    query: string,
    page: int,
    perPage: int,
    orderBy: OrderBy,
    collections: Option<string>,
    contentFilter: ContentFilter,
    color: Option<Color>,
    orientation: Option<Orientation>)

  /** Absent `page`, `per_page`, `order_by` and `content_filter` become 1, 10,
      "relevant" and "low"; supplied values, and every other field, pass
      through unchanged. */
  function FillDefaults(args: SearchArgs): (r: SearchRequest)
    ensures r.query == args.query
    ensures args.page.Some? ==> r.page == args.page.value
    ensures args.page.None? ==> r.page == DefaultPage
    ensures args.perPage.Some? ==> r.perPage == args.perPage.value
    ensures args.perPage.None? ==> r.perPage == DefaultPerPage
    ensures args.orderBy.Some? ==> r.orderBy == args.orderBy.value
    ensures args.orderBy.None? ==> r.orderBy == Relevant
    ensures args.contentFilter.Some? ==> r.contentFilter == args.contentFilter.value
    ensures args.contentFilter.None? ==> r.contentFilter == Low
    ensures r.collections == args.collections && r.color == args.color && r.orientation == args.orientation
  {
    SearchRequest(
      args.query,
      args.page.GetOr(DefaultPage),
      args.perPage.GetOr(DefaultPerPage),
      args.orderBy.GetOr(Relevant),
      args.collections,
      args.contentFilter.GetOr(Low),
      args.color,
      args.orientation)
  }

  /** The arguments of a caller who spells out every defaulted field. */
  function Supplied(req: SearchRequest): SearchArgs {
    SearchArgs(req.query, Some(req.page), Some(req.perPage), Some(req.orderBy),
               req.collections, Some(req.contentFilter), req.color, req.orientation)
  }

  /** Defaults never override a supplied value: spelling out every field
      yields exactly that request back. */
  lemma DefaultsKeepSupplied(req: SearchRequest)
    ensures FillDefaults(Supplied(req)) == req
  {
  }

  /** Leaving a field out is the same as supplying its default. */
  lemma OmittedMeansDefault(args: SearchArgs)
    ensures FillDefaults(args) == FillDefaults(args.(
      page := Some(args.page.GetOr(DefaultPage)),
      perPage := Some(args.perPage.GetOr(DefaultPerPage)),
      orderBy := Some(args.orderBy.GetOr(Relevant)),
      contentFilter := Some(args.contentFilter.GetOr(Low))))
  {
  }

  // ---------------------------------------------------------------------
  // Query parameters

  type Param = (string, string)

  function KeySet(ps: seq<Param>): set<string> {
    set i | 0 <= i < |ps| :: ps[i].0
  }

  lemma KeySetAppend(a: seq<Param>, b: seq<Param>)
    ensures KeySet(a + b) == KeySet(a) + KeySet(b)
  {
    var ab := a + b;
    forall k | k in KeySet(a)
      ensures k in KeySet(ab)
    {
      var i :| 0 <= i < |a| && a[i].0 == k;
      assert ab[i].0 == k;
    }
    forall k | k in KeySet(ab)
      ensures k in KeySet(a) + KeySet(b)
    {
      var i :| 0 <= i < |ab| && ab[i].0 == k;
      if i >= |a| {
        assert b[i - |a|].0 == k;
      }
    }
    forall k | k in KeySet(b)
      ensures k in KeySet(ab)
    {
      var i :| 0 <= i < |b| && b[i].0 == k;
      assert ab[|a| + i].0 == k;
    }
  }

  predicate DistinctKeys(ps: seq<Param>) {
    forall i, j :: 0 <= i < j < |ps| ==> ps[i].0 != ps[j].0
  }

  /** The value of the first parameter named `key`. */
  function Lookup(ps: seq<Param>, key: string): Option<string> {
    if |ps| == 0 then None
    else if ps[0].0 == key then Some(ps[0].1)
    else Lookup(ps[1..], key)
  }

  /** A name that no parameter carries is not found. */
  lemma {:induction false} LookupMissing(ps: seq<Param>, key: string)
    requires key !in KeySet(ps)
    ensures Lookup(ps, key) == None
  {
    if |ps| > 0 {
      assert ps[0].0 in KeySet(ps);
      assert KeySet(ps[1..]) <= KeySet(ps) by {
        forall k | k in KeySet(ps[1..]) ensures k in KeySet(ps) {
          var i :| 0 <= i < |ps[1..]| && ps[1..][i].0 == k;
          assert ps[i + 1].0 == k;
        }
      }
      LookupMissing(ps[1..], key);
    }
  }

  lemma {:induction false} LookupAppend(a: seq<Param>, b: seq<Param>, key: string)
    ensures Lookup(a + b, key) == if Lookup(a, key).Some? then Lookup(a, key) else Lookup(b, key)
  {
    if |a| == 0 {
      assert a + b == b;
    } else {
      assert (a + b)[1..] == a[1..] + b;
      LookupAppend(a[1..], b, key);
    }
  }

  /** In a list without repeated names, looking up a name finds its entry. */
  lemma {:induction false} LookupAt(ps: seq<Param>, i: nat)
    requires DistinctKeys(ps) && i < |ps|
    ensures Lookup(ps, ps[i].0) == Some(ps[i].1)
  {
    if i > 0 {
      assert ps[0].0 != ps[i].0;
      assert ps[1..][i - 1] == ps[i];
      LookupAt(ps[1..], i - 1);
    }
  }

  /** A parameter that is sent only when `present` holds. */
  function OptionalParam(present: bool, key: string, value: string): seq<Param> {
    if present then [(key, value)] else []
  }

  lemma DistinctKeysAppend(a: seq<Param>, b: seq<Param>)
    requires DistinctKeys(a) && DistinctKeys(b)
    requires KeySet(a) !! KeySet(b)
    ensures DistinctKeys(a + b)
  {
    var ab := a + b;
    forall i, j | 0 <= i < j < |ab|
      ensures ab[i].0 != ab[j].0
    {
      if i < |a| && j >= |a| {
        assert ab[i].0 in KeySet(a);
        assert ab[j].0 == b[j - |a|].0;
        assert ab[j].0 in KeySet(b);
      } else if i >= |a| {
        assert ab[i] == b[i - |a|] && ab[j] == b[j - |a|];
      }
    }
  }

  /** The five parameters every request carries, in the order sent. */
  function RequiredParams(req: SearchRequest): seq<Param> {
    [("query", req.query), ("page", ToDecimal(req.page)),
     ("per_page", ToDecimal(req.perPage)), ("order_by", OrderByName(req.orderBy)),
     ("content_filter", ContentFilterName(req.contentFilter))]
  }

  function CollectionsParam(req: SearchRequest): seq<Param> {
    OptionalParam(StringIsTruthy(req.collections), "collections",
                  if req.collections.Some? then req.collections.value else "")
  }

  function ColorParam(req: SearchRequest): seq<Param> {
    OptionalParam(req.color.Some?, "color", if req.color.Some? then ColorName(req.color.value) else "")
  }

  function OrientationParam(req: SearchRequest): seq<Param> {
    OptionalParam(req.orientation.Some?, "orientation",
                  if req.orientation.Some? then OrientationName(req.orientation.value) else "")
  }

  /** `collections`, `color` and `orientation`, each only when truthy; an
      empty `collections` is left out rather than sent empty. */
  function OptionalParams(req: SearchRequest): seq<Param> {
    CollectionsParam(req) + ColorParam(req) + OrientationParam(req)
  }

  /** The query parameters of the upstream request: one entry for each
      required name and one more for each truthy optional argument. */
  function BuildParams(req: SearchRequest): (r: seq<Param>)
    ensures 5 <= |r| <= 8
    ensures |r| == 5 + (if StringIsTruthy(req.collections) then 1 else 0)
                     + (if req.color.Some? then 1 else 0)
                     + (if req.orientation.Some? then 1 else 0)
  {
    RequiredParams(req) + OptionalParams(req)
  }

  /** The required parameters come first, in a fixed order, with `query`
      verbatim. */
  lemma BuildParamsOrder(req: SearchRequest)
    ensures BuildParams(req)[..5] ==
      [("query", req.query), ("page", ToDecimal(req.page)),
       ("per_page", ToDecimal(req.perPage)), ("order_by", OrderByName(req.orderBy)),
       ("content_filter", ContentFilterName(req.contentFilter))]
  {
    assert BuildParams(req)[..5] == RequiredParams(req);
  }

  lemma OptionalParamKeys(present: bool, key: string, value: string)
    ensures KeySet(OptionalParam(present, key, value)) == if present then {key} else {}
    ensures DistinctKeys(OptionalParam(present, key, value))
  {
    if present {
      assert OptionalParam(present, key, value)[0].0 == key;
    }
  }

  lemma RequiredKeys(req: SearchRequest)
    ensures KeySet(RequiredParams(req)) == {"query", "page", "per_page", "order_by", "content_filter"}
    ensures DistinctKeys(RequiredParams(req))
  {
    var required := RequiredParams(req);
    assert required[0].0 == "query" && required[1].0 == "page" && required[2].0 == "per_page";
    assert required[3].0 == "order_by" && required[4].0 == "content_filter";
  }

  lemma OptionalKeys(req: SearchRequest)
    ensures KeySet(OptionalParams(req)) ==
      (if StringIsTruthy(req.collections) then {"collections"} else {})
      + (if req.color.Some? then {"color"} else {})
      + (if req.orientation.Some? then {"orientation"} else {})
    ensures DistinctKeys(OptionalParams(req))
  {
    var collections, color, orientation := CollectionsParam(req), ColorParam(req), OrientationParam(req);
    OptionalParamKeys(StringIsTruthy(req.collections), "collections",
                      if req.collections.Some? then req.collections.value else "");
    OptionalParamKeys(req.color.Some?, "color",
                      if req.color.Some? then ColorName(req.color.value) else "");
    OptionalParamKeys(req.orientation.Some?, "orientation",
                      if req.orientation.Some? then OrientationName(req.orientation.value) else "");
    KeySetAppend(collections, color);
    KeySetAppend(collections + color, orientation);
    DistinctKeysAppend(collections, color);
    DistinctKeysAppend(collections + color, orientation);
  }

  /** The names the request carries: always the five required ones, and
      each optional one exactly when it was supplied and truthy, so none
      outside the schema. */
  lemma BuildParamsKeys(req: SearchRequest)
    ensures KeySet(BuildParams(req)) ==
      {"query", "page", "per_page", "order_by", "content_filter"}
      + (if StringIsTruthy(req.collections) then {"collections"} else {})
      + (if req.color.Some? then {"color"} else {})
      + (if req.orientation.Some? then {"orientation"} else {})
  {
    var required, optional := RequiredParams(req), OptionalParams(req);
    RequiredKeys(req);
    OptionalKeys(req);
    assert BuildParams(req) == required + optional;
    KeySetAppend(required, optional);
  }

  /** No parameter name is sent twice. */
  lemma BuildParamsDistinct(req: SearchRequest)
    ensures DistinctKeys(BuildParams(req))
  {
    var required, optional := RequiredParams(req), OptionalParams(req);
    RequiredKeys(req);
    OptionalKeys(req);
    assert BuildParams(req) == required + optional;
    forall k | k in KeySet(optional)
      ensures k !in KeySet(required)
    {
      assert k == "collections" || k == "color" || k == "orientation";
    }
    DistinctKeysAppend(required, optional);
  }

  lemma RequiredValues(req: SearchRequest)
    ensures Lookup(RequiredParams(req), "query") == Some(req.query)
    ensures Lookup(RequiredParams(req), "page") == Some(ToDecimal(req.page))
    ensures Lookup(RequiredParams(req), "per_page") == Some(ToDecimal(req.perPage))
    ensures Lookup(RequiredParams(req), "order_by") == Some(OrderByName(req.orderBy))
    ensures Lookup(RequiredParams(req), "content_filter") == Some(ContentFilterName(req.contentFilter))
  {
    var required := RequiredParams(req);
    RequiredKeys(req);
    LookupAt(required, 0);
    LookupAt(required, 1);
    LookupAt(required, 2);
    LookupAt(required, 3);
    LookupAt(required, 4);
  }

  lemma OptionalValues(req: SearchRequest)
    ensures Lookup(OptionalParams(req), "collections") ==
              if StringIsTruthy(req.collections) then req.collections else None
    ensures Lookup(OptionalParams(req), "color") == NameOf(req.color, ColorName)
    ensures Lookup(OptionalParams(req), "orientation") == NameOf(req.orientation, OrientationName)
  {
    var collections, color, orientation := CollectionsParam(req), ColorParam(req), OrientationParam(req);
    OptionalParamKeys(StringIsTruthy(req.collections), "collections",
                      if req.collections.Some? then req.collections.value else "");
    OptionalParamKeys(req.color.Some?, "color",
                      if req.color.Some? then ColorName(req.color.value) else "");
    OptionalParamKeys(req.orientation.Some?, "orientation",
                      if req.orientation.Some? then OrientationName(req.orientation.value) else "");
    if |collections| > 0 { LookupAt(collections, 0); }
    if |color| > 0 { LookupAt(color, 0); }
    if |orientation| > 0 { LookupAt(orientation, 0); }
    LookupMissing(collections, "color");
    LookupMissing(collections, "orientation");
    LookupMissing(color, "collections");
    LookupMissing(color, "orientation");
    LookupMissing(orientation, "collections");
    LookupMissing(orientation, "color");
    LookupAppend(collections, color, "collections");
    LookupAppend(collections + color, orientation, "collections");
    LookupAppend(collections, color, "color");
    LookupAppend(collections + color, orientation, "color");
    LookupAppend(collections, color, "orientation");
    LookupAppend(collections + color, orientation, "orientation");
  }

  /** Each parameter carries its argument: the required ones always, the
      optional ones exactly when supplied and truthy. */
  lemma BuildParamsValues(req: SearchRequest)
    ensures Lookup(BuildParams(req), "query") == Some(req.query)
    ensures Lookup(BuildParams(req), "page") == Some(ToDecimal(req.page))
    ensures Lookup(BuildParams(req), "per_page") == Some(ToDecimal(req.perPage))
    ensures Lookup(BuildParams(req), "order_by") == Some(OrderByName(req.orderBy))
    ensures Lookup(BuildParams(req), "content_filter") == Some(ContentFilterName(req.contentFilter))
    ensures Lookup(BuildParams(req), "collections") ==
              if StringIsTruthy(req.collections) then req.collections else None
    ensures Lookup(BuildParams(req), "color") == NameOf(req.color, ColorName)
    ensures Lookup(BuildParams(req), "orientation") == NameOf(req.orientation, OrientationName)
  {
    var required, optional := RequiredParams(req), OptionalParams(req);
    assert BuildParams(req) == required + optional;
    RequiredKeys(req);
    RequiredValues(req);
    OptionalValues(req);
    LookupMissing(required, "collections");
    LookupMissing(required, "color");
    LookupMissing(required, "orientation");
    LookupAppend(required, optional, "query");
    LookupAppend(required, optional, "page");
    LookupAppend(required, optional, "per_page");
    LookupAppend(required, optional, "order_by");
    LookupAppend(required, optional, "content_filter");
    LookupAppend(required, optional, "collections");
    LookupAppend(required, optional, "color");
    LookupAppend(required, optional, "orientation");
  }

  /** Whether an optional parameter is present is what matters: an empty
      `collections` is indistinguishable from an absent one upstream. */
  function AsSent(req: SearchRequest): SearchRequest {
    if StringIsTruthy(req.collections) then req else req.(collections := None)
  }

  function DecodeInt(v: Option<string>): (r: Option<int>)
    ensures r.Some? ==> v.Some? && ParseInt(v.value) == Int(r.value)
  {
    if v.Some? && ParseInt(v.value).Int? then Some(ParseInt(v.value).value) else None
  }

  function DecodeRequired<T>(v: Option<string>, parse: string -> Option<T>): Option<T> {
    if v.Some? then parse(v.value) else None
  }

  /** How the search endpoint reads a parameter list back into a request:
      numbers with `parseInt`, enums by name, absent optionals as absent. */
  function DecodeParams(ps: seq<Param>): Option<SearchRequest> {
    var query :- Lookup(ps, "query");
    var page :- DecodeInt(Lookup(ps, "page"));
    var perPage :- DecodeInt(Lookup(ps, "per_page"));
    var orderBy :- DecodeRequired(Lookup(ps, "order_by"), ParseOrderBy);
    var contentFilter :- DecodeRequired(Lookup(ps, "content_filter"), ParseContentFilter);
    var color :- ParseOptional(Lookup(ps, "color"), ParseColor);
    var orientation :- ParseOptional(Lookup(ps, "orientation"), ParseOrientation);
    Some(SearchRequest(query, page, perPage, orderBy, Lookup(ps, "collections"),
                       contentFilter, color, orientation))
  }

  /** The parameter list loses nothing but the difference between an empty
      and an absent `collections`: reading it back yields the request. */
  lemma {:induction false} ParamsRoundTrip(req: SearchRequest)
    ensures DecodeParams(BuildParams(req)) == Some(AsSent(req))
  {
    BuildParamsValues(req);
    ParseIntOfDecimal(req.page);
    ParseIntOfDecimal(req.perPage);
  }

  // ---------------------------------------------------------------------
  // The upstream request and the tool result

  const SearchEndpoint: string := "https://api.unsplash.com/search/photos"
  const AuthScheme: string := "Client-ID "

  /** The `Authorization` header carrying the API key. */
  function AuthHeader(apiKey: string): (h: Param)
    ensures h.0 == "Authorization"
    ensures CredentialOf(h.1) == Some(apiKey)
  {
    ("Authorization", AuthScheme + apiKey)
  }

  /** The key an `Authorization` value carries, if it uses the scheme. */
  function CredentialOf(value: string): (r: Option<string>)
    ensures r.Some? <==> |value| >= |AuthScheme| && value[..|AuthScheme|] == AuthScheme
    ensures r.Some? ==> AuthScheme + r.value == value
  {
    if |value| >= |AuthScheme| && value[..|AuthScheme|] == AuthScheme
    then Some(value[|AuthScheme|..]) else None
  }

  /** A header value carries key `k` exactly when it is "Client-ID " + `k`. */
  lemma CredentialExact(value: string, k: string)
    ensures CredentialOf(value) == Some(k) <==> value == AuthScheme + k
  {
    if value == AuthScheme + k {
      assert value[..|AuthScheme|] == AuthScheme;
      assert value[|AuthScheme|..] == k;
    }
  }

  datatype UpstreamRequest = UpstreamRequest(url: string, params: seq<Param>, headers: seq<Param>)

  /** What the search call comes to: the pretty-printed JSON of the response
      body, or the text of whatever was thrown (network failure, non-2xx
      status). A body that is not JSON is not an error: it stays a string
      and is what gets pretty-printed. */
  datatype Upstream = Fetched(payload: string) | Failed(error: string)

  datatype Content = Content(kind: string, text: string)
  datatype ToolResult = ToolResult(content: seq<Content>)

  const ErrorPrefix: string := "Error fetching file: "

  /** The GET request the handler issues for the given arguments. */
  function BuildRequest(apiKey: string, args: SearchArgs): (r: UpstreamRequest)
    ensures r.url == SearchEndpoint
    ensures |r.headers| == 1 && r.headers[0].0 == "Authorization"
    ensures CredentialOf(r.headers[0].1) == Some(apiKey)
    ensures DistinctKeys(r.params)
    ensures DecodeParams(r.params) == Some(AsSent(FillDefaults(args)))
  {
    var req := FillDefaults(args);
    BuildParamsDistinct(req);
    ParamsRoundTrip(req);
    UpstreamRequest(SearchEndpoint, BuildParams(req), [AuthHeader(apiKey)])
  }

  /** The `search_photo` handler: one text item holding either the payload
      or the error, whatever the upstream call does. */
  function SearchPhoto(apiKey: string, args: SearchArgs, upstream: UpstreamRequest -> Upstream): (r: ToolResult)
    ensures |r.content| == 1 && r.content[0].kind == "text"
    ensures upstream(BuildRequest(apiKey, args)).Fetched? ==>
              r.content[0].text == upstream(BuildRequest(apiKey, args)).payload
    ensures upstream(BuildRequest(apiKey, args)).Failed? ==>
              r.content[0].text == ErrorPrefix + upstream(BuildRequest(apiKey, args)).error
  {
    match upstream(BuildRequest(apiKey, args))
    case Fetched(payload) => ToolResult([Content("text", payload)])
    case Failed(error) => ToolResult([Content("text", ErrorPrefix + error)])
  }

  /** Success and failure differ only in the text: an upstream failure
      with error `e` yields the very result a successful call whose payload
      reads "Error fetching file: " + `e` would. */
  lemma FailureOnlyInContent(apiKey: string, args: SearchArgs, e: string,
                             failing: UpstreamRequest -> Upstream, fetching: UpstreamRequest -> Upstream)
    requires failing(BuildRequest(apiKey, args)) == Failed(e)
    requires fetching(BuildRequest(apiKey, args)) == Fetched(ErrorPrefix + e)
    ensures SearchPhoto(apiKey, args, failing) == SearchPhoto(apiKey, args, fetching)
  {
  }

  /** The result depends on the upstream call only through its outcome for
      the request the handler builds. */
  lemma ResultDependsOnlyOnOutcome(apiKey: string, args: SearchArgs,
                                   u1: UpstreamRequest -> Upstream, u2: UpstreamRequest -> Upstream)
    requires u1(BuildRequest(apiKey, args)) == u2(BuildRequest(apiKey, args))
    ensures SearchPhoto(apiKey, args, u1) == SearchPhoto(apiKey, args, u2)
  {
  }

  /** Arguments the schema rejects never reach the handler. */
  datatype SchemaRejected = SchemaRejected

  /** A tool call as the protocol server runs it: validate, then handle. */
  function CallTool(apiKey: string, raw: RawArgs, upstream: UpstreamRequest -> Upstream): (r: Result<ToolResult, SchemaRejected>)
    ensures r.Failure? <==> Validate(raw).None?
    ensures r.Success? ==> |r.value.content| == 1 && r.value.content[0].kind == "text"
    ensures r.Success? ==> r.value == SearchPhoto(apiKey, Validate(raw).value, upstream)
  {
    match Validate(raw)
    case None => Failure(SchemaRejected)
    case Some(args) => Success(SearchPhoto(apiKey, args, upstream))
  }

  /** A call with only `query` sends exactly the five required parameters
      with their defaults, and nothing for the optional ones. */
  lemma OnlyQueryUsesDefaults(apiKey: string, query: string)
    ensures BuildRequest(apiKey, SearchArgs(query, None, None, None, None, None, None, None)).params
         == [("query", query), ("page", "1"), ("per_page", "10"),
             ("order_by", "relevant"), ("content_filter", "low")]
  {
    assert ToDecimal(1) == "1";
    assert NatToDigits(10) == "10" by {
      assert NatToDigits(1) == "1";
    }
  }
}

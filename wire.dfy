/** Values, requests, responses and errors shared by every resource client,
    and the order in which every client operation runs its checks. */
module Wire {

  datatype Option<+T> = None | Some(value: T)

  datatype Result<+T, +E> = Success(value: T) | Failure(error: E)

  /** A Python argument value as it reaches a JSON body. */
  datatype Value =
    | Null
    | Bool(b: bool)
    | Int(i: int)
    | Str(s: string)
    | List(items: seq<Value>)
    | Object(fields: map<string, Value>)

  /** Python truthiness, as tested by `if value:` and `not value`. */
  predicate Truthy(v: Value) {
    match v
    case Null => false
    case Bool(b) => b
    case Int(i) => i != 0
    case Str(s) => s != ""
    case List(items) => items != []
    case Object(fields) => fields != map[]
  }

  /** A JSON request body. */
  type Body = map<string, Value>

  /** The two tests that guard an optional insertion into a body:
      `if value:` and `if value is not None:`. */
  datatype Test = WhenTruthy | WhenNotNull

  predicate Passes(test: Test, v: Value) {
    match test
    case WhenTruthy => Truthy(v)
    case WhenNotNull => v != Null
  }

  /** The optional entries whose value passes `test`. */
  function Kept(optional: Body, test: Test): Body {
    map k | k in optional && Passes(test, optional[k]) :: optional[k]
  }

  /** The optional entries that `if value: data[key] = value` keeps. */
  function TruthyEntries(optional: Body): Body {
    Kept(optional, WhenTruthy)
  }

  /** The optional entries that `if value is not None: data[key] = value` keeps. */
  function NonNullEntries(optional: Body): Body {
    Kept(optional, WhenNotNull)
  }

  /** A date argument in one of the forms the date helpers accept. */
  datatype DateInput =
    | CalendarDate(year: int, month: int, day: int)
    | Timestamp(year: int, month: int, day: int, hour: int, minute: int, second: int)
    | IsoText(text: string)

  /** The two module globals every operation reads: `api_key` and
      `api_version`; `None` is Python's None. */
  datatype Config = Config(apiKey: Option<string>, version: Option<string>)

  /** The helpers of `nlpearl/_helpers.py`, whose definitions are not part of
      this model: `_get_api_url` (as a function of the version global),
      `_process_date` and `_date_diff_in_days`. */
  datatype Helpers = Helpers(
    apiUrl: Option<string> -> string,
    processDate: DateInput -> string,
    dayDiff: (DateInput, DateInput) -> int)

  datatype Verb = GET | POST | PUT | DELETE

  /** What an operation hands to `requests`: the verb, the base URL, the path
      below it, the Bearer token and the JSON body (`None` when no `json=`
      argument is passed). */
  datatype Request = Request(verb: Verb, base: string, path: string, token: string, body: Option<Body>)
  {
    function Url(): string { base + path }

    predicate Sends(v: Verb, b: string, p: string, data: Option<Body>) {
      verb == v && base == b && path == p && body == data
    }
  }

  /** The ValueErrors the clients raise, and the failures of the transport
      and of JSON decoding. */
  datatype Err =
    | VersionMismatch(message: string)
    | KeyNotSet(message: string)
    | InvalidArgument(message: string)
    | HttpError(status: int)
    | NotJson

  /** A response from the transport: its status, its text and, when the text
      is valid JSON, the decoded value. */
  datatype Response = Response(status: int, text: string, json: Option<Value>)

  /** `response.json()`: raises when the body is not JSON. */
  function Json(resp: Response): Result<Value, Err> {
    if resp.json.Some? then Success(resp.json.value) else Failure(NotJson)
  }

  /** `try: response.json() except ValueError: response.text`. */
  function JsonOrText(resp: Response): Value {
    if resp.json.Some? then resp.json.value else Str(resp.text)
  }

  /** `response.raise_for_status()` of requests: raises for 4xx and 5xx only. */
  function RaiseForStatus(resp: Response): Option<Err> {
    if 400 <= resp.status < 600 then Some(HttpError(resp.status)) else None
  }

  /** The three texts of the missing-key error: most operations say only
      `NoKey`; `Account.get_account` and both Call operations add
      `SetKeyFirst`, `Inbound.get_all` and the memory reset add `SetKeyIt`. */
  const NoKey: string := "API key is not set."
  const SetKeyFirst: string := " Set the api_key first using 'pearl.api_key = YOUR_API_KEY'"
  const SetKeyIt: string := " Set it using 'pearl.api_key = YOUR_API_KEY'."

  /** The words every v1-only guard message holds. */
  const OnlyV1: string := "only available in API v1"

  /** The order in which an operation checks: its version guard first (when
      it has one), then `api_key is None` (raising the operation's own
      `keyMessage`), then its own argument checks; a request is built only
      when all of them pass, and it carries the key as its Bearer token. */
  predicate ChecksInOrder(r: Result<Request, Err>, versionError: Option<Err>, cfg: Config, keyMessage: string,
                         argumentError: Option<Err>) {
    if versionError.Some? then r == Failure(versionError.value)
    else if cfg.apiKey.None? then r == Failure(KeyNotSet(keyMessage))
    else if argumentError.Some? then r == Failure(argumentError.value)
    else r.Success? && r.value.token == cfg.apiKey.value
  }

  /** Runs the checks in the source's order and then builds the request. */
  function Checked(versionError: Option<Err>, cfg: Config, keyMessage: string, argumentError: Option<Err>,
                   verb: Verb, base: string, path: string, body: Option<Body>): (r: Result<Request, Err>)
    ensures ChecksInOrder(r, versionError, cfg, keyMessage, argumentError)
    ensures r.Success? ==> r.value.Sends(verb, base, path, body)
  {
    if versionError.Some? then Failure(versionError.value)
    else if cfg.apiKey.None? then Failure(KeyNotSet(keyMessage))
    else if argumentError.Some? then Failure(argumentError.value)
    else Success(Request(verb, base, path, cfg.apiKey.value, body))
  }

  /** The analytics range guard: `_date_diff_in_days(from, to) > 90` raises. */
  function RangeCheck(h: Helpers, fromDate: DateInput, toDate: DateInput): (e: Option<Err>)
    ensures e.Some? <==> h.dayDiff(fromDate, toDate) > 90
  {
    if h.dayDiff(fromDate, toDate) > 90 then Some(InvalidArgument("Date range must not exceed 90 days.")) else None
  }

  /** `t in s` for Python strings. */
  predicate Contains(s: string, t: string) {
    exists i, j :: 0 <= i <= j <= |s| && s[i..j] == t
  }

  lemma ContainsMiddle(a: string, b: string, c: string)
    ensures Contains(a + b + c, b)
  {
    var s := a + b + c;
    assert s[|a|..|a| + |b|] == b;
  }

  lemma ContainsItself(t: string)
    ensures Contains(t, t)
  {
    assert t[0..|t|] == t;
  }

  lemma ContainsAppend(s: string, t: string, u: string)
    requires Contains(s, t)
    ensures Contains(s + u, t)
  {
    var i, j :| 0 <= i <= j <= |s| && s[i..j] == t;
    assert (s + u)[i..j] == t;
  }

  /** One conditional insertion, `if value: data[k] = value` or
      `if value is not None: data[k] = value`. */
  function PutIf(data: Body, k: string, v: Value, test: Test): Body {
    if Passes(test, v) then data[k := v] else data
  }

  /** Before any insertion `data` holds the fixed entries alone, and the
      optionals the test rejects (all None, say) add nothing. */
  lemma NothingKept(fixed: Body, optional: Body, test: Test)
    requires forall k :: k in optional ==> !Passes(test, optional[k])
    ensures fixed + Kept(optional, test) == fixed
  {
    assert Kept(optional, test) == map[];
  }

  /** Seeing one more optional adds it to the kept entries exactly when it
      passes the test. */
  lemma KeptGrows(seen: Body, k: string, v: Value, test: Test)
    requires k !in seen
    ensures Kept(seen[k := v], test) == if Passes(test, v) then Kept(seen, test)[k := v] else Kept(seen, test)
  {
    var grown := Kept(seen[k := v], test);
    var expected := if Passes(test, v) then Kept(seen, test)[k := v] else Kept(seen, test);
    assert grown.Keys == expected.Keys;
    assert forall j :: j in grown ==> grown[j] == expected[j];
  }

  /** One conditional insertion of a fresh key keeps `data` equal to the fixed
      entries plus the optionals seen so far that pass the test; `grown` is
      the optionals seen once this one is. */
  lemma KeepStep(fixed: Body, seen: Body, k: string, v: Value, test: Test) returns (grown: Body)
    requires k !in fixed && k !in seen
    ensures grown == seen[k := v]
    ensures PutIf(fixed + Kept(seen, test), k, v, test) == fixed + Kept(grown, test)
  {
    grown := seen[k := v];
    KeptGrows(seen, k, v, test);
    if Passes(test, v) {
      var kept := Kept(seen, test);
      assert (fixed + kept)[k := v] == fixed + kept[k := v];
    }
  }

  /** The four conditional insertions that `get_calls` of inbounds and pearls
      make after their five fixed keys. */
  lemma CallsFilterSteps(fixed: Body, sortProp: Value, tags: Value, statuses: Value, searchInput: Value)
    requires "sortProp" !in fixed && "tags" !in fixed && "statuses" !in fixed && "searchInput" !in fixed
    ensures PutIf(PutIf(PutIf(PutIf(fixed, "sortProp", sortProp, WhenTruthy), "tags", tags, WhenTruthy),
                        "statuses", statuses, WhenTruthy), "searchInput", searchInput, WhenTruthy)
         == fixed + TruthyEntries(map["sortProp" := sortProp, "tags" := tags, "statuses" := statuses, "searchInput" := searchInput])
  {
    var seen: Body := map[];
    NothingKept(fixed, seen, WhenTruthy);
    seen := KeepStep(fixed, seen, "sortProp", sortProp, WhenTruthy);
    seen := KeepStep(fixed, seen, "tags", tags, WhenTruthy);
    seen := KeepStep(fixed, seen, "statuses", statuses, WhenTruthy);
    seen := KeepStep(fixed, seen, "searchInput", searchInput, WhenTruthy);
  }
}

/** `Pearl`: the v2 resource client; every operation except the memory reset
    is v2-only. */
module Pearl {
  import opened Wire

  /** The fixed parts of the v2-only guard's message. */
  const OnlyV2: string := "only available in API v2"
  const V2Tail: string := ". Current version is v1. Set pearl.api_version = 'v2' to use this method."

  /** `Pearl._check_v2_only`: rejects exactly the version string "v1". */
  function CheckV2Only(cfg: Config, name: string): (e: Option<Err>)
    ensures e.Some? <==> cfg.version == Some("v1")
    ensures e.Some? ==> e.value.VersionMismatch?
  {
    if cfg.version == Some("v1") then
      Some(VersionMismatch(name + "()" + " is " + OnlyV2 + V2Tail))
    else None
  }

  /** The guard's message names the method and says it is a v2 method. */
  lemma V2OnlyMessage(cfg: Config, name: string)
    requires cfg.version == Some("v1")
    ensures Contains(CheckV2Only(cfg, name).value.message, name + "()")
    ensures Contains(CheckV2Only(cfg, name).value.message, "only available in API v2")
  {
    var own := name + "()";
    ContainsMiddle(own + " is ", OnlyV2, V2Tail);
    ContainsItself(own);
    ContainsAppend(own, own, " is ");
    ContainsAppend(own + " is ", own, OnlyV2);
    ContainsAppend(own + " is " + OnlyV2, own, V2Tail);
  }

  predicate StartsWithPlus(p: string) {
    |p| > 0 && p[0] == '+'
  }

  /** `if not phone_number.startswith("+"): phone_number = f"+{phone_number}"` */
  function NormalizePhone(p: string): (q: string)
    ensures StartsWithPlus(q)
    ensures StartsWithPlus(p) ==> q == p
    ensures !StartsWithPlus(p) ==> q == "+" + p
  {
    if StartsWithPlus(p) then p else "+" + p
  }

  /** Normalising twice is normalising once, and normalisation only ever
      prepends one '+'. */
  lemma NormalizeIdempotent(p: string)
    ensures NormalizePhone(NormalizePhone(p)) == NormalizePhone(p)
    ensures NormalizePhone(p)[|NormalizePhone(p)| - |p|..] == p
    ensures |NormalizePhone(p)| <= |p| + 1
  {
  }

  /** The request `Pearl.reset_customer_memory` builds. It has no version
      guard: the key check comes first, then the phone number gains a leading
      '+' when it lacks one; under "v1" the number goes into the path and no
      body is sent, under every other version it goes into the body of
      `/Pearl/{id}/ResetMemory`. */
  function ResetCustomerMemoryRequest(cfg: Config, h: Helpers, pearlId: string, phone: string): (r: Result<Request, Err>)
    ensures ChecksInOrder(r, None, cfg, NoKey + SetKeyIt, None)
    ensures r.Success? && cfg.version == Some("v1") ==>
      r.value.Sends(PUT, h.apiUrl(cfg.version), "/Pearl/" + pearlId + "/Memory/" + NormalizePhone(phone) + "/Reset", None)
    ensures r.Success? && cfg.version != Some("v1") ==>
      r.value.Sends(PUT, h.apiUrl(cfg.version), "/Pearl/" + pearlId + "/ResetMemory",
                    Some(map["phoneNumber" := Str(NormalizePhone(phone))]))
  {
    if cfg.version == Some("v1") then
      Checked(None, cfg, NoKey + SetKeyIt, None, PUT, h.apiUrl(cfg.version),
              "/Pearl/" + pearlId + "/Memory/" + NormalizePhone(phone) + "/Reset", None)
    else
      Checked(None, cfg, NoKey + SetKeyIt, None, PUT, h.apiUrl(cfg.version), "/Pearl/" + pearlId + "/ResetMemory",
              Some(map["phoneNumber" := Str(NormalizePhone(phone))]))
  }

  /** `Pearl.reset_customer_memory`, reassigning the phone number in place
      and branching on the version global. */
  method ResetCustomerMemory(cfg: Config, h: Helpers, pearlId: string, phone: string) returns (r: Result<Request, Err>)
    ensures r == ResetCustomerMemoryRequest(cfg, h, pearlId, phone)
  {
    if cfg.apiKey.None? { return Failure(KeyNotSet(NoKey + SetKeyIt)); }
    var phoneNumber := phone;
    if !(|phoneNumber| > 0 && phoneNumber[0] == '+') {
      phoneNumber := "+" + phoneNumber;
    }
    var url := h.apiUrl(cfg.version);
    if cfg.version == Some("v1") {
      r := Success(Request(PUT, url, "/Pearl/" + pearlId + "/Memory/" + phoneNumber + "/Reset", cfg.apiKey.value, None));
    } else {
      r := Success(Request(PUT, url, "/Pearl/" + pearlId + "/ResetMemory", cfg.apiKey.value,
                           Some(map["phoneNumber" := Str(phoneNumber)])));
    }
  }

  /** Giving a number with or without its leading '+' resets the same
      customer memory, under every version. */
  lemma {:induction false} ResetIgnoresLeadingPlus(cfg: Config, h: Helpers, pearlId: string, phone: string)
    requires !StartsWithPlus(phone)
    ensures ResetCustomerMemoryRequest(cfg, h, pearlId, phone) == ResetCustomerMemoryRequest(cfg, h, pearlId, "+" + phone)
  {
    assert StartsWithPlus("+" + phone);
  }

  /** `Pearl.reset_memory` delegates to `reset_customer_memory`, so it behaves
      the same under every version, "v1" included. */
  method ResetMemory(cfg: Config, h: Helpers, pearlId: string, phone: string) returns (r: Result<Request, Err>)
    ensures r == ResetCustomerMemoryRequest(cfg, h, pearlId, phone)
  {
    r := ResetCustomerMemory(cfg, h, pearlId, phone);
  }

  /** `Pearl.get_all`: v2 guard, key check, GET `/Pearl`. */
  function GetAll(cfg: Config, h: Helpers): (r: Result<Request, Err>)
    ensures ChecksInOrder(r, CheckV2Only(cfg, "get_all"), cfg, NoKey, None)
    ensures r.Success? ==> r.value.Sends(GET, h.apiUrl(cfg.version), "/Pearl", None)
  {
    Checked(CheckV2Only(cfg, "get_all"), cfg, NoKey, None, GET, h.apiUrl(cfg.version), "/Pearl", None)
  }

  /** `Pearl.get`: v2 guard, key check, GET `/Pearl/{id}`. */
  function Get(cfg: Config, h: Helpers, pearlId: string): (r: Result<Request, Err>)
    ensures ChecksInOrder(r, CheckV2Only(cfg, "get"), cfg, NoKey, None)
    ensures r.Success? ==> r.value.Sends(GET, h.apiUrl(cfg.version), "/Pearl/" + pearlId, None)
  {
    Checked(CheckV2Only(cfg, "get"), cfg, NoKey, None, GET, h.apiUrl(cfg.version), "/Pearl/" + pearlId, None)
  }

  /** `Pearl.set_active`: v2 guard, key check, PUT `/Pearl/{id}/Active` with
      exactly `{isActive}` (the v1 Outbound and Inbound clients POST). */
  function SetActive(cfg: Config, h: Helpers, pearlId: string, isActive: Value): (r: Result<Request, Err>)
    ensures ChecksInOrder(r, CheckV2Only(cfg, "set_active"), cfg, NoKey, None)
    ensures r.Success? ==> r.value.Sends(PUT, h.apiUrl(cfg.version), "/Pearl/" + pearlId + "/Active",
                                         Some(map["isActive" := isActive]))
  {
    Checked(CheckV2Only(cfg, "set_active"), cfg, NoKey, None, PUT, h.apiUrl(cfg.version),
            "/Pearl/" + pearlId + "/Active", Some(map["isActive" := isActive]))
  }

  /** The request `Pearl.get_calls` builds: the five fixed keys, plus the
      truthy ones among `sortProp`, `tags`, `statuses` and `searchInput`. */
  function GetCallsRequest(cfg: Config, h: Helpers, pearlId: string, fromDate: DateInput, toDate: DateInput,
                           skip: Value := Int(0), limit: Value := Int(100), sortProp: Value := Null, isAscending: Value := Bool(true),
                           tags: Value := Null, statuses: Value := Null, searchInput: Value := Null): (r: Result<Request, Err>)
    ensures ChecksInOrder(r, CheckV2Only(cfg, "get_calls"), cfg, NoKey, None)
    ensures r.Success? ==> r.value.Sends(POST, h.apiUrl(cfg.version), "/Pearl/" + pearlId + "/Calls",
      Some(map["skip" := skip, "limit" := limit, "isAscending" := isAscending,
               "fromDate" := Str(h.processDate(fromDate)), "toDate" := Str(h.processDate(toDate))]
           + TruthyEntries(map["sortProp" := sortProp, "tags" := tags, "statuses" := statuses, "searchInput" := searchInput])))
  {
    Checked(CheckV2Only(cfg, "get_calls"), cfg, NoKey, None, POST, h.apiUrl(cfg.version), "/Pearl/" + pearlId + "/Calls",
      Some(map["skip" := skip, "limit" := limit, "isAscending" := isAscending,
               "fromDate" := Str(h.processDate(fromDate)), "toDate" := Str(h.processDate(toDate))]
           + TruthyEntries(map["sortProp" := sortProp, "tags" := tags, "statuses" := statuses, "searchInput" := searchInput])))
  }

  /** `Pearl.get_calls`, growing its body one insertion at a time. */
  method GetCalls(cfg: Config, h: Helpers, pearlId: string, fromDate: DateInput, toDate: DateInput,
                  skip: Value := Int(0), limit: Value := Int(100), sortProp: Value := Null, isAscending: Value := Bool(true),
                  tags: Value := Null, statuses: Value := Null, searchInput: Value := Null) returns (r: Result<Request, Err>)
    ensures r == GetCallsRequest(cfg, h, pearlId, fromDate, toDate, skip, limit, sortProp, isAscending, tags, statuses, searchInput)
  {
    var guard := CheckV2Only(cfg, "get_calls");
    if guard.Some? { return Failure(guard.value); }
    if cfg.apiKey.None? { return Failure(KeyNotSet(NoKey)); }
    var fromDateStr := h.processDate(fromDate);
    var toDateStr := h.processDate(toDate);
    var url := h.apiUrl(cfg.version);
    var data: Body := map["skip" := skip, "limit" := limit, "isAscending" := isAscending,
                          "fromDate" := Str(fromDateStr), "toDate" := Str(toDateStr)];
    ghost var fixed := data;
    data := PutIf(data, "sortProp", sortProp, WhenTruthy);
    data := PutIf(data, "tags", tags, WhenTruthy);
    data := PutIf(data, "statuses", statuses, WhenTruthy);
    data := PutIf(data, "searchInput", searchInput, WhenTruthy);
    CallsFilterSteps(fixed, sortProp, tags, statuses, searchInput);
    var request := Request(POST, url, "/Pearl/" + pearlId + "/Calls", cfg.apiKey.value, Some(data));
    assert GetCallsRequest(cfg, h, pearlId, fromDate, toDate, skip, limit, sortProp, isAscending, tags, statuses, searchInput)
        == Success(request);
    r := Success(request);
  }

  /** Called with only its required arguments, `get_calls` sends `skip` 0,
      `limit` 100, `isAscending` true and the two dates, and nothing else. */
  lemma GetCallsDefaults(cfg: Config, h: Helpers, pearlId: string, fromDate: DateInput, toDate: DateInput)
    requires cfg.apiKey.Some? && cfg.version != Some("v1")
    ensures GetCallsRequest(cfg, h, pearlId, fromDate, toDate).Success?
    ensures GetCallsRequest(cfg, h, pearlId, fromDate, toDate).value.body
         == Some(map["skip" := Int(0), "limit" := Int(100), "isAscending" := Bool(true),
                     "fromDate" := Str(h.processDate(fromDate)), "toDate" := Str(h.processDate(toDate))])
  {
    NothingKept(map["skip" := Int(0), "limit" := Int(100), "isAscending" := Bool(true),
                "fromDate" := Str(h.processDate(fromDate)), "toDate" := Str(h.processDate(toDate))],
                map["sortProp" := Null, "tags" := Null, "statuses" := Null, "searchInput" := Null], WhenTruthy);
  }

  /** `Pearl.get_ongoing_calls`: v2 guard, key check, GET
      `/Pearl/{id}/OngoingCalls`. */
  function GetOngoingCalls(cfg: Config, h: Helpers, pearlId: string): (r: Result<Request, Err>)
    ensures ChecksInOrder(r, CheckV2Only(cfg, "get_ongoing_calls"), cfg, NoKey, None)
    ensures r.Success? ==> r.value.Sends(GET, h.apiUrl(cfg.version), "/Pearl/" + pearlId + "/OngoingCalls", None)
  {
    Checked(CheckV2Only(cfg, "get_ongoing_calls"), cfg, NoKey, None, GET, h.apiUrl(cfg.version),
            "/Pearl/" + pearlId + "/OngoingCalls", None)
  }

  /** `Pearl.get_analytics`: v2 guard, key check, the 90-day range guard,
      then POST `/Pearl/{id}/Analytics` with exactly `{from, to}`. */
  function GetAnalytics(cfg: Config, h: Helpers, pearlId: string, fromDate: DateInput, toDate: DateInput): (r: Result<Request, Err>)
    ensures ChecksInOrder(r, CheckV2Only(cfg, "get_analytics"), cfg, NoKey, RangeCheck(h, fromDate, toDate))
    ensures r.Success? ==> r.value.Sends(POST, h.apiUrl(cfg.version), "/Pearl/" + pearlId + "/Analytics",
      Some(map["from" := Str(h.processDate(fromDate)), "to" := Str(h.processDate(toDate))]))
  {
    Checked(CheckV2Only(cfg, "get_analytics"), cfg, NoKey, RangeCheck(h, fromDate, toDate), POST, h.apiUrl(cfg.version),
      "/Pearl/" + pearlId + "/Analytics",
      Some(map["from" := Str(h.processDate(fromDate)), "to" := Str(h.processDate(toDate))]))
  }
}

/** `Inbound`: the v1 inbound campaigns; every operation is v1-only. */
module Inbound {
  import opened Wire

  /** The fixed parts of the v1-only guard's message besides `OnlyV1`. */
  const Instead: string := ". In v2, use "
  const InboundTail: string := " instead. Current version is v2. Set pearl.api_version = 'v1' to use Inbound methods."

  /** `Inbound._check_v1_only`: rejects exactly the version string "v2",
      naming `Inbound.<m>()` and pointing to `Pearl.<m>()`. */
  function CheckV1Only(cfg: Config, name: string): (e: Option<Err>)
    ensures e.Some? <==> cfg.version == Some("v2")
    ensures e.Some? ==> e.value.VersionMismatch?
  {
    if cfg.version == Some("v2") then
      Some(VersionMismatch(("Inbound." + name + "()") + " is " + OnlyV1 + Instead + ("Pearl." + name + "()") + InboundTail))
    else None
  }

  /** The guard's message names the Inbound method, says it is a v1 method
      and names the Pearl method to use instead. */
  lemma V1OnlyMessage(cfg: Config, name: string)
    requires cfg.version == Some("v2")
    ensures Contains(CheckV1Only(cfg, name).value.message, "Inbound." + name + "()")
    ensures Contains(CheckV1Only(cfg, name).value.message, "only available in API v1")
    ensures Contains(CheckV1Only(cfg, name).value.message, "Pearl." + name + "()")
  {
    var own, pearl := "Inbound." + name + "()", "Pearl." + name + "()";
    var head := own + " is " + OnlyV1 + Instead;
    ContainsMiddle(head, pearl, InboundTail);
    ContainsMiddle(own + " is ", OnlyV1, Instead);
    ContainsAppend(head, OnlyV1, pearl);
    ContainsAppend(head + pearl, OnlyV1, InboundTail);
    ContainsItself(own);
    ContainsAppend(own, own, " is ");
    ContainsAppend(own + " is ", own, OnlyV1);
    ContainsAppend(own + " is " + OnlyV1, own, Instead);
    ContainsAppend(head, own, pearl);
    ContainsAppend(head + pearl, own, InboundTail);
  }

  /** `Inbound.get_all`: v1 guard, key check, GET `/Inbound`. */
  function GetAll(cfg: Config, h: Helpers): (r: Result<Request, Err>)
    ensures ChecksInOrder(r, CheckV1Only(cfg, "get_all"), cfg, NoKey + SetKeyIt, None)
    ensures r.Success? ==> r.value.Sends(GET, h.apiUrl(cfg.version), "/Inbound", None)
  {
    Checked(CheckV1Only(cfg, "get_all"), cfg, NoKey + SetKeyIt, None, GET, h.apiUrl(cfg.version), "/Inbound", None)
  }

  /** `Inbound.get`: v1 guard, key check, GET `/Inbound/{id}`. */
  function Get(cfg: Config, h: Helpers, inboundId: string): (r: Result<Request, Err>)
    ensures ChecksInOrder(r, CheckV1Only(cfg, "get"), cfg, NoKey, None)
    ensures r.Success? ==> r.value.Sends(GET, h.apiUrl(cfg.version), "/Inbound/" + inboundId, None)
  {
    Checked(CheckV1Only(cfg, "get"), cfg, NoKey, None, GET, h.apiUrl(cfg.version), "/Inbound/" + inboundId, None)
  }

  /** `Inbound.set_active`: v1 guard, key check, POST `/Inbound/{id}/Active`
      with exactly `{isActive}`. */
  function SetActive(cfg: Config, h: Helpers, inboundId: string, isActive: Value): (r: Result<Request, Err>)
    ensures ChecksInOrder(r, CheckV1Only(cfg, "set_active"), cfg, NoKey, None)
    ensures r.Success? ==> r.value.Sends(POST, h.apiUrl(cfg.version), "/Inbound/" + inboundId + "/Active",
                                         Some(map["isActive" := isActive]))
  {
    Checked(CheckV1Only(cfg, "set_active"), cfg, NoKey, None, POST, h.apiUrl(cfg.version),
            "/Inbound/" + inboundId + "/Active", Some(map["isActive" := isActive]))
  }

  /** The request `Inbound.get_calls` builds: the five fixed keys, plus the
      truthy ones among `sortProp`, `tags`, `statuses` and `searchInput`. */
  function GetCallsRequest(cfg: Config, h: Helpers, inboundId: string, fromDate: DateInput, toDate: DateInput,
                           skip: Value := Int(0), limit: Value := Int(100), sortProp: Value := Null, isAscending: Value := Bool(true),
                           tags: Value := Null, statuses: Value := Null, searchInput: Value := Null): (r: Result<Request, Err>)
    ensures ChecksInOrder(r, CheckV1Only(cfg, "get_calls"), cfg, NoKey, None)
    ensures r.Success? ==> r.value.Sends(POST, h.apiUrl(cfg.version), "/Inbound/" + inboundId + "/Calls",
      Some(map["skip" := skip, "limit" := limit, "isAscending" := isAscending,
               "fromDate" := Str(h.processDate(fromDate)), "toDate" := Str(h.processDate(toDate))]
           + TruthyEntries(map["sortProp" := sortProp, "tags" := tags, "statuses" := statuses, "searchInput" := searchInput])))
  {
    Checked(CheckV1Only(cfg, "get_calls"), cfg, NoKey, None, POST, h.apiUrl(cfg.version), "/Inbound/" + inboundId + "/Calls",
      Some(map["skip" := skip, "limit" := limit, "isAscending" := isAscending,
               "fromDate" := Str(h.processDate(fromDate)), "toDate" := Str(h.processDate(toDate))]
           + TruthyEntries(map["sortProp" := sortProp, "tags" := tags, "statuses" := statuses, "searchInput" := searchInput])))
  }

  /** `Inbound.get_calls`, growing its body one insertion at a time. */
  method GetCalls(cfg: Config, h: Helpers, inboundId: string, fromDate: DateInput, toDate: DateInput,
                  skip: Value := Int(0), limit: Value := Int(100), sortProp: Value := Null, isAscending: Value := Bool(true),
                  tags: Value := Null, statuses: Value := Null, searchInput: Value := Null) returns (r: Result<Request, Err>)
    ensures r == GetCallsRequest(cfg, h, inboundId, fromDate, toDate, skip, limit, sortProp, isAscending, tags, statuses, searchInput)
  {
    var guard := CheckV1Only(cfg, "get_calls");
    if guard.Some? { return Failure(guard.value); }
    if cfg.apiKey.None? { return Failure(KeyNotSet(NoKey)); }
    var fromDateStr := h.processDate(fromDate);
    var toDateStr := h.processDate(toDate);
    var url := h.apiUrl(cfg.version);
    var data: Body := map["skip" := skip, "limit" := limit, "isAscending" := isAscending,
                          "fromDate" := Str(fromDateStr), "toDate" := Str(toDateStr)];
    ghost var fixed := data;
    data := PutIf(data, "sortProp", sortProp, WhenTruthy);
    data := PutIf(data, "tags", tags, WhenTruthy);
    data := PutIf(data, "statuses", statuses, WhenTruthy);
    data := PutIf(data, "searchInput", searchInput, WhenTruthy);
    CallsFilterSteps(fixed, sortProp, tags, statuses, searchInput);
    var request := Request(POST, url, "/Inbound/" + inboundId + "/Calls", cfg.apiKey.value, Some(data));
    assert GetCallsRequest(cfg, h, inboundId, fromDate, toDate, skip, limit, sortProp, isAscending, tags, statuses, searchInput)
        == Success(request);
    r := Success(request);
  }

  /** Called with only its required arguments, `get_calls` sends `skip` 0,
      `limit` 100, `isAscending` true and the two dates, and nothing else. */
  lemma GetCallsDefaults(cfg: Config, h: Helpers, inboundId: string, fromDate: DateInput, toDate: DateInput)
    requires cfg.apiKey.Some? && cfg.version != Some("v2")
    ensures GetCallsRequest(cfg, h, inboundId, fromDate, toDate).Success?
    ensures GetCallsRequest(cfg, h, inboundId, fromDate, toDate).value.body
         == Some(map["skip" := Int(0), "limit" := Int(100), "isAscending" := Bool(true),
                     "fromDate" := Str(h.processDate(fromDate)), "toDate" := Str(h.processDate(toDate))])
  {
    NothingKept(map["skip" := Int(0), "limit" := Int(100), "isAscending" := Bool(true),
                "fromDate" := Str(h.processDate(fromDate)), "toDate" := Str(h.processDate(toDate))],
                map["sortProp" := Null, "tags" := Null, "statuses" := Null, "searchInput" := Null], WhenTruthy);
  }

  /** `Inbound.get_ongoing_calls`: v1 guard, key check, GET
      `/Inbound/{id}/OngoingCalls`. */
  function GetOngoingCalls(cfg: Config, h: Helpers, inboundId: string): (r: Result<Request, Err>)
    ensures ChecksInOrder(r, CheckV1Only(cfg, "get_ongoing_calls"), cfg, NoKey, None)
    ensures r.Success? ==> r.value.Sends(GET, h.apiUrl(cfg.version), "/Inbound/" + inboundId + "/OngoingCalls", None)
  {
    Checked(CheckV1Only(cfg, "get_ongoing_calls"), cfg, NoKey, None, GET, h.apiUrl(cfg.version),
            "/Inbound/" + inboundId + "/OngoingCalls", None)
  }

  /** `Inbound.get_analytics`: v1 guard, key check, the 90-day range guard,
      then POST `/Inbound/{id}/Analytics` with exactly `{from, to}`. */
  function GetAnalytics(cfg: Config, h: Helpers, inboundId: string, fromDate: DateInput, toDate: DateInput): (r: Result<Request, Err>)
    ensures ChecksInOrder(r, CheckV1Only(cfg, "get_analytics"), cfg, NoKey, RangeCheck(h, fromDate, toDate))
    ensures r.Success? ==> r.value.Sends(POST, h.apiUrl(cfg.version), "/Inbound/" + inboundId + "/Analytics",
      Some(map["from" := Str(h.processDate(fromDate)), "to" := Str(h.processDate(toDate))]))
  {
    Checked(CheckV1Only(cfg, "get_analytics"), cfg, NoKey, RangeCheck(h, fromDate, toDate), POST, h.apiUrl(cfg.version),
      "/Inbound/" + inboundId + "/Analytics",
      Some(map["from" := Str(h.processDate(fromDate)), "to" := Str(h.processDate(toDate))]))
  }
}

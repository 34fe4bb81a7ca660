/** `Outbound`: v1 outbound campaigns and the lead operations shared by both
    API versions (under v2 the identifier is a Pearl id). */
module Outbound {
  import opened Wire

  /** The fixed part of the v1-only guard's message besides `OnlyV1`. */
  const V1Tail: string := ". Current version is v2. Set pearl.api_version = 'v1' to use this method."

  /** `Outbound._check_v1_only`: rejects exactly the version string "v2";
      "v1", None and any other string pass. */
  function CheckV1Only(cfg: Config, name: string): (e: Option<Err>)
    ensures e.Some? <==> cfg.version == Some("v2")
    ensures e.Some? ==> e.value.VersionMismatch?
  {
    if cfg.version == Some("v2") then
      Some(VersionMismatch(name + "()" + " is " + OnlyV1 + V1Tail))
    else None
  }

  /** The guard's message names the method and says it is a v1 method. */
  lemma V1OnlyMessage(cfg: Config, name: string)
    requires cfg.version == Some("v2")
    ensures Contains(CheckV1Only(cfg, name).value.message, name + "()")
    ensures Contains(CheckV1Only(cfg, name).value.message, "only available in API v1")
  {
    ContainsMiddle(name + "()" + " is ", OnlyV1, V1Tail);
    ContainsItself(name + "()");
    ContainsAppend(name + "()", name + "()", " is ");
    ContainsAppend(name + "()" + " is ", name + "()", OnlyV1);
    ContainsAppend(name + "()" + " is " + OnlyV1, name + "()", V1Tail);
  }

  /** The argument errors of `add_lead` and of the two bulk deletes. */
  const PhoneRequired: string := "phone_number is required."
  const LeadIdsRequired: string := "lead_ids must be a non-empty list of strings."
  const ExternalIdsRequired: string := "external_ids must be a non-empty list of strings."

  /** `Outbound.get_all`: v1 guard, key check, GET `/Outbound`. */
  function GetAll(cfg: Config, h: Helpers): (r: Result<Request, Err>)
    ensures ChecksInOrder(r, CheckV1Only(cfg, "get_all"), cfg, NoKey, None)
    ensures r.Success? ==> r.value.Sends(GET, h.apiUrl(cfg.version), "/Outbound", None)
  {
    Checked(CheckV1Only(cfg, "get_all"), cfg, NoKey, None, GET, h.apiUrl(cfg.version), "/Outbound", None)
  }

  /** `Outbound.get`: v1 guard, key check, GET `/Outbound/{id}`. */
  function Get(cfg: Config, h: Helpers, outboundId: string): (r: Result<Request, Err>)
    ensures ChecksInOrder(r, CheckV1Only(cfg, "get"), cfg, NoKey, None)
    ensures r.Success? ==> r.value.Sends(GET, h.apiUrl(cfg.version), "/Outbound/" + outboundId, None)
  {
    Checked(CheckV1Only(cfg, "get"), cfg, NoKey, None, GET, h.apiUrl(cfg.version), "/Outbound/" + outboundId, None)
  }

  /** `Outbound.set_active`: v1 guard, key check, POST `/Outbound/{id}/Active`
      with exactly `{isActive}`. */
  function SetActive(cfg: Config, h: Helpers, outboundId: string, isActive: Value): (r: Result<Request, Err>)
    ensures ChecksInOrder(r, CheckV1Only(cfg, "set_active"), cfg, NoKey, None)
    ensures r.Success? ==> r.value.Sends(POST, h.apiUrl(cfg.version), "/Outbound/" + outboundId + "/Active",
                                         Some(map["isActive" := isActive]))
  {
    Checked(CheckV1Only(cfg, "set_active"), cfg, NoKey, None, POST, h.apiUrl(cfg.version),
            "/Outbound/" + outboundId + "/Active", Some(map["isActive" := isActive]))
  }

  /** The request `Outbound.get_calls` builds: the five fixed keys, plus
      `sortProp` and `tags` when truthy. */
  function GetCallsRequest(cfg: Config, h: Helpers, outboundId: string, fromDate: DateInput, toDate: DateInput,
                           skip: Value := Int(0), limit: Value := Int(100), sortProp: Value := Null,
                           isAscending: Value := Bool(true), tags: Value := Null): (r: Result<Request, Err>)
    ensures ChecksInOrder(r, CheckV1Only(cfg, "get_calls"), cfg, NoKey, None)
    ensures r.Success? ==> r.value.Sends(POST, h.apiUrl(cfg.version), "/Outbound/" + outboundId + "/Calls",
      Some(map["skip" := skip, "limit" := limit, "isAscending" := isAscending,
               "fromDate" := Str(h.processDate(fromDate)), "toDate" := Str(h.processDate(toDate))]
           + TruthyEntries(map["sortProp" := sortProp, "tags" := tags])))
  {
    Checked(CheckV1Only(cfg, "get_calls"), cfg, NoKey, None, POST, h.apiUrl(cfg.version), "/Outbound/" + outboundId + "/Calls",
      Some(map["skip" := skip, "limit" := limit, "isAscending" := isAscending,
               "fromDate" := Str(h.processDate(fromDate)), "toDate" := Str(h.processDate(toDate))]
           + TruthyEntries(map["sortProp" := sortProp, "tags" := tags])))
  }

  /** `Outbound.get_calls`, growing its body one insertion at a time. */
  method GetCalls(cfg: Config, h: Helpers, outboundId: string, fromDate: DateInput, toDate: DateInput,
                  skip: Value := Int(0), limit: Value := Int(100), sortProp: Value := Null,
                  isAscending: Value := Bool(true), tags: Value := Null) returns (r: Result<Request, Err>)
    ensures r == GetCallsRequest(cfg, h, outboundId, fromDate, toDate, skip, limit, sortProp, isAscending, tags)
  {
    var guard := CheckV1Only(cfg, "get_calls");
    if guard.Some? { return Failure(guard.value); }
    if cfg.apiKey.None? { return Failure(KeyNotSet(NoKey)); }
    var fromDateStr := h.processDate(fromDate);
    var toDateStr := h.processDate(toDate);
    var url := h.apiUrl(cfg.version);
    var data: Body := map["skip" := skip, "limit" := limit, "isAscending" := isAscending,
                          "fromDate" := Str(fromDateStr), "toDate" := Str(toDateStr)];
    ghost var fixed := data;
    ghost var seen: Body := map[];
    NothingKept(fixed, seen, WhenTruthy);
    seen := KeepStep(fixed, seen, "sortProp", sortProp, WhenTruthy);
    data := PutIf(data, "sortProp", sortProp, WhenTruthy);
    seen := KeepStep(fixed, seen, "tags", tags, WhenTruthy);
    data := PutIf(data, "tags", tags, WhenTruthy);
    var request := Request(POST, url, "/Outbound/" + outboundId + "/Calls", cfg.apiKey.value, Some(data));
    assert GetCallsRequest(cfg, h, outboundId, fromDate, toDate, skip, limit, sortProp, isAscending, tags) == Success(request);
    r := Success(request);
  }

  /** Called with only its required arguments, `get_calls` sends `skip` 0,
      `limit` 100, `isAscending` true and the two dates, and nothing else. */
  lemma GetCallsDefaults(cfg: Config, h: Helpers, outboundId: string, fromDate: DateInput, toDate: DateInput)
    requires cfg.apiKey.Some? && cfg.version != Some("v2")
    ensures GetCallsRequest(cfg, h, outboundId, fromDate, toDate).Success?
    ensures GetCallsRequest(cfg, h, outboundId, fromDate, toDate).value.body
         == Some(map["skip" := Int(0), "limit" := Int(100), "isAscending" := Bool(true),
                     "fromDate" := Str(h.processDate(fromDate)), "toDate" := Str(h.processDate(toDate))])
  {
    NothingKept(map["skip" := Int(0), "limit" := Int(100), "isAscending" := Bool(true),
                "fromDate" := Str(h.processDate(fromDate)), "toDate" := Str(h.processDate(toDate))],
                map["sortProp" := Null, "tags" := Null], WhenTruthy);
  }

  /** The request `Outbound.add_lead` builds: key check, then a truthy
      `phone_number`; PUT under "v1" and POST under every other version, to
      the same path with the same body. */
  function AddLeadRequest(cfg: Config, h: Helpers, idParam: string, phoneNumber: Value,
                          externalId: Value := Null, timeZoneId: Value := Null, callData: Value := Null): (r: Result<Request, Err>)
    ensures ChecksInOrder(r, None, cfg, NoKey,
              if Truthy(phoneNumber) then None else Some(InvalidArgument(PhoneRequired)))
    ensures r.Success? ==> r.value.Sends(if cfg.version == Some("v1") then PUT else POST,
      h.apiUrl(cfg.version), "/Outbound/" + idParam + "/Lead",
      Some(map["phoneNumber" := phoneNumber]
           + TruthyEntries(map["externalId" := externalId, "timeZoneId" := timeZoneId, "callData" := callData])))
  {
    Checked(None, cfg, NoKey, if Truthy(phoneNumber) then None else Some(InvalidArgument(PhoneRequired)),
      if cfg.version == Some("v1") then PUT else POST, h.apiUrl(cfg.version), "/Outbound/" + idParam + "/Lead",
      Some(map["phoneNumber" := phoneNumber]
           + TruthyEntries(map["externalId" := externalId, "timeZoneId" := timeZoneId, "callData" := callData])))
  }

  /** The three conditional insertions both branches of `add_lead` make. */
  lemma LeadBodySteps(phoneNumber: Value, externalId: Value, timeZoneId: Value, callData: Value)
    ensures var fixed := map["phoneNumber" := phoneNumber];
            PutIf(PutIf(PutIf(fixed, "externalId", externalId, WhenTruthy), "timeZoneId", timeZoneId, WhenTruthy),
                  "callData", callData, WhenTruthy)
            == fixed + TruthyEntries(map["externalId" := externalId, "timeZoneId" := timeZoneId, "callData" := callData])
  {
    var fixed := map["phoneNumber" := phoneNumber];
    var seen: Body := map[];
    NothingKept(fixed, seen, WhenTruthy);
    seen := KeepStep(fixed, seen, "externalId", externalId, WhenTruthy);
    seen := KeepStep(fixed, seen, "timeZoneId", timeZoneId, WhenTruthy);
    seen := KeepStep(fixed, seen, "callData", callData, WhenTruthy);
  }

  /** `Outbound.add_lead`, with its two per-version branches. */
  method AddLead(cfg: Config, h: Helpers, idParam: string, phoneNumber: Value,
                 externalId: Value := Null, timeZoneId: Value := Null, callData: Value := Null) returns (r: Result<Request, Err>)
    ensures r == AddLeadRequest(cfg, h, idParam, phoneNumber, externalId, timeZoneId, callData)
  {
    if cfg.apiKey.None? { return Failure(KeyNotSet(NoKey)); }
    if !Truthy(phoneNumber) { return Failure(InvalidArgument(PhoneRequired)); }
    var token := cfg.apiKey.value;
    var version := cfg.version;
    if version == Some("v1") {
      var url := h.apiUrl(cfg.version);
      var data: Body := map["phoneNumber" := phoneNumber];
      data := PutIf(data, "externalId", externalId, WhenTruthy);
      data := PutIf(data, "timeZoneId", timeZoneId, WhenTruthy);
      data := PutIf(data, "callData", callData, WhenTruthy);
      LeadBodySteps(phoneNumber, externalId, timeZoneId, callData);
      var request := Request(PUT, url, "/Outbound/" + idParam + "/Lead", token, Some(data));
      assert AddLeadRequest(cfg, h, idParam, phoneNumber, externalId, timeZoneId, callData) == Success(request);
      r := Success(request);
    } else {
      var url := h.apiUrl(cfg.version);
      var data: Body := map["phoneNumber" := phoneNumber];
      data := PutIf(data, "externalId", externalId, WhenTruthy);
      data := PutIf(data, "timeZoneId", timeZoneId, WhenTruthy);
      data := PutIf(data, "callData", callData, WhenTruthy);
      LeadBodySteps(phoneNumber, externalId, timeZoneId, callData);
      var request := Request(POST, url, "/Outbound/" + idParam + "/Lead", token, Some(data));
      assert AddLeadRequest(cfg, h, idParam, phoneNumber, externalId, timeZoneId, callData) == Success(request);
      r := Success(request);
    }
  }

  /** Called with only a phone number, `add_lead` sends that number alone. */
  lemma AddLeadDefaults(cfg: Config, h: Helpers, idParam: string, phoneNumber: Value)
    requires cfg.apiKey.Some? && Truthy(phoneNumber)
    ensures AddLeadRequest(cfg, h, idParam, phoneNumber).Success?
    ensures AddLeadRequest(cfg, h, idParam, phoneNumber).value.body == Some(map["phoneNumber" := phoneNumber])
  {
    NothingKept(map["phoneNumber" := phoneNumber], map["externalId" := Null, "timeZoneId" := Null, "callData" := Null], WhenTruthy);
  }

  /** The request `Outbound.update_lead` builds: key check, then PUT
      `/Outbound/{id}/Lead/{leadId}` with every optional that is not None. */
  function UpdateLeadRequest(cfg: Config, h: Helpers, idParam: string, leadId: string, phoneNumber: Value := Null,
                             externalId: Value := Null, timeZoneId: Value := Null, callData: Value := Null,
                             status: Value := Null): (r: Result<Request, Err>)
    ensures ChecksInOrder(r, None, cfg, NoKey, None)
    ensures r.Success? ==> r.value.Sends(PUT, h.apiUrl(cfg.version), "/Outbound/" + idParam + "/Lead/" + leadId,
      Some(NonNullEntries(map["phoneNumber" := phoneNumber, "externalId" := externalId, "timeZoneId" := timeZoneId,
                              "callData" := callData, "status" := status])))
  {
    Checked(None, cfg, NoKey, None, PUT, h.apiUrl(cfg.version), "/Outbound/" + idParam + "/Lead/" + leadId,
      Some(NonNullEntries(map["phoneNumber" := phoneNumber, "externalId" := externalId, "timeZoneId" := timeZoneId,
                              "callData" := callData, "status" := status])))
  }

  /** The first three conditional insertions of `update_lead`. */
  lemma UpdateBodyHead(phoneNumber: Value, externalId: Value, timeZoneId: Value)
    ensures PutIf(PutIf(PutIf(map[], "phoneNumber", phoneNumber, WhenNotNull), "externalId", externalId, WhenNotNull),
                  "timeZoneId", timeZoneId, WhenNotNull)
            == NonNullEntries(map["phoneNumber" := phoneNumber, "externalId" := externalId, "timeZoneId" := timeZoneId])
  {
    var none: Body := map[];
    var seen: Body := map[];
    NothingKept(none, seen, WhenNotNull);
    seen := KeepStep(none, seen, "phoneNumber", phoneNumber, WhenNotNull);
    seen := KeepStep(none, seen, "externalId", externalId, WhenNotNull);
    seen := KeepStep(none, seen, "timeZoneId", timeZoneId, WhenNotNull);
    assert none + NonNullEntries(seen) == NonNullEntries(seen);
  }

  /** The five conditional insertions of `update_lead`, made from `{}`. */
  lemma UpdateBodySteps(phoneNumber: Value, externalId: Value, timeZoneId: Value, callData: Value, status: Value)
    ensures PutIf(PutIf(PutIf(PutIf(PutIf(map[], "phoneNumber", phoneNumber, WhenNotNull), "externalId", externalId, WhenNotNull),
                                "timeZoneId", timeZoneId, WhenNotNull), "callData", callData, WhenNotNull), "status", status, WhenNotNull)
            == NonNullEntries(map["phoneNumber" := phoneNumber, "externalId" := externalId, "timeZoneId" := timeZoneId,
                                  "callData" := callData, "status" := status])
  {
    var none: Body := map[];
    var seen: Body := map["phoneNumber" := phoneNumber, "externalId" := externalId, "timeZoneId" := timeZoneId];
    UpdateBodyHead(phoneNumber, externalId, timeZoneId);
    assert none + NonNullEntries(seen) == NonNullEntries(seen);
    seen := KeepStep(none, seen, "callData", callData, WhenNotNull);
    seen := KeepStep(none, seen, "status", status, WhenNotNull);
    assert none + NonNullEntries(seen) == NonNullEntries(seen);
  }

  /** `Outbound.update_lead`, starting from `{}` and inserting each present value. */
  method UpdateLead(cfg: Config, h: Helpers, idParam: string, leadId: string, phoneNumber: Value := Null,
                    externalId: Value := Null, timeZoneId: Value := Null, callData: Value := Null,
                    status: Value := Null) returns (r: Result<Request, Err>)
    ensures r == UpdateLeadRequest(cfg, h, idParam, leadId, phoneNumber, externalId, timeZoneId, callData, status)
  {
    if cfg.apiKey.None? { return Failure(KeyNotSet(NoKey)); }
    var url := h.apiUrl(cfg.version);
    var data: Body := map[];
    data := PutIf(data, "phoneNumber", phoneNumber, WhenNotNull);
    data := PutIf(data, "externalId", externalId, WhenNotNull);
    data := PutIf(data, "timeZoneId", timeZoneId, WhenNotNull);
    data := PutIf(data, "callData", callData, WhenNotNull);
    data := PutIf(data, "status", status, WhenNotNull);
    UpdateBodySteps(phoneNumber, externalId, timeZoneId, callData, status);
    var request := Request(PUT, url, "/Outbound/" + idParam + "/Lead/" + leadId, cfg.apiKey.value, Some(data));
    assert UpdateLeadRequest(cfg, h, idParam, leadId, phoneNumber, externalId, timeZoneId, callData, status) == Success(request);
    r := Success(request);
  }

  /** Called with no field to change, `update_lead` still sends its PUT, with
      the empty body `{}`. */
  lemma UpdateLeadDefaults(cfg: Config, h: Helpers, idParam: string, leadId: string)
    requires cfg.apiKey.Some?
    ensures UpdateLeadRequest(cfg, h, idParam, leadId).Success?
    ensures UpdateLeadRequest(cfg, h, idParam, leadId).value.body == Some(map[])
  {
    NothingKept(map[], map["phoneNumber" := Null, "externalId" := Null, "timeZoneId" := Null,
                           "callData" := Null, "status" := Null], WhenNotNull);
  }

  /** The body `Outbound.get_leads` sends: `skip`, `limit` and `isAscending`
      always, then the truthy ones among `sortProp` and the version's own
      filters: `status` under "v1", `statuses` and `searchInput` under any
      other version. */
  function LeadsQuery(version: Option<string>, skip: Value, limit: Value, sortProp: Value, isAscending: Value,
                      statuses: Value, searchInput: Value, status: Value): (q: Body)
    ensures "skip" in q && q["skip"] == skip && "limit" in q && q["limit"] == limit
    ensures "isAscending" in q && q["isAscending"] == isAscending
    ensures q.Keys <= {"skip", "limit", "isAscending", "sortProp", "status", "statuses", "searchInput"}
  {
    map["skip" := skip, "limit" := limit, "isAscending" := isAscending]
    + TruthyEntries(if version == Some("v1") then map["sortProp" := sortProp, "status" := status]
                    else map["sortProp" := sortProp, "statuses" := statuses, "searchInput" := searchInput])
  }

  /** The request `Outbound.get_leads` builds: key check, then POST
      `/Outbound/{id}/Leads` with `LeadsQuery`. */
  function GetLeadsRequest(cfg: Config, h: Helpers, idParam: string,
                           skip: Value := Int(0), limit: Value := Int(100), sortProp: Value := Null,
                           isAscending: Value := Bool(true), statuses: Value := Null, searchInput: Value := Null,
                           status: Value := Null): (r: Result<Request, Err>)
    ensures ChecksInOrder(r, None, cfg, NoKey, None)
    ensures r.Success? ==> r.value.Sends(POST, h.apiUrl(cfg.version), "/Outbound/" + idParam + "/Leads",
      Some(LeadsQuery(cfg.version, skip, limit, sortProp, isAscending, statuses, searchInput, status)))
  {
    Checked(None, cfg, NoKey, None, POST, h.apiUrl(cfg.version), "/Outbound/" + idParam + "/Leads",
      Some(LeadsQuery(cfg.version, skip, limit, sortProp, isAscending, statuses, searchInput, status)))
  }

  /** `Outbound.get_leads`, inserting the optional filters one at a time. */
  method GetLeads(cfg: Config, h: Helpers, idParam: string,
                  skip: Value := Int(0), limit: Value := Int(100), sortProp: Value := Null,
                  isAscending: Value := Bool(true), statuses: Value := Null, searchInput: Value := Null,
                  status: Value := Null) returns (r: Result<Request, Err>)
    ensures r == GetLeadsRequest(cfg, h, idParam, skip, limit, sortProp, isAscending, statuses, searchInput, status)
  {
    if cfg.apiKey.None? { return Failure(KeyNotSet(NoKey)); }
    var url := h.apiUrl(cfg.version);
    var data: Body := map["skip" := skip, "limit" := limit, "isAscending" := isAscending];
    ghost var fixed := data;
    ghost var seen: Body := map[];
    NothingKept(fixed, seen, WhenTruthy);
    seen := KeepStep(fixed, seen, "sortProp", sortProp, WhenTruthy);
    data := PutIf(data, "sortProp", sortProp, WhenTruthy);
    var version := cfg.version;
    if version == Some("v1") {
      seen := KeepStep(fixed, seen, "status", status, WhenTruthy);
      data := PutIf(data, "status", status, WhenTruthy);
    } else {
      seen := KeepStep(fixed, seen, "statuses", statuses, WhenTruthy);
      data := PutIf(data, "statuses", statuses, WhenTruthy);
      seen := KeepStep(fixed, seen, "searchInput", searchInput, WhenTruthy);
      data := PutIf(data, "searchInput", searchInput, WhenTruthy);
    }
    var request := Request(POST, url, "/Outbound/" + idParam + "/Leads", cfg.apiKey.value, Some(data));
    assert GetLeadsRequest(cfg, h, idParam, skip, limit, sortProp, isAscending, statuses, searchInput, status) == Success(request);
    r := Success(request);
  }

  /** Called with only the identifier, `get_leads` sends `skip` 0, `limit`
      100 and `isAscending` true, under every version, and no filter. */
  lemma GetLeadsDefaults(cfg: Config, h: Helpers, idParam: string)
    requires cfg.apiKey.Some?
    ensures GetLeadsRequest(cfg, h, idParam).Success?
    ensures GetLeadsRequest(cfg, h, idParam).value.body
         == Some(map["skip" := Int(0), "limit" := Int(100), "isAscending" := Bool(true)])
  {
    var fixed := map["skip" := Int(0), "limit" := Int(100), "isAscending" := Bool(true)];
    NothingKept(fixed, map["sortProp" := Null, "status" := Null], WhenTruthy);
    NothingKept(fixed, map["sortProp" := Null, "statuses" := Null, "searchInput" := Null], WhenTruthy);
  }

  /** `Outbound.get_lead_by_id`: key check, GET `/Outbound/{id}/Lead/{leadId}`. */
  function GetLeadById(cfg: Config, h: Helpers, idParam: string, leadId: string): (r: Result<Request, Err>)
    ensures ChecksInOrder(r, None, cfg, NoKey, None)
    ensures r.Success? ==> r.value.Sends(GET, h.apiUrl(cfg.version), "/Outbound/" + idParam + "/Lead/" + leadId, None)
  {
    Checked(None, cfg, NoKey, None, GET, h.apiUrl(cfg.version), "/Outbound/" + idParam + "/Lead/" + leadId, None)
  }

  /** `Outbound.get_lead_by_external_id`: key check, GET
      `/Outbound/{id}/Lead/External/{externalId}`. */
  function GetLeadByExternalId(cfg: Config, h: Helpers, idParam: string, externalId: string): (r: Result<Request, Err>)
    ensures ChecksInOrder(r, None, cfg, NoKey, None)
    ensures r.Success? ==> r.value.Sends(GET, h.apiUrl(cfg.version), "/Outbound/" + idParam + "/Lead/External/" + externalId, None)
  {
    Checked(None, cfg, NoKey, None, GET, h.apiUrl(cfg.version), "/Outbound/" + idParam + "/Lead/External/" + externalId, None)
  }

  /** `Outbound.get_lead_by_phone_number`: key check, GET
      `/Outbound/{id}/Lead/PhoneNumber/{phone}` with the number as given. */
  function GetLeadByPhoneNumber(cfg: Config, h: Helpers, idParam: string, phoneNumber: string): (r: Result<Request, Err>)
    ensures ChecksInOrder(r, None, cfg, NoKey, None)
    ensures r.Success? ==> r.value.Sends(GET, h.apiUrl(cfg.version), "/Outbound/" + idParam + "/Lead/PhoneNumber/" + phoneNumber, None)
  {
    Checked(None, cfg, NoKey, None, GET, h.apiUrl(cfg.version), "/Outbound/" + idParam + "/Lead/PhoneNumber/" + phoneNumber, None)
  }

  /** The request `Outbound.make_call` builds: v1 guard, key check, POST
      `/Outbound/{id}/Call` with `to` and a truthy `callData`. */
  function MakeCallRequest(cfg: Config, h: Helpers, outboundId: string, to: Value, callData: Value := Null): (r: Result<Request, Err>)
    ensures ChecksInOrder(r, CheckV1Only(cfg, "make_call"), cfg, NoKey, None)
    ensures r.Success? ==> r.value.Sends(POST, h.apiUrl(cfg.version), "/Outbound/" + outboundId + "/Call",
      Some(map["to" := to] + TruthyEntries(map["callData" := callData])))
  {
    Checked(CheckV1Only(cfg, "make_call"), cfg, NoKey, None, POST, h.apiUrl(cfg.version), "/Outbound/" + outboundId + "/Call",
      Some(map["to" := to] + TruthyEntries(map["callData" := callData])))
  }

  /** `Outbound.make_call`. */
  method MakeCall(cfg: Config, h: Helpers, outboundId: string, to: Value, callData: Value := Null) returns (r: Result<Request, Err>)
    ensures r == MakeCallRequest(cfg, h, outboundId, to, callData)
  {
    var guard := CheckV1Only(cfg, "make_call");
    if guard.Some? { return Failure(guard.value); }
    if cfg.apiKey.None? { return Failure(KeyNotSet(NoKey)); }
    var url := h.apiUrl(cfg.version);
    var data: Body := map["to" := to];
    ghost var fixed := data;
    ghost var seen: Body := map[];
    NothingKept(fixed, seen, WhenTruthy);
    seen := KeepStep(fixed, seen, "callData", callData, WhenTruthy);
    data := PutIf(data, "callData", callData, WhenTruthy);
    var request := Request(POST, url, "/Outbound/" + outboundId + "/Call", cfg.apiKey.value, Some(data));
    assert MakeCallRequest(cfg, h, outboundId, to, callData) == Success(request);
    r := Success(request);
  }

  /** Called without call data, `make_call` sends `{to}` alone. */
  lemma MakeCallDefaults(cfg: Config, h: Helpers, outboundId: string, to: Value)
    requires cfg.apiKey.Some? && cfg.version != Some("v2")
    ensures MakeCallRequest(cfg, h, outboundId, to).Success?
    ensures MakeCallRequest(cfg, h, outboundId, to).value.body == Some(map["to" := to])
  {
    NothingKept(map["to" := to], map["callData" := Null], WhenTruthy);
  }

  /** `Outbound.get_call_request`: v1 guard, key check, GET
      `/Outbound/CallRequest/{requestId}`. */
  function GetCallRequest(cfg: Config, h: Helpers, requestId: string): (r: Result<Request, Err>)
    ensures ChecksInOrder(r, CheckV1Only(cfg, "get_call_request"), cfg, NoKey, None)
    ensures r.Success? ==> r.value.Sends(GET, h.apiUrl(cfg.version), "/Outbound/CallRequest/" + requestId, None)
  {
    Checked(CheckV1Only(cfg, "get_call_request"), cfg, NoKey, None, GET, h.apiUrl(cfg.version), "/Outbound/CallRequest/" + requestId, None)
  }

  /** The request `Outbound.get_call_requests` builds: the five fixed keys and
      a truthy `sortProp`. */
  function GetCallRequestsRequest(cfg: Config, h: Helpers, outboundId: string, fromDate: DateInput, toDate: DateInput,
                                  skip: Value := Int(0), limit: Value := Int(100), sortProp: Value := Null,
                                  isAscending: Value := Bool(true)): (r: Result<Request, Err>)
    ensures ChecksInOrder(r, CheckV1Only(cfg, "get_call_requests"), cfg, NoKey, None)
    ensures r.Success? ==> r.value.Sends(POST, h.apiUrl(cfg.version), "/Outbound/" + outboundId + "/CallRequest",
      Some(map["skip" := skip, "limit" := limit, "isAscending" := isAscending,
               "fromDate" := Str(h.processDate(fromDate)), "toDate" := Str(h.processDate(toDate))]
           + TruthyEntries(map["sortProp" := sortProp])))
  {
    Checked(CheckV1Only(cfg, "get_call_requests"), cfg, NoKey, None, POST, h.apiUrl(cfg.version), "/Outbound/" + outboundId + "/CallRequest",
      Some(map["skip" := skip, "limit" := limit, "isAscending" := isAscending,
               "fromDate" := Str(h.processDate(fromDate)), "toDate" := Str(h.processDate(toDate))]
           + TruthyEntries(map["sortProp" := sortProp])))
  }

  /** `Outbound.get_call_requests`. */
  method GetCallRequests(cfg: Config, h: Helpers, outboundId: string, fromDate: DateInput, toDate: DateInput,
                         skip: Value := Int(0), limit: Value := Int(100), sortProp: Value := Null,
                         isAscending: Value := Bool(true)) returns (r: Result<Request, Err>)
    ensures r == GetCallRequestsRequest(cfg, h, outboundId, fromDate, toDate, skip, limit, sortProp, isAscending)
  {
    var guard := CheckV1Only(cfg, "get_call_requests");
    if guard.Some? { return Failure(guard.value); }
    if cfg.apiKey.None? { return Failure(KeyNotSet(NoKey)); }
    var fromDateStr := h.processDate(fromDate);
    var toDateStr := h.processDate(toDate);
    var url := h.apiUrl(cfg.version);
    var data: Body := map["skip" := skip, "limit" := limit, "isAscending" := isAscending,
                          "fromDate" := Str(fromDateStr), "toDate" := Str(toDateStr)];
    ghost var fixed := data;
    ghost var seen: Body := map[];
    NothingKept(fixed, seen, WhenTruthy);
    seen := KeepStep(fixed, seen, "sortProp", sortProp, WhenTruthy);
    data := PutIf(data, "sortProp", sortProp, WhenTruthy);
    var request := Request(POST, url, "/Outbound/" + outboundId + "/CallRequest", cfg.apiKey.value, Some(data));
    assert GetCallRequestsRequest(cfg, h, outboundId, fromDate, toDate, skip, limit, sortProp, isAscending) == Success(request);
    r := Success(request);
  }

  /** Called with only its required arguments, `get_call_requests` sends
      `skip` 0, `limit` 100, `isAscending` true and the two dates. */
  lemma GetCallRequestsDefaults(cfg: Config, h: Helpers, outboundId: string, fromDate: DateInput, toDate: DateInput)
    requires cfg.apiKey.Some? && cfg.version != Some("v2")
    ensures GetCallRequestsRequest(cfg, h, outboundId, fromDate, toDate).Success?
    ensures GetCallRequestsRequest(cfg, h, outboundId, fromDate, toDate).value.body
         == Some(map["skip" := Int(0), "limit" := Int(100), "isAscending" := Bool(true),
                     "fromDate" := Str(h.processDate(fromDate)), "toDate" := Str(h.processDate(toDate))])
  {
    NothingKept(map["skip" := Int(0), "limit" := Int(100), "isAscending" := Bool(true),
                "fromDate" := Str(h.processDate(fromDate)), "toDate" := Str(h.processDate(toDate))],
                map["sortProp" := Null], WhenTruthy);
  }

  /** `not isinstance(ids, list) or not ids` */
  predicate NonEmptyList(ids: Value)
    ensures NonEmptyList(ids) <==> ids.List? && Truthy(ids)
  {
    ids.List? && ids.items != []
  }

  /** `Outbound.delete_leads`: key check, then a non-empty list, then DELETE
      `/Outbound/{id}/Leads` with exactly `{leadIds}`. */
  function DeleteLeads(cfg: Config, h: Helpers, idParam: string, leadIds: Value): (r: Result<Request, Err>)
    ensures ChecksInOrder(r, None, cfg, NoKey,
              if NonEmptyList(leadIds) then None else Some(InvalidArgument(LeadIdsRequired)))
    ensures r.Success? ==> r.value.Sends(DELETE, h.apiUrl(cfg.version), "/Outbound/" + idParam + "/Leads",
                                         Some(map["leadIds" := leadIds]))
  {
    Checked(None, cfg, NoKey, if NonEmptyList(leadIds) then None else Some(InvalidArgument(LeadIdsRequired)),
      DELETE, h.apiUrl(cfg.version), "/Outbound/" + idParam + "/Leads", Some(map["leadIds" := leadIds]))
  }

  /** `Outbound.delete_leads_by_external_id`: key check, then a non-empty
      list, then DELETE `/Outbound/{id}/Leads/External` with exactly
      `{leadExternalIds}`. */
  function DeleteLeadsByExternalId(cfg: Config, h: Helpers, idParam: string, externalIds: Value): (r: Result<Request, Err>)
    ensures ChecksInOrder(r, None, cfg, NoKey,
              if NonEmptyList(externalIds) then None else Some(InvalidArgument(ExternalIdsRequired)))
    ensures r.Success? ==> r.value.Sends(DELETE, h.apiUrl(cfg.version), "/Outbound/" + idParam + "/Leads/External",
                                         Some(map["leadExternalIds" := externalIds]))
  {
    Checked(None, cfg, NoKey, if NonEmptyList(externalIds) then None else Some(InvalidArgument(ExternalIdsRequired)),
      DELETE, h.apiUrl(cfg.version), "/Outbound/" + idParam + "/Leads/External", Some(map["leadExternalIds" := externalIds]))
  }

  /** `Outbound.get_analytics`: v1 guard, key check, the 90-day range guard,
      then POST `/Outbound/{id}/Analytics` with exactly `{from, to}`. */
  function GetAnalytics(cfg: Config, h: Helpers, outboundId: string, fromDate: DateInput, toDate: DateInput): (r: Result<Request, Err>)
    ensures ChecksInOrder(r, CheckV1Only(cfg, "get_analytics"), cfg, NoKey, RangeCheck(h, fromDate, toDate))
    ensures r.Success? ==> r.value.Sends(POST, h.apiUrl(cfg.version), "/Outbound/" + outboundId + "/Analytics",
      Some(map["from" := Str(h.processDate(fromDate)), "to" := Str(h.processDate(toDate))]))
  {
    Checked(CheckV1Only(cfg, "get_analytics"), cfg, NoKey, RangeCheck(h, fromDate, toDate), POST, h.apiUrl(cfg.version),
      "/Outbound/" + outboundId + "/Analytics",
      Some(map["from" := Str(h.processDate(fromDate)), "to" := Str(h.processDate(toDate))]))
  }

  /** `add_lead` has one shape under every version: the same checks, path
      and body, PUT under "v1" and POST under any other version. */
  lemma AddLeadAcrossVersions(key: string, h: Helpers, idParam: string, phoneNumber: Value,
                              externalId: Value, timeZoneId: Value, callData: Value, other: Option<string>)
    requires other != Some("v1")
    ensures var r1 := AddLeadRequest(Config(Some(key), Some("v1")), h, idParam, phoneNumber, externalId, timeZoneId, callData);
            var r2 := AddLeadRequest(Config(Some(key), other), h, idParam, phoneNumber, externalId, timeZoneId, callData);
            && (r1.Success? <==> Truthy(phoneNumber)) && (r2.Success? <==> Truthy(phoneNumber))
            && (r1.Failure? ==> r1 == r2)
            && (r1.Success? ==> r1.value.verb == PUT && r2.value.verb == POST
                                && r1.value.path == r2.value.path && r1.value.body == r2.value.body)
  {
  }

  /** The `add_lead` body: `phoneNumber` always, each optional exactly when
      it is truthy, and nothing else. */
  lemma AddLeadBodyKeys(cfg: Config, h: Helpers, idParam: string, phoneNumber: Value,
                        externalId: Value, timeZoneId: Value, callData: Value)
    requires AddLeadRequest(cfg, h, idParam, phoneNumber, externalId, timeZoneId, callData).Success?
    ensures var body := AddLeadRequest(cfg, h, idParam, phoneNumber, externalId, timeZoneId, callData).value.body.value;
            && body["phoneNumber"] == phoneNumber
            && ("externalId" in body <==> Truthy(externalId))
            && ("timeZoneId" in body <==> Truthy(timeZoneId))
            && ("callData" in body <==> Truthy(callData))
            && body.Keys <= {"phoneNumber", "externalId", "timeZoneId", "callData"}
  {
  }

  /** `update_lead` sends every argument that is not None, falsy ones
      included (an empty string, 0, False), and sends `{}` when all are None. */
  lemma UpdateLeadSendsPresentValues(cfg: Config, h: Helpers, idParam: string, leadId: string, phoneNumber: Value,
                                     externalId: Value, timeZoneId: Value, callData: Value, status: Value)
    requires UpdateLeadRequest(cfg, h, idParam, leadId, phoneNumber, externalId, timeZoneId, callData, status).Success?
    ensures var body := UpdateLeadRequest(cfg, h, idParam, leadId, phoneNumber, externalId, timeZoneId, callData, status).value.body.value;
            && ("phoneNumber" in body <==> phoneNumber != Null)
            && ("externalId" in body <==> externalId != Null)
            && ("timeZoneId" in body <==> timeZoneId != Null)
            && ("callData" in body <==> callData != Null)
            && ("status" in body <==> status != Null)
            && (status != Null ==> body["status"] == status)
            && (phoneNumber == Null && externalId == Null && timeZoneId == Null && callData == Null && status == Null
                ==> body == map[])
  {
  }

  /** Under "v1" the `get_leads` filters are `sortProp` and `status`. */
  lemma LeadsQueryV1(skip: Value, limit: Value, sortProp: Value, isAscending: Value,
                     statuses: Value, searchInput: Value, status: Value)
    ensures var q := LeadsQuery(Some("v1"), skip, limit, sortProp, isAscending, statuses, searchInput, status);
            && q["skip"] == skip && q["limit"] == limit && q["isAscending"] == isAscending
            && ("sortProp" in q <==> Truthy(sortProp)) && ("status" in q <==> Truthy(status))
            && "statuses" !in q && "searchInput" !in q
  {
  }

  /** Under any other version they are `sortProp`, `statuses` and
      `searchInput`. */
  lemma LeadsQueryOther(version: Option<string>, skip: Value, limit: Value, sortProp: Value, isAscending: Value,
                        statuses: Value, searchInput: Value, status: Value)
    requires version != Some("v1")
    ensures var q := LeadsQuery(version, skip, limit, sortProp, isAscending, statuses, searchInput, status);
            && q["skip"] == skip && q["limit"] == limit && q["isAscending"] == isAscending
            && ("sortProp" in q <==> Truthy(sortProp)) && "status" !in q
            && ("statuses" in q <==> Truthy(statuses)) && ("searchInput" in q <==> Truthy(searchInput))
  {
  }

  /** The `get_leads` body always holds `skip`, `limit` and `isAscending`;
      `status` can only appear under "v1", `statuses` and `searchInput` only
      under any other version, so the two filter vocabularies never mix. */
  lemma LeadsFiltersByVersion(version: Option<string>, skip: Value, limit: Value, sortProp: Value, isAscending: Value,
                              statuses: Value, searchInput: Value, status: Value)
    ensures var q := LeadsQuery(version, skip, limit, sortProp, isAscending, statuses, searchInput, status);
            && q["skip"] == skip && q["limit"] == limit && q["isAscending"] == isAscending
            && ("sortProp" in q <==> Truthy(sortProp))
            && ("status" in q <==> version == Some("v1") && Truthy(status))
            && ("statuses" in q <==> version != Some("v1") && Truthy(statuses))
            && ("searchInput" in q <==> version != Some("v1") && Truthy(searchInput))
            && !("status" in q && ("statuses" in q || "searchInput" in q))
  {
    if version == Some("v1") {
      LeadsQueryV1(skip, limit, sortProp, isAscending, statuses, searchInput, status);
    } else {
      LeadsQueryOther(version, skip, limit, sortProp, isAscending, statuses, searchInput, status);
    }
  }

  /** The bulk deletes build a request only for a non-empty list, whatever
      else (a string, None, an empty list) they are given. */
  lemma DeletesNeedNonEmptyList(cfg: Config, h: Helpers, idParam: string, ids: Value)
    requires cfg.apiKey.Some?
    ensures DeleteLeads(cfg, h, idParam, ids).Success? <==> ids.List? && |ids.items| > 0
    ensures DeleteLeadsByExternalId(cfg, h, idParam, ids).Success? <==> ids.List? && |ids.items| > 0
  {
  }

  /** The analytics range guard accepts a difference of exactly 90 days and
      rejects 91, before any request is built. */
  lemma AnalyticsRangeBoundary(cfg: Config, h: Helpers, outboundId: string, fromDate: DateInput, toDate: DateInput)
    requires cfg.apiKey.Some? && cfg.version != Some("v2")
    ensures h.dayDiff(fromDate, toDate) == 90 ==> GetAnalytics(cfg, h, outboundId, fromDate, toDate).Success?
    ensures h.dayDiff(fromDate, toDate) == 91 ==>
              GetAnalytics(cfg, h, outboundId, fromDate, toDate) == Failure(InvalidArgument("Date range must not exceed 90 days."))
  {
  }
}

/** Every client operation of the package behind one dispatcher, so that the
    properties shared by all of them (guard order, the version guards, the
    key check, the verb table, how each response is decoded) can be stated
    once for all. */
module Client {
  import opened Wire
  import Nlpearl
  import Account
  import Call
  import Inbound
  import Outbound
  import Pearl

  /** A call of a class method of the package, grouped by class. */
  datatype Op =
    | AccountOp(account: AccountMethod)
    | CallOp(call: CallMethod)
    | InboundOp(inbound: InboundMethod)
    | OutboundOp(outbound: OutboundMethod)
    | OutboundLeadOp(lead: LeadMethod)
    | PearlOp(pearl: PearlMethod)

  datatype AccountMethod = GetAccount

  datatype CallMethod =
    | GetCall(callId: string)
    | CreateCall(toNumber: Value, fromNumber: Value, duration: Value)

  datatype InboundMethod =
    | GetAll
    | Get(inboundId: string)
    | SetActive(inboundId: string, isActive: Value)
    | GetCalls(inboundId: string, fromDate: DateInput, toDate: DateInput, skip: Value, limit: Value,
               sortProp: Value, isAscending: Value, tags: Value, statuses: Value, searchInput: Value)
    | GetOngoingCalls(inboundId: string)
    | GetAnalytics(inboundId: string, fromDate: DateInput, toDate: DateInput)

  /** The Outbound methods that only exist in API v1. */
  datatype OutboundMethod =
    | GetAll
    | Get(outboundId: string)
    | SetActive(outboundId: string, isActive: Value)
    | GetCalls(outboundId: string, fromDate: DateInput, toDate: DateInput, skip: Value, limit: Value,
               sortProp: Value, isAscending: Value, tags: Value)
    | MakeCall(outboundId: string, to: Value, callData: Value)
    | GetCallRequest(requestId: string)
    | GetCallRequests(outboundId: string, fromDate: DateInput, toDate: DateInput, skip: Value, limit: Value,
                      sortProp: Value, isAscending: Value)
    | GetAnalytics(outboundId: string, fromDate: DateInput, toDate: DateInput)

  /** The Outbound lead methods, which both versions offer (under v2 the
      identifier is a Pearl id). */
  datatype LeadMethod =
    | AddLead(idParam: string, phoneNumber: Value, externalId: Value, timeZoneId: Value, callData: Value)
    | UpdateLead(idParam: string, leadId: string, phoneNumber: Value, externalId: Value, timeZoneId: Value,
                 callData: Value, status: Value)
    | GetLeads(idParam: string, skip: Value, limit: Value, sortProp: Value, isAscending: Value,
               statuses: Value, searchInput: Value, status: Value)
    | GetLeadById(idParam: string, leadId: string)
    | GetLeadByExternalId(idParam: string, leadExternalId: string)
    | GetLeadByPhoneNumber(idParam: string, phone: string)
    | DeleteLeads(idParam: string, leadIds: Value)
    | DeleteLeadsByExternalId(idParam: string, externalIds: Value)

  datatype PearlMethod =
    | ResetCustomerMemory(pearlId: string, phone: string)
    | ResetMemory(pearlId: string, phone: string)
    | GetAll
    | Get(pearlId: string)
    | SetActive(pearlId: string, isActive: Value)
    | GetCalls(pearlId: string, fromDate: DateInput, toDate: DateInput, skip: Value, limit: Value,
               sortProp: Value, isAscending: Value, tags: Value, statuses: Value, searchInput: Value)
    | GetOngoingCalls(pearlId: string)
    | GetAnalytics(pearlId: string, fromDate: DateInput, toDate: DateInput)

  /** Which version guard an operation runs before anything else: every
      Inbound method and every Outbound method except the lead methods is v1-only, every Pearl
      method but the memory resets is v2-only. */
  datatype Guard = Unguarded | V1Only | V2Only

  predicate PearlV2Only(m: PearlMethod) {
    !(m.ResetCustomerMemory? || m.ResetMemory?)
  }

  function GuardOf(op: Op): Guard {
    match op
    case InboundOp(_) => V1Only
    case OutboundOp(_) => V1Only
    case PearlOp(m) => if PearlV2Only(m) then V2Only else Unguarded
    case _ => Unguarded
  }

  /** A v1-only guard fires on exactly "v2", a v2-only guard on exactly "v1". */
  predicate Blocks(g: Guard, version: Option<string>) {
    (g == V1Only && version == Some("v2")) || (g == V2Only && version == Some("v1"))
  }

  /** The source's method name, as a guard message quotes it. */
  function InboundName(m: InboundMethod): string {
    match m
    case GetAll => "get_all"
    case Get(_) => "get"
    case SetActive(_, _) => "set_active"
    case GetCalls(_, _, _, _, _, _, _, _, _, _) => "get_calls"
    case GetOngoingCalls(_) => "get_ongoing_calls"
    case GetAnalytics(_, _, _) => "get_analytics"
  }

  function OutboundName(m: OutboundMethod): string {
    match m
    case GetAll => "get_all"
    case Get(_) => "get"
    case SetActive(_, _) => "set_active"
    case GetCalls(_, _, _, _, _, _, _, _) => "get_calls"
    case MakeCall(_, _, _) => "make_call"
    case GetCallRequest(_) => "get_call_request"
    case GetCallRequests(_, _, _, _, _, _, _) => "get_call_requests"
    case GetAnalytics(_, _, _) => "get_analytics"
  }

  function PearlName(m: PearlMethod): string {
    match m
    case GetAll => "get_all"
    case Get(_) => "get"
    case SetActive(_, _) => "set_active"
    case GetCalls(_, _, _, _, _, _, _, _, _, _) => "get_calls"
    case GetOngoingCalls(_) => "get_ongoing_calls"
    case GetAnalytics(_, _, _) => "get_analytics"
    case _ => ""
  }

  /** The version error an operation's guard raises under `cfg`, if any. */
  function GuardError(cfg: Config, op: Op): (e: Option<Err>)
    ensures e.Some? <==> Blocks(GuardOf(op), cfg.version)
    ensures e.Some? ==> e.value.VersionMismatch?
  {
    match op
    case InboundOp(m) => Inbound.CheckV1Only(cfg, InboundName(m))
    case OutboundOp(m) => Outbound.CheckV1Only(cfg, OutboundName(m))
    case PearlOp(m) => if PearlV2Only(m) then Pearl.CheckV2Only(cfg, PearlName(m)) else None
    case _ => None
  }

  /** The errors of the operations' own argument checks: a range over 90
      days for the analytics requests, an empty `phone_number` for
      `add_lead`, an empty or non-list id list for the bulk deletes. */
  function InboundArgumentError(h: Helpers, m: InboundMethod): Option<Err> {
    if m.GetAnalytics? then RangeCheck(h, m.fromDate, m.toDate) else None
  }

  function OutboundArgumentError(h: Helpers, m: OutboundMethod): Option<Err> {
    if m.GetAnalytics? then RangeCheck(h, m.fromDate, m.toDate) else None
  }

  function LeadArgumentError(m: LeadMethod): Option<Err> {
    match m
    case AddLead(_, phoneNumber, _, _, _) =>
      if Truthy(phoneNumber) then None else Some(InvalidArgument(Outbound.PhoneRequired))
    case DeleteLeads(_, leadIds) =>
      if Outbound.NonEmptyList(leadIds) then None else Some(InvalidArgument(Outbound.LeadIdsRequired))
    case DeleteLeadsByExternalId(_, externalIds) =>
      if Outbound.NonEmptyList(externalIds) then None else Some(InvalidArgument(Outbound.ExternalIdsRequired))
    case _ => None
  }

  function PearlArgumentError(h: Helpers, m: PearlMethod): Option<Err> {
    if m.GetAnalytics? then RangeCheck(h, m.fromDate, m.toDate) else None
  }

  function ArgumentError(h: Helpers, op: Op): (e: Option<Err>)
    ensures e.Some? ==> e.value.InvalidArgument?
  {
    match op
    case InboundOp(m) => InboundArgumentError(h, m)
    case OutboundOp(m) => OutboundArgumentError(h, m)
    case OutboundLeadOp(m) => LeadArgumentError(m)
    case PearlOp(m) => PearlArgumentError(h, m)
    case _ => None
  }

  /** The text of the missing-key error: every message starts "API key is not
      set."; the account and Call operations go on to say to set the key
      first, `Inbound.get_all` and the memory resets to set it, and the rest
      say nothing more. */
  function KeyMessageOf(op: Op): string {
    match op
    case AccountOp(_) => NoKey + SetKeyFirst
    case CallOp(_) => NoKey + SetKeyFirst
    case InboundOp(m) => if m.GetAll? then NoKey + SetKeyIt else NoKey
    case PearlOp(m) => if m.ResetCustomerMemory? || m.ResetMemory? then NoKey + SetKeyIt else NoKey
    case _ => NoKey
  }

  /** The verb table: fixed per operation, except `add_lead`, which PUTs
      under "v1" and POSTs otherwise. */
  function InboundVerb(m: InboundMethod): Verb {
    if m.SetActive? || m.GetCalls? || m.GetAnalytics? then POST else GET
  }

  function OutboundVerb(m: OutboundMethod): Verb {
    if m.GetAll? || m.Get? || m.GetCallRequest? then GET else POST
  }

  function LeadVerb(m: LeadMethod, version: Option<string>): Verb {
    match m
    case AddLead(_, _, _, _, _) => if version == Some("v1") then PUT else POST
    case UpdateLead(_, _, _, _, _, _, _) => PUT
    case GetLeads(_, _, _, _, _, _, _, _) => POST
    case DeleteLeads(_, _) => DELETE
    case DeleteLeadsByExternalId(_, _) => DELETE
    case _ => GET
  }

  function PearlVerb(m: PearlMethod): Verb {
    if m.ResetCustomerMemory? || m.ResetMemory? || m.SetActive? then PUT
    else if m.GetCalls? || m.GetAnalytics? then POST
    else GET
  }

  function VerbOf(op: Op, version: Option<string>): Verb {
    match op
    case AccountOp(_) => GET
    case CallOp(m) => if m.GetCall? then GET else POST
    case InboundOp(m) => InboundVerb(m)
    case OutboundOp(m) => OutboundVerb(m)
    case OutboundLeadOp(m) => LeadVerb(m, version)
    case PearlOp(m) => PearlVerb(m)
  }

  /** The Call operations use their own fixed v1 base; every other one the
      base resolved from the version global. */
  function BaseOf(h: Helpers, op: Op, version: Option<string>): string {
    if op.CallOp? then Call.ApiUrl else h.apiUrl(version)
  }

  /** The request an Inbound method builds, or the error it raises first. */
  function BuildInbound(cfg: Config, h: Helpers, m: InboundMethod): (r: Result<Request, Err>)
    ensures ChecksInOrder(r, Inbound.CheckV1Only(cfg, InboundName(m)), cfg, KeyMessageOf(InboundOp(m)), InboundArgumentError(h, m))
    ensures r.Success? ==> r.value.verb == InboundVerb(m) && r.value.base == h.apiUrl(cfg.version)
  {
    match m
    case GetAll => Inbound.GetAll(cfg, h)
    case Get(id) => Inbound.Get(cfg, h, id)
    case SetActive(id, isActive) => Inbound.SetActive(cfg, h, id, isActive)
    case GetCalls(id, fromDate, toDate, skip, limit, sortProp, isAscending, tags, statuses, searchInput) =>
      Inbound.GetCallsRequest(cfg, h, id, fromDate, toDate, skip, limit, sortProp, isAscending, tags, statuses, searchInput)
    case GetOngoingCalls(id) => Inbound.GetOngoingCalls(cfg, h, id)
    case GetAnalytics(id, fromDate, toDate) => Inbound.GetAnalytics(cfg, h, id, fromDate, toDate)
  }

  /** The request a v1-only Outbound method builds, or the error it raises
      first. */
  function BuildOutbound(cfg: Config, h: Helpers, m: OutboundMethod): (r: Result<Request, Err>)
    ensures ChecksInOrder(r, Outbound.CheckV1Only(cfg, OutboundName(m)), cfg, NoKey, OutboundArgumentError(h, m))
    ensures r.Success? ==> r.value.verb == OutboundVerb(m) && r.value.base == h.apiUrl(cfg.version)
  {
    match m
    case GetAll => Outbound.GetAll(cfg, h)
    case Get(id) => Outbound.Get(cfg, h, id)
    case SetActive(id, isActive) => Outbound.SetActive(cfg, h, id, isActive)
    case GetCalls(id, fromDate, toDate, skip, limit, sortProp, isAscending, tags) =>
      Outbound.GetCallsRequest(cfg, h, id, fromDate, toDate, skip, limit, sortProp, isAscending, tags)
    case MakeCall(id, to, callData) => Outbound.MakeCallRequest(cfg, h, id, to, callData)
    case GetCallRequest(requestId) => Outbound.GetCallRequest(cfg, h, requestId)
    case GetCallRequests(id, fromDate, toDate, skip, limit, sortProp, isAscending) =>
      Outbound.GetCallRequestsRequest(cfg, h, id, fromDate, toDate, skip, limit, sortProp, isAscending)
    case GetAnalytics(id, fromDate, toDate) => Outbound.GetAnalytics(cfg, h, id, fromDate, toDate)
  }

  /** The request an Outbound lead method builds, or the error it raises
      first; no version guard. */
  function BuildLead(cfg: Config, h: Helpers, m: LeadMethod): (r: Result<Request, Err>)
    ensures ChecksInOrder(r, None, cfg, NoKey, LeadArgumentError(m))
    ensures r.Success? ==> r.value.verb == LeadVerb(m, cfg.version) && r.value.base == h.apiUrl(cfg.version)
  {
    match m
    case AddLead(id, phoneNumber, externalId, timeZoneId, callData) =>
      Outbound.AddLeadRequest(cfg, h, id, phoneNumber, externalId, timeZoneId, callData)
    case UpdateLead(id, leadId, phoneNumber, externalId, timeZoneId, callData, status) =>
      Outbound.UpdateLeadRequest(cfg, h, id, leadId, phoneNumber, externalId, timeZoneId, callData, status)
    case GetLeads(id, skip, limit, sortProp, isAscending, statuses, searchInput, status) =>
      Outbound.GetLeadsRequest(cfg, h, id, skip, limit, sortProp, isAscending, statuses, searchInput, status)
    case GetLeadById(id, leadId) => Outbound.GetLeadById(cfg, h, id, leadId)
    case GetLeadByExternalId(id, externalId) => Outbound.GetLeadByExternalId(cfg, h, id, externalId)
    case GetLeadByPhoneNumber(id, phone) => Outbound.GetLeadByPhoneNumber(cfg, h, id, phone)
    case DeleteLeads(id, leadIds) => Outbound.DeleteLeads(cfg, h, id, leadIds)
    case DeleteLeadsByExternalId(id, externalIds) => Outbound.DeleteLeadsByExternalId(cfg, h, id, externalIds)
  }

  /** The request a Pearl method builds, or the error it raises first. */
  function BuildPearl(cfg: Config, h: Helpers, m: PearlMethod): (r: Result<Request, Err>)
    ensures ChecksInOrder(r, if PearlV2Only(m) then Pearl.CheckV2Only(cfg, PearlName(m)) else None,
                          cfg, KeyMessageOf(PearlOp(m)), PearlArgumentError(h, m))
    ensures r.Success? ==> r.value.verb == PearlVerb(m) && r.value.base == h.apiUrl(cfg.version)
  {
    match m
    case ResetCustomerMemory(id, phone) => Pearl.ResetCustomerMemoryRequest(cfg, h, id, phone)
    case ResetMemory(id, phone) => Pearl.ResetCustomerMemoryRequest(cfg, h, id, phone)
    case GetAll => Pearl.GetAll(cfg, h)
    case Get(id) => Pearl.Get(cfg, h, id)
    case SetActive(id, isActive) => Pearl.SetActive(cfg, h, id, isActive)
    case GetCalls(id, fromDate, toDate, skip, limit, sortProp, isAscending, tags, statuses, searchInput) =>
      Pearl.GetCallsRequest(cfg, h, id, fromDate, toDate, skip, limit, sortProp, isAscending, tags, statuses, searchInput)
    case GetOngoingCalls(id) => Pearl.GetOngoingCalls(cfg, h, id)
    case GetAnalytics(id, fromDate, toDate) => Pearl.GetAnalytics(cfg, h, id, fromDate, toDate)
  }

  /** The request an operation builds, or the ValueError it raises first:
      every operation runs its version guard, then the key check, then its
      argument checks, and builds a request following the verb table and
      the base-URL rule only when all of them pass. */
  function Build(cfg: Config, h: Helpers, op: Op): (r: Result<Request, Err>)
    ensures ChecksInOrder(r, GuardError(cfg, op), cfg, KeyMessageOf(op), ArgumentError(h, op))
    ensures r.Success? ==> r.value.verb == VerbOf(op, cfg.version) && r.value.base == BaseOf(h, op, cfg.version)
  {
    match op
    case AccountOp(_) => Account.GetAccount(cfg, h)
    case CallOp(GetCall(callId)) => Call.GetCall(cfg, callId)
    case CallOp(CreateCall(toNumber, fromNumber, duration)) => Call.CreateCall(cfg, toNumber, fromNumber, duration)
    case InboundOp(m) => BuildInbound(cfg, h, m)
    case OutboundOp(m) => BuildOutbound(cfg, h, m)
    case OutboundLeadOp(m) => BuildLead(cfg, h, m)
    case PearlOp(m) => BuildPearl(cfg, h, m)
  }

  /** The version guards reject an operation exactly when its guard blocks
      the current version, and nothing else reports a version error. */
  lemma GuardDecides(cfg: Config, h: Helpers, op: Op)
    ensures Build(cfg, h, op).Failure? && Build(cfg, h, op).error.VersionMismatch? <==> Blocks(GuardOf(op), cfg.version)
  {
  }

  /** The guards read only the version global. */
  lemma GuardErrorIgnoresKey(cfg: Config, key: Option<string>, op: Op)
    ensures GuardError(cfg, op) == GuardError(Config(key, cfg.version), op)
  {
  }

  /** The version guard runs before the key check: a blocked operation
      reports the version error whether or not a key is set. */
  lemma GuardBeforeKey(cfg: Config, h: Helpers, op: Op)
    requires Blocks(GuardOf(op), cfg.version)
    ensures Build(cfg, h, op).Failure? && Build(cfg, h, op).error.VersionMismatch?
    ensures Build(cfg, h, op) == Build(Config(None, cfg.version), h, op)
  {
    GuardErrorIgnoresKey(cfg, None, op);
  }

  /** Without a key every operation fails, with the key error unless its
      version guard fired first. */
  lemma NoKeyFails(cfg: Config, h: Helpers, op: Op)
    requires cfg.apiKey.None?
    ensures Build(cfg, h, op).Failure?
    ensures !Blocks(GuardOf(op), cfg.version) ==> Build(cfg, h, op) == Failure(KeyNotSet(KeyMessageOf(op)))
  {
  }

  /** Right after import nothing can be sent: v1-only operations report the
      version error (the version is "v2"), every other one the missing key. */
  lemma InitialRejectsEverything(h: Helpers, op: Op)
    ensures Build(Nlpearl.Initial(), h, op).Failure?
    ensures GuardOf(op) == V1Only ==> Build(Nlpearl.Initial(), h, op).error.VersionMismatch?
    ensures GuardOf(op) != V1Only ==> Build(Nlpearl.Initial(), h, op).error == KeyNotSet(KeyMessageOf(op))
  {
    var cfg := Nlpearl.Initial();
    NoKeyFails(cfg, h, op);
    GuardDecides(cfg, h, op);
  }

  /** A version string other than "v1" and "v2" ("v3", or None) passes every
      guard, of both kinds. */
  lemma OtherVersionsPassEveryGuard(cfg: Config, h: Helpers, op: Op)
    requires cfg.version != Some("v1") && cfg.version != Some("v2")
    ensures !(Build(cfg, h, op).Failure? && Build(cfg, h, op).error.VersionMismatch?)
  {
    GuardDecides(cfg, h, op);
  }

  /** The operations without a version guard are reachable under both
      versions: with a key set, neither "v1" nor "v2" makes them fail on the
      version. */
  lemma SharedUnderBothVersions(key: string, h: Helpers, op: Op)
    requires GuardOf(op) == Unguarded
    ensures !Build(Config(Some(key), Some("v1")), h, op).Failure? || !Build(Config(Some(key), Some("v1")), h, op).error.VersionMismatch?
    ensures !Build(Config(Some(key), Some("v2")), h, op).Failure? || !Build(Config(Some(key), Some("v2")), h, op).error.VersionMismatch?
  {
    GuardDecides(Config(Some(key), Some("v1")), h, op);
    GuardDecides(Config(Some(key), Some("v2")), h, op);
  }

  /** Every request that is built carries the key as its Bearer token and
      follows the verb table and the base-URL rule. */
  lemma BuiltRequestShape(cfg: Config, h: Helpers, op: Op)
    requires Build(cfg, h, op).Success?
    ensures cfg.apiKey.Some? && Build(cfg, h, op).value.token == cfg.apiKey.value
    ensures Build(cfg, h, op).value.verb == VerbOf(op, cfg.version)
    ensures Build(cfg, h, op).value.base == BaseOf(h, op, cfg.version)
  {
  }

  /** How an operation turns the response into its return value. */
  datatype Decoding =
    | Plain          // `return response.json()`
    | Lenient        // `try: response.json() except ValueError: response.text`
    | StatusChecked  // `response.raise_for_status(); return response.json()`

  function DecodingOf(op: Op): (d: Decoding)
    ensures d == StatusChecked <==> op.CallOp?
    ensures d == Lenient <==> op.PearlOp? && (op.pearl.ResetCustomerMemory? || op.pearl.ResetMemory?)
  {
    match op
    case CallOp(_) => StatusChecked
    case PearlOp(m) => if m.ResetCustomerMemory? || m.ResetMemory? then Lenient else Plain
    case _ => Plain
  }

  /** A whole call: the checks, then one request handed to `send`, then the
      decoding. */
  function Run(cfg: Config, h: Helpers, op: Op, send: Request -> Response): (r: Result<Value, Err>)
    ensures Build(cfg, h, op).Failure? ==> r == Failure(Build(cfg, h, op).error)
    ensures r.Success? ==> Build(cfg, h, op).Success?
    ensures Build(cfg, h, op).Success? && r.Failure? ==> r.error == NotJson || r.error.HttpError?
  {
    match Build(cfg, h, op)
    case Failure(e) => Failure(e)
    case Success(request) =>
      var resp := send(request);
      match DecodingOf(op)
      case Plain => Json(resp)
      case Lenient => Success(JsonOrText(resp))
      case StatusChecked => if RaiseForStatus(resp).Some? then Failure(RaiseForStatus(resp).value) else Json(resp)
  }

  /** Without a key the transport is never consulted: the outcome is the same
      failure whatever `send` would answer. */
  lemma NoKeyNothingSent(cfg: Config, h: Helpers, op: Op, send1: Request -> Response, send2: Request -> Response)
    requires cfg.apiKey.None?
    ensures Run(cfg, h, op, send1).Failure?
    ensures Run(cfg, h, op, send1) == Run(cfg, h, op, send2)
  {
    NoKeyFails(cfg, h, op);
  }

  /** The Call operations raise on a 4xx or 5xx status before decoding, even
      when the error body is JSON. */
  lemma CallRaisesBeforeDecoding(cfg: Config, h: Helpers, op: Op, send: Request -> Response)
    requires op.CallOp?
    requires Build(cfg, h, op).Success? && 400 <= send(Build(cfg, h, op).value).status < 600
    ensures Run(cfg, h, op, send) == Failure(HttpError(send(Build(cfg, h, op).value).status))
  {
  }

  /** The memory reset never fails once its request is sent: a body that is
      not JSON comes back as the raw text. */
  lemma ResetFallsBackToText(cfg: Config, h: Helpers, op: Op, send: Request -> Response)
    requires op.PearlOp? && (op.pearl.ResetCustomerMemory? || op.pearl.ResetMemory?)
    requires Build(cfg, h, op).Success?
    ensures Run(cfg, h, op, send).Success?
    ensures send(Build(cfg, h, op).value).json.None? ==>
              Run(cfg, h, op, send) == Success(Str(send(Build(cfg, h, op).value).text))
  {
  }

  /** Every other operation (the account request among them) checks no
      status: it returns the decoded body whatever the status, and fails
      only when the body is not JSON. */
  lemma PlainDecodesUnconditionally(cfg: Config, h: Helpers, op: Op, send: Request -> Response)
    requires DecodingOf(op) == Plain && Build(cfg, h, op).Success?
    ensures Run(cfg, h, op, send).Success? <==> send(Build(cfg, h, op).value).json.Some?
    ensures Run(cfg, h, op, send).Success? ==> Run(cfg, h, op, send).value == send(Build(cfg, h, op).value).json.value
  {
  }

  /** `reset_memory` is `reset_customer_memory` under every configuration. */
  lemma ResetMemoryIsResetCustomerMemory(cfg: Config, h: Helpers, pearlId: string, phone: string, send: Request -> Response)
    ensures Run(cfg, h, PearlOp(ResetMemory(pearlId, phone)), send) == Run(cfg, h, PearlOp(ResetCustomerMemory(pearlId, phone)), send)
  {
  }

  /** The URL resolution the package's own test scripts assert of
      `_get_api_url`: "v1", "v2" and an arbitrary "v3" map to
      `https://api.nlpearl.ai/<version>`, and None falls back to v2. */
  predicate ResolverAsTested(apiUrl: Option<string> -> string) {
    && apiUrl(Some("v1")) == "https://api.nlpearl.ai/v1"
    && apiUrl(Some("v2")) == "https://api.nlpearl.ai/v2"
    && apiUrl(Some("v3")) == "https://api.nlpearl.ai/v3"
    && apiUrl(None) == "https://api.nlpearl.ai/v2"
  }

  /** With such a resolver the account request, once a key is set, goes to
      the v2 base by default and when the version is None, and to the v1
      base under "v1". */
  lemma AccountUrlAsTested(key: string, h: Helpers)
    requires ResolverAsTested(h.apiUrl)
    ensures Build(Config(Some(key), Nlpearl.Initial().version), h, AccountOp(GetAccount)).value.Url()
         == "https://api.nlpearl.ai/v2/Account"
    ensures Build(Config(Some(key), None), h, AccountOp(GetAccount)).value.Url() == "https://api.nlpearl.ai/v2/Account"
    ensures Build(Config(Some(key), Some("v1")), h, AccountOp(GetAccount)).value.Url() == "https://api.nlpearl.ai/v1/Account"
  {
  }

  /** With `api_version` set to None a v1-only operation passes its guard
      (which rejects only "v2"), yet the tested resolver falls back to the v2
      base, so the v1-only request goes to the v2 API. */
  lemma UnsetVersionSendsV1OnlyToV2(key: string, h: Helpers, op: Op)
    requires ResolverAsTested(h.apiUrl) && GuardOf(op) == V1Only && ArgumentError(h, op).None?
    ensures Build(Config(Some(key), None), h, op).Success?
    ensures Build(Config(Some(key), None), h, op).value.base == "https://api.nlpearl.ai/v2"
  {
    assert GuardError(Config(Some(key), None), op).None?;
  }

  /** For instance `Inbound.get_all` under None requests `/Inbound` on the v2
      base. */
  lemma UnsetVersionInboundGetAll(key: string, h: Helpers)
    requires ResolverAsTested(h.apiUrl)
    ensures Build(Config(Some(key), None), h, InboundOp(InboundMethod.GetAll)).Success?
    ensures Build(Config(Some(key), None), h, InboundOp(InboundMethod.GetAll)).value.base == "https://api.nlpearl.ai/v2"
    ensures Build(Config(Some(key), None), h, InboundOp(InboundMethod.GetAll)).value.path == "/Inbound"
  {
    UnsetVersionSendsV1OnlyToV2(key, h, InboundOp(InboundMethod.GetAll));
  }

  /** Every missing-key message begins "API key is not set."; only the
      account and Call operations, `Inbound.get_all` and the memory resets
      say more. */
  lemma KeyMessagesShareTheirHead(op: Op)
    ensures NoKey <= KeyMessageOf(op)
    ensures KeyMessageOf(op) != NoKey <==>
              op.AccountOp? || op.CallOp? || op == InboundOp(InboundMethod.GetAll)
              || (op.PearlOp? && (op.pearl.ResetCustomerMemory? || op.pearl.ResetMemory?))
  {
  }

  /** The Call operations ignore the version global entirely. */
  lemma CallIgnoresVersion(key: string, h: Helpers, op: Op, v1: Option<string>, v2: Option<string>)
    requires op.CallOp?
    ensures Build(Config(Some(key), v1), h, op) == Build(Config(Some(key), v2), h, op)
    ensures Build(Config(Some(key), v1), h, op).Success?
    ensures Build(Config(Some(key), v1), h, op).value.base == "https://api.nlpearl.ai/v1"
  {
  }

  /** Runs an operation against the globals as they are now. */
  method Perform(g: Nlpearl.Globals, h: Helpers, op: Op, send: Request -> Response) returns (r: Result<Value, Err>)
    ensures r == Run(Config(g.apiKey, g.apiVersion), h, op, send)
  {
    var cfg := g.Current();
    r := Run(cfg, h, op, send);
  }

  /** Reassigning `api_version` takes effect on the very next call, on any
      class: the call sees the new version and the unchanged key. */
  method SwitchThenPerform(g: Nlpearl.Globals, version: Option<string>, h: Helpers, op: Op, send: Request -> Response)
    returns (r: Result<Value, Err>)
    modifies g
    ensures g.apiVersion == version && g.apiKey == old(g.apiKey)
    ensures r == Run(Config(old(g.apiKey), version), h, op, send)
  {
    g.SetApiVersion(version);
    r := Perform(g, h, op, send);
  }
}

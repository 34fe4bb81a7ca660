/** `Call`: the two call requests, whose URL is pinned to the v1 base. */
module Call {
  import opened Wire

  /** `API_URL` of `nlpearl/call.py`, independent of `api_version`. */
  const ApiUrl: string := "https://api.nlpearl.ai/v1"

  /** `Call.get_call`: the key check, then GET `/Call/{id}` on the v1 base. */
  function GetCall(cfg: Config, callId: string): (r: Result<Request, Err>)
    ensures ChecksInOrder(r, None, cfg, NoKey + SetKeyFirst, None)
    ensures r.Success? ==> r.value.Sends(GET, "https://api.nlpearl.ai/v1", "/Call/" + callId, None)
  {
    Checked(None, cfg, NoKey + SetKeyFirst, None, GET, ApiUrl, "/Call/" + callId, None)
  }

  /** `Call.create_call`: the key check, then POST `/Call` on the v1 base with
      exactly `to`, `from` and `duration`. */
  function CreateCall(cfg: Config, toNumber: Value, fromNumber: Value, duration: Value): (r: Result<Request, Err>)
    ensures ChecksInOrder(r, None, cfg, NoKey + SetKeyFirst, None)
    ensures r.Success? ==> r.value.verb == POST && r.value.Url() == "https://api.nlpearl.ai/v1/Call"
    ensures r.Success? ==> r.value.body.Some? && r.value.body.value.Keys == {"to", "from", "duration"}
    ensures r.Success? ==> r.value.body == Some(map["to" := toNumber, "from" := fromNumber, "duration" := duration])
  {
    Checked(None, cfg, NoKey + SetKeyFirst, None, POST, ApiUrl, "/Call", Some(map["to" := toNumber, "from" := fromNumber, "duration" := duration]))
  }
}

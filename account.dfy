/** `Account`: the account-details request, on the version-resolved base. */
module Account {
  import opened Wire

  /** `Account.get_account`: the key check, then GET `<resolved base>/Account`
      with no body. */
  function GetAccount(cfg: Config, h: Helpers): (r: Result<Request, Err>)
    ensures ChecksInOrder(r, None, cfg, NoKey + SetKeyFirst, None)
    ensures r.Success? ==> r.value.Sends(GET, h.apiUrl(cfg.version), "/Account", None)
  {
    Checked(None, cfg, NoKey + SetKeyFirst, None, GET, h.apiUrl(cfg.version), "/Account", None)
  }
}

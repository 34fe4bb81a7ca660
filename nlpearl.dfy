/** The package's two module globals, `nlpearl.api_key` and
    `nlpearl.api_version`, which callers reassign at any time and which every
    operation reads when it is called. */
module Nlpearl {
  import opened Wire

  /** The state of the `nlpearl` module object. */
  class Globals {
    var apiKey: Option<string>
    var apiVersion: Option<string>

    /** Import time: no key, version "v2". */
    constructor ()
      ensures apiKey == None && apiVersion == Some("v2")
      ensures Current() == Initial()
    {
      apiKey := None;
      apiVersion := Some("v2");
    }

    /** `nlpearl.api_key = key` */
    method SetApiKey(key: Option<string>)
      modifies this
      ensures apiKey == key && apiVersion == old(apiVersion)
    {
      apiKey := key;
    }

    /** `nlpearl.api_version = version` */
    method SetApiVersion(version: Option<string>)
      modifies this
      ensures apiVersion == version && apiKey == old(apiKey)
    {
      apiVersion := version;
    }

    /** What an operation called now reads from the globals. */
    function Current(): (cfg: Config)
      reads this
      ensures cfg.apiKey == apiKey && cfg.version == apiVersion
    {
      Config(apiKey, apiVersion)
    }
  }

  /** The configuration right after import. */
  function Initial(): (cfg: Config)
    ensures cfg.apiKey.None? && cfg.version == Some("v2")
  {
    Config(None, Some("v2"))
  }
}

/** How the client's constructor resolves its settings: each of the customer
    id, client id, client secret and base URL comes from an environment
    variable when that is set and from the constructor argument otherwise,
    and must not be empty or whitespace; proxy mode comes from
    VECTARA_PROXY_MODE and is forced on for any base URL but the platform's. */
module Settings {
  import opened PyRuntime

  const DefaultBaseUrl: string := "https://api.vectara.io"

  /** The resolved settings of a client. */
  datatype Config = Config(
    customerId: string,
    clientId: string,
    clientSecret: string,
    baseUrl: string,
    proxyMode: bool)

  /** `os.environ.get(name, default)`. */
  function EnvGet(env: map<string, string>, name: string, default: string): (r: string)
    ensures name in env ==> r == env[name]
    ensures name !in env ==> r == default
  {
    if name in env then env[name] else default
  }

  /** The constructor's nested `get_env`: the environment value, or the
      argument, unless it is empty or whitespace only. */
  function GetEnv(env: map<string, string>, name: string, default: string): (r: Result<string>)
    ensures r.Ok? <==> !Blank(EnvGet(env, name, default))
    ensures r.Ok? ==> r.value == (if name in env then env[name] else default)
    ensures r.Err? ==> r.error == EnvNotSet(name)
  {
    var value := EnvGet(env, name, default);
    if Blank(value) then Err(EnvNotSet(name)) else Ok(value)
  }

  /** The constructor's nested `is_true`. */
  predicate IsTrue(value: string)
    ensures IsTrue(value) <==> Lower(value) in {"true", "yes", "1"}
    ensures IsTrue(value) ==> |value| in {1, 3, 4}
  {
    var v := Lower(value);
    v == "true" || v == "yes" || v == "1"
  }

  /** `is_true` ignores case: strings that lower to the same text agree. */
  lemma IsTrueIgnoresCase(v: string, w: string)
    requires Lower(v) == Lower(w)
    ensures IsTrue(v) == IsTrue(w)
  {
  }

  /** Which spellings `is_true` accepts and rejects. */
  lemma IsTrueSpellings()
    ensures IsTrue("true") && IsTrue("TRUE") && IsTrue("Yes") && IsTrue("1")
    ensures !IsTrue("false") && !IsTrue("") && !IsTrue("0") && !IsTrue("no") && !IsTrue(" true")
  {
    assert Lower("TRUE") == "true";
    assert Lower("Yes") == "yes";
    assert Lower(" true")[0] == ' ';
    assert Lower("false")[0] == 'f';
    assert Lower("0")[0] == '0';
    assert Lower("no")[0] == 'n';
  }

  /** Resolution order of `__init__`: customer id, client id, client secret,
      base URL; the first blank one raises. */
  function ResolveConfig(
    env: map<string, string>,
    baseUrl: string,
    customerId: string,
    clientId: string,
    clientSecret: string): (r: Result<Config>)
    ensures r.Ok? <==>
      && !Blank(EnvGet(env, "VECTARA_CUSTOMER_ID", customerId))
      && !Blank(EnvGet(env, "VECTARA_CLIENT_ID", clientId))
      && !Blank(EnvGet(env, "VECTARA_CLIENT_SECRET", clientSecret))
      && !Blank(EnvGet(env, "VECTARA_BASE_URL", baseUrl))
    ensures r.Ok? ==>
      && (r.value.customerId == if "VECTARA_CUSTOMER_ID" in env then env["VECTARA_CUSTOMER_ID"] else customerId)
      && (r.value.clientId == if "VECTARA_CLIENT_ID" in env then env["VECTARA_CLIENT_ID"] else clientId)
      && (r.value.clientSecret == if "VECTARA_CLIENT_SECRET" in env then env["VECTARA_CLIENT_SECRET"] else clientSecret)
      && (r.value.baseUrl == if "VECTARA_BASE_URL" in env then env["VECTARA_BASE_URL"] else baseUrl)
    ensures r.Ok? ==>
      (r.value.proxyMode <==>
        r.value.baseUrl != DefaultBaseUrl || IsTrue(EnvGet(env, "VECTARA_PROXY_MODE", "false")))
    ensures r.Ok? ==> !Blank(r.value.customerId) && !Blank(r.value.baseUrl)
    ensures r.Err? && Blank(EnvGet(env, "VECTARA_CUSTOMER_ID", customerId)) ==>
      r.error == EnvNotSet("VECTARA_CUSTOMER_ID")
    ensures r.Err? && !Blank(EnvGet(env, "VECTARA_CUSTOMER_ID", customerId))
                   && Blank(EnvGet(env, "VECTARA_CLIENT_ID", clientId)) ==>
      r.error == EnvNotSet("VECTARA_CLIENT_ID")
    ensures r.Err? && !Blank(EnvGet(env, "VECTARA_CUSTOMER_ID", customerId))
                   && !Blank(EnvGet(env, "VECTARA_CLIENT_ID", clientId))
                   && Blank(EnvGet(env, "VECTARA_CLIENT_SECRET", clientSecret)) ==>
      r.error == EnvNotSet("VECTARA_CLIENT_SECRET")
    ensures r.Err? && !Blank(EnvGet(env, "VECTARA_CUSTOMER_ID", customerId))
                   && !Blank(EnvGet(env, "VECTARA_CLIENT_ID", clientId))
                   && !Blank(EnvGet(env, "VECTARA_CLIENT_SECRET", clientSecret)) ==>
      r.error == EnvNotSet("VECTARA_BASE_URL")
  {
    var customer :- GetEnv(env, "VECTARA_CUSTOMER_ID", customerId);
    var id :- GetEnv(env, "VECTARA_CLIENT_ID", clientId);
    var secret :- GetEnv(env, "VECTARA_CLIENT_SECRET", clientSecret);
    var url :- GetEnv(env, "VECTARA_BASE_URL", baseUrl);
    var proxy := IsTrue(EnvGet(env, "VECTARA_PROXY_MODE", "false")) || url != DefaultBaseUrl;
    Ok(Config(customer, id, secret, url, proxy))
  }

  /** With the default base URL and VECTARA_PROXY_MODE unset, the client talks
      to the platform directly. */
  lemma DirectByDefault(env: map<string, string>, customerId: string, clientId: string, clientSecret: string)
    requires "VECTARA_BASE_URL" !in env && "VECTARA_PROXY_MODE" !in env
    requires ResolveConfig(env, DefaultBaseUrl, customerId, clientId, clientSecret).Ok?
    ensures !ResolveConfig(env, DefaultBaseUrl, customerId, clientId, clientSecret).value.proxyMode
  {
    IsTrueSpellings();
  }
}

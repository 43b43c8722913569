/** The request each client operation posts: URL, headers and body, built
    from the client's settings, its bearer token and the call's arguments. */
module Requests {
  import opened PyRuntime
  import opened Http
  import opened Settings
  import opened PosixPath

  const CognitoPrefix: string := "https://vectara-prod-"
  const CognitoSuffix: string := ".auth.us-west-2.amazoncognito.com/oauth2/token"

  /** The Cognito host of a customer, used outside proxy mode: the customer id
      sits between a fixed prefix and a fixed suffix. */
  function CognitoTokenUrl(customerId: string): (url: string)
    ensures |url| == |CognitoPrefix| + |customerId| + |CognitoSuffix|
    ensures url[..|CognitoPrefix|] == CognitoPrefix
    ensures url[|CognitoPrefix|..|url| - |CognitoSuffix|] == customerId
    ensures url[|url| - |CognitoSuffix|..] == CognitoSuffix
  {
    CognitoPrefix + customerId + CognitoSuffix
  }

  /** Different customers get different token endpoints outside proxy mode. */
  lemma CognitoTokenUrlInjective(a: string, b: string)
    requires CognitoTokenUrl(a) == CognitoTokenUrl(b)
    ensures a == b
  {
    var url := CognitoTokenUrl(a);
    assert |a| == |b|;
    assert a == url[|CognitoPrefix|..|url| - |CognitoSuffix|] == b;
  }

  /** `acquire_jwt_token`: the client-credentials grant, posted form-encoded to
      `{base_url}/oauth2/token` in proxy mode and to the Cognito host otherwise. */
  function TokenRequest(cfg: Config): (req: Request)
    ensures req.url == if cfg.proxyMode then cfg.baseUrl + "/oauth2/token" else CognitoTokenUrl(cfg.customerId)
    ensures req.body.Form? && req.body.fields.Keys == {"grant_type", "client_id", "client_secret"}
    ensures req.body.fields["grant_type"] == "client_credentials"
    ensures req.body.fields["client_id"] == cfg.clientId && req.body.fields["client_secret"] == cfg.clientSecret
    ensures "Authorization" !in req.headers
  {
    var url := if cfg.proxyMode then cfg.baseUrl + "/oauth2/token" else CognitoTokenUrl(cfg.customerId);
    Request(
      url,
      map["Content-Type" := Plain("application/x-www-form-urlencoded")],
      Form(map["grant_type" := "client_credentials",
               "client_id" := cfg.clientId,
               "client_secret" := cfg.clientSecret]))
  }

  /** Any base URL but the platform's sends the token request to that URL's
      own `/oauth2/token`, whatever VECTARA_PROXY_MODE says. */
  lemma CustomBaseUrlUsesProxyEndpoint(
    env: map<string, string>, baseUrl: string, customerId: string, clientId: string, clientSecret: string)
    requires ResolveConfig(env, baseUrl, customerId, clientId, clientSecret).Ok?
    requires ResolveConfig(env, baseUrl, customerId, clientId, clientSecret).value.baseUrl != DefaultBaseUrl
    ensures var cfg := ResolveConfig(env, baseUrl, customerId, clientId, clientSecret).value;
      TokenRequest(cfg).url == cfg.baseUrl + "/oauth2/token"
  {
  }

  /** The headers of the JSON endpoints: the customer id and the bearer token. */
  function AuthHeaders(cfg: Config, token: Json): (h: map<string, HeaderValue>)
    ensures h.Keys == {"customer-id", "Authorization"}
    ensures h["customer-id"] == Plain(cfg.customerId) && h["Authorization"] == Bearer(token)
  {
    map["customer-id" := Plain(cfg.customerId), "Authorization" := Bearer(token)]
  }

  /** `create_corpus`. */
  function CreateCorpusRequest(cfg: Config, token: Json, name: string, description: string): (req: Request)
    ensures req.url == cfg.baseUrl + "/v1/create-corpus" && req.headers == AuthHeaders(cfg, token)
    ensures req.body.JsonText? && Subscript(req.body.doc, JStr("corpus")).Ok?
    ensures var corpus := Subscript(req.body.doc, JStr("corpus")).value;
      Subscript(corpus, JStr("name")) == Ok(JStr(name)) && Subscript(corpus, JStr("description")) == Ok(JStr(description))
  {
    Request(
      cfg.baseUrl + "/v1/create-corpus",
      AuthHeaders(cfg, token),
      JsonText(JObj(map["corpus" := JObj(map["name" := JStr(name), "description" := JStr(description)])])))
  }

  /** `reset_corpus`. */
  function ResetCorpusRequest(cfg: Config, token: Json, corpusId: int): (req: Request)
    ensures req.url == cfg.baseUrl + "/v1/reset-corpus" && req.headers == AuthHeaders(cfg, token)
    ensures req.body.JsonText? && Subscript(req.body.doc, JStr("corpusId")) == Ok(JInt(corpusId))
  {
    Request(cfg.baseUrl + "/v1/reset-corpus", AuthHeaders(cfg, token), JsonText(JObj(map["corpusId" := JInt(corpusId)])))
  }

  /** `{base_url}/v1/upload?c={customer_id}&o={corpus_id}`. */
  function UploadUrl(cfg: Config, corpusId: int): (url: string)
  {
    cfg.baseUrl + "/v1/upload?c=" + cfg.customerId + "&o=" + Decimal(corpusId)
  }

  /** The upload URL is the base URL's upload endpoint, naming the customer
      and then the corpus, whose id can be read back from the end. */
  lemma UploadUrlNamesCorpus(cfg: Config, corpusId: int)
    ensures var url := UploadUrl(cfg, corpusId);
      var d := Decimal(corpusId);
      && |d| <= |url|
      && url[..|url| - |d|] == cfg.baseUrl + "/v1/upload?c=" + cfg.customerId + "&o="
      && url[|url| - |d|..] == d
      && ParseDecimal(d) == corpusId
  {
    DecimalRoundTrip(corpusId);
  }

  /** `upload_file`: one multipart part named `file` holding the opened file,
      with the description as its file name; only the bearer header is sent. */
  function UploadRequest(cfg: Config, token: Json, corpusId: int, filepath: string, fileName: string): (req: Request)
    ensures req.url == UploadUrl(cfg, corpusId)
    ensures "Authorization" in req.headers && req.headers["Authorization"] == Bearer(token) && "customer-id" !in req.headers
    ensures req.body == Multipart("file", fileName, filepath, "application/octet-stream")
  {
    Request(
      UploadUrl(cfg, corpusId),
      map["Authorization" := Bearer(token)],
      Multipart("file", fileName, filepath, "application/octet-stream"))
  }

  /** `query`: one query against one corpus, asking for a summary of the top
      results in the given language. */
  function QueryBody(corpusId: int, query: string, topK: int, lang: string): (body: Json)
    ensures body.JObj? && body.fields.Keys == {"query"}
    ensures var qs := body.fields["query"];
      qs.JArr? && |qs.items| == 1 && qs.items[0].JObj?
      && qs.items[0].fields.Keys == {"query", "numResults", "corpusKey", "summary"}
  {
    JObj(map["query" := JArr([
      JObj(map[
        "query" := JStr(query),
        "numResults" := JInt(topK),
        "corpusKey" := JArr([JObj(map["corpusId" := JInt(corpusId)])]),
        "summary" := JArr([JObj(map["maxSummarizedResults" := JInt(topK), "responseLang" := JStr(lang)])])
      ])])])
  }

  function QueryRequest(cfg: Config, token: Json, corpusId: int, query: string, topK: int, lang: string): (req: Request)
    ensures req.url == cfg.baseUrl + "/v1/query" && req.headers == AuthHeaders(cfg, token)
    ensures req.body == JsonText(QueryBody(corpusId, query, topK, lang))
  {
    Request(cfg.baseUrl + "/v1/query", AuthHeaders(cfg, token), JsonText(QueryBody(corpusId, query, topK, lang)))
  }

  /** What the platform reads back from a query body: exactly one query, whose
      result count and summarised-result count are both `top_k`, whose summary
      language is `lang`, and whose one corpus key names the corpus. */
  lemma QueryBodyReadBack(corpusId: int, query: string, topK: int, lang: string)
    ensures var body := QueryBody(corpusId, query, topK, lang);
      && Subscript(body, JStr("query")).Ok?
      && Subscript(body, JStr("query")).value.JArr?
      && |Subscript(body, JStr("query")).value.items| == 1
      && var q := Subscript(Subscript(body, JStr("query")).value, JInt(0));
      && q.Ok?
      && Subscript(q.value, JStr("query")) == Ok(JStr(query))
      && Subscript(q.value, JStr("numResults")) == Ok(JInt(topK))
      && Subscript(q.value, JStr("corpusKey")) == Ok(JArr([JObj(map["corpusId" := JInt(corpusId)])]))
      && var s := Subscript(q.value, JStr("summary"));
      && s.Ok? && s.value.JArr? && |s.value.items| == 1
      && Subscript(s.value.items[0], JStr("maxSummarizedResults")) == Ok(JInt(topK))
      && Subscript(s.value.items[0], JStr("responseLang")) == Ok(JStr(lang))
  {
  }

  /** Every request sent to the platform's JSON endpoints carries the
      customer id and exactly one credential, the bearer token. */
  lemma JsonEndpointsAuthenticate(cfg: Config, token: Json, corpusId: int, name: string, text: string, topK: int)
    ensures forall req | req in {CreateCorpusRequest(cfg, token, name, text),
                                 ResetCorpusRequest(cfg, token, corpusId),
                                 QueryRequest(cfg, token, corpusId, text, topK, name)} ::
      req.headers == map["customer-id" := Plain(cfg.customerId), "Authorization" := Bearer(token)]
      && "x-api-key" !in req.headers
  {
  }
}

/** The `vectara` client class: its settings and bearer token, and the
    requests each of its operations posts.

    Every operation is specified by a function from the client's state
    before the call, the platform's replies and the number of requests sent
    so far, to a `Step`: the state after the call, the requests it sent in
    order, and what it returns or raises. The class's methods are proved to
    do what these functions say, and the lemmas below state what the
    functions promise. */
module Client {
  import opened PyRuntime
  import opened Http
  import opened Settings
  import opened Requests
  import opened PosixPath
  import QueryResult

  /** The client's state: its settings, whether it runs from the command line,
      and its bearer token (not set in command-line mode until a call asks
      for one). */
  datatype Session = Session(cfg: Config, fromCli: bool, token: Option<Json>) {
    /** Outside command-line mode the constructor has stored a token. */
    predicate Valid() { !fromCli ==> token.Some? }
  }

  /** The outcome of an operation. */
  datatype Step<T> = Step(session: Session, sent: seq<Request>, result: Result<T>)

  /** The `source` argument of `upload`: a path, a list of paths, or anything else. */
  datatype Source = Path(path: string) | Paths(paths: seq<string>) | OtherSource

  /** The `description` argument of `upload` and `upload_file`: a string, or
      a list of strings, which `upload` hands on unchanged. */
  datatype Description = Text(text: string) | Texts(texts: seq<string>)

  /** `s2` is a valid later state of the same client as `s`. */
  predicate SameClient(s: Session, s2: Session)
  {
    s2.Valid() && s2.cfg == s.cfg && s2.fromCli == s.fromCli
  }

  /** Requests sent earlier, in front of an operation's own. */
  function After<T>(earlier: seq<Request>, st: Step<T>): Step<T>
  {
    Step(st.session, earlier + st.sent, st.result)
  }

  /** The `access_token` field of the decoded reply: a dict lookup, which
      raises KeyError when the field is missing and TypeError when the
      reply is not a dict (`AccessTokenIsSubscript`). */
  function AccessToken(reply: Response): (r: Result<Json>)
    ensures reply.body.JObj? ==>
      (r.Ok? <==> "access_token" in reply.body.fields) &&
      (r.Ok? ==> r.value == reply.body.fields["access_token"]) &&
      (r.Err? ==> r.error == KeyError(JStr("access_token")))
    ensures !reply.body.JObj? ==> r == Err(TypeError)
  {
    match reply.body
    case JObj(m) => if "access_token" in m then Ok(m["access_token"]) else Err(KeyError(JStr("access_token")))
    case _ => Err(TypeError)
  }

  /** The lookup is Python's dict subscript on the decoded reply. */
  lemma AccessTokenIsSubscript(reply: Response)
    ensures AccessToken(reply) == Subscript(reply.body, JStr("access_token"))
  {
  }

  /** `acquire_jwt_token`: post the token request; store the reply's
      `access_token` and return it. */
  function Acquire(s: Session, server: Server, n: nat): (st: Step<Json>)
    ensures st.sent == [TokenRequest(s.cfg)]
    ensures st.result == AccessToken(server(n, TokenRequest(s.cfg)))
    ensures st.result.Ok? ==> st.session == s.(token := Some(st.result.value))
    ensures st.result.Err? ==> st.session == s
  {
    var req := TokenRequest(s.cfg);
    var token := AccessToken(server(n, req));
    Step(if token.Ok? then s.(token := Some(token.value)) else s, [req], token)
  }

  /** The token an operation uses: outside command-line mode the stored
      token, with nothing sent; in command-line mode a new token, requested
      first. */
  function Authorize(s: Session, server: Server, n: nat): (st: Step<Json>)
    requires s.Valid()
    ensures SameClient(s, st.session)
    ensures st.result.Ok? ==> st.session.token == Some(st.result.value)
    ensures !s.fromCli ==> st == Step(s, [], Ok(s.token.value))
    ensures s.fromCli ==> st.sent == [TokenRequest(s.cfg)]
  {
    if s.fromCli then Acquire(s, server, n) else Step(s, [], Ok(s.token.value))
  }

  /** `create_corpus`: the new corpus id on status 200, None otherwise. */
  function CreateCorpusStep(s: Session, server: Server, n: nat, name: string, description: string): (st: Step<Option<Json>>)
    requires s.Valid()
    ensures SameClient(s, st.session)
  {
    var auth := Authorize(s, server, n);
    if auth.result.Err? then Step(auth.session, auth.sent, Err(auth.result.error))
    else
      var req := CreateCorpusRequest(s.cfg, auth.result.value, name, description);
      Step(auth.session, auth.sent + [req], CreatedCorpus(server(n + |auth.sent|, req)))
  }

  /** What `create_corpus` makes of the reply: its `corpusId` on status 200,
      None otherwise. */
  function CreatedCorpus(reply: Response): Result<Option<Json>>
  {
    if reply.status != 200 then Ok(None)
    else match Subscript(reply.body, JStr("corpusId"))
         case Ok(id) => Ok(Some(id))
         case Err(e) => Err(e)
  }

  /** `CreateCorpusStep` once the token is in hand: the creation request
      carrying it follows the token request, if any. */
  lemma CreateCorpusStepAuthorized(s: Session, server: Server, n: nat, name: string, description: string)
    requires s.Valid() && Authorize(s, server, n).result.Ok?
    ensures var auth := Authorize(s, server, n);
      var req := CreateCorpusRequest(s.cfg, auth.result.value, name, description);
      CreateCorpusStep(s, server, n, name, description) ==
        Step(auth.session, auth.sent + [req], CreatedCorpus(server(n + |auth.sent|, req)))
  {
  }

  /** `reset_corpus`: the reply is only reported. */
  function ResetCorpusStep(s: Session, server: Server, n: nat, corpusId: int): (st: Step<()>)
    requires s.Valid()
    ensures SameClient(s, st.session)
  {
    var auth := Authorize(s, server, n);
    if auth.result.Err? then Step(auth.session, auth.sent, Err(auth.result.error))
    else Step(auth.session, auth.sent + [ResetCorpusRequest(s.cfg, auth.result.value, corpusId)], Ok(()))
  }

  /** `upload_file`'s file name: an empty description becomes the file's base name. */
  function Described(filepath: string, description: string): (name: string)
  {
    if |description| == 0 then Basename(filepath) else description
  }

  /** `upload_file`: open the file, then post it; the reply is only reported.
      A list description reaches the multipart encoder of `requests` as the
      file name, and the encoder raises on it before anything is sent. */
  function UploadFileStep(s: Session, server: Server, n: nat, fs: FileSystem, corpusId: int,
                          filepath: string, description: Description): (st: Step<()>)
    requires s.Valid()
    ensures SameClient(s, st.session)
  {
    var auth := Authorize(s, server, n);
    if auth.result.Err? then Step(auth.session, auth.sent, Err(auth.result.error))
    else if filepath !in fs.files then Step(auth.session, auth.sent, Err(OSError(filepath)))
    else
      match description
      case Texts(_) => Step(auth.session, auth.sent, Err(AttributeError))
      case Text(d) =>
        var req := UploadRequest(s.cfg, auth.result.value, corpusId, filepath, Described(filepath, d));
        Step(auth.session, auth.sent + [req], Ok(()))
  }

  /** `upload_files`' pairing: `zip(descriptions, filepaths)`, after the
      descriptions are replaced by the base names of all paths when there
      are fewer of them than paths. */
  function Pairing(descriptions: seq<string>, filepaths: seq<string>): (pairs: seq<(string, string)>)
    ensures |pairs| == |filepaths|
    ensures forall i :: 0 <= i < |pairs| ==> pairs[i].1 == filepaths[i]
    ensures |descriptions| < |filepaths| ==> forall i :: 0 <= i < |pairs| ==> pairs[i].0 == Basename(filepaths[i])
    ensures |descriptions| >= |filepaths| ==> forall i :: 0 <= i < |pairs| ==> pairs[i].0 == descriptions[i]
  {
    var ds := if |descriptions| < |filepaths|
              then seq(|filepaths|, i requires 0 <= i < |filepaths| => Basename(filepaths[i]))
              else descriptions;
    seq(|filepaths|, i requires 0 <= i < |filepaths| => (ds[i], filepaths[i]))
  }

  /** `upload_file`: outside command-line mode the stored token is used; in
      command-line mode a token request goes first. A path that is not a file
      raises OSError after the token is fetched and before anything is
      uploaded; a list description raises AttributeError, also with nothing
      uploaded; otherwise one upload is posted, named by the description, or
      by the path's base name when the description is empty. */
  lemma UploadFileRequests(s: Session, server: Server, n: nat, fs: FileSystem, corpusId: int,
                           filepath: string, description: Description)
    requires s.Valid()
    ensures var st := UploadFileStep(s, server, n, fs, corpusId, filepath, description);
      var token := if s.fromCli then TokenAt(server, s.cfg, n) else Ok(s.token.value);
      var prefix := if s.fromCli then [TokenRequest(s.cfg)] else [];
      && (token.Err? ==> st.sent == [TokenRequest(s.cfg)] && st.result == Err(token.error))
      && (token.Ok? ==>
            && st.session == s.(token := Some(token.value))
            && (filepath !in fs.files ==> st.sent == prefix && st.result == Err(OSError(filepath)))
            && (filepath in fs.files && description.Texts? ==> st.sent == prefix && st.result == Err(AttributeError))
            && (filepath in fs.files && description.Text? ==>
                  && st.result == Ok(())
                  && st.sent == prefix + [UploadRequest(s.cfg, token.value, corpusId, filepath,
                       if description.text == "" then Basename(filepath) else description.text)]))
  {
  }

  /** The upload loop: one `upload_file` per (description, path) pair, in
      order, stopping at the first one that raises. */
  function UploadAll(s: Session, server: Server, n: nat, fs: FileSystem, corpusId: int,
                     pairs: seq<(string, string)>): (st: Step<()>)
    requires s.Valid()
    ensures SameClient(s, st.session)
    decreases |pairs|
  {
    if pairs == [] then Step(s, [], Ok(()))
    else
      var first := UploadFileStep(s, server, n, fs, corpusId, pairs[0].1, Text(pairs[0].0));
      if first.result.Err? then first
      else After(first.sent, UploadAll(first.session, server, n + |first.sent|, fs, corpusId, pairs[1..]))
  }

  lemma AfterAfter<T>(a: seq<Request>, b: seq<Request>, st: Step<T>)
    ensures After(a, After(b, st)) == After(a + b, st)
  {
    ConcatAssoc(a, b, st.sent);
  }

  /** Regrouping a concatenation; it saves the solver a step in the proofs below. */
  lemma ConcatAssoc(a: seq<Request>, b: seq<Request>, c: seq<Request>)
    ensures (a + b) + c == a + (b + c)
  {
  }

  /** One turn of the upload loop, on the first of the pairs. */
  lemma UploadAllCons(s: Session, server: Server, n: nat, fs: FileSystem, corpusId: int,
                      pairs: seq<(string, string)>)
    requires s.Valid() && pairs != []
    ensures var first := UploadFileStep(s, server, n, fs, corpusId, pairs[0].1, Text(pairs[0].0));
      UploadAll(s, server, n, fs, corpusId, pairs) ==
        if first.result.Err? then first
        else After(first.sent, UploadAll(first.session, server, n + |first.sent|, fs, corpusId, pairs[1..]))
  {
  }

  /** One turn of the upload loop, at position `i` of the pairs. */
  lemma {:induction false} UploadAllUnfold(s: Session, server: Server, n: nat, fs: FileSystem, corpusId: int,
                        pairs: seq<(string, string)>, i: nat, first: Step<()>, m: nat)
    requires s.Valid() && i < |pairs|
    requires first == UploadFileStep(s, server, n, fs, corpusId, pairs[i].1, Text(pairs[i].0))
    requires m == n + |first.sent|
    ensures first.result.Err? ==> UploadAll(s, server, n, fs, corpusId, pairs[i..]) == first
    ensures first.result.Ok? ==>
      UploadAll(s, server, n, fs, corpusId, pairs[i..]) ==
        After(first.sent, UploadAll(first.session, server, m, fs, corpusId, pairs[i + 1..]))
  {
    var rest := pairs[i..];
    UploadAllCons(s, server, n, fs, corpusId, rest);
    assert rest[0] == pairs[i];
    assert rest[1..] == pairs[i + 1..];
  }

  /** A trace that starts with `t0` still does after more requests are sent. */
  lemma TraceExtends(t0: seq<Request>, before: seq<Request>, more: seq<Request>)
    requires |t0| <= |before| && before[..|t0|] == t0
    ensures var after := before + more;
      |t0| <= |after| && after[..|t0|] == t0 &&
      after[|t0|..] == before[|t0|..] + more && after == t0 + (before[|t0|..] + more)
  {
    var after := before + more;
    assert before == t0 + before[|t0|..];
    assert after[|t0|..] == before[|t0|..] + more;
  }

  /** The upload loop's invariant is kept by one turn: the outcome of the
      whole loop is the requests sent so far followed by the outcome of the
      remaining pairs, and a turn that fails is the outcome of the loop. */
  lemma {:induction false} UploadLoopTurn(s0: Session, server: Server, n0: nat, fs: FileSystem, corpusId: int,
                       pairs: seq<(string, string)>, i: nat, t0: seq<Request>, before: seq<Request>,
                       s1: Session, after: seq<Request>, s2: Session, res: Result<()>)
    requires s0.Valid() && s1.Valid() && i < |pairs| && n0 == |t0|
    requires |t0| <= |before| && before[..|t0|] == t0
    requires UploadAll(s0, server, n0, fs, corpusId, pairs) ==
      After(before[|t0|..], UploadAll(s1, server, |before|, fs, corpusId, pairs[i..]))
    requires var first := UploadFileStep(s1, server, |before|, fs, corpusId, pairs[i].1, Text(pairs[i].0));
      after == before + first.sent && s2 == first.session && res == first.result
    ensures s2.Valid() && |t0| <= |after| && after[..|t0|] == t0
    ensures var whole := UploadAll(s0, server, n0, fs, corpusId, pairs);
      res.Err? ==> after == t0 + whole.sent && s2 == whole.session && res == whole.result
    ensures res.Ok? ==> (UploadAll(s0, server, n0, fs, corpusId, pairs) ==
      After(after[|t0|..], UploadAll(s2, server, |after|, fs, corpusId, pairs[i + 1..])))
  {
    var first := UploadFileStep(s1, server, |before|, fs, corpusId, pairs[i].1, Text(pairs[i].0));
    UploadAllUnfold(s1, server, |before|, fs, corpusId, pairs, i, first, |after|);
    var done := before[|t0|..];
    TraceExtends(t0, before, first.sent);
    if first.result.Ok? {
      AfterAfter(done, first.sent, UploadAll(first.session, server, |after|, fs, corpusId, pairs[i + 1..]));
    }
  }

  /** `upload_files`. */
  function UploadFilesStep(s: Session, server: Server, n: nat, fs: FileSystem, corpusId: int,
                           filepaths: seq<string>, descriptions: seq<string>): (st: Step<()>)
    requires s.Valid()
    ensures SameClient(s, st.session)
  {
    UploadAll(s, server, n, fs, corpusId, Pairing(descriptions, filepaths))
  }

  /** The paths `upload_folder` uploads: each listed entry joined onto the directory. */
  function FolderPaths(dirpath: string, entries: seq<string>): (paths: seq<string>)
    ensures |paths| == |entries|
    ensures forall i :: 0 <= i < |entries| ==> paths[i] == Join(dirpath, entries[i])
  {
    seq(|entries|, i requires 0 <= i < |entries| => Join(dirpath, entries[i]))
  }

  /** `upload_folder`: list the directory, then upload its entries. */
  function UploadFolderStep(s: Session, server: Server, n: nat, fs: FileSystem, corpusId: int,
                            dirpath: string, descriptions: seq<string>): (st: Step<()>)
    requires s.Valid()
    ensures SameClient(s, st.session)
  {
    if dirpath !in fs.dirs then Step(s, [], Err(OSError(dirpath)))
    else UploadFilesStep(s, server, n, fs, corpusId, FolderPaths(dirpath, fs.dirs[dirpath]), descriptions)
  }

  /** What `len` and `zip` see when `upload` hands its description to
      `upload_files`: a string is a sequence of one-character strings. */
  function DescriptionItems(description: Description): (items: seq<string>)
    ensures description.Text? ==>
      |items| == |description.text| && forall i :: 0 <= i < |items| ==> items[i] == [description.text[i]]
    ensures description.Texts? ==> items == description.texts
  {
    match description
    case Text(t) => seq(|t|, i requires 0 <= i < |t| => [t[i]])
    case Texts(ds) => ds
  }

  /** `upload`: dispatch on the shape of `source`. */
  function UploadStep(s: Session, server: Server, n: nat, fs: FileSystem, corpusId: int,
                      source: Source, description: Description): (st: Step<()>)
    requires s.Valid()
    ensures SameClient(s, st.session)
    ensures source.Path? && source.path in fs.files ==>
      st == UploadFileStep(s, server, n, fs, corpusId, source.path, description)
    ensures source.Path? && source.path !in fs.files && source.path in fs.dirs ==>
      st == UploadFolderStep(s, server, n, fs, corpusId, source.path, DescriptionItems(description))
    ensures source.Paths? ==> st == UploadFilesStep(s, server, n, fs, corpusId, source.paths, DescriptionItems(description))
    ensures source.OtherSource? || (source.Path? && source.path !in fs.files && source.path !in fs.dirs) ==>
      st == Step(s, [], Ok(()))
  {
    match source
    case Path(p) =>
      if p in fs.files then UploadFileStep(s, server, n, fs, corpusId, p, description)
      else if p in fs.dirs then UploadFolderStep(s, server, n, fs, corpusId, p, DescriptionItems(description))
      else Step(s, [], Ok(()))
    case Paths(ps) => UploadFilesStep(s, server, n, fs, corpusId, ps, DescriptionItems(description))
    case OtherSource => Step(s, [], Ok(()))
  }

  /** `upload` on a directory, outside command-line mode and with the default
      empty description, uploads every listed entry under its own name, in
      listing order, when the entries are all files. */
  lemma UploadDirectoryNamesEntries(s: Session, server: Server, n: nat, fs: FileSystem, corpusId: int, dirpath: string)
    requires s.Valid() && !s.fromCli
    requires dirpath !in fs.files && dirpath in fs.dirs
    requires forall i :: 0 <= i < |fs.dirs[dirpath]| ==>
      '/' !in fs.dirs[dirpath][i] && Join(dirpath, fs.dirs[dirpath][i]) in fs.files
    ensures var st := UploadStep(s, server, n, fs, corpusId, Path(dirpath), Text(""));
      var entries := fs.dirs[dirpath];
      && st.session == s && st.result == Ok(())
      && |st.sent| == |entries|
      && forall i :: 0 <= i < |entries| ==>
           st.sent[i] == UploadRequest(s.cfg, s.token.value, corpusId, Join(dirpath, entries[i]), entries[i])
  {
    assert DescriptionItems(Text("")) == [];
    UploadFolderNamesEntries(s, server, n, fs, corpusId, dirpath);
  }

  /** What `query` returns for the platform's reply: `{}` on a status other
      than 200; otherwise the raw reply, or, in command-line mode, None once
      the reply has been normalised. */
  function QueryOutcome(fromCli: bool, reply: Response): (r: Result<Option<Json>>)
    ensures reply.status != 200 ==> r == Ok(Some(JObj(map[])))
    ensures reply.status == 200 && !fromCli ==> r == Ok(Some(reply.body))
    ensures reply.status == 200 && fromCli ==>
      && (r == Ok(None) <==> QueryResult.Normalize(reply.body).Ok?)
      && (r.Err? <==> QueryResult.Normalize(reply.body).Err?)
      && (r.Err? ==> r.error == QueryResult.Normalize(reply.body).error)
  {
    if reply.status != 200 then Ok(Some(JObj(map[])))
    else if fromCli then
      (match QueryResult.Normalize(reply.body)
       case Ok(_) => Ok(None)
       case Err(e) => Err(e))
    else Ok(Some(reply.body))
  }

  /** `query`: post the query with the current token. */
  function QueryStep(s: Session, server: Server, n: nat, corpusId: int, query: string, topK: int, lang: string)
    : (st: Step<Option<Json>>)
    requires s.Valid()
    ensures SameClient(s, st.session)
  {
    var auth := Authorize(s, server, n);
    if auth.result.Err? then Step(auth.session, auth.sent, Err(auth.result.error))
    else
      var req := QueryRequest(s.cfg, auth.session.token.value, corpusId, query, topK, lang);
      Step(auth.session, auth.sent + [req], QueryOutcome(s.fromCli, server(n + |auth.sent|, req)))
  }

  /** `QueryStep` once the token is in hand: the query request carrying it
      follows the token request, if any. */
  lemma QueryStepAuthorized(s: Session, server: Server, n: nat, corpusId: int, query: string, topK: int, lang: string)
    requires s.Valid() && Authorize(s, server, n).result.Ok?
    ensures var auth := Authorize(s, server, n);
      var req := QueryRequest(s.cfg, auth.result.value, corpusId, query, topK, lang);
      QueryStep(s, server, n, corpusId, query, topK, lang) ==
        Step(auth.session, auth.sent + [req], QueryOutcome(s.fromCli, server(n + |auth.sent|, req)))
  {
  }

  /** How many of the pairs, from the front, name existing files: the upload
      loop gets this far before `open` raises. */
  function Present(fs: FileSystem, pairs: seq<(string, string)>): (k: nat)
    ensures k <= |pairs|
    ensures forall i :: 0 <= i < k ==> pairs[i].1 in fs.files
    ensures k < |pairs| ==> pairs[k].1 !in fs.files
    decreases |pairs|
  {
    if pairs == [] || pairs[0].1 !in fs.files then 0 else 1 + Present(fs, pairs[1..])
  }

  /** The request uploading one pair with token `token`. */
  function PairRequest(cfg: Config, token: Json, corpusId: int, pair: (string, string)): Request
  {
    UploadRequest(cfg, token, corpusId, pair.1, Described(pair.1, pair.0))
  }

  /** The outcome of the first turn of the upload loop outside command-line
      mode: a path that is not a file ends the loop with its OSError;
      otherwise the outcome is that of the remaining pairs. */
  lemma UploadAllDirectHeadResult(s: Session, server: Server, n: nat, fs: FileSystem, corpusId: int,
                                  pairs: seq<(string, string)>)
    requires s.Valid() && !s.fromCli && pairs != []
    ensures UploadAll(s, server, n, fs, corpusId, pairs).result ==
      if pairs[0].1 in fs.files then UploadAll(s, server, n + 1, fs, corpusId, pairs[1..]).result
      else Err(OSError(pairs[0].1))
  {
    UploadAllDirectHead(s, server, n, fs, corpusId, pairs);
  }

  /** The first turn of the upload loop outside command-line mode. */
  lemma UploadAllDirectHead(s: Session, server: Server, n: nat, fs: FileSystem, corpusId: int,
                            pairs: seq<(string, string)>)
    requires s.Valid() && !s.fromCli && pairs != []
    ensures UploadAll(s, server, n, fs, corpusId, pairs) ==
      if pairs[0].1 in fs.files
      then After([PairRequest(s.cfg, s.token.value, corpusId, pairs[0])], UploadAll(s, server, n + 1, fs, corpusId, pairs[1..]))
      else Step(s, [], Err(OSError(pairs[0].1)))
  {
  }

  /** Outside command-line mode the upload loop posts one upload per pair, in
      order, up to the first path that is not a file; the client's state
      does not change. */
  lemma {:induction false} UploadAllDirect(s: Session, server: Server, n: nat, fs: FileSystem, corpusId: int,
                                           pairs: seq<(string, string)>)
    requires s.Valid() && !s.fromCli
    ensures var st := UploadAll(s, server, n, fs, corpusId, pairs);
      var k := Present(fs, pairs);
      && st.session == s
      && |st.sent| == k
      && (forall i :: 0 <= i < k ==> st.sent[i] == PairRequest(s.cfg, s.token.value, corpusId, pairs[i]))
    decreases |pairs|
  {
    if pairs != [] {
      UploadAllDirectHead(s, server, n, fs, corpusId, pairs);
      if pairs[0].1 in fs.files {
        UploadAllDirect(s, server, n + 1, fs, corpusId, pairs[1..]);
        var rest := UploadAll(s, server, n + 1, fs, corpusId, pairs[1..]);
        assert Present(fs, pairs) == 1 + Present(fs, pairs[1..]);
        UploadsInFront(s.cfg, s.token.value, corpusId, pairs, rest.sent, Present(fs, pairs));
      }
    }
  }

  /** The upload of the first pair in front of the uploads of the next
      `k - 1` pairs are the uploads of the first `k` pairs. */
  lemma UploadsInFront(cfg: Config, token: Json, corpusId: int, pairs: seq<(string, string)>, rest: seq<Request>, k: nat)
    requires 0 < k <= |pairs| && |rest| == k - 1
    requires forall i :: 0 <= i < k - 1 ==> rest[i] == PairRequest(cfg, token, corpusId, pairs[1..][i])
    ensures var sent := [PairRequest(cfg, token, corpusId, pairs[0])] + rest;
      forall i :: 0 <= i < k ==> sent[i] == PairRequest(cfg, token, corpusId, pairs[i])
  {
    var sent := [PairRequest(cfg, token, corpusId, pairs[0])] + rest;
    forall i | 1 <= i < k
      ensures sent[i] == PairRequest(cfg, token, corpusId, pairs[i])
    {
      assert pairs[i] == pairs[1..][i - 1] && sent[i] == rest[i - 1];
    }
  }

  /** Outside command-line mode the loop succeeds exactly when every path is
      a file, and otherwise fails with the OSError of the first path that is
      not one. */
  lemma {:induction false} UploadAllDirectResult(s: Session, server: Server, n: nat, fs: FileSystem, corpusId: int,
                                                 pairs: seq<(string, string)>)
    requires s.Valid() && !s.fromCli
    ensures var st := UploadAll(s, server, n, fs, corpusId, pairs);
      var k := Present(fs, pairs);
      && (k == |pairs| ==> st.result == Ok(()))
      && (k < |pairs| ==> st.result == Err(OSError(pairs[k].1)))
    decreases |pairs|
  {
    if pairs != [] {
      UploadAllDirectHeadResult(s, server, n, fs, corpusId, pairs);
      if pairs[0].1 in fs.files {
        UploadAllDirectResult(s, server, n + 1, fs, corpusId, pairs[1..]);
        var k := Present(fs, pairs);
        assert k == 1 + Present(fs, pairs[1..]);
        if k < |pairs| {
          assert pairs[k] == pairs[1..][k - 1];
        }
      }
    }
  }

  /** The `access_token` of the reply to a token request sent as the `n`-th request. */
  function TokenAt(server: Server, cfg: Config, n: nat): Result<Json>
  {
    AccessToken(server(n, TokenRequest(cfg)))
  }

  /** The platform answers every token request of these settings with a token. */
  ghost predicate IssuesTokens(server: Server, cfg: Config)
  {
    forall n: nat :: TokenAt(server, cfg, n).Ok?
  }

  /** The first turn of the upload loop in command-line mode, once the token
      request has been answered with a token. */
  lemma UploadAllCliHead(s: Session, server: Server, n: nat, fs: FileSystem, corpusId: int,
                         pairs: seq<(string, string)>)
    requires s.Valid() && s.fromCli && pairs != [] && TokenAt(server, s.cfg, n).Ok?
    ensures var token := TokenAt(server, s.cfg, n).value;
      var s1 := s.(token := Some(token));
      UploadAll(s, server, n, fs, corpusId, pairs) ==
        if pairs[0].1 in fs.files
        then After([TokenRequest(s.cfg), PairRequest(s.cfg, token, corpusId, pairs[0])],
                   UploadAll(s1, server, n + 2, fs, corpusId, pairs[1..]))
        else Step(s1, [TokenRequest(s.cfg)], Err(OSError(pairs[0].1)))
  {
    var first := UploadFileStep(s, server, n, fs, corpusId, pairs[0].1, Text(pairs[0].0));
    var auth := Authorize(s, server, n);
    assert auth.result == TokenAt(server, s.cfg, n) && auth.sent == [TokenRequest(s.cfg)];
    var s1 := s.(token := Some(auth.result.value));
    if pairs[0].1 in fs.files {
      assert first == Step(s1, [TokenRequest(s.cfg), PairRequest(s.cfg, auth.result.value, corpusId, pairs[0])], Ok(()));
      assert UploadAll(s, server, n, fs, corpusId, pairs)
          == After(first.sent, UploadAll(s1, server, n + 2, fs, corpusId, pairs[1..]));
    } else {
      assert first == Step(s1, [TokenRequest(s.cfg)], Err(OSError(pairs[0].1)));
    }
  }

  /** `x` in front of the image under `f` of each element of `ys`. */
  function Interleave<A, B>(x: B, f: A -> B, ys: seq<A>): (s: seq<B>)
    ensures |s| == 2 * |ys|
  {
    if |ys| == 0 then [] else [x, f(ys[0])] + Interleave(x, f, ys[1..])
  }

  /** Position `2*i` holds `x` and position `2*i + 1` the image of `ys[i]`. */
  lemma {:induction false} InterleaveAt<A, B>(x: B, f: A -> B, ys: seq<A>, i: nat)
    requires i < |ys|
    ensures var s := Interleave(x, f, ys); s[2 * i] == x && s[2 * i + 1] == f(ys[i])
    decreases i
  {
    if i > 0 {
      InterleaveAt(x, f, ys[1..], i - 1);
      var s := Interleave(x, f, ys);
      assert s[2..] == Interleave(x, f, ys[1..]);
      assert s[2 * i] == s[2..][2 * i - 2] && s[2 * i + 1] == s[2..][2 * i - 1];
    }
  }

  /** One upload of the command-line loop: the pair it posts, after the
      `tokenRequest`-th request to `server`, whose token it carries. */
  datatype CliUpload = CliUpload(cfg: Config, server: Server, tokenRequest: nat, corpusId: int, pair: (string, string))

  function CliUploadRequest(u: CliUpload): Request
  {
    PairRequest(u.cfg, IssuedToken(u.server, u.cfg, u.tokenRequest), u.corpusId, u.pair)
  }

  /** The token returned for the `n`-th token request, or `null` where the
      platform issued none. */
  function IssuedToken(server: Server, cfg: Config, n: nat): Json
  {
    if TokenAt(server, cfg, n).Ok? then TokenAt(server, cfg, n).value else JNull
  }

  /** The uploads of a command-line upload loop over pairs that are all
      files, each following its own token request. */
  function CliUploadPlan(cfg: Config, server: Server, n: nat, corpusId: int, pairs: seq<(string, string)>): (plan: seq<CliUpload>)
    ensures |plan| == |pairs|
    decreases |pairs|
  {
    if |pairs| == 0 then []
    else [CliUpload(cfg, server, n, corpusId, pairs[0])]
         + CliUploadPlan(cfg, server, n + 2, corpusId, pairs[1..])
  }

  /** The `i`-th upload follows the `(n + 2*i)`-th request. */
  lemma {:induction false} CliUploadPlanAt(cfg: Config, server: Server, n: nat, corpusId: int,
                                           pairs: seq<(string, string)>, i: nat)
    requires i < |pairs|
    ensures CliUploadPlan(cfg, server, n, corpusId, pairs)[i]
         == CliUpload(cfg, server, n + 2 * i, corpusId, pairs[i])
    decreases i
  {
    if i > 0 {
      CliUploadPlanAt(cfg, server, n + 2, corpusId, pairs[1..], i - 1);
      assert pairs[1..][i - 1] == pairs[i] && n + 2 + 2 * (i - 1) == n + 2 * i;
    }
  }

  /** The requests of a command-line upload loop over pairs that are all
      files: for each pair a token request, then its upload carrying the
      token that request returned. */
  function CliUploads(cfg: Config, server: Server, n: nat, corpusId: int, pairs: seq<(string, string)>): (sent: seq<Request>)
    requires IssuesTokens(server, cfg)
    ensures |sent| == 2 * |pairs|
  {
    Interleave(TokenRequest(cfg), CliUploadRequest, CliUploadPlan(cfg, server, n, corpusId, pairs))
  }

  /** Request by request: the `i`-th pair contributes a token request at
      position `2*i`, followed by its upload carrying the token the platform
      returned for that request, the `(n + 2*i)`-th of the loop. */
  lemma CliUploadsAt(cfg: Config, server: Server, n: nat, corpusId: int, pairs: seq<(string, string)>, i: nat)
    requires IssuesTokens(server, cfg) && i < |pairs|
    ensures var sent := CliUploads(cfg, server, n, corpusId, pairs);
      && sent[2 * i] == TokenRequest(cfg)
      && sent[2 * i + 1] == PairRequest(cfg, TokenAt(server, cfg, n + 2 * i).value, corpusId, pairs[i])
  {
    InterleaveAt(TokenRequest(cfg), CliUploadRequest, CliUploadPlan(cfg, server, n, corpusId, pairs), i);
    CliUploadPlanAt(cfg, server, n, corpusId, pairs, i);
    assert TokenAt(server, cfg, n + 2 * i).Ok?;
    CliUploadRequestIssued(cfg, server, n + 2 * i, corpusId, pairs[i]);
  }

  /** An upload following a token request that the platform answered with a
      token carries that token. */
  lemma CliUploadRequestIssued(cfg: Config, server: Server, m: nat, corpusId: int, pair: (string, string))
    requires TokenAt(server, cfg, m).Ok?
    ensures CliUploadRequest(CliUpload(cfg, server, m, corpusId, pair))
         == PairRequest(cfg, TokenAt(server, cfg, m).value, corpusId, pair)
  {
  }

  /** The first pair's two requests, in front of the requests of the
      remaining pairs, whose token requests come two later. */
  lemma CliUploadsFirst(cfg: Config, server: Server, n: nat, corpusId: int, pairs: seq<(string, string)>)
    requires IssuesTokens(server, cfg) && pairs != []
    ensures CliUploads(cfg, server, n, corpusId, pairs) ==
      [TokenRequest(cfg), PairRequest(cfg, TokenAt(server, cfg, n).value, corpusId, pairs[0])]
      + CliUploads(cfg, server, n + 2, corpusId, pairs[1..])
  {
    var plan := CliUploadPlan(cfg, server, n, corpusId, pairs);
    assert plan[1..] == CliUploadPlan(cfg, server, n + 2, corpusId, pairs[1..]);
    assert TokenAt(server, cfg, n).Ok?;
  }

  /** The command-line requests for the first `k` pairs begin with the first
      pair's two requests. */
  lemma CliUploadsCons(cfg: Config, server: Server, n: nat, corpusId: int, pairs: seq<(string, string)>, k: nat)
    requires IssuesTokens(server, cfg) && 0 < k <= |pairs|
    ensures CliUploads(cfg, server, n, corpusId, pairs[..k]) ==
      [TokenRequest(cfg), PairRequest(cfg, TokenAt(server, cfg, n).value, corpusId, pairs[0])]
      + CliUploads(cfg, server, n + 2, corpusId, pairs[1..][..k - 1])
  {
    CliUploadsFirst(cfg, server, n, corpusId, pairs[..k]);
    assert pairs[..k][0] == pairs[0] && pairs[..k][1..] == pairs[1..][..k - 1];
  }

  /** In command-line mode, when every path is a file, each upload of the
      loop is preceded by its own token request and carries the token that
      request returned. */
  lemma {:induction false} UploadAllCli(s: Session, server: Server, n: nat, fs: FileSystem, corpusId: int,
                                        pairs: seq<(string, string)>)
    requires s.Valid() && s.fromCli && IssuesTokens(server, s.cfg)
    requires Present(fs, pairs) == |pairs|
    ensures var st := UploadAll(s, server, n, fs, corpusId, pairs);
      st.sent == CliUploads(s.cfg, server, n, corpusId, pairs) && st.result == Ok(())
    decreases |pairs|
  {
    if pairs != [] {
      assert TokenAt(server, s.cfg, n).Ok?;
      var s1 := s.(token := Some(TokenAt(server, s.cfg, n).value));
      UploadAllCliHead(s, server, n, fs, corpusId, pairs);
      UploadAllCli(s1, server, n + 2, fs, corpusId, pairs[1..]);
      CliUploadsFirst(s.cfg, server, n, corpusId, pairs);
    }
  }

  /** In command-line mode the loop stops at the first path that is not a
      file, after that upload's token request, with that path's OSError. */
  lemma {:induction false} UploadAllCliStops(s: Session, server: Server, n: nat, fs: FileSystem, corpusId: int,
                                             pairs: seq<(string, string)>)
    requires s.Valid() && s.fromCli && IssuesTokens(server, s.cfg)
    requires Present(fs, pairs) < |pairs|
    ensures var st := UploadAll(s, server, n, fs, corpusId, pairs);
      var k := Present(fs, pairs);
      && st.sent == CliUploads(s.cfg, server, n, corpusId, pairs[..k]) + [TokenRequest(s.cfg)]
      && st.result == Err(OSError(pairs[k].1))
    decreases |pairs|
  {
    assert TokenAt(server, s.cfg, n).Ok?;
    var s1 := s.(token := Some(TokenAt(server, s.cfg, n).value));
    if pairs[0].1 in fs.files {
      assert Present(fs, pairs) == 1 + Present(fs, pairs[1..]);
      UploadAllCliStops(s1, server, n + 2, fs, corpusId, pairs[1..]);
      UploadAllCliStopsLater(s, server, n, fs, corpusId, pairs);
    } else {
      UploadAllCliHead(s, server, n, fs, corpusId, pairs);
      assert pairs[..0] == [];
    }
  }

  /** The step of `UploadAllCliStops` past a first path that is a file: the
      stop found among the remaining pairs is the stop of the whole loop. */
  lemma UploadAllCliStopsLater(s: Session, server: Server, n: nat, fs: FileSystem, corpusId: int,
                               pairs: seq<(string, string)>)
    requires s.Valid() && s.fromCli && IssuesTokens(server, s.cfg)
    requires pairs != [] && pairs[0].1 in fs.files && Present(fs, pairs) < |pairs|
    requires var s1 := s.(token := Some(TokenAt(server, s.cfg, n).value));
      var st := UploadAll(s1, server, n + 2, fs, corpusId, pairs[1..]);
      var k := Present(fs, pairs[1..]);
      && k < |pairs[1..]|
      && st.sent == CliUploads(s.cfg, server, n + 2, corpusId, pairs[1..][..k]) + [TokenRequest(s.cfg)]
      && st.result == Err(OSError(pairs[1..][k].1))
    ensures var st := UploadAll(s, server, n, fs, corpusId, pairs);
      var k := Present(fs, pairs);
      && st.sent == CliUploads(s.cfg, server, n, corpusId, pairs[..k]) + [TokenRequest(s.cfg)]
      && st.result == Err(OSError(pairs[k].1))
  {
    var token := TokenAt(server, s.cfg, n).value;
    var head := [TokenRequest(s.cfg), PairRequest(s.cfg, token, corpusId, pairs[0])];
    UploadAllCliHead(s, server, n, fs, corpusId, pairs);
    var k := Present(fs, pairs);
    assert k == 1 + Present(fs, pairs[1..]);
    assert pairs[k] == pairs[1..][k - 1];
    CliUploadsCons(s.cfg, server, n, corpusId, pairs, k);
    ConcatAssoc(head, CliUploads(s.cfg, server, n + 2, corpusId, pairs[1..][..k - 1]), [TokenRequest(s.cfg)]);
  }

  /** `upload_files` outside command-line mode, when every path is a file: one
      upload per path, in order, each named by its description, or by the
      path's base name when the description is empty or when there are fewer
      descriptions than paths. */
  lemma UploadFilesDirect(s: Session, server: Server, n: nat, fs: FileSystem, corpusId: int,
                          filepaths: seq<string>, descriptions: seq<string>)
    requires s.Valid() && !s.fromCli
    requires forall i :: 0 <= i < |filepaths| ==> filepaths[i] in fs.files
    ensures var st := UploadFilesStep(s, server, n, fs, corpusId, filepaths, descriptions);
      && st.session == s && st.result == Ok(())
      && |st.sent| == |filepaths|
      && forall i :: 0 <= i < |filepaths| ==>
           st.sent[i] == UploadRequest(s.cfg, s.token.value, corpusId, filepaths[i],
             if |descriptions| < |filepaths| || descriptions[i] == "" then Basename(filepaths[i]) else descriptions[i])
  {
    var pairs := Pairing(descriptions, filepaths);
    UploadAllDirect(s, server, n, fs, corpusId, pairs);
    UploadAllDirectResult(s, server, n, fs, corpusId, pairs);
    assert Present(fs, pairs) == |pairs|;
  }

  /** `upload_folder` with no descriptions, outside command-line mode, on a
      directory whose entries are all files: one upload per entry, in
      listing order, each named by the entry's own name. */
  lemma UploadFolderNamesEntries(s: Session, server: Server, n: nat, fs: FileSystem, corpusId: int, dirpath: string)
    requires s.Valid() && !s.fromCli
    requires dirpath in fs.dirs
    requires forall i :: 0 <= i < |fs.dirs[dirpath]| ==>
      '/' !in fs.dirs[dirpath][i] && Join(dirpath, fs.dirs[dirpath][i]) in fs.files
    ensures var st := UploadFolderStep(s, server, n, fs, corpusId, dirpath, []);
      var entries := fs.dirs[dirpath];
      && st.session == s && st.result == Ok(())
      && |st.sent| == |entries|
      && forall i :: 0 <= i < |entries| ==>
           st.sent[i] == UploadRequest(s.cfg, s.token.value, corpusId, Join(dirpath, entries[i]), entries[i])
  {
    var entries := fs.dirs[dirpath];
    var paths := FolderPaths(dirpath, entries);
    UploadFilesDirect(s, server, n, fs, corpusId, paths, []);
    forall i | 0 <= i < |entries| ensures Basename(paths[i]) == entries[i] {
      BasenameOfJoin(dirpath, entries[i]);
    }
  }

  /** `create_corpus`: outside command-line mode one request with the stored
      token; in command-line mode a token request first, and the corpus
      request with the token it returned. The result is the reply's
      `corpusId` on status 200 and None on any other status. */
  lemma CreateCorpusRequests(s: Session, server: Server, n: nat, name: string, description: string)
    requires s.Valid()
    ensures var st := CreateCorpusStep(s, server, n, name, description);
      var token := if s.fromCli then TokenAt(server, s.cfg, n) else Ok(s.token.value);
      var m := if s.fromCli then n + 1 else n;
      && (token.Err? ==> st.sent == [TokenRequest(s.cfg)] && st.result == Err(token.error))
      && (token.Ok? ==>
            var req := CreateCorpusRequest(s.cfg, token.value, name, description);
            var reply := server(m, req);
            && st.sent == (if s.fromCli then [TokenRequest(s.cfg)] else []) + [req]
            && st.session == s.(token := Some(token.value))
            && (reply.status != 200 ==> st.result == Ok(None))
            && (reply.status == 200 ==>
                  match Subscript(reply.body, JStr("corpusId"))
                  case Ok(id) => st.result == Ok(Some(id))
                  case Err(e) => st.result == Err(e)))
  {
    if s.fromCli {
      CreateCorpusRequestsCli(s, server, n, name, description);
    } else {
      CreateCorpusStepAuthorized(s, server, n, name, description);
    }
  }

  /** `CreateCorpusRequests` in command-line mode: a token request comes first. */
  lemma CreateCorpusRequestsCli(s: Session, server: Server, n: nat, name: string, description: string)
    requires s.Valid() && s.fromCli
    ensures var st := CreateCorpusStep(s, server, n, name, description);
      var token := TokenAt(server, s.cfg, n);
      && (token.Err? ==> st.sent == [TokenRequest(s.cfg)] && st.result == Err(token.error))
      && (token.Ok? ==>
            var req := CreateCorpusRequest(s.cfg, token.value, name, description);
            && st.sent == [TokenRequest(s.cfg)] + [req]
            && st.session == s.(token := Some(token.value))
            && st.result == CreatedCorpus(server(n + 1, req)))
  {
    var auth := Authorize(s, server, n);
    assert auth.result == TokenAt(server, s.cfg, n) && auth.sent == [TokenRequest(s.cfg)];
    if auth.result.Ok? {
      CreateCorpusStepAuthorized(s, server, n, name, description);
      assert auth.session == s.(token := Some(auth.result.value));
    }
  }

  /** `reset_corpus` posts one reset request for the corpus, preceded in
      command-line mode by a token request whose token it carries. */
  lemma ResetCorpusRequests(s: Session, server: Server, n: nat, corpusId: int)
    requires s.Valid()
    ensures var st := ResetCorpusStep(s, server, n, corpusId);
      var token := if s.fromCli then TokenAt(server, s.cfg, n) else Ok(s.token.value);
      && (token.Err? ==> st.sent == [TokenRequest(s.cfg)] && st.result == Err(token.error))
      && (token.Ok? ==>
            && st.sent == (if s.fromCli then [TokenRequest(s.cfg)] else []) + [ResetCorpusRequest(s.cfg, token.value, corpusId)]
            && st.session == s.(token := Some(token.value))
            && st.result == Ok(()))
  {
  }

  /** `query`: one query request with the current token, after a token
      request in command-line mode; what it returns is `QueryOutcome` of the
      reply to that request. */
  lemma QueryRequests(s: Session, server: Server, n: nat, corpusId: int, query: string, topK: int, lang: string)
    requires s.Valid()
    ensures var st := QueryStep(s, server, n, corpusId, query, topK, lang);
      var token := if s.fromCli then TokenAt(server, s.cfg, n) else Ok(s.token.value);
      var m := if s.fromCli then n + 1 else n;
      && (token.Err? ==> st.sent == [TokenRequest(s.cfg)] && st.result == Err(token.error))
      && (token.Ok? ==>
            var req := QueryRequest(s.cfg, token.value, corpusId, query, topK, lang);
            && st.sent == (if s.fromCli then [TokenRequest(s.cfg)] else []) + [req]
            && st.session == s.(token := Some(token.value))
            && st.result == QueryOutcome(s.fromCli, server(m, req)))
  {
    if s.fromCli {
      QueryRequestsCli(s, server, n, corpusId, query, topK, lang);
    } else {
      QueryRequestsDirect(s, server, n, corpusId, query, topK, lang);
    }
  }

  /** `QueryRequests` in command-line mode: a token request comes first. */
  lemma QueryRequestsCli(s: Session, server: Server, n: nat, corpusId: int, query: string, topK: int, lang: string)
    requires s.Valid() && s.fromCli
    ensures var st := QueryStep(s, server, n, corpusId, query, topK, lang);
      var token := TokenAt(server, s.cfg, n);
      && (token.Err? ==> st.sent == [TokenRequest(s.cfg)] && st.result == Err(token.error))
      && (token.Ok? ==>
            var req := QueryRequest(s.cfg, token.value, corpusId, query, topK, lang);
            && st.sent == [TokenRequest(s.cfg)] + [req]
            && st.session == s.(token := Some(token.value))
            && st.result == QueryOutcome(true, server(n + 1, req)))
  {
    var auth := Authorize(s, server, n);
    assert auth.result == TokenAt(server, s.cfg, n) && auth.sent == [TokenRequest(s.cfg)];
    if auth.result.Ok? {
      QueryStepAuthorized(s, server, n, corpusId, query, topK, lang);
      assert auth.session == s.(token := Some(auth.result.value));
    }
  }

  /** `QueryRequests` outside command-line mode: the stored token is used. */
  lemma QueryRequestsDirect(s: Session, server: Server, n: nat, corpusId: int, query: string, topK: int, lang: string)
    requires s.Valid() && !s.fromCli
    ensures var st := QueryStep(s, server, n, corpusId, query, topK, lang);
      var req := QueryRequest(s.cfg, s.token.value, corpusId, query, topK, lang);
      && st.sent == [req]
      && st.session == s
      && st.result == QueryOutcome(false, server(n, req))
  {
    QueryStepAuthorized(s, server, n, corpusId, query, topK, lang);
  }

  /** The client. */
  class Vectara {
    var proxyMode: bool
    var customerId: string
    var clientId: string
    var clientSecret: string
    var baseUrl: string
    var fromCli: bool
    var jwtToken: Option<Json>

    function State(): Session
      reads this
    {
      Session(Config(customerId, clientId, clientSecret, baseUrl, proxyMode), fromCli, jwtToken)
    }

    predicate Valid()
      reads this
    {
      State().Valid()
    }

    /** The field assignments of `__init__`. */
    constructor (cfg: Config, fromCli: bool)
      ensures State() == Session(cfg, fromCli, None)
    {
      proxyMode := cfg.proxyMode;
      customerId := cfg.customerId;
      clientId := cfg.clientId;
      clientSecret := cfg.clientSecret;
      baseUrl := cfg.baseUrl;
      this.fromCli := fromCli;
      jwtToken := None;
    }

    /** `vectara(base_url, customer_id, client_id, client_secret, from_cli)`:
        resolve the settings, then, outside command-line mode, acquire a token
        before anything else is sent. */
    static method New(env: map<string, string>, baseUrl: string, customerId: string, clientId: string,
                      clientSecret: string, fromCli: bool, net: Transport) returns (r: Result<Vectara>)
      modifies net
      ensures var cfg := ResolveConfig(env, baseUrl, customerId, clientId, clientSecret);
        cfg.Err? ==> r == Err(cfg.error) && net.trace == old(net.trace)
      ensures var cfg := ResolveConfig(env, baseUrl, customerId, clientId, clientSecret);
        cfg.Ok? && fromCli ==>
          r.Ok? && fresh(r.value) && r.value.State() == Session(cfg.value, true, None) &&
          net.trace == old(net.trace)
      ensures var cfg := ResolveConfig(env, baseUrl, customerId, clientId, clientSecret);
        cfg.Ok? && !fromCli ==>
          var st := Acquire(Session(cfg.value, false, None), net.server, |old(net.trace)|);
          && net.trace == old(net.trace) + [TokenRequest(cfg.value)]
          && (r.Ok? <==> st.result.Ok?)
          && (r.Ok? ==> fresh(r.value) && r.value.State() == st.session && r.value.Valid())
          && (r.Err? ==> r.error == st.result.error)
    {
      var cfg :- ResolveConfig(env, baseUrl, customerId, clientId, clientSecret);
      var client := new Vectara(cfg, fromCli);
      if !fromCli {
        var token := client.AcquireJwtToken(net);
        if token.Err? {
          return Err(token.error);
        }
      }
      r := Ok(client);
    }

    /** `acquire_jwt_token`. */
    method AcquireJwtToken(net: Transport) returns (r: Result<Json>)
      modifies this, net
      ensures var st := Acquire(old(State()), net.server, |old(net.trace)|);
        net.trace == old(net.trace) + st.sent && State() == st.session && r == st.result
    {
      var reply := net.Post(TokenRequest(State().cfg));
      r := Subscript(reply.body, JStr("access_token"));
      AccessTokenIsSubscript(reply);
      if r.Ok? {
        jwtToken := Some(r.value);
      }
    }

    /** The token each operation starts by fetching. */
    method CurrentToken(net: Transport) returns (r: Result<Json>)
      requires Valid()
      modifies this, net
      ensures var st := Authorize(old(State()), net.server, |old(net.trace)|);
        net.trace == old(net.trace) + st.sent && State() == st.session && r == st.result
    {
      if fromCli {
        r := AcquireJwtToken(net);
      } else {
        r := Ok(jwtToken.value);
      }
    }

    /** `create_corpus`. */
    method CreateCorpus(net: Transport, name: string, description: string) returns (r: Result<Option<Json>>)
      requires Valid()
      modifies this, net
      ensures var st := CreateCorpusStep(old(State()), net.server, |old(net.trace)|, name, description);
        net.trace == old(net.trace) + st.sent && State() == st.session && r == st.result
    {
      ghost var auth := Authorize(State(), net.server, |net.trace|);
      var token :- CurrentToken(net);
      var req := CreateCorpusRequest(State().cfg, token, name, description);
      var reply := net.Post(req);
      CreateCorpusStepAuthorized(old(State()), net.server, |old(net.trace)|, name, description);
      ConcatAssoc(old(net.trace), auth.sent, [req]);
      assert reply == net.server(|old(net.trace)| + |auth.sent|, req);
      if reply.status == 200 {
        var id :- Subscript(reply.body, JStr("corpusId"));
        r := Ok(Some(id));
      } else {
        r := Ok(None);
      }
    }

    /** `reset_corpus`. */
    method ResetCorpus(net: Transport, corpusId: int) returns (r: Result<()>)
      requires Valid()
      modifies this, net
      ensures var st := ResetCorpusStep(old(State()), net.server, |old(net.trace)|, corpusId);
        net.trace == old(net.trace) + st.sent && State() == st.session && r == st.result
    {
      var token :- CurrentToken(net);
      var _ := net.Post(ResetCorpusRequest(State().cfg, token, corpusId));
      r := Ok(());
    }

    /** `upload_file`. */
    method UploadFile(net: Transport, fs: FileSystem, corpusId: int, filepath: string, description: Description)
      returns (r: Result<()>)
      requires Valid()
      modifies this, net
      ensures var st := UploadFileStep(old(State()), net.server, |old(net.trace)|, fs, corpusId, filepath, description);
        net.trace == old(net.trace) + st.sent && State() == st.session && r == st.result
    {
      var token :- CurrentToken(net);
      if filepath !in fs.files {
        return Err(OSError(filepath));
      }
      match description
      case Texts(_) =>
        r := Err(AttributeError);
      case Text(d) =>
        var _ := net.Post(UploadRequest(State().cfg, token, corpusId, filepath, Described(filepath, d)));
        r := Ok(());
    }

    /** `upload_files`. */
    method UploadFiles(net: Transport, fs: FileSystem, corpusId: int, filepaths: seq<string>, descriptions: seq<string>)
      returns (r: Result<()>)
      requires Valid()
      modifies this, net
      ensures var st := UploadFilesStep(old(State()), net.server, |old(net.trace)|, fs, corpusId, filepaths, descriptions);
        net.trace == old(net.trace) + st.sent && State() == st.session && r == st.result
    {
      r := UploadPairs(net, fs, corpusId, Pairing(descriptions, filepaths));
    }

    /** The loop of `upload_files` over its (description, path) pairs. */
    method UploadPairs(net: Transport, fs: FileSystem, corpusId: int, pairs: seq<(string, string)>)
      returns (r: Result<()>)
      requires Valid()
      modifies this, net
      ensures var st := UploadAll(old(State()), net.server, |old(net.trace)|, fs, corpusId, pairs);
        net.trace == old(net.trace) + st.sent && State() == st.session && r == st.result
    {
      ghost var s0 := State();
      ghost var t0 := net.trace;
      assert pairs[0..] == pairs && net.trace[|t0|..] == [];
      var i := 0;
      while i < |pairs|
        invariant 0 <= i <= |pairs|
        invariant SameClient(s0, State())
        invariant |t0| <= |net.trace| && net.trace[..|t0|] == t0
        invariant UploadAll(s0, net.server, |t0|, fs, corpusId, pairs) ==
          After(net.trace[|t0|..], UploadAll(State(), net.server, |net.trace|, fs, corpusId, pairs[i..]))
      {
        ghost var s1 := State();
        ghost var before := net.trace;
        var res := UploadFile(net, fs, corpusId, pairs[i].1, Text(pairs[i].0));
        UploadLoopTurn(s0, net.server, |t0|, fs, corpusId, pairs, i, t0, before, s1, net.trace, State(), res);
        if res.Err? {
          return res;
        }
        i := i + 1;
      }
      assert net.trace == t0 + net.trace[|t0|..];
      r := Ok(());
    }

    /** `upload_folder`. */
    method UploadFolder(net: Transport, fs: FileSystem, corpusId: int, dirpath: string, descriptions: seq<string>)
      returns (r: Result<()>)
      requires Valid()
      modifies this, net
      ensures var st := UploadFolderStep(old(State()), net.server, |old(net.trace)|, fs, corpusId, dirpath, descriptions);
        net.trace == old(net.trace) + st.sent && State() == st.session && r == st.result
    {
      if dirpath !in fs.dirs {
        return Err(OSError(dirpath));
      }
      r := UploadFiles(net, fs, corpusId, FolderPaths(dirpath, fs.dirs[dirpath]), descriptions);
    }

    /** `upload`. */
    method Upload(net: Transport, fs: FileSystem, corpusId: int, source: Source, description: Description)
      returns (r: Result<()>)
      requires Valid()
      modifies this, net
      ensures var st := UploadStep(old(State()), net.server, |old(net.trace)|, fs, corpusId, source, description);
        net.trace == old(net.trace) + st.sent && State() == st.session && r == st.result
    {
      match source
      case Path(p) =>
        if p in fs.files {
          r := UploadFile(net, fs, corpusId, p, description);
        } else if p in fs.dirs {
          r := UploadFolder(net, fs, corpusId, p, DescriptionItems(description));
        } else {
          r := Ok(());
        }
      case Paths(ps) =>
        r := UploadFiles(net, fs, corpusId, ps, DescriptionItems(description));
      case OtherSource =>
        r := Ok(());
    }

    /** `query`. */
    method Query(net: Transport, corpusId: int, query: string, topK: int, lang: string) returns (r: Result<Option<Json>>)
      requires Valid()
      modifies this, net
      ensures var st := QueryStep(old(State()), net.server, |old(net.trace)|, corpusId, query, topK, lang);
        net.trace == old(net.trace) + st.sent && State() == st.session && r == st.result
    {
      ghost var auth := Authorize(State(), net.server, |net.trace|);
      var token := CurrentToken(net);
      if token.Err? {
        return Err(token.error);
      }
      var req := QueryRequest(State().cfg, jwtToken.value, corpusId, query, topK, lang);
      assert jwtToken == Some(token.value);
      var reply := net.Post(req);
      QueryStepAuthorized(old(State()), net.server, |old(net.trace)|, corpusId, query, topK, lang);
      ConcatAssoc(old(net.trace), auth.sent, [req]);
      assert reply == net.server(|old(net.trace)| + |auth.sent|, req);
      r := Answer(reply);
    }

    /** The end of `query`: report the reply, normalising it in command-line mode. */
    method Answer(reply: Response) returns (r: Result<Option<Json>>)
      ensures r == QueryOutcome(fromCli, reply)
    {
      if reply.status != 200 {
        return Ok(Some(JObj(map[])));
      }
      if fromCli {
        var simple := QueryResult.PostProcessQueryResult(reply.body, "json");
        QueryResult.PostProcessFailsAsNormalize(reply.body, "json");
        if simple.Err? {
          return Err(simple.error);
        }
        return Ok(None);
      }
      r := Ok(Some(reply.body));
    }
  }
}

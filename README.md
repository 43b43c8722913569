# vektara client core, modelled in Dafny

This project models the core of the `vectara` Python client in
`src/vectara/__init__.py`. The client talks to the Vectara retrieval platform.

- Settings: the constructor resolves the customer id, client id, client
  secret and base URL. Each one comes from the environment when set and from
  the argument otherwise, and it must not be empty or whitespace. Proxy mode
  comes from `VECTARA_PROXY_MODE` and is forced on for any base URL other
  than `https://api.vectara.io`.
- Tokens: `acquire_jwt_token` exchanges the client credentials for a bearer
  token. The token endpoint is the base URL's `/oauth2/token` in proxy mode
  and the customer's Cognito host otherwise. Outside command-line mode the
  constructor fetches one token and every call reuses it. In command-line
  mode every call fetches a new token first.
- Requests: `create_corpus`, `reset_corpus`, `upload_file`, `upload_files`,
  `upload_folder`, `upload` and `query` each post a request. The model fixes
  each request's URL, headers and body, and what the call returns or raises.
- Results: `post_process_query_result` normalises a raw query reply into
  `{summary, matches}`. Each match names the document its passage comes from.

Layout:

- `PyRuntime.dfy` covers the parts of Python the client relies on:
  - decoded JSON values
  - `x[k]` on dicts, lists and strings, including negative indexes and a bool used as an index
  - the exceptions raised (`KeyError`, `IndexError`, `TypeError`, `AttributeError`, `OSError`)
  - `str.isspace`, `str.lower`, and the decimal text of an integer in an f-string
- `PosixPath.dfy` covers `os.path.basename`, `os.path.join` and a file system of files and listed directories.
- `Settings.dfy` covers `get_env`, `is_true` and the constructor's settings.
- `Http.dfy` covers requests and replies, and a `Transport` class that stands in for `requests.post`. It records every request it is given, in order, in `trace`. The platform's reply comes from a function of the request and of its position in the trace.
- `Requests.dfy` covers the request each operation builds.
- `QueryResult.dfy` covers `post_process_query_result`.
- `Client.dfy` covers the `vectara` class.

The source's `vectara` class, whose methods update its fields, is modelled as
the class `Client.Vectara`. Each method has a pure specification function
(`CreateCorpusStep`, `UploadAll`, `QueryStep`, …). The function maps three
inputs to a `Step`:

- the client's state before the call
- the platform
- the number of requests sent so far

The `Step` holds three things:

- the state after the call
- the requests the call sent, in order
- what the call returns or raises

Each method is proved to append exactly those requests to the transport's
trace and to leave the client in that state. The lemmas beside the functions
state what they promise: which requests, with which token, in which order, and
where a call stops. The two loops are imperative methods with invariants:
- the upload loop of `upload_files` (`Vectara.UploadPairs`)
- the match loop of `post_process_query_result` (`QueryResult.CollectMatches`)

Behaviour of the code worth noting:

- There is no API-key scheme and no `x-api-key` header. Credentials are always client id and secret, exchanged for a bearer token.
- A missing or blank setting raises the `TypeError` of `get_env` (`EnvNotSet` here), naming the variable. There is no separate configuration error. The variables are checked in the order customer id, client id, client secret, base URL.
- An empty summary list is not replaced by a placeholder summary: `summary[0]` raises `IndexError` (`QueryResult.EmptySummaryRaises`).
- Batch uploads do not check lengths or duplicate paths before they start:
  - fewer descriptions than paths means the base names are used instead
  - more descriptions means the extra ones are ignored
  - a duplicated path is uploaded twice
- A batch upload stops at the first file that raises. Errors are not collected.
- Upload requests carry only the `Authorization` header, not `customer-id`.

## Model

| member | source | states |
|---|---|---|
| `Settings.GetEnv` | src/vectara/__init__.py:43-47 | The value is the environment's if the variable is set, else the argument; the call succeeds exactly when that value is neither empty nor whitespace only, and otherwise fails naming the variable |
| `Settings.IsTrueSpellings` | src/vectara/__init__.py:54-55 | `is_true` accepts "true", "TRUE", "Yes", "1" and rejects "false", "", "0", "no", " true" |
| `Settings.IsTrueIgnoresCase` | src/vectara/__init__.py:55 | Two strings that lower-case to the same text are both true or both not |
| `Settings.ResolveConfig` | src/vectara/__init__.py:49-65 | Construction succeeds exactly when all four settings are non-blank; each field is the environment value when set, else the argument; the first blank setting, in the order customer id, client id, client secret, base URL, is the one reported; proxy mode holds exactly when the base URL is not the platform's or `VECTARA_PROXY_MODE` is true |
| `Settings.DirectByDefault` | src/vectara/__init__.py:57-60 | With the default base URL and no `VECTARA_PROXY_MODE`, proxy mode is off |
| `PyRuntime.Subscript` | src/vectara/__init__.py:440-441 | Dict lookup yields the value or KeyError of the key, and a list or dict key raises TypeError; a list index, or a bool taken as 0 or 1, selects the item and a string index the one-character string, counting from the end when negative and raising IndexError outside the range; any other index raises TypeError; null, bool and numbers raise TypeError |
| `PyRuntime.NegativeIndexFromEnd` | src/vectara/__init__.py:441 | A negative `documentIndex` i - n names the same document as i |
| `PyRuntime.Lower` | src/vectara/__init__.py:457 | Lower-casing keeps the length and maps each character on its own |
| `PyRuntime.Decimal` | src/vectara/__init__.py:276 | The decimal text of an integer is non-empty and starts with '-' exactly when the integer is negative |
| `PyRuntime.IsSpace` | src/vectara/__init__.py:45 | Space, tab, newline and carriage return are whitespace; ASCII letters, digits, '_' and '-' are not |
| `PyRuntime.NatDecimal` | src/vectara/__init__.py:276 | The decimal text of a natural number is non-empty, all digits, and has no leading zero |
| `PyRuntime.DecimalRoundTrip` | src/vectara/__init__.py:276 | Reading back the decimal text of any integer gives the integer |
| `PosixPath.Basename` | src/vectara/__init__.py:279 | The base name contains no '/', is a suffix of the path, and is preceded by '/' when shorter than the path |
| `PosixPath.Join` | src/vectara/__init__.py:334 | Joining ends with the entry; a relative entry keeps the directory in front, and an absolute entry replaces it |
| `PosixPath.BasenameOfJoin` | src/vectara/__init__.py:334 | The base name of a directory joined with an entry without '/' is the entry |
| `Requests.TokenRequest` | src/vectara/__init__.py:89-108 | The token request goes to `{base_url}/oauth2/token` in proxy mode and to the customer's Cognito host otherwise, form-encoded with grant type, client id and client secret, and without an Authorization header |
| `Requests.CustomBaseUrlUsesProxyEndpoint` | src/vectara/__init__.py:100-103 | Any base URL but the platform's sends the token request to that URL's `/oauth2/token` |
| `Requests.AuthHeaders` | src/vectara/__init__.py:147-151 | The JSON endpoints' headers are exactly the customer id and the bearer token |
| `Requests.UploadUrlNamesCorpus` | src/vectara/__init__.py:276 | The upload URL is `{base_url}/v1/upload?c={customer_id}&o=` followed by the corpus id's decimal text, which reads back as the corpus id |
| `Requests.CognitoTokenUrl` | src/vectara/__init__.py:101 | Outside proxy mode the token endpoint is the customer id between the fixed `https://vectara-prod-` prefix and the fixed `.auth.us-west-2.amazoncognito.com/oauth2/token` suffix |
| `Requests.CognitoTokenUrlInjective` | src/vectara/__init__.py:101 | Different customer ids give different token endpoints |
| `Requests.QueryBodyReadBack` | src/vectara/__init__.py:360-381 | The query body holds one query with the text, `top_k` results, the one corpus key, and a summary request for `top_k` results in `lang` |
| `Requests.JsonEndpointsAuthenticate` | src/vectara/__init__.py:383-388 | Corpus creation, reset and query requests carry the customer id and the bearer token and no API key |
| `Http.Transport.Post` | src/vectara/__init__.py:105-108 | Posting appends the request to the trace and returns the platform's reply to it |
| `QueryResult.Elements` | src/vectara/__init__.py:439 | Iterating a list visits its items and a string its one-character strings, in order; an empty dict visits nothing and any other dict raises TypeError; null, bool and numbers raise TypeError |
| `QueryResult.CollectMatches` | src/vectara/__init__.py:439-455 | The loop's result is the matches of the elements, in order, or the first element's failure |
| `QueryResult.PostProcessQueryResult` | src/vectara/__init__.py:412-468 | The function normalises the reply, then selects Markdown, JSON or nothing by the lower-cased format |
| `QueryResult.PostProcessFailsAsNormalize` | src/vectara/__init__.py:457-468 | The format only chooses the rendering: the function fails exactly when the reply does not normalise, with the same error |
| `QueryResult.MatchesOfPerElement` | src/vectara/__init__.py:439-449 | The loop succeeds exactly when every element yields a match, and then gives one match per element, in order |
| `QueryResult.MatchesOfFirstFailure` | src/vectara/__init__.py:439-455 | When the loop fails, it fails with the error of the first element that yields no match |
| `QueryResult.MatchNamesIndexedDocument` | src/vectara/__init__.py:440-447 | A match's document name is the `id` of the document its `documentIndex` selects, that index in range, and its text is the element's `text` |
| `QueryResult.MatchOfSucceeds` | src/vectara/__init__.py:439-454 | A passage yields a match exactly when its `documentIndex`, the reply's `document` list, the document that index selects, that document's `id`, the passage's `text` and `score` can all be looked up and the text is a string; the match then holds the index, the `id` and the text |
| `QueryResult.SummaryOfSucceeds` | src/vectara/__init__.py:427-429 | The summary is found exactly when `summary[0]['text']` can be looked up and is a string, and it is that string |
| `QueryResult.NormalizeSucceeds` | src/vectara/__init__.py:425-449 | A reply normalises exactly when its first response set is reached, its summary is found, its `response` can be iterated and every passage yields a match |
| `QueryResult.NormalizeShape` | src/vectara/__init__.py:425-449 | The summary is `responseSet[0].summary[0].text`, and there is one match per element of `responseSet[0].response`, in order |
| `QueryResult.EmptySummaryRaises` | src/vectara/__init__.py:427 | An empty summary list raises IndexError |
| `QueryResult.ExampleMatch` | src/vectara/__init__.py:440-447 | A passage with `documentIndex` 0 against a document list whose first entry has id "doc-A" becomes a match naming "doc-A" |
| `QueryResult.SingleMatchExample` | src/vectara/__init__.py:437-449 | A reply with one passage from document 0, "doc-A", normalises to that summary and one match naming "doc-A" |
| `Client.Acquire` | src/vectara/__init__.py:105-121 | Acquiring sends exactly the token request; its result is the reply's `access_token`, which becomes the stored token, and a reply without that field, or that is not a dict, raises and changes nothing |
| `Client.Authorize` | src/vectara/__init__.py:132 | Outside command-line mode the stored token is used and nothing is sent; in command-line mode a token request is sent and its token stored |
| `Client.UploadFileRequests` | src/vectara/__init__.py:264-309 | One upload request, preceded in command-line mode by a token request, named by the description or by the path's base name when it is empty; a path that is not a file raises OSError after the token is fetched and before any upload; a list description raises AttributeError with no upload sent |
| `Client.Pairing` | src/vectara/__init__.py:320-324 | One pair per path, in order, with the base names as descriptions when there are fewer descriptions than paths and the given descriptions otherwise |
| `Client.Present` | src/vectara/__init__.py:323-326 | How many leading paths are files: all before it are, and the one at that position is not |
| `Client.UploadAllDirect` | src/vectara/__init__.py:323-326 | Outside command-line mode the loop posts one upload per pair, in order, up to the first path that is not a file, and the state does not change |
| `Client.UploadAllDirectResult` | src/vectara/__init__.py:323-326 | Outside command-line mode the loop succeeds exactly when every path is a file, and otherwise raises the OSError of the first path that is not one |
| `Client.CliUploads` | src/vectara/__init__.py:272-300 | The command-line requests for pairs that are all files number two per pair |
| `Client.CliUploadsAt` | src/vectara/__init__.py:272-300 | In those requests, pair `i` contributes a token request at position 2i and then, at 2i+1, its upload carrying the token the platform returned for that token request |
| `Client.UploadAllCli` | src/vectara/__init__.py:323-326 | In command-line mode, when every path is a file, the loop sends exactly `CliUploads` and succeeds |
| `Client.UploadAllCliStops` | src/vectara/__init__.py:323-326 | In command-line mode the loop sends the requests of the files before the first path that is not a file, then that turn's token request, and raises that path's OSError |
| `Client.UploadFilesDirect` | src/vectara/__init__.py:312-326 | When all paths are files, `upload_files` posts one upload per path, in order, named by its description, or by its base name when the description is empty or there are fewer descriptions than paths |
| `Client.FolderPaths` | src/vectara/__init__.py:334 | One path per listed entry, each the directory joined with the entry |
| `Client.UploadFolderNamesEntries` | src/vectara/__init__.py:329-336 | A folder of plain files is uploaded one file per entry, in listing order, each named by the entry's own name |
| `Client.DescriptionItems` | src/vectara/__init__.py:215-220 | A string description handed to the batch uploads is taken one character per item; a list is taken as it is |
| `Client.UploadStep` | src/vectara/__init__.py:202-222 | A file path is one `upload_file` with the description as given; a directory that is not a file is `upload_folder` with the description's items; a list of paths is `upload_files` with the description's items; a source that is neither a file, a directory nor a list sends nothing and raises nothing |
| `Client.UploadDirectoryNamesEntries` | src/vectara/__init__.py:210-215 | Outside command-line mode, `upload` on a directory of plain files with the default empty description succeeds and posts one upload per listed entry, in listing order, each the directory joined with the entry and named by the entry |
| `Client.CreateCorpusRequests` | src/vectara/__init__.py:124-163 | One creation request with the current token, after a token request in command-line mode; the result is the reply's `corpusId` on status 200, a KeyError when that is missing, and None on any other status |
| `Client.ResetCorpusRequests` | src/vectara/__init__.py:166-199 | One reset request for the corpus with the current token, after a token request in command-line mode; the call returns nothing whatever the status |
| `Client.QueryOutcome` | src/vectara/__init__.py:392-402 | `{}` on a status other than 200; on 200 the raw reply outside command-line mode, and in command-line mode None exactly when the reply normalises, else the normaliser's error |
| `Client.QueryRequests` | src/vectara/__init__.py:339-402 | One query request with the current token, after a token request in command-line mode; the result is `QueryOutcome` of the reply to it |
| `Settings.EnvGet` | src/vectara/__init__.py:44 | The environment's value when the variable is set, the default otherwise |
| `Settings.IsTrue` | src/vectara/__init__.py:54-55 | True exactly when the lower-cased text is "true", "yes" or "1", so only texts of length 1, 3 or 4 are true |
| `PyRuntime.Blank` | src/vectara/__init__.py:45 | The string is empty or every character is whitespace |
| `Requests.CreateCorpusRequest` | src/vectara/__init__.py:136-151 | Posted to `{base_url}/v1/create-corpus` with the customer id and bearer token; its JSON body's `corpus` holds the given name and description |
| `Requests.ResetCorpusRequest` | src/vectara/__init__.py:177-189 | Posted to `{base_url}/v1/reset-corpus` with the customer id and bearer token; its JSON body's `corpusId` is the corpus id |
| `Requests.UploadRequest` | src/vectara/__init__.py:276-300 | Posted to the upload URL with the bearer token and no customer-id header, as one multipart file part named `file`, with the given file name, the opened path and the octet-stream type |
| `Requests.QueryBody` | src/vectara/__init__.py:358-381 | The body holds exactly one query, whose fields are exactly the text, the number of results, the corpus key and the summary request |
| `Requests.QueryRequest` | src/vectara/__init__.py:358-390 | Posted to `{base_url}/v1/query` with the customer id and bearer token, carrying `QueryBody` as JSON |
| `QueryResult.AnswersOf` | src/vectara/__init__.py:425 | The first response set: KeyError when `responseSet` is missing, IndexError when it is empty, TypeError for a reply that is a list or null |
| `QueryResult.SummaryOf` | src/vectara/__init__.py:427 | On success, the text is the `text` of the first `summary` entry; KeyError when `summary` is missing, IndexError when it is empty |
| `QueryResult.MatchOf` | src/vectara/__init__.py:440-454 | On success the passage has `documentIndex`, `text` and `score`, the match's document index is its `documentIndex` and its text the passage's `text`; KeyError when `documentIndex` is missing, a failure when `score` is missing |
| `QueryResult.MatchesOf` | src/vectara/__init__.py:439-455 | On success one match per passage; when the first passage fails, that failure |
| `QueryResult.Normalize` | src/vectara/__init__.py:425-449 | A normalised reply has a `responseSet`; the summary is `SummaryOf` its first response set; a reply whose response set cannot be reached fails with that error |
| `QueryResult.PostProcess` | src/vectara/__init__.py:457-468 | Succeeds exactly when the reply normalises; the lower-cased format picks Markdown for "markdown", JSON for "json" and nothing otherwise |
| `Client.AccessToken` | src/vectara/__init__.py:110 | The reply's `access_token` when the body is a dict holding it; KeyError when the field is missing, TypeError when the body is not a dict |
| `Client.AccessTokenIsSubscript` | src/vectara/__init__.py:110 | `AccessToken` is the dict subscript on the decoded reply |
| `Client.UploadAll` | src/vectara/__init__.py:323-326 | The loop leaves a valid client with the same settings and mode; `UploadAllDirect`, `UploadAllDirectResult`, `UploadAllCli` and `UploadAllCliStops` state what it sends and returns |
| `Client.UploadLoopTurn` | src/vectara/__init__.py:323-326 | One turn of the loop keeps its invariant: the whole outcome is the requests sent so far followed by the outcome of the remaining pairs, and a raising turn is the outcome of the loop |
| `Client.CreateCorpusStep` | src/vectara/__init__.py:124-163 | Leaves a valid client with the same settings and mode; `CreateCorpusRequests` states its requests and result |
| `Client.ResetCorpusStep` | src/vectara/__init__.py:166-199 | Leaves a valid client with the same settings and mode; `ResetCorpusRequests` states its requests and result |
| `Client.UploadFileStep` | src/vectara/__init__.py:264-309 | Leaves a valid client with the same settings and mode; `UploadFileRequests` states its requests and result |
| `Client.UploadFilesStep` | src/vectara/__init__.py:312-326 | Leaves a valid client with the same settings and mode; `UploadFilesDirect` and the `UploadAll` lemmas state its requests and result |
| `Client.UploadFolderStep` | src/vectara/__init__.py:329-336 | Leaves a valid client with the same settings and mode; `UploadFolderNamesEntries` states its requests and result |
| `Client.QueryStep` | src/vectara/__init__.py:339-402 | Leaves a valid client with the same settings and mode; `QueryRequests` states its requests and result |
| `Client.Vectara.constructor` | src/vectara/__init__.py:62-66 | The client's fields hold the resolved settings and the mode |
| `Client.Vectara.New` | src/vectara/__init__.py:42-69 | A settings error raises before anything is sent; in command-line mode nothing is sent; otherwise exactly one token request is sent before anything else, and its failure is the constructor's |
| `Client.Vectara.AcquireJwtToken` | src/vectara/__init__.py:83-121 | Sends the token request and stores and returns the reply's token, as `Acquire` specifies |
| `Client.Vectara.CurrentToken` | src/vectara/__init__.py:132 | Returns the token each operation uses, as `Authorize` specifies |
| `Client.Vectara.CreateCorpus` | src/vectara/__init__.py:124-163 | Sends and returns what `CreateCorpusStep` specifies |
| `Client.Vectara.ResetCorpus` | src/vectara/__init__.py:166-199 | Sends and returns what `ResetCorpusStep` specifies |
| `Client.Vectara.UploadFile` | src/vectara/__init__.py:264-309 | Sends and returns what `UploadFileStep` specifies |
| `Client.Vectara.UploadFiles` | src/vectara/__init__.py:312-326 | Uploads the pairing of descriptions and paths, as `UploadFilesStep` specifies |
| `Client.Vectara.UploadPairs` | src/vectara/__init__.py:323-326 | The loop appends exactly the requests of `UploadAll` to the trace and stops at the first raising upload with its error |
| `Client.Vectara.UploadFolder` | src/vectara/__init__.py:329-336 | Lists the directory, or raises OSError for a path that is not one, then uploads its entries, as `UploadFolderStep` specifies |
| `Client.Vectara.Upload` | src/vectara/__init__.py:202-222 | Dispatches a file, a directory or a list of paths, as `UploadStep` specifies |
| `Client.Vectara.Query` | src/vectara/__init__.py:339-402 | Sends and returns what `QueryStep` specifies |
| `Client.Vectara.Answer` | src/vectara/__init__.py:392-402 | Returns `QueryOutcome` of the reply, normalising it in command-line mode |

## Left out

- Printing, `verbose`, the `tqdm` progress bar and Jupyter display only produce output. The model leaves them out.
- QueryResult.PostProcessQueryResult: returns the normalised record with the chosen rendering, not the rendered text. The Markdown text (`textwrap.wrap`, `md2text`, the numbering) and the fenced and re-encoded JSON text are not modelled. Only the failures these steps cause are kept: a summary or passage text that is not a string raises AttributeError.
- Client.Vectara.AcquireJwtToken: in command-line mode the source also writes the token to `.vectara_config` with `dotenv.set_key`. Files written by the client are not modelled.
- `requests.post` can fail (connection errors, timeouts), and a reply body might not be JSON. Neither is modelled: every reply has a status and a decoded JSON body.
- The bearer header keeps the token as the JSON value the platform returned. The text `f"Bearer {token}"` would give for a non-string token is not modelled.
- PyRuntime.IsSpace: its contract names a few characters on each side. The full list of characters `str.isspace` accepts is its definition, not its contract.
- PyRuntime.Lower: lower-cases A-Z and the Kelvin sign only, not the rest of Unicode. This is exact for the comparisons the client makes, against "true", "yes", "1", "markdown" and "json".
- JSON numbers with a fraction are modelled as reals, not as binary floating point. Only their identity matters here.
- File contents are not modelled. An upload names the path it opens. Which paths are files and which are directories, and what each directory lists, are given by a file-system value. Permissions, links and I/O errors while reading are not modelled.
- `upload_file_from_funix`, `query_funix` and the Funix decorators belong to the web front end. They are not part of this model.
- Client.UploadAllCli: stated only for a platform that answers every token request with a token. A failed token request ends the upload with its error; `Client.UploadFileRequests` states that case for one upload.
- Client.UploadAllCliStops: stated under the same assumption as `Client.UploadAllCli`.
- Client.UploadFilesDirect: stated outside command-line mode and for paths that are all files. `Client.UploadAllDirect`, `Client.UploadAllDirectResult`, `Client.UploadAllCli` and `Client.UploadAllCliStops` cover the other cases.
- Client.UploadFolderNamesEntries: stated outside command-line mode, with no descriptions, and for a directory whose entries are all files and contain no '/'.
- In command-line mode the source never sets the `jwt_token` attribute in `__init__`. The model holds that absent attribute as `None` until the first token request.
- `get_env` checks `result is None`. The model omits that check: environment values are strings, and the model types the arguments as strings.
- Default arguments are not modelled; callers pass them. The defaults are `top_k=5`, `lang='auto'`, `description=""`, `descriptions=[]`, `from_cli=False`, `format='markdown'` and `corpus_description=""`. The default base URL is represented as `Settings.DefaultBaseUrl`.
- Client.UploadFileStep: a list description given to `upload_file` becomes the multipart file name. The multipart encoder of `requests` then raises before anything is sent. The model raises AttributeError there, as urllib3 2.x does; urllib3 1.x raises TypeError instead. The encoder itself is not part of this model.
- QueryResult.Elements: a non-empty dict raises TypeError at once. Python iterates its keys, and the first key, a string, raises that same TypeError when the loop subscripts it with `'documentIndex'`.
- Requests.UploadUrl and Client.Described carry no contract of their own. `Requests.UploadUrlNamesCorpus` states the whole upload URL, and `Client.UploadFileRequests` states the file name `Described` gives.

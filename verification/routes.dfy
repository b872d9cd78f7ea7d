/**
  The `POST /api/translate` handler of app/routes.py with the web framework
  stripped away: a pure function from the decoded request body, the outside
  services it calls and the configured output directory and timestamp, to the
  response it returns and the calls it made on the way.
*/
module Routes {
  import opened Wrappers
  import opened Json
  import opened Router

  /** A selected translation backend with the request fields it is built from */
  datatype Backend =
    | Azure(endpoint: Value, credential: Value)
    | Google(projectId: Value)

  /** The services the handler calls but whose code is not part of this model:
      the page scraper, the Azure client constructor, the per-block translation
      call of either backend, and the markdown converter, which saves the file
      at the path it is given and returns the saved file's path. */
  datatype Env = Env(
    scrape: Value -> Result<seq<Block>, string>,
    openAzure: (Value, Value) -> Outcome<string>,
    translate: (Backend, string) -> Result<string, string>,
    convert: (seq<Block>, string) -> Result<string, string>)

  /** One call into an outside service */
  datatype Call =
    | Scrape(url: Value)
    | OpenAzure(endpoint: Value, credential: Value)
    | Translate(backend: Backend, text: string)
    | Convert(blocks: seq<Block>, path: string)

  /** A JSON error body with its status code, or the saved markdown file sent as an attachment */
  datatype Response =
    | Error(status: int, message: string)
    | Attachment(path: string)

  /** The response together with every outside call made, in order */
  datatype Handled = Handled(response: Response, calls: seq<Call>)

  const Ok := 200
  /** Section 15.5.1 of RFC 9110 */
  const BadRequest := 400
  /** Section 15.6.1 of RFC 9110 */
  const InternalServerError := 500

  function Status(r: Response): int {
    match r
    case Error(status, _) => status
    case Attachment(_) => Ok
  }

  const MissingBody := "Missing request body"
  const MissingUrl := "Missing 'url' in request body"
  const MissingAzure := "Missing 'azure_endpoint' or 'azure_credentials' in request body"
  const MissingGoogle := "Missing 'gcp_project_id' or 'google_app_creds' in request body"

  /** The message of the outer handler for any exception no inner handler catches */
  function Unexpected(e: string): string {
    "An unexpected error occurred: " + e
  }

  /** The `AttributeError` text for calling `.get` on a body that is not a dict */
  function NoGet(body: Value): string {
    "'" + TypeName(body) + "' object has no attribute 'get'"
  }

  function Unsupported(key: Option<Value>): string {
    "Translator '" + Str(key.GetOr(Null)) + "' not supported by the API."
  }

  /** The backend's name as it appears in a translation error */
  function Label(backend: Backend): string {
    match backend
    case Azure(_, _) => "Azure"
    case Google(_) => "Google"
  }

  function TranslationError(backend: Backend, e: string): string {
    "Error in " + Label(backend) + " translation: " + e
  }

  /** The file the markdown is written to: `<dir>/output-<timestamp>.md` */
  function OutputPath(dir: string, timestamp: string): string {
    dir + "/output-" + timestamp + ".md"
  }

  /** The timestamp embedded in `path`, if `path` names an output file of `dir` */
  function TimestampOf(dir: string, path: string): Option<string> {
    var prefix := dir + "/output-";
    if |path| >= |prefix| + 3 && path[..|prefix|] == prefix && path[|path| - 3..] == ".md"
    then Some(path[|prefix|..|path| - 3])
    else None
  }

  /** Reading the timestamp back from an output path gives the timestamp it was built from */
  lemma OutputPathRoundTrip(dir: string, timestamp: string)
    ensures TimestampOf(dir, OutputPath(dir, timestamp)) == Some(timestamp)
  {
    var prefix := dir + "/output-";
    var path := OutputPath(dir, timestamp);
    assert path == prefix + timestamp + ".md";
    assert path[..|prefix|] == prefix;
    assert path[|path| - 3..] == ".md";
    assert path[|prefix|..|path| - 3] == timestamp;
  }

  /** Every path `TimestampOf` accepts is the output path of the timestamp it reads */
  lemma TimestampOfInverts(dir: string, path: string, timestamp: string)
    requires TimestampOf(dir, path) == Some(timestamp)
    ensures OutputPath(dir, timestamp) == path
  {
    var prefix := dir + "/output-";
    assert path == path[..|prefix|] + path[|prefix|..|path| - 3] + path[|path| - 3..];
  }

  /** Two requests in one output directory share a file exactly when their timestamps agree */
  lemma OutputPathsCollideOnlyOnEqualTimestamps(dir: string, t1: string, t2: string)
    ensures OutputPath(dir, t1) == OutputPath(dir, t2) <==> t1 == t2
  {
    OutputPathRoundTrip(dir, t1);
    OutputPathRoundTrip(dir, t2);
  }

  /** The backend named by `translator_api` with its credentials, or the 400 message rejecting the request */
  function SelectBackend(fields: seq<(string, Value)>): (r: Result<Backend, string>)
    ensures r.Success? ==> Lookup(fields, "translator_api") in {Some(String("azure")), Some(String("google"))}
    ensures r.Success? && r.value.Azure? ==>
              Lookup(fields, "azure_endpoint") == Some(r.value.endpoint) && Truthy(r.value.endpoint) &&
              Lookup(fields, "azure_credentials") == Some(r.value.credential) && Truthy(r.value.credential)
    ensures r.Success? && r.value.Google? ==>
              Present(Lookup(fields, "google_app_creds")) &&
              Lookup(fields, "gcp_project_id") == Some(r.value.projectId) && Truthy(r.value.projectId)
    ensures r.Failure? ==> r.error in {MissingAzure, MissingGoogle, Unsupported(Lookup(fields, "translator_api"))}
    ensures Lookup(fields, "translator_api") == Some(String("azure")) ==>
              var endpoint, credential := Lookup(fields, "azure_endpoint"), Lookup(fields, "azure_credentials");
              r == if Present(endpoint) && Present(credential) then Success(Azure(endpoint.value, credential.value))
                   else Failure(MissingAzure)
    ensures Lookup(fields, "translator_api") == Some(String("google")) ==>
              var creds, project := Lookup(fields, "google_app_creds"), Lookup(fields, "gcp_project_id");
              r == if Present(creds) && Present(project) then Success(Google(project.value))
                   else Failure(MissingGoogle)
    ensures Lookup(fields, "translator_api") !in {Some(String("azure")), Some(String("google"))} ==>
              r == Failure(Unsupported(Lookup(fields, "translator_api")))
  {
    var key := Lookup(fields, "translator_api");
    if key == Some(String("azure")) then
      var endpoint := Lookup(fields, "azure_endpoint");
      var credential := Lookup(fields, "azure_credentials");
      if Present(endpoint) && Present(credential) then Success(Azure(endpoint.value, credential.value))
      else Failure(MissingAzure)
    else if key == Some(String("google")) then
      var creds := Lookup(fields, "google_app_creds");
      var project := Lookup(fields, "gcp_project_id");
      if Present(creds) && Present(project) then Success(Google(project.value))
      else Failure(MissingGoogle)
    else Failure(Unsupported(key))
  }

  /** The per-block translation call of `backend` */
  function TranslatorFor(env: Env, backend: Backend): Translator {
    text => env.translate(backend, text)
  }

  /** The trace of translating `texts` one after another */
  function TranslateCalls(backend: Backend, texts: seq<string>): (r: seq<Call>)
    ensures |r| == |texts|
    ensures forall i :: 0 <= i < |r| ==> r[i].Translate? && r[i].backend == backend
  {
    seq(|texts|, i requires 0 <= i < |texts| => Translate(backend, texts[i]))
  }

  /** The calls made once a backend is ready: the Azure constructor, if any */
  function Setup(backend: Backend): seq<Call> {
    if backend.Azure? then [OpenAzure(backend.endpoint, backend.credential)] else []
  }

  /** Markdown conversion and saving of the translated blocks */
  function Save(env: Env, translated: seq<Block>, dir: string, timestamp: string): Handled {
    var path := OutputPath(dir, timestamp);
    var calls := [Convert(translated, path)];
    match env.convert(translated, path)
    case Failure(e) => Handled(Error(InternalServerError, "Error in Markdown formatting: " + e), calls)
    case Success(saved) => Handled(Attachment(saved), calls)
  }

  /** Everything after a successful scrape: backend selection, translation, conversion */
  function AfterScrape(fields: seq<(string, Value)>, blocks: seq<Block>, env: Env, dir: string, timestamp: string): Handled {
    match SelectBackend(fields)
    case Failure(message) => Handled(Error(BadRequest, message), [])
    case Success(backend) =>
      var connected := if backend.Azure? then env.openAzure(backend.endpoint, backend.credential) else Pass;
      if connected.Fail? then Handled(Error(InternalServerError, Unexpected(connected.error)), Setup(backend))
      else
        var routed := Route(blocks, TranslatorFor(env, backend));
        var calls := Setup(backend) + TranslateCalls(backend, routed.sent);
        match routed.result
        case Failure(e) => Handled(Error(InternalServerError, TranslationError(backend, e)), calls)
        case Success(translated) =>
          var saved := Save(env, translated, dir, timestamp);
          Handled(saved.response, calls + saved.calls)
  }

  /** The whole handler, checks in source order: body, url, scrape, backend key, credentials */
  function Handle(body: Value, env: Env, dir: string, timestamp: string): (h: Handled)
    ensures Status(h.response) in {Ok, BadRequest, InternalServerError}
    ensures h.response.Attachment? ==> |h.calls| > 0 && h.calls[|h.calls| - 1].Convert?
  {
    if !Truthy(body) then Handled(Error(BadRequest, MissingBody), [])
    else if !body.Object? then Handled(Error(InternalServerError, Unexpected(NoGet(body))), [])
    else
      var url := Lookup(body.fields, "url");
      if !Present(url) then Handled(Error(BadRequest, MissingUrl), [])
      else
        match env.scrape(url.value)
        case Failure(e) => Handled(Error(InternalServerError, "Error in scraper: " + e), [Scrape(url.value)])
        case Success(blocks) =>
          var rest := AfterScrape(body.fields, blocks, env, dir, timestamp);
          Handled(rest.response, [Scrape(url.value)] + rest.calls)
  }

  // Properties of the handler

  /** The blocks `bs` are the complete translation of the page the request names,
      by the backend the request selects */
  ghost predicate FullyTranslated(body: Value, env: Env, bs: seq<Block>) {
    && body.Object?
    && var url := Lookup(body.fields, "url");
    && Present(url)
    && env.scrape(url.value).Success?
    && SelectBackend(body.fields).Success?
    && TranslatesTo(env.scrape(url.value).value, bs, TranslatorFor(env, SelectBackend(body.fields).value))
  }

  /** The request is one the handler answers with 400 */
  ghost predicate Rejected(body: Value, env: Env) {
    || !Truthy(body)
    || (&& body.Object?
        && var url := Lookup(body.fields, "url");
        || !Present(url)
        || (env.scrape(url.value).Success? && SelectBackend(body.fields).Failure?))
  }

  /** A falsy body (`null`, `{}`, `[]`, `""`, `0`, `false`) is refused before anything else is attempted */
  lemma FalsyBodyRejected(body: Value, env: Env, dir: string, timestamp: string)
    requires !Truthy(body)
    ensures Handle(body, env, dir, timestamp) == Handled(Error(BadRequest, MissingBody), [])
  {
  }

  /** A truthy body that is not an object fails on `data.get` and reaches the outer handler */
  lemma NonObjectBodyUnexpected(body: Value, env: Env, dir: string, timestamp: string)
    requires Truthy(body) && !body.Object?
    ensures Handle(body, env, dir, timestamp) ==
            Handled(Error(InternalServerError, Unexpected("'" + TypeName(body) + "' object has no attribute 'get'")), [])
  {
  }

  /** A missing or falsy `url` is refused before the scraper is called */
  lemma MissingUrlRejectedBeforeScraping(fields: seq<(string, Value)>, env: Env, dir: string, timestamp: string)
    requires |fields| > 0
    requires !Present(Lookup(fields, "url"))
    ensures Handle(Object(fields), env, dir, timestamp) == Handled(Error(BadRequest, MissingUrl), [])
  {
    assert Truthy(Object(fields));
  }

  /** A scraper failure is answered with 500 whatever `translator_api` holds, even an unsupported key */
  lemma ScrapeFailureTakesPrecedence(fields: seq<(string, Value)>, url: Value, env: Env, dir: string, timestamp: string)
    requires Lookup(fields, "url") == Some(url) && Truthy(url)
    requires env.scrape(url).Failure?
    ensures Handle(Object(fields), env, dir, timestamp) ==
            Handled(Error(InternalServerError, "Error in scraper: " + env.scrape(url).error), [Scrape(url)])
  {
    assert Truthy(Object(fields));
  }

  /** A `translator_api` other than "azure" or "google" (or none) is refused after scraping,
      naming the key, and no backend is contacted */
  lemma UnsupportedTranslatorRejected(fields: seq<(string, Value)>, url: Value, env: Env, dir: string, timestamp: string)
    requires Lookup(fields, "url") == Some(url) && Truthy(url)
    requires env.scrape(url).Success?
    requires Lookup(fields, "translator_api") !in {Some(String("azure")), Some(String("google"))}
    ensures Handle(Object(fields), env, dir, timestamp) ==
            Handled(Error(BadRequest, "Translator '" + Str(Lookup(fields, "translator_api").GetOr(Null)) +
                                      "' not supported by the API."), [Scrape(url)])
  {
    assert Truthy(Object(fields));
  }

  /** A known backend without both of its credential fields is refused, and no backend is contacted */
  lemma MissingCredentialsRejected(fields: seq<(string, Value)>, url: Value, env: Env, dir: string, timestamp: string)
    requires Lookup(fields, "url") == Some(url) && Truthy(url)
    requires env.scrape(url).Success?
    ensures Lookup(fields, "translator_api") == Some(String("azure")) &&
            !(Present(Lookup(fields, "azure_endpoint")) && Present(Lookup(fields, "azure_credentials"))) ==>
              Handle(Object(fields), env, dir, timestamp) == Handled(Error(BadRequest, MissingAzure), [Scrape(url)])
    ensures Lookup(fields, "translator_api") == Some(String("google")) &&
            !(Present(Lookup(fields, "google_app_creds")) && Present(Lookup(fields, "gcp_project_id"))) ==>
              Handle(Object(fields), env, dir, timestamp) == Handled(Error(BadRequest, MissingGoogle), [Scrape(url)])
  {
    assert Truthy(Object(fields));
  }

  /** A failing Azure client constructor escapes to the outer handler before any block is translated */
  lemma AzureClientFailureUnexpected(fields: seq<(string, Value)>, url: Value, endpoint: Value, credential: Value,
                                     env: Env, dir: string, timestamp: string)
    requires Lookup(fields, "url") == Some(url) && Truthy(url)
    requires env.scrape(url).Success?
    requires SelectBackend(fields) == Success(Azure(endpoint, credential))
    requires env.openAzure(endpoint, credential).Fail?
    ensures Handle(Object(fields), env, dir, timestamp) ==
            Handled(Error(InternalServerError, Unexpected(env.openAzure(endpoint, credential).error)),
                    [Scrape(url), OpenAzure(endpoint, credential)])
  {
    assert Truthy(Object(fields));
  }

  /** If block `k` is the first whose translation fails, the request fails with 500 naming the backend,
      blocks after `k` are never sent, and no markdown is produced */
  lemma TranslationFailureAborts(fields: seq<(string, Value)>, url: Value, blocks: seq<Block>, backend: Backend, k: int,
                                 env: Env, dir: string, timestamp: string)
    requires Lookup(fields, "url") == Some(url) && Truthy(url)
    requires env.scrape(url) == Success(blocks)
    requires SelectBackend(fields) == Success(backend)
    requires backend.Azure? ==> env.openAzure(backend.endpoint, backend.credential).Pass?
    requires FirstFailureAt(blocks, TranslatorFor(env, backend), k)
    ensures Handle(Object(fields), env, dir, timestamp) ==
            Handled(Error(InternalServerError, TranslationError(backend, env.translate(backend, blocks[k].content).error)),
                    [Scrape(url)] + Setup(backend) + TranslateCalls(backend, TextsToTranslate(blocks[..k + 1])))
  {
    HandleAfterScrape(fields, url, env, dir, timestamp);
    AfterScrapeTranslationFails(fields, blocks, backend, k, env, dir, timestamp);
    Regroup([Scrape(url)], Setup(backend), TranslateCalls(backend, TextsToTranslate(blocks[..k + 1])));
  }

  /** After scraping: the first refused block ends the request before conversion */
  lemma AfterScrapeTranslationFails(fields: seq<(string, Value)>, blocks: seq<Block>, backend: Backend, k: int,
                                    env: Env, dir: string, timestamp: string)
    requires SelectBackend(fields) == Success(backend)
    requires backend.Azure? ==> env.openAzure(backend.endpoint, backend.credential).Pass?
    requires FirstFailureAt(blocks, TranslatorFor(env, backend), k)
    ensures AfterScrape(fields, blocks, env, dir, timestamp) ==
            Handled(Error(InternalServerError, TranslationError(backend, env.translate(backend, blocks[k].content).error)),
                    Setup(backend) + TranslateCalls(backend, TextsToTranslate(blocks[..k + 1])))
  {
    RouteStopsAtFirstFailure(blocks, TranslatorFor(env, backend), k);
  }

  /** Regrouping a trace built from four parts */
  lemma Regroup(a: seq<Call>, b: seq<Call>, c: seq<Call>)
    ensures a + (b + c) == a + b + c
  {
  }

  /** Once the scrape succeeds, the rest of the handler is `AfterScrape` */
  lemma HandleAfterScrape(fields: seq<(string, Value)>, url: Value, env: Env, dir: string, timestamp: string)
    requires Lookup(fields, "url") == Some(url) && Truthy(url)
    requires env.scrape(url).Success?
    ensures var rest := AfterScrape(fields, env.scrape(url).value, env, dir, timestamp);
            Handle(Object(fields), env, dir, timestamp) == Handled(rest.response, [Scrape(url)] + rest.calls)
  {
    assert Truthy(Object(fields));
  }

  /** With a selected backend that accepts every block, the complete translation goes to the converter */
  lemma AfterScrapeSucceeds(fields: seq<(string, Value)>, blocks: seq<Block>, backend: Backend, translated: seq<Block>,
                            env: Env, dir: string, timestamp: string)
    requires SelectBackend(fields) == Success(backend)
    requires backend.Azure? ==> env.openAzure(backend.endpoint, backend.credential).Pass?
    requires TranslatesTo(blocks, translated, TranslatorFor(env, backend))
    ensures var h := AfterScrape(fields, blocks, env, dir, timestamp);
            var path := OutputPath(dir, timestamp);
            && h.calls == Setup(backend) + TranslateCalls(backend, TextsToTranslate(blocks)) + [Convert(translated, path)]
            && h.response == match env.convert(translated, path)
                             case Success(saved) => Attachment(saved)
                             case Failure(e) => Error(InternalServerError, "Error in Markdown formatting: " + e)
  {
    TranslationIsUnique(blocks, translated, TranslatorFor(env, backend));
  }

  /** When every block translates, the complete translation is converted at the output path
      and the saved file is sent back */
  lemma SuccessfulTranslation(fields: seq<(string, Value)>, url: Value, blocks: seq<Block>, backend: Backend,
                              translated: seq<Block>, saved: string, env: Env, dir: string, timestamp: string)
    requires Lookup(fields, "url") == Some(url) && Truthy(url)
    requires env.scrape(url) == Success(blocks)
    requires SelectBackend(fields) == Success(backend)
    requires backend.Azure? ==> env.openAzure(backend.endpoint, backend.credential).Pass?
    requires TranslatesTo(blocks, translated, TranslatorFor(env, backend))
    requires env.convert(translated, OutputPath(dir, timestamp)) == Success(saved)
    ensures Handle(Object(fields), env, dir, timestamp) ==
            Handled(Attachment(saved), [Scrape(url)] + Setup(backend) + TranslateCalls(backend, TextsToTranslate(blocks))
                                       + [Convert(translated, OutputPath(dir, timestamp))])
  {
    HandleAfterScrape(fields, url, env, dir, timestamp);
    AfterScrapeSucceeds(fields, blocks, backend, translated, env, dir, timestamp);
    var setup, sends := Setup(backend), TranslateCalls(backend, TextsToTranslate(blocks));
    var convert := [Convert(translated, OutputPath(dir, timestamp))];
    Regroup([Scrape(url)], setup + sends, convert);
    Regroup([Scrape(url)], setup, sends);
  }

  /** A converter failure after a complete translation is answered with 500 */
  lemma MarkdownFailure(fields: seq<(string, Value)>, url: Value, blocks: seq<Block>, backend: Backend,
                        translated: seq<Block>, env: Env, dir: string, timestamp: string)
    requires Lookup(fields, "url") == Some(url) && Truthy(url)
    requires env.scrape(url) == Success(blocks)
    requires SelectBackend(fields) == Success(backend)
    requires backend.Azure? ==> env.openAzure(backend.endpoint, backend.credential).Pass?
    requires TranslatesTo(blocks, translated, TranslatorFor(env, backend))
    requires env.convert(translated, OutputPath(dir, timestamp)).Failure?
    ensures Handle(Object(fields), env, dir, timestamp).response ==
            Error(InternalServerError, "Error in Markdown formatting: " + env.convert(translated, OutputPath(dir, timestamp)).error)
  {
    HandleAfterScrape(fields, url, env, dir, timestamp);
    AfterScrapeSucceeds(fields, blocks, backend, translated, env, dir, timestamp);
  }

  /** After scraping, a conversion call can only be the last call and only carries the complete translation */
  lemma AfterScrapeConvertsLast(fields: seq<(string, Value)>, blocks: seq<Block>, env: Env, dir: string, timestamp: string)
    ensures var h := AfterScrape(fields, blocks, env, dir, timestamp);
            forall i :: 0 <= i < |h.calls| && h.calls[i].Convert? ==>
              && i == |h.calls| - 1
              && SelectBackend(fields).Success?
              && TranslatesTo(blocks, h.calls[i].blocks, TranslatorFor(env, SelectBackend(fields).value))
              && h.calls[i].path == OutputPath(dir, timestamp)
  {
    var h := AfterScrape(fields, blocks, env, dir, timestamp);
    if SelectBackend(fields).Success? {
      var backend := SelectBackend(fields).value;
      var routed := Route(blocks, TranslatorFor(env, backend));
      var prefix := Setup(backend) + TranslateCalls(backend, routed.sent);
      assert forall i :: 0 <= i < |prefix| ==> !prefix[i].Convert?;
    }
  }

  /** All or nothing: the converter is called at most once, as the last call, and only with the
      complete translation of the scraped page at the output path */
  lemma ConvertOnlyAfterCompleteTranslation(body: Value, env: Env, dir: string, timestamp: string)
    ensures var h := Handle(body, env, dir, timestamp);
            forall i :: 0 <= i < |h.calls| && h.calls[i].Convert? ==>
              && i == |h.calls| - 1
              && FullyTranslated(body, env, h.calls[i].blocks)
              && h.calls[i].path == OutputPath(dir, timestamp)
  {
    var h := Handle(body, env, dir, timestamp);
    if Truthy(body) && body.Object? && Present(Lookup(body.fields, "url"))
       && env.scrape(Lookup(body.fields, "url").value).Success? {
      var url := Lookup(body.fields, "url").value;
      var rest := AfterScrape(body.fields, env.scrape(url).value, env, dir, timestamp);
      AfterScrapeConvertsLast(body.fields, env.scrape(url).value, env, dir, timestamp);
      assert h.calls == [Scrape(url)] + rest.calls;
      forall i | 0 <= i < |h.calls| && h.calls[i].Convert?
        ensures i == |h.calls| - 1
        ensures FullyTranslated(body, env, h.calls[i].blocks)
        ensures h.calls[i].path == OutputPath(dir, timestamp)
      {
        assert h.calls[i] == rest.calls[i - 1];
      }
    }
  }

  /** The request is answered with 400 exactly when it is malformed: a falsy body, no url, or,
      after a successful scrape, an unsupported backend or missing credentials */
  lemma BadRequestExactlyWhenRejected(body: Value, env: Env, dir: string, timestamp: string)
    ensures Status(Handle(body, env, dir, timestamp).response) == BadRequest <==> Rejected(body, env)
  {
  }

  /** The request with an unsupported translator from the API tests, against a working scraper */
  lemma UnsupportedTranslatorScenario(url: string, env: Env, dir: string, timestamp: string)
    requires |url| > 0
    requires env.scrape(String(url)).Success?
    ensures var body := Object([("url", String(url)), ("translator_api", String("unsupported"))]);
            Handle(body, env, dir, timestamp).response ==
            Error(BadRequest, "Translator '" + "unsupported" + "' not supported by the API.")
  {
    var fields := [("url", String(url)), ("translator_api", String("unsupported"))];
    LookupAppend([], "url", String(url), "url");
    LookupAppend([], "url", String(url), "translator_api");
    LookupAppend([("url", String(url))], "translator_api", String("unsupported"), "url");
    LookupAppend([("url", String(url))], "translator_api", String("unsupported"), "translator_api");
    assert [("url", String(url))] + [("translator_api", String("unsupported"))] == fields;
    UnsupportedTranslatorRejected(fields, String(url), env, dir, timestamp);
    var key := Lookup(fields, "translator_api").GetOr(Null);
    assert key == String("unsupported");
    assert Str(key) == "unsupported";
  }

  /** The members of the Azure request from the API tests, as `data.get` reads them */
  lemma AzureRequestFields(url: string, endpoint: string, credential: string)
    ensures var fields := [("url", String(url)), ("translator_api", String("azure")),
                           ("azure_endpoint", String(endpoint)), ("azure_credentials", String(credential))];
            && Lookup(fields, "url") == Some(String(url))
            && Lookup(fields, "translator_api") == Some(String("azure"))
            && Lookup(fields, "azure_endpoint") == Some(String(endpoint))
            && Lookup(fields, "azure_credentials") == Some(String(credential))
  {
    var f1 := [("url", String(url))];
    var f2 := f1 + [("translator_api", String("azure"))];
    var f3 := f2 + [("azure_endpoint", String(endpoint))];
    var fields := f3 + [("azure_credentials", String(credential))];
    LookupAppend([], "url", String(url), "url");
    assert [] + f1 == f1;
    LookupAppend(f1, "translator_api", String("azure"), "url");
    LookupAppend(f1, "translator_api", String("azure"), "translator_api");
    LookupAppend(f2, "azure_endpoint", String(endpoint), "url");
    LookupAppend(f2, "azure_endpoint", String(endpoint), "translator_api");
    LookupAppend(f2, "azure_endpoint", String(endpoint), "azure_endpoint");
    LookupAppend(f3, "azure_credentials", String(credential), "url");
    LookupAppend(f3, "azure_credentials", String(credential), "translator_api");
    LookupAppend(f3, "azure_credentials", String(credential), "azure_endpoint");
    LookupAppend(f3, "azure_credentials", String(credential), "azure_credentials");
    assert fields == [("url", String(url)), ("translator_api", String("azure")),
                      ("azure_endpoint", String(endpoint)), ("azure_credentials", String(credential))];
  }

  /** The Azure request from the API tests succeeds when the scraper, the client, every translation
      and the converter succeed */
  lemma ValidAzureScenario(url: string, endpoint: string, credential: string, env: Env, dir: string, timestamp: string)
    requires |url| > 0 && |endpoint| > 0 && |credential| > 0
    requires env.scrape(String(url)).Success?
    requires env.openAzure(String(endpoint), String(credential)).Pass?
    requires forall text :: env.translate(Azure(String(endpoint), String(credential)), text).Success?
    requires forall bs: seq<Block>, path :: env.convert(bs, path).Success?
    ensures var body := Object([("url", String(url)), ("translator_api", String("azure")),
                                ("azure_endpoint", String(endpoint)), ("azure_credentials", String(credential))]);
            Status(Handle(body, env, dir, timestamp).response) == Ok
  {
    var fields := [("url", String(url)), ("translator_api", String("azure")),
                   ("azure_endpoint", String(endpoint)), ("azure_credentials", String(credential))];
    AzureRequestFields(url, endpoint, credential);
    var backend := Azure(String(endpoint), String(credential));
    assert SelectBackend(fields) == Success(backend);
    var blocks := env.scrape(String(url)).value;
    var routed := Route(blocks, TranslatorFor(env, backend));
    assert routed.result.Success?;
    var saved := env.convert(routed.result.value, OutputPath(dir, timestamp)).value;
    SuccessfulTranslation(fields, String(url), blocks, backend, routed.result.value, saved, env, dir, timestamp);
  }
}

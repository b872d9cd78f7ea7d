# Web-page translation request handler, modelled in Dafny

The service behind `POST /api/translate` fetches a web page and turns it into an
ordered list of blocks (`{'type': …, 'content': …}`). It translates every
non-image block through a translation backend (Azure or Google) and returns the
result as a downloadable markdown file. This project models the request handler
`transcribe_video` in `app/routes.py` as a pure function. Its inputs are the
decoded JSON body, the outside services as function values, the output
directory and the timestamp. Its output is the HTTP response (an error status
and message, or the saved file) together with the ordered trace of outside
calls it made.

- `wrappers.dfy`: `Option`, `Result` and `Outcome`.
- `json.dfy` (module `Json`): the decoded request body. It covers Python
  truthiness (`if not data`, `if data.get(k)`), `data.get`, and the `str()`
  rendering an f-string uses.
- `router.dfy` (module `Router`): the per-block translation loop that both
  backends share. It exists once as a fold (`Route`) and once as the loop as
  written (`RouteLoop`). Both are proved against an independent pointwise
  specification (`TranslatesTo`, `AllAccepted`, `FirstFailureAt`).
- `routes.dfy` (module `Routes`): the handler (`Handle`) and its parts. The
  checks run in source order: body, url, scrape, backend key, credentials,
  Azure client, translation, markdown conversion. The module also holds the
  output path and the lemmas about error precedence, the calls made, and
  all-or-nothing output.

The scraper, the Azure client constructor, the two translation calls and the
markdown converter are not part of this model. They appear as the fields of
`Routes.Env`, and each either returns a value or fails with the text of its
exception. The clock (`time.strftime`) and the `FLASK_OUTPUT_DIR` setting are
parameters: `timestamp` and `dir`.

Behaviour of the code worth noting:

- A falsy decoded body (`null`, `{}`, `[]`, `""`, `0`, `false`) gets the code's
  own 400 "Missing request body". The 500 for a request that carries no JSON at
  all comes from the framework's body parsing, which is not modelled.
- A truthy body that is not an object (`[1]`, `"x"`, `true`) is malformed input,
  but the code answers it with 500. `data.get` raises `AttributeError` there,
  and the outer handler catches it.
- A failing Azure client constructor (app/routes.py:54) is outside the inner
  `try`. It therefore produces "An unexpected error occurred: …", not a
  translation error.
- A translation failure reports only the backend's message, not which block
  failed.
- Block types are free strings. Only the type `"image"` is treated specially.
  A non-image block is rebuilt with just its type and translated content.
- The Google backend is built from the block text and `gcp_project_id` only.
  `google_app_creds` must be present and truthy, but its value is never used.

## Model

| member | source | states |
|---|---|---|
| Json.Lookup | app/routes.py:34 | `data.get(key)` is `None` exactly when no member has the key; otherwise it is the value of a member with that key |
| Json.LookupFindsLast | app/routes.py:34 | the value `data.get` returns belongs to the last member with the key, as the JSON decoder keeps it |
| Router.Route | app/routes.py:57-66 | routing succeeds iff the backend accepts every non-image block. On success the output has the input's length and order, image blocks are identical, every other block keeps its type and carries the backend's translation of its content, and the backend receives exactly the non-image contents in document order |
| Router.RouteLoop | app/routes.py:78-88 | the loop as written meets the same specification. It returns at the first refused block with that call's error, after sending exactly the non-image contents up to and including that block. It agrees with `Route` |
| Router.RouteStopsAtFirstFailure | app/routes.py:59-64 | if block k is the first refused block, routing fails with block k's error and no block after k reaches the backend |
| Router.FirstFailureExists | app/routes.py:57-64 | if some non-image block is refused, there is a first refused block, so every failing run ends at a definite block |
| Router.TranslationIsUnique | app/routes.py:57-66 | any block list that is a pointwise translation of the input is the one routing returns (the converse of `Route`'s success clause) |
| Router.TextsToTranslateMembers | app/routes.py:57-60 | a text is handed to the backend exactly when it is the content of some non-image block |
| Router.TextsAppend | app/routes.py:57-58 | the texts sent for a concatenation are the texts sent for each part, in order |
| Routes.SelectBackend | app/routes.py:50-96 | a backend is selected exactly for the key "azure" with truthy `azure_endpoint` and `azure_credentials` (an Azure backend carrying those two values) or the key "google" with truthy `google_app_creds` and `gcp_project_id` (a Google backend carrying the project id). "azure" with a missing credential gets the Azure message, "google" with a missing credential gets the Google message, and any other key, or none, gets the message naming `str()` of the key |
| Json.NaturalDenotes | app/routes.py:94-96 | the decimal digits `str()` writes for a non-negative integer key read back as that integer |
| Routes.Handle | app/routes.py:22-113 | the status is always 200, 400 or 500. A file is returned only after a conversion call, which is the last call made |
| Routes.FalsyBodyRejected | app/routes.py:30-32 | a falsy body gets 400 "Missing request body" and no outside call is made |
| Routes.NonObjectBodyUnexpected | app/routes.py:34 | a truthy body that is not an object gets 500 "An unexpected error occurred: '<type>' object has no attribute 'get'", with no outside call |
| Routes.MissingUrlRejectedBeforeScraping | app/routes.py:34-36 | an object body without a truthy `url` gets 400 "Missing 'url' in request body" before the scraper is called |
| Routes.ScrapeFailureTakesPrecedence | app/routes.py:41-47 | a scraper failure gets 500 "Error in scraper: <e>" after the scrape call alone, whatever `translator_api` holds, so an unsupported key with a failing scrape is a 500 |
| Routes.UnsupportedTranslatorRejected | app/routes.py:93-96 | after a successful scrape, a key other than "azure" or "google" (or none) gets 400 "Translator '<key>' not supported by the API." and no backend is contacted |
| Routes.MissingCredentialsRejected | app/routes.py:67-91 | "azure" without truthy `azure_endpoint` and `azure_credentials`, or "google" without truthy `google_app_creds` and `gcp_project_id`, gets the matching 400 message and no translation call |
| Routes.AzureClientFailureUnexpected | app/routes.py:54 | a failing Azure client constructor gets 500 "An unexpected error occurred: <e>" before any block is translated |
| Routes.TranslationFailureAborts | app/routes.py:57-64 | when block k is the first refused block, the response is 500 "Error in <Azure or Google> translation: <e>". The calls are the scrape, the client setup and the translations of the non-image blocks up to k, and there is no conversion |
| Routes.AfterScrapeTranslationFails | app/routes.py:78-86 | the same abort, stated for the stage after scraping |
| Routes.HandleAfterScrape | app/routes.py:41-50 | after a successful scrape, the response and calls are those of backend selection, translation and conversion, preceded by the scrape call |
| Routes.AfterScrapeSucceeds | app/routes.py:98-104 | when every block is accepted, the complete translation is handed to the converter at the output path, after the translation calls |
| Routes.SuccessfulTranslation | app/routes.py:98-109 | when every block is accepted and the converter saves the file, the saved file is returned. The trace is the scrape, the setup, one translation per non-image block in order, and one conversion |
| Routes.MarkdownFailure | app/routes.py:99-107 | a converter failure after a complete translation gets 500 "Error in Markdown formatting: <e>" |
| Routes.AfterScrapeConvertsLast | app/routes.py:98-104 | after scraping, a conversion call can only be the last call, and it carries the complete translation at the output path |
| Routes.ConvertOnlyAfterCompleteTranslation | app/routes.py:57-107 | all or nothing: the converter is called at most once, as the last call, and only with the complete translation of the scraped page by the selected backend, at the output path |
| Routes.BadRequestExactlyWhenRejected | app/routes.py:30-96 | the status is 400 exactly when the body is falsy, the url is missing, or (after a successful scrape) the backend key is unsupported or its credentials are missing |
| Routes.OutputPathRoundTrip | app/routes.py:100-101 | the timestamp can be read back from the output path `<dir>/output-<timestamp>.md` |
| Routes.TimestampOfInverts | app/routes.py:101 | every path from which a timestamp can be read is the output path of that timestamp |
| Routes.OutputPathsCollideOnlyOnEqualTimestamps | app/routes.py:100-101 | two requests in one directory write the same file exactly when their timestamps are equal |
| Routes.UnsupportedTranslatorScenario | tests/test_api.py:23-30 | the test request with `translator_api` "unsupported" and a working scraper gets 400 "Translator 'unsupported' not supported by the API." |
| Routes.ValidAzureScenario | tests/test_api.py:13-21 | the test's Azure request gets 200 when the scraper, client, translations and converter all succeed |
| Routes.AzureRequestFields | tests/test_api.py:14-19 | `data.get` on the Azure test request returns each of its four fields |

## Left out

- Flask plumbing (`request.get_json`, `jsonify`, `send_file`, `render_template`, the `/` route, 404 handling). It is framework behaviour. The test at tests/test_api.py:9-11 depends on `get_json` raising for a request without JSON, so it is not modelled.
- The scraper, the Azure and Google translator classes and the markdown converter. Their code is not part of this model, so they are `Routes.Env` functions. This makes them deterministic functions of their arguments: the same text always gets the same translation or the same error. Per-call variation, such as a transient failure on the second occurrence of a repeated text, is not modelled, and `Router.Route`'s "succeeds iff every non-image block is accepted" and `Router.TranslationIsUnique` rely on it.
- Logging (app/routes.py:12-13, and every `logging` call). It has no effect on the response.
- `time.strftime("%Y%m%d-%H%M%S")` and `os.getenv("FLASK_OUTPUT_DIR", "/app/outputs")`. The timestamp and the output directory are parameters.
- A failure of `send_file` itself (app/routes.py:109) is not modelled. The returned attachment is the converter's saved path.
- JSON numbers are integers. Floats, and their truthiness and `str()`, are not modelled.
- Json.Repr: lists and dicts inside an unsupported-key message are rendered without Python's escaping and quote selection for strings, and a dict with repeated keys is shown with every member. Such keys do not occur in well-formed requests.
- Blocks are modelled with `type` and `content` only. Any further keys a scraper might add are not modelled, and neither are blocks missing one of the two keys.

# sync-github Updater, modelled in Dafny

sync-github copies the repositories of a GitHub organisation to another HTTP
API. Its `Updater` class (lib/updater.js) does four things:

- It validates a settings object with a `github` section and an `api` section.
- It pages through `GET <github.base_url>/orgs/<org>/repos?page=<n>&per_page=…`.
- It cuts every repository record down to nine fields.
- It POSTs each page as one batch to `<api.base_url>/repos`, optionally with an `x-api-key` header. It stops at the first empty page.

The model has six modules, one per file:

- `NumberText` (number_text.dfy): the decimal text JavaScript writes for an integer (`${n}`) and `parseInt(text, 10)`. It proves that one reads back the other.
- `JsValue` (js_value.dfy): the JavaScript values the updater sees, with truthiness, `_.isObject`, property reads and `parseInt` on any value.
- `Settings` (settings.dfy): the constructor's checks. `FirstFailing` is the check the constructor throws for, as its `if` statements in source order. Its contract ties that to an independent statement: the reported check fails, and every check earlier in rank passes.
- `Projection` (projection.dfy): lodash `_.pick` and `transformResponse`.
- `Transport` (transport.dfy): a recording HTTP double. It answers the k-th GET with the k-th scripted reply and an empty page after the script. It accepts or rejects the k-th POST as scripted, and logs every request in order.
- `Sync` (updater.dfy): the `Updater` class itself.
  - The class keeps the settings fields as constants and the page cursor `batchOffset` as a mutable field.
  - `Create`, `GithubFetch`, `GetBatch`, `SaveRepos` and `Run` are methods on the transport.
  - `Expected` is the specification of a whole run: the steps it takes (fetch the page at an offset, post a batch), how it settles and the cursor it leaves. `Updater.Requests` turns steps into the request options the updater sends. `Run`'s loop is proved against both.
  - The lemmas about `Expected` give the run's behaviour in closed form.

Promises are sequential code here:
- A promise that resolves is `Resolved`, and one that rejects is `Rejected`.
- The recursion of `getBatchAndUpdate` through `.then` is the loop of `Run`.

## Model

| member | source | states |
|---|---|---|
| NumberText.ParseIntToString | lib/updater.js:68 | `parseInt` of the text `${n}` is n again, for every integer n |
| NumberText.IntToStringInjective | lib/updater.js:68 | distinct integers are written as distinct texts |
| Settings.FirstFailing | lib/updater.js:10-54 | the check the constructor throws for fails, every check that comes before it passes, and nothing is thrown exactly when every check passes |
| Settings.EarliestFailureReported | lib/updater.js:10-54 | conversely, a failing check whose predecessors all pass is the one thrown: the first failure wins |
| Settings.AcceptedIff | lib/updater.js:28-54 | construction succeeds iff settings is not null, both sections are objects, `api.base_url`, `github.base_url`, `org`, `client_id`, `client_secret` are non-empty strings, `api.key` is a string or falsy, and `batch_size` parses (zero and negatives pass) |
| Settings.SectionChecksFirst | lib/updater.js:12-18 | a non-object `github` section is reported whatever else is wrong, then a non-object `api` section |
| Sync.Updater.Create | lib/updater.js:10-59 | throws exactly the error of the first failing check, with its class and message; otherwise a fresh updater holding the settings' values, `saveUri = api.base_url + "/repos"`, cursor 1, and no request issued |
| Sync.Updater.constructor | lib/updater.js:56-58 | `saveUri` is the API base URL followed by `/repos`, with no query string, and `batchOffset` starts at 1 |
| Sync.GithubUrlDistinguishesPages | lib/updater.js:68 | two pages with different offsets never share a URL |
| Sync.GithubUrlKeepsBaseUrl | lib/updater.js:68 | the URL begins with the base URL exactly as given, followed by `/orgs/`; no slash is normalised, so a base URL ending in `/` gives `//orgs/` |
| Sync.Updater.GithubFetch | lib/updater.js:66-76 | one GET of the URL for that offset, with the User-Agent header, appended to the request log |
| Sync.Updater.GetBatch | lib/updater.js:79-91 | fetches at the current cursor; once a reply arrives the cursor grows by exactly one, whether the body parsed (the page) or not (undefined); a transport failure rejects and leaves the cursor |
| Sync.SaveRequestOptions | lib/updater.js:93-107 | POST to `saveUri` with the repos unchanged as body; an `x-api-key` header holding the key is present iff the key is truthy, and it is the only header |
| Sync.Updater.SaveRepos | lib/updater.js:93-108 | issues exactly those options and reports whether the POST succeeded |
| Projection.PickKeepsNamedProperties | lib/updater.js:112-122 | `_.pick` keeps exactly the object's properties that are named, values untouched; absent names stay absent |
| Projection.Transform | lib/updater.js:111-123 | the result's keys are the record's keys among the nine fixed names, and each kept value is unchanged |
| Projection.TransformIdempotent | lib/updater.js:111-123 | transforming twice is transforming once |
| Projection.TransformKeepsNarrowRecord | lib/updater.js:111-123 | a record with only kept keys passes through unchanged |
| Sync.Updater.Round | lib/updater.js:126-142 | one round settles as `Expected` says, or forwards one page and leaves the rest of the run to `Expected` from the next page |
| Sync.Updater.Run | lib/updater.js:125-147 | the requests issued are the options of the steps `Expected` takes from the current state, in order, and the outcome and the final cursor are those of `Expected` |
| Sync.Updater.PostedRecordsOfRequests | lib/updater.js:93-107 | the bodies of the POSTs issued for a sequence of steps, concatenated, are the batches those steps deliver |
| Sync.ForwardedPrefix | lib/updater.js:125-143 | a run that meets k non-empty accepted pages forwards all of them and then goes on as a run from page cursor + k |
| Sync.ForwardedAlternates | lib/updater.js:125-143 | forwarding k pages takes 2k steps: the fetch of page cursor + i, then the post of the transformed page i, before the next fetch |
| Sync.ForwardedDeliversTransformedPages | lib/updater.js:133-137 | the batches posted for forwarded pages, concatenated, are the transformed records of all pages in order |
| Sync.RunEndsOnEmptyPage | lib/updater.js:127-130 | after pages p1..pk and an empty page, a run takes those fetches and posts and one last fetch, and resolves with cursor + k + 1 (k + 2 from a fresh updater) |
| Sync.RunDeliversPages | lib/updater.js:133-137 | such a run delivers to the destination exactly the transformed records of p1..pk, in order |
| Sync.RunRejectsOnUnparsedPage | lib/updater.js:79-91 | a page that does not parse makes the run reject (length of undefined) with the cursor already past that page |
| Sync.RunRejectsOnNetworkError | lib/updater.js:79-80 | a failed GET makes the run reject with the cursor still on the page it could not fetch |
| Sync.RunRejectsOnFailedPost | lib/updater.js:135-137 | a failed POST rejects the run after that page's GET and POST, and nothing more is fetched |
| Sync.EveryPostIsTransformed | lib/updater.js:133-135 | in every run, whatever the replies, each posted batch holds only records cut down to the nine fields (each such POST goes to `saveUri`, by `SaveRequestOptions`) |
| Sync.SmokeRun | lib/updater.test.js:170-244 | the smoke test's three single-record pages end in cursor 5, and the destination stores the three records unchanged |

## Left out

- The HTTP transport: lib/request.js is not part of this model. `Updater.request` (lib/updater.js:62-64) becomes the `Transport.Http` double. Its replies are scripted by GET count and its POST results by POST count. A POST's HTTP status and body are not modelled, only whether it succeeded.
- Bluebird: `.bind`, `.tap` and the asynchrony of the promise chain. The chain is sequential, so a run is a loop.
- Logging through lib/logger.js, which only writes messages. lib/init.js (start-up and the config store) and gulpfile.babel.js (build tooling) are not part of this model.
- `JSON.parse` is not modelled byte by byte. A reply body is a list of records (a JSON array of objects) or `Malformed`.
- JSON bodies that parse to something other than an array of objects are not modelled. Examples are `null`, a number, a string or an object. Records that are not objects are not modelled either.
- The try/catch around the transform (lib/updater.js:132-141) is left out. It can only catch a failure of `.map` on such values, and `_.pick` on a record cannot throw.
- JavaScript numbers are integers here. Fractional numbers, NaN, infinities, and the exponent form `String` uses from 1e21 on are not modelled. So `parseInt` of a float `batch_size` is not covered.
- Values that are functions, which `_.isObject` also accepts, are not modelled.
- Sync.SmokeRun: it states the outcome, cursor and stored records of the smoke test. The order and number of requests follow from ForwardedAlternates instead.
- The saveUri test at lib/updater.test.js:246-249 expects `?api_key=<key>` after `/repos`, but lib/updater.js:56 writes plain `/repos`. The model follows the code.
- The `org` check throws the message of the `github.base_url` check (lib/updater.js:40-42). The model keeps that message as written.
- An empty `settings` argument becomes `{}` only when it is undefined. `null` makes the first property read throw a TypeError, which the model reports as the `Readable` check.

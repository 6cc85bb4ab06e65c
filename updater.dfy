/**
  The `Updater` class of lib/updater.js: it validates its settings, pages
  through an organisation's repositories on the upstream API, projects every
  record onto a fixed field set and forwards each page as one POST to the
  destination API, until the upstream answers with an empty page.

  Promises become sequential code: a promise that resolves is a `Resolved`
  outcome, one that rejects is `Rejected`, and the recursion of
  `getBatchAndUpdate` through `.then` is the loop of `Run`.
 */
module Sync {
  import opened NumberText
  import opened JsValue
  import opened Settings
  import opened Projection
  import opened Transport

  /** What `new Updater(settings)` does: an updater, or the error it throws. */
  datatype Result<T> = Success(value: T) | Failure(error: ConstructionError)

  /** Why a promise of the updater rejects. */
  datatype RunError =
    | TransportFailed     // the request itself failed; nothing catches it
    | LengthOfUndefined   // `_repos.length` read on the undefined left by a parse failure

  datatype Outcome<T> = Resolved(value: T) | Rejected(error: RunError)

  /** What `getBatch` resolves with: the parsed page, or undefined when parsing failed. */
  datatype Fetched = Page(repos: seq<Record>) | Unparsed

  /**
    One step of a run as the updater decides it: fetch the page at an
    offset, or post a batch. `Updater.RequestOf` gives the options each one
    sends.
   */
  datatype Event = FetchPage(offset: int) | PostBatch(batch: seq<Record>)

  /** The steps a run takes, how it settles, and the cursor it leaves behind. */
  datatype Trace = Trace(events: seq<Event>, outcome: Outcome<int>, cursor: int)

  function Then(prefix: seq<Event>, t: Trace): Trace {
    Trace(prefix + t.events, t.outcome, t.cursor)
  }

  lemma AppendAssociates<T>(a: seq<T>, b: seq<T>, c: seq<T>)
    ensures (a + b) + c == a + (b + c)
  {
  }

  lemma ThenThen(first: seq<Event>, second: seq<Event>, t: Trace)
    ensures Then(first, Then(second, t)) == Then(first + second, t)
  {
    assert first + (second + t.events) == (first + second) + t.events;
  }

  const UserAgentHeaders: map<string, Value> := map["User-Agent" := Str("node.js request module")]

  /** The upstream URL of one page: plain concatenation, no slash normalisation. */
  function GithubUrl(baseUrl: string, org: string, offset: int, batchSize: int,
                     clientId: string, clientSecret: string): string
  {
    (baseUrl + "/orgs/" + org + "/repos?page=") + IntToString(offset) +
    ("&per_page=" + IntToString(batchSize) + "&client_id=" + clientId + "&client_secret=" + clientSecret)
  }

  /** Every page offset gets its own URL. */
  lemma GithubUrlDistinguishesPages(baseUrl: string, org: string, a: int, b: int, batchSize: int,
                                    clientId: string, clientSecret: string)
    requires GithubUrl(baseUrl, org, a, batchSize, clientId, clientSecret) ==
             GithubUrl(baseUrl, org, b, batchSize, clientId, clientSecret)
    ensures a == b
  {
    var head := baseUrl + "/orgs/" + org + "/repos?page=";
    var tail := "&per_page=" + IntToString(batchSize) + "&client_id=" + clientId + "&client_secret=" + clientSecret;
    SameFrameSameMiddle(head, IntToString(a), IntToString(b), tail);
    IntToStringInjective(a, b);
  }

  /**
    No slash normalisation: the URL starts with the base URL exactly as
    given, followed by "/orgs/", so a base URL ending in a slash (as in the
    test settings) yields "//orgs/".
   */
  lemma GithubUrlKeepsBaseUrl(baseUrl: string, org: string, offset: int, batchSize: int,
                              clientId: string, clientSecret: string)
    ensures baseUrl + "/orgs/" <= GithubUrl(baseUrl, org, offset, batchSize, clientId, clientSecret)
  {
    PrefixOfAppends(baseUrl + "/orgs/", org, "/repos?page=", IntToString(offset),
      "&per_page=" + IntToString(batchSize) + "&client_id=" + clientId + "&client_secret=" + clientSecret);
  }

  lemma PrefixOfAppends<T>(a: seq<T>, b: seq<T>, c: seq<T>, d: seq<T>, e: seq<T>)
    ensures a <= a + b + c + d + e
  {
    assert (a + b + c + d + e)[..|a|] == a;
  }

  lemma SameFrameSameMiddle<T>(head: seq<T>, x: seq<T>, y: seq<T>, tail: seq<T>)
    requires head + x + tail == head + y + tail
    ensures x == y
  {
    var whole := head + x + tail;
    assert |x| == |y|;
    assert x == whole[|head|..|head| + |x|];
  }

  /**
    The options of `saveRepos`: POST the repos unchanged to `saveUri`, with an
    `x-api-key` header holding the key exactly when the key is truthy.
   */
  function SaveRequest(saveUri: string, apiKey: Value, repos: seq<Record>): Request {
    PostRequest(saveUri, repos, if Truthy(apiKey) then map["x-api-key" := apiKey] else map[])
  }

  /** What the POST options say, header by header. */
  lemma SaveRequestOptions(saveUri: string, apiKey: Value, repos: seq<Record>)
    ensures var r := SaveRequest(saveUri, apiKey, repos);
      r.PostRequest? && r.uri == saveUri && r.json == repos &&
      ("x-api-key" in r.headers <==> Truthy(apiKey)) &&
      forall h :: h in r.headers ==> h == "x-api-key" && r.headers[h] == apiKey
  {
  }

  /** How `getBatch` settles on a GET response. */
  function Settle(response: Response): Outcome<Fetched> {
    match response
    case NetworkError => Rejected(TransportFailed)
    case Reply(Malformed) => Resolved(Unparsed)
    case Reply(Json(repos)) => Resolved(Page(repos))
  }

  class Updater {
    const apiBaseUrl: string
    const apiKey: Value
    const githubBaseUrl: string
    const batchSize: int
    const org: string
    const clientId: string
    const clientSecret: string
    const saveUri: string
    /** The transport `request` delegates to. */
    const http: Http
    /** The page cursor: the page the next `getBatch` fetches. */
    var batchOffset: int

    /** What a successful construction guarantees about the configuration. */
    predicate Configured() {
      apiBaseUrl != "" && (Truthy(apiKey) ==> apiKey.Str?) &&
      githubBaseUrl != "" && org != "" && clientId != "" && clientSecret != "" &&
      saveUri == apiBaseUrl + "/repos"
    }

    constructor (apiBaseUrl: string, apiKey: Value, githubBaseUrl: string, batchSize: int,
                 org: string, clientId: string, clientSecret: string, http: Http)
      ensures this.apiBaseUrl == apiBaseUrl && this.apiKey == apiKey
      ensures this.githubBaseUrl == githubBaseUrl && this.batchSize == batchSize && this.org == org
      ensures this.clientId == clientId && this.clientSecret == clientSecret && this.http == http
      ensures saveUri == apiBaseUrl + "/repos" && batchOffset == 1
    {
      this.apiBaseUrl := apiBaseUrl;
      this.apiKey := apiKey;
      this.githubBaseUrl := githubBaseUrl;
      this.batchSize := batchSize;
      this.org := org;
      this.clientId := clientId;
      this.clientSecret := clientSecret;
      this.http := http;
      this.saveUri := apiBaseUrl + "/repos";
      this.batchOffset := 1;
    }

    /**
      `new Updater(settings)`: run the checks in order and throw the first
      failure; otherwise keep the settings, derive `saveUri` and start the
      cursor at 1. No request is issued.
     */
    static method Create(settings: Value, http: Http) returns (r: Result<Updater>)
      ensures FirstFailing(settings).Some? ==>
        r == Failure(ErrorOf(FirstFailing(settings).value))
      ensures FirstFailing(settings).None? ==>
        r.Success? && fresh(r.value) && r.value.http == http &&
        r.value.Configured() && r.value.batchOffset == 1 &&
        Get(Api(settings), "base_url") == Str(r.value.apiBaseUrl) &&
        r.value.apiKey == Get(Api(settings), "key") &&
        Get(Github(settings), "base_url") == Str(r.value.githubBaseUrl) &&
        Get(Github(settings), "org") == Str(r.value.org) &&
        Some(r.value.batchSize) == ParseInt(Get(Github(settings), "batch_size")) &&
        Get(Github(settings), "client_id") == Str(r.value.clientId) &&
        Get(Github(settings), "client_secret") == Str(r.value.clientSecret)
      ensures http.sent == old(http.sent)
    {
      if settings.Null? {
        return Failure(ErrorOf(Readable));
      }
      var given := if settings.Undefined? then Obj(map[]) else settings;
      var github := Get(given, "github");
      assert github == Github(settings);
      if !IsObject(github) {
        return Failure(ErrorOf(GithubSection));
      }
      var api := Get(given, "api");
      assert api == Api(settings);
      if !IsObject(api) {
        return Failure(ErrorOf(ApiSection));
      }
      var apiBaseUrl := Get(api, "base_url");
      var apiKey := Get(api, "key");
      var githubBaseUrl := Get(github, "base_url");
      var batchSize := ParseInt(Get(github, "batch_size"));
      var org := Get(github, "org");
      var clientId := Get(github, "client_id");
      var clientSecret := Get(github, "client_secret");
      if !IsNonEmptyString(apiBaseUrl) {
        return Failure(ErrorOf(ApiBaseUrl));
      }
      if Truthy(apiKey) && !apiKey.Str? {
        return Failure(ErrorOf(ApiKey));
      }
      if !IsNonEmptyString(githubBaseUrl) {
        return Failure(ErrorOf(GithubBaseUrl));
      }
      if !IsNonEmptyString(org) {
        return Failure(ErrorOf(Org));
      }
      if batchSize.None? {
        return Failure(ErrorOf(BatchSize));
      }
      if !IsNonEmptyString(clientId) {
        return Failure(ErrorOf(ClientId));
      }
      if !IsNonEmptyString(clientSecret) {
        return Failure(ErrorOf(ClientSecret));
      }
      var u := new Updater(apiBaseUrl.s, apiKey, githubBaseUrl.s, batchSize.value,
                           org.s, clientId.s, clientSecret.s, http);
      r := Success(u);
    }

    /** The options `githubFetch(offset)` passes to `request`. */
    function FetchRequest(offset: int): Request {
      GetRequest(GithubUrl(githubBaseUrl, org, offset, batchSize, clientId, clientSecret), UserAgentHeaders)
    }

    /** The options `saveRepos(repos)` passes to `request`. */
    function SaveOptions(repos: seq<Record>): Request {
      SaveRequest(saveUri, apiKey, repos)
    }

    /** `githubFetch(offset)`: one GET of the page at `offset`. */
    method GithubFetch(offset: int) returns (r: Response)
      modifies http
      ensures http.sent == old(http.sent) + [FetchRequest(offset)]
      ensures r == ResponseAt(http.upstream, old(http.gets))
      ensures http.gets == old(http.gets) + 1 && http.posts == old(http.posts)
    {
      r := http.Fetch(GithubUrl(githubBaseUrl, org, offset, batchSize, clientId, clientSecret),
                      UserAgentHeaders);
    }

    /**
      `getBatch()`: fetch the page at the cursor, parse it, and advance the
      cursor by one once a response has arrived, whether or not it parsed.
     */
    method GetBatch() returns (r: Outcome<Fetched>)
      modifies this, http
      ensures http.sent == old(http.sent) + [FetchRequest(old(batchOffset))]
      ensures http.gets == old(http.gets) + 1 && http.posts == old(http.posts)
      ensures r == Settle(ResponseAt(http.upstream, old(http.gets)))
      ensures batchOffset == if r.Rejected? then old(batchOffset) else old(batchOffset) + 1
    {
      var response := GithubFetch(batchOffset);
      match response {
        case NetworkError =>
          r := Rejected(TransportFailed);
        case Reply(body) =>
          r := match body
               case Json(repos) => Resolved(Page(repos))
               case Malformed => Resolved(Unparsed);
          batchOffset := batchOffset + 1;
      }
    }

    /** `saveRepos(repos)`: one POST of the batch to `saveUri`; true when it succeeded. */
    method SaveRepos(repos: seq<Record>) returns (ok: bool)
      modifies http
      ensures http.sent == old(http.sent) + [SaveOptions(repos)]
      ensures ok == Accepted(http.destination, old(http.posts))
      ensures http.posts == old(http.posts) + 1 && http.gets == old(http.gets)
    {
      var headers: map<string, Value> := map[];
      if Truthy(apiKey) {
        headers := map["x-api-key" := apiKey];
      }
      ok := http.Send(saveUri, repos, headers);
    }

    /** The options the updater sends for one step of a run. */
    function RequestOf(e: Event): Request {
      match e
      case FetchPage(offset) => FetchRequest(offset)
      case PostBatch(batch) => SaveOptions(batch)
    }

    /** The options sent for a sequence of steps, in order. */
    function Requests(events: seq<Event>): seq<Request> {
      if events == [] then [] else [RequestOf(events[0])] + Requests(events[1..])
    }

    lemma {:induction false} RequestsAppend(a: seq<Event>, b: seq<Event>)
      ensures Requests(a + b) == Requests(a) + Requests(b)
    {
      if a == [] {
        assert a + b == b;
      } else {
        assert (a + b)[1..] == a[1..] + b;
        RequestsAppend(a[1..], b);
      }
    }

    lemma RequestsOfOne(e: Event)
      ensures Requests([e]) == [RequestOf(e)]
    {
      assert [e][1..] == [];
    }

    /** On the wire, the POST bodies of a run are exactly the batches it delivers. */
    lemma {:induction false} PostedRecordsOfRequests(events: seq<Event>)
      ensures PostedRecords(Requests(events)) == Delivered(events)
    {
      if events != [] {
        PostedRecordsOfRequests(events[1..]);
        var first := [RequestOf(events[0])];
        PostedRecordsAppend(first, Requests(events[1..]));
        assert PostedRecords(first) == (if events[0].PostBatch? then events[0].batch else []) by {
          assert first[1..] == [];
        }
      }
    }

    /**
      One round of `getBatchAndUpdate()`: fetch the page at the cursor; settle
      the run on a failure or an empty page, otherwise forward the transformed
      page and report that the run goes on.
     */
    method Round() returns (settled: Option<Outcome<int>>, ghost issued: seq<Event>)
      modifies this, http
      ensures http.sent == old(http.sent) + Requests(issued)
      ensures var before := Expected(http.upstream, http.destination,
                                     old(http.gets), old(http.posts), old(batchOffset));
        if settled.Some? then before == Trace(issued, settled.value, batchOffset)
        else before == Then(issued, Expected(http.upstream, http.destination,
                                             http.gets, http.posts, batchOffset)) &&
             old(http.gets) < |http.upstream| && http.gets == old(http.gets) + 1
    {
      ghost var cursor := batchOffset;
      var fetched := GetBatch();
      RequestsOfOne(FetchPage(cursor));
      match fetched {
        case Rejected(e) =>
          settled, issued := Some(Rejected(e)), [FetchPage(cursor)];
        case Resolved(Unparsed) =>
          settled, issued := Some(Rejected(LengthOfUndefined)), [FetchPage(cursor)];
        case Resolved(Page(repos)) =>
          if |repos| == 0 {
            settled, issued := Some(Resolved(batchOffset)), [FetchPage(cursor)];
          } else {
            var batch := TransformAll(repos);
            var ok := SaveRepos(batch);
            issued := [FetchPage(cursor), PostBatch(batch)];
            RequestsOfOne(PostBatch(batch));
            RequestsAppend([FetchPage(cursor)], [PostBatch(batch)]);
            settled := if ok then None else Some(Rejected(TransportFailed));
          }
      }
    }

    /**
      `run()` / `getBatchAndUpdate()`: fetch pages in order, forwarding each
      non-empty one before fetching the next, and resolve with the cursor
      once a page is empty.
     */
    method Run() returns (r: Outcome<int>)
      modifies this, http
      ensures var t := Expected(http.upstream, http.destination,
                                old(http.gets), old(http.posts), old(batchOffset));
              http.sent == old(http.sent) + Requests(t.events) && r == t.outcome &&
              batchOffset == t.cursor
    {
      ghost var start := Expected(http.upstream, http.destination, http.gets, http.posts, batchOffset);
      ghost var done: seq<Event> := [];
      while true
        invariant http.sent == old(http.sent) + Requests(done)
        invariant start == Then(done, Expected(http.upstream, http.destination,
                                               http.gets, http.posts, batchOffset))
        decreases |http.upstream| - http.gets
      {
        ghost var earlier := done;
        var settled, issued := Round();
        done := done + issued;
        assert http.sent == old(http.sent) + Requests(done) by {
          RequestsAppend(earlier, issued);
          AppendAssociates(old(http.sent), Requests(earlier), Requests(issued));
        }
        if settled.Some? {
          return settled.value;
        }
        ThenThen(earlier, issued, Expected(http.upstream, http.destination, http.gets, http.posts, batchOffset));
      }
    }
  }

  /**
    What a run does from a given point: with `gets` GETs and `posts` POSTs
    already answered and the cursor at `cursor`, fetch the page at the
    cursor; stop on an empty page with the advanced cursor; otherwise
    forward the transformed page and go on with the next one.
   */
  function Expected(upstream: seq<Response>, destination: seq<bool>,
                    gets: nat, posts: nat, cursor: int): Trace
    decreases |upstream| - gets
  {
    match ResponseAt(upstream, gets)
    case NetworkError => Trace([FetchPage(cursor)], Rejected(TransportFailed), cursor)
    case Reply(Malformed) => Trace([FetchPage(cursor)], Rejected(LengthOfUndefined), cursor + 1)
    case Reply(Json(repos)) =>
      if |repos| == 0 then Trace([FetchPage(cursor)], Resolved(cursor + 1), cursor + 1)
      else
        var steps := [FetchPage(cursor), PostBatch(TransformAll(repos))];
        if !Accepted(destination, posts) then Trace(steps, Rejected(TransportFailed), cursor + 1)
        else Then(steps, Expected(upstream, destination, gets + 1, posts + 1, cursor + 1))
  }

  /** What the destination receives: the posted batches, concatenated. */
  function Delivered(events: seq<Event>): seq<Record> {
    if events == [] then []
    else (if events[0].PostBatch? then events[0].batch else []) + Delivered(events[1..])
  }

  lemma {:induction false} DeliveredAppend(a: seq<Event>, b: seq<Event>)
    ensures Delivered(a + b) == Delivered(a) + Delivered(b)
  {
    if a == [] {
      assert a + b == b;
    } else {
      assert (a + b)[1..] == a[1..] + b;
      DeliveredAppend(a[1..], b);
    }
  }

  /** All records of all pages, in order. */
  function Concat(pages: seq<seq<Record>>): seq<Record> {
    if pages == [] then [] else pages[0] + Concat(pages[1..])
  }

  /** The steps of forwarding `pages` one after another from page `cursor` on. */
  function Forwarded(pages: seq<seq<Record>>, cursor: int): seq<Event>
    decreases |pages|
  {
    if pages == [] then []
    else [FetchPage(cursor), PostBatch(TransformAll(pages[0]))] + Forwarded(pages[1..], cursor + 1)
  }

  /**
    The GETs from number `gets` on are answered with the non-empty `pages`
    and the POSTs from number `posts` on are accepted.
   */
  predicate Serves(upstream: seq<Response>, destination: seq<bool>, gets: nat, posts: nat,
                   pages: seq<seq<Record>>)
  {
    forall i :: 0 <= i < |pages| ==>
      |pages[i]| > 0 && ResponseAt(upstream, gets + i) == Reply(Json(pages[i])) &&
      Accepted(destination, posts + i)
  }

  lemma ServesRest(upstream: seq<Response>, destination: seq<bool>, gets: nat, posts: nat,
                   pages: seq<seq<Record>>)
    requires Serves(upstream, destination, gets, posts, pages) && pages != []
    ensures |pages[0]| > 0 && ResponseAt(upstream, gets) == Reply(Json(pages[0]))
    ensures Accepted(destination, posts)
    ensures Serves(upstream, destination, gets + 1, posts + 1, pages[1..])
  {
    assert gets + 0 == gets && posts + 0 == posts;
    forall i | 0 <= i < |pages| - 1
      ensures |pages[1..][i]| > 0
      ensures ResponseAt(upstream, gets + 1 + i) == Reply(Json(pages[1..][i]))
      ensures Accepted(destination, posts + 1 + i)
    {
      assert pages[1..][i] == pages[i + 1];
      assert gets + 1 + i == gets + (i + 1) && posts + 1 + i == posts + (i + 1);
    }
  }

  /** The GETs go out one page after another, each forwarded page posted before the next GET. */
  lemma {:induction false} ForwardedAlternates(pages: seq<seq<Record>>, cursor: int)
    ensures |Forwarded(pages, cursor)| == 2 * |pages|
    ensures forall i :: 0 <= i < |pages| ==>
      Forwarded(pages, cursor)[2 * i] == FetchPage(cursor + i) &&
      Forwarded(pages, cursor)[2 * i + 1] == PostBatch(TransformAll(pages[i]))
    decreases |pages|
  {
    if pages != [] {
      var head := [FetchPage(cursor), PostBatch(TransformAll(pages[0]))];
      var rest := Forwarded(pages[1..], cursor + 1);
      ForwardedAlternates(pages[1..], cursor + 1);
      assert Forwarded(pages, cursor) == head + rest;
      forall i | 1 <= i < |pages|
        ensures (head + rest)[2 * i] == FetchPage(cursor + i)
        ensures (head + rest)[2 * i + 1] == PostBatch(TransformAll(pages[i]))
      {
        assert pages[1..][i - 1] == pages[i];
        assert (head + rest)[2 * i] == rest[2 * (i - 1)];
        assert (head + rest)[2 * i + 1] == rest[2 * (i - 1) + 1];
      }
    }
  }

  /** Forwarding pages delivers exactly their transformed records, in order. */
  lemma {:induction false} ForwardedDeliversTransformedPages(pages: seq<seq<Record>>, cursor: int)
    ensures Delivered(Forwarded(pages, cursor)) == TransformAll(Concat(pages))
    decreases |pages|
  {
    if pages != [] {
      var head := [FetchPage(cursor), PostBatch(TransformAll(pages[0]))];
      DeliveredAppend(head, Forwarded(pages[1..], cursor + 1));
      ForwardedDeliversTransformedPages(pages[1..], cursor + 1);
      TransformAllAppend(pages[0], Concat(pages[1..]));
      assert Delivered(head) == TransformAll(pages[0]) by {
        assert head[1..][1..] == [];
      }
    }
  }

  lemma ForwardOne(upstream: seq<Response>, destination: seq<bool>,
                   gets: nat, posts: nat, cursor: int, page: seq<Record>)
    requires |page| > 0 && ResponseAt(upstream, gets) == Reply(Json(page))
    requires Accepted(destination, posts)
    ensures Expected(upstream, destination, gets, posts, cursor) ==
      Then([FetchPage(cursor), PostBatch(TransformAll(page))],
           Expected(upstream, destination, gets + 1, posts + 1, cursor + 1))
  {
  }

  /**
    A run that meets the non-empty, accepted `pages` first forwards them
    all, then continues as a run from the page after them.
   */
  lemma {:induction false} ForwardedPrefix(upstream: seq<Response>, destination: seq<bool>,
                                           gets: nat, posts: nat, cursor: int,
                                           pages: seq<seq<Record>>)
    requires Serves(upstream, destination, gets, posts, pages)
    ensures Expected(upstream, destination, gets, posts, cursor) ==
      Then(Forwarded(pages, cursor),
           Expected(upstream, destination, gets + |pages|, posts + |pages|, cursor + |pages|))
    decreases |pages|
  {
    var rest := Expected(upstream, destination, gets + |pages|, posts + |pages|, cursor + |pages|);
    if pages == [] {
      assert [] + rest.events == rest.events;
    } else {
      var tail := pages[1..];
      assert gets + 1 + |tail| == gets + |pages| && posts + 1 + |tail| == posts + |pages|;
      assert cursor + 1 + |tail| == cursor + |pages|;
      ServesRest(upstream, destination, gets, posts, pages);
      ForwardedPrefix(upstream, destination, gets + 1, posts + 1, cursor + 1, tail);
      ForwardOne(upstream, destination, gets, posts, cursor, pages[0]);
      var head := [FetchPage(cursor), PostBatch(TransformAll(pages[0]))];
      assert Forwarded(pages, cursor) == head + Forwarded(tail, cursor + 1);
      ThenThen(head, Forwarded(tail, cursor + 1), rest);
    }
  }

  /**
    The normal end of a run: after forwarding `pages`, the next GET gets an
    empty page, and the run resolves with the cursor past that page.
   */
  lemma RunEndsOnEmptyPage(upstream: seq<Response>, destination: seq<bool>,
                           gets: nat, posts: nat, cursor: int, pages: seq<seq<Record>>)
    requires Serves(upstream, destination, gets, posts, pages)
    requires ResponseAt(upstream, gets + |pages|) == Reply(Json([]))
    ensures Expected(upstream, destination, gets, posts, cursor) ==
      Trace(Forwarded(pages, cursor) + [FetchPage(cursor + |pages|)],
            Resolved(cursor + |pages| + 1), cursor + |pages| + 1)
  {
    ForwardedPrefix(upstream, destination, gets, posts, cursor, pages);
  }

  /**
    A run that ends normally delivers to the destination exactly the
    transformed records of every page, in the order they were fetched.
   */
  lemma RunDeliversPages(upstream: seq<Response>, destination: seq<bool>,
                         gets: nat, posts: nat, cursor: int, pages: seq<seq<Record>>)
    requires Serves(upstream, destination, gets, posts, pages)
    requires ResponseAt(upstream, gets + |pages|) == Reply(Json([]))
    ensures Delivered(Expected(upstream, destination, gets, posts, cursor).events) ==
      TransformAll(Concat(pages))
  {
    RunEndsOnEmptyPage(upstream, destination, gets, posts, cursor, pages);
    ForwardedDeliversTransformedPages(pages, cursor);
    var last := [FetchPage(cursor + |pages|)];
    DeliveredAppend(Forwarded(pages, cursor), last);
    assert Delivered(last) == [] by {
      assert last[1..] == [];
    }
  }

  /**
    A page that does not parse ends the run with a rejection (reading
    `length` of undefined), yet the cursor has already moved past it.
   */
  lemma RunRejectsOnUnparsedPage(upstream: seq<Response>, destination: seq<bool>,
                                 gets: nat, posts: nat, cursor: int, pages: seq<seq<Record>>)
    requires Serves(upstream, destination, gets, posts, pages)
    requires ResponseAt(upstream, gets + |pages|) == Reply(Malformed)
    ensures Expected(upstream, destination, gets, posts, cursor) ==
      Trace(Forwarded(pages, cursor) + [FetchPage(cursor + |pages|)],
            Rejected(LengthOfUndefined), cursor + |pages| + 1)
  {
    ForwardedPrefix(upstream, destination, gets, posts, cursor, pages);
  }

  /** A failed GET rejects the run and leaves the cursor on the page it could not fetch. */
  lemma RunRejectsOnNetworkError(upstream: seq<Response>, destination: seq<bool>,
                                 gets: nat, posts: nat, cursor: int, pages: seq<seq<Record>>)
    requires Serves(upstream, destination, gets, posts, pages)
    requires ResponseAt(upstream, gets + |pages|) == NetworkError
    ensures Expected(upstream, destination, gets, posts, cursor) ==
      Trace(Forwarded(pages, cursor) + [FetchPage(cursor + |pages|)],
            Rejected(TransportFailed), cursor + |pages|)
  {
    ForwardedPrefix(upstream, destination, gets, posts, cursor, pages);
  }

  /** A failed POST rejects the run after its page was fetched; nothing more is fetched. */
  lemma RunRejectsOnFailedPost(upstream: seq<Response>, destination: seq<bool>,
                               gets: nat, posts: nat, cursor: int, pages: seq<seq<Record>>,
                               page: seq<Record>)
    requires Serves(upstream, destination, gets, posts, pages)
    requires |page| > 0 && ResponseAt(upstream, gets + |pages|) == Reply(Json(page))
    requires !Accepted(destination, posts + |pages|)
    ensures Expected(upstream, destination, gets, posts, cursor) ==
      Trace(Forwarded(pages, cursor) + [FetchPage(cursor + |pages|), PostBatch(TransformAll(page))],
            Rejected(TransportFailed), cursor + |pages| + 1)
  {
    ForwardedPrefix(upstream, destination, gets, posts, cursor, pages);
  }

  /**
    Whatever the replies, every batch a run posts holds only records cut
    down to the transformed fields.
   */
  lemma {:induction false} EveryPostIsTransformed(upstream: seq<Response>, destination: seq<bool>,
                                                  gets: nat, posts: nat, cursor: int)
    ensures forall e :: e in Expected(upstream, destination, gets, posts, cursor).events && e.PostBatch? ==>
      forall rec :: rec in e.batch ==> rec.Keys <= TransformFieldSet
    decreases |upstream| - gets
  {
    var response := ResponseAt(upstream, gets);
    if response.Reply? && response.body.Json? && |response.body.records| > 0 &&
       Accepted(destination, posts) {
      EveryPostIsTransformed(upstream, destination, gets + 1, posts + 1, cursor + 1);
    }
  }

  /**
    The smoke run: the upstream answers three GETs with one record each and
    then an empty page; the destination accepts everything. The run
    resolves with cursor 5, and the destination receives the three records
    unchanged when they carry only kept fields.
   */
  lemma SmokeRun(first: Record, second: Record, third: Record)
    requires first.Keys <= TransformFieldSet && second.Keys <= TransformFieldSet
    requires third.Keys <= TransformFieldSet
    ensures var t := Expected([Reply(Json([first])), Reply(Json([second])), Reply(Json([third]))],
                              [], 0, 0, 1);
      t.outcome == Resolved(5) && t.cursor == 5 && Delivered(t.events) == [first, second, third]
  {
    var upstream := [Reply(Json([first])), Reply(Json([second])), Reply(Json([third]))];
    var pages := [[first], [second], [third]];
    SmokeUpstreamServes(first, second, third);
    RunEndsOnEmptyPage(upstream, [], 0, 0, 1, pages);
    RunDeliversPages(upstream, [], 0, 0, 1, pages);
    ConcatOfSingletons(first, second, third);
    TransformKeepsNarrowRecord(first);
    TransformKeepsNarrowRecord(second);
    TransformKeepsNarrowRecord(third);
  }

  lemma SmokeUpstreamServes(first: Record, second: Record, third: Record)
    ensures var upstream := [Reply(Json([first])), Reply(Json([second])), Reply(Json([third]))];
      Serves(upstream, [], 0, 0, [[first], [second], [third]]) &&
      ResponseAt(upstream, 3) == Reply(Json([]))
  {
  }

  lemma ConcatOfSingletons(first: Record, second: Record, third: Record)
    ensures Concat([[first], [second], [third]]) == [first, second, third]
  {
    var pages := [[first], [second], [third]];
    var rest := pages[1..];
    assert rest == [[second], [third]] && rest[1..] == [[third]] && rest[1..][1..] == [];
    assert Concat(rest[1..]) == [third] + Concat([]) == [third];
    assert Concat(rest) == [second] + Concat(rest[1..]);
  }
}

/**
  The HTTP collaborator behind `Updater.request` (lib/updater.js:62-64): the
  upstream organisation API that answers GETs and the destination API that
  takes POSTs. The transport itself lives in lib/request.js, which is not part
  of this model; here it is a recording double. It logs every request in the
  order it is issued, answers the k-th GET with the k-th scripted upstream
  reply (an empty page once the script runs out), and accepts or rejects the
  k-th POST as scripted.
 */
module Transport {
  import opened JsValue
  import opened Projection

  /** The upstream page body after `JSON.parse`. */
  datatype Body = Json(records: seq<Record>) | Malformed

  /** What a GET settles with: a body, or a transport failure (network error). */
  datatype Response = Reply(body: Body) | NetworkError

  /** The options object passed to `request`. */
  datatype Request =
    | GetRequest(url: string, headers: map<string, Value>)
    | PostRequest(uri: string, json: seq<Record>, headers: map<string, Value>)

  /** The reply to the k-th GET: the script's k-th entry, then empty pages. */
  function ResponseAt(upstream: seq<Response>, k: nat): Response {
    if k < |upstream| then upstream[k] else Reply(Json([]))
  }

  /** Whether the k-th POST succeeds: rejected only where the script says so. */
  predicate Accepted(destination: seq<bool>, k: nat) {
    k >= |destination| || destination[k]
  }

  /** Everything the destination receives, in order: the bodies of the POSTs concatenated. */
  function PostedRecords(sent: seq<Request>): seq<Record> {
    if sent == [] then []
    else (if sent[0].PostRequest? then sent[0].json else []) + PostedRecords(sent[1..])
  }

  lemma {:induction false} PostedRecordsAppend(a: seq<Request>, b: seq<Request>)
    ensures PostedRecords(a + b) == PostedRecords(a) + PostedRecords(b)
  {
    if a != [] {
      assert (a + b)[1..] == a[1..] + b;
      PostedRecordsAppend(a[1..], b);
    } else {
      assert a + b == b;
    }
  }

  class Http {
    const upstream: seq<Response>
    const destination: seq<bool>
    /** Every request issued, oldest first. */
    var sent: seq<Request>
    /** How many GETs and POSTs have been answered. */
    var gets: nat
    var posts: nat

    constructor (upstream: seq<Response>, destination: seq<bool>)
      ensures this.upstream == upstream && this.destination == destination
      ensures sent == [] && gets == 0 && posts == 0
    {
      this.upstream := upstream;
      this.destination := destination;
      sent, gets, posts := [], 0, 0;
    }

    method Fetch(url: string, headers: map<string, Value>) returns (r: Response)
      modifies this
      ensures sent == old(sent) + [GetRequest(url, headers)]
      ensures r == ResponseAt(upstream, old(gets))
      ensures gets == old(gets) + 1 && posts == old(posts)
    {
      r := if gets < |upstream| then upstream[gets] else Reply(Json([]));
      sent := sent + [GetRequest(url, headers)];
      gets := gets + 1;
    }

    method Send(uri: string, json: seq<Record>, headers: map<string, Value>) returns (ok: bool)
      modifies this
      ensures sent == old(sent) + [PostRequest(uri, json, headers)]
      ensures ok == Accepted(destination, old(posts))
      ensures posts == old(posts) + 1 && gets == old(gets)
    {
      ok := posts >= |destination| || destination[posts];
      sent := sent + [PostRequest(uri, json, headers)];
      posts := posts + 1;
    }
  }
}

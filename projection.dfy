/**
  `transformResponse` (lib/updater.js:111-123): lodash's `_.pick` of a
  repository record onto nine fixed property names.
 */
module Projection {
  import opened JsValue

  /** A decoded repository object: its own properties and their values. */
  type Record = map<string, Value>

  /** The property names `transformResponse` keeps, in the order it lists them. */
  const TransformFields: seq<string> :=
    ["id", "name", "description", "pushed_at", "git_url",
     "stargazers_count", "forks_count", "open_issues_count", "forks"]

  const TransformFieldSet: set<string> := set f | f in TransformFields

  /**
    `_.pick(obj, paths)`: walk the paths and copy every one the object has;
    a path the object lacks is skipped, not defaulted.
   */
  function Pick(obj: Record, paths: seq<string>): Record {
    if paths == [] then map[]
    else
      var rest := Pick(obj, paths[1..]);
      if paths[0] in obj then rest[paths[0] := obj[paths[0]]] else rest
  }

  /** What `_.pick` keeps: the object's properties named in `paths`, values untouched. */
  lemma {:induction false} PickKeepsNamedProperties(obj: Record, paths: seq<string>)
    ensures Pick(obj, paths).Keys == obj.Keys * set p | p in paths
    ensures forall k :: k in Pick(obj, paths) ==> Pick(obj, paths)[k] == obj[k]
  {
    if paths != [] {
      PickKeepsNamedProperties(obj, paths[1..]);
      assert (set p | p in paths) == {paths[0]} + set p | p in paths[1..];
    }
  }

  /** `transformResponse(repo)`. */
  function Transform(repo: Record): (r: Record)
    ensures r.Keys == repo.Keys * TransformFieldSet
    ensures forall k :: k in r ==> r[k] == repo[k]
  {
    PickKeepsNamedProperties(repo, TransformFields);
    Pick(repo, TransformFields)
  }

  /** `repos.map(transformResponse)`. */
  function TransformAll(repos: seq<Record>): seq<Record> {
    seq(|repos|, i requires 0 <= i < |repos| => Transform(repos[i]))
  }

  lemma TransformAllAppend(a: seq<Record>, b: seq<Record>)
    ensures TransformAll(a + b) == TransformAll(a) + TransformAll(b)
  {
    assert forall i :: 0 <= i < |a + b| ==> (a + b)[i] == if i < |a| then a[i] else b[i - |a|];
  }

  /** Transforming a transformed record changes nothing. */
  lemma TransformIdempotent(repo: Record)
    ensures Transform(Transform(repo)) == Transform(repo)
  {
  }

  /** A record that only has kept properties passes through unchanged. */
  lemma TransformKeepsNarrowRecord(repo: Record)
    requires repo.Keys <= TransformFieldSet
    ensures Transform(repo) == repo
  {
  }
}

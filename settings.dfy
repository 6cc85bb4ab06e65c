/**
  The checks the Updater constructor runs on its settings object, in the order
  it runs them (lib/updater.js:10-54). The constructor throws the error of the
  first check that fails; `FirstFailing` states that rule, and the constructor
  in module Sync is proved against it.
 */
module Settings {
  import opened NumberText
  import opened JsValue

  datatype ErrorClass = Error | TypeError

  /** What the constructor throws: the error's class and its message. */
  datatype ConstructionError = ConstructionError(errorClass: ErrorClass, message: string)

  datatype Check =
    | Readable       // `settings.github` on null throws before any explicit check
    | GithubSection
    | ApiSection
    | ApiBaseUrl
    | ApiKey
    | GithubBaseUrl
    | Org
    | BatchSize
    | ClientId
    | ClientSecret

  /** The position of each check in the order the constructor evaluates them. */
  function Rank(c: Check): nat {
    match c
    case Readable => 0
    case GithubSection => 1
    case ApiSection => 2
    case ApiBaseUrl => 3
    case ApiKey => 4
    case GithubBaseUrl => 5
    case Org => 6
    case BatchSize => 7
    case ClientId => 8
    case ClientSecret => 9
  }

  /** The default parameter `settings = {}` replaces an omitted (undefined) argument. */
  function Effective(settings: Value): Value {
    if settings.Undefined? then Obj(map[]) else settings
  }

  function Github(settings: Value): Value {
    Get(Effective(settings), "github")
  }

  function Api(settings: Value): Value {
    Get(Effective(settings), "api")
  }

  /** Whether `settings` gets past check `c`. */
  predicate Passes(settings: Value, c: Check) {
    match c
    case Readable => !settings.Null?
    case GithubSection => IsObject(Github(settings))
    case ApiSection => IsObject(Api(settings))
    case ApiBaseUrl => IsNonEmptyString(Get(Api(settings), "base_url"))
    case ApiKey =>
      var key := Get(Api(settings), "key");
      !(Truthy(key) && !key.Str?)
    case GithubBaseUrl => IsNonEmptyString(Get(Github(settings), "base_url"))
    case Org => IsNonEmptyString(Get(Github(settings), "org"))
    case BatchSize => ParseInt(Get(Github(settings), "batch_size")).Some?
    case ClientId => IsNonEmptyString(Get(Github(settings), "client_id"))
    case ClientSecret => IsNonEmptyString(Get(Github(settings), "client_secret"))
  }

  /** The error thrown when check `c` fails. */
  function ErrorOf(c: Check): ConstructionError {
    match c
    case Readable => ConstructionError(TypeError, "Cannot read property 'github' of null")
    case GithubSection => ConstructionError(Error, "must provide github configuration")
    case ApiSection => ConstructionError(Error, "must provide api configuration")
    case ApiBaseUrl => ConstructionError(TypeError, "must provide a valid url for api.base_url setting")
    case ApiKey => ConstructionError(TypeError, "must provide a string for api.key setting")
    case GithubBaseUrl => ConstructionError(TypeError, "must provide a valid url for github.base_url setting")
    // the org check reuses the github.base_url message
    case Org => ConstructionError(TypeError, "must provide a valid url for github.base_url setting")
    case BatchSize => ConstructionError(TypeError, "must provide an integer value for github batch_size")
    case ClientId => ConstructionError(TypeError, "must provide a valid string for github.client_id setting")
    case ClientSecret => ConstructionError(TypeError, "must provide a valid string for github.client_secret setting")
  }

  /**
    The check the constructor throws for, if any: its `if` statements in
    source order. The contract ties that order to `Passes` and `Rank`: the
    check reported fails, every earlier check passes, and nothing is reported
    exactly when every check passes.
   */
  function FirstFailing(settings: Value): (r: Option<Check>)
    ensures r.Some? ==> !Passes(settings, r.value)
    ensures r.Some? ==> forall c :: Rank(c) < Rank(r.value) ==> Passes(settings, c)
    ensures r.None? <==> forall c :: Passes(settings, c)
  {
    if settings.Null? then Some(Readable)
    else
      var given := Effective(settings);
      var github := Get(given, "github");
      var api := Get(given, "api");
      if !IsObject(github) then Some(GithubSection)
      else if !IsObject(api) then Some(ApiSection)
      else if !IsNonEmptyString(Get(api, "base_url")) then Some(ApiBaseUrl)
      else if Truthy(Get(api, "key")) && !Get(api, "key").Str? then Some(ApiKey)
      else if !IsNonEmptyString(Get(github, "base_url")) then Some(GithubBaseUrl)
      else if !IsNonEmptyString(Get(github, "org")) then Some(Org)
      else if ParseInt(Get(github, "batch_size")).None? then Some(BatchSize)
      else if !IsNonEmptyString(Get(github, "client_id")) then Some(ClientId)
      else if !IsNonEmptyString(Get(github, "client_secret")) then Some(ClientSecret)
      else None
  }

  /** Conversely, a failing check with every earlier check passing is the one reported. */
  lemma EarliestFailureReported(settings: Value, c: Check)
    requires !Passes(settings, c)
    requires forall d :: Rank(d) < Rank(c) ==> Passes(settings, d)
    ensures FirstFailing(settings) == Some(c)
  {
    var r := FirstFailing(settings);
    assert r.Some?;
    assert Rank(r.value) == Rank(c);
  }

  /** Construction succeeds exactly when every field has the shape the constructor asks for. */
  lemma AcceptedIff(settings: Value)
    ensures FirstFailing(settings).None? <==>
      !settings.Null? &&
      IsObject(Github(settings)) && IsObject(Api(settings)) &&
      IsNonEmptyString(Get(Api(settings), "base_url")) &&
      (Truthy(Get(Api(settings), "key")) ==> Get(Api(settings), "key").Str?) &&
      IsNonEmptyString(Get(Github(settings), "base_url")) &&
      IsNonEmptyString(Get(Github(settings), "org")) &&
      ParseInt(Get(Github(settings), "batch_size")).Some? &&
      IsNonEmptyString(Get(Github(settings), "client_id")) &&
      IsNonEmptyString(Get(Github(settings), "client_secret"))
  {
  }

  /**
    The two section checks come first: a missing or non-object `github`
    section is reported whatever else is wrong, and then a missing or
    non-object `api` section.
   */
  lemma SectionChecksFirst(settings: Value)
    requires !settings.Null?
    ensures !IsObject(Github(settings)) ==> FirstFailing(settings) == Some(GithubSection)
    ensures IsObject(Github(settings)) && !IsObject(Api(settings)) ==>
      FirstFailing(settings) == Some(ApiSection)
  {
  }
}

/** The platform argument shared by `deploy` and `rollback`, fanned out to environments. */
module Platforms {
  import opened Aborts

  datatype Environment = Staging | Production {
    /** The key under which the server configuration names this environment's host. */
    function Name(): string {
      match this
      case Staging => "staging"
      case Production => "production"
    }
  }

  /** The platform names both tasks accept. */
  const KnownPlatforms: set<string> := {"staging", "prod", "production", "all"}

  /** Every environment at most once, and staging before production. */
  predicate StagingFirst(envs: seq<Environment>) {
    forall i, j | 0 <= i < j < |envs| :: envs[i] == Staging && envs[j] == Production
  }

  /**
   * The environments a platform name stands for, in the order the task
   * visits them; an unknown name aborts.
   */
  function Dispatch(platform: string): (r: Result<seq<Environment>>)
    ensures r.Ok? <==> platform in KnownPlatforms
    ensures r.Aborted? ==> r.reason == UnknownPlatform(platform)
    ensures r.Ok? ==> |r.value| > 0 && StagingFirst(r.value)
    ensures r.Ok? ==> (Production in r.value <==> platform != "staging")
    ensures r.Ok? ==> (Staging in r.value <==> platform == "staging" || platform == "all")
  {
    if platform == "staging" then Ok([Staging])
    else if platform == "prod" || platform == "production" then Ok([Production])
    else if platform == "all" then Ok([Staging, Production])
    else Aborted(UnknownPlatform(platform))
  }

  /** Naming an environment by its own key selects that environment alone. */
  lemma DispatchName(e: Environment)
    ensures Dispatch(e.Name()) == Ok([e])
  {
  }

  /** `prod` is an alias of `production`, and `all` is staging followed by production. */
  lemma DispatchAliases()
    ensures Dispatch("prod") == Dispatch("production")
    ensures Dispatch("all").value == Dispatch("staging").value + Dispatch("production").value
  {
  }
}

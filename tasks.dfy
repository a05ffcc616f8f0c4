/**
 * The `deploy` and `rollback` tasks as plan builders: each either aborts
 * or yields, per environment in visiting order, the steps it would run.
 */
module Tasks {
  import opened Aborts
  import opened RevertToken
  import opened Platforms
  import opened Commands

  /** The default token of `rollback()`: one commit back. */
  const DefaultRevert: string := "1"
  /** The default platform of both `deploy()` and `rollback()`. */
  const DefaultPlatform: string := "staging"

  /** `deploy(environment)`: the deploy steps on every environment the platform names. */
  function Deploy(platform: string, app: string): (r: Result<seq<EnvPlan>>)
    ensures r.Aborted? <==> platform !in KnownPlatforms
    ensures r.Aborted? ==> r.reason == UnknownPlatform(platform)
    ensures r.Ok? ==> |r.value| > 0
    ensures r.Ok? ==> forall i, j | 0 <= i < j < |r.value| :: r.value[i].env == Staging && r.value[j].env == Production
    ensures r.Ok? ==> forall p | p in r.value :: p.workdir == Workdir(app) && p.steps == DeploySteps(app)
    ensures r.Ok? ==> |r.value| == |Dispatch(platform).value|
    ensures r.Ok? ==> forall i | 0 <= i < |r.value| :: r.value[i].env == Dispatch(platform).value[i]
    ensures r.Ok? ==> ((exists p | p in r.value :: p.env == Production) <==> platform != "staging")
    ensures r.Ok? ==> ((exists p | p in r.value :: p.env == Staging) <==> platform == "staging" || platform == "all")
  {
    match Dispatch(platform)
    case Aborted(e) => Aborted(e)
    case Ok(envs) => Ok(PlansFor(envs, app, DeploySteps(app)))
  }

  /**
   * `rollback(revert, environment)`: the token is classified first, so a
   * bad token aborts whatever the platform; then the rollback steps go to
   * every environment the platform names.
   */
  function Rollback(revert: string, platform: string, app: string): (r: Result<seq<EnvPlan>>)
    ensures Classify(revert).Aborted? ==> r == Aborted(InvalidRevertTarget)
    ensures Classify(revert).Ok? && platform !in KnownPlatforms ==> r == Aborted(UnknownPlatform(platform))
    ensures r.Ok? <==> Classify(revert).Ok? && platform in KnownPlatforms
    ensures r.Ok? ==> |r.value| > 0
    ensures r.Ok? ==> forall i, j | 0 <= i < j < |r.value| :: r.value[i].env == Staging && r.value[j].env == Production
    ensures r.Ok? ==> forall p | p in r.value ::
      p.workdir == Workdir(app) && p.steps == RollbackSteps(ResetTarget(Classify(revert).value, revert), app)
    ensures r.Ok? ==> |r.value| == |Dispatch(platform).value|
    ensures r.Ok? ==> forall i | 0 <= i < |r.value| :: r.value[i].env == Dispatch(platform).value[i]
    ensures r.Ok? ==> ((exists p | p in r.value :: p.env == Production) <==> platform != "staging")
    ensures r.Ok? ==> ((exists p | p in r.value :: p.env == Staging) <==> platform == "staging" || platform == "all")
  {
    match Classify(revert)
    case Aborted(e) => Aborted(e)
    case Ok(kind) =>
      match Dispatch(platform)
      case Aborted(e) => Aborted(e)
      case Ok(envs) => Ok(PlansFor(envs, app, RollbackSteps(ResetTarget(kind, revert), app)))
  }

  /** The reset step of every rollback plan, for a token of the given shape. */
  predicate ResetsTo(r: Result<seq<EnvPlan>>, target: string) {
    r.Ok? && forall p | p in r.value :: |p.steps| == 6 && p.steps[1] == ResetHard(target)
  }

  /** A version token resets to itself. */
  lemma RollbackToVersion(revert: string, platform: string, app: string)
    requires VersionPattern(revert) && platform in KnownPlatforms
    ensures ResetsTo(Rollback(revert, platform, app), revert)
  {
  }

  /** A 5 to 40 character lower-case hex token resets to itself, all-digit ones included. */
  lemma RollbackToSha(revert: string, platform: string, app: string)
    requires ShaPattern(revert) && platform in KnownPlatforms
    ensures ResetsTo(Rollback(revert, platform, app), revert)
  {
  }

  /** Any other digit string counts commits back from HEAD. */
  lemma RollbackCommits(revert: string, platform: string, app: string)
    requires Number(revert) && (|revert| < 5 || 40 < |revert|) && platform in KnownPlatforms
    ensures ResetsTo(Rollback(revert, platform, app), "HEAD~" + revert)
  {
  }

  /**
   * Rollback and deploy visit the same environments, and each rollback plan
   * is the deploy plan with its pull replaced by the one hard reset.
   */
  lemma RollbackMirrorsDeploy(revert: string, platform: string, app: string)
    requires Rollback(revert, platform, app).Ok?
    ensures var back, fwd := Rollback(revert, platform, app).value, Deploy(platform, app);
      fwd.Ok? && |fwd.value| == |back| &&
      forall i | 0 <= i < |back| ::
        back[i].env == fwd.value[i].env && back[i].workdir == fwd.value[i].workdir &&
        back[i].steps == fwd.value[i].steps[1 := back[i].steps[1]] &&
        (forall k | 0 <= k < |back[i].steps| :: back[i].steps[k].ResetHard? <==> k == 1) &&
        (forall k | 0 <= k < |fwd.value[i].steps| :: !fwd.value[i].steps[k].ResetHard?)
  {
    var envs := Dispatch(platform).value;
    var target := ResetTarget(Classify(revert).value, revert);
    var back, fwd := Rollback(revert, platform, app).value, Deploy(platform, app).value;
    assert back == PlansFor(envs, app, RollbackSteps(target, app));
    assert fwd == PlansFor(envs, app, DeploySteps(app));
    StepsDifferInReset(target, app);
  }

  /** `rollback()` with its defaults: a single staging plan back to `HEAD~1`. */
  lemma DefaultRollback(app: string)
    ensures Rollback(DefaultRevert, DefaultPlatform, app) ==
      Ok([EnvPlan(Staging, "/home/" + app + "/public",
        [Stash, ResetHard("HEAD~1"), InstallProduction, BuildSass, BuildJs, Restart(app)])])
  {
    assert Classify(DefaultRevert) == Ok(CommitCount) by {
      assert Number(DefaultRevert);
    }
    assert ResetTarget(CommitCount, DefaultRevert) == "HEAD~1";
    assert Dispatch(DefaultPlatform) == Ok([Staging]);
    var plans := Rollback(DefaultRevert, DefaultPlatform, app).value;
    assert |plans| == 1;
    assert plans == [plans[0]];
  }

  /** `deploy()` with its default platform deploys to staging alone. */
  lemma DefaultDeploy(app: string)
    ensures Deploy(DefaultPlatform, app) == Ok([EnvPlan(Staging, Workdir(app), DeploySteps(app))])
  {
    var plans := Deploy(DefaultPlatform, app).value;
    assert |plans| == 1;
    assert plans == [plans[0]];
  }

  /** `all` deploys to staging, then to production. */
  lemma DeployAll(app: string)
    ensures Deploy("all", app) ==
      Ok([EnvPlan(Staging, Workdir(app), DeploySteps(app)), EnvPlan(Production, Workdir(app), DeploySteps(app))])
  {
    var plans := Deploy("all", app).value;
    assert |plans| == 2;
    assert plans == [plans[0], plans[1]];
  }

  /** `rollback:3` goes three commits back. */
  lemma RollbackThreeCommits(app: string)
    ensures ResetsTo(Rollback("3", "staging", app), "HEAD~3")
    ensures CommandLine(ResetHard(ResetTarget(CommitCount, "3"))) == "git reset --hard HEAD~3"
  {
  }

  /** `rollback:2.1.0` resets to the version tag itself. */
  lemma RollbackToTag(app: string)
    ensures ResetsTo(Rollback("2.1.0", "prod", app), "2.1.0")
  {
  }

  /** Five hex characters are a SHA, and so are five digits; four digits are a count. */
  lemma ShaScenarios(app: string)
    ensures ResetsTo(Rollback("abc12", "all", app), "abc12")
    ensures Classify("12345") == Ok(Sha) && Classify("1234") == Ok(CommitCount)
  {
  }

  /** Tokens of no accepted shape abort before any environment is chosen. */
  lemma RejectedScenarios(app: string)
    ensures Rollback("abcd", "all", app) == Aborted(InvalidRevertTarget)
    ensures Rollback("ABCDE", "staging", app) == Aborted(InvalidRevertTarget)
    ensures Rollback("", "staging", app) == Aborted(InvalidRevertTarget)
    ensures Rollback("1.2", "qa", app) == Aborted(InvalidRevertTarget)
    ensures Rollback("1", "qa", app) == Aborted(UnknownPlatform("qa"))
  {
  }
}

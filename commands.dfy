/**
 * The remote commands that `_deploy` and `_rollback` issue, as data: each
 * environment gets an ordered list of steps run in the application's
 * working tree.
 */
module Commands {
  import opened Platforms

  datatype Command =
    | Stash
    | Pull
    | ResetHard(target: string)
    | InstallProduction
    | BuildSass
    | BuildJs
    | Restart(app: string)

  /** The shell line the step is issued as. */
  function CommandLine(c: Command): string {
    match c
    case Stash => "git stash"
    case Pull => "git pull"
    case ResetHard(target) => "git reset --hard " + target
    case InstallProduction => "npm install --production"
    case BuildSass => "gulp sass"
    case BuildJs => "gulp js"
    case Restart(app) => "forever restart " + app
  }

  /** The first and fifth characters of each shell line, which tell the verbs apart. */
  lemma CommandLineHead(c: Command)
    ensures |CommandLine(c)| > 4
    ensures CommandLine(c)[0] == (if c.Restart? then 'f' else if c == InstallProduction then 'n' else 'g')
    ensures CommandLine(c)[4] == 'r' <==> c.ResetHard?
  {
  }

  /** The shell line determines the step: the structured form loses nothing. */
  lemma CommandLineInjective(a: Command, b: Command)
    requires CommandLine(a) == CommandLine(b)
    ensures a == b
  {
    CommandLineHead(a);
    CommandLineHead(b);
    match a
    case ResetHard(t) =>
      assert t == CommandLine(a)[17..];
    case Restart(app) =>
      assert app == CommandLine(a)[16..];
    case _ =>
  }

  /** The working tree on every host: `/home/<app>/public`. */
  function Workdir(app: string): string { "/home/" + app + "/public" }

  /** The steps one environment receives, in order, and where they run. */
  datatype EnvPlan = EnvPlan(env: Environment, workdir: string, steps: seq<Command>)

  /** `_deploy`: stash, pull, reinstall, rebuild both asset sets, restart. */
  function DeploySteps(app: string): seq<Command> {
    [Stash, Pull, InstallProduction, BuildSass, BuildJs, Restart(app)]
  }

  /** `_rollback`: as `_deploy`, with a hard reset to `target` where the pull was. */
  function RollbackSteps(target: string, app: string): seq<Command> {
    [Stash, ResetHard(target), InstallProduction, BuildSass, BuildJs, Restart(app)]
  }

  /** The two step lists differ only at step 1, the one reset of the rollback. */
  lemma StepsDifferInReset(target: string, app: string)
    ensures RollbackSteps(target, app) == DeploySteps(app)[1 := ResetHard(target)]
    ensures forall k | 0 <= k < 6 :: RollbackSteps(target, app)[k].ResetHard? <==> k == 1
    ensures forall k | 0 <= k < 6 :: !DeploySteps(app)[k].ResetHard?
  {
  }

  /** One plan per environment, in the order given, all with the same steps. */
  function PlansFor(envs: seq<Environment>, app: string, steps: seq<Command>): seq<EnvPlan> {
    seq(|envs|, i requires 0 <= i < |envs| => EnvPlan(envs[i], Workdir(app), steps))
  }
}

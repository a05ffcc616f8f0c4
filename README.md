# genuine-factory: rollback target resolution and environment fan-out

This project models the only decision logic in the Fabric deployment script
`fabfile.py`: the `rollback` and `deploy` tasks.

- `rollback(revert, environment)` sorts the revert token into one of three
  kinds. A version (`^\d+\.\d+\.\d+$`) is tried first, then a commit SHA
  (`^[0-9a-f]{5,40}$`), then a commit count (`^[0-9]+$`), and the first
  match wins. Any other token aborts before an environment is chosen.
- The kind decides the `git reset --hard` target: `HEAD~<n>` for a commit
  count, the token itself for a version or a SHA.
- Both tasks map the platform name to environments. `staging` gives staging,
  `prod` and `production` give production, and `all` gives staging followed
  by production. Any other name aborts.
- Each environment then gets a fixed list of remote steps. A deploy runs
  stash, pull, `npm install --production`, `gulp sass`, `gulp js` and
  `forever restart <app>`. A rollback runs the same list with the pull
  replaced by the hard reset.

The steps are modelled as data: a plan per environment holding its working
directory and its ordered `Command` values. Nothing is executed.

Files and modules:

- `aborts.dfy` (`Aborts`): the abort reasons and the `Result` type.
- `revert_token.dfy` (`RevertToken`): the three patterns and the token
  classifier. The version pattern is defined twice: once as the regex
  reads (`VersionPattern`), and once as a left-to-right matcher
  (`ScanVersion`). The two are proved equal. The module also builds the
  reset target.
- `platforms.dfy` (`Platforms`): environments and the platform dispatch.
- `commands.dfy` (`Commands`): commands, their shell lines, and the step
  lists of `_deploy` and `_rollback`.
- `tasks.dfy` (`Tasks`): the `deploy` and `rollback` tasks as plan builders,
  with the lemmas that relate them.

The application name is a parameter (`app`). In the script it comes from
`genuine.json` through `load_conf`.

A purely numeric token of 5 to 40 digits matches the hex pattern before the
digit pattern is tried, so it is a SHA (`ShaScenarios`, `Classify`). Any
string can be passed as the token: the empty token aborts, and a digit string
longer than 40 characters is a commit count.

## Model

| member | source | states |
|---|---|---|
| `RevertToken.MatchesVersion` | fabfile.py:159 | the left-to-right matcher accepts a token exactly when it is three non-empty digit runs separated by two dots |
| `RevertToken.PatternOverlap` | fabfile.py:159-165 | a version token matches neither the hex nor the digit pattern; the hex and digit patterns share exactly the all-digit tokens of 5 to 40 characters |
| `RevertToken.Classify` | fabfile.py:158-168 | Version exactly for version-shaped tokens; Sha exactly for 5 to 40 lower-case hex characters (all-digit ones included); CommitCount exactly for digit strings shorter than 5 or longer than 40; abort with InvalidRevertTarget exactly when no pattern matches |
| `RevertToken.AcceptedAlphabet` | fabfile.py:159-166 | an accepted token is non-empty, starts with a lower-case hex digit and holds only lower-case hex digits and dots |
| `RevertToken.ResetTargetShellSafe` | fabfile.py:186-189 | the reset target of an accepted token is non-empty, starts with `H` or a hex digit, and holds only hex digits, dots and the letters of `HEAD~`; so it cannot inject shell syntax into the `git reset` line, and its `~` never starts a word |
| `RevertToken.ResetTargetUnambiguous` | fabfile.py:186-189 | two accepted tokens with the same reset target are the same token of the same kind (a literal target never starts with `H`) |
| `Platforms.Dispatch` | fabfile.py:131-139 | known exactly for `staging`, `prod`, `production`, `all`; otherwise abort with UnknownPlatform(name); the environments are non-empty, without repeats, staging before production; production is reached unless the name is `staging`, staging only for `staging` and `all`; `rollback` uses the same dispatch (fabfile.py:170-178) |
| `Platforms.DispatchName` | fabfile.py:131-134 | naming an environment by its server key selects that environment alone |
| `Platforms.DispatchAliases` | fabfile.py:133-137 | `prod` is the same as `production`; `all` is the staging list followed by the production list |
| `Commands.CommandLineInjective` | fabfile.py:185-193 | two steps with the same shell line are the same step, so the structured plan loses nothing compared with the issued lines |
| `Commands.StepsDifferInReset` | fabfile.py:146-193 | the rollback steps are the deploy steps with step 1 (the pull) replaced by the hard reset; the rollback steps hold exactly one reset, at step 1, and the deploy steps hold none |
| `Tasks.Deploy` | fabfile.py:125-151 | aborts exactly on an unknown platform, with that reason; otherwise one plan per environment the platform names, in that order (staging first), each in `/home/<app>/public` with the deploy steps; production is reached exactly unless the platform is `staging`, staging exactly for `staging` and `all` |
| `Tasks.Rollback` | fabfile.py:153-193 | an invalid token aborts with InvalidRevertTarget whatever the platform; a valid token with an unknown platform aborts with UnknownPlatform; otherwise one plan per environment the platform names, in that order (staging first), each with the rollback steps for the token's reset target; production is reached exactly unless the platform is `staging` (fabfile.py:172-173), staging exactly for `staging` and `all` |
| `Tasks.RollbackToVersion` | fabfile.py:159-189 | a version-shaped token on a known platform yields plans whose single reset goes to the token itself |
| `Tasks.RollbackToSha` | fabfile.py:162-189 | a 5 to 40 character lower-case hex token on a known platform yields plans whose reset goes to the token itself |
| `Tasks.RollbackCommits` | fabfile.py:165-187 | a digit token shorter than 5 or longer than 40 on a known platform yields plans whose reset goes to `HEAD~<token>` |
| `Tasks.RollbackMirrorsDeploy` | fabfile.py:141-193 | an accepted rollback visits the same environments as the deploy of that platform; each rollback plan equals the deploy plan with its step 1 replaced by the reset, it holds exactly one reset (step 1), and the deploy plan holds none |
| `Tasks.DefaultRollback` | fabfile.py:154-193 | `rollback()` with its defaults `revert='1'` and `environment='staging'` is one staging plan that stashes, resets to `HEAD~1`, reinstalls, rebuilds and restarts |
| `Tasks.DefaultDeploy` | fabfile.py:126-132 | `deploy()` with its default `environment='staging'` is the single staging deploy plan |
| `Tasks.DeployAll` | fabfile.py:135-137 | `deploy:all` is the staging plan followed by the production plan |
| `Tasks.RollbackThreeCommits` | fabfile.py:165-187 | token `3` resets to `HEAD~3`, issued as `git reset --hard HEAD~3` |
| `Tasks.RollbackToTag` | fabfile.py:159-189 | token `2.1.0` resets to `2.1.0` |
| `Tasks.ShaScenarios` | fabfile.py:162-166 | `abc12` resets to itself; `12345` is a SHA, while `1234` is a commit count |
| `Tasks.RejectedScenarios` | fabfile.py:167-178 | `abcd`, `ABCDE`, the empty token and `1.2` abort with InvalidRevertTarget, even under `all` or an unknown platform; `1` on platform `qa` aborts with UnknownPlatform |

## Left out

- The pattern semantics are simplified. The model uses ASCII digits and an
  exact end of string. In Python's `re`, `$` also matches before a trailing
  newline, and `\d` also matches non-ASCII Unicode digits. So a token such as
  `"3\n"` is accepted by the script but rejected by the model.
- `load_conf` (fabfile.py:13-39) is not modelled. It reads the `VAULT_URL`
  environment variable and `genuine.json`, and it runs remote `vault`/`jq`
  commands. This is I/O and secret retrieval. `app` is a parameter instead,
  and the host `servers[environment]['ip']` is not resolved. A plan names
  its environment, and `Environment.Name()` gives the key the host would be
  looked up under.
- `repo_exist` (fabfile.py:42-49) and the Bitbucket calls in `construct` and
  `destroy` are not modelled. They are calls to a foreign REST client.
- The bodies of `construct` (fabfile.py:51-105) and `destroy`
  (fabfile.py:107-123) are not modelled. They are straight sequences of
  local and remote shell commands with no decision logic. The port search at
  fabfile.py:90 is a shell loop that runs on the remote host.
- `create_nginx_server_blocks` (fabfile.py:195-212) is not modelled. It is a
  text template filled from globals.
- Execution through Fabric's `run`, `cd` and `settings` is not modelled,
  and neither is the `warn_only` tolerance of failed commands. Plans are
  data. For `all`, the model lists the production plan after the staging
  plan. It does not model that production is still attempted after a
  staging failure.
- The printed messages are not modelled (fabfile.py:143, 160, 163, 166,
  182). This includes `_deploy` announcing itself as "Rollback on".
- `_rollback` has a branch where the rollback type is neither `commit`,
  `version` nor `sha`, in which case no reset is issued. The model leaves
  this branch out, because the classifier never produces such a type.

# pctl install and publish, modelled in Dafny

This project models the core of `pctl`, the command-line tool for Weaveworks
profiles. The model has three parts.

**Install** (`Catalog.Install`) takes a catalog name, a profile name and the
installation options. It asks the catalog service for
`profiles/<catalog>/<profile>`. A 404 becomes "unable to find profile … in
catalog …" and any other non-200 status becomes "failed to fetch profile:
status code N". A 200 body is decoded into a profile description. From it,
`Install` builds a `ProfileSubscription` and hands that to the writer:

- kind `ProfileSubscription` and API version `weave.works/v1alpha1`;
- the subscription name and namespace;
- the profile URL and the branch;
- a `valuesFrom` reference named `<subscription>-values`, present only when a
  config-map key was given.

**Publish** (`Catalog.CreatePullRequest`) runs these steps in order, and stops
at the first one that fails:

1. look up `git` on the path;
2. check that the working directory is a repository;
3. create the branch;
4. stage;
5. commit;
6. push;
7. build a source-hosting client;
8. open a pull request, titled "PCTL Generated Profile Resource Update", from
   the branch onto the base.

**The git driver** (`GitCli.CLIGit`) turns those operations into `git
--git-dir <location>/.git …` command lines. It sends them to an injected
runner:

- `status -s` decides whether there are changes;
- the commit is skipped on a clean tree;
- the branch is only created when it differs from the base;
- `push <remote> <branch>` and `add .` are single calls.

The runner is a class that records every command in `log` and answers from a
scripted list of replies. Once the list is used up, it echoes the command the
way the package's test runner does. Each driver method is proved equal to a
pure function of the script: `CommitRun`, `CreateBranchRun`, `AddRun`,
`PushRun` and `StatusProbe`. Those functions carry the properties.

The pipeline is also stated in two independent ways:

- `Publish`, as the code nests it;
- `ReferenceRun`, as "run the protocol up to the first failing step".

They are proved equal. `CreatePullRequest` over the command-line driver is
proved to follow `Publish` and to issue exactly the commands of the driver
phases it reached, each against the `.git` directory.

Files: `wrappers.dfy` (Option), `text.dfy` (`strings.Join`, `%d`, substring),
`git.dfy` (pkg/git/git.go), `catalog.dfy` (pkg/catalog/install.go).

## Model

| member | source | states |
|---|---|---|
| Text.Decimal | pkg/catalog/install.go:58 | The `%d` rendering of a status code is non-empty, all digits, and has no leading zero. |
| Text.DecimalRoundTrip | pkg/catalog/install.go:58 | Reading the `%d` rendering back as a decimal gives the original number. |
| GitCli.Runner.constructor | pkg/git/git_suite_test.go:13-16 | A fresh runner has an empty log and the given script of replies. |
| GitCli.Runner.Run | pkg/git/git_suite_test.go:18-22 | Running a command appends it to the log and consumes one reply. With no scripted reply left, it answers with no error and echoes the name and the comma-joined arguments, as the test runner does. |
| GitCli.CLIGit.constructor | pkg/git/git.go:47-54 | The driver's location is `<location>/.git`. Branch, remote, base and runner are the configured ones. |
| GitCli.CLIGit.RunCmd | pkg/git/git.go:132-138 | One runner call. The runner's error is returned unchanged and the output is dropped. |
| GitCli.CLIGit.HasChanges | pkg/git/git.go:104-110 | Issues exactly `git --git-dir <loc> status -s`. Changes are reported iff the probe succeeds with non-empty output. A failed probe is wrapped and reports no changes. |
| GitCli.HasChangesIffOutput | pkg/git/git.go:104-110 | Both directions: changes iff no error and non-empty output; an error iff the runner failed, wrapping that runner error. |
| GitCli.CLIGit.Commit | pkg/git/git.go:60-73 | The log grows by exactly the commands `CommitRun` prescribes. The script and the error are the ones `CommitRun` gives. |
| GitCli.CommitProbesFirst | pkg/git/git.go:60-73 | Commit always issues `status -s` first, and at most one more command, `commit -am "Push changes to remote"`. |
| GitCli.CommitOnlyWithChanges | pkg/git/git.go:60-73 | The commit is issued iff the probe succeeded with output. A failed probe yields the doubly wrapped detection error. Otherwise Commit fails iff the commit command fails. |
| GitCli.CommitOnCleanTreeIsNoOp | pkg/git/git.go:65-68 | On a clean tree, Commit issues only the probe and succeeds. |
| GitCli.CommitAgainOnCleanTree | pkg/git/git.go:60-73 | A second Commit whose probe finds a clean tree succeeds, only adds the probe to the log, and consumes one more reply. |
| GitCli.CLIGit.CreateBranch | pkg/git/git.go:76-85 | The log grows by exactly the commands `CreateBranchRun` prescribes. The error is the one it gives. |
| GitCli.CreateBranchOnlyOffBase | pkg/git/git.go:76-85 | Branch equal to base: nothing is issued, the script is untouched, and it succeeds. Otherwise it issues exactly `checkout -b <branch>` and fails iff that fails. |
| GitCli.CLIGit.IsRepository | pkg/git/git.go:93-101 | Fails iff stat reports that `<location>/.git` does not exist. The error names that path. Other stat failures are not reported. |
| GitCli.CLIGit.Push | pkg/git/git.go:113-119 | The log grows by exactly the commands `PushRun` prescribes. The error is the one it gives. |
| GitCli.CLIGit.Add | pkg/git/git.go:122-128 | The log grows by exactly the commands `AddRun` prescribes. The error is the one it gives. |
| GitCli.AddAndPushAreSingleCalls | pkg/git/git.go:113-128 | Add issues exactly `add .` and Push exactly `push <remote> <branch>`. Each fails iff its runner call fails, and its error wraps that runner error. |
| GitCli.StepsIssueAgainstGitDir | pkg/git/git.go:60-128 | Every command Commit, CreateBranch, Add and Push issue is `git --git-dir <location> …`. Only Push issues a push. |
| GitCli.StepsConsumeOneReplyPerCommand | pkg/git/git.go:60-128 | Each of Commit, CreateBranch, Add and Push consumes exactly one runner reply per command it issues, leaving the rest of the script in order, or nothing once the replies run out. |
| GitCli.EchoMatchesRunnerSuite | pkg/git/runner_test.go:10-15 | The test runner echoes `cmd` with `args1`, `args2` as the expected string, with the arguments joined by commas. |
| GitCli.LocationMatchesSuite | pkg/git/git_test.go:18-22 | A driver configured at "location" works in "location/.git". |
| GitCli.AddMatchesSuite | pkg/git/git_test.go:16-25 | The echo of Add's command is the expected string `--git-dir,location/.git,add,.` after the command name. |
| GitCli.CommitMatchesSuite | pkg/git/git_test.go:27-36 | Against the echoing runner, HasChanges reports changes without error. Commit issues the probe and then the commit, and succeeds. |
| Catalog.SubscriptionShape | pkg/catalog/install.go:66-79 | The resource carries the fixed kind and API version, the subscription name and namespace, the resolved profile URL and the branch. |
| Catalog.ValuesFromIffConfigMap | pkg/catalog/install.go:80-88 | `valuesFrom` is non-empty iff a config-map key was given. It is then the single reference `ConfigMap`, `<subscription>-values`, with that key. |
| Catalog.BranchAndNamespaceOnlyTouchTheirFields | pkg/catalog/install.go:71-78 | Changing branch and namespace changes only `spec.branch` and `metadata.namespace`. |
| Catalog.SubscriptionIgnoresCatalogLocation | pkg/catalog/install.go:66-88 | Catalog name, catalog URL and profile name do not affect the built resource. |
| Catalog.IntegrationScenarios | tests/integration/integration_test.go:95-170 | The three nginx install runs give the expected resources: the defaults, a given branch and namespace, and a given config secret. |
| Catalog.Install | pkg/catalog/install.go:36-93 | Each error path in code order (URL parse, transport, 404, other status, decode, writer) gives its error and writes nothing before the writer. The request path is `profiles/<catalog>/<profile>`. On 200 with a decoded body, the writer receives the built subscription. Success implies something was written. |
| Catalog.NotFoundMessageNamesBoth | pkg/catalog/install.go:53-55 | The not-found message contains both the profile name and the catalog name. |
| Catalog.FetchFailedMessageCarriesStatus | pkg/catalog/install.go:57-59 | The fetch-failure message is the fixed prefix followed by digits that read back as the status code. |
| Catalog.FirstFailure | pkg/catalog/install.go:96-139 | The index of the first failing protocol step at or after `i`. Every step before it succeeds, and the step at it fails. |
| Catalog.PublishFollowsProtocol | pkg/catalog/install.go:96-139 | The nested pipeline equals the reference run: the protocol up to and including the first failing step, with the request sent only when every earlier step succeeded. |
| Catalog.RunStopsAtFirstFailure | pkg/catalog/install.go:96-139 | The git lookup always runs. Every step ran before the last succeeded. The run's error is the last step's error. It succeeds iff all eight steps ran and succeeded. |
| Catalog.StepRunsOnlyAfterEarlierSucceed | pkg/catalog/install.go:96-139 | For any two steps in protocol order, the later one runs only if the earlier one ran and succeeded. |
| Catalog.PullRequestOnlyAfterPush | pkg/catalog/install.go:121-136 | A pull request is requested iff every step before it succeeded, so only after a successful push and client construction. It is the fixed title, with the branch as head and the given base. |
| Catalog.PhasesTargetGitDir | pkg/catalog/install.go:105-119 | Branch, add, commit and push, chained over the script, issue their commands against the driver's `.git` directory. Only push pushes, and it issues exactly one command. |
| Catalog.PhasesLogTargetsGitDir | pkg/catalog/install.go:105-119 | The commands issued up to any step all target the `.git` directory. Nothing is pushed before the push step, and once it runs, the push is the last command. |
| Catalog.PhasesConsumeOneReplyPerCommand | pkg/catalog/install.go:105-119 | After any number of pipeline steps, the runner has the script's length minus the number of logged commands left, or none. |
| Catalog.CreatePullRequest | pkg/catalog/install.go:96-139 | The run is the `Publish` run for what the steps reported. Lookup, client and pull-request outcomes are the environment's. The repository check is the stat result. Each git step's error is that driver phase's error on the remaining script. The runner log grows by exactly the commands of the phases reached. The runner is left with the script the last phase reached left over, or the untouched script when no git step ran. |

## Left out

- The HTTP exchange with the catalog service is an input, `HttpOutcome`. This covers `doRequest`, `url.Parse` and the JSON decoder. Closing the response body and its logged failure are not modelled.
- The writer is an input error, and the model returns the subscription it would receive. The YAML rendering is not modelled (the `creationTimestamp: null` and `status: {}` fields and key order), because it belongs to the writer package.
- `exec.LookPath`, `factory.NewClientFromEnvironment` and `PullRequests.Create` are inputs in `Environment`. The pull request's number and link are only printed (pkg/catalog/install.go:137), so they are not modelled.
- Console output (`fmt.Println`/`Printf` in the driver and the pipeline, including runCmd's failure log) is not modelled.
- `os.Stat` is a function input `stat`. A real filesystem is not modelled.
- GitCli.CLIGit.constructor: `filepath.Join` is modelled as `<location>/.git` (`.git` for an empty location), without cleaning `.`, `..` or doubled slashes.
- Catalog.Install: the URL in the parse error is rendered with plain double quotes, not Go's `%q` escaping.
- `CreateRepository` is not modelled. It is a stub that always fails, and nothing in the modelled code calls it.
- The `Git` interface is represented by `Publish` over the outcomes each step reports. `CreatePullRequest` is proved only for the command-line driver, because the model has no interface types.
- The profile description keeps only its URL. Its other fields are not read by `Install`.
- HTTP status codes are natural numbers. Negative codes cannot occur.
- `Install` does not check that the decoded profile URL is non-empty (pkg/catalog/install.go:61-76). The model builds the subscription from whatever URL was decoded.
- Echo strings of the suite's expectations are proved only for `Add` and the runner test. For `Commit`, `HasChanges` and `Push`, the model proves the issued commands and the error, not their echo text.

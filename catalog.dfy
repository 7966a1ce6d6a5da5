/**
 * The install-and-publish workflow of pkg/catalog/install.go.
 *
 * `Install` resolves a profile against a catalog, builds a ProfileSubscription
 * from the configuration and the resolved profile URL, and hands it to the
 * writer. `CreatePullRequest` drives a git driver through branch, add, commit
 * and push and then asks the source-hosting API for a pull request.
 *
 * The catalog's HTTP exchange, URL parsing, JSON decoding, the writer, the
 * lookup of the git executable, the construction of the source-hosting client
 * and its pull-request call are external; each appears as an input that
 * stands for the answer that collaborator gives.
 */
module Catalog {
  import opened Wrappers
  import Text
  import GitCli

  /** An error reported by an external collaborator, carried as its message. */
  datatype Cause = Cause(text: string)

  // ---------------------------------------------------------------------
  // The subscription resource and its builder
  // ---------------------------------------------------------------------

  const SubscriptionKind := "ProfileSubscription"
  const SubscriptionApiVersion := "weave.works/v1alpha1"
  const ValuesKind := "ConfigMap"
  const ValuesSuffix := "-values"

  /** The parameters of an installation; the writer itself is an input of `Install`. */
  datatype InstallConfig = InstallConfig(
    branch: string,
    catalogName: string,
    catalogUrl: string,
    configMap: string,
    namespace: string,
    profileName: string,
    subName: string)

  /** The part of a catalog's profile description that installation uses. */
  datatype ProfileDescription = ProfileDescription(url: string)

  datatype TypeMeta = TypeMeta(kind: string, apiVersion: string)
  datatype ObjectMeta = ObjectMeta(name: string, namespace: string)
  datatype ValuesReference = ValuesReference(kind: string, name: string, valuesKey: string)
  datatype SubscriptionSpec = SubscriptionSpec(profileUrl: string, branch: string, valuesFrom: seq<ValuesReference>)
  datatype ProfileSubscription = ProfileSubscription(typeMeta: TypeMeta, metadata: ObjectMeta, spec: SubscriptionSpec)

  /** The subscription `Install` writes for the profile found at `profileUrl`. */
  function BuildSubscription(cfg: InstallConfig, profileUrl: string): ProfileSubscription
  {
    var subscription := ProfileSubscription(
      TypeMeta(SubscriptionKind, SubscriptionApiVersion),
      ObjectMeta(cfg.subName, cfg.namespace),
      SubscriptionSpec(profileUrl, cfg.branch, []));
    if cfg.configMap != "" then
      subscription.(spec := subscription.spec.(valuesFrom :=
        [ValuesReference(ValuesKind, cfg.subName + ValuesSuffix, cfg.configMap)]))
    else
      subscription
  }

  /** Kind, API version, name, namespace, profile URL and branch come from the configuration and the profile. */
  lemma SubscriptionShape(cfg: InstallConfig, profileUrl: string)
    ensures var s := BuildSubscription(cfg, profileUrl);
      && s.typeMeta.kind == "ProfileSubscription"
      && s.typeMeta.apiVersion == "weave.works/v1alpha1"
      && s.metadata.name == cfg.subName
      && s.metadata.namespace == cfg.namespace
      && s.spec.profileUrl == profileUrl
      && s.spec.branch == cfg.branch
  {
  }

  /** A values reference is present iff a config map key is given, and then it is exactly one derived entry. */
  lemma ValuesFromIffConfigMap(cfg: InstallConfig, profileUrl: string)
    ensures var s := BuildSubscription(cfg, profileUrl);
      && (s.spec.valuesFrom != [] <==> cfg.configMap != "")
      && (cfg.configMap != "" ==>
            s.spec.valuesFrom == [ValuesReference("ConfigMap", cfg.subName + "-values", cfg.configMap)])
  {
  }

  /** Changing only the branch and the namespace changes only `spec.branch` and `metadata.namespace`. */
  lemma BranchAndNamespaceOnlyTouchTheirFields(cfg: InstallConfig, profileUrl: string, branch: string, namespace: string)
    ensures var s := BuildSubscription(cfg, profileUrl);
      BuildSubscription(cfg.(branch := branch, namespace := namespace), profileUrl)
        == s.(metadata := s.metadata.(namespace := namespace), spec := s.spec.(branch := branch))
  {
  }

  /** The subscription does not depend on where the profile was found, only on its URL. */
  lemma SubscriptionIgnoresCatalogLocation(cfg: InstallConfig, profileUrl: string, catalogName: string, catalogUrl: string, profileName: string)
    ensures BuildSubscription(cfg.(catalogName := catalogName, catalogUrl := catalogUrl, profileName := profileName), profileUrl)
         == BuildSubscription(cfg, profileUrl)
  {
  }

  /**
   * The integration suite's three install runs against the nginx catalog: the
   * defaults, a branch and namespace given, and a config secret given.
   */
  lemma IntegrationScenarios()
    ensures var url := "https://github.com/weaveworks/nginx-profile";
      var cfg := InstallConfig("main", "nginx-catalog", "", "", "default", "weaveworks-nginx", "pctl-profile");
      && BuildSubscription(cfg, url) == ProfileSubscription(
           TypeMeta("ProfileSubscription", "weave.works/v1alpha1"),
           ObjectMeta("pctl-profile", "default"),
           SubscriptionSpec(url, "main", []))
      && BuildSubscription(cfg.(branch := "my_branch", namespace := "my-namespace"), url) == ProfileSubscription(
           TypeMeta("ProfileSubscription", "weave.works/v1alpha1"),
           ObjectMeta("pctl-profile", "my-namespace"),
           SubscriptionSpec(url, "my_branch", []))
      && BuildSubscription(cfg.(configMap := "my-secret"), url) == ProfileSubscription(
           TypeMeta("ProfileSubscription", "weave.works/v1alpha1"),
           ObjectMeta("pctl-profile", "default"),
           SubscriptionSpec(url, "main", [ValuesReference("ConfigMap", "pctl-profile-values", "my-secret")]))
  {
    var secret := "my-secret";
    assert secret[0] == 'm';
    assert "pctl-profile" + ValuesSuffix == "pctl-profile-values";
  }

  // ---------------------------------------------------------------------
  // Install
  // ---------------------------------------------------------------------

  /** What the JSON decoder made of a response body. */
  datatype Body = Decoded(profile: ProfileDescription) | Malformed(cause: Cause)

  /** What the HTTP request produced: a transport error or a response. */
  datatype HttpOutcome = TransportFailed(cause: Cause) | Response(status: nat, body: Body)

  const StatusOK := 200
  const StatusNotFound := 404

  const NotFoundPrefix := "unable to find profile `"
  const NotFoundInfix := "` in catalog `"
  const FetchFailedPrefix := "failed to fetch profile: status code "

  datatype InstallError =
    | UrlParseFailed(url: string, cause: Cause)
    | RequestFailed(cause: Cause)
    | ProfileNotFound(profile: string, catalog: string)
    | FetchFailed(status: nat)
    | DecodeFailed(cause: Cause)
    | OutputFailed(cause: Cause)
  {
    /** The text the error renders as (`%w` appends ": " and the cause). */
    function Message(): string
    {
      match this
      case UrlParseFailed(url, cause) => "failed to parse url \"" + url + "\": " + cause.text
      case RequestFailed(cause) => "failed to do request: " + cause.text
      case ProfileNotFound(profile, catalog) => NotFoundPrefix + profile + NotFoundInfix + catalog + "`"
      case FetchFailed(status) => FetchFailedPrefix + Text.Decimal(status)
      case DecodeFailed(cause) => "failed to parse profile: " + cause.text
      case OutputFailed(cause) => "failed to output subscription information: " + cause.text
    }
  }

  /** The path requested from the catalog for a profile. */
  function ProfilePath(catalogName: string, profileName: string): string
  {
    "profiles/" + catalogName + "/" + profileName
  }

  /**
   * `Install`. `urlErr` is what parsing the catalog URL reported, `response`
   * what the request for `path` returned, and `writerErr` what the writer
   * reported. `written` is the subscription handed to the writer, if any.
   */
  method Install(cfg: InstallConfig, urlErr: Option<Cause>, response: HttpOutcome, writerErr: Option<Cause>)
    returns (err: Option<InstallError>, path: Option<string>, written: Option<ProfileSubscription>)
    ensures urlErr.Some? ==>
      err == Some(UrlParseFailed(cfg.catalogUrl, urlErr.value)) && path == None && written == None
    ensures urlErr.None? ==> path == Some("profiles/" + cfg.catalogName + "/" + cfg.profileName)
    ensures urlErr.None? && response.TransportFailed? ==>
      err == Some(RequestFailed(response.cause)) && written == None
    ensures urlErr.None? && response.Response? && response.status == 404 ==>
      err == Some(ProfileNotFound(cfg.profileName, cfg.catalogName)) && written == None
    ensures urlErr.None? && response.Response? && response.status != 404 && response.status != 200 ==>
      err == Some(FetchFailed(response.status)) && written == None
    ensures urlErr.None? && response.Response? && response.status == 200 && response.body.Malformed? ==>
      err == Some(DecodeFailed(response.body.cause)) && written == None
    ensures urlErr.None? && response.Response? && response.status == 200 && response.body.Decoded? ==>
      && written == Some(BuildSubscription(cfg, response.body.profile.url))
      && err == (if writerErr.Some? then Some(OutputFailed(writerErr.value)) else None)
    ensures err == None ==> written.Some?
  {
    if urlErr.Some? {
      return Some(UrlParseFailed(cfg.catalogUrl, urlErr.value)), None, None;
    }
    path := Some(ProfilePath(cfg.catalogName, cfg.profileName));
    written := None;
    if response.TransportFailed? {
      return Some(RequestFailed(response.cause)), path, None;
    }
    if response.status == StatusNotFound {
      return Some(ProfileNotFound(cfg.profileName, cfg.catalogName)), path, None;
    }
    if response.status != StatusOK {
      return Some(FetchFailed(response.status)), path, None;
    }
    if response.body.Malformed? {
      return Some(DecodeFailed(response.body.cause)), path, None;
    }
    var subscription := BuildSubscription(cfg, response.body.profile.url);
    written := Some(subscription);
    if writerErr.Some? {
      return Some(OutputFailed(writerErr.value)), path, written;
    }
    err := None;
  }

  /** The not-found message names both the profile and the catalog verbatim. */
  lemma NotFoundMessageNamesBoth(profile: string, catalog: string)
    ensures Text.Contains(ProfileNotFound(profile, catalog).Message(), profile)
    ensures Text.Contains(ProfileNotFound(profile, catalog).Message(), catalog)
  {
    var m := ProfileNotFound(profile, catalog).Message();
    Text.ContainsMiddle(NotFoundPrefix, profile, NotFoundInfix + catalog + "`");
    assert m == NotFoundPrefix + profile + (NotFoundInfix + catalog + "`");
    Text.ContainsMiddle(NotFoundPrefix + profile + NotFoundInfix, catalog, "`");
    assert m == (NotFoundPrefix + profile + NotFoundInfix) + catalog + "`";
  }

  /** The failed-fetch message ends in the decimal status code, which reads back as that code. */
  lemma FetchFailedMessageCarriesStatus(status: nat)
    ensures var m := FetchFailed(status).Message();
      && |m| > |FetchFailedPrefix|
      && m[..|FetchFailedPrefix|] == FetchFailedPrefix
      && (forall i :: |FetchFailedPrefix| <= i < |m| ==> Text.IsDigit(m[i]))
      && Text.DecimalValue(m[|FetchFailedPrefix|..]) == status
  {
    var m := FetchFailed(status).Message();
    assert m[|FetchFailedPrefix|..] == Text.Decimal(status);
    Text.DecimalRoundTrip(status);
  }

  // ---------------------------------------------------------------------
  // CreatePullRequest
  // ---------------------------------------------------------------------

  const PullRequestTitle := "PCTL Generated Profile Resource Update"

  /** The request sent to the source-hosting API. */
  datatype PullRequestInput = PullRequestInput(repo: string, title: string, head: string, base: string)

  /** The steps of the publishing pipeline. */
  datatype Step = LookPath | IsRepository | CreateBranch | Add | Commit | Push | NewClient | CreatePR

  /** The order in which the pipeline runs its steps. */
  const Protocol: seq<Step> := [LookPath, IsRepository, CreateBranch, Add, Commit, Push, NewClient, CreatePR]

  /** The error each step reports (None for success), whichever git implementation produced it. */
  datatype Outcomes = Outcomes(
    lookPath: Option<Cause>,
    isRepository: Option<GitCli.Error>,
    createBranch: Option<GitCli.Error>,
    add: Option<GitCli.Error>,
    commit: Option<GitCli.Error>,
    push: Option<GitCli.Error>,
    client: Option<Cause>,
    createPR: Option<Cause>)

  datatype PublishError =
    | ToolNotFound(cause: Cause)
    | NotARepository(gitCause: GitCli.Error)
    | BranchFailed(branch: string, gitCause: GitCli.Error)
    | AddFailed(gitCause: GitCli.Error)
    | CommitFailed(gitCause: GitCli.Error)
    | PushFailed(gitCause: GitCli.Error)
    | ClientFailed(cause: Cause)
    | PullRequestFailed(cause: Cause)
  {
    function Message(): string
    {
      match this
      case ToolNotFound(cause) => "failed to find git on path: " + cause.text
      case NotARepository(e) => "directory is not a git repository: " + e.Message()
      case BranchFailed(branch, e) => "failed to create branch " + branch + ": " + e.Message()
      case AddFailed(e) => "failed to add changes: " + e.Message()
      case CommitFailed(e) => "failed to commit changes: " + e.Message()
      case PushFailed(e) => "failed to push changes: " + e.Message()
      case ClientFailed(cause) => "failed to create scm client: " + cause.text
      case PullRequestFailed(cause) => "error while creating pr: " + cause.text
    }
  }

  /** The position of each step in `Protocol`. */
  function Index(s: Step): (i: nat)
    ensures i < |Protocol| && Protocol[i] == s
  {
    match s
    case LookPath => 0
    case IsRepository => 1
    case CreateBranch => 2
    case Add => 3
    case Commit => 4
    case Push => 5
    case NewClient => 6
    case CreatePR => 7
  }

  /** A number of protocol steps. */
  type StepCount = k: nat | k <= 8

  /**
   * What a run of the pipeline did: it ran the first `steps` steps of
   * `Protocol`, sent `request` (if any) and returned `err`.
   */
  datatype PublishRun = PublishRun(steps: StepCount, request: Option<PullRequestInput>, err: Option<PublishError>)
  {
    /** Step `s` was run. */
    predicate Ran(s: Step)
    {
      Index(s) < steps
    }
  }

  /** The pipeline as the code nests it: each step runs only when all before it succeeded. */
  function Publish(o: Outcomes, repo: string, base: string, branch: string): PublishRun
  {
    if o.lookPath.Some? then
      PublishRun(1, None, Some(ToolNotFound(o.lookPath.value)))
    else if o.isRepository.Some? then
      PublishRun(2, None, Some(NotARepository(o.isRepository.value)))
    else if o.createBranch.Some? then
      PublishRun(3, None, Some(BranchFailed(branch, o.createBranch.value)))
    else if o.add.Some? then
      PublishRun(4, None, Some(AddFailed(o.add.value)))
    else if o.commit.Some? then
      PublishRun(5, None, Some(CommitFailed(o.commit.value)))
    else if o.push.Some? then
      PublishRun(6, None, Some(PushFailed(o.push.value)))
    else if o.client.Some? then
      PublishRun(7, None, Some(ClientFailed(o.client.value)))
    else
      var request := PullRequestInput(repo, PullRequestTitle, branch, base);
      if o.createPR.Some? then
        PublishRun(8, Some(request), Some(PullRequestFailed(o.createPR.value)))
      else
        PublishRun(8, Some(request), None)
  }

  /** The error step `s` reports under `o`, wrapped as the pipeline wraps it. */
  function StepError(o: Outcomes, s: Step, branch: string): Option<PublishError>
  {
    match s
    case LookPath => if o.lookPath.Some? then Some(ToolNotFound(o.lookPath.value)) else None
    case IsRepository => if o.isRepository.Some? then Some(NotARepository(o.isRepository.value)) else None
    case CreateBranch => if o.createBranch.Some? then Some(BranchFailed(branch, o.createBranch.value)) else None
    case Add => if o.add.Some? then Some(AddFailed(o.add.value)) else None
    case Commit => if o.commit.Some? then Some(CommitFailed(o.commit.value)) else None
    case Push => if o.push.Some? then Some(PushFailed(o.push.value)) else None
    case NewClient => if o.client.Some? then Some(ClientFailed(o.client.value)) else None
    case CreatePR => if o.createPR.Some? then Some(PullRequestFailed(o.createPR.value)) else None
  }

  /** The index in `Protocol` of the first failing step at or after `i`, or `|Protocol|` if none fails. */
  function FirstFailure(o: Outcomes, branch: string, i: nat): (k: nat)
    requires i <= |Protocol|
    ensures i <= k <= |Protocol|
    ensures forall j :: i <= j < k ==> StepError(o, Protocol[j], branch).None?
    ensures k < |Protocol| ==> StepError(o, Protocol[k], branch).Some?
    decreases |Protocol| - i
  {
    if i == |Protocol| then i
    else if StepError(o, Protocol[i], branch).Some? then i
    else FirstFailure(o, branch, i + 1)
  }

  /**
   * The pipeline stated independently of its nesting: run the protocol up to
   * and including the first failing step; the request is sent once every step
   * before it succeeded.
   */
  function ReferenceRun(o: Outcomes, repo: string, base: string, branch: string): PublishRun
  {
    var k := FirstFailure(o, branch, 0);
    PublishRun(
      if k < |Protocol| then k + 1 else k,
      if k >= Index(CreatePR) then Some(PullRequestInput(repo, PullRequestTitle, branch, base)) else None,
      if k < |Protocol| then StepError(o, Protocol[k], branch) else None)
  }

  /** The nested pipeline runs the protocol up to its first failure. */
  lemma {:induction false} PublishFollowsProtocol(o: Outcomes, repo: string, base: string, branch: string)
    ensures Publish(o, repo, base, branch) == ReferenceRun(o, repo, base, branch)
  {
    var k := FirstFailure(o, branch, 0);
    if o.lookPath.Some? {
      assert k == 0;
    } else if o.isRepository.Some? {
      assert StepError(o, Protocol[0], branch).None?;
      assert k == 1;
    } else if o.createBranch.Some? {
      assert k == 2;
    } else if o.add.Some? {
      assert k == 3;
    } else if o.commit.Some? {
      assert k == 4;
    } else if o.push.Some? {
      assert k == 5;
    } else if o.client.Some? {
      assert k == 6;
    } else if o.createPR.Some? {
      assert k == 7;
    } else {
      assert k == 8;
    }
  }

  /**
   * The run starts with the git lookup and runs the protocol in order; every
   * step but the last one run succeeded; the run fails iff its last step
   * failed, and then with that step's error; it succeeds iff every step ran
   * and succeeded.
   */
  lemma RunStopsAtFirstFailure(o: Outcomes, repo: string, base: string, branch: string)
    ensures var r := Publish(o, repo, base, branch);
      && r.Ran(LookPath)
      && (forall j :: 0 <= j < r.steps - 1 ==> StepError(o, Protocol[j], branch).None?)
      && r.err == StepError(o, Protocol[r.steps - 1], branch)
      && (r.err.None? <==> r.steps == |Protocol| && forall j :: 0 <= j < |Protocol| ==> StepError(o, Protocol[j], branch).None?)
  {
    PublishFollowsProtocol(o, repo, base, branch);
  }

  /** Each step runs only after every step before it in the protocol ran and succeeded. */
  lemma StepRunsOnlyAfterEarlierSucceed(o: Outcomes, repo: string, base: string, branch: string, earlier: Step, later: Step)
    requires Index(earlier) < Index(later)
    ensures var r := Publish(o, repo, base, branch);
      r.Ran(later) ==> r.Ran(earlier) && StepError(o, earlier, branch).None?
  {
    RunStopsAtFirstFailure(o, repo, base, branch);
  }

  /**
   * A pull request is requested only after push and client construction both
   * succeeded (and every step before them), and it is always the same request:
   * the fixed title, the given branch as head and the given base.
   */
  lemma PullRequestOnlyAfterPush(o: Outcomes, repo: string, base: string, branch: string)
    ensures var r := Publish(o, repo, base, branch);
      && (r.request.Some? <==> forall j :: 0 <= j < Index(CreatePR) ==> StepError(o, Protocol[j], branch).None?)
      && (r.request.Some? ==>
            && r.Ran(Push) && o.push.None? && o.client.None?
            && r.request.value == PullRequestInput(repo, "PCTL Generated Profile Resource Update", branch, base))
  {
    PublishFollowsProtocol(o, repo, base, branch);
  }

  lemma AppendAssociates<T>(a: seq<T>, b: seq<T>, c: seq<T>)
    ensures (a + b) + c == a + (b + c)
  {
  }

  /** The four driver operations the pipeline runs, each on the script the previous one left. */
  datatype GitPhases = GitPhases(branchRun: GitCli.StepRun, addRun: GitCli.StepRun, commitRun: GitCli.StepRun, pushRun: GitCli.StepRun)

  function Phases(dir: string, base: string, branch: string, remote: string, script: seq<GitCli.Reply>): GitPhases
  {
    var b := GitCli.CreateBranchRun(dir, base, branch, script);
    var a := GitCli.AddRun(dir, b.rest);
    var c := GitCli.CommitRun(dir, a.rest);
    GitPhases(b, a, c, GitCli.PushRun(dir, remote, branch, c.rest))
  }

  /** The commands the driver operations issue when the first `steps` protocol steps ran. */
  function PhasesLog(ph: GitPhases, steps: StepCount): seq<GitCli.Command>
  {
    if steps <= Index(CreateBranch) then []
    else if steps == Index(Add) then ph.branchRun.issued
    else if steps == Index(Commit) then ph.branchRun.issued + ph.addRun.issued
    else if steps == Index(Push) then ph.branchRun.issued + ph.addRun.issued + ph.commitRun.issued
    else ph.branchRun.issued + ph.addRun.issued + ph.commitRun.issued + ph.pushRun.issued
  }

  /** Each driver operation of the pipeline issues its commands against `dir`; only the push step pushes. */
  lemma PhasesTargetGitDir(dir: string, base: string, branch: string, remote: string, script: seq<GitCli.Reply>)
    ensures var ph := Phases(dir, base, branch, remote, script);
      && GitCli.AllIssuedAgainst(ph.branchRun.issued, dir) && GitCli.NoPushAmong(ph.branchRun.issued)
      && GitCli.AllIssuedAgainst(ph.addRun.issued, dir) && GitCli.NoPushAmong(ph.addRun.issued)
      && GitCli.AllIssuedAgainst(ph.commitRun.issued, dir) && GitCli.NoPushAmong(ph.commitRun.issued)
      && ph.pushRun.issued == [GitCli.PushCommand(dir, remote, branch)]
  {
    var ph := Phases(dir, base, branch, remote, script);
    GitCli.StepsIssueAgainstGitDir(dir, base, branch, remote, script);
    GitCli.StepsIssueAgainstGitDir(dir, base, branch, remote, ph.branchRun.rest);
    GitCli.StepsIssueAgainstGitDir(dir, base, branch, remote, ph.addRun.rest);
  }

  /** The script left to the runner when the first `steps` protocol steps ran, starting from `script`. */
  function PhasesRest(ph: GitPhases, script: seq<GitCli.Reply>, steps: StepCount): seq<GitCli.Reply>
  {
    if steps <= Index(CreateBranch) then script
    else if steps == Index(Add) then ph.branchRun.rest
    else if steps == Index(Commit) then ph.addRun.rest
    else if steps == Index(Push) then ph.commitRun.rest
    else ph.pushRun.rest
  }

  /** Counting replies along the chain of driver runs, each consuming one per command while replies last. */
  lemma ChainConsumesOneReplyPerCommand(script: seq<GitCli.Reply>, ph: GitPhases, steps: StepCount)
    requires |ph.branchRun.rest| == GitCli.Remaining(|script|, |ph.branchRun.issued|)
    requires |ph.addRun.rest| == GitCli.Remaining(|ph.branchRun.rest|, |ph.addRun.issued|)
    requires |ph.commitRun.rest| == GitCli.Remaining(|ph.addRun.rest|, |ph.commitRun.issued|)
    requires |ph.pushRun.rest| == GitCli.Remaining(|ph.commitRun.rest|, |ph.pushRun.issued|)
    ensures |PhasesRest(ph, script, steps)| == GitCli.Remaining(|script|, |PhasesLog(ph, steps)|)
  {
  }

  /**
   * The pipeline consumes one reply per command it issued while replies last:
   * the runner is left with the script's length minus the log's length, or none.
   */
  lemma PhasesConsumeOneReplyPerCommand(dir: string, base: string, branch: string, remote: string,
                                        script: seq<GitCli.Reply>, steps: StepCount)
    ensures var ph := Phases(dir, base, branch, remote, script);
      |PhasesRest(ph, script, steps)| == GitCli.Remaining(|script|, |PhasesLog(ph, steps)|)
  {
    var ph := Phases(dir, base, branch, remote, script);
    GitCli.StepsConsumeOneReplyPerCommand(dir, base, branch, remote, script);
    assert |ph.branchRun.rest| == GitCli.Remaining(|script|, |ph.branchRun.issued|);
    GitCli.StepsConsumeOneReplyPerCommand(dir, base, branch, remote, ph.branchRun.rest);
    assert |ph.addRun.rest| == GitCli.Remaining(|ph.branchRun.rest|, |ph.addRun.issued|);
    GitCli.StepsConsumeOneReplyPerCommand(dir, base, branch, remote, ph.addRun.rest);
    assert |ph.commitRun.rest| == GitCli.Remaining(|ph.addRun.rest|, |ph.commitRun.issued|);
    GitCli.StepsConsumeOneReplyPerCommand(dir, base, branch, remote, ph.commitRun.rest);
    assert |ph.pushRun.rest| == GitCli.Remaining(|ph.commitRun.rest|, |ph.pushRun.issued|);
    ChainConsumesOneReplyPerCommand(script, ph, steps);
  }

  /**
   * Every command the pipeline issues goes to the driver's `.git` directory;
   * nothing is pushed before the push step, which issues the last command.
   */
  lemma PhasesLogTargetsGitDir(dir: string, base: string, branch: string, remote: string, script: seq<GitCli.Reply>, steps: StepCount)
    ensures var log := PhasesLog(Phases(dir, base, branch, remote, script), steps);
      && GitCli.AllIssuedAgainst(log, dir)
      && (steps <= Index(Push) ==> GitCli.NoPushAmong(log))
      && (steps > Index(Push) ==> |log| > 0 && log[|log| - 1] == GitCli.PushCommand(dir, remote, branch))
  {
    var ph := Phases(dir, base, branch, remote, script);
    PhasesTargetGitDir(dir, base, branch, remote, script);
    var b, a, c, p := ph.branchRun.issued, ph.addRun.issued, ph.commitRun.issued, ph.pushRun.issued;
    GitCli.IssuedConcat(b, a, dir);
    GitCli.IssuedConcat(b + a, c, dir);
    if steps > Index(Push) {
      assert GitCli.AllIssuedAgainst(p, dir);
      GitCli.IssuedConcat(b + a + c, p, dir);
    }
  }

  /** The oracles standing for the environment the pipeline runs in. */
  datatype Environment = Environment(
    lookPath: Option<Cause>,
    stat: string -> GitCli.StatResult,
    client: Option<Cause>,
    createPR: Option<Cause>)

  /**
   * `CreatePullRequest` over the command-line driver `g`. `steps` and
   * `observed` record how many protocol steps ran and what each reported; the
   * run is exactly what the protocol prescribes for those reports. `issued`
   * is what the driver appended to its runner's log.
   */
  method CreatePullRequest(repo: string, base: string, branch: string, g: GitCli.CLIGit, env: Environment)
    returns (err: Option<PublishError>, request: Option<PullRequestInput>,
             ghost steps: StepCount, ghost observed: Outcomes)
    modifies g.runner
    ensures Publish(observed, repo, base, branch) == PublishRun(steps, request, err)
    ensures observed.lookPath == env.lookPath && observed.client == env.client && observed.createPR == env.createPR
    ensures steps > Index(IsRepository) ==>
      observed.isRepository == (if env.stat(g.location) == GitCli.NotExist then Some(GitCli.PathNotExist(g.location)) else None)
    ensures var ph := Phases(g.location, g.base, g.branch, g.remote, old(g.runner.script));
      && (steps > Index(CreateBranch) ==> observed.createBranch == ph.branchRun.err)
      && (steps > Index(Add) ==> observed.add == ph.addRun.err)
      && (steps > Index(Commit) ==> observed.commit == ph.commitRun.err)
      && (steps > Index(Push) ==> observed.push == ph.pushRun.err)
    ensures g.runner.log == old(g.runner.log) + PhasesLog(Phases(g.location, g.base, g.branch, g.remote, old(g.runner.script)), steps)
    ensures g.runner.script == PhasesRest(Phases(g.location, g.base, g.branch, g.remote, old(g.runner.script)), old(g.runner.script), steps)
  {
    ghost var ph := Phases(g.location, g.base, g.branch, g.remote, g.runner.script);
    observed := Outcomes(env.lookPath, None, None, None, None, None, env.client, env.createPR);
    if env.lookPath.Some? {
      return Some(ToolNotFound(env.lookPath.value)), None, 1, observed;
    }
    var isRepo := g.IsRepository(env.stat);
    observed := observed.(isRepository := isRepo);
    if isRepo.Some? {
      return Some(NotARepository(isRepo.value)), None, 2, observed;
    }
    var e := g.CreateBranch();
    assert e == ph.branchRun.err && g.runner.script == ph.branchRun.rest;
    assert g.runner.log == old(g.runner.log) + ph.branchRun.issued;
    observed := observed.(createBranch := e);
    if e.Some? {
      return Some(BranchFailed(branch, e.value)), None, 3, observed;
    }
    e := g.Add();
    assert e == ph.addRun.err && g.runner.script == ph.addRun.rest;
    AppendAssociates(old(g.runner.log), ph.branchRun.issued, ph.addRun.issued);
    assert g.runner.log == old(g.runner.log) + PhasesLog(ph, 4);
    observed := observed.(add := e);
    if e.Some? {
      return Some(AddFailed(e.value)), None, 4, observed;
    }
    e := g.Commit();
    assert e == ph.commitRun.err && g.runner.script == ph.commitRun.rest;
    AppendAssociates(old(g.runner.log), PhasesLog(ph, 4), ph.commitRun.issued);
    assert g.runner.log == old(g.runner.log) + PhasesLog(ph, 5);
    observed := observed.(commit := e);
    if e.Some? {
      return Some(CommitFailed(e.value)), None, 5, observed;
    }
    e := g.Push();
    assert e == ph.pushRun.err && g.runner.script == ph.pushRun.rest;
    AppendAssociates(old(g.runner.log), PhasesLog(ph, 5), ph.pushRun.issued);
    assert g.runner.log == old(g.runner.log) + PhasesLog(ph, 6);
    observed := observed.(push := e);
    if e.Some? {
      return Some(PushFailed(e.value)), None, 6, observed;
    }
    if env.client.Some? {
      return Some(ClientFailed(env.client.value)), None, 7, observed;
    }
    request := Some(PullRequestInput(repo, PullRequestTitle, branch, base));
    steps := 8;
    if env.createPR.Some? {
      return Some(PullRequestFailed(env.createPR.value)), request, steps, observed;
    }
    err := None;
  }
}

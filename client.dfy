/**
 * The `cashier` command: it builds the credential sent to the certificate authority and
 * runs the steps that end with a signed certificate in the SSH agent.
 *
 * Go strings are byte strings, so prompts, tokens and credentials are `seq<byte>`.
 * What the terminal, the browser, the key generator, the authority, the agent and the
 * file system answer is an input (`Outcomes`).
 */
module Client {
  import opened Wrappers
  import Base64

  type byte = Base64.byte

  /** The bytes of an ASCII string. */
  function Ascii(s: string): (b: seq<byte>)
    requires forall i :: 0 <= i < |s| ==> s[i] < 128 as char
    ensures |b| == |s|
    ensures forall i :: 0 <= i < |s| ==> b[i] as int == s[i] as int
  {
    seq(|s|, i requires 0 <= i < |s| => (s[i] as int) as byte)
  }

  const BearerPrefix: seq<byte> := Ascii("Bearer ")
  const BasicPrefix: seq<byte> := Ascii("Basic ")
  const Colon: byte := 58

  predicate StartsWith(s: seq<byte>, prefix: seq<byte>) {
    |prefix| <= |s| && s[..|prefix|] == prefix
  }

  /**
   * The credential for the authority's Authorization header: in browser mode the pasted
   * token as a bearer credential, otherwise the Basic credential of section 2 of RFC 7617,
   * the standard base64 of `username:password`. Every credential starts with exactly one of
   * the two prefixes, chosen by the mode alone; after "Bearer " comes the token itself, and
   * after "Basic " a text that decodes to `username:password`.
   */
  function ObtainCreds(browserAuth: bool, token: seq<byte>, username: seq<byte>, password: seq<byte>): (creds: seq<byte>)
    ensures StartsWith(creds, BearerPrefix) <==> browserAuth
    ensures StartsWith(creds, BasicPrefix) <==> !browserAuth
    ensures browserAuth ==> creds[|BearerPrefix|..] == token
    ensures !browserAuth ==> Base64.Decode(creds[|BasicPrefix|..]) == Some(username + [Colon] + password)
  {
    assert BearerPrefix[1] != BasicPrefix[1];
    if browserAuth then
      var creds := BearerPrefix + token;
      assert creds[..|BearerPrefix|] == BearerPrefix;
      assert creds[1] != BasicPrefix[1];
      creds
    else
      var userPass := username + [Colon] + password;
      var encoded := Base64.Encode(userPass);
      Base64.DecodeEncode(userPass);
      var creds := BasicPrefix + encoded;
      assert creds[..|BasicPrefix|] == BasicPrefix;
      assert creds[|BasicPrefix|..] == encoded;
      assert |BearerPrefix| > |creds| || creds[1] != BearerPrefix[1];
      creds
  }

  /** The steps of one run, as the program takes them. */
  datatype Step =
    | ReadConfig
    | OpenBrowser
    | BrowserNotice        // the browser could not be launched; the user is told to open the link
    | ObtainCredentials
    | GenerateKey
    | Sign(creds: seq<byte>)
    | DialAgent
    | InstallCert
    | SavePublicFiles
    | ReportSuccess        // "Credentials added."
    | CloseAgent           // the deferred close of the agent socket

  /** What each external step answered in one run, and what the user typed. */
  datatype Outcomes = Outcomes(
    configRead: bool,
    browserOpened: bool,
    token: seq<byte>,
    username: seq<byte>,
    password: seq<byte>,
    keyGenerated: bool,
    signed: bool,
    agentDialed: bool,
    certInstalled: bool,
    filesSaved: bool)

  datatype Status = Completed | Fatal(at: Step)

  /** The credential the run builds from what the user typed. */
  function Creds(browserAuth: bool, o: Outcomes): seq<byte> {
    ObtainCreds(browserAuth, o.token, o.username, o.password)
  }

  /** Whether step `s` ends the run (`log.Fatal`); launching the browser never does. */
  predicate Aborts(o: Outcomes, s: Step) {
    match s
    case ReadConfig => !o.configRead
    case GenerateKey => !o.keyGenerated
    case Sign(_) => !o.signed
    case DialAgent => !o.agentDialed
    case InstallCert => !o.certInstalled
    case SavePublicFiles => !o.filesSaved
    case _ => false
  }

  /** A plan: the steps still to be taken, in program order. */
  datatype Plan = End | Then(step: Step, next: Plan)

  /** The steps of a plan, as a sequence. */
  function Steps(p: Plan): seq<Step> {
    match p
    case End => []
    case Then(s, next) => [s] + Steps(next)
  }

  /** The steps from the credential prompt on, signing with `creds`. */
  function Issue(creds: seq<byte>): Plan {
    Then(ObtainCredentials, Then(GenerateKey, Then(Sign(creds), Then(DialAgent,
      Then(InstallCert, Then(SavePublicFiles, Then(ReportSuccess, Then(CloseAgent, End))))))))
  }

  /**
   * The steps of a run in which nothing fails fatally, in program order: the configuration,
   * the browser in browser mode (with a notice when it cannot be launched), then `Issue`.
   */
  function MainPlan(browserAuth: bool, o: Outcomes, creds: seq<byte>): Plan {
    var issue := Issue(creds);
    Then(ReadConfig,
      if !browserAuth then issue
      else if o.browserOpened then Then(OpenBrowser, issue)
      else Then(OpenBrowser, Then(BrowserNotice, issue)))
  }

  /**
   * What a run does when, having taken `done`, it follows `p`: it takes the steps up to and
   * including the first one that aborts, and ends there with `Fatal`; when none aborts it
   * takes them all and completes.
   */
  function Follow(done: seq<Step>, p: Plan, o: Outcomes): (seq<Step>, Status)
    decreases p
  {
    match p
    case End => (done, Completed)
    case Then(s, next) => if Aborts(o, s) then (done + [s], Fatal(s)) else Follow(done + [s], next, o)
  }

  /** Taking the next planned step: the run stops there if it aborts, and goes on otherwise. */
  lemma Advance(done: seq<Step>, todo: Plan, o: Outcomes)
    requires todo.Then?
    ensures Aborts(o, todo.step) ==> Follow(done, todo, o) == (done + [todo.step], Fatal(todo.step))
    ensures !Aborts(o, todo.step) ==> Follow(done, todo, o) == Follow(done + [todo.step], todo.next, o)
  {
  }

  /** A run keeps what was taken before it and adds a prefix of the plan. */
  lemma {:induction false} FollowTakesPrefix(done: seq<Step>, p: Plan, o: Outcomes)
    ensures done <= Follow(done, p, o).0 <= done + Steps(p)
    decreases p
  {
    match p
    case End =>
    case Then(s, next) =>
      if !Aborts(o, s) {
        FollowTakesPrefix(done + [s], next, o);
        assert done + [s] + Steps(next) == done + Steps(p);
      }
  }

  /**
   * A run that ends with `Fatal` ends at the last step taken, which aborts; no step taken
   * before it aborts.
   */
  lemma {:induction false} FollowEndsAtAbort(done: seq<Step>, p: Plan, o: Outcomes)
    ensures var (trace, status) := Follow(done, p, o);
      && (forall i :: |done| <= i < |trace| - 1 ==> !Aborts(o, trace[i]))
      && (status.Fatal? ==> |done| < |trace| && trace[|trace| - 1] == status.at && Aborts(o, status.at))
    decreases p
  {
    match p
    case End =>
    case Then(s, next) =>
      if !Aborts(o, s) {
        FollowEndsAtAbort(done + [s], next, o);
        FollowTakesPrefix(done + [s], next, o);
        assert Follow(done, p, o).0[|done|] == s;
      }
  }

  /** A run completes exactly when no step of the plan aborts, and then it has taken the whole plan. */
  lemma {:induction false} FollowCompletes(done: seq<Step>, p: Plan, o: Outcomes)
    ensures var (trace, status) := Follow(done, p, o);
      && (status.Completed? <==> forall s :: s in Steps(p) ==> !Aborts(o, s))
      && (status.Completed? ==> trace == done + Steps(p))
    decreases p
  {
    match p
    case End =>
    case Then(s, next) =>
      assert s in Steps(p);
      if !Aborts(o, s) {
        FollowCompletes(done + [s], next, o);
        assert done + [s] + Steps(next) == done + Steps(p);
      }
  }

  /**
   * One run of the command. The credential is obtained before the key pair is generated;
   * every fatal failure ends the run at once, with no later step attempted; a browser that
   * cannot be launched only prints a notice. The agent socket is closed by a deferred call,
   * which `log.Fatal` (an immediate process exit) never runs, so it is closed only after a
   * complete run.
   */
  method Run(browserAuth: bool, o: Outcomes) returns (trace: seq<Step>, status: Status)
    ensures (trace, status) == Follow([], MainPlan(browserAuth, o, Creds(browserAuth, o)), o)
  {
    ghost var plan := MainPlan(browserAuth, o, Creds(browserAuth, o));
    ghost var todo := plan;
    Advance([], todo, o);
    assert [] + [ReadConfig] == [ReadConfig];
    trace, todo := [ReadConfig], todo.next;
    if !o.configRead {
      return trace, Fatal(ReadConfig);
    }
    if browserAuth {
      Advance(trace, todo, o);
      trace, todo := trace + [OpenBrowser], todo.next;
      if !o.browserOpened {
        Advance(trace, todo, o);
        trace, todo := trace + [BrowserNotice], todo.next;
      }
    }
    var creds := ObtainCreds(browserAuth, o.token, o.username, o.password);
    assert todo == Issue(creds);
    trace, status := IssueCertificate(trace, creds, o);
  }

  /**
   * The rest of a run once the credential is read: the prompt, the key pair, the signing
   * request, the agent and the public files. Having taken `done` and holding `creds`, it
   * follows `Issue(creds)`.
   */
  method IssueCertificate(done: seq<Step>, creds: seq<byte>, o: Outcomes) returns (trace: seq<Step>, status: Status)
    ensures (trace, status) == Follow(done, Issue(creds), o)
  {
    ghost var todo := Issue(creds);
    trace := done;
    Advance(trace, todo, o);
    trace, todo := trace + [ObtainCredentials], todo.next;
    Advance(trace, todo, o);
    trace, todo := trace + [GenerateKey], todo.next;
    if !o.keyGenerated {
      return trace, Fatal(GenerateKey);
    }
    Advance(trace, todo, o);
    trace, todo := trace + [Sign(creds)], todo.next;
    if !o.signed {
      return trace, Fatal(Sign(creds));
    }
    Advance(trace, todo, o);
    trace, todo := trace + [DialAgent], todo.next;
    if !o.agentDialed {
      return trace, Fatal(DialAgent);
    }
    Advance(trace, todo, o);
    trace, todo := trace + [InstallCert], todo.next;
    if !o.certInstalled {
      return trace, Fatal(InstallCert);
    }
    Advance(trace, todo, o);
    trace, todo := trace + [SavePublicFiles], todo.next;
    if !o.filesSaved {
      return trace, Fatal(SavePublicFiles);
    }
    Advance(trace, todo, o);
    trace, todo := trace + [ReportSuccess], todo.next;
    Advance(trace, todo, o);
    trace, todo := trace + [CloseAgent], todo.next;
    status := Completed;
  }

  /** The steps before the credential prompt: the configuration, then the browser in browser mode. */
  function Prelude(browserAuth: bool, browserOpened: bool): seq<Step> {
    [ReadConfig] + (if !browserAuth then [] else if browserOpened then [OpenBrowser] else [OpenBrowser, BrowserNotice])
  }

  /** The plan lists the steps in program order: the credential before the key pair, and so on. */
  lemma MainPlanSteps(browserAuth: bool, o: Outcomes, creds: seq<byte>)
    ensures Steps(MainPlan(browserAuth, o, creds)) == Prelude(browserAuth, o.browserOpened)
        + [ObtainCredentials, GenerateKey, Sign(creds), DialAgent, InstallCert, SavePublicFiles, ReportSuccess, CloseAgent]
  {
    var p := Issue(creds);
    assert Steps(p.next.next.next.next.next.next.next) == [CloseAgent];
    assert Steps(p.next.next.next.next.next.next) == [ReportSuccess, CloseAgent];
    assert Steps(p.next.next.next.next.next) == [SavePublicFiles, ReportSuccess, CloseAgent];
    assert Steps(p.next.next.next.next) == [InstallCert, SavePublicFiles, ReportSuccess, CloseAgent];
    assert Steps(p.next.next.next) == [DialAgent, InstallCert, SavePublicFiles, ReportSuccess, CloseAgent];
    assert Steps(p.next.next) == [Sign(creds), DialAgent, InstallCert, SavePublicFiles, ReportSuccess, CloseAgent];
    assert Steps(p.next) == [GenerateKey, Sign(creds), DialAgent, InstallCert, SavePublicFiles, ReportSuccess, CloseAgent];
    var issue := [ObtainCredentials, GenerateKey, Sign(creds), DialAgent, InstallCert, SavePublicFiles, ReportSuccess, CloseAgent];
    assert Steps(p) == issue;
    if browserAuth && o.browserOpened {
      assert Steps(MainPlan(browserAuth, o, creds)) == [ReadConfig] + ([OpenBrowser] + issue);
    } else if browserAuth {
      assert Steps(Then(BrowserNotice, p)) == [BrowserNotice] + issue;
      assert Steps(MainPlan(browserAuth, o, creds)) == [ReadConfig] + ([OpenBrowser] + ([BrowserNotice] + issue));
    }
  }

  /** Every run takes the steps in program order and stops at the first fatal failure. */
  lemma RunFollowsProgramOrder(browserAuth: bool, o: Outcomes, creds: seq<byte>)
    ensures var (trace, status) := Follow([], MainPlan(browserAuth, o, creds), o);
      && trace <= Steps(MainPlan(browserAuth, o, creds))
      && (forall i :: 0 <= i < |trace| - 1 ==> !Aborts(o, trace[i]))
      && (status.Fatal? ==> trace != [] && trace[|trace| - 1] == status.at && Aborts(o, status.at))
  {
    FollowTakesPrefix([], MainPlan(browserAuth, o, creds), o);
    FollowEndsAtAbort([], MainPlan(browserAuth, o, creds), o);
  }

  /** A configuration that cannot be read ends the run before anything else is attempted. */
  lemma ConfigFailureStopsAtOnce(browserAuth: bool, o: Outcomes, creds: seq<byte>)
    requires !o.configRead
    ensures Follow([], MainPlan(browserAuth, o, creds), o) == ([ReadConfig], Fatal(ReadConfig))
  {
    assert [] + [ReadConfig] == [ReadConfig];
  }

  /** Once the configuration is read, the run reaches the credential prompt: the browser steps never abort. */
  lemma PreludeNeverAborts(browserAuth: bool, o: Outcomes, creds: seq<byte>)
    requires o.configRead
    ensures Follow([], MainPlan(browserAuth, o, creds), o) == Follow(Prelude(browserAuth, o.browserOpened), Issue(creds), o)
  {
    var plan := MainPlan(browserAuth, o, creds);
    Advance([], plan, o);
    assert [] + [ReadConfig] == [ReadConfig] == [ReadConfig] + [];
    if browserAuth {
      Advance([ReadConfig], plan.next, o);
      if !o.browserOpened {
        Advance([ReadConfig] + [OpenBrowser], plan.next.next, o);
        assert [ReadConfig] + [OpenBrowser] + [BrowserNotice] == [ReadConfig] + [OpenBrowser, BrowserNotice];
      }
    }
  }

  /** A browser that cannot be launched only adds the notice: the run goes on to read the credential. */
  lemma BrowserFailureIsNotFatal(o: Outcomes, creds: seq<byte>)
    requires o.configRead && !o.browserOpened
    ensures var trace := Follow([], MainPlan(true, o, creds), o).0;
      |trace| >= 4 && trace[..4] == [ReadConfig, OpenBrowser, BrowserNotice, ObtainCredentials]
  {
    var pre := Prelude(true, false);
    var issue := Issue(creds);
    PreludeNeverAborts(true, o, creds);
    Advance(pre, issue, o);
    FollowTakesPrefix(pre + [ObtainCredentials], issue.next, o);
    assert pre + [ObtainCredentials] == [ReadConfig, OpenBrowser, BrowserNotice, ObtainCredentials];
  }

  /** A key pair that cannot be generated ends the run: no signing is attempted. */
  lemma KeyFailureStopsBeforeSigning(browserAuth: bool, o: Outcomes, creds: seq<byte>)
    requires o.configRead && !o.keyGenerated
    ensures Follow([], MainPlan(browserAuth, o, creds), o)
      == (Prelude(browserAuth, o.browserOpened) + [ObtainCredentials, GenerateKey], Fatal(GenerateKey))
  {
    var pre := Prelude(browserAuth, o.browserOpened);
    var issue := Issue(creds);
    PreludeNeverAborts(browserAuth, o, creds);
    Advance(pre, issue, o);
    Advance(pre + [ObtainCredentials], issue.next, o);
    assert pre + [ObtainCredentials] + [GenerateKey] == pre + [ObtainCredentials, GenerateKey];
  }

  /** A signing request that fails ends the run: the agent is never contacted. */
  lemma SignFailureStopsBeforeAgent(browserAuth: bool, o: Outcomes, creds: seq<byte>)
    requires o.configRead && o.keyGenerated && !o.signed
    ensures Follow([], MainPlan(browserAuth, o, creds), o)
        == (Prelude(browserAuth, o.browserOpened) + [ObtainCredentials, GenerateKey, Sign(creds)], Fatal(Sign(creds)))
  {
    var pre := Prelude(browserAuth, o.browserOpened);
    var issue := Issue(creds);
    PreludeNeverAborts(browserAuth, o, creds);
    Advance(pre, issue, o);
    Advance(pre + [ObtainCredentials], issue.next, o);
    Advance(pre + [ObtainCredentials, GenerateKey], issue.next.next, o);
    assert pre + [ObtainCredentials] + [GenerateKey] == pre + [ObtainCredentials, GenerateKey];
    assert pre + [ObtainCredentials, GenerateKey] + [Sign(creds)] == pre + [ObtainCredentials, GenerateKey, Sign(creds)];
  }

  /** When the agent cannot be reached or refuses the certificate, the run ends before the files are saved. */
  lemma AgentFailureLeavesFilesUnsaved(browserAuth: bool, o: Outcomes, creds: seq<byte>)
    requires o.configRead && o.keyGenerated && o.signed && (!o.agentDialed || !o.certInstalled)
    ensures var (trace, status) := Follow([], MainPlan(browserAuth, o, creds), o);
      && status.Fatal?
      && SavePublicFiles !in trace && ReportSuccess !in trace && CloseAgent !in trace
  {
    var pre := Prelude(browserAuth, o.browserOpened);
    var issue := Issue(creds);
    var signed := pre + [ObtainCredentials, GenerateKey, Sign(creds)];
    PreludeNeverAborts(browserAuth, o, creds);
    Advance(pre, issue, o);
    Advance(pre + [ObtainCredentials], issue.next, o);
    Advance(pre + [ObtainCredentials, GenerateKey], issue.next.next, o);
    assert pre + [ObtainCredentials] + [GenerateKey] == pre + [ObtainCredentials, GenerateKey];
    assert pre + [ObtainCredentials, GenerateKey] + [Sign(creds)] == signed;
    Advance(signed, issue.next.next.next, o);
    if o.agentDialed {
      Advance(signed + [DialAgent], issue.next.next.next.next, o);
      assert signed + [DialAgent] + [InstallCert] == pre + [ObtainCredentials, GenerateKey, Sign(creds), DialAgent, InstallCert];
    } else {
      assert signed + [DialAgent] == pre + [ObtainCredentials, GenerateKey, Sign(creds), DialAgent];
    }
  }

  /** Every step that can fail fatally succeeded. */
  predicate AllSucceed(o: Outcomes) {
    o.configRead && o.keyGenerated && o.signed && o.agentDialed && o.certInstalled && o.filesSaved
  }

  /**
   * The run completes, prints "Credentials added." and closes the agent socket exactly when
   * every fatal step succeeded.
   */
  lemma SuccessIffAllSucceed(browserAuth: bool, o: Outcomes, creds: seq<byte>)
    ensures var (trace, status) := Follow([], MainPlan(browserAuth, o, creds), o);
      && (status == Completed <==> AllSucceed(o))
      && (ReportSuccess in trace <==> AllSucceed(o))
      && (CloseAgent in trace <==> AllSucceed(o))
  {
    if !o.configRead {
      ConfigFailureStopsAtOnce(browserAuth, o, creds);
    } else if !o.keyGenerated {
      KeyFailureStopsBeforeSigning(browserAuth, o, creds);
    } else if !o.signed {
      SignFailureStopsBeforeAgent(browserAuth, o, creds);
    } else if !o.agentDialed || !o.certInstalled {
      AgentFailureLeavesFilesUnsaved(browserAuth, o, creds);
    } else if !o.filesSaved {
      SaveFailureIsNotReported(browserAuth, o, creds);
    } else {
      CompleteRun(browserAuth, o, creds);
      MainPlanSteps(browserAuth, o, creds);
    }
  }

  /** Public files that cannot be saved end the run before success is reported. */
  lemma SaveFailureIsNotReported(browserAuth: bool, o: Outcomes, creds: seq<byte>)
    requires o.configRead && o.keyGenerated && o.signed && o.agentDialed && o.certInstalled && !o.filesSaved
    ensures Follow([], MainPlan(browserAuth, o, creds), o) == (Prelude(browserAuth, o.browserOpened)
        + [ObtainCredentials, GenerateKey, Sign(creds), DialAgent, InstallCert, SavePublicFiles], Fatal(SavePublicFiles))
  {
    var pre := Prelude(browserAuth, o.browserOpened);
    var issue := Issue(creds);
    var signed := pre + [ObtainCredentials, GenerateKey, Sign(creds)];
    PreludeNeverAborts(browserAuth, o, creds);
    Advance(pre, issue, o);
    Advance(pre + [ObtainCredentials], issue.next, o);
    Advance(pre + [ObtainCredentials, GenerateKey], issue.next.next, o);
    assert pre + [ObtainCredentials] + [GenerateKey] == pre + [ObtainCredentials, GenerateKey];
    assert pre + [ObtainCredentials, GenerateKey] + [Sign(creds)] == signed;
    Advance(signed, issue.next.next.next, o);
    Advance(signed + [DialAgent], issue.next.next.next.next, o);
    Advance(signed + [DialAgent] + [InstallCert], issue.next.next.next.next.next, o);
    assert signed + [DialAgent] + [InstallCert] + [SavePublicFiles]
      == pre + [ObtainCredentials, GenerateKey, Sign(creds), DialAgent, InstallCert, SavePublicFiles];
  }

  /** A run in which every fatal step succeeds takes the whole plan and completes. */
  lemma CompleteRun(browserAuth: bool, o: Outcomes, creds: seq<byte>)
    requires AllSucceed(o)
    ensures Follow([], MainPlan(browserAuth, o, creds), o) == (Steps(MainPlan(browserAuth, o, creds)), Completed)
  {
    var plan := MainPlan(browserAuth, o, creds);
    FollowCompletes([], plan, o);
    MainPlanSteps(browserAuth, o, creds);
    assert [] + Steps(plan) == Steps(plan);
  }
}

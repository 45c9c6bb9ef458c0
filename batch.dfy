/** The batch driver (RunTask): load the configuration, pick the transport,
    then sign in every account in configuration order. The error channel of
    the driver has no reader, so the first failing account leaves the run
    stuck; RunTaskCollecting is the driver with the failures collected as
    intended. */
module Batch {
  import opened AccountTypes
  import opened SignInFlow

  /** Decoding a config entry never fails. `decoded` is what the base64 and
      JSON decoders made of the entry: `None` when it is not base64 of a JSON
      text, and the zero account is then used; `Some` otherwise, possibly
      with only some fields filled in. */
  function ToAccountInfo(decoded: Option<AccountInfo>): AccountInfo
  {
    if decoded.Some? then decoded.value else ZeroAccount
  }

  /** An entry that is not base64 of a JSON text cannot be told apart from
      an entry that decodes to blank credentials, and both sign in with blank
      credentials. */
  lemma MalformedEntryLooksBlank(via: Transport, env: Env)
    requires env.decoded.None?
    ensures ToAccountInfo(env.decoded) == ToAccountInfo(Some(ZeroAccount))
    ensures env.loginRequestError.None? ==>
      SignIn(ToAccountInfo(env.decoded), via, env).sent[0].request.form["username"] == ""
  {
    if env.loginRequestError.None? {
      LoginRequestShape(ToAccountInfo(env.decoded), via, env);
    }
  }

  /** The transport for the whole run: direct for an empty proxy string,
      otherwise the parsed proxy, or a proxy error when it does not parse. */
  function SelectTransport(proxy: string, parse: UrlParse): Result<Transport>
  {
    if proxy == "" then Ok(Direct)
    else match parse
      case UrlOk => Ok(ViaProxy(proxy))
      case UrlError(cause) => Err(ProxyError(cause))
  }

  lemma SelectTransportCases(proxy: string, parse: UrlParse)
    ensures proxy == "" ==> SelectTransport(proxy, parse) == Ok(Direct)
    ensures proxy != "" && parse.UrlOk? ==> SelectTransport(proxy, parse) == Ok(ViaProxy(proxy))
    ensures proxy != "" && parse.UrlError? ==> SelectTransport(proxy, parse) == Err(ProxyError(parse.cause))
  {
  }

  /** The sign-in of the config entry whose environment is `env`. */
  function AccountAttempt(env: Env, via: Transport): Attempt
  {
    SignIn(ToAccountInfo(env.decoded), via, env)
  }

  ghost predicate NoFailure(envs: seq<Env>, via: Transport)
  {
    forall i :: 0 <= i < |envs| ==> AccountAttempt(envs[i], via).err == None
  }

  /** Every request the accounts of `envs` send when all of them are
      attempted, account after account. */
  function Traces(envs: seq<Env>, via: Transport): seq<Sent>
  {
    if envs == [] then [] else Traces(envs[..|envs| - 1], via) + AccountAttempt(envs[|envs| - 1], via).sent
  }

  /** The errors of the accounts of `envs`, in order. */
  function Failures(envs: seq<Env>, via: Transport): seq<Error>
  {
    if envs == [] then []
    else
      var e := AccountAttempt(envs[|envs| - 1], via).err;
      Failures(envs[..|envs| - 1], via) + (if e.Some? then [e.value] else [])
  }

  /** Where the loop over accounts stands: still running, or stuck sending
      the error of account `index` into the channel. */
  datatype Progress = Running(sent: seq<Sent>) | Stuck(index: nat, err: Error, sent: seq<Sent>)

  /** The loop over the accounts of `envs`, as written. */
  function Drive(envs: seq<Env>, via: Transport): Progress
  {
    if envs == [] then Running([])
    else
      var before := Drive(envs[..|envs| - 1], via);
      if before.Stuck? then before
      else
        var t := AccountAttempt(envs[|envs| - 1], via);
        if t.err.Some? then Stuck(|envs| - 1, t.err.value, before.sent + t.sent)
        else Running(before.sent + t.sent)
  }

  /** How a run ends: it returns an error (None for nil), or never returns
      because account `index` failed with `err`. */
  datatype RunOutcome = Returned(err: Option<Error>) | Blocked(index: nat, pending: Error)

  datatype RunResult = RunResult(outcome: RunOutcome, sent: seq<Sent>)

  /** The run as written. `envs[i]` is the environment of the i-th account entry. */
  function RunSpec(loaded: Result<ConfigInfo>, parse: UrlParse, envs: seq<Env>): RunResult
  {
    match loaded
    case Err(e) => RunResult(Returned(Some(e)), [])
    case Ok(config) =>
      match SelectTransport(config.proxy, parse)
      case Err(e) => RunResult(Returned(Some(e)), [])
      case Ok(via) =>
        match Drive(envs, via)
        case Running(sent) => RunResult(Returned(None), sent)
        case Stuck(k, e, sent) => RunResult(Blocked(k, e), sent)
  }

  /** Once the loop is stuck on a prefix, it is stuck there for good. */
  lemma {:induction false} StuckIsFinal(envs: seq<Env>, via: Transport, n: nat)
    requires n <= |envs|
    requires Drive(envs[..n], via).Stuck?
    ensures Drive(envs, via) == Drive(envs[..n], via)
    decreases |envs| - n
  {
    if n < |envs| {
      var next := envs[..n + 1];
      assert next[..|next| - 1] == envs[..n];
      StuckIsFinal(envs, via, n + 1);
    } else {
      assert envs[..n] == envs;
    }
  }

  /** The driver, step by step. */
  method RunTask(loaded: Result<ConfigInfo>, parse: UrlParse, envs: seq<Env>)
    returns (outcome: RunOutcome, sent: seq<Sent>)
    requires loaded.Ok? ==> |envs| == |loaded.value.accounts|
    ensures RunResult(outcome, sent) == RunSpec(loaded, parse, envs)
  {
    sent := [];
    if loaded.Err? {
      return Returned(Some(loaded.error)), sent;
    }
    var config := loaded.value;
    var via: Transport;
    if config.proxy == "" {
      via := Direct;
    } else {
      if parse.UrlError? {
        return Returned(Some(ProxyError(parse.cause))), sent;
      }
      via := ViaProxy(config.proxy);
    }

    var err: Option<Error> := None;
    var i := 0;
    while i < |config.accounts|
      invariant 0 <= i <= |config.accounts|
      invariant err == None
      invariant Drive(envs[..i], via) == Running(sent)
    {
      var account := ToAccountInfo(envs[i].decoded);
      var s;
      err, s := AccountSignIn(account, via, envs[i]);
      sent := sent + s;
      assert envs[..i + 1][..i] == envs[..i];
      if err.Some? {
        StuckIsFinal(envs, via, i + 1);
        return Blocked(i, err.value), sent;
      }
      i := i + 1;
    }
    assert envs[..i] == envs;
    outcome := Returned(err);
  }

  /** Every request of `Drive` goes through the run's transport. */
  lemma {:induction false} DriveUsesTransport(envs: seq<Env>, via: Transport)
    ensures forall k :: 0 <= k < |Drive(envs, via).sent| ==> Drive(envs, via).sent[k].via == via
  {
    if envs != [] {
      var init := envs[..|envs| - 1];
      DriveUsesTransport(init, via);
      var t := AccountAttempt(envs[|envs| - 1], via);
      RequestsUseTransport(ToAccountInfo(envs[|envs| - 1].decoded), via, envs[|envs| - 1]);
      var before := Drive(init, via).sent;
      assert forall k :: 0 <= k < |before + t.sent| ==>
        (before + t.sent)[k] == if k < |before| then before[k] else t.sent[k - |before|];
    }
  }

  lemma RequestsUseTransport(a: AccountInfo, via: Transport, env: Env)
    ensures forall k :: 0 <= k < |SignIn(a, via, env).sent| ==> SignIn(a, via, env).sent[k].via == via
  {
  }

  /** The loop stops at the first failing account, after sending the
      requests of that account and of every account before it, in
      configuration order; when no account fails it runs to the end. */
  lemma {:induction false} DriveStopsAtFirstFailure(envs: seq<Env>, via: Transport)
    ensures Drive(envs, via).Running? ==>
      NoFailure(envs, via) && Drive(envs, via).sent == Traces(envs, via)
    ensures Drive(envs, via).Stuck? ==>
      var k := Drive(envs, via).index;
      && k < |envs|
      && AccountAttempt(envs[k], via).err == Some(Drive(envs, via).err)
      && NoFailure(envs[..k], via)
      && Drive(envs, via).sent == Traces(envs[..k + 1], via)
  {
    if envs != [] {
      var init := envs[..|envs| - 1];
      DriveStopsAtFirstFailure(init, via);
      if Drive(init, via).Stuck? {
        var k := Drive(init, via).index;
        assert init[..k] == envs[..k];
        assert init[..k + 1] == envs[..k + 1];
      } else {
        NoFailureSnoc(envs, via);
        assert envs[..|envs|] == envs;
      }
    }
  }

  /** Hence the loop runs to the end exactly when no account fails. */
  lemma NoFailureRunsToEnd(envs: seq<Env>, via: Transport)
    ensures Drive(envs, via).Running? <==> NoFailure(envs, via)
  {
    DriveStopsAtFirstFailure(envs, via);
  }

  /** An empty proxy string means a direct run whatever the URL parser would
      have said: the parser is never consulted. */
  lemma EmptyProxyGoesDirect(config: ConfigInfo, p1: UrlParse, p2: UrlParse, envs: seq<Env>)
    requires |envs| == |config.accounts|
    requires config.proxy == ""
    ensures RunSpec(Ok(config), p1, envs) == RunSpec(Ok(config), p2, envs)
    ensures forall k :: 0 <= k < |RunSpec(Ok(config), p1, envs).sent| ==>
      RunSpec(Ok(config), p1, envs).sent[k].via == Direct
  {
    DriveUsesTransport(envs, Direct);
  }

  /** A proxy string that does not parse ends the run with a proxy error
      before any account sends anything. */
  lemma BadProxyAbortsEarly(config: ConfigInfo, parse: UrlParse, envs: seq<Env>)
    requires |envs| == |config.accounts|
    requires config.proxy != "" && parse.UrlError?
    ensures RunSpec(Ok(config), parse, envs) == RunResult(Returned(Some(ProxyError(parse.cause))), [])
  {
  }

  /** A configuration that cannot be loaded is returned as is, before anything is sent. */
  lemma ConfigErrorReturned(e: Error, parse: UrlParse, envs: seq<Env>)
    ensures RunSpec(Err(e), parse, envs) == RunResult(Returned(Some(e)), [])
  {
  }

  /** With a usable transport, the run returns nil, after every account has
      sent its requests in configuration order, exactly when no account
      fails; an empty account list always succeeds. */
  lemma AllSignedInReturnsNil(config: ConfigInfo, parse: UrlParse, envs: seq<Env>)
    requires |envs| == |config.accounts|
    requires SelectTransport(config.proxy, parse).Ok?
    ensures var via := SelectTransport(config.proxy, parse).value;
      RunSpec(Ok(config), parse, envs).outcome == Returned(None) <==> NoFailure(envs, via)
    ensures var via := SelectTransport(config.proxy, parse).value;
      NoFailure(envs, via) ==> RunSpec(Ok(config), parse, envs).sent == Traces(envs, via)
    ensures config.accounts == [] ==> RunSpec(Ok(config), parse, envs) == RunResult(Returned(None), [])
  {
    DriveStopsAtFirstFailure(envs, SelectTransport(config.proxy, parse).value);
  }

  /** With a usable transport, the run is blocked at account `k` exactly
      when `k` is the first account whose sign-in fails. */
  lemma BlockedAtFirstFailure(config: ConfigInfo, parse: UrlParse, envs: seq<Env>, k: nat, e: Error)
    requires |envs| == |config.accounts|
    requires SelectTransport(config.proxy, parse).Ok?
    ensures var via := SelectTransport(config.proxy, parse).value;
      (RunSpec(Ok(config), parse, envs).outcome == Blocked(k, e)) ==
        (k < |envs| && AccountAttempt(envs[k], via).err == Some(e) && NoFailure(envs[..k], via))
  {
    var via := SelectTransport(config.proxy, parse).value;
    DriveStopsAtFirstFailure(envs, via);
    if k < |envs| && AccountAttempt(envs[k], via).err == Some(e) && NoFailure(envs[..k], via) {
      FirstFailureStopsDrive(envs, via, k, e);
    }
  }

  /** A failing account gets the loop stuck, at that account or before it. */
  lemma {:induction false} StuckNoLater(envs: seq<Env>, via: Transport, j: nat)
    requires j < |envs| && AccountAttempt(envs[j], via).err.Some?
    ensures Drive(envs, via).Stuck? && Drive(envs, via).index <= j
  {
    var init := envs[..|envs| - 1];
    if j < |init| {
      assert init[j] == envs[j];
      StuckNoLater(init, via, j);
    } else {
      DriveStopsAtFirstFailure(init, via);
    }
  }

  /** The first failing account is where the loop gets stuck. */
  lemma FirstFailureStopsDrive(envs: seq<Env>, via: Transport, k: nat, e: Error)
    requires k < |envs| && AccountAttempt(envs[k], via).err == Some(e) && NoFailure(envs[..k], via)
    ensures Drive(envs, via) == Stuck(k, e, Traces(envs[..k + 1], via))
  {
    DriveStopsAtFirstFailure(envs, via);
    StuckNoLater(envs, via, k);
    forall i | 0 <= i < k ensures AccountAttempt(envs[i], via).err == None {
      assert envs[..k][i] == envs[i];
    }
  }

  /** The driver as written never returns once an account fails: an
      account that already signed in today is enough. */
  lemma AlreadySignedAccountBlocksRun()
    ensures
      var env := Env(Some(AccountInfo("user", "pass", "0", "")), None,
                     LoginReply("success", "", "F", [Cookie("sid", "A")]), None,
                     CheckInReply("fail", "alreadysign"));
      RunSpec(Ok(ConfigInfo("", ["entry"])), UrlOk, [env]).outcome
        == Blocked(0, CheckInFailed("user", AlreadySignedReason))
  {
    var env := Env(Some(AccountInfo("user", "pass", "0", "")), None,
                   LoginReply("success", "", "F", [Cookie("sid", "A")]), None,
                   CheckInReply("fail", "alreadysign"));
    assert [env][..0] == [];
  }

  // The driver as intended: every account is attempted, the failures are
  // kept in order, and the run reports that there were failures.

  datatype CollectedRun = CollectedRun(result: RunResult, failures: seq<Error>)

  function RunCollectingSpec(loaded: Result<ConfigInfo>, parse: UrlParse, envs: seq<Env>): CollectedRun
  {
    match loaded
    case Err(e) => CollectedRun(RunResult(Returned(Some(e)), []), [])
    case Ok(config) =>
      match SelectTransport(config.proxy, parse)
      case Err(e) => CollectedRun(RunResult(Returned(Some(e)), []), [])
      case Ok(via) =>
        var failures := Failures(envs, via);
        var err := if failures == [] then None else Some(BatchHadFailures);
        CollectedRun(RunResult(Returned(err), Traces(envs, via)), failures)
  }

  method RunTaskCollecting(loaded: Result<ConfigInfo>, parse: UrlParse, envs: seq<Env>)
    returns (outcome: RunOutcome, sent: seq<Sent>, failures: seq<Error>)
    requires loaded.Ok? ==> |envs| == |loaded.value.accounts|
    ensures CollectedRun(RunResult(outcome, sent), failures) == RunCollectingSpec(loaded, parse, envs)
  {
    sent, failures := [], [];
    if loaded.Err? {
      return Returned(Some(loaded.error)), sent, failures;
    }
    var config := loaded.value;
    var via: Transport;
    if config.proxy == "" {
      via := Direct;
    } else {
      if parse.UrlError? {
        return Returned(Some(ProxyError(parse.cause))), sent, failures;
      }
      via := ViaProxy(config.proxy);
    }

    var i := 0;
    while i < |config.accounts|
      invariant 0 <= i <= |config.accounts|
      invariant sent == Traces(envs[..i], via)
      invariant failures == Failures(envs[..i], via)
    {
      var account := ToAccountInfo(envs[i].decoded);
      var err, s := AccountSignIn(account, via, envs[i]);
      sent := sent + s;
      if err.Some? {
        failures := failures + [err.value];
      }
      assert envs[..i + 1][..i] == envs[..i];
      i := i + 1;
    }
    assert envs[..i] == envs;
    if |failures| > 0 {
      return Returned(Some(BatchHadFailures)), sent, failures;
    }
    outcome := Returned(None);
  }

  /** No account of `envs` fails exactly when none before the last fails and the last does not. */
  lemma NoFailureSnoc(envs: seq<Env>, via: Transport)
    requires envs != []
    ensures NoFailure(envs, via)
        == (NoFailure(envs[..|envs| - 1], via) && AccountAttempt(envs[|envs| - 1], via).err == None)
  {
    var init := envs[..|envs| - 1];
    assert forall i :: 0 <= i < |init| ==> init[i] == envs[i];
  }

  /** The collected errors are empty exactly when no account fails. */
  lemma {:induction false} FailuresEmptyIff(envs: seq<Env>, via: Transport)
    ensures Failures(envs, via) == [] <==> NoFailure(envs, via)
  {
    if envs != [] {
      FailuresEmptyIff(envs[..|envs| - 1], via);
      NoFailureSnoc(envs, via);
    }
  }

  /** Some account fails with `e`. */
  ghost predicate FailsWith(envs: seq<Env>, via: Transport, e: Error)
  {
    exists i :: 0 <= i < |envs| && AccountAttempt(envs[i], via).err == Some(e)
  }

  /** The collected errors are exactly the errors of the failing accounts. */
  lemma {:induction false} FailuresAreTheErrors(envs: seq<Env>, via: Transport, e: Error)
    ensures e in Failures(envs, via) <==> FailsWith(envs, via, e)
  {
    if envs != [] {
      var init := envs[..|envs| - 1];
      FailuresAreTheErrors(init, via, e);
      if e in Failures(init, via) {
        var i :| 0 <= i < |init| && AccountAttempt(init[i], via).err == Some(e);
        assert envs[i] == init[i];
      }
      if FailsWith(envs, via, e) {
        var i :| 0 <= i < |envs| && AccountAttempt(envs[i], via).err == Some(e);
        if i < |init| {
          assert init[i] == envs[i];
        }
      }
    }
  }

  /** The intended driver attempts every account, and reports failures
      exactly when some account fails. */
  lemma CollectingReportsFailures(config: ConfigInfo, parse: UrlParse, envs: seq<Env>)
    requires |envs| == |config.accounts|
    requires SelectTransport(config.proxy, parse).Ok?
    ensures var via := SelectTransport(config.proxy, parse).value;
      && RunCollectingSpec(Ok(config), parse, envs).result.sent == Traces(envs, via)
      && (RunCollectingSpec(Ok(config), parse, envs).result.outcome == Returned(Some(BatchHadFailures)) <==> !NoFailure(envs, via))
      && (RunCollectingSpec(Ok(config), parse, envs).result.outcome == Returned(None) <==> NoFailure(envs, via))
  {
    FailuresEmptyIff(envs, SelectTransport(config.proxy, parse).value);
  }

  /** Where the driver as written returns, the intended one returns the same. */
  lemma CollectingAgreesWhenNoFailure(loaded: Result<ConfigInfo>, parse: UrlParse, envs: seq<Env>)
    requires loaded.Ok? ==> |envs| == |loaded.value.accounts|
    requires RunSpec(loaded, parse, envs).outcome.Returned?
    ensures RunCollectingSpec(loaded, parse, envs).result == RunSpec(loaded, parse, envs)
  {
    if loaded.Ok? && SelectTransport(loaded.value.proxy, parse).Ok? {
      var via := SelectTransport(loaded.value.proxy, parse).value;
      DriveStopsAtFirstFailure(envs, via);
      FailuresEmptyIff(envs, via);
    }
  }
}

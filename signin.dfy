/** One account's sign-in (AccountSignIn): a login request, then a
    check-in request that carries the login reply's formhash and cookies,
    then a classification of the check-in reply. The error the workflow
    returns is a single variable that each step may set or replace. */
module SignInFlow {
  import opened AccountTypes
  import opened Requests

  const LoginUrl := "https://www.t00ls.com/login.json"
  const CheckInUrl := "https://www.t00ls.com/ajax-sign.json"

  /** The reason reported when the forum says the account already signed in today. */
  const AlreadySignedReason := "今日已签到~"

  /** The login form: the account's credentials and `action=login`. */
  function LoginForm(a: AccountInfo): map<string, string>
  {
    map["action" := "login", "username" := a.username, "password" := a.password,
        "questionid" := a.questionId, "answer" := a.answer]
  }

  /** The check-in form: the anti-forgery token and `signsubmit=true`. */
  function CheckInForm(formhash: string): map<string, string>
  {
    map["formhash" := formhash, "signsubmit" := "true"]
  }

  /** How a check-in reply is read. `Unrecognized` is every reply the
      workflow has no branch for. */
  datatype Verdict = Signed | AlreadySigned | Refused(message: string) | Unrecognized

  function Classify(reply: CheckInReply): (v: Verdict)
    ensures v == Signed <==> reply.status == "success" && reply.message == "success"
    ensures v == AlreadySigned <==> reply.status == "fail" && reply.message == "alreadysign"
    ensures v.Refused? <==> reply.status == "fail" && reply.message != "alreadysign"
    ensures v.Refused? ==> v.message == reply.message
    ensures v == Unrecognized <==> reply.status != "fail" && !(reply.status == "success" && reply.message == "success")
  {
    if reply.status == "success" && reply.message == "success" then Signed
    else if reply.status == "fail" then
      if reply.message == "alreadysign" then AlreadySigned else Refused(reply.message)
    else Unrecognized
  }

  /** The error left by the login step: none exactly when the login status is "success". */
  function LoginError(username: string, reply: LoginReply): Option<Error>
  {
    if reply.status == "success" then None else Some(LoginFailed(username, reply.message))
  }

  /** The final error once the check-in verdict is known: a "fail" verdict
      replaces whatever the login step left; any other verdict keeps it. */
  function Settle(pending: Option<Error>, username: string, v: Verdict): Option<Error>
  {
    match v
    case Signed => pending
    case AlreadySigned => Some(CheckInFailed(username, AlreadySignedReason))
    case Refused(message) => Some(CheckInFailed(username, message))
    case Unrecognized => pending
  }

  /** What one sign-in yields: the returned error and the requests sent, in order. */
  datatype Attempt = Attempt(err: Option<Error>, sent: seq<Sent>)

  function LoginPost(a: AccountInfo): Post
  {
    Post(LoginUrl, FormContentType, LoginForm(a), [])
  }

  function CheckInPost(login: LoginReply): Post
  {
    Post(CheckInUrl, FormContentType, CheckInForm(login.formhash), login.cookies)
  }

  /** The sign-in of account `a` over transport `via` in environment `env`. */
  function SignIn(a: AccountInfo, via: Transport, env: Env): Attempt
  {
    match env.loginRequestError
    case Some(cause) => Attempt(Some(RequestFailed(cause)), [])
    case None =>
      var login := Sent(LoginPost(a), via);
      match env.checkInRequestError
      case Some(cause) => Attempt(Some(CheckInNotCreated(a.username, RequestFailed(cause))), [login])
      case None =>
        var checkIn := Sent(CheckInPost(env.login), via);
        Attempt(Settle(LoginError(a.username, env.login), a.username, Classify(env.checkIn)), [login, checkIn])
  }

  /** The workflow step by step. Sending a request appends it to `sent`
      and reads the reply from `env`. */
  method AccountSignIn(a: AccountInfo, via: Transport, env: Env) returns (err: Option<Error>, sent: seq<Sent>)
    ensures Attempt(err, sent) == SignIn(a, via, env)
  {
    err, sent := None, [];
    var loginReq, loginErr := CreateReq(LoginUrl, LoginForm(a), [], env.loginRequestError);
    if loginErr.Some? {
      return loginErr, sent;
    }
    sent := sent + [Sent(loginReq.Value(), via)];
    var loginReply := env.login;
    if loginReply.status != "success" {
      err := Some(LoginFailed(a.username, loginReply.message));
    }

    var checkInReq, checkInErr := CreateReq(CheckInUrl, CheckInForm(loginReply.formhash), loginReply.cookies, env.checkInRequestError);
    if checkInErr.Some? {
      err := Some(CheckInNotCreated(a.username, checkInErr.value));
      return;
    }
    sent := sent + [Sent(checkInReq.Value(), via)];
    var checkInReply := env.checkIn;
    if checkInReply.status == "success" && checkInReply.message == "success" {
      return;
    }
    if checkInReply.status == "fail" {
      if checkInReply.message == "alreadysign" {
        return Some(CheckInFailed(a.username, AlreadySignedReason)), sent;
      }
      return Some(CheckInFailed(a.username, checkInReply.message)), sent;
    }
  }

  /** Both requests could be built, so both were sent. */
  predicate BothBuilt(env: Env)
  {
    env.loginRequestError.None? && env.checkInRequestError.None?
  }

  // Which error wins.

  lemma SignedKeepsLoginOutcome(a: AccountInfo, via: Transport, env: Env)
    requires BothBuilt(env)
    requires env.checkIn.status == "success" && env.checkIn.message == "success"
    ensures env.login.status == "success" ==> SignIn(a, via, env).err == None
    ensures env.login.status != "success" ==> SignIn(a, via, env).err == Some(LoginFailed(a.username, env.login.message))
  {
  }

  lemma AlreadySignedReplacesLoginError(a: AccountInfo, via: Transport, env: Env)
    requires BothBuilt(env)
    requires env.checkIn.status == "fail" && env.checkIn.message == "alreadysign"
    ensures SignIn(a, via, env).err == Some(CheckInFailed(a.username, AlreadySignedReason))
  {
  }

  lemma RefusalCarriesMessage(a: AccountInfo, via: Transport, env: Env)
    requires BothBuilt(env)
    requires env.checkIn.status == "fail" && env.checkIn.message != "alreadysign"
    ensures SignIn(a, via, env).err == Some(CheckInFailed(a.username, env.checkIn.message))
  {
  }

  lemma UnrecognizedReplyFallsThrough(a: AccountInfo, via: Transport, env: Env)
    requires BothBuilt(env)
    requires env.checkIn.status != "fail" && !(env.checkIn.status == "success" && env.checkIn.message == "success")
    ensures env.login.status == "success" ==> SignIn(a, via, env).err == None
    ensures env.login.status != "success" ==> SignIn(a, via, env).err == Some(LoginFailed(a.username, env.login.message))
  {
  }

  lemma LoginRequestFailureStops(a: AccountInfo, via: Transport, env: Env)
    requires env.loginRequestError.Some?
    ensures SignIn(a, via, env) == Attempt(Some(RequestFailed(env.loginRequestError.value)), [])
  {
  }

  lemma CheckInRequestFailureReplaces(a: AccountInfo, via: Transport, env: Env)
    requires env.loginRequestError.None? && env.checkInRequestError.Some?
    ensures SignIn(a, via, env).err == Some(CheckInNotCreated(a.username, RequestFailed(env.checkInRequestError.value)))
    ensures |SignIn(a, via, env).sent| == 1 && SignIn(a, via, env).sent[0].request.url == LoginUrl
  {
  }

  /** A failed login is reported but does not stop the check-in: the
      check-in request still goes out, and the sign-in never ends without
      an error. */
  lemma LoginFailureStillChecksIn(a: AccountInfo, via: Transport, env: Env)
    requires BothBuilt(env) && env.login.status != "success"
    ensures |SignIn(a, via, env).sent| == 2 && SignIn(a, via, env).sent[1].request.url == CheckInUrl
    ensures SignIn(a, via, env).err.Some?
  {
  }

  /** The sign-in returns nil exactly when both requests were built, the
      login succeeded and the check-in reply was not a "fail". */
  lemma NilExactlyWhen(a: AccountInfo, via: Transport, env: Env)
    ensures SignIn(a, via, env).err == None
        <==> BothBuilt(env) && env.login.status == "success" && env.checkIn.status != "fail"
  {
  }

  /** The login request carries exactly the five credential fields and no
      cookie, and goes through the given transport. */
  lemma LoginRequestShape(a: AccountInfo, via: Transport, env: Env)
    requires env.loginRequestError.None?
    ensures var sent := SignIn(a, via, env).sent;
      && 1 <= |sent| <= 2
      && sent[0].via == via
      && sent[0].request.url == LoginUrl
      && sent[0].request.contentType == FormContentType
      && sent[0].request.form.Keys == {"action", "username", "password", "questionid", "answer"}
      && sent[0].request.form["action"] == "login"
      && sent[0].request.form["username"] == a.username
      && sent[0].request.form["password"] == a.password
      && sent[0].request.form["questionid"] == a.questionId
      && sent[0].request.form["answer"] == a.answer
      && sent[0].request.cookies == []
  {
  }

  /** The check-in request carries the login formhash, signsubmit and every
      login cookie in the order the login reply set them, and goes through
      the given transport. */
  lemma CheckInRequestShape(a: AccountInfo, via: Transport, env: Env)
    requires BothBuilt(env)
    ensures var sent := SignIn(a, via, env).sent;
      && |sent| == 2
      && sent[1].via == via
      && sent[1].request.url == CheckInUrl
      && sent[1].request.contentType == FormContentType
      && sent[1].request.form.Keys == {"formhash", "signsubmit"}
      && sent[1].request.form["formhash"] == env.login.formhash
      && sent[1].request.form["signsubmit"] == "true"
      && sent[1].request.cookies == env.login.cookies
  {
  }
}

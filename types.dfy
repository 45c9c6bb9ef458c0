/** Values shared by the per-account sign-in workflow and the batch driver
    of util/account.go: credentials, cookies, the requests that go out, the
    replies the forum sends back and the errors the workflow reports. */
module AccountTypes {

  datatype Option<+T> = None | Some(value: T)

  /** An error in the sense of Go's `error`: `None` plays the part of nil. */
  datatype Error =
    /** The configuration file could not be read or parsed (LoadConfigFile). */
    | ConfigError(cause: string)
    /** The proxy string of the configuration is not a URL. */
    | ProxyError(cause: string)
    /** `http.NewRequest` refused to build a request (CreateReq). */
    | RequestFailed(cause: string)
    /** The login reply's status was not "success"; carries its message. */
    | LoginFailed(username: string, message: string)
    /** The check-in request could not be built; wraps the CreateReq error. */
    | CheckInNotCreated(username: string, inner: Error)
    /** The check-in reply said "fail"; carries the reason shown to the user. */
    | CheckInFailed(username: string, reason: string)
    /** The batch-level "there were errors, see the log" report. */
    | BatchHadFailures

  datatype Result<+T> = Ok(value: T) | Err(error: Error)

  /** Credentials of one forum account, as decoded from one config entry. */
  datatype AccountInfo = AccountInfo(username: string, password: string, questionId: string, answer: string)

  /** The zero value left behind when an entry is not base64 of a JSON text. */
  const ZeroAccount := AccountInfo("", "", "", "")

  /** The configuration: a proxy URL ("" for none) and the base64 account entries, in order. */
  datatype ConfigInfo = ConfigInfo(proxy: string, accounts: seq<string>)

  /** What `url.Parse` makes of the proxy string. */
  datatype UrlParse = UrlOk | UrlError(cause: string)

  /** How requests leave the process: directly, or through the configured proxy. */
  datatype Transport = Direct | ViaProxy(proxy: string)

  datatype Cookie = Cookie(name: string, value: string)

  /** A POST request as handed to the network: target, content type, form fields and cookies in order. */
  datatype Post = Post(url: string, contentType: string, form: map<string, string>, cookies: seq<Cookie>)

  /** One request that was sent, with the transport it went through. */
  datatype Sent = Sent(request: Post, via: Transport)

  /** The login endpoint's reply: the `status`, `message` and `formhash` fields of its
      JSON body (empty when absent or unparsable) and the cookies it sets. */
  datatype LoginReply = LoginReply(status: string, message: string, formhash: string, cookies: seq<Cookie>)

  /** The check-in endpoint's reply: the `status` and `message` fields of its JSON body. */
  datatype CheckInReply = CheckInReply(status: string, message: string)

  /** Everything outside the model that one account's run depends on: what the
      JSON decoder made of the entry, whether each `http.NewRequest` failed,
      and what the two endpoints answered. */
  datatype Env = Env(
    decoded: Option<AccountInfo>,
    loginRequestError: Option<string>,
    login: LoginReply,
    checkInRequestError: Option<string>,
    checkIn: CheckInReply)
}

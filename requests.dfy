/** Building the form-encoded POST requests of the workflow (CreateReq). */
module Requests {
  import opened AccountTypes

  const FormContentType := "application/x-www-form-urlencoded"

  /** An outgoing request. Its target and form body are fixed when it is
      built; its content type and cookies are filled in afterwards. */
  class Request {
    const url: string
    const form: map<string, string>
    var contentType: string
    var cookies: seq<Cookie>

    /** The request as it stands now. */
    function Value(): Post
      reads this
    {
      Post(url, contentType, form, cookies)
    }

    constructor (url: string, form: map<string, string>)
      ensures this.url == url && this.form == form
      ensures contentType == "" && cookies == []
    {
      this.url := url;
      this.form := form;
      contentType := "";
      cookies := [];
    }

    /** Attaches one more cookie after those already present. */
    method AddCookie(c: Cookie)
      modifies this
      ensures cookies == old(cookies) + [c]
      ensures contentType == old(contentType)
    {
      cookies := cookies + [c];
    }
  }

  /** Builds a POST to `url` with form `data` and attaches `cookies` one by
      one. `failure` is the error `http.NewRequest` reports, if any; it is
      wrapped and returned with no request. */
  method CreateReq(url: string, data: map<string, string>, cookies: seq<Cookie>, failure: Option<string>)
    returns (req: Request?, err: Option<Error>)
    ensures failure.Some? ==> req == null && err == Some(RequestFailed(failure.value))
    ensures failure.None? ==> err == None && req != null && fresh(req)
    ensures failure.None? ==> req.Value() == Post(url, FormContentType, data, cookies)
  {
    if failure.Some? {
      return null, Some(RequestFailed(failure.value));
    }
    req := new Request(url, data);
    req.contentType := FormContentType;
    var i := 0;
    while i < |cookies|
      invariant 0 <= i <= |cookies|
      invariant req.contentType == FormContentType
      invariant req.cookies == cookies[..i]
    {
      req.AddCookie(cookies[i]);
      i := i + 1;
    }
    assert cookies[..i] == cookies;
    err := None;
  }
}

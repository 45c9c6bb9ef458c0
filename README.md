# T00ls daily sign-in, modelled in Dafny

The program signs a batch of forum accounts in to their daily check-in. It reads a
configuration holding an optional proxy URL and a list of base64-encoded JSON account
entries. For each account, in order, it posts a login form. It then posts a check-in form
carrying the `formhash` token and the cookies from the login reply. Finally it turns the
check-in reply's `status`/`message` pair into an error, or no error.

The model covers `util/account.go`:

- `types.dfy` (module `AccountTypes`): the values. These are credentials, cookies, the
  configuration, requests as sent, the two replies, and the errors. An `Option<Error>` stands
  for Go's `error`, with `None` for nil.
- `requests.dfy` (module `Requests`): `CreateReq`, with the request as a class whose cookie
  list is filled in place.
- `signin.dfy` (module `SignInFlow`): `AccountSignIn`. It is a method that reassigns one
  `err` variable, as the Go code does. It is proved equal to the function `SignIn`, and the
  lemmas about `SignIn` say which error wins.
- `batch.dfy` (module `Batch`): `ToAccountInfo`, the proxy choice and the account loop of
  `RunTask`. It also holds `RunTaskCollecting`, the loop as evidently intended (see Findings).

Everything outside the process is an input. Each account has an `Env` value holding:

- what the base64 and JSON decoders made of the entry;
- whether each `http.NewRequest` call failed;
- the login reply: its `status`, `message` and `formhash` fields and the cookies it sets;
- the check-in reply: its `status` and `message`.

A field missing from a JSON body, or a body that does not parse, shows up as the empty
string, which is what Go's zero values give. `url.Parse` of the proxy is the `UrlParse`
input. `LoadConfigFile` is a `Result<ConfigInfo>` input. Every request the model sends is
recorded, with its transport, in a `sent` sequence. That sequence stands in for the network.

Some behaviours of the code may be unexpected; the model follows the code in each:

- A login whose status is not "success" is reported, but check-in is not skipped: the
  check-in request is still built and sent (lines 147-164).
- A check-in reply that is neither success/success nor `status == "fail"` adds no error
  and is not reported as a failure (line 178). The result is then nil after a good login,
  or the login error otherwise.
- The check-in request carries the cookies of the login reply's headers (lines 144, 159).
  The `cookie.auth` field of the login body is decoded (line 153) but never used.
- Errors are not collected, so the batch does not go on and report failures at the end:
  the first failing account blocks the run (see Findings).

## Model

| member | source | states |
|---|---|---|
| `Requests.Request.constructor` | util/account.go:182 | a new request has the given URL and form, no content type and no cookies |
| `Requests.Request.AddCookie` | util/account.go:189 | the cookie is appended after the existing ones; nothing else changes |
| `Requests.CreateReq` | util/account.go:181-192 | if `http.NewRequest` fails, no request and the wrapped error; otherwise no error and a newly allocated form-encoded POST to the URL with exactly the given form and every given cookie, in order |
| `SignInFlow.Classify` | util/account.go:167-177 | the check-in reply is split into four exclusive cases: success/success; fail/alreadysign; fail with any other message, which is kept; and everything else |
| `SignInFlow.AccountSignIn` | util/account.go:130-179 | the method's error and sent requests are exactly those of `SignIn` |
| `SignInFlow.SignedKeepsLoginOutcome` | util/account.go:147-169 | a success/success check-in adds no error: the result is nil after a good login and the login-failure error otherwise |
| `SignInFlow.AlreadySignedReplacesLoginError` | util/account.go:172-174 | fail/alreadysign returns the "already signed today" error, whatever the login step left |
| `SignInFlow.RefusalCarriesMessage` | util/account.go:172-176 | fail with another message returns an error carrying exactly that message, whatever the login step left |
| `SignInFlow.UnrecognizedReplyFallsThrough` | util/account.go:167-178 | any check-in reply that is neither success/success nor status "fail" (including status "success" with another message) adds no error: nil after a good login, the login-failure error otherwise |
| `SignInFlow.LoginRequestFailureStops` | util/account.go:140-143 | if the login request cannot be built, its error is returned and nothing is sent |
| `SignInFlow.CheckInRequestFailureReplaces` | util/account.go:159-163 | if the check-in request cannot be built, a check-in error wrapping the build error replaces any login error, and only the login request was sent |
| `SignInFlow.LoginFailureStillChecksIn` | util/account.go:147-164 | a failed login is reported, but the check-in request is still sent, and the sign-in cannot end without an error |
| `SignInFlow.NilExactlyWhen` | util/account.go:130-179 | the sign-in returns nil if and only if both requests were built, the login status is "success" and the check-in status is not "fail" |
| `SignInFlow.LoginRequestShape` | util/account.go:133-140 | the login request goes to the login URL with exactly the fields action=login, username, password, questionid and answer, taken from the account; it has no cookies and uses the run's transport |
| `SignInFlow.CheckInRequestShape` | util/account.go:152-159 | the check-in request goes to the check-in URL with exactly formhash (from the login reply) and signsubmit=true, and carries every login-reply cookie in the original order |
| `Batch.MalformedEntryLooksBlank` | util/account.go:19-28 | `ToAccountInfo` swallows decode failures: an entry that is not base64 of a JSON text (`decoded == None`) yields the zero account, the same as an entry that decodes to blank credentials, and it logs in with an empty username instead of failing |
| `Batch.SelectTransportCases` | util/account.go:82-97 | `SelectTransport` picks the run's transport: an empty proxy string gives a direct transport whatever the parser says; otherwise the parsed proxy is used, or a proxy error carrying the parser's cause is returned |
| `Batch.RunTask` | util/account.go:77-113 | the method's outcome and sent requests are exactly those of `RunSpec` |
| `Batch.StuckIsFinal` | util/account.go:99-107 | once an account has blocked the loop, later accounts change nothing |
| `Batch.RequestsUseTransport` | util/account.go:144-164 | every request of one sign-in goes through the given transport |
| `Batch.DriveUsesTransport` | util/account.go:82-107 | every request of the run goes through the transport chosen once before the loop |
| `Batch.DriveStopsAtFirstFailure` | util/account.go:99-107 | the loop either runs to the end with no failing account, having sent every account's requests in config order, or it stops at the first failing account, having sent the requests of that account and of those before it |
| `Batch.NoFailureRunsToEnd` | util/account.go:100-107 | the loop runs to the end if and only if no account fails |
| `Batch.EmptyProxyGoesDirect` | util/account.go:83-87 | with an empty proxy string the URL parser's answer has no effect on the run, and every request goes direct |
| `Batch.BadProxyAbortsEarly` | util/account.go:88-92 | a proxy string that does not parse ends the run with a proxy error before any request is sent |
| `Batch.ConfigErrorReturned` | util/account.go:78-81 | a configuration load error is returned unchanged before any request is sent |
| `Batch.AllSignedInReturnsNil` | util/account.go:100-112 | with a usable transport, the run returns nil if and only if every account's sign-in returns nil; it has then sent every account's requests in config order; an empty account list returns nil with nothing sent |
| `Batch.BlockedAtFirstFailure` | util/account.go:99-107 | with a usable transport, the run blocks at account k with error e if and only if k is the first failing account and e is its error |
| `Batch.StuckNoLater` | util/account.go:100-106 | a failing account leaves the loop stuck, at that account or at an earlier one |
| `Batch.FirstFailureStopsDrive` | util/account.go:100-106 | the loop is stuck exactly at the first failing account, with its error, after the requests of that account and those before it |
| `Batch.AlreadySignedAccountBlocksRun` | util/account.go:99-110 | one account that has already signed in today leaves the run blocked at that account, so the "there were errors" report is never reached |
| `Batch.RunTaskCollecting` | util/account.go:99-112 | the intended driver: its outcome, sent requests and collected errors are exactly those of `RunCollectingSpec` |
| `Batch.FailuresEmptyIff` | util/account.go:99-106 | no error is collected if and only if no account fails |
| `Batch.FailuresAreTheErrors` | util/account.go:99-106 | an error is among the collected ones if and only if some account failed with it |
| `Batch.CollectingReportsFailures` | util/account.go:109-112 | the intended driver tries every account in order and reports "there were errors" if and only if some account failed, nil otherwise |
| `Batch.CollectingAgreesWhenNoFailure` | util/account.go:109-112 | wherever the driver as written returns, the intended driver returns the same result with the same requests |

## Findings

| source | as written | input that shows it | evidently intended | confidence | as-written member | corrected member |
|---|---|---|---|---|---|---|
| util/account.go:99-110 | the error channel is unbuffered and nothing receives from it, so the send for the first failing account never completes; the `len(errorChan) > 0` test is always false | a configuration with one account whose check-in reply is `{"status":"fail","message":"alreadysign"}`, for example a second run on the same day | every account is tried, each error is kept, and the run returns "there were errors" when there was at least one | high; not executed | `Batch.AlreadySignedAccountBlocksRun` | `Batch.RunTaskCollecting` |

## Left out

- HTTP transport, client construction and the 5-second timeout (`POSTRequest`, lines 194-210). Each reply is an input. A transport error is not modelled: line 203 calls `resp.Cookies()` on the nil response before checking the error, so the program crashes instead of returning an outcome.
- Batch.MalformedEntryLooksBlank: covers only entries that yield nothing. A JSON type mismatch (for example a numeric `questionId`) keeps the fields decoded around it. Likewise, a bad base64 character keeps the bytes decoded before it. The model takes such partial results as an ordinary `Some` input and does not derive them.
- Base64 and JSON decoding (lines 20, 26, 146, 153, 166) and `url.Parse` (line 89) are standard-library parsers. Their results are inputs. A decode failure is modelled only as a swallowed failure that yields the zero account, not as Go's byte-level behaviour.
- `LoadConfigFile` (lines 115-128) is file reading plus error wrapping. Its result is an input.
- Logging, the colour constants and `LogKeep` (lines 60-75, 212-220) only write to the log. This includes the "login succeeded" line at 150, which is printed even after a failed login.
- `GetAbsPath` (lines 222-229) is operating-system path plumbing.
- Errors are structured values rather than formatted strings. The colour codes and the wording of the messages are not modelled. Only their kind, the username and the carried message or cause are kept.
- A form is a map from field name to one value, where Go's `url.Values` allows several. The urlencoded body text and its key order are not modelled.
- Cookies are kept as a list. The merging of attached cookies into one `Cookie` header, and the sanitising of names and values, are not modelled.
- The blocked run is modelled as an outcome `Blocked(i, e)`. The model does not capture that the process hangs, or that Go's runtime may abort it as a deadlock.
- With the two fixed URLs, `http.NewRequest` cannot fail in practice. The failure branches (lines 141-143, 160-163) are modelled through the `Env` inputs anyway.

# ClawCloud keep-alive, modelled in Dafny

`ql-docker-plus.py` keeps one or more ClawCloud accounts alive. It reads the
accounts from `CLAW_ACCOUNTS`, one record per account, records separated by
`&`, fields by `----`. For each account in turn it:

- opens ClawCloud in a headless browser;
- re-uses the cookies stored for the account;
- logs in through GitHub when those cookies no longer reach the dashboard,
  handling the authorize page, the password page and both kinds of
  two-factor authentication;
- reads the balance, stores the trusted cookies, and visits two pages;
- writes a short report.

At the end it sends one Telegram summary of all the reports.

The project models that script:

- **Text.** Python's `strip`, `split`, `join`, `in`, `replace` and the decimal
  conversions, on `seq<char>`.
- **Accounts.** `load_accounts_from_env`: the parser of `CLAW_ACCOUNTS` with
  its fallback, and a writer for the same format that parsing undoes.
- **Cookies.** The cookie file name derived from the username; the files as
  a map from path to stored list; `load_cookies` and `save_cookies`; the
  filter keeping the cookies of `github.com` and `claw.cloud`.
- **Telegram.**
  - The bot configuration.
  - The requests `send` and `photo` post, kept in an outbox.
  - The rule by which a reply in the chat is accepted as a two-factor code,
    with the update cursor (`UpdateCursor.Poll`) that moves past each
    processed update.
- **Detection.** `is_logged_in`: three attempts, each looking for eight
  dashboard markers in order.
- **Report.** `generate_notify_content`: the login-method label, the masked
  username, the balance display, the `$` amount extraction, the three
  priority keywords, and the report text line by line.
- **Flow.**
  - The state of one `AutoLogin`, and one function per step of a run.
  - What the browser answers, as observation values: the pages seen, the
    buttons found, the faults raised, the clock.
- **Session.** The class `AutoLogin`: its methods update the fields in place
  and are proved to end in the state the `Flow` functions give.
- **Outcome.** What a run promises: when it succeeds, which login method it
  reports, what it writes to the cookie file, that the report describes the
  final state, and that logs, screenshots and Telegram requests are only
  ever added to.
- **Runner.** The `__main__` block: exit code 1 without accounts; otherwise
  one `AutoLogin` per account, with the cookie files handed from one run to
  the next, and the summary.

The browser, the clock, the Telegram HTTP API and the TOTP generator are not
run. Their answers are parameters: `RunObs` per account, `observe` per
account index in `Runner`, and a `TotpObs` for the generated code.

## Model

| member | source | states |
|---|---|---|
| Text.Strip | ql-docker-plus.py:49 | the result has no Python whitespace at either end, is no longer than the input, and equals an already-stripped input |
| Text.StripKeepsMiddle | ql-docker-plus.py:49 | the result is one contiguous piece of the input, and everything before and after that piece is whitespace |
| Text.StripFixpoint | ql-docker-plus.py:49-54 | stripping twice is stripping once; a string is left alone exactly when it is already stripped |
| Text.JoinSplit | ql-docker-plus.py:53-54 | `sep.join(s.split(sep)) == s`: splitting loses no character |
| Text.SplitPiecesFree | ql-docker-plus.py:53-54 | no piece of `s.split(sep)` contains `sep` |
| Text.SplitJoin | ql-docker-plus.py:53-54 | splitting undoes joining when each piece but the last splits off cleanly and the last has no separator |
| Text.Take | ql-docker-plus.py:160 | `s[:n]` is the prefix of length `min(n, len(s))` |
| Text.ReplaceChar | ql-docker-plus.py:138 | `replace` keeps the length and changes exactly the characters equal to the replaced one |
| Text.DecimalRoundTrip | ql-docker-plus.py:87 | reading back `str(n)` gives `n` |
| Text.ZeroPad2RoundTrip | ql-docker-plus.py:160 | the `:02d` text of the screenshot counter has at least two digits and reads back as the counter |
| Accounts.ParseRecord | ql-docker-plus.py:54-60 | a record yields an account exactly when its stripped text contains `----`; every field is stripped |
| Accounts.TwoFieldsIffSeparator | ql-docker-plus.py:54-55 | `len(parts) >= 2` holds exactly when the record contains `----` |
| Accounts.ParseTwoFieldRecord | ql-docker-plus.py:54-60 | `user----password` gives the account with that username, that password and no TOTP secret |
| Accounts.ParseRecordIgnoresExtraFields | ql-docker-plus.py:54-60 | a written record followed by further `----` fields gives back its own account: the first field is the username, the second the password, the third the secret, and the rest are ignored |
| Accounts.ParseRecordClean | ql-docker-plus.py:53-60 | an account parsed from a record without `&` has stripped fields free of both separators |
| Accounts.ParseRecordsClean | ql-docker-plus.py:53-61 | every account of a list of such records has clean fields |
| Accounts.Records | ql-docker-plus.py:49-53 | no record cut from the environment string contains `&` |
| Accounts.ParsedAccountsClean | ql-docker-plus.py:49-61 | every account parsed from `CLAW_ACCOUNTS` has stripped fields free of `&` and `----` |
| Accounts.ParseRecordsAppend | ql-docker-plus.py:53-61 | parsing concatenated record lists concatenates their accounts, in order |
| Accounts.ParseEach | ql-docker-plus.py:53-61 | the loop over the records collects, in order, the accounts `ParseRecords` gives |
| Accounts.LoadAccountsFromEnv | ql-docker-plus.py:44-69 | the parsed accounts when there are any, otherwise the in-script list |
| Accounts.ParseFormatRecord | ql-docker-plus.py:54-60 | a written `user----password----secret` record parses back to exactly its account |
| Accounts.ParseFormattedRecords | ql-docker-plus.py:53-61 | a list of written records parses back to the accounts, in order |
| Accounts.ParseFormatRoundTrip | ql-docker-plus.py:53-61 | writing accounts in the `CLAW_ACCOUNTS` format and parsing the result gives the same accounts |
| Accounts.LoadFormattedAccounts | ql-docker-plus.py:44-69 | a non-empty list written to `CLAW_ACCOUNTS` is what the script loads, whatever the in-script list |
| Cookies.SanitizeUsername | ql-docker-plus.py:138 | same length; each `@` and `.` becomes `_`, every other character is kept |
| Cookies.SanitizedHasNoSeparators | ql-docker-plus.py:136-139 | the username part of the cookie file name has no `@` and no `.` |
| Cookies.SameCookieFileIff | ql-docker-plus.py:136-139 | two usernames share a cookie file exactly when they have the same length and agree after folding `@` and `.` to `_` |
| Cookies.SharedCookieFileExample | ql-docker-plus.py:136-139 | `a.b@x.com` and `a_b@x.com` are different usernames with the same cookie file |
| Cookies.FilterTrustedSound | ql-docker-plus.py:764-767 | every kept cookie has a domain mentioning `github.com` or `claw.cloud` and came from the browser |
| Cookies.FilterTrustedCount | ql-docker-plus.py:764-767 | each trusted cookie is kept exactly as often as the browser listed it; no other cookie is kept |
| Cookies.FilterTrustedAppend | ql-docker-plus.py:764-767 | the filter works element by element, so it keeps the browser's order |
| Cookies.FilterTrustedIdempotent | ql-docker-plus.py:764-767 | filtering twice keeps what filtering once kept |
| Cookies.LoadCookies | ql-docker-plus.py:173-186 | cookies are returned only when the file exists and holds a non-empty list, and then they are that list |
| Cookies.StoreCookies | ql-docker-plus.py:188-194 | saving writes only its own path; saving an empty list writes nothing |
| Cookies.StoreLoadRoundTrip | ql-docker-plus.py:173-194 | loading a non-empty list just saved gives that list back, whole and in order |
| Cookies.StoreIdempotent | ql-docker-plus.py:188-194 | saving the same list twice leaves the same files as saving it once |
| Cookies.StoreOtherPathsUnchanged | ql-docker-plus.py:188-197 | saving for one account never changes what another path loads |
| Cookies.PersistedCookiesAreTrusted | ql-docker-plus.py:761-769 | after saving the filtered browser cookies, the file loads only trusted cookies, or the earlier contents when none was trusted |
| Telegram.ParseChatId | ql-docker-plus.py:87 | a chat id is present exactly when the text is non-empty and all digits |
| Telegram.ChatIdRoundTrip | ql-docker-plus.py:87 | every chat id round-trips through its decimal text |
| Telegram.FromEnv | ql-docker-plus.py:85-87 | the token is the stripped `TG_BOT_TOKEN`; the chat id is present exactly when the stripped `TG_CHAT_ID` is a non-empty digit string |
| Telegram.FromEnvOkIff | ql-docker-plus.py:85-88 | notifications are on exactly when the token is non-empty and not the placeholder, and the chat id is a non-zero number |
| Telegram.ZeroChatIdDisables | ql-docker-plus.py:87-88 | a chat id written as `000` parses to 0 and leaves notifications off |
| Telegram.TruncateCaption | ql-docker-plus.py:111 | `caption[:1024]`: at most 1024 characters, a prefix of the caption, the caption itself when it fits |
| Telegram.SendTextValid | ql-docker-plus.py:90-99 | `send` posts one message to the configured chat when the bot is usable and nothing otherwise; earlier requests are kept |
| Telegram.SendPhotoValid | ql-docker-plus.py:103-114 | `photo` posts only to the configured chat, with a caption within the limit, and keeps earlier requests |
| Telegram.AcceptedCode | ql-docker-plus.py:277-280 | a reply is accepted exactly when it is from the configured chat, has text, and its stripped text is six digits; the code is that stripped text |
| Telegram.RelayScanSpec | ql-docker-plus.py:271-280 | the first accepted code is taken; every update before it was rejected; with no code the whole batch was processed |
| Telegram.OffsetAdvances | ql-docker-plus.py:272-274 | the offset never goes back and moves past every processed update, so none is fetched twice |
| Telegram.UpdateCursor.Poll | ql-docker-plus.py:271-280 | the loop returns the relay's code and leaves the offset one past the last processed update |
| Detection.FirstVisible | ql-docker-plus.py:229-238 | the marker found is visible and no earlier marker is; none is found only when no marker is visible |
| Detection.Attempt | ql-docker-plus.py:204-238 | a found marker is one of the eight selectors |
| Detection.FindMarker | ql-docker-plus.py:229-238 | the loop over the eight selectors returns the first visible marker |
| Detection.ReadPage | ql-docker-plus.py:204-238 | one attempt: sign-in URL, then sign-in button, then markers |
| Detection.ProbeDashboard | ql-docker-plus.py:203-252 | the attempt loop returns the result and logs the lines of `Detect` (see `DetectSpec`) |
| Detection.DetectSpec | ql-docker-plus.py:199-252 | the dashboard is reported exactly when some attempt finds a marker before any sees the sign-in page or button; one retry line per failed attempt, the success line last |
| Detection.SignInPageFailsAtOnce | ql-docker-plus.py:206-207 | the sign-in URL at the first attempt ends the check at once, logging nothing more |
| Detection.ThreeMissesFail | ql-docker-plus.py:203-252 | three pages without a marker fail the check after exactly three retry lines |
| Report.LoginMethod | ql-docker-plus.py:593-600 | the label follows the flags by strict priority; each of the three labels, in both directions |
| Report.MaskUserShowsLocalPrefix | ql-docker-plus.py:602 | the masked user is at most the first three characters before the first `@`, then `**`, and shows no `@` |
| Report.BalanceDisplay | ql-docker-plus.py:603 | the display starts with `$` and ends with the balance, adding `$` only when it is missing |
| Report.BalanceDisplayIdempotent | ql-docker-plus.py:603 | displaying a displayed balance changes nothing |
| Report.ExtractBalanceSpec | ql-docker-plus.py:750-752 | no match exactly when no `$` is followed by a digit, `.` or `,`; otherwise the leftmost match, extended greedily |
| Report.ExtractedBalanceDisplaysAsIs | ql-docker-plus.py:603 | an extracted amount is displayed as extracted |
| Report.DetectionSuccessIsNotable | ql-docker-plus.py:606-610 | every success line of the dashboard check matches the second priority keyword |
| Report.FirstNotable | ql-docker-plus.py:614-617 | the line picked for a keyword matches it and no earlier line does; none is picked only when no line matches |
| Report.CollectImportantLines | ql-docker-plus.py:605-617 | the nested loop collects, keyword by keyword, the first matching log line |
| Report.ImportantUpToSpec | ql-docker-plus.py:605-617 | at most one line per keyword, each a matching log line; none exactly when no keyword matches any line |
| Report.ImportantUpToQuiet | ql-docker-plus.py:612-617 | logging a line no keyword matches leaves the important lines as they were |
| Report.ImportantLinesAllReported | ql-docker-plus.py:624-626 | the slice `[:3]` and the emptiness test drop no important line |
| Report.WriteReport | ql-docker-plus.py:619-629 | the header, the loop over the first three important lines, and the footer build `NotifyText` |
| Report.NotifyTextIsJoin | ql-docker-plus.py:621-629 | the report is its lines joined by newlines: three header lines, one per important line, balance, result and time |
| Report.ReportSplitsIntoLines | ql-docker-plus.py:621-629 | splitting the report at newlines gives back exactly those lines, when no field contains a newline |
| Flow.ComposeReport | ql-docker-plus.py:591-631 | the report built from a state's flags, user, logs and balance is the one `GenerateStep` stores |
| Session.AutoLogin.constructor | ql-docker-plus.py:125-145 | the initial fields, with the stored cookies loaded and their line logged |
| Session.AutoLogin.Log | ql-docker-plus.py:147-152 | appends the message to the logs and changes nothing else |
| Session.AutoLogin.Shot | ql-docker-plus.py:154-171 | counts and saves the screenshot only when pushed or named for two-factor or failure; returns the path exactly when it was saved |
| Session.AutoLogin.SaveCookies | ql-docker-plus.py:188-197 | writes and logs a non-empty list; does nothing for an empty one |
| Session.AutoLogin.IsLoggedIn | ql-docker-plus.py:199-252 | logs the checking line, then the lines of the attempts, and returns whether the dashboard was found, as `CheckStep` gives (see `Detection.DetectSpec`) |
| Session.AutoLogin.SubmitCode | ql-docker-plus.py:477-510 | logs the line for the way the code was submitted |
| Session.AutoLogin.AutoFillCode | ql-docker-plus.py:437-518 | fills and submits a generated code; a generation error, a missing input box or a fault raised by `clear`/`send_keys` after the code was logged each log the failure and push a screenshot |
| Session.AutoLogin.FillFailed | ql-docker-plus.py:514-517 | the `except` of the code filling logs the message and pushes the failure screenshot |
| Session.AutoLogin.HandleTwoFactor | ql-docker-plus.py:412-539 | sets the authenticator or mobile flag for the page seen and takes its branch |
| Session.AutoLogin.EnterPassword | ql-docker-plus.py:388-557 | the password page, its two-factor page and the authorize check after it |
| Session.AutoLogin.FullGitHubLogin | ql-docker-plus.py:335-572 | ends in the state `LoginStep` gives (see `Outcome.LoginFrame`) |
| Session.AutoLogin.Keepalive | ql-docker-plus.py:574-589 | one line per page visited, in order, a failure line for a page that raised |
| Session.AutoLogin.ReadBalance | ql-docker-plus.py:743-758 | the balance becomes the extracted amount, the raw text or `提取失败`, with the matching line |
| Session.AutoLogin.GenerateNotifyContent | ql-docker-plus.py:591-631 | the loops build exactly the report text of the current state |
| Session.AutoLogin.CleanupScreenshots | ql-docker-plus.py:633-644 | counts the saved screenshots that were still on disk and were removed, and logs the count when it is positive |
| Flow.RemovedCountCountsFlags | ql-docker-plus.py:635-642 | the deleted count is the number of screenshots whose removal happened, in any order |
| Flow.RemovedCountZero | ql-docker-plus.py:643-644 | no cleanup line is logged exactly when no screenshot was removed |
| Session.AutoLogin.RunFault | ql-docker-plus.py:777-781 | logs the fault, marks the run failed, and generates the report |
| Session.AutoLogin.OnDashboard | ql-docker-plus.py:743-775 | balance, cookies, keep-alive and report, or the fault branch when reading cookies raises |
| Session.AutoLogin.Launch | ql-docker-plus.py:692-724 | the launch line, the injection line when cookies were stored, the home-page screenshot |
| Session.AutoLogin.LoginAndRecheck | ql-docker-plus.py:730-741 | logs in, checks again, and continues on the dashboard or fails with a pushed screenshot |
| Session.AutoLogin.RunBrowser | ql-docker-plus.py:692-781 | the `try` block and its `except` branch |
| Session.AutoLogin.Run | ql-docker-plus.py:669-792 | ends in the state `RunStep` gives and returns its report (see `Outcome.RunOutcome`) |
| Outcome.LogFrame | ql-docker-plus.py:147-152 | logging only appends and touches no outcome field |
| Outcome.ShotFrame | ql-docker-plus.py:154-171 | a screenshot adds at most one saved file per number taken and keeps the outbox valid; no log line |
| Outcome.FillFailedFrame | ql-docker-plus.py:515-518 | a failed fill only appends logs, screenshots and requests |
| Outcome.AutoFillFrame | ql-docker-plus.py:437-518 | filling a code, whether it succeeds or faults, only appends, and leaves the outcome and the two-factor flags alone |
| Outcome.TwoFactorFrame | ql-docker-plus.py:412-539 | the authenticator flag is set exactly on the authenticator page, the mobile flag exactly on the mobile page |
| Outcome.PasswordFrame | ql-docker-plus.py:388-557 | the flags are set only when the form went through and that two-factor page appeared |
| Outcome.AuthorizeFrame | ql-docker-plus.py:353-386 | a completed authorization sets no flag; otherwise the password page decides |
| Outcome.ContinueFrame | ql-docker-plus.py:388-572 | the flags are set only on the password page, as `PasswordFrame` says |
| Outcome.LoginFrame | ql-docker-plus.py:335-572 | the login sets a two-factor flag exactly when it reaches that two-factor page; it only appends |
| Outcome.BalanceFrame | ql-docker-plus.py:743-758 | the balance becomes `BalanceValue` of what was read; nothing else in the outcome changes |
| Outcome.PersistFrame | ql-docker-plus.py:760-769 | the files become those with the trusted cookies stored at the account's path |
| Outcome.GenerateFrame | ql-docker-plus.py:591-631 | only the report changes, and it describes the state |
| Outcome.DashboardFrame | ql-docker-plus.py:743-775 | success stays exactly when reading cookies does not raise; files, balance and report as the dashboard gives them |
| Outcome.CleanupLineQuiet | ql-docker-plus.py:643-644 | the cleanup line matches no priority keyword |
| Outcome.CleanupFrame | ql-docker-plus.py:633-644 | cleaning up after the report leaves what the report describes unchanged |
| Outcome.LaunchFrame | ql-docker-plus.py:692-724 | the launch only appends logs and screenshots |
| Outcome.LoginFailedFrame | ql-docker-plus.py:736-741 | a failed login marks the run failed, writes no file, and reports the state |
| Outcome.RetryLoginFrame | ql-docker-plus.py:730-741 | after a new login, success, files and balance follow the second check; the flags follow the login |
| Outcome.BrowserFrame | ql-docker-plus.py:692-781 | with a browser found: success exactly when the dashboard is reached and the cookies are read; the stored-cookie flag exactly when the first check passes |
| Outcome.RunOutcome | ql-docker-plus.py:669-792 | the run starts with its first line, only appends, reports its final state, and sets success, flags, files and balance as the observations decide |
| Outcome.FreshRun | ql-docker-plus.py:669-792 | a new instance's run posts only valid requests and succeeds exactly when it reaches the dashboard and reads the cookies |
| Outcome.FreshRunCookieFile | ql-docker-plus.py:760-769 | a failed run writes no file; a successful one stores the trusted cookies, if any; no other account's file changes |
| Outcome.FreshRunLoginMethod | ql-docker-plus.py:593-600 | the report names the authenticator or mobile login exactly when the login reached that page, and the cookie login otherwise |
| Runner.RunAccount | ql-docker-plus.py:815-816 | one instance's run gives the report, screenshots, requests and files of `AccountRun`, so of any runner that implements it |
| Runner.RunEach | ql-docker-plus.py:810-825 | the loop gathers, in account order, what `RunAccounts` gives |
| Runner.RunAll | ql-docker-plus.py:795-843 | exit code 1 and nothing sent without accounts; otherwise every account is run and the summary is sent when there is a report |
| Runner.ReportNonEmpty | ql-docker-plus.py:818-819 | a report describing a state is never empty |
| Runner.AccountRunBehaves | ql-docker-plus.py:813-822 | every account's run reports, posts only valid requests, and writes only its own cookie file |
| Runner.RunnerOfBehaves | ql-docker-plus.py:813-822 | the runs the observations determine all behave, whatever the account, its number and the files it starts from |
| Runner.RunAccountsSpec | ql-docker-plus.py:813-822 | for runs that all behave: one summary part per account, in order, each headed with its number; valid requests; only the accounts' cookie files change |
| Runner.SummaryCoversAccounts | ql-docker-plus.py:828-839 | with at least one account the summary is always sent, holds one part per account, and keeps the outbox valid |

## Left out

- The browser itself, waits and sleeps: what Selenium would answer is an observation (`RunObs`, `LoginObs`, `PasswordObs`, `PageObs`), so timeouts, page loads and element searches are modelled by their outcome only.
- The two Selenium flags that only change how the browser is started (`find_chromedriver`, the options) and `driver.quit`: they leave no trace in the state.
- Exceptions raised elsewhere than the modelled points are not modelled. The modelled points are: launching the browser, `get_cookies`, filling the password form, generating the code, clearing and typing it, and one keep-alive visit. An exception from, say, `login_btn.click()` (ql-docker-plus.py:349), which would reach the `except` of `run`, is not.
- HTTP: a request is appended to the outbox when posted. A network failure of `send` or `photo` is not modelled, nor is the message id `photo` returns.
- Files:
  - The file system maps each existing cookie file to the cookie list it holds. A file whose JSON does not parse is given as its path mapped to an empty list, because it behaves the same way: no line is logged and no cookies are reused (ql-docker-plus.py:178-186). The parse error itself is not modelled.
  - A failing write in `save_cookies` is not modelled.
  - Screenshot files are not part of the file system. Whether `save_screenshot` succeeds is one flag per run (`screenshotsSaved`). Whether each saved file is still there and its removal succeeds is an observation (`removed`).
- The clock: `time.strftime` is the string `now` in `RunObs`; the 180-second wait of the code relay is not modelled.
- `pyotp`: the generated code, or the exception raised, is an observation (`TotpObs`).
- `wait_for_2fa_code_via_telegram` as a whole: only its acceptance rule and its offset update are modelled. The method calls `clear_pending_updates` and `get_updates`, which the `Telegram` class does not define, and nothing in the script calls the method.
- The OTP and Verify selector searches are modelled by their outcome (found or not, how the code was submitted), not selector by selector.
- `print` and `logger` output: only `self.logs`, which the report reads, is modelled.
- `ACCOUNTS_CONFIG`: the in-script list is the parameter `fallback` of `LoadAccountsFromEnv`.
- Text.AllDigits: `isdigit` and `\d` are modelled on ASCII digits only; Python also accepts other Unicode digits.

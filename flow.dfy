/**
  The per-account session as values: the state `AutoLogin` updates
  (ql-docker-plus.py:125-145), the browser's answers as observations, and one
  function per step of the session giving the state after that step. The class
  `Session.AutoLogin` performs these steps in place and is proved to end in the
  state these functions give; the lemmas in `Outcome` are about these functions.
*/
module Flow {
  import opened Wrappers
  import opened Text
  import opened Accounts
  import opened Cookies
  import opened Telegram
  import opened Detection
  import opened Report

  // ---------------------------------------------------------------------------
  // State

  /** The fields of one `AutoLogin` that change while it runs. */
  datatype SessionState = SessionState(
    logs: seq<string>,
    shots: seq<string>,
    n: nat,
    outbox: seq<TgMessage>,
    usedOldCookie: bool,
    authenticator2fa: bool,
    githubMobile2fa: bool,
    balance: string,
    success: bool,
    notifyContent: string,
    files: FileSystem)

  /**
    The fields fixed at construction, and whether the browser can write
    screenshots to disk (`save_screenshot` succeeding).
  */
  datatype Context = Context(
    username: string,
    password: string,
    totpSecret: string,
    accountIndex: nat,
    cookieFile: string,
    tg: TgConfig,
    oldCookies: Option<seq<Cookie>>,
    screenshotsSaved: bool)

  // ---------------------------------------------------------------------------
  // Browser observations

  /** Which of `button[type='submit']`, `input[type='submit']`, `button.btn-primary` was clicked. */
  type SubmitIndex = k: nat | k < 3

  const SubmitSelectors: seq<string> := ["button[type='submit']", "input[type='submit']", "button.btn-primary"]

  /** How the two-factor code was submitted. */
  datatype SubmitObs =
    | Clicked(selector: SubmitIndex)
    | PressedEnter
    | SubmittedByScript
    | NotSubmitted

  /** `pyotp.TOTP(secret).now()`: a code, or the message of the exception it raised. */
  datatype TotpObs = Code(token: string) | TotpError(message: string)

  /** What the page showed after the password was submitted. */
  datatype TwoFactorObs =
    | NoTwoFactor
    | AuthenticatorApp(totp: TotpObs, otpInputFound: bool, fillFault: Option<string>, submit: SubmitObs)
    | GitHubMobile(approved: bool)

  /** The GitHub password page: a fault while filling the form, or how the rest went. */
  datatype PasswordObs = PasswordObs(
    formFault: Option<string>,
    twoFactor: TwoFactorObs,
    authorizePage: bool,
    authorizeButton: bool)

  /** The answers the browser gives during `full_github_login`. */
  datatype LoginObs = LoginObs(
    loginButton: bool,
    authorizePage: bool,
    authorizeButton: bool,
    passwordPage: bool,
    password: PasswordObs,
    returned: bool)

  /** The element holding `$`: absent, or its text. */
  datatype BalanceObs = NoBalanceElement | BalanceText(text: string)

  /** `driver.get_cookies()`: the cookies, or the message of the exception it raised. */
  datatype CookiesObs = BrowserCookies(cookies: seq<Cookie>) | CookiesFault(message: string)

  /** Everything `run` learns from outside: the browser, the clock. */
  datatype RunObs = RunObs(
    chromeFound: bool,
    launchFault: Option<string>,
    firstCheck: seq<PageObs>,
    login: LoginObs,
    secondCheck: seq<PageObs>,
    balance: BalanceObs,
    cookies: CookiesObs,
    visitFaults: seq<Option<string>>,
    removed: seq<bool>,
    now: string)

  // ---------------------------------------------------------------------------
  // Construction

  /** `load_cookies`: the stored cookies, with the line it logs. */
  function LoadCookiesStep(files: FileSystem, path: string): (Option<seq<Cookie>>, seq<string>) {
    if path !in files then (None, ["未检测到本地 Cookies，将进行登录"])
    else if files[path] != [] then (Some(files[path]), ["检测到本地 Cookies，尝试复用"])
    else (None, [])
  }

  /** The context of `AutoLogin(account, index)`. */
  function InitialContext(account: Account, accountIndex: nat, tg: TgConfig, files: FileSystem, screenshotsSaved: bool): Context {
    var path := CookieFile(account.username);
    Context(account.username, account.password, Strip(account.totpSecret), accountIndex, path, tg,
            LoadCookiesStep(files, path).0, screenshotsSaved)
  }

  /** The state right after `AutoLogin(account, index)`. */
  function InitialState(account: Account, files: FileSystem): SessionState {
    SessionState(LoadCookiesStep(files, CookieFile(account.username)).1, [], 0, [],
                 false, false, false, "未知", true, "", files)
  }

  // ---------------------------------------------------------------------------
  // Steps

  /** `log`: only the message is kept. */
  function LogStep(st: SessionState, msg: string): SessionState {
    st.(logs := st.logs + [msg])
  }

  /** A screenshot is taken only when it is pushed or its name mentions two-factor or failure. */
  predicate ShotWanted(name: string, push: bool) {
    push || Contains(name, "两步验证") || Contains(name, "失败")
  }

  /** `SCRIPT_DIR/<n:02d>_<username[:8]>_<name>.png`. */
  function ShotPath(n: nat, username: string, name: string): string {
    ScriptDir + "/" + ZeroPad2(n) + "_" + Take(username, 8) + "_" + name + ".png"
  }

  /** `shot`: count it, save it, and push it to Telegram when asked. */
  function ShotStep(ctx: Context, st: SessionState, name: string, push: bool, caption: string): SessionState {
    if !ShotWanted(name, push) then st
    else
      var n := st.n + 1;
      var path := ShotPath(n, ctx.username, name);
      if !ctx.screenshotsSaved then st.(n := n)
      else st.(n := n, shots := st.shots + [path],
               outbox := if push then SendPhotoFile(ctx.tg, st.outbox, path, if caption == "" then name else caption)
                         else st.outbox)
  }

  /** `is_logged_in`: the outcome and the state with the lines it logs. */
  function CheckStep(st: SessionState, obs: seq<PageObs>): (bool, SessionState) {
    var (found, lines) := Detect(obs, 0);
    (found, st.(logs := st.logs + [CheckingLine] + lines))
  }

  /** The caption sent when the authenticator page appears and no secret is configured. */
  function NoSecretCaption(accountIndex: nat): string {
    "⚠️ 【第" + NatToDecimal(accountIndex) + "个账号】检测到 GitHub 两步验证\n\n" +
    "未配置 totp_secret,无法自动填写验证码\n" +
    "请手动输入验证码或配置 2FA 密钥"
  }

  /** The caption sent when GitHub Mobile asks for approval. */
  function MobileCaption(accountIndex: nat): string {
    "⚠️ 【第" + NatToDecimal(accountIndex) + "个账号】检测到 GitHub 两步验证（GitHub Mobile）\n\n" +
    "请打开手机 GitHub App，批准登录请求\n" +
    "脚本已等待60秒供您操作，完成后会自动继续"
  }

  /** The line `full_github_login` ends with when it gets past the sign-in pages. */
  const RefreshLine: string := "已强制刷新，确保仪表盘完全加载"

  /** Filling the code failed with message `e`: log it and push a screenshot. */
  function FillFailedStep(ctx: Context, st: SessionState, e: string): SessionState {
    ShotStep(ctx, LogStep(st, "2FA 自动填写失败: " + e), "2FA失败页面", true, "❌ 2FA 自动填写失败: " + e)
  }

  /** The line logged for the way the code was submitted. */
  function SubmitStep(st: SessionState, submit: SubmitObs): SessionState {
    match submit
    case Clicked(k) => LogStep(st, "已点击提交按钮: " + SubmitSelectors[k])
    case PressedEnter => LogStep(st, "已按回车提交")
    case SubmittedByScript => LogStep(st, "已通过 JS 提交表单")
    case NotSubmitted => st
  }

  /** The message raised while filling the code: no input box found, or what `clear`/`send_keys` raised. */
  function FillError(otpInputFound: bool, fillFault: Option<string>): Option<string> {
    if !otpInputFound then Some("未找到 OTP 输入框") else fillFault
  }

  /** Filling in a generated code. */
  function AutoFillStep(ctx: Context, st: SessionState, totp: TotpObs, otpInputFound: bool, fillFault: Option<string>,
                        submit: SubmitObs): SessionState {
    match totp
    case TotpError(e) => FillFailedStep(ctx, st, e)
    case Code(token) =>
      var s1 := LogStep(st, "生成 2FA 验证码: " + token);
      match FillError(otpInputFound, fillFault)
      case Some(e) => FillFailedStep(ctx, s1, e)
      case None => LogStep(SubmitStep(LogStep(s1, "已输入 2FA 验证码"), submit), "✅ 2FA 验证码已自动填写并提交")
  }

  /** The two-factor page, if one appeared. */
  function TwoFactorStep(ctx: Context, st: SessionState, t: TwoFactorObs): SessionState {
    match t
    case NoTwoFactor => LogStep(st, "未检测到 2FA，继续流程")
    case AuthenticatorApp(totp, otpInputFound, fillFault, submit) =>
      var s1 := LogStep(st, "⚠️ 检测到两步验证").(authenticator2fa := true);
      if ctx.totpSecret == "" then
        LogStep(ShotStep(ctx, s1, "两步验证页面", true, NoSecretCaption(ctx.accountIndex)), "未配置 2FA 密钥,等待60秒手动输入")
      else AutoFillStep(ctx, s1, totp, otpInputFound, fillFault, submit)
    case GitHubMobile(approved) =>
      var s1 := LogStep(st, "⚠️ 检测到两步验证").(githubMobile2fa := true);
      var s2 := LogStep(ShotStep(ctx, s1, "两步验证页面", true, MobileCaption(ctx.accountIndex)), "等待60秒让你手动批准 GitHub Mobile 2FA...");
      LogStep(s2, if approved then "2FA 批准成功，继续流程" else "2FA 等待超时，尝试强制继续")
  }

  /** The GitHub password page. */
  function PasswordStep(ctx: Context, st: SessionState, p: PasswordObs): SessionState {
    match p.formFault
    case Some(e) => ShotStep(ctx, LogStep(st, "密码登录异常: " + e), "登录异常页面", false, "")
    case None =>
      var s1 := ShotStep(ctx, LogStep(st, "✅ 已提交账号密码"), "提交密码后", false, "");
      var s2 := TwoFactorStep(ctx, s1, p.twoFactor);
      if p.authorizePage && p.authorizeButton then LogStep(s2, "✅ 密码后自动授权") else s2
  }

  /** `full_github_login`. */
  function LoginStep(ctx: Context, st: SessionState, o: LoginObs): SessionState {
    var s0 := LogStep(st, "执行完整 GitHub 登录流程");
    if !o.loginButton then LogStep(s0, "未找到登录按钮，说明已登录")
    else AuthorizeStep(ctx, LogStep(ShotStep(ctx, s0, "ClawCloud登录界面", false, ""), "已点击 GitHub 登录按钮"), o)
  }

  /** After the GitHub button was clicked: the authorize page, if it appears. */
  function AuthorizeStep(ctx: Context, st: SessionState, o: LoginObs): SessionState {
    if o.authorizePage && o.authorizeButton then
      var s1 := ShotStep(ctx, LogStep(st, "检测到 GitHub 授权页面"), "GitHub授权页", false, "");
      LogStep(LogStep(s1, "✅ 已自动授权 ClawCloud"), "授权完成，已强制刷新仪表盘")
    else
      var s1 := if o.authorizePage then ShotStep(ctx, LogStep(st, "检测到 GitHub 授权页面"), "GitHub授权页", false, "")
                else LogStep(st, "未检测到授权页，可能需要密码登录");
      ContinueStep(ctx, s1, o)
  }

  /** The rest of `full_github_login` when the authorize page did not finish it. */
  function ContinueStep(ctx: Context, st: SessionState, o: LoginObs): SessionState {
    var s1 := if o.passwordPage then PasswordStep(ctx, LogStep(st, "进入 GitHub 密码登录页面"), o.password) else st;
    var s2 := LogStep(s1, if o.returned then "已跳转回 ClawCloud" else "未自动返回，强制跳转首页");
    LogStep(s2, RefreshLine)
  }

  /** The balance shown on the dashboard: the `$` amount in the element's text, or the text itself. */
  function BalanceValue(b: BalanceObs): string {
    match b
    case NoBalanceElement => "提取失败"
    case BalanceText(text) =>
      var raw := Strip(text);
      match ExtractBalance(raw)
      case Some(m) => m
      case None => raw
  }

  /** The balance read from the dashboard, with the line logged for it. */
  function BalanceStep(st: SessionState, b: BalanceObs): SessionState {
    var s1 := st.(balance := BalanceValue(b));
    match b
    case NoBalanceElement => LogStep(s1, "未能提取到余额")
    case BalanceText(text) =>
      if ExtractBalance(Strip(text)).Some? then LogStep(s1, "成功提取余额: " + s1.balance) else s1
  }

  /** `save_cookies`: nothing for an empty list, otherwise write the file and log it. */
  function SaveCookiesStep(ctx: Context, st: SessionState, cookies: seq<Cookie>): SessionState {
    if cookies == [] then st
    else LogStep(st.(files := StoreCookies(st.files, ctx.cookieFile, cookies)), "已保存最新 Cookies")
  }

  /** The two pages `keepalive` visits. */
  const KeepalivePages: seq<string> := ["首页", "Apps页面"]

  /** The fault of visiting page `i`; pages past the supplied ones load. */
  function VisitFault(faults: seq<Option<string>>, i: nat): Option<string> {
    if i < |faults| then faults[i] else None
  }

  /** The line logged for visiting page `i`. */
  function VisitLine(faults: seq<Option<string>>, i: nat): string
    requires i < |KeepalivePages|
  {
    match VisitFault(faults, i)
    case None => "保活访问: " + KeepalivePages[i]
    case Some(e) => "访问失败: " + e
  }

  /** The lines for visiting the first `k` pages. */
  function VisitLines(faults: seq<Option<string>>, k: nat): seq<string>
    requires k <= |KeepalivePages|
  {
    if k == 0 then [] else VisitLines(faults, k - 1) + [VisitLine(faults, k - 1)]
  }

  /** `keepalive`. */
  function KeepaliveStep(st: SessionState, faults: seq<Option<string>>): SessionState {
    st.(logs := st.logs + ["开始保活访问..."] + VisitLines(faults, |KeepalivePages|))
  }

  /** `generate_notify_content` at clock reading `now`. */
  function GenerateStep(ctx: Context, st: SessionState, now: string): SessionState {
    st.(notifyContent := NotifyText(
      LoginMethod(st.usedOldCookie, st.authenticator2fa, st.githubMobile2fa),
      MaskUser(ctx.username),
      ImportantLines(st.logs),
      BalanceDisplay(st.balance),
      st.success,
      ctx.accountIndex,
      now))
  }

  /** The report `generate_notify_content` writes for state `st` at clock reading `now`. */
  method ComposeReport(ctx: Context, st: SessionState, now: string) returns (content: string)
    ensures content == GenerateStep(ctx, st, now).notifyContent
  {
    var loginWay := LoginMethod(st.usedOldCookie, st.authenticator2fa, st.githubMobile2fa);
    var important := CollectImportantLines(st.logs);
    content := WriteReport(loginWay, MaskUser(ctx.username), important, BalanceDisplay(st.balance), st.success, ctx.accountIndex, now);
  }

  /** The `except` branch of `run`. */
  function FaultStep(ctx: Context, st: SessionState, e: string, now: string): SessionState {
    GenerateStep(ctx, LogStep(st, "运行异常: " + e).(success := false), now)
  }

  /** The line `cleanup_screenshots` logs after deleting the saved screenshots. */
  function CleanupLine(deleted: nat): string {
    "已清理 " + NatToDecimal(deleted) + " 张截图"
  }

  /**
    How many of the first `n` screenshots `cleanup_screenshots` deleted:
    `removed[i]` says whether the i-th file existed and its removal raised
    nothing; a screenshot past the end of `removed` was not deleted.
  */
  function RemovedCount(removed: seq<bool>, n: nat): (c: nat)
    ensures c <= n && c <= |removed|
  {
    if n == 0 then 0
    else RemovedCount(removed, n - 1) + if n - 1 < |removed| && removed[n - 1] then 1 else 0
  }

  /** The deleted count is the number of `true` flags among the first `n`. */
  lemma {:induction false} RemovedCountCountsFlags(removed: seq<bool>, n: nat)
    ensures var m := if n < |removed| then n else |removed|;
      RemovedCount(removed, n) == multiset(removed[..m])[true]
  {
    if n > 0 {
      RemovedCountCountsFlags(removed, n - 1);
      if n - 1 < |removed| {
        assert removed[..n] == removed[..n - 1] + [removed[n - 1]];
      }
    }
  }

  /** Nothing is counted exactly when none of the first `n` files was removed. */
  lemma {:induction false} RemovedCountZero(removed: seq<bool>, n: nat)
    ensures RemovedCount(removed, n) == 0 <==> forall i :: 0 <= i < n && i < |removed| ==> !removed[i]
  {
    if n > 0 {
      RemovedCountZero(removed, n - 1);
    }
  }

  /** `cleanup_screenshots`: the saved screenshots that are deleted are counted, and a positive count is logged. */
  function CleanupStep(st: SessionState, removed: seq<bool>): SessionState {
    var deleted := RemovedCount(removed, |st.shots|);
    if deleted > 0 then LogStep(st, CleanupLine(deleted)) else st
  }

  /** The trusted cookies the browser holds (the list comprehension of `run`). */
  function PersistStep(ctx: Context, st: SessionState, cookies: seq<Cookie>): SessionState {
    if cookies != [] && FilterTrusted(cookies) != [] then SaveCookiesStep(ctx, st, FilterTrusted(cookies)) else st
  }

  /** What `run` does once the dashboard is reached. */
  function DashboardStep(ctx: Context, st: SessionState, obs: RunObs): SessionState {
    var s1 := BalanceStep(st, obs.balance);
    match obs.cookies
    case CookiesFault(e) => FaultStep(ctx, s1, e, obs.now)
    case BrowserCookies(cs) => GenerateStep(ctx, KeepaliveStep(PersistStep(ctx, s1, cs), obs.visitFaults), obs.now)
  }

  /** The state just before the first dashboard check. */
  function LaunchStep(ctx: Context, st: SessionState): SessionState {
    var s1 := LogStep(st, "浏览器启动成功");
    var s2 := if ctx.oldCookies.Some? then LogStep(s1, "已注入本地 Cookies") else s1;
    ShotStep(ctx, s2, "打开主页后", false, "")
  }

  /** The `try` block of `run`, with its `except` branch. */
  function BrowserStep(ctx: Context, st: SessionState, obs: RunObs): SessionState {
    match obs.launchFault
    case Some(e) => FaultStep(ctx, st, e, obs.now)
    case None =>
      var (first, s1) := CheckStep(LaunchStep(ctx, st), obs.firstCheck);
      if first then DashboardStep(ctx, LogStep(s1, "🎉 已登录，直接保活").(usedOldCookie := true), obs)
      else RetryLoginStep(ctx, s1, obs)
  }

  /** The stored cookies did not reach the dashboard: log in and check again. */
  function RetryLoginStep(ctx: Context, st: SessionState, obs: RunObs): SessionState {
    var (second, s1) := CheckStep(LoginStep(ctx, LogStep(st, "检测到未登录，执行登录流程"), obs.login), obs.secondCheck);
    if second then DashboardStep(ctx, LogStep(s1, "✅ 登录/授权最终成功！"), obs)
    else LoginFailedStep(ctx, s1, obs.now)
  }

  /** Neither check passed: the run fails, and a screenshot of the page is pushed. */
  function LoginFailedStep(ctx: Context, st: SessionState, now: string): SessionState {
    var s1 := LogStep(st, "❌ 登录最终失败").(success := false);
    GenerateStep(ctx, ShotStep(ctx, s1, "最终失败页面", true, "❌ 保活失败，请手动检查"), now)
  }

  /** `run`: the final state; the report it returns is the final `notifyContent`. */
  function RunStep(ctx: Context, st: SessionState, obs: RunObs): SessionState {
    var s0 := LogStep(st, "开始运行保活流程");
    if !obs.chromeFound then GenerateStep(ctx, LogStep(s0, "未找到 Chromium").(success := false), obs.now)
    else CleanupStep(BrowserStep(ctx, s0, obs), obs.removed)
  }
}

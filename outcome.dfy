/**
  What one account's run (`AutoLogin.run`, ql-docker-plus.py:669-792) promises
  about its outcome, stated about the step functions of `Flow`: when it
  succeeds, which login method it reports, what it writes to the cookie file,
  that the report it returns describes the final state, and that logs,
  screenshots and Telegram requests are only ever added to.
*/
module Outcome {
  import opened Wrappers
  import opened Text
  import opened Cookies
  import opened Telegram
  import opened Detection
  import opened Report
  import opened Flow

  // ---------------------------------------------------------------------------
  // Relations between the state before and after a step

  /**
    Logs, saved screenshots and posted requests are only appended to; at most
    one screenshot is saved per number taken; a valid outbox stays valid.
  */
  predicate Keeps(tg: TgConfig, a: SessionState, b: SessionState) {
    && a.logs <= b.logs
    && a.shots <= b.shots
    && a.outbox <= b.outbox
    && a.n <= b.n
    && |b.shots| - |a.shots| <= b.n - a.n
    && (OutboxValid(tg, a.outbox) ==> OutboxValid(tg, b.outbox))
  }

  /** The step left the outcome fields alone. */
  predicate Quiet(a: SessionState, b: SessionState) {
    && a.usedOldCookie == b.usedOldCookie
    && a.balance == b.balance
    && a.success == b.success
    && a.notifyContent == b.notifyContent
    && a.files == b.files
  }

  /** The step left both two-factor flags alone. */
  predicate SameTwoFactor(a: SessionState, b: SessionState) {
    a.authenticator2fa == b.authenticator2fa && a.githubMobile2fa == b.githubMobile2fa
  }

  lemma KeepsTrans(tg: TgConfig, a: SessionState, b: SessionState, c: SessionState)
    requires Keeps(tg, a, b) && Keeps(tg, b, c)
    ensures Keeps(tg, a, c)
  {
    assert a.logs <= c.logs;
  }

  // ---------------------------------------------------------------------------
  // Single steps

  /** A screenshot adds at most one saved file and one posted photo, and keeps the outbox valid. */
  lemma {:induction false} ShotFrame(ctx: Context, st: SessionState, name: string, push: bool, caption: string)
    ensures var r := ShotStep(ctx, st, name, push, caption);
      Keeps(ctx.tg, st, r) && Quiet(st, r) && SameTwoFactor(st, r) && r.logs == st.logs
  {
    if ShotWanted(name, push) && ctx.screenshotsSaved && push {
      var path := ShotPath(st.n + 1, ctx.username, name);
      var c := if caption == "" then name else caption;
      if OutboxValid(ctx.tg, st.outbox) {
        SendPhotoValid(ctx.tg, st.outbox, path, c);
      }
      assert st.outbox <= SendPhotoFile(ctx.tg, st.outbox, path, c);
    }
  }

  lemma LogFrame(tg: TgConfig, st: SessionState, msg: string)
    ensures var r := LogStep(st, msg);
      Keeps(tg, st, r) && Quiet(st, r) && SameTwoFactor(st, r)
  {
  }

  /** The failed-fill branch only logs and pushes a screenshot. */
  lemma {:induction false} FillFailedFrame(ctx: Context, st: SessionState, e: string)
    ensures var r := FillFailedStep(ctx, st, e);
      Keeps(ctx.tg, st, r) && Quiet(st, r) && SameTwoFactor(st, r)
  {
    var s1 := LogStep(st, "2FA 自动填写失败: " + e);
    LogFrame(ctx.tg, st, "2FA 自动填写失败: " + e);
    ShotFrame(ctx, s1, "2FA失败页面", true, "❌ 2FA 自动填写失败: " + e);
    KeepsTrans(ctx.tg, st, s1, FillFailedStep(ctx, st, e));
  }

  /** Filling in a generated code only logs and pushes screenshots. */
  lemma {:induction false} AutoFillFrame(ctx: Context, st: SessionState, totp: TotpObs, found: bool, fault: Option<string>,
                                         submit: SubmitObs)
    ensures var r := AutoFillStep(ctx, st, totp, found, fault, submit);
      Keeps(ctx.tg, st, r) && Quiet(st, r) && SameTwoFactor(st, r)
  {
    match totp
    case TotpError(e) => FillFailedFrame(ctx, st, e);
    case Code(token) =>
      var s1 := LogStep(st, "生成 2FA 验证码: " + token);
      match FillError(found, fault)
      case Some(e) => {
        FillFailedFrame(ctx, s1, e);
        KeepsTrans(ctx.tg, st, s1, FillFailedStep(ctx, s1, e));
      }
      case None => {
        var s2 := LogStep(s1, "已输入 2FA 验证码");
        var s3 := SubmitStep(s2, submit);
        assert Keeps(ctx.tg, st, s2);
        assert Keeps(ctx.tg, s2, s3);
        KeepsTrans(ctx.tg, st, s2, s3);
      }
  }

  /** The two-factor page sets exactly the flag of the kind of page that appeared. */
  lemma {:induction false} TwoFactorFrame(ctx: Context, st: SessionState, t: TwoFactorObs)
    ensures var r := TwoFactorStep(ctx, st, t);
      && Keeps(ctx.tg, st, r) && Quiet(st, r)
      && r.authenticator2fa == (st.authenticator2fa || t.AuthenticatorApp?)
      && r.githubMobile2fa == (st.githubMobile2fa || t.GitHubMobile?)
  {
    match t
    case NoTwoFactor =>
    case AuthenticatorApp(totp, found, fault, submit) =>
      var s1 := LogStep(st, "⚠️ 检测到两步验证").(authenticator2fa := true);
      if ctx.totpSecret == "" {
        ShotFrame(ctx, s1, "两步验证页面", true, NoSecretCaption(ctx.accountIndex));
      } else {
        AutoFillFrame(ctx, s1, totp, found, fault, submit);
      }
    case GitHubMobile(approved) =>
      var s1 := LogStep(st, "⚠️ 检测到两步验证").(githubMobile2fa := true);
      ShotFrame(ctx, s1, "两步验证页面", true, MobileCaption(ctx.accountIndex));
  }

  /** The password page raises a two-factor flag only when its form went through. */
  lemma {:induction false} PasswordFrame(ctx: Context, st: SessionState, p: PasswordObs)
    ensures var r := PasswordStep(ctx, st, p);
      && Keeps(ctx.tg, st, r) && Quiet(st, r)
      && r.authenticator2fa == (st.authenticator2fa || (p.formFault.None? && p.twoFactor.AuthenticatorApp?))
      && r.githubMobile2fa == (st.githubMobile2fa || (p.formFault.None? && p.twoFactor.GitHubMobile?))
  {
    match p.formFault
    case Some(e) =>
      ShotFrame(ctx, LogStep(st, "密码登录异常: " + e), "登录异常页面", false, "");
    case None =>
      var s0 := LogStep(st, "✅ 已提交账号密码");
      var s1 := ShotStep(ctx, s0, "提交密码后", false, "");
      ShotFrame(ctx, s0, "提交密码后", false, "");
      TwoFactorFrame(ctx, s1, p.twoFactor);
      KeepsTrans(ctx.tg, st, s0, s1);
      KeepsTrans(ctx.tg, st, s1, TwoFactorStep(ctx, s1, p.twoFactor));
  }

  /** `full_github_login` reaches the two-factor page. */
  predicate ReachesTwoFactor(o: LoginObs) {
    && o.loginButton
    && !(o.authorizePage && o.authorizeButton)
    && o.passwordPage
    && o.password.formFault.None?
  }

  /** The password page and the return to ClawCloud. */
  lemma {:induction false} ContinueFrame(ctx: Context, st: SessionState, o: LoginObs)
    ensures var r := ContinueStep(ctx, st, o);
      && Keeps(ctx.tg, st, r) && Quiet(st, r)
      && r.authenticator2fa == (st.authenticator2fa || (o.passwordPage && o.password.formFault.None? && o.password.twoFactor.AuthenticatorApp?))
      && r.githubMobile2fa == (st.githubMobile2fa || (o.passwordPage && o.password.formFault.None? && o.password.twoFactor.GitHubMobile?))
  {
    var s1 := st;
    if o.passwordPage {
      var sp := LogStep(st, "进入 GitHub 密码登录页面");
      s1 := PasswordStep(ctx, sp, o.password);
      PasswordFrame(ctx, sp, o.password);
      KeepsTrans(ctx.tg, st, sp, s1);
    }
    var s2 := LogStep(s1, if o.returned then "已跳转回 ClawCloud" else "未自动返回，强制跳转首页");
    KeepsTrans(ctx.tg, st, s1, s2);
    KeepsTrans(ctx.tg, st, s2, LogStep(s2, RefreshLine));
  }

  /** The authorize page and what follows it. */
  lemma {:induction false} AuthorizeFrame(ctx: Context, st: SessionState, o: LoginObs)
    ensures var r := AuthorizeStep(ctx, st, o);
      && Keeps(ctx.tg, st, r) && Quiet(st, r)
      && r.authenticator2fa == (st.authenticator2fa || (ReachesTwoFactor(o.(loginButton := true)) && o.password.twoFactor.AuthenticatorApp?))
      && r.githubMobile2fa == (st.githubMobile2fa || (ReachesTwoFactor(o.(loginButton := true)) && o.password.twoFactor.GitHubMobile?))
  {
    var s1: SessionState;
    if o.authorizePage {
      var sa := LogStep(st, "检测到 GitHub 授权页面");
      s1 := ShotStep(ctx, sa, "GitHub授权页", false, "");
      ShotFrame(ctx, sa, "GitHub授权页", false, "");
      KeepsTrans(ctx.tg, st, sa, s1);
    } else {
      s1 := LogStep(st, "未检测到授权页，可能需要密码登录");
    }
    if o.authorizePage && o.authorizeButton {
      var s2 := LogStep(s1, "✅ 已自动授权 ClawCloud");
      KeepsTrans(ctx.tg, st, s1, s2);
      KeepsTrans(ctx.tg, st, s2, LogStep(s2, "授权完成，已强制刷新仪表盘"));
    } else {
      ContinueFrame(ctx, s1, o);
      KeepsTrans(ctx.tg, st, s1, ContinueStep(ctx, s1, o));
    }
  }

  /**
    `full_github_login` changes no outcome field; it raises the authenticator
    (or GitHub Mobile) flag exactly when it reaches the two-factor page and
    that page is of that kind.
  */
  lemma {:induction false} LoginFrame(ctx: Context, st: SessionState, o: LoginObs)
    ensures var r := LoginStep(ctx, st, o);
      && Keeps(ctx.tg, st, r) && Quiet(st, r)
      && r.authenticator2fa == (st.authenticator2fa || (ReachesTwoFactor(o) && o.password.twoFactor.AuthenticatorApp?))
      && r.githubMobile2fa == (st.githubMobile2fa || (ReachesTwoFactor(o) && o.password.twoFactor.GitHubMobile?))
  {
    var s0 := LogStep(st, "执行完整 GitHub 登录流程");
    if o.loginButton {
      var sh := ShotStep(ctx, s0, "ClawCloud登录界面", false, "");
      ShotFrame(ctx, s0, "ClawCloud登录界面", false, "");
      var s1 := LogStep(sh, "已点击 GitHub 登录按钮");
      KeepsTrans(ctx.tg, st, s0, sh);
      KeepsTrans(ctx.tg, st, sh, s1);
      AuthorizeFrame(ctx, s1, o);
      KeepsTrans(ctx.tg, st, s1, AuthorizeStep(ctx, s1, o));
      assert o.(loginButton := true) == o;
    }
  }

  // ---------------------------------------------------------------------------
  // The dashboard, the browser session and the whole run

  /** The report names the login method, the masked user, the notable lines, the balance and the outcome of `r`. */
  predicate DescribesState(ctx: Context, r: SessionState, now: string) {
    r.notifyContent == NotifyText(LoginMethod(r.usedOldCookie, r.authenticator2fa, r.githubMobile2fa),
                                  MaskUser(ctx.username), ImportantLines(r.logs), BalanceDisplay(r.balance),
                                  r.success, ctx.accountIndex, now)
  }

  /** The cookie file after persisting the browser's cookies: the trusted ones, when there are any. */
  function Persisted(ctx: Context, files: FileSystem, cookies: CookiesObs): FileSystem {
    match cookies
    case BrowserCookies(cs) => StoreCookies(files, ctx.cookieFile, FilterTrusted(cs))
    case CookiesFault(_) => files
  }

  /** Reading the balance changes nothing but the balance and the log. */
  lemma {:induction false} BalanceFrame(tg: TgConfig, st: SessionState, b: BalanceObs)
    ensures var r := BalanceStep(st, b);
      && Keeps(tg, st, r) && SameTwoFactor(st, r)
      && r.usedOldCookie == st.usedOldCookie && r.success == st.success
      && r.notifyContent == st.notifyContent && r.files == st.files
      && r.balance == BalanceValue(b)
  {
  }

  /** Persisting writes the trusted cookies, and nothing else changes but the log. */
  lemma {:induction false} PersistFrame(ctx: Context, st: SessionState, cs: seq<Cookie>)
    ensures var r := PersistStep(ctx, st, cs);
      && Keeps(ctx.tg, st, r) && SameTwoFactor(st, r)
      && r.usedOldCookie == st.usedOldCookie && r.success == st.success
      && r.balance == st.balance && r.notifyContent == st.notifyContent
      && r.files == StoreCookies(st.files, ctx.cookieFile, FilterTrusted(cs))
  {
    if cs != [] && FilterTrusted(cs) != [] {
      var s1 := st.(files := StoreCookies(st.files, ctx.cookieFile, FilterTrusted(cs)));
      LogFrame(ctx.tg, s1, "已保存最新 Cookies");
    } else if cs == [] {
      assert FilterTrusted(cs) == [];
    }
  }

  /** Generating the report sets it to describe the state, and changes nothing else. */
  lemma {:induction false} GenerateFrame(ctx: Context, st: SessionState, now: string)
    ensures var r := GenerateStep(ctx, st, now);
      && Keeps(ctx.tg, st, r) && SameTwoFactor(st, r)
      && r == st.(notifyContent := r.notifyContent)
      && DescribesState(ctx, r, now)
  {
  }

  /**
    On the dashboard: the run fails only when reading the cookies fails; the
    trusted cookies are written; the report describes the state it ends in.
  */
  lemma {:induction false} DashboardFrame(ctx: Context, st: SessionState, obs: RunObs)
    ensures var r := DashboardStep(ctx, st, obs);
      && Keeps(ctx.tg, st, r) && SameTwoFactor(st, r)
      && r.usedOldCookie == st.usedOldCookie
      && r.balance == BalanceValue(obs.balance)
      && r.success == (st.success && obs.cookies.BrowserCookies?)
      && r.files == Persisted(ctx, st.files, obs.cookies)
      && DescribesState(ctx, r, obs.now)
  {
    var s1 := BalanceStep(st, obs.balance);
    BalanceFrame(ctx.tg, st, obs.balance);
    match obs.cookies
    case CookiesFault(e) =>
      var s2 := LogStep(s1, "运行异常: " + e).(success := false);
      KeepsTrans(ctx.tg, st, s1, s2);
      GenerateFrame(ctx, s2, obs.now);
      KeepsTrans(ctx.tg, st, s2, GenerateStep(ctx, s2, obs.now));
    case BrowserCookies(cs) =>
      var s2 := PersistStep(ctx, s1, cs);
      PersistFrame(ctx, s1, cs);
      var s3 := KeepaliveStep(s2, obs.visitFaults);
      assert Keeps(ctx.tg, s2, s3);
      KeepsTrans(ctx.tg, st, s1, s2);
      KeepsTrans(ctx.tg, st, s2, s3);
      GenerateFrame(ctx, s3, obs.now);
      KeepsTrans(ctx.tg, st, s3, GenerateStep(ctx, s3, obs.now));
  }

  /** The cleanup line matches none of the keywords, so logging it leaves the notable lines alone. */
  lemma {:induction false} CleanupLineQuiet(deleted: nat)
    ensures forall k: nat :: k < KeywordCount ==> !Notable(k, CleanupLine(deleted))
  {
    var line := CleanupLine(deleted);
    var digits := NatToDecimal(deleted);
    assert line == "已清理 " + digits + " 张截图";
    forall i | 0 <= i < |line| ensures line[i] != '强' && line[i] != '第' && line[i] != '保' {
      if 4 <= i < 4 + |digits| {
        assert line[i] == digits[i - 4];
        assert IsDigit(digits[i - 4]);
      }
    }
    assert RefreshKeyword[1] == '强';
    MissingCharExcludes(line, RefreshKeyword, 1);
    assert DetectionHead[0] == '第';
    MissingCharExcludes(line, DetectionHead, 0);
    assert SavedKeyword[1] == '保';
    MissingCharExcludes(line, SavedKeyword, 1);
  }

  /** Cleanup adds at most one line, which no keyword matches, and keeps the report describing the state. */
  lemma {:induction false} CleanupFrame(ctx: Context, st: SessionState, removed: seq<bool>, now: string)
    ensures var r := CleanupStep(st, removed);
      && Keeps(ctx.tg, st, r) && Quiet(st, r) && SameTwoFactor(st, r)
      && ImportantLines(r.logs) == ImportantLines(st.logs)
      && (DescribesState(ctx, st, now) ==> DescribesState(ctx, r, now))
  {
    var deleted := RemovedCount(removed, |st.shots|);
    if deleted > 0 {
      CleanupLineQuiet(deleted);
      ImportantUpToQuiet(st.logs, CleanupLine(deleted), KeywordCount);
    }
  }

  /** Launching, injecting the cookies and the first screenshot change no outcome field. */
  lemma {:induction false} LaunchFrame(ctx: Context, st: SessionState)
    ensures var r := LaunchStep(ctx, st);
      Keeps(ctx.tg, st, r) && Quiet(st, r) && SameTwoFactor(st, r)
  {
    var s1 := LogStep(st, "浏览器启动成功");
    var s2 := if ctx.oldCookies.Some? then LogStep(s1, "已注入本地 Cookies") else s1;
    KeepsTrans(ctx.tg, st, s1, s2);
    ShotFrame(ctx, s2, "打开主页后", false, "");
    KeepsTrans(ctx.tg, st, s2, LaunchStep(ctx, st));
  }

  /** The browser started. */
  predicate Launched(obs: RunObs) {
    obs.chromeFound && obs.launchFault.None?
  }

  /** The stored cookies did not reach the dashboard, so the run logs in. */
  predicate LogsIn(obs: RunObs) {
    Launched(obs) && !Detect(obs.firstCheck, 0).0
  }

  /** One of the two dashboard checks passed. */
  predicate ReachesDashboard(obs: RunObs) {
    Launched(obs) && (Detect(obs.firstCheck, 0).0 || Detect(obs.secondCheck, 0).0)
  }

  /** A failed login fails the run and changes nothing else but the log, the screenshots and the report. */
  lemma {:induction false} LoginFailedFrame(ctx: Context, st: SessionState, now: string)
    ensures var r := LoginFailedStep(ctx, st, now);
      && Keeps(ctx.tg, st, r) && DescribesState(ctx, r, now) && SameTwoFactor(st, r)
      && !r.success && r.usedOldCookie == st.usedOldCookie && r.files == st.files && r.balance == st.balance
  {
    var s1 := LogStep(st, "❌ 登录最终失败").(success := false);
    var s2 := ShotStep(ctx, s1, "最终失败页面", true, "❌ 保活失败，请手动检查");
    ShotFrame(ctx, s1, "最终失败页面", true, "❌ 保活失败，请手动检查");
    KeepsTrans(ctx.tg, st, s1, s2);
    GenerateFrame(ctx, s2, now);
    KeepsTrans(ctx.tg, st, s2, GenerateStep(ctx, s2, now));
  }

  /** After logging in again: the run succeeds exactly when the second check passes and the cookies are read. */
  lemma {:induction false} RetryLoginFrame(ctx: Context, st: SessionState, obs: RunObs)
    ensures var r := RetryLoginStep(ctx, st, obs);
      var second := Detect(obs.secondCheck, 0).0;
      && Keeps(ctx.tg, st, r) && DescribesState(ctx, r, obs.now)
      && r.usedOldCookie == st.usedOldCookie
      && r.authenticator2fa == (st.authenticator2fa || (ReachesTwoFactor(obs.login) && obs.login.password.twoFactor.AuthenticatorApp?))
      && r.githubMobile2fa == (st.githubMobile2fa || (ReachesTwoFactor(obs.login) && obs.login.password.twoFactor.GitHubMobile?))
      && r.success == (st.success && second && obs.cookies.BrowserCookies?)
      && r.files == (if second then Persisted(ctx, st.files, obs.cookies) else st.files)
      && r.balance == (if second then BalanceValue(obs.balance) else st.balance)
  {
    var s0 := LogStep(st, "检测到未登录，执行登录流程");
    var login := LoginStep(ctx, s0, obs.login);
    LoginFrame(ctx, s0, obs.login);
    KeepsTrans(ctx.tg, st, s0, login);
    var (second, s1) := CheckStep(login, obs.secondCheck);
    assert Keeps(ctx.tg, login, s1);
    KeepsTrans(ctx.tg, st, login, s1);
    if second {
      var s2 := LogStep(s1, "✅ 登录/授权最终成功！");
      KeepsTrans(ctx.tg, st, s1, s2);
      DashboardFrame(ctx, s2, obs);
      KeepsTrans(ctx.tg, st, s2, DashboardStep(ctx, s2, obs));
    } else {
      LoginFailedFrame(ctx, s1, obs.now);
      KeepsTrans(ctx.tg, st, s1, LoginFailedStep(ctx, s1, obs.now));
    }
  }

  /** The `try` block of `run` with its `except` branch, for a browser that was found. */
  lemma {:induction false} BrowserFrame(ctx: Context, st: SessionState, obs: RunObs)
    requires obs.chromeFound
    ensures var r := BrowserStep(ctx, st, obs);
      && Keeps(ctx.tg, st, r) && DescribesState(ctx, r, obs.now)
      && r.success == (st.success && ReachesDashboard(obs) && obs.cookies.BrowserCookies?)
      && r.usedOldCookie == (st.usedOldCookie || (Launched(obs) && Detect(obs.firstCheck, 0).0))
      && r.authenticator2fa == (st.authenticator2fa || (LogsIn(obs) && ReachesTwoFactor(obs.login) && obs.login.password.twoFactor.AuthenticatorApp?))
      && r.githubMobile2fa == (st.githubMobile2fa || (LogsIn(obs) && ReachesTwoFactor(obs.login) && obs.login.password.twoFactor.GitHubMobile?))
      && r.files == (if ReachesDashboard(obs) then Persisted(ctx, st.files, obs.cookies) else st.files)
      && r.balance == (if ReachesDashboard(obs) then BalanceValue(obs.balance) else st.balance)
  {
    match obs.launchFault
    case Some(e) =>
      var s1 := LogStep(st, "运行异常: " + e).(success := false);
      GenerateFrame(ctx, s1, obs.now);
      KeepsTrans(ctx.tg, st, s1, GenerateStep(ctx, s1, obs.now));
    case None =>
      var s0 := LaunchStep(ctx, st);
      LaunchFrame(ctx, st);
      var (first, s1) := CheckStep(s0, obs.firstCheck);
      assert Keeps(ctx.tg, s0, s1);
      KeepsTrans(ctx.tg, st, s0, s1);
      if first {
        var s2 := LogStep(s1, "🎉 已登录，直接保活").(usedOldCookie := true);
        KeepsTrans(ctx.tg, st, s1, s2);
        DashboardFrame(ctx, s2, obs);
        KeepsTrans(ctx.tg, st, s2, DashboardStep(ctx, s2, obs));
      } else {
        RetryLoginFrame(ctx, s1, obs);
        KeepsTrans(ctx.tg, st, s1, RetryLoginStep(ctx, s1, obs));
      }
  }

  /**
    `run`: the first line it logs, what it only appends to, when it succeeds,
    the flags behind the reported login method, the cookie file and balance it
    leaves, and a report that describes the state it ends in.
  */
  lemma {:induction false} RunOutcome(ctx: Context, st: SessionState, obs: RunObs)
    ensures var r := RunStep(ctx, st, obs);
      && Keeps(ctx.tg, st, r)
      && |st.logs| < |r.logs| && r.logs[|st.logs|] == "开始运行保活流程"
      && DescribesState(ctx, r, obs.now)
      && r.success == (st.success && ReachesDashboard(obs) && obs.cookies.BrowserCookies?)
      && r.usedOldCookie == (st.usedOldCookie || (Launched(obs) && Detect(obs.firstCheck, 0).0))
      && r.authenticator2fa == (st.authenticator2fa || (LogsIn(obs) && ReachesTwoFactor(obs.login) && obs.login.password.twoFactor.AuthenticatorApp?))
      && r.githubMobile2fa == (st.githubMobile2fa || (LogsIn(obs) && ReachesTwoFactor(obs.login) && obs.login.password.twoFactor.GitHubMobile?))
      && r.files == (if ReachesDashboard(obs) then Persisted(ctx, st.files, obs.cookies) else st.files)
      && r.balance == (if ReachesDashboard(obs) then BalanceValue(obs.balance) else st.balance)
  {
    var s0 := LogStep(st, "开始运行保活流程");
    assert s0.logs[|st.logs|] == "开始运行保活流程";
    if !obs.chromeFound {
      var s1 := LogStep(s0, "未找到 Chromium").(success := false);
      GenerateFrame(ctx, s1, obs.now);
      KeepsTrans(ctx.tg, st, s1, GenerateStep(ctx, s1, obs.now));
    } else {
      var s1 := BrowserStep(ctx, s0, obs);
      BrowserFrame(ctx, s0, obs);
      KeepsTrans(ctx.tg, st, s0, s1);
      CleanupFrame(ctx, s1, obs.removed, obs.now);
      KeepsTrans(ctx.tg, st, s1, CleanupStep(s1, obs.removed));
    }
  }

  /**
    A new account's run: the outbox holds only valid requests, no more
    screenshots are saved than were numbered, and the run succeeds exactly when
    a dashboard check passes and the browser's cookies are read.
  */
  lemma {:induction false} FreshRun(account: Accounts.Account, index: nat, tg: TgConfig, files: FileSystem, saved: bool, obs: RunObs)
    ensures var r := RunStep(InitialContext(account, index, tg, files, saved), InitialState(account, files), obs);
      && OutboxValid(tg, r.outbox)
      && |r.shots| <= r.n
      && (r.success <==> ReachesDashboard(obs) && obs.cookies.BrowserCookies?)
  {
    RunOutcome(InitialContext(account, index, tg, files, saved), InitialState(account, files), obs);
  }

  /**
    The cookie file of a new account's run: a successful run leaves exactly the
    browser's trusted cookies there when it has any, and the previous contents
    otherwise; a failed run leaves every file as it was; no other account's file changes.
  */
  lemma {:induction false} FreshRunCookieFile(account: Accounts.Account, index: nat, tg: TgConfig, files: FileSystem, saved: bool, obs: RunObs)
    ensures var path := CookieFile(account.username);
      var r := RunStep(InitialContext(account, index, tg, files, saved), InitialState(account, files), obs);
      && (!r.success ==> r.files == files)
      && (r.success ==>
            var trusted := FilterTrusted(obs.cookies.cookies);
            && (trusted != [] ==> LoadCookies(r.files, path) == Some(trusted))
            && (trusted == [] ==> LoadCookies(r.files, path) == LoadCookies(files, path)))
      && forall other :: other != path ==> LoadCookies(r.files, other) == LoadCookies(files, other)
  {
    var ctx := InitialContext(account, index, tg, files, saved);
    var path := CookieFile(account.username);
    RunOutcome(ctx, InitialState(account, files), obs);
    var r := RunStep(ctx, InitialState(account, files), obs);
    if ReachesDashboard(obs) && obs.cookies.BrowserCookies? {
      var trusted := FilterTrusted(obs.cookies.cookies);
      PersistedCookiesAreTrusted(files, path, obs.cookies.cookies);
      forall other | other != path ensures LoadCookies(r.files, other) == LoadCookies(files, other) {
        StoreOtherPathsUnchanged(files, path, other, trusted);
      }
    } else if ReachesDashboard(obs) {
      assert r.files == files;
    }
  }

  /**
    The login method a new account's report names: the authenticator app or
    GitHub Mobile exactly when the run had to log in and reached that kind of
    two-factor page, and the cookie login otherwise.
  */
  lemma {:induction false} FreshRunLoginMethod(account: Accounts.Account, index: nat, tg: TgConfig, files: FileSystem, saved: bool, obs: RunObs)
    ensures var r := RunStep(InitialContext(account, index, tg, files, saved), InitialState(account, files), obs);
      var way := LoginMethod(r.usedOldCookie, r.authenticator2fa, r.githubMobile2fa);
      var twoFactor := LogsIn(obs) && ReachesTwoFactor(obs.login);
      && (way == AuthenticatorLogin <==> twoFactor && obs.login.password.twoFactor.AuthenticatorApp?)
      && (way == MobileLogin <==> twoFactor && obs.login.password.twoFactor.GitHubMobile?)
      && (way == CookieLogin <==> !(twoFactor && !obs.login.password.twoFactor.NoTwoFactor?))
  {
    RunOutcome(InitialContext(account, index, tg, files, saved), InitialState(account, files), obs);
  }
}

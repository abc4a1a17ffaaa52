/**
  `AutoLogin` (ql-docker-plus.py:122-792): one account's session, whose methods
  update its fields in place. Each method is proved to leave the object in the
  state the matching function of `Flow` gives.
*/
module Session {
  import opened Wrappers
  import opened Text
  import opened Accounts
  import opened Cookies
  import opened Telegram
  import opened Detection
  import opened Report
  import opened Flow

  class AutoLogin {
    var logs: seq<string>
    var shots: seq<string>
    var n: nat
    var outbox: seq<TgMessage>
    var usedOldCookie: bool
    var authenticator2fa: bool
    var githubMobile2fa: bool
    var balance: string
    var success: bool
    var notifyContent: string
    /** The cookie files on disk; the runner hands them from one account to the next. */
    var files: FileSystem

    const username: string
    const password: string
    const totpSecret: string
    const accountIndex: nat
    const cookieFile: string
    const tg: TgConfig
    const oldCookies: Option<seq<Cookie>>
    /** Whether `save_screenshot` succeeds in this environment. */
    const screenshotsSaved: bool

    /** The fields that change. */
    function State(): SessionState
      reads this
    {
      SessionState(logs, shots, n, outbox, usedOldCookie, authenticator2fa, githubMobile2fa,
                   balance, success, notifyContent, files)
    }

    /** The fields fixed at construction. */
    function Ctx(): Context {
      Context(username, password, totpSecret, accountIndex, cookieFile, tg, oldCookies, screenshotsSaved)
    }

    /** `AutoLogin(account, account_index)`, which loads the account's stored cookies. */
    constructor (account: Account, accountIndex: nat, tg: TgConfig, files: FileSystem, screenshotsSaved: bool)
      ensures Ctx() == InitialContext(account, accountIndex, tg, files, screenshotsSaved)
      ensures State() == InitialState(account, files)
    {
      var path := CookieFile(account.username);
      var loaded: Option<seq<Cookie>>;
      var loadLines: seq<string>;
      if path !in files {
        loaded, loadLines := None, ["未检测到本地 Cookies，将进行登录"];
      } else if files[path] != [] {
        loaded, loadLines := Some(files[path]), ["检测到本地 Cookies，尝试复用"];
      } else {
        loaded, loadLines := None, [];
      }
      username := account.username;
      password := account.password;
      totpSecret := Strip(account.totpSecret);
      this.accountIndex := accountIndex;
      cookieFile := path;
      this.tg := tg;
      oldCookies := loaded;
      this.screenshotsSaved := screenshotsSaved;
      logs := loadLines;
      shots := [];
      n := 0;
      outbox := [];
      usedOldCookie := false;
      authenticator2fa := false;
      githubMobile2fa := false;
      balance := "未知";
      success := true;
      notifyContent := "";
      this.files := files;
    }

    /** `log`. */
    method Log(msg: string)
      modifies this
      ensures State() == LogStep(old(State()), msg)
    {
      logs := logs + [msg];
    }

    /** `shot`: the saved file's path, if one was saved. */
    method Shot(name: string, push: bool, caption: string) returns (saved: Option<string>)
      modifies this
      ensures State() == ShotStep(Ctx(), old(State()), name, push, caption)
      ensures saved.Some? <==> ShotWanted(name, push) && screenshotsSaved
      ensures saved.Some? ==> saved.value == ShotPath(n, username, name)
    {
      if !ShotWanted(name, push) {
        return None;
      }
      n := n + 1;
      var path := ShotPath(n, username, name);
      if !screenshotsSaved {
        return None;
      }
      shots := shots + [path];
      if push {
        outbox := SendPhotoFile(tg, outbox, path, if caption == "" then name else caption);
      }
      return Some(path);
    }

    /** `save_cookies`. */
    method SaveCookies(cookies: seq<Cookie>)
      modifies this
      ensures State() == SaveCookiesStep(Ctx(), old(State()), cookies)
    {
      if cookies == [] {
        return;
      }
      files := StoreCookies(files, cookieFile, cookies);
      Log("已保存最新 Cookies");
    }

    /** `is_logged_in`: the opening line, then the lines of the attempts. */
    method IsLoggedIn(obs: seq<PageObs>) returns (found: bool)
      modifies this
      ensures (found, State()) == CheckStep(old(State()), obs)
    {
      logs := logs + [CheckingLine];
      var lines;
      found, lines := ProbeDashboard(obs);
      logs := logs + lines;
    }

    /** The way the code was submitted. */
    method SubmitCode(submit: SubmitObs)
      modifies this
      ensures State() == SubmitStep(old(State()), submit)
    {
      match submit
      case Clicked(k) => Log("已点击提交按钮: " + SubmitSelectors[k]);
      case PressedEnter => Log("已按回车提交");
      case SubmittedByScript => Log("已通过 JS 提交表单");
      case NotSubmitted =>
    }

    /** The `except` of the code filling: log the message and push a screenshot of the page. */
    method FillFailed(e: string)
      modifies this
      ensures State() == FillFailedStep(Ctx(), old(State()), e)
    {
      Log("2FA 自动填写失败: " + e);
      var _ := Shot("2FA失败页面", true, "❌ 2FA 自动填写失败: " + e);
    }

    /** Filling in the generated code, or failing to. */
    method AutoFillCode(totp: TotpObs, otpInputFound: bool, fillFault: Option<string>, submit: SubmitObs)
      modifies this
      ensures State() == AutoFillStep(Ctx(), old(State()), totp, otpInputFound, fillFault, submit)
    {
      match totp
      case TotpError(e) =>
        FillFailed(e);
      case Code(token) =>
        Log("生成 2FA 验证码: " + token);
        if !otpInputFound {
          FillFailed("未找到 OTP 输入框");
          return;
        }
        if fillFault.Some? {
          FillFailed(fillFault.value);
          return;
        }
        Log("已输入 2FA 验证码");
        SubmitCode(submit);
        Log("✅ 2FA 验证码已自动填写并提交");
    }

    /** The two-factor page after the password, if there is one. */
    method HandleTwoFactor(t: TwoFactorObs)
      modifies this
      ensures State() == TwoFactorStep(Ctx(), old(State()), t)
    {
      match t
      case NoTwoFactor =>
        Log("未检测到 2FA，继续流程");
      case AuthenticatorApp(totp, otpInputFound, fillFault, submit) =>
        Log("⚠️ 检测到两步验证");
        authenticator2fa := true;
        if totpSecret == "" {
          var _ := Shot("两步验证页面", true, NoSecretCaption(accountIndex));
          Log("未配置 2FA 密钥,等待60秒手动输入");
        } else {
          AutoFillCode(totp, otpInputFound, fillFault, submit);
        }
      case GitHubMobile(approved) =>
        Log("⚠️ 检测到两步验证");
        githubMobile2fa := true;
        var _ := Shot("两步验证页面", true, MobileCaption(accountIndex));
        Log("等待60秒让你手动批准 GitHub Mobile 2FA...");
        if approved {
          Log("2FA 批准成功，继续流程");
        } else {
          Log("2FA 等待超时，尝试强制继续");
        }
    }

    /** The GitHub password page. */
    method EnterPassword(p: PasswordObs)
      modifies this
      ensures State() == PasswordStep(Ctx(), old(State()), p)
    {
      if p.formFault.Some? {
        Log("密码登录异常: " + p.formFault.value);
        var _ := Shot("登录异常页面", false, "");
        return;
      }
      Log("✅ 已提交账号密码");
      var _ := Shot("提交密码后", false, "");
      HandleTwoFactor(p.twoFactor);
      if p.authorizePage && p.authorizeButton {
        Log("✅ 密码后自动授权");
      }
    }

    /** `full_github_login`. */
    method FullGitHubLogin(o: LoginObs)
      modifies this
      ensures State() == LoginStep(Ctx(), old(State()), o)
    {
      Log("执行完整 GitHub 登录流程");
      if !o.loginButton {
        Log("未找到登录按钮，说明已登录");
        return;
      }
      var _ := Shot("ClawCloud登录界面", false, "");
      Log("已点击 GitHub 登录按钮");
      if o.authorizePage {
        Log("检测到 GitHub 授权页面");
        var _ := Shot("GitHub授权页", false, "");
        if o.authorizeButton {
          Log("✅ 已自动授权 ClawCloud");
          Log("授权完成，已强制刷新仪表盘");
          return;
        }
      } else {
        Log("未检测到授权页，可能需要密码登录");
      }
      if o.passwordPage {
        Log("进入 GitHub 密码登录页面");
        EnterPassword(o.password);
      }
      if o.returned {
        Log("已跳转回 ClawCloud");
      } else {
        Log("未自动返回，强制跳转首页");
      }
      Log(RefreshLine);
    }

    /** `keepalive`: visit the two pages in order. */
    method Keepalive(faults: seq<Option<string>>)
      modifies this
      ensures State() == KeepaliveStep(old(State()), faults)
    {
      Log("开始保活访问...");
      ghost var start := logs;
      for i := 0 to |KeepalivePages|
        invariant State() == old(State()).(logs := logs)
        invariant logs == start + VisitLines(faults, i)
        invariant start == old(logs) + ["开始保活访问..."]
      {
        match VisitFault(faults, i)
        case None => Log("保活访问: " + KeepalivePages[i]);
        case Some(e) => Log("访问失败: " + e);
      }
    }

    /** Reading the balance off the dashboard. */
    method ReadBalance(b: BalanceObs)
      modifies this
      ensures State() == BalanceStep(old(State()), b)
    {
      match b
      case NoBalanceElement =>
        balance := "提取失败";
        Log("未能提取到余额");
      case BalanceText(text) =>
        var raw := Strip(text);
        var m := ExtractBalance(raw);
        if m.Some? {
          balance := m.value;
          Log("成功提取余额: " + balance);
        } else {
          balance := raw;
        }
    }

    /** `generate_notify_content` at clock reading `now`. */
    method GenerateNotifyContent(now: string)
      modifies this
      ensures State() == GenerateStep(Ctx(), old(State()), now)
    {
      notifyContent := ComposeReport(Ctx(), State(), now);
    }

    /**
      `cleanup_screenshots`: delete each saved screenshot that is still on
      disk (`removed[i]` for the i-th) and log how many went.
    */
    method CleanupScreenshots(removed: seq<bool>)
      modifies this
      ensures State() == CleanupStep(old(State()), removed)
    {
      var deleted := 0;
      for i := 0 to |shots|
        invariant deleted == RemovedCount(removed, i)
      {
        if i < |removed| && removed[i] {
          deleted := deleted + 1;
        }
      }
      if deleted > 0 {
        Log(CleanupLine(deleted));
      }
    }

    /** The `except` branch of `run`. */
    method RunFault(e: string, now: string)
      modifies this
      ensures State() == FaultStep(Ctx(), old(State()), e, now)
    {
      Log("运行异常: " + e);
      success := false;
      GenerateNotifyContent(now);
    }

    /** The part of `run` after the dashboard is reached. */
    method OnDashboard(obs: RunObs)
      modifies this
      ensures State() == DashboardStep(Ctx(), old(State()), obs)
    {
      ReadBalance(obs.balance);
      match obs.cookies
      case CookiesFault(e) =>
        RunFault(e, obs.now);
      case BrowserCookies(current) =>
        if current != [] {
          var filtered := FilterTrusted(current);
          if filtered != [] {
            SaveCookies(filtered);
          }
        }
        Keepalive(obs.visitFaults);
        GenerateNotifyContent(obs.now);
    }

    /** The start of the `try` block: launch, inject the stored cookies, open the home page. */
    method Launch()
      modifies this
      ensures State() == LaunchStep(Ctx(), old(State()))
    {
      Log("浏览器启动成功");
      if oldCookies.Some? {
        Log("已注入本地 Cookies");
      }
      var _ := Shot("打开主页后", false, "");
    }

    /** Log in after the first check failed, and check again. */
    method LoginAndRecheck(obs: RunObs)
      modifies this
      ensures State() == RetryLoginStep(Ctx(), old(State()), obs)
    {
      Log("检测到未登录，执行登录流程");
      FullGitHubLogin(obs.login);
      var second := IsLoggedIn(obs.secondCheck);
      if second {
        Log("✅ 登录/授权最终成功！");
        OnDashboard(obs);
        return;
      }
      Log("❌ 登录最终失败");
      success := false;
      var _ := Shot("最终失败页面", true, "❌ 保活失败，请手动检查");
      GenerateNotifyContent(obs.now);
    }

    /** The `try` block of `run` and its `except` branch. */
    method RunBrowser(obs: RunObs)
      modifies this
      ensures State() == BrowserStep(Ctx(), old(State()), obs)
    {
      if obs.launchFault.Some? {
        RunFault(obs.launchFault.value, obs.now);
        return;
      }
      Launch();
      var first := IsLoggedIn(obs.firstCheck);
      if first {
        Log("🎉 已登录，直接保活");
        usedOldCookie := true;
        OnDashboard(obs);
        return;
      }
      LoginAndRecheck(obs);
    }

    /** `run`: the report for this account. */
    method Run(obs: RunObs) returns (content: string)
      modifies this
      ensures State() == RunStep(Ctx(), old(State()), obs)
      ensures content == notifyContent
    {
      Log("开始运行保活流程");
      if !obs.chromeFound {
        Log("未找到 Chromium");
        success := false;
        GenerateNotifyContent(obs.now);
        return notifyContent;
      }
      RunBrowser(obs);
      CleanupScreenshots(obs.removed);
      return notifyContent;
    }
  }
}

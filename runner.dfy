/**
  The script's entry point (ql-docker-plus.py:795-843): read the accounts,
  run one `AutoLogin` per account in order, handing the cookie files from one
  to the next, and send one Telegram summary of all the reports.
*/
module Runner {
  import opened Wrappers
  import opened Text
  import opened Accounts
  import opened Cookies
  import opened Telegram
  import opened Report
  import opened Flow
  import opened Session
  import Outcome

  /** The environment variables the script reads (`None` for one that is unset). */
  datatype Environment = Environment(
    clawAccounts: string,
    tgBotToken: string,
    tgChatId: string,
    clawCloudUrl: Option<string>)

  const DefaultUrl: string := "https://eu-central-1.run.claw.cloud"

  /** `CLAW_CLOUD_URL`, stripped, with its default. */
  function CloudUrl(env: Environment): string {
    Strip(env.clawCloudUrl.GetOr(DefaultUrl))
  }

  /** The line between the parts of the summary. */
  const Separator: string := "\n\n==========================\n\n"

  /** The heading of account `idx`'s part of the summary. */
  function AccountHeading(idx: nat): string {
    "【账号" + NatToDecimal(idx) + "保活信息】\n"
  }

  /** Account `idx`'s part of the summary. */
  function AccountBlock(idx: nat, content: string): string {
    AccountHeading(idx) + content
  }

  /** `b` is account `idx`'s part: its heading followed by a non-empty report. */
  predicate IsBlockOf(idx: nat, b: string) {
    |AccountHeading(idx)| < |b| && b[..|AccountHeading(idx)|] == AccountHeading(idx)
  }

  /** The screenshot line of the summary. */
  function ScreenshotLine(shotTaken: bool): string {
    if shotTaken then "🗑️ 本次运行截图已清理\n" else "🗑️ 本次运行脚本没有触发截图\n"
  }

  /** `final_msg`. */
  function FinalMessage(accountCount: nat, blocks: seq<string>, shotTaken: bool, url: string): string {
    "💻 ClawCloud自动保活 - Selenium版本\n\n" + "🔥一共有" + NatToDecimal(accountCount) + "个账号🔥\n\n"
    + Join(blocks, Separator) + Separator + ScreenshotLine(shotTaken) + Separator
    + "网页登录地址：" + url + "\n" + Separator
  }

  /** The run of account `idx` (counted from 1) on the cookie files `files`. */
  function AccountRun(account: Account, idx: nat, tg: TgConfig, files: FileSystem, saved: bool, observe: nat -> RunObs): SessionState {
    RunStep(InitialContext(account, idx, tg, files, saved), InitialState(account, files), observe(idx))
  }

  /** How the run of an account turns out, given the account, its number and the cookie files it starts from. */
  type AccountRunner = (Account, nat, FileSystem) -> SessionState

  /** The runs the browser, the clock and the Telegram settings determine. */
  function RunnerOf(tg: TgConfig, saved: bool, observe: nat -> RunObs): AccountRunner {
    (account: Account, idx: nat, files: FileSystem) => AccountRun(account, idx, tg, files, saved, observe)
  }

  /** `run` is the runner the browser, the clock and the Telegram settings determine. */
  ghost predicate Implements(run: AccountRunner, tg: TgConfig, saved: bool, observe: nat -> RunObs) {
    forall account: Account, idx: nat, files: FileSystem {:trigger AccountRun(account, idx, tg, files, saved, observe)} ::
      run(account, idx, files) == AccountRun(account, idx, tg, files, saved, observe)
  }

  lemma RunnerOfImplements(tg: TgConfig, saved: bool, observe: nat -> RunObs)
    ensures Implements(RunnerOf(tg, saved, observe), tg, saved, observe)
  {
  }

  /** What the loop has gathered: the reports, the requests posted, the cookie files, whether any screenshot was saved. */
  datatype Gathered = Gathered(blocks: seq<string>, outbox: seq<TgMessage>, files: FileSystem, shotTaken: bool)

  /** The loop of the entry point over the first `k` accounts. */
  function RunAccounts(accounts: seq<Account>, run: AccountRunner, files: FileSystem, k: nat): Gathered
    requires k <= |accounts|
  {
    if k == 0 then Gathered([], [], files, false)
    else
      var prev := RunAccounts(accounts, run, files, k - 1);
      var r := run(accounts[k - 1], k, prev.files);
      Gathered(prev.blocks + (if r.notifyContent != "" then [AccountBlock(k, r.notifyContent)] else []),
               prev.outbox + r.outbox, r.files, prev.shotTaken || r.shots != [])
  }

  /** `AutoLogin(acc, idx).run()`: the report, the saved screenshots, the posted requests and the cookie files after it. */
  method RunAccount(account: Account, idx: nat, tg: TgConfig, files: FileSystem, saved: bool, observe: nat -> RunObs,
                    ghost run: AccountRunner)
    returns (content: string, shots: seq<string>, posted: seq<TgMessage>, written: FileSystem, ghost r: SessionState)
    requires Implements(run, tg, saved, observe)
    ensures r == run(account, idx, files)
    ensures content == r.notifyContent && shots == r.shots && posted == r.outbox && written == r.files
  {
    var instance := new AutoLogin(account, idx, tg, files, saved);
    content := instance.Run(observe(idx));
    shots, posted, written := instance.shots, instance.outbox, instance.files;
    r := instance.State();
    assert r == AccountRun(account, idx, tg, files, saved, observe);
  }

  /** The loop over one more account, given how that account's run turned out. */
  lemma GatherNext(accounts: seq<Account>, run: AccountRunner, files: FileSystem, i: nat, r: SessionState)
    requires i < |accounts|
    requires r == run(accounts[i], i + 1, RunAccounts(accounts, run, files, i).files)
    ensures var prev := RunAccounts(accounts, run, files, i);
      RunAccounts(accounts, run, files, i + 1)
      == Gathered(prev.blocks + (if r.notifyContent != "" then [AccountBlock(i + 1, r.notifyContent)] else []),
                  prev.outbox + r.outbox, r.files, prev.shotTaken || r.shots != [])
  {
  }

  /** The loop of the entry point: every account in order, each starting from the cookie files the previous one left. */
  method RunEach(accounts: seq<Account>, tg: TgConfig, files: FileSystem, saved: bool, observe: nat -> RunObs,
                 ghost run: AccountRunner)
    returns (blocks: seq<string>, outbox: seq<TgMessage>, filesAfter: FileSystem, shotTaken: bool)
    requires Implements(run, tg, saved, observe)
    ensures RunAccounts(accounts, run, files, |accounts|) == Gathered(blocks, outbox, filesAfter, shotTaken)
  {
    blocks, outbox, filesAfter, shotTaken := [], [], files, false;
    for i := 0 to |accounts|
      invariant RunAccounts(accounts, run, files, i) == Gathered(blocks, outbox, filesAfter, shotTaken)
    {
      var idx := i + 1;
      var content, shots, posted, written, r := RunAccount(accounts[i], idx, tg, filesAfter, saved, observe, run);
      GatherNext(accounts, run, files, i, r);
      if content != "" {
        blocks := blocks + [AccountBlock(idx, content)];
      }
      if shots != [] {
        shotTaken := true;
      }
      outbox := outbox + posted;
      filesAfter := written;
    }
  }

  /**
    The entry point: exit code 1 and nothing else when no account is
    configured; otherwise run every account and send the summary.
  */
  method RunAll(env: Environment, fallback: seq<Account>, files: FileSystem, saved: bool, observe: nat -> RunObs)
    returns (exitCode: nat, outbox: seq<TgMessage>, filesAfter: FileSystem)
    ensures var accounts := ParsedAccounts(env.clawAccounts);
      var accounts := if accounts != [] then accounts else fallback;
      var tg := FromEnv(env.tgBotToken, env.tgChatId);
      && (accounts == [] ==> exitCode == 1 && outbox == [] && filesAfter == files)
      && (accounts != [] ==>
            var g := RunAccounts(accounts, RunnerOf(tg, saved, observe), files, |accounts|);
            && exitCode == 0
            && filesAfter == g.files
            && outbox == (if g.blocks != [] then SendText(tg, g.outbox, FinalMessage(|accounts|, g.blocks, g.shotTaken, CloudUrl(env)))
                          else g.outbox))
  {
    var accounts := LoadAccountsFromEnv(env.clawAccounts, fallback);
    var tg := FromEnv(env.tgBotToken, env.tgChatId);
    if accounts == [] {
      return 1, [], files;
    }
    var blocks, shotTaken;
    RunnerOfImplements(tg, saved, observe);
    blocks, outbox, filesAfter, shotTaken := RunEach(accounts, tg, files, saved, observe, RunnerOf(tg, saved, observe));
    if blocks != [] {
      outbox := SendText(tg, outbox, FinalMessage(|accounts|, blocks, shotTaken, CloudUrl(env)));
    }
    return 0, outbox, filesAfter;
  }

  // ---------------------------------------------------------------------------
  // What the entry point promises

  /** Every report starts with its header, so it is never empty. */
  lemma {:induction false} ReportNonEmpty(ctx: Context, r: SessionState, now: string)
    requires Outcome.DescribesState(ctx, r, now)
    ensures r.notifyContent != ""
  {
    var h := Header(LoginMethod(r.usedOldCookie, r.authenticator2fa, r.githubMobile2fa), MaskUser(ctx.username));
    assert r.notifyContent[0] == h[0];
  }

  /**
    A run as each account's run is: its report is not empty, its requests are
    valid, and it writes no cookie file but its own account's.
  */
  ghost predicate Behaves(run: AccountRunner, tg: TgConfig, account: Account, idx: nat, files: FileSystem) {
    var r := run(account, idx, files);
    && r.notifyContent != ""
    && OutboxValid(tg, r.outbox)
    && forall p :: p != CookieFile(account.username) ==> LoadCookies(r.files, p) == LoadCookies(files, p)
  }

  /** Every account's run behaves. */
  lemma {:induction false} AccountRunBehaves(tg: TgConfig, saved: bool, observe: nat -> RunObs, account: Account, idx: nat, files: FileSystem)
    ensures Behaves(RunnerOf(tg, saved, observe), tg, account, idx, files)
  {
    var ctx := InitialContext(account, idx, tg, files, saved);
    var r := AccountRun(account, idx, tg, files, saved, observe);
    Outcome.RunOutcome(ctx, InitialState(account, files), observe(idx));
    Outcome.FreshRun(account, idx, tg, files, saved, observe(idx));
    Outcome.FreshRunCookieFile(account, idx, tg, files, saved, observe(idx));
    ReportNonEmpty(ctx, r, observe(idx).now);
  }

  /** Every account's run behaves, whichever account, number and cookie files it starts from. */
  ghost predicate AllBehave(run: AccountRunner, tg: TgConfig) {
    forall account: Account, idx: nat, files: FileSystem :: Behaves(run, tg, account, idx, files)
  }

  /** The runs the browser, the clock and the Telegram settings determine all behave. */
  lemma RunnerOfBehaves(tg: TgConfig, saved: bool, observe: nat -> RunObs)
    ensures AllBehave(RunnerOf(tg, saved, observe), tg)
  {
    forall account: Account, idx: nat, files: FileSystem {
      AccountRunBehaves(tg, saved, observe, account, idx, files);
    }
  }

  /**
    The loop gathers one part per account, in account order; every request it
    posted went to the configured chat with a caption within the limit; and it
    wrote no file other than the accounts' cookie files.
  */
  lemma {:induction false} RunAccountsSpec(accounts: seq<Account>, run: AccountRunner, tg: TgConfig, files: FileSystem, k: nat)
    requires k <= |accounts|
    requires AllBehave(run, tg)
    ensures var g := RunAccounts(accounts, run, files, k);
      && |g.blocks| == k
      && (forall i :: 0 <= i < k ==> IsBlockOf(i + 1, g.blocks[i]))
      && OutboxValid(tg, g.outbox)
      && (forall p :: (forall i :: 0 <= i < k ==> p != CookieFile(accounts[i].username)) ==>
            LoadCookies(g.files, p) == LoadCookies(files, p))
  {
    if k > 0 {
      RunAccountsSpec(accounts, run, tg, files, k - 1);
      var prev := RunAccounts(accounts, run, files, k - 1);
      assert Behaves(run, tg, accounts[k - 1], k, prev.files);
      GatherStep(accounts, run, tg, files, k);
    }
  }

  /** One more account extends what the loop gathered, when that account's run behaves. */
  lemma {:induction false} GatherStep(accounts: seq<Account>, run: AccountRunner, tg: TgConfig, files: FileSystem, k: nat)
    requires 0 < k <= |accounts|
    requires var prev := RunAccounts(accounts, run, files, k - 1);
      && |prev.blocks| == k - 1
      && (forall i :: 0 <= i < k - 1 ==> IsBlockOf(i + 1, prev.blocks[i]))
      && OutboxValid(tg, prev.outbox)
      && (forall p :: (forall i :: 0 <= i < k - 1 ==> p != CookieFile(accounts[i].username)) ==>
            LoadCookies(prev.files, p) == LoadCookies(files, p))
      && Behaves(run, tg, accounts[k - 1], k, prev.files)
    ensures var g := RunAccounts(accounts, run, files, k);
      && |g.blocks| == k
      && (forall i :: 0 <= i < k ==> IsBlockOf(i + 1, g.blocks[i]))
      && OutboxValid(tg, g.outbox)
      && (forall p :: (forall i :: 0 <= i < k ==> p != CookieFile(accounts[i].username)) ==>
            LoadCookies(g.files, p) == LoadCookies(files, p))
  {
    var prev := RunAccounts(accounts, run, files, k - 1);
    var r := run(accounts[k - 1], k, prev.files);
    var g := RunAccounts(accounts, run, files, k);
    assert g.blocks == prev.blocks + [AccountBlock(k, r.notifyContent)];
    assert IsBlockOf(k, g.blocks[k - 1]) by {
      assert g.blocks[k - 1] == AccountHeading(k) + r.notifyContent;
    }
    assert g.outbox == prev.outbox + r.outbox;
    OutboxValidAppend(tg, prev.outbox, r.outbox);
  }

  /** The summary holds one part per configured account, and the request sending it keeps the outbox valid. */
  lemma {:induction false} SummaryCoversAccounts(env: Environment, accounts: seq<Account>, files: FileSystem, saved: bool, observe: nat -> RunObs)
    requires accounts != []
    ensures var tg := FromEnv(env.tgBotToken, env.tgChatId);
      var g := RunAccounts(accounts, RunnerOf(tg, saved, observe), files, |accounts|);
      && g.blocks != []
      && |g.blocks| == |accounts|
      && OutboxValid(tg, SendText(tg, g.outbox, FinalMessage(|accounts|, g.blocks, g.shotTaken, CloudUrl(env))))
  {
    var tg := FromEnv(env.tgBotToken, env.tgChatId);
    RunnerOfBehaves(tg, saved, observe);
    RunAccountsSpec(accounts, RunnerOf(tg, saved, observe), tg, files, |accounts|);
    var g := RunAccounts(accounts, RunnerOf(tg, saved, observe), files, |accounts|);
    SendTextValid(tg, g.outbox, FinalMessage(|accounts|, g.blocks, g.shotTaken, CloudUrl(env)));
  }
}

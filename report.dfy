/**
  The per-account report (`AutoLogin.generate_notify_content`,
  ql-docker-plus.py:591-631) and the balance extraction it reports
  (ql-docker-plus.py:744-757): the login-method label, the masked username, the
  `$`-prefixed balance, the notable log lines and the report text.
*/
module Report {
  import opened Wrappers
  import opened Text
  import Detection

  // ---------------------------------------------------------------------------
  // Login method

  const CookieLogin: string := "使用Cookies授权登录"
  const AuthenticatorLogin: string := "Authenticator app自动登录"
  const MobileLogin: string := "GitHub Mobile手动批准登录"

  /** The label of how the account got in, by strict priority of the three flags. */
  function LoginMethod(usedOldCookie: bool, authenticator2fa: bool, githubMobile2fa: bool): (r: string)
    ensures r == AuthenticatorLogin <==> !usedOldCookie && authenticator2fa
    ensures r == MobileLogin <==> !usedOldCookie && !authenticator2fa && githubMobile2fa
    ensures r == CookieLogin <==> usedOldCookie || (!authenticator2fa && !githubMobile2fa)
  {
    if usedOldCookie then CookieLogin
    else if authenticator2fa then AuthenticatorLogin
    else if githubMobile2fa then MobileLogin
    else CookieLogin
  }

  // ---------------------------------------------------------------------------
  // Username mask

  /** `display_user`: the first three characters, or the first three of the part before `@` when `@` is among them, then `**`. */
  function MaskUser(username: string): string {
    if NoChar(Take(username, 3), '@') then Take(username, 3) + "**"
    else Take(Split(username, "@")[0], 3) + "**"
  }

  /** The first piece of `split("@")` is everything before the first `@`. */
  lemma {:induction false} FirstPieceBeforeAt(s: string, k: nat)
    requires k <= |s| && NoChar(s[..k], '@') && (k == |s| || s[k] == '@')
    ensures Split(s, "@")[0] == s[..k]
  {
    var f := FindFrom(s, "@", 0);
    assert forall j :: 0 <= j < k ==> s[j] != '@' by {
      forall j | 0 <= j < k ensures s[j] != '@' {
        assert s[..k][j] == s[j];
      }
    }
    if k < |s| {
      assert s[k..k + 1] == "@";
      assert OccursAt(s, "@", k);
    }
    if f.Some? {
      var i := f.value;
      assert s[i..i + 1] == "@";
      assert s[i] == '@';
    }
  }

  /**
    The mask shows at most the first three characters of the local part (the
    text before the first `@`) and then `**`, so it never shows an `@` and is
    at most five characters long.
  */
  lemma {:induction false} MaskUserShowsLocalPrefix(username: string, k: nat)
    requires k <= |username| && NoChar(username[..k], '@') && (k == |username| || username[k] == '@')
    ensures MaskUser(username) == username[..Min(3, k)] + "**"
    ensures |MaskUser(username)| <= 5 && NoChar(MaskUser(username), '@')
  {
    FirstPieceBeforeAt(username, k);
    var head := Take(username, 3);
    assert forall j :: 0 <= j < k ==> username[j] != '@' by {
      forall j | 0 <= j < k ensures username[j] != '@' {
        assert username[..k][j] == username[j];
      }
    }
    if k < Min(3, |username|) {
      assert head[k] == '@';
    }
    if NoChar(head, '@') {
      assert head == username[..Min(3, k)];
    } else {
      var i :| 0 <= i < |head| && head[i] == '@';
      assert username[i] == '@';
      assert Take(username[..k], 3) == username[..Min(3, k)];
    }
  }

  // ---------------------------------------------------------------------------
  // Balance

  /** `balance_display`: the balance with a `$` in front unless it already starts with one. */
  function BalanceDisplay(balance: string): (r: string)
    ensures |r| >= 1 && r[0] == '$'
    ensures |r| >= |balance| && r[|r| - |balance|..] == balance
    ensures balance != [] && balance[0] == '$' ==> r == balance
    ensures (balance == [] || balance[0] != '$') ==> |r| == |balance| + 1
  {
    if |balance| > 0 && balance[0] == '$' then balance else "$" + balance
  }

  /** Displaying twice adds nothing more. */
  lemma {:induction false} BalanceDisplayIdempotent(balance: string)
    ensures BalanceDisplay(BalanceDisplay(balance)) == BalanceDisplay(balance)
  {
  }

  /** `[\d.,]`. */
  predicate BalanceChar(c: char) {
    IsDigit(c) || c == '.' || c == ','
  }

  /** The end of the run of balance characters starting at `k` (greedy `+`). */
  function RunEnd(s: string, k: nat): (r: nat)
    requires k <= |s|
    ensures k <= r <= |s|
    ensures forall j :: k <= j < r ==> BalanceChar(s[j])
    ensures r < |s| ==> !BalanceChar(s[r])
    decreases |s| - k
  {
    if k < |s| && BalanceChar(s[k]) then RunEnd(s, k + 1) else k
  }

  /** A match of `\$[\d.,]+` can start at `i`. */
  predicate BalanceStart(s: string, i: int) {
    0 <= i && i + 1 < |s| && s[i] == '$' && BalanceChar(s[i + 1])
  }

  /** The leftmost index at or after `from` where a match starts. */
  function FindBalanceStart(s: string, from: nat): (r: Option<nat>)
    ensures r.Some? ==> from <= r.value && BalanceStart(s, r.value)
    ensures r.Some? ==> forall j :: from <= j < r.value ==> !BalanceStart(s, j)
    ensures r.None? ==> forall j :: from <= j ==> !BalanceStart(s, j)
    decreases |s| - from
  {
    if from + 1 >= |s| then None
    else if BalanceStart(s, from) then Some(from)
    else FindBalanceStart(s, from + 1)
  }

  /** `re.search(r'\$[\d.,]+', text)`: the matched text, if any. */
  function ExtractBalance(text: string): Option<string> {
    match FindBalanceStart(text, 0)
    case None => None
    case Some(i) => Some(text[i..RunEnd(text, i + 1)])
  }

  /**
    The extracted balance is a `$` followed by one or more digits, dots and
    commas; it is taken from the leftmost place where one starts and runs as
    far as such characters go. There is none exactly when no `$` is directly
    followed by one of them.
  */
  lemma {:induction false} ExtractBalanceSpec(text: string)
    ensures ExtractBalance(text).None? <==> forall i :: !BalanceStart(text, i)
    ensures ExtractBalance(text).Some? ==>
      exists i :: LeftmostBalanceMatch(text, i, ExtractBalance(text).value)
  {
    match FindBalanceStart(text, 0)
    case None =>
    case Some(i) =>
      var m := text[i..RunEnd(text, i + 1)];
      assert OccursAt(text, m, i);
      assert LeftmostBalanceMatch(text, i, m);
  }

  /**
    `m` is the match of `\$[\d.,]+` that starts at `i`: a `$` and one or more
    digits, dots and commas, taken as far as they go, with no match starting
    earlier.
  */
  predicate LeftmostBalanceMatch(text: string, i: int, m: string) {
    && BalanceStart(text, i)
    && OccursAt(text, m, i)
    && |m| >= 2 && m[0] == '$'
    && (forall j :: 1 <= j < |m| ==> BalanceChar(m[j]))
    && (i + |m| == |text| || !BalanceChar(text[i + |m|]))
    && (forall j :: 0 <= j < i ==> !BalanceStart(text, j))
  }

  /** An extracted balance is displayed exactly as extracted. */
  lemma {:induction false} ExtractedBalanceDisplaysAsIs(text: string)
    requires ExtractBalance(text).Some?
    ensures BalanceDisplay(ExtractBalance(text).value) == ExtractBalance(text).value
  {
    ExtractBalanceSpec(text);
  }

  // ---------------------------------------------------------------------------
  // Notable log lines

  /** The number of priority keywords. */
  const KeywordCount: nat := 3

  const RefreshKeyword: string := "已强制刷新，确保仪表盘完全加载"
  const SavedKeyword: string := "已保存最新 Cookies"
  const DetectionHead: string := "第 "
  const DetectionTail: string := " 次检测成功: 找到元素"

  /** `第 \d+ 次检测成功: 找到元素` matches at `i`. */
  predicate DetectionMatchAt(s: string, i: int) {
    && OccursAt(s, DetectionHead, i)
    && exists j | i + |DetectionHead| < j <= |s| ::
         AllDigits(s[i + |DetectionHead|..j]) && OccursAt(s, DetectionTail, j)
  }

  /** `re.compile(keyword).search(line)` for the keyword at position `k` of the priority list. */
  predicate Notable(k: nat, line: string) {
    if k == 0 then Contains(line, RefreshKeyword)
    else if k == 1 then exists i | 0 <= i <= |line| :: DetectionMatchAt(line, i)
    else if k == 2 then Contains(line, SavedKeyword)
    else false
  }

  /** The success line of the dashboard check is reported as notable. */
  lemma {:induction false} DetectionSuccessIsNotable(attempt: nat, selector: string)
    ensures Notable(1, Detection.SuccessLine(attempt, selector))
  {
    var d := NatToDecimal(attempt + 1);
    var line := Detection.SuccessLine(attempt, selector);
    assert " 次检测成功: 找到元素 " + selector == DetectionTail + (" " + selector);
    assert line == DetectionHead + d + DetectionTail + (" " + selector);
    var j := |DetectionHead| + |d|;
    assert line[|DetectionHead|..j] == d;
    assert line[j..j + |DetectionTail|] == DetectionTail;
    assert OccursAt(line, DetectionHead, 0);
    assert AllDigits(line[|DetectionHead|..j]) && OccursAt(line, DetectionTail, j);
    assert DetectionMatchAt(line, 0);
  }

  /** The index of the first line at or after `from` that is notable for keyword `k`. */
  function FirstNotable(k: nat, logs: seq<string>, from: nat): (r: Option<nat>)
    ensures r.Some? ==> from <= r.value < |logs| && Notable(k, logs[r.value])
    ensures r.Some? ==> forall j :: from <= j < r.value ==> !Notable(k, logs[j])
    ensures r.None? ==> forall j :: from <= j < |logs| ==> !Notable(k, logs[j])
    decreases |logs| - from
  {
    if from >= |logs| then None
    else if Notable(k, logs[from]) then Some(from)
    else FirstNotable(k, logs, from + 1)
  }

  /** The notable lines for the first `k` keywords: the first match of each, in keyword order. */
  function ImportantUpTo(logs: seq<string>, k: nat): seq<string>
  {
    if k == 0 then []
    else
      var found := FirstNotable(k - 1, logs, 0);
      ImportantUpTo(logs, k - 1) + (if found.Some? then [logs[found.value]] else [])
  }

  /** `important_lines`. */
  function ImportantLines(logs: seq<string>): seq<string> {
    ImportantUpTo(logs, KeywordCount)
  }

  /** The scan of `generate_notify_content`: for each keyword in turn, the first log line it matches. */
  method CollectImportantLines(logs: seq<string>) returns (important: seq<string>)
    ensures important == ImportantLines(logs)
  {
    important := [];
    for k := 0 to KeywordCount
      invariant important == ImportantUpTo(logs, k)
    {
      var i := 0;
      while i < |logs|
        invariant 0 <= i <= |logs|
        invariant FirstNotable(k, logs, 0) == FirstNotable(k, logs, i)
      {
        if Notable(k, logs[i]) {
          important := important + [logs[i]];
          break;
        }
        i := i + 1;
      }
    }
  }

  /**
    At most one line per keyword: each notable line is a non-empty line of the
    log that some keyword matches, and there is none when no line is notable.
  */
  lemma {:induction false} ImportantUpToSpec(logs: seq<string>, k: nat)
    ensures |ImportantUpTo(logs, k)| <= k
    ensures forall line :: line in ImportantUpTo(logs, k) ==>
      line in logs && line != "" && exists q :: 0 <= q < k && Notable(q, line)
    ensures ImportantUpTo(logs, k) == [] <==>
      forall q, i :: 0 <= q < k && 0 <= i < |logs| ==> !Notable(q, logs[i])
  {
    if k > 0 {
      ImportantUpToSpec(logs, k - 1);
      var f := FirstNotable(k - 1, logs, 0);
      if f.Some? {
        NotableNonEmpty(k - 1, logs[f.value]);
      }
    }
  }

  /** A line matching a keyword is not empty. */
  lemma {:induction false} NotableNonEmpty(k: nat, line: string)
    requires Notable(k, line)
    ensures line != ""
  {
    if k == 1 {
      var i :| 0 <= i <= |line| && DetectionMatchAt(line, i);
    }
  }

  /** A line no keyword matches does not change where a keyword first matches. */
  lemma {:induction false} FirstNotableQuiet(k: nat, logs: seq<string>, line: string, from: nat)
    requires !Notable(k, line) && from <= |logs|
    ensures FirstNotable(k, logs + [line], from) == FirstNotable(k, logs, from)
    decreases |logs| - from
  {
    var more := logs + [line];
    assert more[from] == if from < |logs| then logs[from] else line;
    if from < |logs| && !Notable(k, logs[from]) {
      FirstNotableQuiet(k, logs, line, from + 1);
    }
  }

  /** Logging a line no keyword matches leaves the notable lines as they were. */
  lemma {:induction false} ImportantUpToQuiet(logs: seq<string>, line: string, k: nat)
    requires forall q: nat :: q < k ==> !Notable(q, line)
    ensures ImportantUpTo(logs + [line], k) == ImportantUpTo(logs, k)
  {
    if k > 0 {
      ImportantUpToQuiet(logs, line, k - 1);
      FirstNotableQuiet(k - 1, logs, line, 0);
      var f := FirstNotable(k - 1, logs, 0);
      if f.Some? {
        assert (logs + [line])[f.value] == logs[f.value];
      }
    }
  }

  // ---------------------------------------------------------------------------
  // Report text

  function ResultText(success: bool): string {
    if success then "✅ 成功" else "❌ 失败"
  }

  /** One notable line as it appears in the report. */
  function NotableEntry(accountIndex: nat, line: string): string {
    "✅ [第" + NatToDecimal(accountIndex) + "个账号] " + line
  }

  /** The entries for `important_lines[:3]`, skipping empty lines, each ending in a newline. */
  function ImportantBlock(accountIndex: nat, lines: seq<string>): string {
    EntriesOf(accountIndex, Take3(lines))
  }

  function Take3(lines: seq<string>): seq<string> {
    lines[..Min(3, |lines|)]
  }

  function EntriesOf(accountIndex: nat, lines: seq<string>): string
  {
    if lines == [] then ""
    else
      var last := lines[|lines| - 1];
      EntriesOf(accountIndex, lines[..|lines| - 1]) + (if last != "" then NotableEntry(accountIndex, last) + "\n" else "")
  }

  /** `content` as built line by line. */
  function NotifyText(loginWay: string, displayUser: string, important: seq<string>, balanceDisplay: string,
                      success: bool, accountIndex: nat, now: string): string
  {
    Header(loginWay, displayUser) + ImportantBlock(accountIndex, important) + Footer(balanceDisplay, success, now)
  }

  /** The body of `generate_notify_content`: the header, one entry per reported notable line, the footer. */
  method WriteReport(loginWay: string, displayUser: string, important: seq<string>, balanceDisplay: string,
                     success: bool, accountIndex: nat, now: string) returns (content: string)
    ensures content == NotifyText(loginWay, displayUser, important, balanceDisplay, success, accountIndex, now)
  {
    content := "登录逻辑： " + loginWay + "\n";
    content := content + "用户： " + displayUser + "\n";
    content := content + "重要信息：\n";
    assert content == Header(loginWay, displayUser);
    var block := "";
    var reported := Take3(important);
    for i := 0 to |reported|
      invariant block == EntriesOf(accountIndex, reported[..i])
    {
      assert reported[..i + 1][..i] == reported[..i];
      if reported[i] != "" {
        block := block + NotableEntry(accountIndex, reported[i]) + "\n";
      }
    }
    assert reported[..|reported|] == reported;
    var tail := "💵当前剩余：" + balanceDisplay + "\n";
    tail := tail + "保活结果： " + ResultText(success) + "\n";
    tail := tail + "时间： " + now;
    assert tail == Footer(balanceDisplay, success, now);
    content := content + block + tail;
  }

  /** The login method, the user and the heading of the notable lines. */
  function Header(loginWay: string, displayUser: string): string {
    "登录逻辑： " + loginWay + "\n" + "用户： " + displayUser + "\n" + "重要信息：\n"
  }

  /** The balance, the outcome and the time. */
  function Footer(balanceDisplay: string, success: bool, now: string): string {
    "💵当前剩余：" + balanceDisplay + "\n" + "保活结果： " + ResultText(success) + "\n" + "时间： " + now
  }

  /** The lines of the report, one per field and one per reported notable line. */
  function ReportLines(loginWay: string, displayUser: string, important: seq<string>, balanceDisplay: string,
                       success: bool, accountIndex: nat, now: string): seq<string>
  {
    ["登录逻辑： " + loginWay, "用户： " + displayUser, "重要信息："] +
    EntryLines(accountIndex, important) +
    ["💵当前剩余：" + balanceDisplay, "保活结果： " + ResultText(success), "时间： " + now]
  }

  function EntryLines(accountIndex: nat, lines: seq<string>): seq<string>
  {
    if lines == [] then []
    else
      var last := lines[|lines| - 1];
      EntryLines(accountIndex, lines[..|lines| - 1]) + (if last != "" then [NotableEntry(accountIndex, last)] else [])
  }

  /** The notable lines never exceed three, and none is empty, so the slice and the emptiness test keep them all. */
  lemma {:induction false} ImportantLinesAllReported(logs: seq<string>)
    ensures Take3(ImportantLines(logs)) == ImportantLines(logs)
    ensures forall line :: line in ImportantLines(logs) ==> line != ""
  {
    ImportantUpToSpec(logs, KeywordCount);
  }

  /** Joining the entry lines, each followed by a newline, gives the entry block. */
  lemma {:induction false} EntriesAsLines(accountIndex: nat, lines: seq<string>, rest: string)
    ensures EntriesOf(accountIndex, lines) + rest == JoinAfter(EntryLines(accountIndex, lines), rest)
    decreases |lines|
  {
    if lines != [] {
      var init := lines[..|lines| - 1];
      var last := lines[|lines| - 1];
      if last != "" {
        EntriesAsLines(accountIndex, init, NotableEntry(accountIndex, last) + "\n" + rest);
        JoinAfterSnoc(EntryLines(accountIndex, init), NotableEntry(accountIndex, last), rest);
      } else {
        EntriesAsLines(accountIndex, init, rest);
        assert EntryLines(accountIndex, lines) == EntryLines(accountIndex, init) + [];
        assert EntryLines(accountIndex, lines) == EntryLines(accountIndex, init);
        assert EntriesOf(accountIndex, lines) == EntriesOf(accountIndex, init) + "";
        assert EntriesOf(accountIndex, lines) == EntriesOf(accountIndex, init);
      }
    }
  }

  /** `ls[0] + "\n" + … + ls[n-1] + "\n" + rest`. */
  function JoinAfter(ls: seq<string>, rest: string): string
  {
    if ls == [] then rest else ls[0] + "\n" + JoinAfter(ls[1..], rest)
  }

  lemma {:induction false} JoinAfterSnoc(ls: seq<string>, x: string, rest: string)
    ensures JoinAfter(ls + [x], rest) == JoinAfter(ls, x + "\n" + rest)
    decreases |ls|
  {
    if ls != [] {
      assert (ls + [x])[1..] == ls[1..] + [x];
      JoinAfterSnoc(ls[1..], x, rest);
    } else {
      assert [x][1..] == [];
    }
  }

  /** Joining lines that are followed by a non-empty list is joining the whole list. */
  lemma {:induction false} JoinAfterIsJoin(ls: seq<string>, rest: seq<string>)
    requires rest != []
    ensures JoinAfter(ls, Join(rest, "\n")) == Join(ls + rest, "\n")
    decreases |ls|
  {
    if ls != [] {
      JoinAfterIsJoin(ls[1..], rest);
      assert (ls + rest)[1..] == ls[1..] + rest;
    } else {
      assert ls + rest == rest;
    }
  }

  /** No entry line holds a newline when no reported line does. */
  lemma {:induction false} EntryLinesNoNewline(accountIndex: nat, lines: seq<string>)
    requires forall k :: 0 <= k < |lines| ==> NoChar(lines[k], '\n')
    ensures forall k :: 0 <= k < |EntryLines(accountIndex, lines)| ==> NoChar(EntryLines(accountIndex, lines)[k], '\n')
    decreases |lines|
  {
    if lines != [] {
      var init := lines[..|lines| - 1];
      EntryLinesNoNewline(accountIndex, init);
      var last := lines[|lines| - 1];
      var d := NatToDecimal(accountIndex);
      assert NoChar(d, '\n') by {
        forall i | 0 <= i < |d| ensures d[i] != '\n' {
          assert IsDigit(d[i]);
        }
      }
    }
  }

  /** Pieces without the separator character split back into themselves. */
  lemma {:induction false} SplitJoinNoChar(pieces: seq<string>, c: char)
    requires |pieces| >= 1
    requires forall k :: 0 <= k < |pieces| ==> NoChar(pieces[k], c)
    ensures Split(Join(pieces, [c]), [c]) == pieces
  {
    forall k | 0 <= k < |pieces| ensures SplitsCleanly(pieces[k], [c]) && !Contains(pieces[k], [c]) {
      NoCharIffAbsent(pieces[k], c);
      CleanSingle(pieces[k], c);
    }
    SplitJoin(pieces, [c]);
  }

  /** The last three report lines, joined. */
  lemma {:induction false} TailAsJoin(balanceDisplay: string, success: bool, now: string)
    ensures Join(["💵当前剩余：" + balanceDisplay, "保活结果： " + ResultText(success), "时间： " + now], "\n") ==
      Footer(balanceDisplay, success, now)
  {
    var tail := ["💵当前剩余：" + balanceDisplay, "保活结果： " + ResultText(success), "时间： " + now];
    assert tail[1..] == [tail[1], tail[2]] && [tail[1], tail[2]][1..] == [tail[2]];
    assert Join([tail[1], tail[2]], "\n") == tail[1] + "\n" + tail[2];
    assert Join(tail, "\n") == tail[0] + "\n" + (tail[1] + "\n" + tail[2]);
  }

  /** The first three report lines, each followed by a newline, in front of the rest. */
  lemma {:induction false} HeadAsJoinAfter(loginWay: string, displayUser: string, middle: string)
    ensures JoinAfter(["登录逻辑： " + loginWay, "用户： " + displayUser, "重要信息："], middle) ==
      Header(loginWay, displayUser) + middle
  {
    var head := ["登录逻辑： " + loginWay, "用户： " + displayUser, "重要信息："];
    assert head[1..] == [head[1], head[2]] && [head[1], head[2]][1..] == [head[2]] && [head[2]][1..] == [];
    assert JoinAfter([head[2]], middle) == head[2] + "\n" + middle;
    assert JoinAfter([head[1], head[2]], middle) == head[1] + "\n" + (head[2] + "\n" + middle);
    assert JoinAfter(head, middle) == head[0] + "\n" + (head[1] + "\n" + (head[2] + "\n" + middle));
  }

  /** The report is its lines joined by newlines. */
  lemma {:induction false} NotifyTextIsJoin(loginWay: string, displayUser: string, important: seq<string>,
                                            balanceDisplay: string, success: bool, accountIndex: nat, now: string)
    requires |important| <= 3
    ensures NotifyText(loginWay, displayUser, important, balanceDisplay, success, accountIndex, now) ==
      Join(ReportLines(loginWay, displayUser, important, balanceDisplay, success, accountIndex, now), "\n")
  {
    var head := ["登录逻辑： " + loginWay, "用户： " + displayUser, "重要信息："];
    var entries := EntryLines(accountIndex, important);
    var tail := ["💵当前剩余：" + balanceDisplay, "保活结果： " + ResultText(success), "时间： " + now];
    var after := Footer(balanceDisplay, success, now);
    var block := EntriesOf(accountIndex, important);
    assert ReportLines(loginWay, displayUser, important, balanceDisplay, success, accountIndex, now) == head + (entries + tail);
    calc {
      NotifyText(loginWay, displayUser, important, balanceDisplay, success, accountIndex, now);
      { assert Take3(important) == important; }
      Header(loginWay, displayUser) + block + after;
      Header(loginWay, displayUser) + (block + after);
      { HeadAsJoinAfter(loginWay, displayUser, block + after); }
      JoinAfter(head, block + after);
      { EntriesAsLines(accountIndex, important, after); }
      JoinAfter(head, JoinAfter(entries, after));
      { TailAsJoin(balanceDisplay, success, now); JoinAfterIsJoin(entries, tail); }
      JoinAfter(head, Join(entries + tail, "\n"));
      { JoinAfterIsJoin(head, entries + tail); }
      Join(head + (entries + tail), "\n");
    }
  }

  /**
    The report is its lines joined by newlines; when no field contains a
    newline, splitting the report at newlines gives back exactly those lines.
  */
  lemma {:induction false} ReportSplitsIntoLines(loginWay: string, displayUser: string, important: seq<string>,
                                                  balanceDisplay: string, success: bool, accountIndex: nat, now: string)
    requires NoChar(loginWay, '\n') && NoChar(displayUser, '\n') && NoChar(balanceDisplay, '\n') && NoChar(now, '\n')
    requires forall k :: 0 <= k < |important| ==> NoChar(important[k], '\n')
    requires |important| <= 3
    ensures Split(NotifyText(loginWay, displayUser, important, balanceDisplay, success, accountIndex, now), "\n") ==
      ReportLines(loginWay, displayUser, important, balanceDisplay, success, accountIndex, now)
  {
    var lines := ReportLines(loginWay, displayUser, important, balanceDisplay, success, accountIndex, now);
    var entries := EntryLines(accountIndex, important);
    NotifyTextIsJoin(loginWay, displayUser, important, balanceDisplay, success, accountIndex, now);
    EntryLinesNoNewline(accountIndex, important);
    forall k | 0 <= k < |lines| ensures NoChar(lines[k], '\n') {
      if 3 <= k < 3 + |entries| {
        assert lines[k] == entries[k - 3];
      }
    }
    SplitJoinNoChar(lines, '\n');
  }
}

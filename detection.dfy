/**
  Dashboard detection (`AutoLogin.is_logged_in`, ql-docker-plus.py:199-252): up
  to three attempts, each of which reads the page once. The browser's answers
  are an observation per attempt; this module gives the outcome and the log
  lines the check writes as a function of those observations, and the loop
  that performs the attempts (`ProbeDashboard`), which
  `Session.AutoLogin.IsLoggedIn` runs.
*/
module Detection {
  import opened Wrappers
  import opened Text

  /** `range(3)`. */
  const Attempts: nat := 3

  /** The eight dashboard markers, in the order they are waited for. */
  const DashboardSelectors: seq<string> := [
    "//*[contains(text(), 'App Launchpad')]",
    "//*[contains(text(), 'Database')]",
    "//*[contains(text(), 'Devbox')]",
    "//*[contains(text(), 'Object Storage')]",
    "//*[contains(text(), 'Terminal')]",
    "input[placeholder*='Search']",
    "//*[contains(text(), 'Germany')]",
    "//*[contains(text(), 'Japan')]"
  ]

  /**
    What one attempt sees: either reading the page raised, or the current URL,
    whether a GitHub sign-in button is present, and which markers (by index)
    become visible within their wait.
  */
  datatype PageObs =
    | Unreadable
    | Page(url: string, gitHubButton: bool, visible: set<nat>)

  /** The observation for an attempt; attempts past the supplied ones read nothing. */
  function ObsAt(obs: seq<PageObs>, attempt: nat): PageObs {
    if attempt < |obs| then obs[attempt] else Unreadable
  }

  /** The line logged before the first attempt. */
  const CheckingLine: string := "正在检测是否已登录到仪表盘..."

  /** The line logged when a marker is found. */
  function SuccessLine(attempt: nat, selector: string): string {
    "第 " + NatToDecimal(attempt + 1) + " 次检测成功: 找到元素 " + selector
  }

  /** The line logged when an attempt finds nothing. */
  function RetryLine(attempt: nat): string {
    "第 " + NatToDecimal(attempt + 1) + " 次检测未通过，等待重试..."
  }

  /** The first marker at index `from` or later that is visible. */
  function FirstVisible(visible: set<nat>, from: nat): (r: Option<nat>)
    ensures r.Some? ==> from <= r.value < |DashboardSelectors| && r.value in visible
    ensures r.Some? ==> forall k :: from <= k < r.value ==> k !in visible
    ensures r.None? ==> forall k :: from <= k < |DashboardSelectors| ==> k !in visible
    decreases |DashboardSelectors| - from
  {
    if from >= |DashboardSelectors| then None
    else if from in visible then Some(from)
    else FirstVisible(visible, from + 1)
  }

  /** How one attempt ends. */
  datatype AttemptResult = OnSignIn | SignInButton | Found(marker: nat) | NotYet

  /** The sign-in URL wins over the button, the button over the markers. */
  function Attempt(o: PageObs): (r: AttemptResult)
    ensures r.Found? ==> r.marker < |DashboardSelectors|
  {
    match o
    case Unreadable => NotYet
    case Page(url, button, visible) =>
      if Contains(url, "/signin") then OnSignIn
      else if button then SignInButton
      else match FirstVisible(visible, 0)
        case Some(k) => Found(k)
        case None => NotYet
  }

  /** The result of the check from `attempt` on, and the lines it logs. */
  function Detect(obs: seq<PageObs>, attempt: nat): (bool, seq<string>)
    decreases Attempts - attempt
  {
    if attempt >= Attempts then (false, [])
    else match Attempt(ObsAt(obs, attempt))
      case OnSignIn => (false, [])
      case SignInButton => (false, [])
      case Found(k) => (true, [SuccessLine(attempt, DashboardSelectors[k])])
      case NotYet =>
        var rest := Detect(obs, attempt + 1);
        (rest.0, [RetryLine(attempt)] + rest.1)
  }

  /** The markers waited for in order: the first that becomes visible, if any. */
  method FindMarker(visible: set<nat>) returns (marker: Option<nat>)
    ensures marker == FirstVisible(visible, 0)
  {
    for k := 0 to |DashboardSelectors|
      invariant FirstVisible(visible, 0) == FirstVisible(visible, k)
    {
      if k in visible {
        return Some(k);
      }
    }
    return None;
  }

  /** One attempt on the page it reads. */
  method ReadPage(o: PageObs) returns (outcome: AttemptResult)
    ensures outcome == Attempt(o)
  {
    if o.Unreadable? {
      return NotYet;
    }
    if Contains(o.url, "/signin") {
      return OnSignIn;
    }
    if o.gitHubButton {
      return SignInButton;
    }
    var marker := FindMarker(o.visible);
    if marker.Some? {
      return Found(marker.value);
    }
    return NotYet;
  }

  /** The attempts, each reading the page once; the result and the lines logged, in order. */
  method ProbeDashboard(obs: seq<PageObs>) returns (found: bool, lines: seq<string>)
    ensures (found, lines) == Detect(obs, 0)
  {
    found, lines := false, [];
    var attempt := 0;
    while attempt < Attempts
      invariant 0 <= attempt <= Attempts
      invariant Detect(obs, 0).0 == Detect(obs, attempt).0
      invariant Detect(obs, 0).1 == lines + Detect(obs, attempt).1
    {
      var outcome := ReadPage(ObsAt(obs, attempt));
      if outcome.OnSignIn? || outcome.SignInButton? {
        assert lines + [] == lines;
        return;
      }
      if outcome.Found? {
        lines := lines + [SuccessLine(attempt, DashboardSelectors[outcome.marker])];
        found := true;
        return;
      }
      lines := lines + [RetryLine(attempt)];
      attempt := attempt + 1;
    }
    assert lines + [] == lines;
  }

  /** Attempt `a` finds a marker, and every attempt from `attempt` up to it found nothing. */
  predicate SucceedsFrom(obs: seq<PageObs>, attempt: nat, a: nat) {
    && attempt <= a < Attempts
    && Attempt(ObsAt(obs, a)).Found?
    && forall b :: attempt <= b < a ==> Attempt(ObsAt(obs, b)) == NotYet
  }

  /**
    The check reports a dashboard exactly when some attempt finds a marker
    before any attempt sees the sign-in page or button. It logs one retry line
    per attempt that found nothing and, on success, the success line of the
    attempt that found the marker, last.
  */
  lemma {:induction false} DetectSpec(obs: seq<PageObs>, attempt: nat)
    requires attempt <= Attempts
    ensures var (found, lines) := Detect(obs, attempt);
      && attempt + |lines| <= Attempts
      && (forall k :: 0 <= k < |lines| - 1 ==> lines[k] == RetryLine(attempt + k))
      && (found ==>
            && lines != []
            && SucceedsFrom(obs, attempt, attempt + |lines| - 1)
            && lines[|lines| - 1] ==
                 SuccessLine(attempt + |lines| - 1, DashboardSelectors[Attempt(ObsAt(obs, attempt + |lines| - 1)).marker]))
      && (!found ==>
            && (forall k :: 0 <= k < |lines| ==> lines[k] == RetryLine(attempt + k))
            && (forall a :: !SucceedsFrom(obs, attempt, a)))
    decreases Attempts - attempt
  {
    DetectLines(obs, attempt);
    DetectFoundSucceeds(obs, attempt);
    DetectNotFoundFails(obs, attempt);
  }

  /** The lines of the check: retry lines, then the success line when the check succeeds. */
  lemma {:induction false} DetectLines(obs: seq<PageObs>, attempt: nat)
    requires attempt <= Attempts
    ensures var (found, lines) := Detect(obs, attempt);
      && attempt + |lines| <= Attempts
      && (forall k :: 0 <= k < |lines| - 1 ==> lines[k] == RetryLine(attempt + k))
      && (found ==>
            && lines != []
            && Attempt(ObsAt(obs, attempt + |lines| - 1)).Found?
            && lines[|lines| - 1] ==
                 SuccessLine(attempt + |lines| - 1, DashboardSelectors[Attempt(ObsAt(obs, attempt + |lines| - 1)).marker]))
      && (!found ==> forall k :: 0 <= k < |lines| ==> lines[k] == RetryLine(attempt + k))
    decreases Attempts - attempt
  {
    if attempt < Attempts && Attempt(ObsAt(obs, attempt)) == NotYet {
      DetectLines(obs, attempt + 1);
      var (found, lines) := Detect(obs, attempt + 1);
      var all := [RetryLine(attempt)] + lines;
      assert Detect(obs, attempt) == (found, all);
      forall k | 0 <= k < |all| - 1 || (!found && 0 <= k < |all|) ensures all[k] == RetryLine(attempt + k) {
        if k > 0 {
          assert all[k] == lines[k - 1];
        }
      }
      if found {
        assert all[|all| - 1] == lines[|lines| - 1];
      }
    }
  }

  /** A successful check succeeds at its last attempt. */
  lemma {:induction false} DetectFoundSucceeds(obs: seq<PageObs>, attempt: nat)
    requires attempt <= Attempts
    ensures var (found, lines) := Detect(obs, attempt);
      found ==> SucceedsFrom(obs, attempt, attempt + |lines| - 1)
    decreases Attempts - attempt
  {
    if attempt < Attempts && Attempt(ObsAt(obs, attempt)) == NotYet {
      DetectFoundSucceeds(obs, attempt + 1);
      var (found, lines) := Detect(obs, attempt + 1);
      assert Detect(obs, attempt) == (found, [RetryLine(attempt)] + lines);
    }
  }

  /** A failed check had no attempt that could have succeeded. */
  lemma {:induction false} DetectNotFoundFails(obs: seq<PageObs>, attempt: nat)
    requires attempt <= Attempts
    ensures !Detect(obs, attempt).0 ==> forall a :: !SucceedsFrom(obs, attempt, a)
    decreases Attempts - attempt
  {
    if attempt < Attempts {
      var o := Attempt(ObsAt(obs, attempt));
      if o == NotYet {
        DetectNotFoundFails(obs, attempt + 1);
        if !Detect(obs, attempt).0 {
          forall a: nat ensures !SucceedsFrom(obs, attempt, a) {
            if a > attempt {
              assert !SucceedsFrom(obs, attempt + 1, a);
            }
          }
        }
      } else if !o.Found? {
        forall a: nat ensures !SucceedsFrom(obs, attempt, a) {
          if attempt < a < Attempts {
            assert attempt <= attempt < a;
          }
        }
      }
    }
  }

  /** Landing on the sign-in page at the first attempt ends the check at once, silently. */
  lemma {:induction false} SignInPageFailsAtOnce(obs: seq<PageObs>)
    requires obs != [] && obs[0].Page? && Contains(obs[0].url, "/signin")
    ensures Detect(obs, 0) == (false, [])
  {
  }

  /** Three pages without a marker: the check fails after logging three retry lines. */
  lemma {:induction false} ThreeMissesFail(obs: seq<PageObs>)
    requires forall a :: 0 <= a < Attempts ==> Attempt(ObsAt(obs, a)) == NotYet
    ensures !Detect(obs, 0).0
    ensures Detect(obs, 0).1 == [RetryLine(0), RetryLine(1), RetryLine(2)]
  {
    assert Attempt(ObsAt(obs, 0)) == NotYet;
    assert Attempt(ObsAt(obs, 1)) == NotYet;
    assert Attempt(ObsAt(obs, 2)) == NotYet;
    assert Detect(obs, 3) == (false, []);
    assert Detect(obs, 2).1 == [RetryLine(2)] + [];
    assert Detect(obs, 1).1 == [RetryLine(1)] + [RetryLine(2)];
    assert Detect(obs, 0).1 == [RetryLine(0)] + [RetryLine(1), RetryLine(2)];
  }
}

/**
 * SeleniumAutomationService: the browser session that signs in to GitHub (email,
 * password, then GitHub Mobile approval only), waits for the approval while
 * nudging the page, and captures the profile page into a file.
 *
 * Time is the driver's clock; the approval wait is bounded by a budget of
 * milliseconds measured on it.
 */
module Automation {

  import opened Wrappers
  import opened Text
  import opened Errors
  import opened FileUtil
  import opened Browser
  import opened GithubDom
  import opened GithubMobile
  import opened Collaborators

  /** The github-automation configuration the service reads. */
  datatype Props = Props(
    loginEmail: Option<string>,
    loginPassword: Option<string>,
    screenshotDir: Path,                  // already absolute
    mobileApprovalTimeoutSeconds: int,
    mobilePollingIntervalSeconds: int)

  /** LocalDate.now() and LocalDateTime.now().toString() at a time of the driver's clock. */
  datatype Clock = Clock(dateAt: int -> Date, stampAt: int -> string)

  const GithubRoot: string := "https://github.com/"
  const LoginUrl: string := "https://github.com/login"

  const MissingCredentials: string := "withLogin=true but github-automation.loginEmail/loginPassword not provided"
  const OtpUnsupported: string :=
    "2FA code requested but this service only supports GitHub Mobile approval. "
    + "Please choose 'Use GitHub Mobile' on the 2FA screen."
  const InvalidCredentials: string := "invalid credentials"
  const LoginIncomplete: string := "login did not complete"
  const LoginTimeoutPrefix: string := "timeout during login: "
  const FormMissingPrefix: string := "login form not found (GitHub DOM changed?): "
  const ApprovalTimedOut: string := "waiting for GitHub Mobile approval timed out"
  const CaptureDriverPrefix: string := "WebDriver failed during capture: "
  const CaptureIoPrefix: string := "Failed to write screenshot file: "

  /** The controls the approval wait clicks, in the order it tries them. */
  const ApprovalControls: seq<Locator> :=
    [ContinueButton, VerifyButton, ContinueLink, VerifyLink, ContinueControl, VerifyControl, SubmitControl]

  /** The texts that lead from the OTP form to GitHub Mobile, in the order tried. */
  const SwitchPhrases: seq<string> :=
    ["use github mobile", "approve a sign in on your phone", "use a different method",
     "try another way", "more options", "check your phone"]

  function Max(a: int, b: int): int {
    if a >= b then a else b
  }

  /** The approval budget in seconds: at least 30. */
  function ApprovalTimeoutSeconds(props: Props): (t: int)
    ensures t >= 30 && t >= props.mobileApprovalTimeoutSeconds
    ensures t == 30 || t == props.mobileApprovalTimeoutSeconds
  {
    Max(30, props.mobileApprovalTimeoutSeconds)
  }

  /** The pause between polls in seconds: at least 1. */
  function PollSeconds(props: Props): (t: int)
    ensures t >= 1 && t >= props.mobilePollingIntervalSeconds
    ensures t == 1 || t == props.mobilePollingIntervalSeconds
  {
    Max(1, props.mobilePollingIntervalSeconds)
  }

  predicate CredentialsMissing(props: Props) {
    || props.loginEmail.None? || IsBlank(props.loginEmail.value)
    || props.loginPassword.None? || IsBlank(props.loginPassword.value)
  }

  /** Actions that neither reload the page nor leave it. */
  predicate Quiet(actions: seq<Action>) {
    forall a | a in actions :: !a.Refresh? && !a.Navigate?
  }

  /** A log extended twice is the log extended by both stretches at once. Kept as
      its own lemma so that this step is a small proof of its own: stated inline
      inside the poll methods it costs the solver several times more. */
  lemma LogAppend(log: seq<Action>, a: seq<Action>, b: seq<Action>)
    ensures log + a + b == log + (a + b)
  {
  }

  /** A quiet stretch holds no reload. Kept as its own lemma for the same reason as
      LogAppend: inline, the two multiset counts weigh on the poll methods' proofs. */
  lemma QuietCounts(actions: seq<Action>)
    requires Quiet(actions)
    ensures multiset(actions)[Refresh] == 0 && multiset(actions)[Navigate(GithubRoot)] == 0
  {
    assert Refresh !in actions;
    assert Navigate(GithubRoot) !in actions;
  }

  /** Two quiet stretches of a log make one. */
  lemma QuietAppend(log: seq<Action>, a: seq<Action>, b: seq<Action>)
    requires Quiet(a) && Quiet(b)
    ensures Quiet(a + b) && log + a + b == log + (a + b)
  {
  }

  // ---------------------------------------------------------------------------
  // The challenge e-mail
  // ---------------------------------------------------------------------------

  const ChallengeBase: string := "[GitHub] Mobile sign-in challenge"
  const DigitNote: string := "confirm digit: "

  function ChallengeSubject(digit: Option<string>): (s: string)
    ensures StartsWith(s, ChallengeBase)
  {
    var s := ChallengeBase + (if digit.Some? then " \U{2014} " + DigitNote + digit.value else "");
    assert s[..|ChallengeBase|] == ChallengeBase;
    s
  }

  function ChallengeBody(digit: Option<string>): string {
    if digit.Some? then "Approve the sign-in on your phone by selecting digit: " + digit.value
    else "Approve the sign-in on your phone (screenshot attached shows the number)."
  }

  /** "github_mobile_challenge_" + the timestamp with ':' replaced by '-' + ".png". */
  function ChallengeFileName(stamp: string): string {
    "github_mobile_challenge_" + ReplaceChar(stamp, ':', '-') + ".png"
  }

  /** The subject names the digit exactly when there is one. */
  lemma ChallengeSubjectNamesDigit(digit: Option<string>)
    ensures StartsWith(ChallengeSubject(digit), ChallengeBase)
    ensures digit.Some? ==> Contains(ChallengeSubject(digit), DigitNote + digit.value)
    ensures digit.None? ==> !Contains(ChallengeSubject(digit), DigitNote)
  {
    var s := ChallengeSubject(digit);
    assert s[..|ChallengeBase|] == ChallengeBase;
    if digit.Some? {
      assert s == (ChallengeBase + " \U{2014} ") + (DigitNote + digit.value);
      EndsWithContains(s, DigitNote + digit.value);
    } else {
      ContainsAt(s, DigitNote);
      forall i | 0 <= i <= |s| - |DigitNote|
        ensures !OccursAt(s, DigitNote, i)
      {
        assert s[i + 13] != ':';
        assert DigitNote[13] == ':';
      }
    }
  }

  /** A mail the challenge step sends. */
  predicate IsChallengeMail(m: Mail) {
    StartsWith(m.subject, ChallengeBase)
  }

  /** Mails were only appended, and all of them were challenge mails. */
  predicate OnlyChallengeMailsAdded(before: seq<Mail>, after: seq<Mail>) {
    && before <= after
    && forall k | |before| <= k < |after| :: IsChallengeMail(after[k])
  }

  lemma OnlyChallengeMailsAddedChain(a: seq<Mail>, b: seq<Mail>, c: seq<Mail>)
    requires OnlyChallengeMailsAdded(a, b) && OnlyChallengeMailsAdded(b, c)
    ensures OnlyChallengeMailsAdded(a, c)
  {
    assert |a| <= |b| && b[..|a|] == a;
    assert c[..|b|] == b;
    assert c[..|a|] == b[..|a|];
    forall k | |a| <= k < |c|
      ensures IsChallengeMail(c[k])
    {
      if k < |b| {
        assert c[k] == b[k];
      }
    }
  }

  /** Lines 125-129: the viewport bytes stored as
      base/yyyy/MM/dd/github_mobile_challenge_<stamp>.png; any IOException ends
      the step with nothing written. */
  method StoreChallengeShot(disk: Disk, base: Path, date: Date, stamp: string, png: seq<bv8>)
    returns (written: Option<Path>)
    modifies disk
    ensures written.Some? ==>
              && written.value == DailyDir(base, date) + [ChallengeFileName(stamp)]
              && written.value in disk.files && disk.files[written.value] == png
  {
    written := None;
    var dir := EnsureDailyDir(disk, base, date);
    if dir.Err? {
      return;
    }
    var path := dir.value + [ChallengeFileName(stamp)];
    var made := disk.CreateDirectories(Parent(path));
    if made.Some? {
      return;
    }
    assert Parent(path) == dir.value;
    var w := disk.Write(path, png);
    if w.Some? {
      return;
    }
    written := Some(path);
  }

  /**
   * emailMobileChallenge: screenshot the viewport, store it under
   * base/_auth/yyyy/MM/dd, and mail it to the login e-mail with the digit in the
   * subject and body. Every failure on the way is swallowed and ends the step.
   */
  method EmailMobileChallenge(d: Driver, props: Props, disk: Disk, mailer: Mailer, clock: Clock, digit: Option<string>)
    returns (written: Option<Path>)
    modifies d, disk, mailer
    ensures var x := d.world.react(old(d.page), CaptureViewport);
            && d.page == x.page && d.now == old(d.now) + x.elapsedMs
            && (written.Some? ==> x.result.Ok? && written.value in disk.files && disk.files[written.value] == x.result.value)
    ensures d.log == old(d.log) + [CaptureViewport] && d.quits == old(d.quits)
    ensures written.Some? ==>
              written.value == DailyDir(props.screenshotDir + ["_auth"], clock.dateAt(d.now)) + [ChallengeFileName(clock.stampAt(d.now))]
    ensures written.Some? && props.loginEmail.Some? ==>
              mailer.attempts == old(mailer.attempts) + [Mail(props.loginEmail.value, ChallengeSubject(digit), ChallengeBody(digit), written)]
    ensures written.None? || props.loginEmail.None? ==> mailer.attempts == old(mailer.attempts)
    ensures OnlyChallengeMailsAdded(old(mailer.attempts), mailer.attempts)
  {
    written := None;
    var png := d.Perform(CaptureViewport);
    if png.Err? {
      return;
    }
    written := StoreChallengeShot(disk, props.screenshotDir + ["_auth"], clock.dateAt(d.now), clock.stampAt(d.now), png.value);
    if written.None? {
      return;
    }
    MailChallenge(mailer, props.loginEmail, digit, written.value);
  }

  /** Lines 131-139: the challenge mail with the stored shot attached, sent to the
      login e-mail; with no login e-mail nothing is sent. A failed send is swallowed. */
  method MailChallenge(mailer: Mailer, to: Option<string>, digit: Option<string>, path: Path)
    modifies mailer
    ensures to.Some? ==>
              mailer.attempts == old(mailer.attempts) + [Mail(to.value, ChallengeSubject(digit), ChallengeBody(digit), Some(path))]
    ensures to.None? ==> mailer.attempts == old(mailer.attempts)
    ensures OnlyChallengeMailsAdded(old(mailer.attempts), mailer.attempts)
  {
    if to.None? {
      return;   // setTo(null) throws inside the mail service
    }
    var m := Mail(to.value, ChallengeSubject(digit), ChallengeBody(digit), Some(path));
    var _ := mailer.SendScreenshot(m);
  }

  // ---------------------------------------------------------------------------
  // Waiting for the approval
  // ---------------------------------------------------------------------------

  /** The reload actions of poll number `polls`: a refresh every third poll and a
      visit to the site root every fifth. */
  function NudgeActions(polls: nat): seq<Action> {
    (if polls % 3 == 0 then [Refresh] else []) + (if polls % 5 == 0 then [Navigate(GithubRoot)] else [])
  }

  /** All nudges of polls 1..n. */
  function NudgeTrace(n: nat): seq<Action> {
    if n == 0 then [] else NudgeTrace(n - 1) + NudgeActions(n)
  }

  /** The nudges of one poll, counted. */
  lemma NudgeActionsCount(n: nat)
    ensures multiset(NudgeActions(n))[Refresh] == if n % 3 == 0 then 1 else 0
    ensures multiset(NudgeActions(n))[Navigate(GithubRoot)] == if n % 5 == 0 then 1 else 0
  {
    var r: seq<Action> := if n % 3 == 0 then [Refresh] else [];
    var g: seq<Action> := if n % 5 == 0 then [Navigate(GithubRoot)] else [];
    assert NudgeActions(n) == r + g;
    assert multiset(r + g) == multiset(r) + multiset(g);
  }

  lemma QuotientBy3(m: nat, q: nat, r: nat)
    requires m == 3 * q + r && r < 3
    ensures m / 3 == q && (m + 1) / 3 == q + (if r == 2 then 1 else 0)
  {
  }

  lemma QuotientBy5(m: nat, q: nat, r: nat)
    requires m == 5 * q + r && r < 5
    ensures m / 5 == q && (m + 1) / 5 == q + (if r == 4 then 1 else 0)
  {
  }

  /** Poll m + 1 adds one refresh exactly when it completes a multiple of three,
      and one root visit when it completes a multiple of five. */
  lemma NudgeStep(m: nat)
    ensures multiset(NudgeActions(m + 1))[Refresh] == (m + 1) / 3 - m / 3
    ensures multiset(NudgeActions(m + 1))[Navigate(GithubRoot)] == (m + 1) / 5 - m / 5
  {
    NudgeActionsCount(m + 1);
    QuotientBy3(m, m / 3, m % 3);
    QuotientBy5(m, m / 5, m % 5);
    assert (m + 1) % 3 == (m % 3 + 1) % 3;
    assert (m + 1) % 5 == (m % 5 + 1) % 5;
  }

  /** Occurrences in a concatenation add up. */
  lemma CountAppend(a: seq<Action>, b: seq<Action>, x: Action)
    ensures multiset(a + b)[x] == multiset(a)[x] + multiset(b)[x]
  {
    assert multiset(a + b) == multiset(a) + multiset(b);
  }

  /** One more poll keeps the counts of the nudges in step with the polls. */
  lemma NudgeCountsStep(m: nat)
    requires multiset(NudgeTrace(m))[Refresh] == m / 3
    requires multiset(NudgeTrace(m))[Navigate(GithubRoot)] == m / 5
    ensures multiset(NudgeTrace(m + 1))[Refresh] == (m + 1) / 3
    ensures multiset(NudgeTrace(m + 1))[Navigate(GithubRoot)] == (m + 1) / 5
  {
    NudgeStep(m);
    assert NudgeTrace(m + 1) == NudgeTrace(m) + NudgeActions(m + 1);
    CountAppend(NudgeTrace(m), NudgeActions(m + 1), Refresh);
    CountAppend(NudgeTrace(m), NudgeActions(m + 1), Navigate(GithubRoot));
  }

  /** Over n polls the page is refreshed n / 3 times and the root visited n / 5 times. */
  lemma {:induction false} NudgeCounts(n: nat)
    ensures multiset(NudgeTrace(n))[Refresh] == n / 3
    ensures multiset(NudgeTrace(n))[Navigate(GithubRoot)] == n / 5
  {
    if n > 0 {
      var m: nat := n - 1;
      NudgeCounts(m);
      NudgeCountsStep(m);
    }
  }

  /** Lines 183-190: the reloads of one poll, each failure ignored, each followed
      by a pause. */
  method Nudge(d: Driver, polls: nat)
    modifies d
    ensures d.log == old(d.log) + NudgeActions(polls)
    ensures d.now >= old(d.now) + (if polls % 3 == 0 then 600 else 0) + (if polls % 5 == 0 then 900 else 0)
    ensures d.quits == old(d.quits)
  {
    if polls % 3 == 0 {
      var _ := d.Perform(Refresh);
      d.Sleep(600);
    }
    if polls % 5 == 0 {
      var _ := d.Perform(Navigate(GithubRoot));
      d.Sleep(900);
    }
  }

  /** The submit step of lines 172-176 on page p: the commit or submit control
      when the page has one, Enter in the password field otherwise. */
  function SubmitAction(p: Page): (a: Action)
    ensures a == Click(Handle(CommitOrSubmit, 0)) <==> Find(p, CommitOrSubmit) != []
    ensures a == PressEnter(Handle(PasswordInput, 0)) <==> Find(p, CommitOrSubmit) == []
  {
    if Find(p, CommitOrSubmit) != [] then Click(Handle(CommitOrSubmit, 0)) else PressEnter(Handle(PasswordInput, 0))
  }

  /** Lines 168-180 as the world answers them from page p: clear the password
      field, type the password, submit, wait six seconds for a settled page; the
      first step that throws ends the re-entry. */
  function Reentry(w: World, p: Page, pass: string): (t: seq<Action>)
    ensures 1 <= |t| <= 4 && t[0] == Clear(Handle(PasswordInput, 0))
    ensures Quiet(t)
  {
    var h := Handle(PasswordInput, 0);
    var c := w.react(p, Clear(h));
    if c.result.Err? then [Clear(h)]
    else
      var s := w.react(c.page, SendKeys(h, pass));
      if s.result.Err? then [Clear(h), SendKeys(h, pass)]
      else
        var k := w.react(s.page, SubmitAction(s.page));
        if k.result.Err? then [Clear(h), SendKeys(h, pass), SubmitAction(s.page)]
        else [Clear(h), SendKeys(h, pass), SubmitAction(s.page), Await(Settled, 6)]
  }

  /** Where the re-entry of lines 168-180 ends: the page it leaves, and whether
      its six-second wait for a settled page succeeded. */
  datatype ReentryEnd = ReentryEnd(page: Page, settled: bool)

  /** The re-entry as the world answers it from page p: the page after the last
      step it performs, settled only when every step went through and the page
      the wait returns is settled. */
  function ReentryOutcome(w: World, p: Page, pass: string): (e: ReentryEnd)
    ensures e.settled ==> Satisfies(e.page, Settled) && |Reentry(w, p, pass)| == 4
    ensures e.settled ==> Reentry(w, p, pass)[3] == Await(Settled, 6)
  {
    var h := Handle(PasswordInput, 0);
    var c := w.react(p, Clear(h));
    if c.result.Err? then ReentryEnd(c.page, false)
    else
      var s := w.react(c.page, SendKeys(h, pass));
      if s.result.Err? then ReentryEnd(s.page, false)
      else
        var k := w.react(s.page, SubmitAction(s.page));
        if k.result.Err? then ReentryEnd(k.page, false)
        else
          var x := w.react(k.page, Await(Settled, 6));
          ReentryEnd(x.page, x.result.Ok? && Satisfies(x.page, Settled))
  }

  /** Lines 168-180: type the password again and submit it (the commit or submit
      control when there is one, Enter otherwise), then wait six seconds for a
      settled page. Reports whether that wait succeeded; every failure is swallowed. */
  method ReenterPassword(d: Driver, pass: string) returns (settled: bool, ghost delta: seq<Action>)
    modifies d
    ensures delta == Reentry(d.world, old(d.page), pass)
    ensures d.page == ReentryOutcome(d.world, old(d.page), pass).page
    ensures settled == ReentryOutcome(d.world, old(d.page), pass).settled
    ensures settled ==> Satisfies(d.page, Settled) && |delta| == 4
    ensures d.log == old(d.log) + delta && Quiet(delta)
    ensures settled ==> delta[|delta| - 1] == Await(Settled, 6) && delta[1] == SendKeys(Handle(PasswordInput, 0), pass)
    ensures d.now >= old(d.now) && d.quits == old(d.quits)
  {
    var h := Handle(PasswordInput, 0);
    delta := [Clear(h)];
    var c := d.Perform(Clear(h));
    if c.Err? {
      return false, delta;
    }
    delta := delta + [SendKeys(h, pass)];
    var s := d.Perform(SendKeys(h, pass));
    if s.Err? {
      return false, delta;
    }
    var submit := SubmitAction(d.page);
    delta := delta + [submit];
    var k := d.Perform(submit);
    if k.Err? {
      return false, delta;
    }
    delta := delta + [Await(Settled, 6)];
    var w := WaitUntil(d, Settled, 6);
    return w.Ok?, delta;
  }

  /** The page the approval-control scan of lines 156-160 leaves: after a click
      that went through, the 800 ms pause. */
  function AfterApprovalScan(w: World, p: Page): Page {
    var s := ScanLocators(w, p, ApprovalControls);
    if s.clicked then w.idle(s.page, 800) else s.page
  }

  /** Lines 154-180 as the world answers them from page p: nothing on a signed-in
      page; otherwise the approval-control clicks, then the password re-entry when
      no click signed in and the page shows a password field. */
  function PollActions(w: World, p: Page, pass: string): (t: seq<Action>)
    ensures !IsLoggedIn(p) ==> Clicks(ScanLocators(w, p, ApprovalControls).tried) <= t
    ensures Quiet(t)
  {
    if IsLoggedIn(p) then []
    else
      var s := ScanLocators(w, p, ApprovalControls);
      var q := AfterApprovalScan(w, p);
      ClicksOnlyClick(s.tried);
      if s.clicked && IsLoggedIn(q) then Clicks(s.tried)
      else if Find(q, PasswordInput) != [] then Clicks(s.tried) + Reentry(w, q, pass)
      else Clicks(s.tried)
  }

  /** Whether the poll of lines 154-180 ends the wait from page p: p is signed in
      already (line 154), a click on an approval control led to a signed-in page
      (line 165), or the password re-entry settled on a signed-in page (line 178). */
  predicate PollSignsIn(w: World, p: Page, pass: string) {
    || IsLoggedIn(p)
    || (var s := ScanLocators(w, p, ApprovalControls);
        var q := AfterApprovalScan(w, p);
        || (s.clicked && IsLoggedIn(q))
        || (Find(q, PasswordInput) != [] && ReentryOutcome(w, q, pass).settled
            && IsLoggedIn(ReentryOutcome(w, q, pass).page)))
  }

  /** The page the poll of lines 154-180 leaves from page p: p itself when signed
      in, the page after the approval scan, or the page the re-entry ends on when
      the scan did not sign in and a password field is shown. */
  function PollPage(w: World, p: Page, pass: string): (r: Page)
    ensures PollSignsIn(w, p, pass) ==> IsLoggedIn(r)
    ensures !IsLoggedIn(p) && Find(AfterApprovalScan(w, p), PasswordInput) == [] ==> r == AfterApprovalScan(w, p)
  {
    if IsLoggedIn(p) then p
    else
      var s := ScanLocators(w, p, ApprovalControls);
      var q := AfterApprovalScan(w, p);
      if s.clicked && IsLoggedIn(q) then q
      else if Find(q, PasswordInput) != [] then ReentryOutcome(w, q, pass).page
      else q
  }

  /** One pass of the loop of lines 154-198 from page p: the poll's actions, then
      the reloads of the poll it counts when it counts one. */
  function RoundActions(w: World, p: Page, pass: string, count: nat, next: nat): (t: seq<Action>)
    ensures PollActions(w, p, pass) <= t
  {
    PollActions(w, p, pass) + (if next == count then [] else NudgeActions(next))
  }

  /** Lines 154-180: done when logged in, before or after clicking the first
      approval control, or after re-entering the password when a password field is
      shown. */
  method PollStep(d: Driver, pass: string) returns (done: bool, ghost delta: seq<Action>)
    modifies d
    ensures delta == PollActions(d.world, old(d.page), pass)
    ensures done == PollSignsIn(d.world, old(d.page), pass)
    ensures d.page == PollPage(d.world, old(d.page), pass)
    ensures done ==> IsLoggedIn(d.page)
    ensures IsLoggedIn(old(d.page)) ==> done && d.log == old(d.log)
    ensures !IsLoggedIn(old(d.page)) ==>
              var s := ScanLocators(d.world, old(d.page), ApprovalControls);
              var q := AfterApprovalScan(d.world, old(d.page));
              && (s.clicked && IsLoggedIn(q) ==> done && d.page == q)
              && (!(s.clicked && IsLoggedIn(q)) && Find(q, PasswordInput) == [] ==> !done && d.page == q)
    ensures d.log == old(d.log) + delta && Quiet(delta)
    ensures d.now >= old(d.now) && d.quits == old(d.quits)
  {
    if IsLoggedIn(d.page) {
      return true, [];
    }
    ghost var log0 := d.log;
    ghost var s := ScanLocators(d.world, d.page, ApprovalControls);
    ghost var q := AfterApprovalScan(d.world, d.page);
    var clicked := ClickIfPresent(d, ApprovalControls);
    delta := Clicks(s.tried);
    ClicksOnlyClick(s.tried);
    assert d.log == log0 + delta && Quiet(delta);
    if clicked {
      d.Sleep(800);
      if IsLoggedIn(d.page) {
        return true, delta;
      }
    }
    assert d.page == q;
    if Find(d.page, PasswordInput) != [] {
      var settled, pd := ReenterPassword(d, pass);
      QuietAppend(log0, delta, pd);
      delta := delta + pd;
      if settled && IsLoggedIn(d.page) {
        return true, delta;
      }
    }
    return false, delta;
  }

  /** A stretch of the log with the reloads of `polls` polls: n / 3 refreshes and
      n / 5 visits to the root. */
  predicate Counted(actions: seq<Action>, polls: nat) {
    && multiset(actions)[Refresh] == polls / 3
    && multiset(actions)[Navigate(GithubRoot)] == polls / 5
  }

  /** The loop guard of line 152 on a non-negative elapsed time. */
  lemma BudgetLeft(elapsed: int, seconds: int)
    requires elapsed >= 0
    ensures elapsed / 1000 < seconds <==> elapsed < seconds * 1000
  {
  }

  /** Lines 182-198, after a poll that did not sign in: the poll is counted and
      nudged, the digit-read pause taken, and the loop left on an OTP page;
      otherwise the pause of `pollMs` follows. */
  method CountPoll(d: Driver, pollMs: nat, count: nat) returns (exit: bool)
    modifies d
    ensures exit ==> IsOtpPage(d.page)
    ensures !exit ==> d.now >= old(d.now) + pollMs
    ensures d.log == old(d.log) + NudgeActions(count + 1)
    ensures d.now >= old(d.now) && d.quits == old(d.quits)
  {
    Nudge(d, count + 1);
    d.Sleep(500);   // line 192: the digit is read again only to be logged; its pause remains
    if IsOtpPage(d.page) {
      return true;
    }
    d.Sleep(pollMs);
    return false;
  }

  /** Lines 154-198, one pass of the loop: `exit` when it returns; otherwise the
      poll is counted and the pause of `pollMs` taken. */
  method PollRound(d: Driver, pass: string, pollMs: nat, count: nat) returns (exit: bool, next: nat, ghost delta: seq<Action>)
    modifies d
    ensures exit ==> IsLoggedIn(d.page) || IsOtpPage(d.page)
    ensures !exit ==> next == count + 1 && d.now >= old(d.now) + pollMs
    ensures next == count || next == count + 1
    ensures next == count <==> PollSignsIn(d.world, old(d.page), pass)
    ensures d.log == old(d.log) + delta
    ensures delta == RoundActions(d.world, old(d.page), pass, count, next)
    ensures multiset(delta)[Refresh] == next / 3 - count / 3
    ensures multiset(delta)[Navigate(GithubRoot)] == next / 5 - count / 5
    ensures d.now >= old(d.now) && d.quits == old(d.quits)
  {
    ghost var p0 := d.page;
    var done, quiet := PollStep(d, pass);
    QuietCounts(quiet);
    if done {
      assert RoundActions(d.world, p0, pass, count, count) == quiet + [];
      return true, count, quiet;
    }
    next := count + 1;
    exit := CountPoll(d, pollMs, count);
    NudgeStep(count);
    delta := quiet + NudgeActions(next);
    assert delta == RoundActions(d.world, p0, pass, count, next);
    LogAppend(old(d.log), quiet, NudgeActions(next));
    CountAppend(quiet, NudgeActions(next), Refresh);
    CountAppend(quiet, NudgeActions(next), Navigate(GithubRoot));
  }

  /** Lines 201-206: one last visit to the root and an eight-second wait for a
      settled page; true when the session is then signed in. */
  method FinalCheck(d: Driver) returns (ok: bool)
    modifies d
    ensures ok ==> IsLoggedIn(d.page)
    ensures d.log == old(d.log) + [Navigate(GithubRoot)] || d.log == old(d.log) + [Navigate(GithubRoot), Await(Settled, 8)]
    ensures d.now >= old(d.now) && d.quits == old(d.quits)
  {
    var nav := d.Perform(Navigate(GithubRoot));
    if nav.Err? {
      return false;
    }
    var w := WaitUntil(d, Settled, 8);
    return w.Ok? && IsLoggedIn(d.page);
  }

  /** Lines 146-199: the polling loop, run while the budget lasts. `exited` when a
      pass returned; `polls` is the poll counter at the end and `trace` what the
      loop did to the page. */
  method PollUntilBudget(d: Driver, props: Props, pass: string)
    returns (exited: bool, polls: nat, ghost trace: seq<Action>)
    modifies d
    ensures exited ==> IsLoggedIn(d.page) || IsOtpPage(d.page)
    ensures !exited ==> d.now - old(d.now) >= ApprovalTimeoutSeconds(props) * 1000
    ensures d.log == old(d.log) + trace && Counted(trace, polls)
    ensures multiset(trace)[Refresh] == multiset(NudgeTrace(polls))[Refresh]
    ensures multiset(trace)[Navigate(GithubRoot)] == multiset(NudgeTrace(polls))[Navigate(GithubRoot)]
    ensures d.now >= old(d.now) && d.quits == old(d.quits)
  {
    var timeoutSec := ApprovalTimeoutSeconds(props);
    var pollSec := PollSeconds(props);
    var start := d.now;
    ghost var log0 := d.log;
    trace := [];
    polls := 0;
    d.Sleep(500);   // line 150: the first digit is read only to be logged; its pause remains
    BudgetLeft(d.now - start, timeoutSec);
    while (d.now - start) / 1000 < timeoutSec
      invariant d.now >= start && d.quits == old(d.quits)
      invariant d.log == log0 + trace && Counted(trace, polls)
      decreases timeoutSec * 1000 - (d.now - start)
    {
      BudgetLeft(d.now - start, timeoutSec);
      var exit, next, delta := PollRound(d, pass, pollSec * 1000, polls);
      assert multiset(trace + delta) == multiset(trace) + multiset(delta);
      LogAppend(log0, trace, delta);
      trace, polls := trace + delta, next;
      if exit {
        NudgeCounts(polls);
        return true, polls, trace;
      }
      BudgetLeft(d.now - start, timeoutSec);
    }
    BudgetLeft(d.now - start, timeoutSec);
    NudgeCounts(polls);
    return false, polls, trace;
  }

  /**
   * waitForMobileApproval: poll until the session is signed in or the OTP form
   * shows, while the budget of max(30, configured) seconds lasts; then the final
   * check, and a timeout error when that does not sign in either. `polls` is the
   * number of polls counted.
   */
  method WaitForMobileApproval(d: Driver, props: Props, pass: string) returns (r: Result<(), Fault>, ghost polls: nat)
    modifies d
    ensures r.Ok? ==> IsLoggedIn(d.page) || IsOtpPage(d.page)
    ensures r.Err? ==> r == Err(Api(GithubLogin(ApprovalTimedOut)))
    ensures r.Err? ==> d.now - old(d.now) >= ApprovalTimeoutSeconds(props) * 1000
    ensures old(d.log) <= d.log
    ensures multiset(d.log[|old(d.log)|..])[Refresh] == polls / 3
    ensures polls / 5 <= multiset(d.log[|old(d.log)|..])[Navigate(GithubRoot)] <= polls / 5 + 1
    ensures r.Err? ==> multiset(d.log[|old(d.log)|..])[Navigate(GithubRoot)] == polls / 5 + 1
    ensures d.now >= old(d.now) && d.quits == old(d.quits)
  {
    ghost var log0 := d.log;
    var exited, count, trace := PollUntilBudget(d, props, pass);
    polls := count;
    SuffixAfter(log0, trace);
    if exited {
      return Ok(()), polls;
    }
    ghost var last: seq<Action> := [Navigate(GithubRoot)];
    var ok := FinalCheck(d);
    if d.log != log0 + trace + last {
      last := [Navigate(GithubRoot), Await(Settled, 8)];
    }
    FinalCheckCounts(trace, last, count);
    LogAppend(log0, trace, last);
    SuffixAfter(log0, trace + last);
    if ok {
      return Ok(()), polls;
    }
    return Err(Api(GithubLogin(ApprovalTimedOut))), polls;
  }

  /** What was appended to a log. */
  lemma SuffixAfter(log: seq<Action>, tail: seq<Action>)
    ensures log <= log + tail && (log + tail)[|log|..] == tail
  {
  }

  /** The final check adds one root visit and no refresh. */
  lemma FinalCheckCounts(actions: seq<Action>, last: seq<Action>, polls: nat)
    requires Counted(actions, polls)
    requires last == [Navigate(GithubRoot)] || last == [Navigate(GithubRoot), Await(Settled, 8)]
    ensures multiset(actions + last)[Refresh] == polls / 3
    ensures multiset(actions + last)[Navigate(GithubRoot)] == polls / 5 + 1
  {
    assert multiset(actions + last) == multiset(actions) + multiset(last);
  }

  // ---------------------------------------------------------------------------
  // Switching from the OTP form to GitHub Mobile
  // ---------------------------------------------------------------------------

  /** The outcome of trying the phrases: the page reached, the time taken, the
      phrases whose element was clicked, and whether a mobile page was reached. */
  datatype SwitchRun = SwitchRun(page: Page, elapsedMs: nat, clicked: seq<string>, switched: bool)

  /** For each phrase in order: when an element with that text exists, click it
      (a failing click is ignored), wait 800 ms, and stop with success when the
      page is now the mobile verification page. */
  function SwitchScan(w: World, p: Page, phrases: seq<string>): SwitchRun
    decreases |phrases|
  {
    if phrases == [] then SwitchRun(p, 0, [], false)
    else
      var h := FindByTextContains(p, phrases[0]);
      if h.None? then SwitchScan(w, p, phrases[1..])
      else
        var x := w.react(p, Click(h.value));
        var q := w.idle(x.page, 800);
        if IsMobileVerificationPage(q) then SwitchRun(q, x.elapsedMs + 800, [phrases[0]], true)
        else
          var rest := SwitchScan(w, q, phrases[1..]);
          SwitchRun(rest.page, x.elapsedMs + 800 + rest.elapsedMs, [phrases[0]] + rest.clicked, rest.switched)
  }

  /** The elements of `a` occur in `b` in the same order, each at its own position. */
  predicate IsSubsequence(a: seq<string>, b: seq<string>)
    decreases |b|
  {
    if a == [] then true
    else if b == [] then false
    else (a[0] == b[0] && IsSubsequence(a[1..], b[1..])) || IsSubsequence(a, b[1..])
  }

  /** A page reached by clicking the element with phrase c and pausing 800 ms. */
  ghost predicate ReachedByClicking(w: World, page: Page, c: string) {
    exists q: Page :: page == w.idle(w.react(q, Click(Handle(TextContains(c), 0))).page, 800)
  }

  /** What the scan promises: success only on a mobile verification page, after
      at least one click, and only on listed phrases. */
  lemma {:induction false} SwitchScanMeaning(w: World, p: Page, phrases: seq<string>)
    ensures var s := SwitchScan(w, p, phrases);
            && (s.switched ==> IsMobileVerificationPage(s.page) && s.clicked != [])
            && |s.clicked| <= |phrases|
            && (forall c | c in s.clicked :: c in phrases)
    decreases |phrases|
  {
    if phrases != [] {
      SwitchScanMeaning(w, p, phrases[1..]);
      var h := FindByTextContains(p, phrases[0]);
      if h.Some? {
        var x := w.react(p, Click(h.value));
        SwitchScanMeaning(w, w.idle(x.page, 800), phrases[1..]);
      }
    }
  }

  /** The order of the clicks: the clicked phrases are clicked in list order, each
      listed occurrence at most once, and on success the page is the one the last
      click led to. */
  lemma {:induction false} SwitchScanOrder(w: World, p: Page, phrases: seq<string>)
    ensures var s := SwitchScan(w, p, phrases);
            && IsSubsequence(s.clicked, phrases)
            && (s.switched ==> s.clicked != [] && ReachedByClicking(w, s.page, s.clicked[|s.clicked| - 1]))
    decreases |phrases|
  {
    if phrases != [] {
      SwitchScanOrder(w, p, phrases[1..]);
      var h := FindByTextContains(p, phrases[0]);
      if h.Some? {
        var x := w.react(p, Click(h.value));
        var q := w.idle(x.page, 800);
        var rest := SwitchScan(w, q, phrases[1..]);
        SwitchScanOrder(w, q, phrases[1..]);
        if IsMobileVerificationPage(q) {
          assert ReachedByClicking(w, q, phrases[0]);
        } else {
          var cs := [phrases[0]] + rest.clicked;
          assert cs[1..] == rest.clicked;
          if rest.switched {
            assert cs[|cs| - 1] == rest.clicked[|rest.clicked| - 1];
          }
        }
      }
    }
  }

  /** The first phrase found on the page whose click reaches the mobile page ends
      the scan with success after that single click. */
  lemma FirstPhraseSwitches(w: World, p: Page, phrases: seq<string>)
    requires phrases != [] && Find(p, TextContains(phrases[0])) != []
    requires IsMobileVerificationPage(w.idle(w.react(p, Click(Handle(TextContains(phrases[0]), 0))).page, 800))
    ensures SwitchScan(w, p, phrases).switched && SwitchScan(w, p, phrases).clicked == [phrases[0]]
  {
  }

  /** The click actions of the clicked phrases. */
  function PhraseClicks(cs: seq<string>): (r: seq<Action>)
    ensures |r| == |cs|
    ensures forall k | 0 <= k < |cs| :: r[k] == Click(Handle(TextContains(cs[k]), 0))
  {
    if cs == [] then [] else [Click(Handle(TextContains(cs[0]), 0))] + PhraseClicks(cs[1..])
  }

  function Continue(ms: nat, cs: seq<string>, after: SwitchRun): SwitchRun {
    SwitchRun(after.page, ms + after.elapsedMs, cs + after.clicked, after.switched)
  }

  lemma ContinueTwice(m1: nat, c1: seq<string>, m2: nat, c2: seq<string>, s: SwitchRun)
    ensures Continue(m1, c1, Continue(m2, c2, s)) == Continue(m1 + m2, c1 + c2, s)
  {
    assert c1 + (c2 + s.clicked) == (c1 + c2) + s.clicked;
  }

  /** A log that grows by one more phrase click. */
  lemma LogPhraseClicksAppend(log: seq<Action>, a: seq<string>, b: string)
    ensures log + PhraseClicks(a) + [Click(Handle(TextContains(b), 0))] == log + PhraseClicks(a + [b])
  {
  }

  /** The scan passes over a phrase with no element. */
  lemma SwitchScanSkip(whole: SwitchRun, ms: nat, clicked: seq<string>, w: World, p: Page, rest: seq<string>)
    requires rest != [] && FindByTextContains(p, rest[0]).None?
    requires whole == Continue(ms, clicked, SwitchScan(w, p, rest))
    ensures whole == Continue(ms, clicked, SwitchScan(w, p, rest[1..]))
  {
  }

  /** The scan ends after a click that leads to the mobile page. */
  lemma SwitchScanHit(whole: SwitchRun, ms: nat, clicked: seq<string>, w: World, p: Page, rest: seq<string>, x: Reaction, q: Page)
    requires rest != [] && FindByTextContains(p, rest[0]).Some?
    requires x == w.react(p, Click(FindByTextContains(p, rest[0]).value)) && q == w.idle(x.page, 800)
    requires IsMobileVerificationPage(q)
    requires whole == Continue(ms, clicked, SwitchScan(w, p, rest))
    ensures whole == SwitchRun(q, ms + x.elapsedMs + 800, clicked + [rest[0]], true)
  {
    assert [rest[0]] + [] == [rest[0]];
    ContinueTwice(ms, clicked, x.elapsedMs + 800, [rest[0]], SwitchRun(q, 0, [], true));
  }

  /** The scan goes on after a click that does not lead to the mobile page. */
  lemma SwitchScanGoOn(whole: SwitchRun, ms: nat, clicked: seq<string>, w: World, p: Page, rest: seq<string>, x: Reaction, q: Page)
    requires rest != [] && FindByTextContains(p, rest[0]).Some?
    requires x == w.react(p, Click(FindByTextContains(p, rest[0]).value)) && q == w.idle(x.page, 800)
    requires !IsMobileVerificationPage(q)
    requires whole == Continue(ms, clicked, SwitchScan(w, p, rest))
    ensures whole == Continue(ms + x.elapsedMs + 800, clicked + [rest[0]], SwitchScan(w, q, rest[1..]))
  {
    ContinueTwice(ms, clicked, x.elapsedMs + 800, [rest[0]], SwitchScan(w, q, rest[1..]));
  }

  /** The loop of trySwitchToMobileFromOtp over a list of phrases, as SwitchScan
      states. */
  method ClickPhrases(d: Driver, phrases: seq<string>) returns (switched: bool)
    modifies d
    ensures var s := SwitchScan(d.world, old(d.page), phrases);
            && switched == s.switched && d.page == s.page && d.now == old(d.now) + s.elapsedMs
            && d.log == old(d.log) + PhraseClicks(s.clicked)
    ensures switched ==> IsMobileVerificationPage(d.page)
    ensures d.quits == old(d.quits)
  {
    ghost var w := d.world;
    ghost var now0 := d.now;
    ghost var log0 := d.log;
    ghost var whole := SwitchScan(w, d.page, phrases);
    ghost var ms: nat := 0;
    ghost var clicked: seq<string> := [];
    ghost var rest := phrases;
    assert whole.clicked == [] + whole.clicked;
    var k := 0;
    while k < |phrases|
      invariant 0 <= k <= |phrases| && rest == phrases[k..]
      invariant whole == Continue(ms, clicked, SwitchScan(w, d.page, rest))
      invariant d.now == now0 + ms && d.log == log0 + PhraseClicks(clicked) && d.quits == old(d.quits)
      decreases |phrases| - k
    {
      var text := phrases[k];
      assert rest != [] && rest[0] == text;
      ghost var tail := rest[1..];
      assert tail == phrases[k + 1..];
      var h := FindByTextContains(d.page, text);
      if h.Some? {
        ghost var p := d.page;
        ghost var x := w.react(p, Click(h.value));
        var _ := d.Perform(Click(h.value));
        d.Sleep(800);
        LogPhraseClicksAppend(log0, clicked, text);
        if IsMobileVerificationPage(d.page) {
          SwitchScanHit(whole, ms, clicked, w, p, rest, x, d.page);
          return true;
        }
        SwitchScanGoOn(whole, ms, clicked, w, p, rest, x, d.page);
        ms := ms + x.elapsedMs + 800;
        clicked := clicked + [text];
      } else {
        SwitchScanSkip(whole, ms, clicked, w, d.page, rest);
      }
      rest := tail;
      k := k + 1;
    }
    assert clicked + [] == clicked;
    return false;
  }

  /** trySwitchToMobileFromOtp: the six phrases tried in order. */
  method TrySwitchToMobileFromOtp(d: Driver) returns (switched: bool)
    modifies d
    ensures var s := SwitchScan(d.world, old(d.page), SwitchPhrases);
            && switched == s.switched && d.page == s.page && d.now == old(d.now) + s.elapsedMs
            && d.log == old(d.log) + PhraseClicks(s.clicked)
    ensures switched ==> IsMobileVerificationPage(d.page)
    ensures d.quits == old(d.quits)
  {
    switched := ClickPhrases(d, SwitchPhrases);
  }

  // ---------------------------------------------------------------------------
  // Login
  // ---------------------------------------------------------------------------

  /** The actions of a submission that reaches the outcome wait. */
  /** The actions of opening the login form. */
  function OpenTrace(): seq<Action> {
    [Navigate(LoginUrl), Await(Presence(LoginField), 30), Await(Presence(PasswordField), 30)]
  }

  /** The actions of filling in and submitting the login form. */
  function FillTrace(email: string, pass: string): seq<Action> {
    [ Clear(Handle(LoginField, 0)), SendKeys(Handle(LoginField, 0), email),
      Clear(Handle(PasswordField, 0)), SendKeys(Handle(PasswordField, 0), pass),
      Click(Handle(CommitInput, 0)),
      Await(LoginOutcome, 30) ]
  }

  function SubmitTrace(email: string, pass: string): seq<Action> {
    OpenTrace() + FillTrace(email, pass)
  }

  /** Lines 67-71: open the login page and wait for both fields. */
  method OpenLoginForm(d: Driver) returns (r: Result<(), DriverFault>)
    modifies d
    ensures r.Ok? ==> d.log == old(d.log) + OpenTrace()
    ensures old(d.log) + [Navigate(LoginUrl)] <= d.log
    ensures d.now >= old(d.now) && d.quits == old(d.quits)
  {
    var nav := d.Perform(Navigate(LoginUrl));
    if nav.Err? {
      return Err(nav.error);
    }
    var w1 := WaitUntil(d, Presence(LoginField), 30);
    if w1.Err? {
      return Err(w1.error);
    }
    var w2 := WaitUntil(d, Presence(PasswordField), 30);
    if w2.Err? {
      return Err(w2.error);
    }
    return Ok(());
  }

  /** Lines 75-82: find the commit button (a NoSuchElementException with the
      world's message when there is none), click it and wait for one of the four
      outcomes. */
  method SubmitForm(d: Driver) returns (r: Result<(), DriverFault>)
    modifies d
    ensures Find(old(d.page), CommitInput) == [] ==>
              && r == Err(NoSuchElement(d.world.missing(old(d.page), CommitInput)))
              && d.page == old(d.page) && d.log == old(d.log) && d.now == old(d.now)
    ensures Find(old(d.page), CommitInput) != [] ==> old(d.log) + [Click(Handle(CommitInput, 0))] <= d.log
    ensures r.Ok? ==>
              && Satisfies(d.page, LoginOutcome)
              && d.log == old(d.log) + [Click(Handle(CommitInput, 0)), Await(LoginOutcome, 30)]
    ensures old(d.log) <= d.log
    ensures d.now >= old(d.now) && d.quits == old(d.quits)
  {
    if Find(d.page, CommitInput) == [] {
      return Err(NoSuchElement(d.world.missing(d.page, CommitInput)));
    }
    var c := d.Perform(Click(Handle(CommitInput, 0)));
    if c.Err? {
      return Err(c.error);
    }
    var w := WaitUntil(d, LoginOutcome, 30);
    if w.Err? {
      return Err(w.error);
    }
    return Ok(());
  }

  /** Lines 73-82: type the credentials, click the commit button and wait for one
      of the four outcomes. */
  method FillAndSubmit(d: Driver, email: string, pass: string) returns (r: Result<(), DriverFault>)
    modifies d
    ensures r.Ok? ==> Satisfies(d.page, LoginOutcome) && d.log == old(d.log) + FillTrace(email, pass)
    ensures old(d.log) <= d.log
    ensures d.now >= old(d.now) && d.quits == old(d.quits)
  {
    var t1 := Type(d, Handle(LoginField, 0), email);
    if t1.Err? {
      return Err(t1.error);
    }
    var t2 := Type(d, Handle(PasswordField, 0), pass);
    if t2.Err? {
      return Err(t2.error);
    }
    r := SubmitForm(d);
  }

  /** A prefix of a prefix. */
  lemma PrefixChain(a: seq<Action>, b: seq<Action>, c: seq<Action>)
    requires a <= b && b <= c
    ensures a <= c
  {
  }

  /** Lines 67-82: open the login page, wait for both fields, type the credentials,
      click the commit button and wait for one of the four outcomes. */
  method SubmitCredentials(d: Driver, email: string, pass: string) returns (r: Result<(), DriverFault>)
    modifies d
    ensures r.Ok? ==> Satisfies(d.page, LoginOutcome) && d.log == old(d.log) + SubmitTrace(email, pass)
    ensures old(d.log) + [Navigate(LoginUrl)] <= d.log
    ensures d.now >= old(d.now) && d.quits == old(d.quits)
  {
    ghost var log0 := d.log;
    r := OpenLoginForm(d);
    if r.Err? {
      return;
    }
    ghost var log1 := d.log;
    r := FillAndSubmit(d, email, pass);
    PrefixChain(log0 + [Navigate(LoginUrl)], log1, d.log);
    if r.Ok? {
      LogAppend(log0, OpenTrace(), FillTrace(email, pass));
    }
  }

  /** The catch clauses of the login step: a timeout and a missing element become
      login errors, any other WebDriver fault passes through. */
  function LoginFault(f: DriverFault): Fault {
    match f
    case Timeout(m) => Api(GithubLogin(LoginTimeoutPrefix + m))
    case NoSuchElement(m) => Api(GithubLogin(FormMissingPrefix + m))
    case OtherDriver(_) => Driver(f)
  }

  /** The errors the login step can end with. */
  predicate LoginError(f: Fault) {
    (f.Api? && f.api.GithubLogin?) || (f.Driver? && f.driver.OtherDriver?)
  }

  /** Lines 87-89 and 95-97: read the digit, e-mail the challenge, wait for approval. */
  method ResolveApproval(d: Driver, props: Props, disk: Disk, mailer: Mailer, clock: Clock, pass: string)
    returns (r: Result<(), Fault>)
    modifies d, disk, mailer
    ensures r.Ok? ==> IsLoggedIn(d.page) || IsOtpPage(d.page)
    ensures r.Err? ==> r == Err(Api(GithubLogin(ApprovalTimedOut)))
    ensures old(d.log) + [CaptureViewport] <= d.log
    ensures d.now >= old(d.now) && d.quits == old(d.quits)
    ensures OnlyChallengeMailsAdded(old(mailer.attempts), mailer.attempts)
  {
    var digit := ExtractMobileApprovalDigit(d);
    var written := EmailMobileChallenge(d, props, disk, mailer, clock, digit);
    ghost var log1 := d.log;
    ghost var polls;
    r, polls := WaitForMobileApproval(d, props, pass);
    PrefixChain(old(d.log) + [CaptureViewport], log1, d.log);
  }

  /** Lines 84-110: the page the outcome wait returned on, classified in a fixed
      order: signed in; mobile verification (resolved by approval); OTP form
      (switched to mobile when possible, refused otherwise); error banner;
      otherwise incomplete. */
  method ClassifyOutcome(d: Driver, props: Props, disk: Disk, mailer: Mailer, clock: Clock, pass: string)
    returns (r: Result<(), Fault>)
    modifies d, disk, mailer
    ensures r.Ok? ==> IsLoggedIn(d.page)
    ensures r.Err? ==> r.error.Api? && r.error.api.GithubLogin?
    ensures IsLoggedIn(old(d.page)) ==> r.Ok? && d.page == old(d.page)
    ensures IsMobileVerificationPage(old(d.page)) ==>
              && (r.Ok? || r == Err(Api(GithubLogin(ApprovalTimedOut))) || r == Err(Api(GithubLogin(OtpUnsupported))))
              && old(d.log) + [CaptureViewport] <= d.log
    ensures !IsLoggedIn(old(d.page)) && !IsMobileVerificationPage(old(d.page)) && IsOtpPage(old(d.page)) ==>
              r.Ok? || r == Err(Api(GithubLogin(OtpUnsupported))) || r == Err(Api(GithubLogin(ApprovalTimedOut)))
    ensures (!IsLoggedIn(old(d.page)) && !IsMobileVerificationPage(old(d.page)) && !IsOtpPage(old(d.page))
             && HasFlashError(old(d.page))) ==> r == Err(Api(GithubLogin(InvalidCredentials)))
    ensures r == Err(Api(GithubLogin(LoginIncomplete))) <==>
              (!IsLoggedIn(old(d.page)) && !IsMobileVerificationPage(old(d.page)) && !IsOtpPage(old(d.page))
               && !HasFlashError(old(d.page)))
    ensures old(d.log) <= d.log && d.quits == old(d.quits)
    ensures OnlyChallengeMailsAdded(old(mailer.attempts), mailer.attempts)
  {
    ghost var mails0 := mailer.attempts;
    if IsLoggedIn(d.page) {
      return Ok(());
    }
    if IsMobileVerificationPage(d.page) {
      r := ResolveApproval(d, props, disk, mailer, clock, pass);
      if r.Err? || IsLoggedIn(d.page) {
        return;
      }
    }
    ghost var mails1 := mailer.attempts;
    ghost var log1 := d.log;
    if IsOtpPage(d.page) {
      var switched := TrySwitchToMobileFromOtp(d);
      ghost var log2 := d.log;
      if switched {
        r := ResolveApproval(d, props, disk, mailer, clock, pass);
        OnlyChallengeMailsAddedChain(mails0, mails1, mailer.attempts);
        PrefixChain(log1, log2, d.log);
        if r.Err? || IsLoggedIn(d.page) {
          return;
        }
      }
      return Err(Api(GithubLogin(OtpUnsupported)));
    }
    if HasFlashError(d.page) {
      return Err(Api(GithubLogin(InvalidCredentials)));
    }
    return Err(Api(GithubLogin(LoginIncomplete)));
  }

  /**
   * loginWithEmailPasswordAndMobile. Missing or blank credentials fail before any
   * page is opened; then the credentials are submitted and the page reached is
   * classified. `outcome` is the page the outcome wait returned on, when it was
   * reached; `submitFault` the fault that ended the submission before it, if any.
   */
  method Login(d: Driver, props: Props, disk: Disk, mailer: Mailer, clock: Clock)
    returns (r: Result<(), Fault>, ghost outcome: Option<Page>, ghost submitFault: Option<DriverFault>)
    modifies d, disk, mailer
    ensures CredentialsMissing(props) ==>
              && r == Err(Api(GithubLogin(MissingCredentials)))
              && d.log == old(d.log) && d.page == old(d.page) && d.now == old(d.now)
              && disk.files == old(disk.files) && mailer.attempts == old(mailer.attempts)
              && outcome.None? && submitFault.None?
    ensures !CredentialsMissing(props) ==> old(d.log) + [Navigate(LoginUrl)] <= d.log
    ensures !CredentialsMissing(props) ==> (outcome.None? <==> submitFault.Some?)
    ensures submitFault.Some? ==> r == Err(LoginFault(submitFault.value))
    ensures outcome.Some? ==>
              && Satisfies(outcome.value, LoginOutcome)
              && old(d.log) + SubmitTrace(props.loginEmail.value, props.loginPassword.value) <= d.log
    ensures r.Ok? ==> IsLoggedIn(d.page)
    ensures r.Err? ==> LoginError(r.error)
    ensures outcome.Some? && IsLoggedIn(outcome.value) ==> r.Ok? && d.page == outcome.value
    ensures outcome.Some? && IsMobileVerificationPage(outcome.value) ==>
              && (r.Ok? || r == Err(Api(GithubLogin(ApprovalTimedOut))) || r == Err(Api(GithubLogin(OtpUnsupported))))
              && old(d.log) + SubmitTrace(props.loginEmail.value, props.loginPassword.value) + [CaptureViewport] <= d.log
    ensures outcome.Some? && !IsLoggedIn(outcome.value) && !IsMobileVerificationPage(outcome.value) && IsOtpPage(outcome.value) ==>
              r.Ok? || r == Err(Api(GithubLogin(OtpUnsupported))) || r == Err(Api(GithubLogin(ApprovalTimedOut)))
    ensures (outcome.Some? && !IsLoggedIn(outcome.value) && !IsMobileVerificationPage(outcome.value)
             && !IsOtpPage(outcome.value)) ==> r == Err(Api(GithubLogin(InvalidCredentials)))
    ensures outcome.Some? ==> r != Err(Api(GithubLogin(LoginIncomplete)))
    ensures d.quits == old(d.quits)
    ensures OnlyChallengeMailsAdded(old(mailer.attempts), mailer.attempts)
  {
    outcome, submitFault := None, None;
    if CredentialsMissing(props) {
      return Err(Api(GithubLogin(MissingCredentials))), outcome, submitFault;
    }
    var email, pass := props.loginEmail.value, props.loginPassword.value;
    ghost var log0 := d.log;
    var sent := SubmitCredentials(d, email, pass);
    if sent.Err? {
      submitFault := Some(sent.error);
      return Err(LoginFault(sent.error)), outcome, submitFault;
    }
    outcome := Some(d.page);
    LoginOutcomeIsClassified(d.page);
    ghost var log1 := d.log;
    SuffixAfter(log0, SubmitTrace(email, pass));
    r := ClassifyOutcome(d, props, disk, mailer, clock, pass);
    PrefixChain(log0 + SubmitTrace(email, pass), log1, d.log);
    PrefixChain(log0 + [Navigate(LoginUrl)], log0 + SubmitTrace(email, pass), d.log);
  }

  // ---------------------------------------------------------------------------
  // Capture
  // ---------------------------------------------------------------------------

  /** Starting Chrome: the fault it fails with, or the world and first page of the
      new session and the time it starts at. */
  datatype Launch = Launch(fault: Option<DriverFault>, world: World, page: Page, now: int)

  function ProfileUrl(user: string): string {
    GithubRoot + user
  }

  /** The actions that capture the profile page. */
  function CaptureTrace(user: string): seq<Action> {
    [Navigate(ProfileUrl(user)), Await(PageLoaded, 30), CaptureFullPage]
  }

  /** The catch clauses of captureProfileScreenshot. */
  function CaptureFault(f: Fault): Fault {
    match f
    case Driver(df) => Api(ScreenshotCapture(CaptureDriverPrefix + df.msg, Some(f)))
    case Io(m) => Api(ScreenshotCapture(CaptureIoPrefix + m, Some(f)))
    case _ => f
  }

  /** The faults the capture steps end with all become API errors other than a
      mail failure; driver and I/O faults become capture errors that keep the
      original as their cause and its message after the fixed prefix. */
  lemma CaptureFaultClassifies(f: Fault)
    requires LoginError(f) || f.Driver? || f.Io?
    ensures CaptureFault(f).Api? && !CaptureFault(f).api.EmailSend?
    ensures f.Api? ==> CaptureFault(f) == f
    ensures f.Driver? || f.Io? ==> CaptureFault(f).api.ScreenshotCapture?
    ensures CaptureFault(f).api.ScreenshotCapture? ==>
              && CaptureFault(f).api.cause == Some(f)
              && ((f.Driver? && CaptureFault(f).api.reason == CaptureDriverPrefix + f.driver.msg)
                  || (f.Io? && CaptureFault(f).api.reason == CaptureIoPrefix + f.ioMsg))
  {
  }

  /** What the full-page capture of line 45 gives when the session is on page p:
      the profile is opened, its load awaited, and the page captured. */
  function ProfileShot(w: World, p: Page, user: string): Result<seq<bv8>, DriverFault> {
    var shown := w.react(p, Navigate(ProfileUrl(user))).page;
    var loaded := w.react(shown, Await(PageLoaded, 30)).page;
    w.react(loaded, CaptureFullPage).result
  }

  /** Lines 43-46: open the profile, wait for it to load, capture the full page
      and write it to the target file. */
  method ShootProfile(d: Driver, disk: Disk, user: string, target: Path) returns (r: Result<Path, Fault>)
    requires |target| >= 1
    modifies d, disk
    ensures r.Err? ==> r.error.Driver? || r.error.Io?
    ensures r.Err? ==> disk.files == old(disk.files)
    ensures r.Ok? ==> r.value == target && target in disk.files
    ensures r.Ok? ==> var shot := ProfileShot(d.world, old(d.page), user);
                      shot.Ok? && disk.files == old(disk.files)[target := shot.value]
    ensures r.Ok? ==> d.log == old(d.log) + CaptureTrace(user)
    ensures old(d.log) <= d.log && d.quits == old(d.quits)
  {
    ghost var log0 := d.log;
    var nav := d.Perform(Navigate(ProfileUrl(user)));
    if nav.Err? {
      return Err(Driver(nav.error));
    }
    var loaded := WaitUntil(d, PageLoaded, 30);
    if loaded.Err? {
      return Err(Driver(loaded.error));
    }
    var png := d.Perform(CaptureFullPage);
    if png.Err? {
      return Err(Driver(png.error));
    }
    assert d.log == log0 + CaptureTrace(user);
    var made := disk.CreateDirectories(Parent(target));
    if made.Some? {
      return Err(made.value);
    }
    var w := disk.Write(target, png.value);
    if w.Some? {
      return Err(w.value);
    }
    return Ok(target);
  }

  /** Lines 36-46, inside the try: sign in when asked, open the profile, wait for
      it to load, capture the full page and write it to the target file. Faults
      come out unclassified. */
  method CaptureSteps(d: Driver, props: Props, clock: Clock, disk: Disk, mailer: Mailer,
                      user: string, target: Path, withLogin: bool)
    returns (r: Result<Path, Fault>, ghost login: Option<Result<(), Fault>>, ghost shotFrom: Page)
    requires |target| >= 1
    modifies d, disk, mailer
    ensures login.Some? <==> withLogin
    ensures login.Some? && login.value.Err? ==> r == Err(login.value.error) && LoginError(login.value.error)
    ensures withLogin && CredentialsMissing(props) ==>
              d.log == old(d.log) && login == Some(Err(Api(GithubLogin(MissingCredentials))))
    ensures r.Err? && (login.None? || login.value.Ok?) ==> r.error.Driver? || r.error.Io?
    ensures r.Ok? ==> r.value == target && target in disk.files
    ensures r.Ok? ==> var shot := ProfileShot(d.world, shotFrom, user);
                      shot.Ok? && disk.files[target] == shot.value
    ensures r.Ok? && withLogin ==> IsLoggedIn(shotFrom)
    ensures !withLogin ==> shotFrom == old(d.page)
    ensures r.Ok? && !withLogin ==> disk.files == old(disk.files)[target := ProfileShot(d.world, old(d.page), user).value]
    ensures r.Ok? ==> |d.log| >= 3 && d.log[|d.log| - 3..] == CaptureTrace(user)
    ensures r.Ok? && !withLogin ==> d.log == old(d.log) + CaptureTrace(user)
    ensures old(d.log) <= d.log && d.quits == old(d.quits)
    ensures OnlyChallengeMailsAdded(old(mailer.attempts), mailer.attempts)
  {
    login := None;
    ghost var log0 := d.log;
    if withLogin {
      var lr, outcome, submitFault := Login(d, props, disk, mailer, clock);
      login := Some(lr);
      if lr.Err? {
        return Err(lr.error), login, d.page;
      }
    }
    shotFrom := d.page;
    r := ShootProfile(d, disk, user, target);
  }

  /**
   * captureProfileScreenshot: start a browser (a failure to start propagates as it
   * is, with no session to quit), run the steps, classify their faults, and quit
   * the session exactly once whatever happened.
   */
  method CaptureProfileScreenshot(props: Props, launch: Launch, clock: Clock, disk: Disk, mailer: Mailer,
                                  user: string, target: Path, withLogin: bool)
    returns (r: Result<Path, Fault>, driver: Driver?, ghost login: Option<Result<(), Fault>>, ghost shotFrom: Page)
    requires |target| >= 1
    modifies disk, mailer
    ensures launch.fault.Some? ==>
              && r == Err(Driver(launch.fault.value)) && driver == null && login.None?
              && disk.files == old(disk.files) && mailer.attempts == old(mailer.attempts)
    ensures launch.fault.None? ==> driver != null && fresh(driver) && driver.quits == 1
    ensures launch.fault.None? ==> (login.Some? <==> withLogin)
    ensures launch.fault.None? && login.Some? && login.value.Err? ==> r == Err(CaptureFault(login.value.error))
    ensures launch.fault.None? && withLogin && CredentialsMissing(props) ==>
              r == Err(Api(GithubLogin(MissingCredentials))) && driver.log == []
    ensures launch.fault.None? && r.Err? ==> r.error.Api? && !r.error.api.EmailSend?
    ensures launch.fault.None? && r.Err? && r.error.api.ScreenshotCapture? ==>
              && r.error.api.cause.Some?
              && var cause := r.error.api.cause.value;
                 || (cause.Driver? && r.error.api.reason == CaptureDriverPrefix + cause.driver.msg)
                 || (cause.Io? && r.error.api.reason == CaptureIoPrefix + cause.ioMsg)
    ensures launch.fault.None? && r.Err? && (login.None? || login.value.Ok?) ==> r.error.api.ScreenshotCapture?
    ensures r.Ok? ==> r.value == target && target in disk.files
    ensures r.Ok? ==> var shot := ProfileShot(launch.world, shotFrom, user);
                      shot.Ok? && disk.files[target] == shot.value
    ensures r.Ok? && withLogin ==> IsLoggedIn(shotFrom)
    ensures r.Ok? && !withLogin ==>
              && shotFrom == launch.page
              && disk.files == old(disk.files)[target := ProfileShot(launch.world, launch.page, user).value]
    ensures r.Ok? ==> |driver.log| >= 3 && driver.log[|driver.log| - 3..] == CaptureTrace(user)
    ensures OnlyChallengeMailsAdded(old(mailer.attempts), mailer.attempts)
  {
    if launch.fault.Some? {
      return Err(Driver(launch.fault.value)), null, None, launch.page;
    }
    driver := new Driver(launch.world, launch.page, launch.now);
    var raw;
    raw, login, shotFrom := CaptureSteps(driver, props, clock, disk, mailer, user, target, withLogin);
    if raw.Err? {
      CaptureFaultClassifies(raw.error);
      r := Err(CaptureFault(raw.error));
    } else {
      r := raw;
    }
    driver.Quit();
  }
}

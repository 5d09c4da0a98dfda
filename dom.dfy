/**
 * GitHub page predicates (signed in, error banner, one-time-code page, mobile
 * verification page), the conditions the automation waits for, and the two
 * element helpers: find-by-text and click-the-first-clickable.
 */
module GithubDom {

  import opened Wrappers
  import opened Text
  import opened Errors
  import opened Browser

  const VerifiedDevicePath: string := "/sessions/verified-device"

  /** Phrases whose presence in the lower-cased page source marks the mobile
      verification page. */
  const MobilePhrases: seq<string> :=
    ["check your phone", "approve sign in", "confirm digit", "github mobile",
     "verify your identity", "device verification"]

  // ---------------------------------------------------------------------------
  // Page predicates
  // ---------------------------------------------------------------------------

  /** pageLoaded(): document.readyState is "complete". */
  predicate PageLoaded(p: Page) {
    p.readyState == "complete"
  }

  /** The cookie part of isLoggedIn: a user_session cookie with any value, a
      logged_in cookie whose value is "yes" in any case, or a dotcom_user cookie
      with a non-blank value. When reading the cookies throws, none counts. */
  predicate SessionCookie(p: Page) {
    && p.cookiesReadable
    && ( "user_session" in p.cookies
       || ("logged_in" in p.cookies && p.cookies["logged_in"].Some?
           && EqualsIgnoreCase("yes", p.cookies["logged_in"].value))
       || ("dotcom_user" in p.cookies && p.cookies["dotcom_user"].Some?
           && !IsBlank(p.cookies["dotcom_user"].value)))
  }

  /** One of the three profile-menu selectors finds something. */
  predicate ProfileMenu(p: Page) {
    Find(p, ProfileMenuLabelContains) != [] || Find(p, ProfileMenuSummary) != []
    || Find(p, ProfileMenuDetails) != []
  }

  /** The first meta[name='user-login'] has non-blank content (no such element
      counts as false). */
  predicate MetaUserLoginSet(p: Page) {
    var m := Find(p, MetaUserLogin);
    m != [] && m[0].content.Some? && !IsBlank(m[0].content.value)
  }

  /** isLoggedIn. */
  predicate IsLoggedIn(p: Page) {
    SessionCookie(p) || ProfileMenu(p) || MetaUserLoginSet(p)
  }

  /** hasFlashError: the error banner is present. */
  predicate HasFlashError(p: Page) {
    Find(p, FlashError) != []
  }

  /** isOtpPage: a one-time-code input is present. */
  predicate IsOtpPage(p: Page) {
    Find(p, OtpInput) != []
  }

  /** isMobileVerificationPage: never while signed in; otherwise the device URL or
      one of the phrases in the lower-cased source. */
  predicate IsMobileVerificationPage(p: Page) {
    && !IsLoggedIn(p)
    && ( (p.url.Some? && Contains(p.url.value, VerifiedDevicePath))
       || ContainsAny(ToLower(p.source), MobilePhrases))
  }

  /** A user_session cookie signs the user in whatever its value, even null. */
  lemma UserSessionCookieSuffices(p: Page, value: Option<string>)
    requires p.cookiesReadable && "user_session" in p.cookies && p.cookies["user_session"] == value
    ensures IsLoggedIn(p)
    ensures !IsMobileVerificationPage(p)
  {
  }

  /** logged_in counts when its value is "yes" in any mix of cases, and only then
      (unless another signal is present). */
  lemma LoggedInCookieIgnoresCase(p: Page, v: string)
    requires p.cookiesReadable && "logged_in" in p.cookies && p.cookies["logged_in"] == Some(v)
    requires "user_session" !in p.cookies && "dotcom_user" !in p.cookies
    requires !ProfileMenu(p) && !MetaUserLoginSet(p)
    ensures IsLoggedIn(p) <==> ToLower(v) == "yes"
  {
    EqualsIgnoreCaseIsLowerEquality("yes", v);
  }

  /** Without a qualifying cookie, the page alone decides: a profile menu or a
      non-blank user-login meta tag. */
  lemma LoggedInWithoutCookies(p: Page)
    requires !p.cookiesReadable || p.cookies == map[]
    ensures IsLoggedIn(p) <==> ProfileMenu(p) || MetaUserLoginSet(p)
  {
  }

  /** A mobile phrase anywhere in the source, in any case, marks the mobile
      verification page unless the user is signed in. */
  lemma MobilePhraseMarksVerificationPage(p: Page, k: nat, i: nat)
    requires k < |MobilePhrases|
    requires OccursAt(ToLower(p.source), MobilePhrases[k], i)
    ensures IsMobileVerificationPage(p) <==> !IsLoggedIn(p)
  {
    ContainsAt(ToLower(p.source), MobilePhrases[k]);
  }

  /** On a page with neither the device URL nor any phrase, the mobile page is not
      recognised. */
  lemma NoPhraseNoVerificationPage(p: Page)
    requires p.url.None? || !Contains(p.url.value, VerifiedDevicePath)
    requires forall k, i | 0 <= k < |MobilePhrases| :: !OccursAt(ToLower(p.source), MobilePhrases[k], i)
    ensures !IsMobileVerificationPage(p)
  {
    forall k | 0 <= k < |MobilePhrases|
      ensures !Contains(ToLower(p.source), MobilePhrases[k])
    {
      ContainsAt(ToLower(p.source), MobilePhrases[k]);
    }
  }

  // ---------------------------------------------------------------------------
  // Waiting
  // ---------------------------------------------------------------------------

  /** What each awaited condition means on a page. */
  predicate Satisfies(p: Page, c: Condition) {
    match c
    case PageLoaded => PageLoaded(p)
    case Presence(loc) => Find(p, loc) != []
    case LoginOutcome =>
      Find(p, ProfileMenuLabelContains) != [] || IsOtpPage(p)
      || (p.url.Some? && Contains(p.url.value, VerifiedDevicePath)) || HasFlashError(p)
    case Settled => IsLoggedIn(p) || IsMobileVerificationPage(p) || IsOtpPage(p)
  }

  /** Whenever the post-submit wait succeeds, one of the four outcome predicates holds. */
  lemma LoginOutcomeIsClassified(p: Page)
    requires Satisfies(p, LoginOutcome)
    ensures IsLoggedIn(p) || IsMobileVerificationPage(p) || IsOtpPage(p) || HasFlashError(p)
  {
  }

  /** new WebDriverWait(driver, seconds).until(cond): returns once the condition
      holds, throws TimeoutException when it does not. */
  method WaitUntil(d: Driver, cond: Condition, seconds: nat) returns (r: Result<(), DriverFault>)
    modifies d
    ensures r.Ok? ==> Satisfies(d.page, cond)
    ensures var x := d.world.react(old(d.page), Await(cond, seconds));
            && d.page == x.page && d.now == old(d.now) + x.elapsedMs
            && (r.Ok? <==> x.result.Ok? && Satisfies(x.page, cond))
            && (x.result.Err? ==> r == Err(x.result.error))
            && (x.result.Ok? && !Satisfies(x.page, cond) ==> r == Err(Timeout(d.world.timedOut(x.page, cond, seconds))))
    ensures d.log == old(d.log) + [Await(cond, seconds)] && d.quits == old(d.quits)
  {
    var x := d.Perform(Await(cond, seconds));
    if x.Err? {
      return Err(x.error);
    }
    if !Satisfies(d.page, cond) {
      return Err(Timeout(d.world.timedOut(d.page, cond, seconds)));
    }
    return Ok(());
  }

  // ---------------------------------------------------------------------------
  // Element helpers
  // ---------------------------------------------------------------------------

  /** findByTextContains: the first element whose text contains the phrase, or null. */
  function FindByTextContains(p: Page, textLower: string): (h: Option<Handle>)
    ensures h.Some? <==> Find(p, TextContains(textLower)) != []
    ensures h.Some? ==> h.value == Handle(TextContains(textLower), 0)
  {
    if Find(p, TextContains(textLower)) == [] then None else Some(Handle(TextContains(textLower), 0))
  }

  /** type(el, text): clear the field, then send the text. */
  method Type(d: Driver, h: Handle, text: string) returns (r: Result<(), DriverFault>)
    modifies d
    ensures r.Ok? ==> d.log == old(d.log) + [Clear(h), SendKeys(h, text)]
    ensures r.Err? ==> d.log == old(d.log) + [Clear(h)] || d.log == old(d.log) + [Clear(h), SendKeys(h, text)]
    ensures d.quits == old(d.quits) && d.now >= old(d.now)
  {
    var c := d.Perform(Clear(h));
    if c.Err? {
      return Err(c.error);
    }
    var s := d.Perform(SendKeys(h, text));
    if s.Err? {
      return Err(s.error);
    }
    return Ok(());
  }

  /** An element clickIfPresent may click: displayed and enabled. A stale element
      throws on the first question and is skipped. */
  predicate Clickable(e: Element) {
    !e.stale && e.displayed && e.enabled
  }

  /** The handles of the clickable elements of a list from position j on, in order. */
  function ClickableFrom(loc: Locator, els: seq<Element>, j: nat): seq<Handle>
    decreases |els| - j
  {
    if j >= |els| then []
    else if Clickable(els[j]) then [Handle(loc, j)] + ClickableFrom(loc, els, j + 1)
    else ClickableFrom(loc, els, j + 1)
  }

  /** The course of a scan: the page it ends on, the time it took, the elements it
      tried to click in order, and whether a click went through. */
  datatype ClickScan = ClickScan(page: Page, elapsedMs: nat, tried: seq<Handle>, clicked: bool)

  /** `before` followed by `after`. */
  function Then(ms: nat, tried: seq<Handle>, after: ClickScan): ClickScan {
    ClickScan(after.page, ms + after.elapsedMs, tried + after.tried, after.clicked)
  }

  /** The inner loop of clickIfPresent over one locator's list, from position j:
      each clickable element is clicked; the first click that goes through ends the
      scan, a click that throws is ignored. */
  function ScanList(w: World, p: Page, loc: Locator, els: seq<Element>, j: nat): (s: ClickScan)
    ensures s.clicked ==> s.tried != []
    decreases |els| - j
  {
    if j >= |els| then ClickScan(p, 0, [], false)
    else if !Clickable(els[j]) then ScanList(w, p, loc, els, j + 1)
    else
      var x := w.react(p, Click(Handle(loc, j)));
      if x.result.Ok? then ClickScan(x.page, x.elapsedMs, [Handle(loc, j)], true)
      else Then(x.elapsedMs, [Handle(loc, j)], ScanList(w, x.page, loc, els, j + 1))
  }

  /** Within one list the scan tries the clickable elements in document order: all
      of them when no click goes through, and otherwise those up to the first click
      that did. */
  lemma {:induction false} ScanListTriesClickables(w: World, p: Page, loc: Locator, els: seq<Element>, j: nat)
    ensures var s := ScanList(w, p, loc, els, j);
            && (!s.clicked ==> s.tried == ClickableFrom(loc, els, j))
            && |s.tried| <= |ClickableFrom(loc, els, j)|
            && (s.clicked ==> s.tried == ClickableFrom(loc, els, j)[..|s.tried|])
    decreases |els| - j
  {
    if j < |els| {
      ScanListTriesClickables(w, p, loc, els, j + 1);
      if Clickable(els[j]) {
        var x := w.react(p, Click(Handle(loc, j)));
        ScanListTriesClickables(w, x.page, loc, els, j + 1);
      }
    }
  }

  /** The outer loop: the locators in order, each list found on the page the
      previous locators left. */
  function ScanLocators(w: World, p: Page, locs: seq<Locator>): (s: ClickScan)
    ensures s.clicked ==> s.tried != []
    decreases |locs|
  {
    if locs == [] then ClickScan(p, 0, [], false)
    else
      var s := ScanList(w, p, locs[0], Find(p, locs[0]), 0);
      if s.clicked then s else Then(s.elapsedMs, s.tried, ScanLocators(w, s.page, locs[1..]))
  }

  /** The first clickable element on page p, scanning the locators in order. */
  function FirstClickable(p: Page, locs: seq<Locator>): Option<Handle>
    decreases |locs|
  {
    if locs == [] then None
    else if ClickableFrom(locs[0], Find(p, locs[0]), 0) != [] then Some(ClickableFrom(locs[0], Find(p, locs[0]), 0)[0])
    else FirstClickable(p, locs[1..])
  }

  lemma {:induction false} ClickableFromEmptyScan(w: World, p: Page, loc: Locator, els: seq<Element>, j: nat)
    requires ClickableFrom(loc, els, j) == []
    ensures ScanList(w, p, loc, els, j) == ClickScan(p, 0, [], false)
    decreases |els| - j
  {
    if j < |els| {
      ClickableFromEmptyScan(w, p, loc, els, j + 1);
    }
  }

  /** The scan first tries the first clickable element of the page it starts on
      (and tries nothing when there is none); when that click goes through, it is
      the only click. */
  lemma {:induction false} ScanTriesFirstClickable(w: World, p: Page, locs: seq<Locator>)
    ensures var s := ScanLocators(w, p, locs);
            && (s.tried == [] <==> FirstClickable(p, locs).None?)
            && (s.tried != [] ==> s.tried[0] == FirstClickable(p, locs).value)
    ensures FirstClickable(p, locs).Some? ==>
              var x := w.react(p, Click(FirstClickable(p, locs).value));
              x.result.Ok? ==> ScanLocators(w, p, locs) == ClickScan(x.page, x.elapsedMs, [FirstClickable(p, locs).value], true)
    decreases |locs|
  {
    if locs != [] {
      var els := Find(p, locs[0]);
      if ClickableFrom(locs[0], els, 0) == [] {
        ClickableFromEmptyScan(w, p, locs[0], els, 0);
        ScanTriesFirstClickable(w, p, locs[1..]);
        assert ScanLocators(w, p, locs) == Then(0, [], ScanLocators(w, p, locs[1..]));
      } else {
        FirstClickableInList(w, p, locs[0], els, 0);
      }
    }
  }

  lemma {:induction false} FirstClickableInList(w: World, p: Page, loc: Locator, els: seq<Element>, j: nat)
    requires ClickableFrom(loc, els, j) != []
    ensures var s := ScanList(w, p, loc, els, j);
            var h := ClickableFrom(loc, els, j)[0];
            && s.tried != [] && s.tried[0] == h
            && (w.react(p, Click(h)).result.Ok? ==>
                  s == ClickScan(w.react(p, Click(h)).page, w.react(p, Click(h)).elapsedMs, [h], true))
    decreases |els| - j
  {
    if !Clickable(els[j]) {
      FirstClickableInList(w, p, loc, els, j + 1);
    }
  }

  /** The click actions of a list of tried handles. */
  function Clicks(hs: seq<Handle>): (r: seq<Action>)
    ensures |r| == |hs|
  {
    if hs == [] then [] else [Click(hs[0])] + Clicks(hs[1..])
  }

  /** Clicking is all the scan does. */
  lemma {:induction false} ClicksOnlyClick(hs: seq<Handle>)
    ensures forall a | a in Clicks(hs) :: a.Click?
    decreases |hs|
  {
    if hs != [] {
      ClicksOnlyClick(hs[1..]);
    }
  }

  lemma {:induction false} ClicksAppend(a: seq<Handle>, b: seq<Handle>)
    ensures Clicks(a + b) == Clicks(a) + Clicks(b)
    decreases |a|
  {
    if a == [] {
      assert a + b == b;
    } else {
      assert (a + b)[1..] == a[1..] + b;
      ClicksAppend(a[1..], b);
    }
  }

  /** A log that grows by the clicks of two scans in turn. */
  lemma LogClicksAppend(log: seq<Action>, a: seq<Handle>, b: seq<Handle>)
    ensures log + Clicks(a) + Clicks(b) == log + Clicks(a + b)
  {
    ClicksAppend(a, b);
  }

  /** The inner scan passes over an element that cannot be clicked. */
  lemma ScanListSkip(whole: ClickScan, ms: nat, tried: seq<Handle>, w: World, p: Page, loc: Locator, els: seq<Element>, j: nat)
    requires j < |els| && !Clickable(els[j])
    requires whole == Then(ms, tried, ScanList(w, p, loc, els, j))
    ensures whole == Then(ms, tried, ScanList(w, p, loc, els, j + 1))
  {
  }

  /** The inner scan ends with a click that goes through. */
  lemma ScanListHit(whole: ClickScan, ms: nat, tried: seq<Handle>, w: World, p: Page, loc: Locator, els: seq<Element>, j: nat, x: Reaction)
    requires j < |els| && Clickable(els[j])
    requires x == w.react(p, Click(Handle(loc, j))) && x.result.Ok?
    requires whole == Then(ms, tried, ScanList(w, p, loc, els, j))
    ensures whole == ClickScan(x.page, ms + x.elapsedMs, tried + [Handle(loc, j)], true)
  {
  }

  /** The inner scan goes on after a click that throws. */
  lemma ScanListMiss(whole: ClickScan, ms: nat, tried: seq<Handle>, w: World, p: Page, loc: Locator, els: seq<Element>, j: nat, x: Reaction)
    requires j < |els| && Clickable(els[j])
    requires x == w.react(p, Click(Handle(loc, j))) && !x.result.Ok?
    requires whole == Then(ms, tried, ScanList(w, p, loc, els, j))
    ensures whole == Then(ms + x.elapsedMs, tried + [Handle(loc, j)], ScanList(w, x.page, loc, els, j + 1))
  {
    ThenThen(ms, tried, x.elapsedMs, [Handle(loc, j)], ScanList(w, x.page, loc, els, j + 1));
  }

  /** One step of the outer scan. */
  lemma ScanLocatorsStep(w: World, p: Page, locs: seq<Locator>)
    requires locs != []
    ensures var s := ScanList(w, p, locs[0], Find(p, locs[0]), 0);
            ScanLocators(w, p, locs) ==
              if s.clicked then s else Then(s.elapsedMs, s.tried, ScanLocators(w, s.page, locs[1..]))
  {
  }

  lemma ThenThen(m1: nat, t1: seq<Handle>, m2: nat, t2: seq<Handle>, s: ClickScan)
    ensures Then(m1, t1, Then(m2, t2, s)) == Then(m1 + m2, t1 + t2, s)
  {
    assert t1 + (t2 + s.tried) == (t1 + t2) + s.tried;
  }

  lemma ThenNothing(s: ClickScan)
    ensures Then(0, [], s) == s
  {
    assert [] + s.tried == s.tried;
  }

  /** The outer scan after the list of locator k, when that list clicked nothing. */
  lemma ScanLocatorsMiss(whole: ClickScan, ms: nat, tried: seq<Handle>, w: World, p: Page, locs: seq<Locator>, k: nat, s: ClickScan)
    requires k < |locs|
    requires whole == Then(ms, tried, ScanLocators(w, p, locs[k..]))
    requires s == ScanList(w, p, locs[k], Find(p, locs[k]), 0) && !s.clicked
    ensures whole == Then(ms + s.elapsedMs, tried + s.tried, ScanLocators(w, s.page, locs[k + 1..]))
  {
    assert locs[k..][0] == locs[k] && locs[k..][1..] == locs[k + 1..];
    ScanLocatorsStep(w, p, locs[k..]);
    ThenThen(ms, tried, s.elapsedMs, s.tried, ScanLocators(w, s.page, locs[k + 1..]));
  }

  /** The outer scan ends with the list of locator k when that list clicked. */
  lemma ScanLocatorsHit(whole: ClickScan, ms: nat, tried: seq<Handle>, w: World, p: Page, locs: seq<Locator>, k: nat, s: ClickScan)
    requires k < |locs|
    requires whole == Then(ms, tried, ScanLocators(w, p, locs[k..]))
    requires s == ScanList(w, p, locs[k], Find(p, locs[k]), 0) && s.clicked
    ensures whole == ClickScan(s.page, ms + s.elapsedMs, tried + s.tried, true)
  {
    assert locs[k..][0] == locs[k];
    ScanLocatorsStep(w, p, locs[k..]);
  }

  /** The inner loop of clickIfPresent: the elements one locator finds, in order. */
  method ClickFirstIn(d: Driver, loc: Locator) returns (clicked: bool)
    modifies d
    ensures var s := ScanList(d.world, old(d.page), loc, Find(old(d.page), loc), 0);
            && clicked == s.clicked
            && d.page == s.page && d.now == old(d.now) + s.elapsedMs
            && d.log == old(d.log) + Clicks(s.tried)
    ensures d.quits == old(d.quits)
  {
    ghost var w := d.world;
    ghost var p0 := d.page;
    ghost var now0 := d.now;
    ghost var log0 := d.log;
    ghost var tried: seq<Handle> := [];
    ghost var ms: nat := 0;
    var els := Find(d.page, loc);
    ghost var whole := ScanList(w, p0, loc, els, 0);
    ThenNothing(whole);
    var j := 0;
    while j < |els|
      invariant 0 <= j <= |els|
      invariant d.now == now0 + ms
      invariant whole == Then(ms, tried, ScanList(w, d.page, loc, els, j))
      invariant d.log == log0 + Clicks(tried) && d.quits == old(d.quits)
      decreases |els| - j
    {
      if Clickable(els[j]) {
        var h := Handle(loc, j);
        ghost var p := d.page;
        ghost var x := w.react(p, Click(h));
        var r := d.Perform(Click(h));
        LogClicksAppend(log0, tried, [h]);
        assert Clicks([h]) == [Click(h)];
        if r.Ok? {
          ScanListHit(whole, ms, tried, w, p, loc, els, j, x);
          return true;
        }
        ScanListMiss(whole, ms, tried, w, p, loc, els, j, x);
        tried := tried + [h];
        ms := ms + x.elapsedMs;
      } else {
        ScanListSkip(whole, ms, tried, w, d.page, loc, els, j);
      }
      j := j + 1;
    }
    assert tried + [] == tried;
    return false;
  }

  /**
   * clickIfPresent: for each locator in order, for each element it finds in order,
   * click the first that is displayed and enabled and report true; a click that
   * throws is ignored and the scan goes on; false when nothing was clicked.
   */
  method ClickIfPresent(d: Driver, locs: seq<Locator>) returns (clicked: bool)
    modifies d
    ensures var s := ScanLocators(d.world, old(d.page), locs);
            && clicked == s.clicked
            && d.page == s.page && d.now == old(d.now) + s.elapsedMs
            && d.log == old(d.log) + Clicks(s.tried)
    ensures d.quits == old(d.quits)
  {
    ghost var w := d.world;
    ghost var now0 := d.now;
    ghost var log0 := d.log;
    ghost var tried: seq<Handle> := [];
    ghost var ms: nat := 0;
    ghost var whole := ScanLocators(w, d.page, locs);
    ThenNothing(whole);
    var k := 0;
    while k < |locs|
      invariant 0 <= k <= |locs|
      invariant d.now == now0 + ms
      invariant whole == Then(ms, tried, ScanLocators(w, d.page, locs[k..]))
      invariant d.log == log0 + Clicks(tried) && d.quits == old(d.quits)
      decreases |locs| - k
    {
      ghost var p := d.page;
      ghost var s := ScanList(w, p, locs[k], Find(p, locs[k]), 0);
      var c := ClickFirstIn(d, locs[k]);
      LogClicksAppend(log0, tried, s.tried);
      if c {
        ScanLocatorsHit(whole, ms, tried, w, p, locs, k, s);
        return true;
      }
      ScanLocatorsMiss(whole, ms, tried, w, p, locs, k, s);
      tried := tried + s.tried;
      ms := ms + s.elapsedMs;
      k := k + 1;
    }
    assert locs[k..] == [];
    assert tried + [] == tried;
    return false;
  }
}

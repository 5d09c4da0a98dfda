/**
 * The browser as the automation sees it: a snapshot of the current page, the
 * actions that change it, and a Driver object that performs them against an
 * outside world and keeps a clock.
 *
 * Reading the page (cookies, URL, source, the elements a locator finds) never
 * fails; actions (navigation, clicks, typing, waits, screenshots) may fail with a
 * WebDriver fault, and how the page reacts to them is decided by the world.
 */
module Browser {

  import opened Wrappers
  import opened Errors

  /** The locators the automation uses, named after what they select. */
  datatype Locator =
    | ProfileMenuLabelContains   // summary[aria-label*='View profile']
    | ProfileMenuSummary         // summary[aria-label='View profile and more']
    | ProfileMenuDetails         // details[aria-label='View profile and more']
    | MetaUserLogin              // meta[name='user-login']
    | FlashError                 // .flash-error
    | OtpInput                   // input#otp, input[name='otp'], input[name='verification_code']
    | LoginField                 // #login_field
    | PasswordField              // #password
    | CommitInput                // input[name='commit']
    | ContinueButton             // //button[normalize-space()='Continue']
    | VerifyButton               // //button[normalize-space()='Verify']
    | ContinueLink               // //a[normalize-space()='Continue']
    | VerifyLink                 // //a[normalize-space()='Verify']
    | ContinueControl            // button or link whose lower-cased text contains 'continue'
    | VerifyControl              // button or link whose lower-cased text contains 'verify'
    | SubmitControl              // button[type='submit'], input[type='submit']
    | PasswordInput              // input[type='password']#password, input[name='password']
    | CommitOrSubmit             // input[name='commit'], button[type='submit']
    | HeadingNodes               // h1, h2, h3, .h0, .h1, .h2, .f0, .f1, .f2, .f3, strong, b, p, span, div
    | TextContains(phrase: string) // any element whose lower-cased normalised text contains phrase

  /** What an element reports. A stale element throws on every call. */
  datatype Element = Element(
    text: Option<string>,
    displayed: bool,
    enabled: bool,
    stale: bool,
    fontSize: Option<string>,   // getCssValue("font-size")
    content: Option<string>)    // getAttribute("content")

  /** A snapshot of the current page. `cookiesReadable` is false when reading the
      cookie jar throws. */
  datatype Page = Page(
    url: Option<string>,
    source: string,
    readyState: string,
    cookiesReadable: bool,
    cookies: map<string, Option<string>>,
    elements: map<Locator, seq<Element>>)

  /** findElements(locator): the matching elements in document order, possibly none. */
  function Find(p: Page, loc: Locator): seq<Element> {
    if loc in p.elements then p.elements[loc] else []
  }

  /** The element at a position of a locator's result list. */
  datatype Handle = Handle(loc: Locator, index: nat)

  /** The conditions the automation waits for; what they mean on a page is stated
      with the page predicates. */
  datatype Condition =
    | PageLoaded                 // document.readyState is "complete"
    | Presence(loc: Locator)     // presenceOfElementLocated
    | LoginOutcome               // profile menu, OTP input, device URL or error banner
    | Settled                    // logged in, mobile verification or OTP page

  datatype Action =
    | Navigate(url: string)
    | Refresh
    | Click(target: Handle)
    | Clear(target: Handle)
    | SendKeys(target: Handle, keys: string)
    | PressEnter(target: Handle)
    | Await(cond: Condition, seconds: nat)
    | CaptureViewport            // getScreenshotAs(BYTES)
    | CaptureFullPage            // the full-page PNG through the DevTools protocol

  /** How the world answers an action: the next page, the time it took and either
      the bytes produced (empty for actions that produce none) or a fault. */
  datatype Reaction = Reaction(page: Page, elapsedMs: nat, result: Result<seq<bv8>, DriverFault>)

  /** The browser and the site behind it: how the page reacts to each action, how
      it evolves while the automation sleeps, the message findElement reports when
      a locator matches nothing on a page, and the message of the TimeoutException
      a wait for a condition of so many seconds ends with on a page. */
  datatype World = World(react: (Page, Action) -> Reaction, idle: (Page, nat) -> Page,
                         missing: (Page, Locator) -> string,
                         timedOut: (Page, Condition, nat) -> string)

  /** A running browser session. */
  class Driver {
    var page: Page
    var now: int            // milliseconds
    ghost var log: seq<Action>
    ghost var quits: nat
    const world: World

    constructor (world: World, page: Page, now: int)
      ensures this.world == world && this.page == page && this.now == now
      ensures log == [] && quits == 0
    {
      this.world := world;
      this.page := page;
      this.now := now;
      log := [];
      quits := 0;
    }

    /** Performs one action; the world decides the new page, the time taken and
        whether it failed. */
    method Perform(a: Action) returns (r: Result<seq<bv8>, DriverFault>)
      modifies this
      ensures var x := world.react(old(page), a);
              page == x.page && now == old(now) + x.elapsedMs && r == x.result
      ensures log == old(log) + [a] && quits == old(quits)
    {
      var x := world.react(page, a);
      page := x.page;
      now := now + x.elapsedMs;
      log := log + [a];
      r := x.result;
    }

    /** Thread.sleep(ms): time passes and the page may change on its own. */
    method Sleep(ms: nat)
      modifies this
      ensures page == world.idle(old(page), ms) && now == old(now) + ms
      ensures log == old(log) && quits == old(quits)
    {
      page := world.idle(page, ms);
      now := now + ms;
    }

    /** driver.quit(); a failure to quit is ignored by every caller. */
    method Quit()
      modifies this
      ensures quits == old(quits) + 1
      ensures page == old(page) && now == old(now) && log == old(log)
    {
      quits := quits + 1;
    }
  }
}

/**
 * The exceptions of the screenshot pipeline. The three API exceptions share the
 * ApiException base class and prefix their reason with a fixed text; the others
 * are the WebDriver, I/O and runtime faults that reach the services unclassified.
 */
module Errors {

  import opened Wrappers
  import opened Text

  const LoginPrefix: string := "GitHub login failed: "
  const CapturePrefix: string := "Screenshot capture failed: "
  const EmailPrefix: string := "Email sending failed: "

  /** Selenium's WebDriverException and the two subclasses the login step treats apart. */
  datatype DriverFault =
    | Timeout(msg: string)          // TimeoutException
    | NoSuchElement(msg: string)    // NoSuchElementException
    | OtherDriver(msg: string)      // any other WebDriverException

  /** Subclasses of ApiException; `cause` is the wrapped exception, if any. */
  datatype ApiError =
    | GithubLogin(reason: string)
    | ScreenshotCapture(reason: string, cause: Option<Fault>)
    | EmailSend(reason: string)

  /** Anything a collaborator may throw. */
  datatype Fault =
    | Api(api: ApiError)
    | Driver(driver: DriverFault)
    | Io(ioMsg: string)             // java.io.IOException
    | Runtime(runtimeMsg: string)   // any other RuntimeException

  /** ApiException.getMessage(): the class's prefix followed by the reason. */
  function ApiMessage(e: ApiError): (m: string)
    ensures e.GithubLogin? ==> StartsWith(m, LoginPrefix)
    ensures e.ScreenshotCapture? ==> StartsWith(m, CapturePrefix)
    ensures e.EmailSend? ==> StartsWith(m, EmailPrefix)
  {
    match e
    case GithubLogin(r) => LoginPrefix + r
    case ScreenshotCapture(r, _) => CapturePrefix + r
    case EmailSend(r) => EmailPrefix + r
  }

  /** Throwable.getMessage() of any fault. */
  function Message(f: Fault): string {
    match f
    case Api(e) => ApiMessage(e)
    case Driver(d) => d.msg
    case Io(m) => m
    case Runtime(m) => m
  }

  /** The message alone tells which API exception was thrown and with which reason:
      the three prefixes already differ in their first character. */
  lemma ApiMessageDeterminesError(a: ApiError, b: ApiError)
    requires ApiMessage(a) == ApiMessage(b)
    ensures a.GithubLogin? <==> b.GithubLogin?
    ensures a.ScreenshotCapture? <==> b.ScreenshotCapture?
    ensures a.EmailSend? <==> b.EmailSend?
    ensures a.reason == b.reason
  {
    var m := ApiMessage(a);
    assert m[0] == ApiMessage(b)[0];
    match a
    case GithubLogin(r) =>
      assert b.GithubLogin? && m[|LoginPrefix|..] == r;
      assert ApiMessage(b)[|LoginPrefix|..] == b.reason;
    case ScreenshotCapture(r, _) =>
      assert b.ScreenshotCapture? && m[|CapturePrefix|..] == r;
      assert ApiMessage(b)[|CapturePrefix|..] == b.reason;
    case EmailSend(r) =>
      assert b.EmailSend? && m[|EmailPrefix|..] == r;
      assert ApiMessage(b)[|EmailPrefix|..] == b.reason;
  }
}

# GitHub screenshot mailer, modelled in Dafny

This project models the decision logic of the GitHub profile screenshot mailer. A request names a GitHub user and a recipient address. The service then:

- optionally signs in to GitHub with email and password, accepting only GitHub Mobile approval as the second factor;
- captures the user's profile page into a file under a daily directory;
- mails the file to the recipient;
- records the outcome (SUCCESS or FAILED) in the screenshot-record table.

A second operation lists recorded screenshots through an optional filter, with paging and sorting.

The browser, the disk, the mail transport and the database are modelled as Dafny classes. Each one's behaviour comes from a "world" oracle given as a parameter:

- `Browser.Driver` keeps the current page snapshot, the driver's clock in milliseconds, a log of the actions it performed and a count of `quit` calls. The snapshot holds cookies, the element lists per locator, the URL and the page source.
- `Collaborators.Disk` keeps its directories and files.
- `Collaborators.Mailer` keeps every attempted and every delivered mail.
- `Collaborators.Repository` keeps the committed rows, the rows pending in the open transaction, and every save attempt.

Operations that work step by step are methods that change the driver, disk, mailer or repository. Their contracts state the new state and the outcome in each case. Several of them are proved equal to a specification function of their inputs and the world:

- `clickIfPresent` (`GithubDom.ClickIfPresent` and `GithubDom.ClickFirstIn`);
- the OTP-to-mobile switch (`Automation.ClickPhrases`);
- the approval-digit extractor (`GithubMobile.SelectDigits` and `GithubMobile.ExtractMobileApprovalDigit`);
- the password re-entry (`Automation.ReenterPassword`, against `Automation.Reentry`);
- one approval poll and one round of the polling loop (`Automation.PollStep` and `Automation.PollRound`, against `Automation.PollActions`, with `Automation.PollSignsIn` saying when a poll ends the wait and `Automation.PollPage` the page it leaves).

The other methods, among them the login automaton, the whole polling loop and the pipeline, are specified directly by what their contracts promise. They have no separate specification function. The predicates, path and name construction, filter clauses, paging conversion and mappers are functions with lemmas.

Modules, by source file:

- `Automation`: `SeleniumAutomationService`, the login, approval wait and capture.
- `GithubDom` and `Browser`: `GithubDomUtil`, and the driver it queries.
- `GithubMobile`: `GithubMobileUtil`, approval-digit extraction and `parsePx`.
- `FileUtil`: the daily directory and the file name.
- `ListRequest`: `ListScreenshotRecordRequest.toSpecification`.
- `RecordSpecification`: `ScreenshotRecordSpecification` clauses as predicates on a row.
- `Paging`: `CustomSorting.toSort` and `CustomPagingRequest.toPageable`.
- `RecordMappers`: the three mappers.
- `Errors` and `Records`: the exception classes with their message prefixes, and the row, record and response shapes.
- `Collaborators`: disk, mailer and repository.
- `Pipeline`: `GithubScreenshotService` (`process`, `ensureDailyDir`, `persistFailure`, `getScreenshots`).
- `Text` and `Wrappers`: Java string operations (ASCII lower-casing, trimming, decimal rendering) and `Option`/`Result`.

Some of the model goes beyond the code:

- `CustomPaging` and `CustomPage` are not part of this model. Their behaviour comes from the repository's tests: `getPageNumber()` returns the 1-based number minus one (`CustomPagingTest.java:67-93`), and `CustomPage.of` reports the 1-based number back (`GithubScreenshotServiceTest.java:245-252`).
- The screenshotmailer entity does not declare `errorMessage`, but `persistFailure` sets it. The model gives every row an optional error message.
- `process` is annotated `@Transactional`. The model follows Spring's default for it: an unchecked exception leaving the method rolls the transaction back. This matters for the FAILED row; see "## Findings".

## Model

| member | source | states |
|---|---|---|
| Automation.ApprovalTimeoutSeconds | src/main/java/com/example/githubscreenshotmailer/screenshotmailer/service/SeleniumAutomationService.java:144 | the approval budget is the configured timeout raised to at least 30 seconds: at least both, and equal to one of them |
| Automation.PollSeconds | src/main/java/com/example/githubscreenshotmailer/screenshotmailer/service/SeleniumAutomationService.java:145 | the poll interval is the configured interval raised to at least 1 second: at least both, and equal to one of them |
| Automation.ChallengeSubjectNamesDigit | src/main/java/com/example/githubscreenshotmailer/screenshotmailer/service/SeleniumAutomationService.java:131 | the challenge subject always starts with the fixed text, and contains "confirm digit: d" exactly when a digit d was read |
| Automation.StoreChallengeShot | src/main/java/com/example/githubscreenshotmailer/screenshotmailer/service/SeleniumAutomationService.java:124-129 | a stored challenge shot lies in the `_auth` daily directory under the timestamped name and holds exactly the captured bytes |
| Automation.EmailMobileChallenge | src/main/java/com/example/githubscreenshotmailer/screenshotmailer/service/SeleniumAutomationService.java:120-141 | one viewport capture; if it was stored and a login email exists, exactly one mail to that address with the subject and body for the digit and the file attached; no other mail; storage and mail failures are swallowed |
| Automation.NudgeCounts | src/main/java/com/example/githubscreenshotmailer/screenshotmailer/service/SeleniumAutomationService.java:182-190 | over polls 1..n the nudges refresh exactly n/3 times and go back to the site root exactly n/5 times |
| Automation.Nudge | src/main/java/com/example/githubscreenshotmailer/screenshotmailer/service/SeleniumAutomationService.java:182-190 | poll number n adds a refresh exactly when n % 3 == 0 and a root visit exactly when n % 5 == 0, and sleeps accordingly |
| Automation.MailChallenge | src/main/java/com/example/githubscreenshotmailer/screenshotmailer/service/SeleniumAutomationService.java:131-139 | with a login e-mail exactly one mail with the digit's subject and body and the shot attached is attempted; without one nothing is sent |
| Automation.SubmitAction | src/main/java/com/example/githubscreenshotmailer/screenshotmailer/service/SeleniumAutomationService.java:172-176 | the re-entry submits with the commit or submit control exactly when the page has one, and presses Enter in the password field exactly when it has none |
| Automation.Reentry | src/main/java/com/example/githubscreenshotmailer/screenshotmailer/service/SeleniumAutomationService.java:168-180 | the re-entry runs clear, type, submit, settle wait, stopping at the first step that throws; it always starts with the clear and never reloads the page |
| Automation.ReentryOutcome | src/main/java/com/example/githubscreenshotmailer/screenshotmailer/service/SeleniumAutomationService.java:168-180 | the re-entry ends settled only when all four steps ran, the last being the six-second settle wait, and the page it returns is settled |
| Automation.ReenterPassword | src/main/java/com/example/githubscreenshotmailer/screenshotmailer/service/SeleniumAutomationService.java:168-180 | performs exactly the re-entry actions the world answers from the starting page, including the commit-click-or-Enter choice on the page after typing; leaves the page the re-entry ends on, and settled is exactly the re-entry's settled outcome |
| Automation.PollActions | src/main/java/com/example/githubscreenshotmailer/screenshotmailer/service/SeleniumAutomationService.java:154-180 | a poll on a page not yet signed in starts with the clicks of the approval-control scan; the poll never reloads the page |
| Automation.PollPage | src/main/java/com/example/githubscreenshotmailer/screenshotmailer/service/SeleniumAutomationService.java:154-180 | when the poll signs in, the page it leaves is signed in; with no password field after the approval scan, it leaves the page that scan left |
| Automation.PollStep | src/main/java/com/example/githubscreenshotmailer/screenshotmailer/service/SeleniumAutomationService.java:154-180 | performs exactly the poll actions: nothing on a signed-in page, else the approval-control clicks, then the password re-entry when no click signed in and a password field shows; done exactly when the poll signs in (already signed in, a click that signed in, or a re-entry that settled on a signed-in page), and leaves the poll's end page |
| Automation.CountPoll | src/main/java/com/example/githubscreenshotmailer/screenshotmailer/service/SeleniumAutomationService.java:182-198 | a poll that did not sign in adds exactly that poll's nudges; the loop is left only on an OTP page, otherwise after at least the poll interval |
| Automation.PollRound | src/main/java/com/example/githubscreenshotmailer/screenshotmailer/service/SeleniumAutomationService.java:152-198 | a round performs exactly the poll actions and then, when it counts a poll, that poll's nudges; it counts no poll exactly when the poll signed in; it exits only on a logged-in or OTP page, otherwise spends at least the poll interval |
| Automation.FinalCheck | src/main/java/com/example/githubscreenshotmailer/screenshotmailer/service/SeleniumAutomationService.java:201-207 | the final check visits the site root (and waits) and reports success only on a logged-in page |
| Automation.PollUntilBudget | src/main/java/com/example/githubscreenshotmailer/screenshotmailer/service/SeleniumAutomationService.java:152-199 | the loop ends early only on a logged-in or OTP page, otherwise only after the whole budget has elapsed on the driver's clock; the refresh and root-visit counts match the number of polls |
| Automation.WaitForMobileApproval | src/main/java/com/example/githubscreenshotmailer/screenshotmailer/service/SeleniumAutomationService.java:143-209 | returns only on a logged-in or OTP page; otherwise fails with "waiting for GitHub Mobile approval timed out" after the full budget; refreshes = polls/3, root visits = polls/5 plus the final check |
| Automation.SwitchScanMeaning | src/main/java/com/example/githubscreenshotmailer/screenshotmailer/service/SeleniumAutomationService.java:211-225 | the OTP switch reports success only on a mobile-verification page after at least one click, and clicks only listed phrases |
| Automation.SwitchScanOrder | src/main/java/com/example/githubscreenshotmailer/screenshotmailer/service/SeleniumAutomationService.java:211-225 | the clicked phrases are a subsequence of the list, so they are clicked in list order and each listed phrase at most once; on success the page is the one the last click led to |
| Automation.FirstPhraseSwitches | src/main/java/com/example/githubscreenshotmailer/screenshotmailer/service/SeleniumAutomationService.java:212-222 | when the first phrase is present and its click reaches the mobile page, the scan stops after exactly that one click |
| Automation.ClickPhrases | src/main/java/com/example/githubscreenshotmailer/screenshotmailer/service/SeleniumAutomationService.java:211-225 | the phrase loop ends with exactly the page, time, clicks and verdict of the phrase scan over its list, so it stops at the first phrase that reaches the mobile page |
| Automation.TrySwitchToMobileFromOtp | src/main/java/com/example/githubscreenshotmailer/screenshotmailer/service/SeleniumAutomationService.java:211-225 | the six fixed phrases are tried in order; returns true exactly when one click leads to a mobile-verification page |
| Automation.OpenLoginForm | src/main/java/com/example/githubscreenshotmailer/screenshotmailer/service/SeleniumAutomationService.java:67-71 | the login page is opened first; success means both form fields appeared and exactly the navigation and the two waits were performed |
| Automation.FillAndSubmit | src/main/java/com/example/githubscreenshotmailer/screenshotmailer/service/SeleniumAutomationService.java:73-82 | success means both fields were cleared and typed, the commit button clicked and a classifiable outcome page reached; the log only grows |
| Automation.SubmitForm | src/main/java/com/example/githubscreenshotmailer/screenshotmailer/service/SeleniumAutomationService.java:75-82 | a page without the commit button fails with the world's no-such-element message and changes nothing; otherwise the button is clicked first; success means an outcome page was reached after exactly the click and the wait |
| Automation.SubmitCredentials | src/main/java/com/example/githubscreenshotmailer/screenshotmailer/service/SeleniumAutomationService.java:67-82 | the login page is opened first; success means email and password were typed, the form submitted and a classifiable outcome page reached |
| Automation.ResolveApproval | src/main/java/com/example/githubscreenshotmailer/screenshotmailer/service/SeleniumAutomationService.java:86-90 | approval resolution ends on a logged-in or OTP page or fails with the approval timeout; the viewport is captured for the challenge mail first; only challenge mails are sent |
| Automation.ClassifyOutcome | src/main/java/com/example/githubscreenshotmailer/screenshotmailer/service/SeleniumAutomationService.java:84-110 | the outcome page is classified in the fixed precedence logged in, mobile approval, OTP, flash error, incomplete; a mobile page captures the challenge and ends signed in, timed out or OTP-unsupported; an OTP page ends signed in, OTP-unsupported or timed out; "incomplete" exactly when no case applies; success only on a logged-in page; only challenge mails are sent |
| Automation.Login | src/main/java/com/example/githubscreenshotmailer/screenshotmailer/service/SeleniumAutomationService.java:58-117 | missing credentials fail before any browser step; the outcome page is checked in the fixed precedence logged in, mobile approval, OTP, flash error; a mobile outcome captures the challenge and ends signed in, timed out or OTP-unsupported; a reached outcome page never ends "incomplete"; submit faults become login errors; success means logged in |
| Automation.ShootProfile | src/main/java/com/example/githubscreenshotmailer/screenshotmailer/service/SeleniumAutomationService.java:40-46 | a profile shot visits the profile, waits for the page and captures it; on success the target file holds exactly the captured bytes and no other file changes; on failure no file changes |
| Automation.CaptureSteps | src/main/java/com/example/githubscreenshotmailer/screenshotmailer/service/SeleniumAutomationService.java:36-46 | with login, a login failure is the result and the shot is taken from a signed-in page; success ends with the profile visit, page wait and capture, and the target holds exactly the captured bytes |
| Automation.CaptureFaultClassifies | src/main/java/com/example/githubscreenshotmailer/screenshotmailer/service/SeleniumAutomationService.java:48-51 | a WebDriver or I/O fault becomes a capture error carrying the original fault as cause and its message after the fixed prefix; a login error stays what it was; no fault becomes a mail error |
| Automation.CaptureProfileScreenshot | src/main/java/com/example/githubscreenshotmailer/screenshotmailer/service/SeleniumAutomationService.java:33-55 | the driver is quit exactly once on every path after launch; driver and file faults become "Screenshot capture failed" with their prefixes and cause; login errors pass unchanged; success leaves the captured bytes in the target file |
| Automation.FinalCheckCounts | src/main/java/com/example/githubscreenshotmailer/screenshotmailer/service/SeleniumAutomationService.java:201-203 | the final root visit adds exactly one root visit and no refresh to the polling counts |
| Browser.Driver.constructor | src/main/java/com/example/githubscreenshotmailer/screenshotmailer/service/SeleniumAutomationService.java:34 | a new session starts on the given page with an empty action log and no quit |
| Browser.Driver.Perform | src/main/java/com/example/githubscreenshotmailer/screenshotmailer/service/SeleniumAutomationService.java:40-45 | an action moves the page and clock as the world says, returns its result and is appended to the log |
| Browser.Driver.Sleep | src/main/java/com/example/githubscreenshotmailer/screenshotmailer/utils/GithubDomUtil.java:88-90 | a sleep advances the clock by exactly the delay and logs nothing |
| Browser.Driver.Quit | src/main/java/com/example/githubscreenshotmailer/screenshotmailer/service/SeleniumAutomationService.java:52-54 | quitting counts one quit and changes nothing else |
| GithubDom.UserSessionCookieSuffices | src/main/java/com/example/githubscreenshotmailer/screenshotmailer/utils/GithubDomUtil.java:15-20 | any readable `user_session` cookie, whatever its value, means logged in, and then the page is never a mobile-verification page |
| GithubDom.LoggedInCookieIgnoresCase | src/main/java/com/example/githubscreenshotmailer/screenshotmailer/utils/GithubDomUtil.java:21 | a lone `logged_in` cookie counts exactly when its value is "yes" ignoring case |
| GithubDom.LoggedInWithoutCookies | src/main/java/com/example/githubscreenshotmailer/screenshotmailer/utils/GithubDomUtil.java:25-37 | without cookies, logged in exactly when a profile-menu selector or the user-login meta tag is present |
| GithubDom.MobilePhraseMarksVerificationPage | src/main/java/com/example/githubscreenshotmailer/screenshotmailer/utils/GithubDomUtil.java:48-59 | a page whose lower-cased source holds one of the mobile phrases is a verification page exactly when not logged in |
| GithubDom.NoPhraseNoVerificationPage | src/main/java/com/example/githubscreenshotmailer/screenshotmailer/utils/GithubDomUtil.java:48-59 | with no verified-device URL and none of the phrases, the page is not a verification page |
| GithubDom.LoginOutcomeIsClassified | src/main/java/com/example/githubscreenshotmailer/screenshotmailer/service/SeleniumAutomationService.java:78-82 | the page the post-submit wait accepts is logged in, a mobile page, an OTP page or shows a flash error |
| GithubDom.WaitUntil | src/main/java/com/example/githubscreenshotmailer/screenshotmailer/service/SeleniumAutomationService.java:78-82 | an explicit wait succeeds exactly when the world's wait returns on a page meeting the condition; otherwise the driver fault, or a timeout with the world's TimeoutException message |
| GithubDom.FindByTextContains | src/main/java/com/example/githubscreenshotmailer/screenshotmailer/utils/GithubDomUtil.java:61-66 | the first element containing the text is returned exactly when one exists |
| GithubDom.Type | src/main/java/com/example/githubscreenshotmailer/screenshotmailer/utils/GithubDomUtil.java:83-86 | typing clears the field and then sends the text; a failure stops after the step that failed |
| GithubDom.ScanListTriesClickables | src/main/java/com/example/githubscreenshotmailer/screenshotmailer/utils/GithubDomUtil.java:70-79 | clicks are tried on displayed-and-enabled elements in order; without a successful click all of them were tried, otherwise a prefix of them |
| GithubDom.ScanTriesFirstClickable | src/main/java/com/example/githubscreenshotmailer/screenshotmailer/utils/GithubDomUtil.java:68-81 | the first click tried is the first clickable element over the locators in order, and if it succeeds the scan stops there |
| GithubDom.ClickFirstIn | src/main/java/com/example/githubscreenshotmailer/screenshotmailer/utils/GithubDomUtil.java:70-79 | the inner loop over one locator's elements ends exactly as the element scan, clicking at most once |
| GithubDom.ClickIfPresent | src/main/java/com/example/githubscreenshotmailer/screenshotmailer/utils/GithubDomUtil.java:68-81 | the nested loop ends with exactly the page, time, tried clicks and verdict of the locator scan; true exactly when a click succeeded |
| GithubMobile.MatchApprovalDigitsComplete | src/main/java/com/example/githubscreenshotmailer/utils/GithubMobileUtil.java:18 | 2 or 3 digits surrounded by whitespace match, and the match is the digits alone |
| GithubMobile.MatchApprovalDigitsSound | src/main/java/com/example/githubscreenshotmailer/utils/GithubMobileUtil.java:27-28 | every match is 2 or 3 digits that make up the whole text apart from surrounding whitespace |
| GithubMobile.ParsePx | src/main/java/com/example/githubscreenshotmailer/utils/GithubMobileUtil.java:42-51 | a missing font size parses as 0 |
| GithubMobile.ParsePxReadsPixels | src/main/java/com/example/githubscreenshotmailer/utils/GithubMobileUtil.java:42-51 | a decimal size with an optional "px" in any case and surrounding whitespace parses as its value |
| GithubMobile.ReadNode | src/main/java/com/example/githubscreenshotmailer/utils/GithubMobileUtil.java:22-37 | a node counts exactly when it is not stale, is displayed and its text matches the digit pattern |
| GithubMobile.BestDominates | src/main/java/com/example/githubscreenshotmailer/utils/GithubMobileUtil.java:32-35 | the pick's size is at least every matching node's size and at least -1 |
| GithubMobile.BestFindsIff | src/main/java/com/example/githubscreenshotmailer/utils/GithubMobileUtil.java:19-39 | no digits are picked exactly when no matching node has a size above -1 |
| GithubMobile.BestIsFirstLargest | src/main/java/com/example/githubscreenshotmailer/utils/GithubMobileUtil.java:32-35 | the picked digits come from a matching node whose size is strictly larger than every earlier match, so ties go to the earlier node |
| GithubMobile.SelectDigits | src/main/java/com/example/githubscreenshotmailer/utils/GithubMobileUtil.java:19-39 | the node loop returns exactly the pick of the largest-font matching node |
| GithubMobile.ExtractMobileApprovalDigit | src/main/java/com/example/githubscreenshotmailer/utils/GithubMobileUtil.java:13-40 | the extractor waits 500 ms, reads the heading nodes and returns the pick of their readings without acting on the page |
| FileUtil.DailyDir | src/main/java/com/example/githubscreenshotmailer/screenshotmailer/utils/FileUtil.java:14-22 | the daily directory is the base extended by three segments, month and day two characters each |
| FileUtil.DailyDirSegments | src/main/java/com/example/githubscreenshotmailer/screenshotmailer/utils/FileUtil.java:16-19 | the three segments read back as the year, month and day |
| FileUtil.DailyDirInjective | src/test/java/com/example/githubscreenshotmailer/screenshotmailer/utils/FileUtilTest.java:35-38 | equal daily directories come from equal dates, so a date always names the same directory and no other date shares it |
| FileUtil.SuggestPngName | src/main/java/com/example/githubscreenshotmailer/screenshotmailer/utils/FileUtil.java:24-26 | the name starts with the user and "_", ends with ".png" and has the uuid in between |
| FileUtil.SuggestPngNameRoundTrip | src/main/java/com/example/githubscreenshotmailer/screenshotmailer/utils/FileUtil.java:25 | the uuid can be read back from the name |
| FileUtil.SuggestPngNameInjective | src/main/java/com/example/githubscreenshotmailer/screenshotmailer/utils/FileUtil.java:25 | distinct uuids give distinct names for one user |
| FileUtil.SuggestPngNameDeterminesUser | src/main/java/com/example/githubscreenshotmailer/screenshotmailer/utils/FileUtil.java:25 | with uuid-shaped tokens the name determines both the user and the uuid |
| Collaborators.EnsureDailyDir | src/main/java/com/example/githubscreenshotmailer/screenshotmailer/utils/FileUtil.java:14-22 | the daily directory is created with its ancestors and returned, or the disk fault is reported with directories unchanged |
| ListRequest.ToSpecification | src/main/java/com/example/githubscreenshotmailer/screenshotmailer/model/dto/request/ListScreenshotRecordRequest.java:55-100 | no filter gives no specification; otherwise no clauses give none and any clauses give their AND |
| ListRequest.ClauseOrder | src/main/java/com/example/githubscreenshotmailer/screenshotmailer/model/dto/request/ListScreenshotRecordRequest.java:64-95 | clauses come in the fixed field order, at most eight of them |
| ListRequest.PresentFieldsAddTheirClause | src/main/java/com/example/githubscreenshotmailer/screenshotmailer/model/dto/request/ListScreenshotRecordRequest.java:64-95 | each clause is present exactly when its field is, with that field's value |
| ListRequest.DateRangeClauses | src/main/java/com/example/githubscreenshotmailer/screenshotmailer/model/dto/request/ListScreenshotRecordRequest.java:74-83 | both dates give one between clause; only from gives after; only to gives before |
| ListRequest.ToSpecificationMeansAccepts | src/main/java/com/example/githubscreenshotmailer/screenshotmailer/model/dto/request/ListScreenshotRecordRequest.java:55-100 | the built specification admits a record exactly when every present filter field admits it |
| ListRequest.DateBoundQuirk | src/main/java/com/example/githubscreenshotmailer/screenshotmailer/model/dto/specification/ScreenshotRecordSpecification.java:56-82 | with from = to = d a record sent at d is admitted, yet with only from = d it is not |
| RecordSpecification.FileNameLikeIsSubstring | src/main/java/com/example/githubscreenshotmailer/screenshotmailer/model/dto/specification/ScreenshotRecordSpecification.java:94-97 | without wildcards in the keyword, fileNameLike is a case-insensitive substring test |
| RecordSpecification.SearchIsSubstring | src/main/java/com/example/githubscreenshotmailer/screenshotmailer/model/dto/specification/ScreenshotRecordSpecification.java:105-114 | search is that substring test on username, email or file name |
| RecordSpecification.FileNameLikeImpliesSearch | src/main/java/com/example/githubscreenshotmailer/screenshotmailer/model/dto/specification/ScreenshotRecordSpecification.java:94-114 | whatever matches fileNameLike also matches search |
| RecordSpecification.TextClausesIgnoreKeywordCase | src/main/java/com/example/githubscreenshotmailer/screenshotmailer/model/dto/specification/ScreenshotRecordSpecification.java:94-114 | keywords equal up to case select the same records |
| RecordSpecification.BetweenIncludesBounds | src/main/java/com/example/githubscreenshotmailer/screenshotmailer/model/dto/specification/ScreenshotRecordSpecification.java:56-82 | between includes both ends while after and before exclude them |
| RecordSpecification.AndAllMatches | src/main/java/com/example/githubscreenshotmailer/screenshotmailer/model/dto/request/ListScreenshotRecordRequest.java:98 | the AND of clauses matches exactly when every clause holds |
| RecordSpecification.LikeContains | src/main/java/com/example/githubscreenshotmailer/screenshotmailer/model/dto/specification/ScreenshotRecordSpecification.java:96 | the pattern "%k%" matches exactly the texts containing k |
| Paging.ToSort | src/main/java/com/example/githubscreenshotmailer/common/model/dto/request/CustomSorting.java:26-34 | blank or missing property gives no sort; otherwise one order on it, descending exactly for "DESC" in any case |
| Paging.ToSortIgnoresDirectionCase | src/main/java/com/example/githubscreenshotmailer/common/model/dto/request/CustomSorting.java:28-30 | directions equal up to case give the same sort |
| Paging.OtherDirectionsAscend | src/main/java/com/example/githubscreenshotmailer/common/model/dto/request/CustomSorting.java:28-31 | any other or missing direction gives one ascending order |
| Paging.ToPageable | src/main/java/com/example/githubscreenshotmailer/common/model/dto/request/CustomPagingRequest.java:33-42 | a valid request gives the zero-based page of the 1-based number, the size unchanged and its sort (or none); an invalid number or size is an error |
| Paging.ValidPagingConverts | src/main/java/com/example/githubscreenshotmailer/common/model/dto/request/CustomPagingRequest.java:36-40 | page number at least 1 and size at least 1 always convert, to page index number - 1 |
| Paging.PageNumberRoundTrip | src/test/java/com/example/githubscreenshotmailer/common/model/CustomPagingTest.java:67-93 | the zero-based index reads back as the client's page number |
| RecordMappers.MapFromEntity | src/main/java/com/example/githubscreenshotmailer/screenshotmailer/model/mapper/ScreenshotRecordEntityToScreenshotRecordMapper.java:22-34 | null maps to null; otherwise the record keeps the id as imageId and the status |
| RecordMappers.MapEntities | src/main/java/com/example/githubscreenshotmailer/screenshotmailer/model/mapper/ScreenshotRecordEntityToScreenshotRecordMapper.java:42-48 | a null collection gives an empty list; otherwise the non-null entities are mapped in order |
| RecordMappers.MapEntitiesCovers | src/main/java/com/example/githubscreenshotmailer/screenshotmailer/model/mapper/ScreenshotRecordEntityToScreenshotRecordMapper.java:42-48 | every non-null entity appears mapped in the result |
| RecordMappers.MapEntitiesAppend | src/main/java/com/example/githubscreenshotmailer/screenshotmailer/model/mapper/ScreenshotRecordEntityToScreenshotRecordMapper.java:42-48 | mapping a concatenation is the concatenation of the mappings, so order is kept |
| RecordMappers.MapToResponse | src/main/java/com/example/githubscreenshotmailer/screenshotmailer/model/mapper/ScreenshotRecordToScreenshotResponseMapper.java:22-36 | null maps to null; the status is present exactly when the record's is |
| RecordMappers.ResponseStatusRoundTrip | src/main/java/com/example/githubscreenshotmailer/screenshotmailer/model/mapper/ScreenshotRecordToScreenshotResponseMapper.java:34 | the status name reads back as the record's status |
| RecordMappers.MapRecords | src/main/java/com/example/githubscreenshotmailer/screenshotmailer/model/mapper/ScreenshotRecordToScreenshotResponseMapper.java:44-50 | a null collection gives an empty list; otherwise the non-null records are mapped in order |
| RecordMappers.EntityToResponseStatus | src/main/java/com/example/githubscreenshotmailer/screenshotmailer/model/mapper/ScreenshotRecordToScreenshotResponseMapper.java:34 | two mapping steps turn each entity's status into its name |
| RecordMappers.ToScreenshotResponseList | src/main/java/com/example/githubscreenshotmailer/screenshotmailer/model/mapper/CustomPageScreenshotRecordToCustomPagingScreenshotResponseMapper.java:47-52 | content is mapped element by element with MapToResponse, same length, keeping nulls where they were |
| RecordMappers.PageListAgreesWithCollection | src/main/java/com/example/githubscreenshotmailer/screenshotmailer/model/mapper/CustomPageScreenshotRecordToCustomPagingScreenshotResponseMapper.java:47-52 | with no nulls, the page content mapping equals the collection mapper |
| RecordMappers.ToPagingResponse | src/main/java/com/example/githubscreenshotmailer/screenshotmailer/model/mapper/CustomPageScreenshotRecordToCustomPagingScreenshotResponseMapper.java:29-39 | null maps to null; numbers are copied and the content is the mapped list of the page's records |
| Records.StatusNameRoundTrip | src/main/java/com/example/githubscreenshotmailer/screenshotmailer/model/mapper/ScreenshotRecordToScreenshotResponseMapper.java:34 | a status name reads back as that status |
| Errors.ApiMessage | src/main/java/com/example/githubscreenshotmailer/screenshotmailer/exception/GithubLoginException.java:12-14 | each exception message starts with its class's prefix |
| Errors.ApiMessageDeterminesError | src/main/java/com/example/githubscreenshotmailer/screenshotmailer/exception/ScreenshotCaptureException.java:12-15 | a message determines the exception kind and its reason |
| Collaborators.Disk.CreateDirectories | src/main/java/com/example/githubscreenshotmailer/screenshotmailer/utils/FileUtil.java:16-20 | on success the directory and all its ancestors exist; on a fault nothing changes |
| Collaborators.Disk.Write | src/main/java/com/example/githubscreenshotmailer/screenshotmailer/service/SeleniumAutomationService.java:45 | writing needs an existing parent directory; on success exactly that file holds the bytes |
| Collaborators.Disk.Size | src/main/java/com/example/githubscreenshotmailer/screenshotmailer/service/GithubScreenshotService.java:55 | the size is the length of the file's bytes, or an I/O fault |
| Collaborators.Mailer.SendScreenshot | src/main/java/com/example/githubscreenshotmailer/screenshotmailer/service/MailService.java:20-36 | every send is recorded; a messaging fault becomes "SMTP send error", a transport fault a runtime fault, success a delivery |
| Collaborators.Repository.Save | src/main/java/com/example/githubscreenshotmailer/screenshotmailer/service/GithubScreenshotService.java:77 | every save attempt is recorded; on success the stored row (with an id) joins the open transaction |
| Collaborators.Repository.Commit | src/main/java/com/example/githubscreenshotmailer/screenshotmailer/service/GithubScreenshotService.java:42 | a commit makes the pending rows permanent |
| Collaborators.Repository.Rollback | src/main/java/com/example/githubscreenshotmailer/screenshotmailer/service/GithubScreenshotService.java:42 | a rollback discards the pending rows |
| Collaborators.Repository.FindAll | src/main/java/com/example/githubscreenshotmailer/screenshotmailer/service/GithubScreenshotService.java:105-106 | the page holds the window of committed rows matching the specification, with the total count and page count |
| Collaborators.Window | src/main/java/com/example/githubscreenshotmailer/screenshotmailer/service/GithubScreenshotService.java:105-106 | a page holds at most size rows of the list, and is non-empty when it starts inside the list |
| Collaborators.PageCount | src/main/java/com/example/githubscreenshotmailer/screenshotmailer/service/GithubScreenshotService.java:105-106 | the page count is the least number of pages covering all rows |
| Collaborators.Matching | src/main/java/com/example/githubscreenshotmailer/screenshotmailer/service/GithubScreenshotService.java:103-106 | the matching rows are exactly the rows the specification accepts |
| Pipeline.PrepareTarget | src/main/java/com/example/githubscreenshotmailer/screenshotmailer/service/GithubScreenshotService.java:44-48 | the target is the daily directory plus the suggested name; a directory failure is "cannot create screenshot directory" with an I/O cause and no change |
| Pipeline.ProfileMailIsNoChallenge | src/main/java/com/example/githubscreenshotmailer/screenshotmailer/service/GithubScreenshotService.java:61 | the profile mail can never be taken for a challenge mail |
| Pipeline.NoProfileMailAmongChallenges | src/main/java/com/example/githubscreenshotmailer/screenshotmailer/service/GithubScreenshotService.java:59-64 | the profile mail is not among the mails the capture step sends |
| Pipeline.OutcomeRowsDiffer | src/main/java/com/example/githubscreenshotmailer/screenshotmailer/service/GithubScreenshotService.java:67-77 | success rows carry status SUCCESS and no error; failed rows carry FAILED, the error and the file name or "N/A" |
| Pipeline.RethrownMessage | src/main/java/com/example/githubscreenshotmailer/screenshotmailer/service/GithubScreenshotService.java:82-88 | an API exception is rethrown unchanged; anything else becomes "unexpected error" with the original as cause |
| Pipeline.SizeAndMail | src/main/java/com/example/githubscreenshotmailer/screenshotmailer/service/GithubScreenshotService.java:55-64 | the size is read first; a size fault means no mail; otherwise exactly one profile mail is attempted |
| Pipeline.CaptureAndMail | src/main/java/com/example/githubscreenshotmailer/screenshotmailer/service/GithubScreenshotService.java:52-64 | mail is attempted only after a successful capture; a launch fault is returned as a driver fault; after the capture the file holds the captured bytes; success means the size is that of the capture and the profile mail was delivered |
| Pipeline.Attempt | src/main/java/com/example/githubscreenshotmailer/screenshotmailer/service/GithubScreenshotService.java:52-80 | capture, mail and save run in order, each only after the previous succeeded; after the capture the file holds the captured bytes; success saves exactly one SUCCESS row with the file size |
| Pipeline.PersistFailure | src/main/java/com/example/githubscreenshotmailer/screenshotmailer/service/GithubScreenshotService.java:116-132 | one FAILED row is attempted; a failing save is swallowed |
| Pipeline.Run | src/main/java/com/example/githubscreenshotmailer/screenshotmailer/service/GithubScreenshotService.java:43-88 | a directory failure stops everything; past the capture the file holds the captured bytes; success returns the mapping of the saved SUCCESS row; any failure saves one FAILED row with the error's message and rethrows the error or its wrapper; the cause is the launch fault, a capture error, an I/O error on the size, the mail error or a runtime error on the save, by stage |
| Pipeline.ProcessAsWritten | src/main/java/com/example/githubscreenshotmailer/screenshotmailer/service/GithubScreenshotService.java:42-88 | as written: a failure rethrown from the transactional method leaves the committed rows unchanged, so the FAILED row is lost; success commits one SUCCESS row |
| Pipeline.Process | src/main/java/com/example/githubscreenshotmailer/screenshotmailer/service/GithubScreenshotService.java:42-88 | with commit on every exit, a failure commits exactly the one FAILED row (when its save works) and success one SUCCESS row whose mapping is returned; the rethrown cause is fixed by the failing stage; past the capture the file holds the captured bytes |
| Pipeline.MatchingIsAdmitted | src/main/java/com/example/githubscreenshotmailer/screenshotmailer/model/dto/request/ListScreenshotRecordRequest.java:55-100 | filtering committed rows by the built specification keeps exactly the rows the filter admits |
| Pipeline.GetScreenshots | src/main/java/com/example/githubscreenshotmailer/screenshotmailer/service/GithubScreenshotService.java:99-114 | a bad page request is rejected; otherwise the page of admitted committed rows, mapped, with its 1-based number, size, totals and page count |

## Left out

- `Double.parseDouble` in `parsePx` is modelled on exact reals. It reads decimal notation: a sign, a mantissa, an exponent and a type suffix. Hexadecimal forms, "NaN" and "Infinity" do not parse, which yields 0. Rounding to binary64 is not modelled.
- `String.toLowerCase` is modelled as ASCII-only lower-casing. XPath `normalize-space` and `translate` in the Continue/Verify locators are opaque locators whose element lists come from the page snapshot.
- The lookup in `findByTextContains` is one opaque locator per phrase. Its element list is part of the snapshot.
- SQL `LIKE` is modelled with `%` and `_` wildcards. The substring statements assume the keyword contains neither of them and no `\`, the usual escape character. The source escapes none of the three.
- `Paging.ToSort` compares the direction with `equalsIgnoreCase` modelled as ASCII-only case folding. Java also folds non-ASCII letters; this does not change the outcome for "asc" and "desc".
- `Browser.Driver`: page reads never fail. `findElements`, `getAttribute`, `getCurrentUrl` and `getPageSource` read the page snapshot, and only actions and sleeps change the page. In the source, the page can change between two reads, and a read can throw. Three members are therefore stronger than the source:
  - `Automation.WaitForMobileApproval` can fail only with the approval timeout.
  - `Automation.ClassifyOutcome` and `Automation.Login` never end with "login did not complete" (`SeleniumAutomationService.java:110`) after a recognised outcome page. The outcome wait guarantees one of the four outcomes, and the model reads the same page for each check.
- `Collaborators.Repository.FindAll` does not apply the requested sort to the rows; only filtering and the page window are modelled.
- `Pipeline.GetScreenshots` returns a page for every valid paging request. In the source, Spring's `findAll` throws `PropertyReferenceException` when `sortBy` names no property of the screenshot entity. One example is "eventId", which the comment at `CustomSorting.java:18` gives as a sort property. The model leaves out this error path, because the sort is not modelled.
- `Automation.PollUntilBudget` states the reload counts of the whole loop, not the sequence of its rounds. Each round's actions, and whether it counts a poll, are stated by `Automation.PollRound` against `Automation.RoundActions` and `Automation.PollSignsIn`.
- The real clock, sleeping, `LocalDate.now`, `LocalDateTime.now` and `UUID.randomUUID` are parameters. The driver's clock advances by each sleep and by the latency the world reports for each action; the date, timestamp and uuid are inputs.
- `Path.toAbsolutePath` is left out. The configured screenshot directory is taken as already absolute.
- The digit re-reads at `SeleniumAutomationService.java:150` and `:192` only feed a log line. They are modelled as their 500 ms wait and nothing else.
- Logging is left out.
- `ScreenshotUtil.captureFullPagePng` (the DevTools calls and base64 decoding) is one capture action whose bytes or fault come from the world. The viewport capture of the challenge mail is another.
- Launching Chrome with `ChromeOptionsUtil` is a launch parameter that either gives a session or a driver fault.
- SMTP message building and `MailConfig` are left out. A send either delivers or fails with a messaging or a transport fault chosen by the world.
- Controllers, the global exception handler, the OpenAPI configuration and the legacy copies of the services under `service/`, `model/` and `exception/` are left out. The legacy copies repeat the logic modelled here.
- `Browser.Driver.Quit`: a failure of `driver.quit()` is swallowed by the source, so the model treats quit as always completing.
- An exception message is always a string; a null message is not modelled.
- `Math.toIntExact` overflow in `toPageable` is left out: page numbers and sizes are unbounded integers.
- After a failed save, Spring may mark the transaction rollback-only. The model does not: a failed save leaves the rows already pending in place.

## Findings

| source | as written | input that shows it | evidently intended | confidence | as-written member | corrected member |
|---|---|---|---|---|---|---|
| src/main/java/com/example/githubscreenshotmailer/screenshotmailer/service/GithubScreenshotService.java:42-88 | `process` is `@Transactional` with the default rollback rule. `persistFailure` saves the FAILED row inside that transaction, and `process` then rethrows an `ApiException`, which is unchecked, so the transaction is rolled back and the FAILED row is discarded | a request whose mail send fails with a `MessagingException`: `EmailSendException("SMTP send error")` is rethrown and the committed rows are unchanged | the FAILED row written by `persistFailure` is kept (for example `noRollbackFor = ApiException.class`, or the failure saved in its own transaction) | not executed; follows from Spring's documented default rollback for unchecked exceptions | Pipeline.ProcessAsWritten | Pipeline.Process |

/**
 * The screenshot service: capture a profile, mail it, record the outcome, all in
 * one transaction; and the paged listing of the stored records.
 *
 * The repository keeps the rows of the open transaction pending until it ends.
 * A transactional method that returns commits them, and one that ends with a
 * runtime exception rolls them back. Every API exception is a runtime exception.
 */
module Pipeline {

  import opened Wrappers
  import opened Text
  import opened Errors
  import opened Records
  import opened RecordMappers
  import opened FileUtil
  import opened RecordSpecification
  import opened ListRequest
  import opened Paging
  import opened Collaborators
  import opened Automation
  import Browser

  const SubjectPrefix: string := "[GitHub] Profile screenshot: "
  const BodyPrefix: string := "Attached is the requested GitHub profile screenshot for user: "
  const NotAvailable: string := "N/A"
  const DirectoryFailure: string := "cannot create screenshot directory"
  const UnexpectedError: string := "unexpected error"

  // ---------------------------------------------------------------------------
  // What the service builds
  // ---------------------------------------------------------------------------

  /** The mail carrying the screenshot to the recipient. */
  function ProfileMail(req: ScreenshotRequest, file: Path): Mail {
    Mail(req.recipientEmail, SubjectPrefix + req.githubUsername, BodyPrefix + req.githubUsername, Some(file))
  }

  /** The profile mail is never taken for a sign-in challenge mail: the two
      subjects differ at their tenth character. */
  lemma ProfileMailIsNoChallenge(req: ScreenshotRequest, file: Path)
    ensures !IsChallengeMail(ProfileMail(req, file))
  {
    var s := ProfileMail(req, file).subject;
    assert s[9] == 'P';
    assert ChallengeBase[9] == 'M';
  }

  /** When only challenge mails were sent, the recipient got no profile mail. */
  lemma NoProfileMailAmongChallenges(before: seq<Mail>, after: seq<Mail>, req: ScreenshotRequest, file: Path)
    requires OnlyChallengeMailsAdded(before, after)
    ensures forall k | |before| <= k < |after| :: after[k] != ProfileMail(req, file)
  {
    ProfileMailIsNoChallenge(req, file);
  }

  /** The challenge mails so far, then the profile mail. */
  predicate ProfileMailAdded(before: seq<Mail>, after: seq<Mail>, m: Mail) {
    && |after| >= 1 && after[|after| - 1] == m
    && OnlyChallengeMailsAdded(before, after[..|after| - 1])
  }

  /** Lines 67-75: the SUCCESS row of a mailed screenshot. */
  function SuccessEntity(req: ScreenshotRequest, fileName: string, file: Path, size: nat, sentAt: Instant): Entity {
    Entity(None, req.githubUsername, req.recipientEmail, fileName, PathText(file), size, sentAt, SUCCESS, None)
  }

  /** Lines 118-127: the FAILED row: no path, no size, the message of the failure. */
  function FailedEntity(req: ScreenshotRequest, fileName: Option<string>, error: string, failedAt: Instant): Entity {
    Entity(None, req.githubUsername, req.recipientEmail,
           if fileName.Some? then fileName.value else NotAvailable,
           NotAvailable, 0, failedAt, FAILED, Some(error))
  }

  /** A status filter tells the two outcomes apart, and only failed rows carry a
      message; a FAILED row names its file or, without one, reads "N/A". */
  lemma OutcomeRowsDiffer(req: ScreenshotRequest, fileName: string, file: Path, size: nat, sentAt: Instant,
                          name: Option<string>, error: string, failedAt: Instant)
    ensures Holds(HasStatus(SUCCESS), SuccessEntity(req, fileName, file, size, sentAt))
    ensures !Holds(HasStatus(SUCCESS), FailedEntity(req, name, error, failedAt))
    ensures Holds(HasStatus(FAILED), FailedEntity(req, name, error, failedAt))
    ensures !Holds(HasStatus(FAILED), SuccessEntity(req, fileName, file, size, sentAt))
    ensures SuccessEntity(req, fileName, file, size, sentAt).errorMessage.None?
    ensures FailedEntity(req, name, error, failedAt).errorMessage == Some(error)
    ensures FailedEntity(req, name, error, failedAt).fileName == if name.Some? then name.value else "N/A"
  {
  }

  /** Lines 82-88: what leaves the service for a failure: an API exception as it
      is, anything else wrapped as an unexpected capture error. */
  function Rethrown(f: Fault): (r: Fault)
    ensures r.Api?
  {
    if f.Api? then f else Api(ScreenshotCapture(UnexpectedError, Some(f)))
  }

  /** API errors keep their message; every other failure reads "Screenshot capture
      failed: unexpected error" and keeps the original as its cause. */
  lemma RethrownMessage(f: Fault)
    ensures f.Api? ==> Message(Rethrown(f)) == Message(f)
    ensures !f.Api? ==> Message(Rethrown(f)) == CapturePrefix + UnexpectedError
                        && Rethrown(f).api.cause == Some(f)
  {
  }

  // ---------------------------------------------------------------------------
  // process
  // ---------------------------------------------------------------------------

  /** Lines 44-48 and 91-97: the daily directory under the screenshot root and
      the file in it; a failure to create the directory becomes a capture error. */
  method PrepareTarget(disk: Disk, base: Path, today: Date, user: string, uuid: string)
    returns (r: Result<Path, Fault>)
    modifies disk
    ensures r.Ok? <==> disk.world.createFault(old(disk.dirs), DailyDir(base, today)).None?
    ensures r.Ok? ==> r.value == DailyDir(base, today) + [SuggestPngName(user, uuid)]
                      && Parent(r.value) in disk.dirs
    ensures r.Err? ==> && r.error.Api? && r.error.api.ScreenshotCapture?
                       && r.error.api.reason == DirectoryFailure
                       && r.error.api.cause.Some? && r.error.api.cause.value.Io?
                       && disk.dirs == old(disk.dirs)
    ensures disk.files == old(disk.files)
  {
    var dir := EnsureDailyDir(disk, base, today);
    if dir.Err? {
      return Err(Api(ScreenshotCapture(DirectoryFailure, Some(dir.error))));
    }
    var target := dir.value + [SuggestPngName(user, uuid)];
    assert Parent(target) == dir.value;
    return Ok(target);
  }

  /** How far the try block of process got. */
  datatype Stage = CaptureFailed | SizeFailed | MailFailed | SaveFailed | Saved

  /** Lines 55-64: read the size of the saved file and mail it. */
  method SizeAndMail(disk: Disk, mailer: Mailer, req: ScreenshotRequest, file: Path)
    returns (r: Result<nat, Fault>, ghost stage: Stage)
    modifies mailer
    ensures stage in {SizeFailed, MailFailed, Saved}
    ensures r.Ok? <==> stage == Saved
    ensures stage == SizeFailed ==> r.error.Io? && mailer.attempts == old(mailer.attempts)
    ensures stage != SizeFailed ==> mailer.attempts == old(mailer.attempts) + [ProfileMail(req, file)]
    ensures stage == MailFailed ==> r.error == Api(EmailSend("SMTP send error")) || r.error.Runtime?
    ensures r.Ok? ==> && file in disk.files && r.value == |disk.files[file]|
                      && mailer.delivered == old(mailer.delivered) + [ProfileMail(req, file)]
  {
    var size := disk.Size(file);
    if size.Err? {
      return Err(size.error), SizeFailed;
    }
    var sent := mailer.SendScreenshot(ProfileMail(req, file));
    if sent.Some? {
      return Err(sent.value), MailFailed;
    }
    return Ok(size.value), Saved;
  }

  /** Lines 52-64: capture the profile, read the file size and mail the file.
      `size` is the size read when the mail was attempted. */
  method CaptureAndMail(props: Props, launch: Launch, clock: Clock, disk: Disk, mailer: Mailer,
                        req: ScreenshotRequest, target: Path)
    returns (r: Result<nat, Fault>, ghost stage: Stage, ghost shotFrom: Browser.Page)
    requires |target| >= 1
    modifies disk, mailer
    ensures stage in {CaptureFailed, SizeFailed, MailFailed, Saved}
    ensures r.Ok? <==> stage == Saved
    ensures stage != CaptureFailed ==> target in disk.files
    ensures stage in {MailFailed, Saved} ==> ProfileMailAdded(old(mailer.attempts), mailer.attempts, ProfileMail(req, target))
    ensures stage in {CaptureFailed, SizeFailed} ==> OnlyChallengeMailsAdded(old(mailer.attempts), mailer.attempts)
    ensures stage == CaptureFailed && launch.fault.None? ==> r.error.Api? && !r.error.api.EmailSend?
    ensures stage == CaptureFailed && launch.fault.Some? ==> r.error == Driver(launch.fault.value)
    ensures stage == SizeFailed ==> r.error.Io?
    ensures stage == MailFailed ==> r.error == Api(EmailSend("SMTP send error")) || r.error.Runtime?
    ensures stage != CaptureFailed ==> var shot := ProfileShot(launch.world, shotFrom, req.githubUsername);
                                       shot.Ok? && disk.files[target] == shot.value
    ensures r.Ok? ==> r.value == |disk.files[target]| == |ProfileShot(launch.world, shotFrom, req.githubUsername).value|
                      && |mailer.delivered| >= 1 && mailer.delivered[|mailer.delivered| - 1] == ProfileMail(req, target)
  {
    var saved, driver;
    ghost var login;
    saved, driver, login, shotFrom := CaptureProfileScreenshot(props, launch, clock, disk, mailer,
                                                               req.githubUsername, target, req.withLogin);
    if saved.Err? {
      return Err(saved.error), CaptureFailed, shotFrom;
    }
    ghost var mails := mailer.attempts;
    r, stage := SizeAndMail(disk, mailer, req, saved.value);
    if stage != SizeFailed {
      assert mailer.attempts[..|mailer.attempts| - 1] == mails;
    }
  }

  /** Lines 50-80: the try block of process, up to the saved row. */
  method Attempt(props: Props, launch: Launch, clock: Clock, disk: Disk, mailer: Mailer, repo: Repository,
                 req: ScreenshotRequest, fileName: string, target: Path, sentAt: Instant)
    returns (r: Result<Entity, Fault>, ghost stage: Stage, ghost shotFrom: Browser.Page)
    requires |target| >= 1
    modifies disk, mailer, repo
    ensures r.Ok? <==> stage == Saved
    ensures stage != CaptureFailed ==> target in disk.files
    ensures stage != CaptureFailed ==> var shot := ProfileShot(launch.world, shotFrom, req.githubUsername);
                                       shot.Ok? && disk.files[target] == shot.value
    ensures stage in {MailFailed, SaveFailed, Saved} ==>
              ProfileMailAdded(old(mailer.attempts), mailer.attempts, ProfileMail(req, target))
    ensures stage in {CaptureFailed, SizeFailed} ==> OnlyChallengeMailsAdded(old(mailer.attempts), mailer.attempts)
    ensures stage == CaptureFailed && launch.fault.None? ==> r.error.Api? && !r.error.api.EmailSend?
    ensures stage == CaptureFailed && launch.fault.Some? ==> r.error == Driver(launch.fault.value)
    ensures stage == SizeFailed ==> r.error.Io?
    ensures stage == MailFailed ==> r.error == Api(EmailSend("SMTP send error")) || r.error.Runtime?
    ensures stage == SaveFailed ==> r.error.Runtime?
    ensures stage in {SaveFailed, Saved} ==>
              repo.attempts == old(repo.attempts) + [SuccessEntity(req, fileName, target, |disk.files[target]|, sentAt)]
    ensures stage !in {SaveFailed, Saved} ==> repo.attempts == old(repo.attempts)
    ensures r.Ok? ==> && r.value == repo.Stored(SuccessEntity(req, fileName, target, |disk.files[target]|, sentAt), |old(repo.attempts)|)
                      && repo.pending == old(repo.pending) + [r.value]
    ensures r.Err? ==> repo.pending == old(repo.pending)
    ensures repo.committed == old(repo.committed)
  {
    var size;
    size, stage, shotFrom := CaptureAndMail(props, launch, clock, disk, mailer, req, target);
    if size.Err? {
      return Err(size.error), stage, shotFrom;
    }
    var entity := SuccessEntity(req, fileName, target, size.value, sentAt);
    r := repo.Save(entity);
    if r.Err? {
      stage := SaveFailed;
    }
  }

  /** Lines 116-132: save a FAILED row in the open transaction; a failing save is
      logged and swallowed. */
  method PersistFailure(repo: Repository, req: ScreenshotRequest, fileName: Option<string>, error: string,
                        failedAt: Instant)
    modifies repo
    ensures var e := FailedEntity(req, fileName, error, failedAt);
            && repo.attempts == old(repo.attempts) + [e]
            && repo.pending == old(repo.pending)
                 + (if repo.world(|old(repo.attempts)|, e).None? then [repo.Stored(e, |old(repo.attempts)|)] else [])
    ensures repo.committed == old(repo.committed)
  {
    var saved := repo.Save(FailedEntity(req, fileName, error, failedAt));
  }

  /**
   * Lines 43-89 without the transaction boundary. `cause` is the failure that
   * ended the try block, if one did; a directory failure ends the call before it,
   * with `stage` None and nothing else done.
   */
  method Run(props: Props, launch: Launch, clock: Clock, disk: Disk, mailer: Mailer, repo: Repository,
             req: ScreenshotRequest, today: Date, uuid: string, sentAt: Instant, failedAt: Instant)
    returns (r: Result<ScreenshotRecord, Fault>, ghost stage: Option<Stage>, ghost cause: Fault, ghost shotFrom: Browser.Page)
    modifies disk, mailer, repo
    ensures stage.None? <==> disk.world.createFault(old(disk.dirs), DailyDir(props.screenshotDir, today)).Some?
    ensures stage.None? ==> && r.Err? && r.error.Api? && r.error.api.ScreenshotCapture?
                            && r.error.api.reason == DirectoryFailure
                            && mailer.attempts == old(mailer.attempts) && disk.files == old(disk.files)
                            && repo.attempts == old(repo.attempts) && repo.pending == old(repo.pending)
    ensures stage.Some? ==> var target := DailyDir(props.screenshotDir, today) + [SuggestPngName(req.githubUsername, uuid)];
              && (r.Ok? <==> stage.value == Saved)
              && (stage.value != CaptureFailed ==> target in disk.files)
              && (stage.value != CaptureFailed ==> var shot := ProfileShot(launch.world, shotFrom, req.githubUsername);
                                                   shot.Ok? && disk.files[target] == shot.value)
              && (stage.value in {MailFailed, SaveFailed, Saved} ==>
                    ProfileMailAdded(old(mailer.attempts), mailer.attempts, ProfileMail(req, target)))
              && (stage.value == CaptureFailed ==> OnlyChallengeMailsAdded(old(mailer.attempts), mailer.attempts))
              && (r.Ok? ==>
                    var e := repo.Stored(SuccessEntity(req, SuggestPngName(req.githubUsername, uuid), target,
                                                      |disk.files[target]|, sentAt), |old(repo.attempts)|);
                    && repo.attempts == old(repo.attempts) + [SuccessEntity(req, SuggestPngName(req.githubUsername, uuid), target, |disk.files[target]|, sentAt)]
                    && repo.pending == old(repo.pending) + [e]
                    && r.value == EntityToRecord(e))
    ensures stage.Some? && r.Err? ==>
              && r.error == Rethrown(cause)
              && (stage.value == CaptureFailed && launch.fault.None? ==> cause.Api? && !cause.api.EmailSend? && r.error == cause)
              && (stage.value == CaptureFailed && launch.fault.Some? ==> cause == Driver(launch.fault.value))
              && (stage.value == SizeFailed ==> cause.Io?)
              && (stage.value == MailFailed ==> cause == Api(EmailSend("SMTP send error")) || cause.Runtime?)
              && (stage.value == SaveFailed ==> cause.Runtime?)
              && |repo.attempts| >= 1
              && var e := FailedEntity(req, Some(SuggestPngName(req.githubUsername, uuid)), Message(cause), failedAt);
                 && repo.attempts[|repo.attempts| - 1] == e
                 && repo.pending == old(repo.pending)
                      + (if repo.world(|repo.attempts| - 1, e).None? then [repo.Stored(e, |repo.attempts| - 1)] else [])
    ensures repo.committed == old(repo.committed)
  {
    cause := Runtime("");
    var target := PrepareTarget(disk, props.screenshotDir, today, req.githubUsername, uuid);
    if target.Err? {
      return Err(target.error), None, cause, launch.page;
    }
    var fileName := SuggestPngName(req.githubUsername, uuid);
    ghost var s;
    var persisted;
    persisted, s, shotFrom := Attempt(props, launch, clock, disk, mailer, repo, req, fileName, target.value, sentAt);
    stage := Some(s);
    if persisted.Ok? {
      return Ok(EntityToRecord(persisted.value)), stage, cause, shotFrom;
    }
    var err := persisted.error;
    cause := err;
    PersistFailure(repo, req, Some(fileName), Message(err), failedAt);
    r := Err(Rethrown(err));
  }

  /**
   * process as written. The transaction of line 42 commits when the method
   * returns and rolls back when it throws, and it throws on every failure, so the
   * FAILED row saved on the way out is discarded with the rest: a failed request
   * leaves no row at all.
   */
  method ProcessAsWritten(props: Props, launch: Launch, clock: Clock, disk: Disk, mailer: Mailer, repo: Repository,
                          req: ScreenshotRequest, today: Date, uuid: string, sentAt: Instant, failedAt: Instant)
    returns (r: Result<ScreenshotRecord, Fault>, ghost stage: Option<Stage>)
    modifies disk, mailer, repo
    ensures r.Err? ==> r.error.Api? && repo.committed == old(repo.committed)
    ensures r.Ok? ==> && |repo.committed| == |old(repo.committed)| + 1
                      && repo.committed[..|old(repo.committed)|] == old(repo.committed)
                      && r.value == EntityToRecord(repo.committed[|repo.committed| - 1])
                      && repo.committed[|repo.committed| - 1].status == SUCCESS
    ensures repo.pending == []
  {
    ghost var cause, shotFrom;
    repo.Begin();
    r, stage, cause, shotFrom := Run(props, launch, clock, disk, mailer, repo, req, today, uuid, sentAt, failedAt);
    if r.Ok? {
      repo.Commit();
    } else {
      repo.Rollback();
    }
  }

  /**
   * process with the failure record kept: the transaction also commits when the
   * method ends with an API exception, which every failure leaving it is. A
   * request that got past the directory leaves exactly one row, SUCCESS or
   * FAILED, unless saving the FAILED row itself fails.
   */
  method Process(props: Props, launch: Launch, clock: Clock, disk: Disk, mailer: Mailer, repo: Repository,
                 req: ScreenshotRequest, today: Date, uuid: string, sentAt: Instant, failedAt: Instant)
    returns (r: Result<ScreenshotRecord, Fault>, ghost stage: Option<Stage>, ghost cause: Fault, ghost shotFrom: Browser.Page)
    modifies disk, mailer, repo
    ensures r.Err? ==> r.error.Api?
    ensures stage.Some? && stage.value != CaptureFailed ==>
              var target := DailyDir(props.screenshotDir, today) + [SuggestPngName(req.githubUsername, uuid)];
              var shot := ProfileShot(launch.world, shotFrom, req.githubUsername);
              shot.Ok? && target in disk.files && disk.files[target] == shot.value
    ensures stage.None? ==> r.Err? && repo.committed == old(repo.committed) && mailer.attempts == old(mailer.attempts)
    ensures r.Ok? ==> && |repo.committed| == |old(repo.committed)| + 1
                      && repo.committed[..|old(repo.committed)|] == old(repo.committed)
                      && r.value == EntityToRecord(repo.committed[|repo.committed| - 1])
                      && repo.committed[|repo.committed| - 1].status == SUCCESS
    ensures stage.Some? && r.Err? ==>
              && r.error == Rethrown(cause)
              && (stage.value == CaptureFailed && launch.fault.None? ==> cause.Api? && !cause.api.EmailSend? && r.error == cause)
              && (stage.value == CaptureFailed && launch.fault.Some? ==> cause == Driver(launch.fault.value))
              && (stage.value == SizeFailed ==> cause.Io?)
              && (stage.value == MailFailed ==> cause == Api(EmailSend("SMTP send error")) || cause.Runtime?)
              && (stage.value == SaveFailed ==> cause.Runtime?)
              && |repo.attempts| >= 1
              && var e := repo.attempts[|repo.attempts| - 1];
                 && e == FailedEntity(req, Some(SuggestPngName(req.githubUsername, uuid)), Message(cause), failedAt)
                 && repo.committed == old(repo.committed)
                      + (if repo.world(|repo.attempts| - 1, e).None? then [repo.Stored(e, |repo.attempts| - 1)] else [])
    ensures repo.pending == []
  {
    repo.Begin();
    r, stage, cause, shotFrom := Run(props, launch, clock, disk, mailer, repo, req, today, uuid, sentAt, failedAt);
    repo.Commit();
  }

  // ---------------------------------------------------------------------------
  // getScreenshots
  // ---------------------------------------------------------------------------

  /** A row the list request asks for: no filter asks for every row. */
  predicate Wanted(filter: Option<Filter>, e: Entity) {
    filter.None? || Accepts(filter.value, e)
  }

  /** The stored rows the list request asks for, in stored order. */
  function Admitted(rows: seq<Entity>, filter: Option<Filter>): seq<Entity> {
    if rows == [] then []
    else (if Wanted(filter, rows[0]) then [rows[0]] else []) + Admitted(rows[1..], filter)
  }

  /** What toSpecification promises about the specification it builds. */
  predicate BuiltFrom(spec: Option<Spec>, filter: Option<Filter>) {
    && (filter.None? ==> spec.None?)
    && (filter.Some? ==> (spec.None? <==> Clauses(filter.value) == []))
    && (filter.Some? && spec.Some? ==> spec.value == AndAll(Clauses(filter.value)))
  }

  /** The query the repository runs selects exactly the rows the request asks for. */
  lemma {:induction false} MatchingIsAdmitted(rows: seq<Entity>, filter: Option<Filter>, spec: Option<Spec>)
    requires BuiltFrom(spec, filter)
    ensures Matching(rows, spec) == Admitted(rows, filter)
    decreases |rows|
  {
    if rows != [] {
      MatchingIsAdmitted(rows[1..], filter, spec);
      if filter.Some? {
        ToSpecificationMeansAccepts(filter.value, rows[0]);
      }
      assert MatchesOrAll(spec, rows[0]) <==> Wanted(filter, rows[0]);
    }
  }

  /** The domain records of a window of rows, none of them null. */
  function RecordsOf(rows: seq<Entity>): (rs: seq<Option<ScreenshotRecord>>)
    ensures |rs| == |rows|
  {
    seq(|rows|, i requires 0 <= i < |rows| => MapFromEntity(Some(rows[i])))
  }

  /**
   * getScreenshots: the committed rows the filter admits, one page of them mapped
   * to domain records, with the counts of the whole result and the page number
   * reported back as the client gave it. Paging values that the page request
   * refuses end the call with its message.
   */
  method GetScreenshots(repo: Repository, filter: Option<Filter>, paging: CustomPagingRequest)
    returns (r: Result<CustomPage<ScreenshotRecord>, string>)
    ensures ToPageable(paging).Err? ==> r == Err(ToPageable(paging).error)
    ensures ToPageable(paging).Ok? ==> r.Ok?
    ensures r.Ok? ==>
              var rows := Admitted(repo.committed, filter);
              var index := paging.pagination.pageNumber - 1;
              var size := paging.pagination.pageSize;
              && index >= 0 && size >= 1
              && r.value.content == Some(RecordsOf(Window(rows, index, size)))
              && r.value.pageNumber == paging.pagination.pageNumber
              && r.value.pageSize == size
              && r.value.totalElementCount == |rows|
              && r.value.totalPageCount == PageCount(|rows|, size)
  {
    var spec := ToSpecification(filter);
    var pageable := ToPageable(paging);
    if pageable.Err? {
      return Err(pageable.error);
    }
    var page := repo.FindAll(spec, pageable.value);
    MatchingIsAdmitted(repo.committed, filter, spec);
    var items := RecordsOf(page.content);
    r := Ok(CustomPage(Some(items), PageNumberOf(page.number), page.size, page.totalElements, page.totalPages));
  }
}

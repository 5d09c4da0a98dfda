/**
 * The services the pipeline calls through narrow interfaces: the file system,
 * the mail sender and the record repository. Each is an object whose state the
 * calls update; whether a call fails, and with which message, is decided by an
 * outside world given when the object is made.
 */
module Collaborators {

  import opened Wrappers
  import opened Text
  import opened Errors
  import opened Records
  import opened FileUtil
  import opened RecordSpecification
  import opened ListRequest
  import opened Paging

  // ---------------------------------------------------------------------------
  // File system
  // ---------------------------------------------------------------------------

  /** Path.toString(): the segments joined with '/'. */
  function PathText(p: Path): string {
    Join(p, "/")
  }

  /** Path.getParent() of a path with at least one segment. */
  function Parent(p: Path): (q: Path)
    requires |p| >= 1
    ensures |q| == |p| - 1 && q == p[..|p| - 1]
  {
    p[..|p| - 1]
  }

  /** The directories Files.createDirectories(p) makes sure exist: p and every
      ancestor of it. */
  function Ancestors(p: Path): (s: set<Path>)
    ensures |p| >= 1 ==> p in s
    ensures forall q | q in s :: 1 <= |q| <= |p| && q == p[..|q|]
  {
    assert |p| >= 1 ==> p[..|p|] == p;
    set k | 1 <= k <= |p| :: p[..k]
  }

  /** Which file-system calls fail, and with which IOException message. */
  datatype DiskWorld = DiskWorld(
    createFault: (set<Path>, Path) -> Option<string>,
    writeFault: (map<Path, seq<bv8>>, Path) -> Option<string>,
    sizeFault: (map<Path, seq<bv8>>, Path) -> Option<string>)

  class Disk {
    var dirs: set<Path>
    var files: map<Path, seq<bv8>>
    const world: DiskWorld

    constructor (world: DiskWorld, dirs: set<Path>, files: map<Path, seq<bv8>>)
      ensures this.world == world && this.dirs == dirs && this.files == files
    {
      this.world := world;
      this.dirs := dirs;
      this.files := files;
    }

    /** Files.createDirectories: creates the directory and its ancestors, or
        throws an IOException and creates nothing. */
    method CreateDirectories(p: Path) returns (r: Option<Fault>)
      modifies this
      ensures var f := world.createFault(old(dirs), p);
              && (f.Some? ==> r == Some(Io(f.value)) && dirs == old(dirs))
              && (f.None? ==> r.None? && dirs == old(dirs) + Ancestors(p))
      ensures files == old(files)
    {
      var f := world.createFault(dirs, p);
      if f.Some? {
        return Some(Io(f.value));
      }
      dirs := dirs + Ancestors(p);
      return None;
    }

    /** Files.write: replaces the file's bytes; fails with NoSuchFileException
        when the parent directory is missing, or with another IOException. */
    method Write(p: Path, bytes: seq<bv8>) returns (r: Option<Fault>)
      requires |p| >= 1
      modifies this
      ensures Parent(p) !in old(dirs) ==> r == Some(Io(PathText(p))) && files == old(files)
      ensures Parent(p) in old(dirs) ==>
                var f := world.writeFault(old(files), p);
                && (f.Some? ==> r == Some(Io(f.value)) && files == old(files))
                && (f.None? ==> r.None? && files == old(files)[p := bytes])
      ensures dirs == old(dirs)
    {
      if Parent(p) !in dirs {
        return Some(Io(PathText(p)));
      }
      var f := world.writeFault(files, p);
      if f.Some? {
        return Some(Io(f.value));
      }
      files := files[p := bytes];
      return None;
    }

    /** Files.size: the byte count of an existing file; NoSuchFileException
        otherwise, or another IOException. */
    method Size(p: Path) returns (r: Result<nat, Fault>)
      ensures p !in files ==> r == Err(Io(PathText(p)))
      ensures p in files ==>
                var f := world.sizeFault(files, p);
                && (f.Some? ==> r == Err(Io(f.value)))
                && (f.None? ==> r == Ok(|files[p]|))
    {
      if p !in files {
        return Err(Io(PathText(p)));
      }
      var f := world.sizeFault(files, p);
      if f.Some? {
        return Err(Io(f.value));
      }
      return Ok(|files[p]|);
    }
  }

  /**
   * FileUtil.ensureDailyDir: base/yyyy/MM/dd for the given day, created with its
   * ancestors; an IOException propagates.
   */
  method EnsureDailyDir(disk: Disk, base: Path, today: Date) returns (r: Result<Path, Fault>)
    modifies disk
    ensures r.Ok? ==> r.value == DailyDir(base, today) && r.value in disk.dirs
    ensures r.Ok? <==> disk.world.createFault(old(disk.dirs), DailyDir(base, today)).None?
    ensures r.Err? ==> r.error.Io? && disk.dirs == old(disk.dirs)
    ensures disk.files == old(disk.files)
  {
    var dir := DailyDir(base, today);
    var f := disk.CreateDirectories(dir);
    if f.Some? {
      return Err(f.value);
    }
    return Ok(dir);
  }

  // ---------------------------------------------------------------------------
  // Mail
  // ---------------------------------------------------------------------------

  /** One call of MailService.sendScreenshot. */
  datatype Mail = Mail(to: string, subject: string, body: string, attachment: Option<Path>)

  /** How the transport can fail: a MessagingException while building the
      message, or a runtime MailException from the sender. */
  datatype MailFailure = Messaging | Transport(msg: string)

  class Mailer {
    var attempts: seq<Mail>
    var delivered: seq<Mail>
    const world: (nat, Mail) -> Option<MailFailure>

    constructor (world: (nat, Mail) -> Option<MailFailure>)
      ensures this.world == world && attempts == [] && delivered == []
    {
      this.world := world;
      attempts := [];
      delivered := [];
    }

    /** sendScreenshot: a MessagingException becomes EmailSendException("SMTP send
        error"); a runtime failure of the sender propagates as it is. */
    method SendScreenshot(m: Mail) returns (r: Option<Fault>)
      modifies this
      ensures attempts == old(attempts) + [m]
      ensures var f := world(|old(attempts)|, m);
              && (f.None? ==> r.None? && delivered == old(delivered) + [m])
              && (f == Some(Messaging) ==> r == Some(Api(EmailSend("SMTP send error"))) && delivered == old(delivered))
              && (f.Some? && f.value.Transport? ==> r == Some(Runtime(f.value.msg)) && delivered == old(delivered))
    {
      var f := world(|attempts|, m);
      attempts := attempts + [m];
      if f.None? {
        delivered := delivered + [m];
        return None;
      }
      match f.value
      case Messaging => return Some(Api(EmailSend("SMTP send error")));
      case Transport(msg) => return Some(Runtime(msg));
    }
  }

  // ---------------------------------------------------------------------------
  // Repository
  // ---------------------------------------------------------------------------

  /** Spring Data's Page: one window of the matching rows and the counts. */
  datatype RowPage = RowPage(content: seq<Entity>, number: int, size: int, totalElements: nat, totalPages: nat)

  /** The rows a specification admits, in stored order. */
  function Matching(rows: seq<Entity>, spec: Option<Spec>): (r: seq<Entity>)
    ensures |r| <= |rows|
    ensures forall e | e in r :: e in rows && MatchesOrAll(spec, e)
    ensures forall e | e in rows && MatchesOrAll(spec, e) :: e in r
  {
    if rows == [] then []
    else
      var rest := Matching(rows[1..], spec);
      assert forall e | e in rows :: e == rows[0] || e in rows[1..];
      if MatchesOrAll(spec, rows[0]) then [rows[0]] + rest else rest
  }

  /** The rows of page `page` when pages hold `size` rows. */
  function Window(rows: seq<Entity>, page: nat, size: nat): (w: seq<Entity>)
    requires size >= 1
    ensures |w| <= size
    ensures page * size < |rows| ==> w != []
    ensures forall e | e in w :: e in rows
  {
    var from := if page * size < |rows| then page * size else |rows|;
    var to := if from + size < |rows| then from + size else |rows|;
    rows[from..to]
  }

  /** Pages needed for n rows. */
  function PageCount(n: nat, size: nat): (c: nat)
    requires size >= 1
    ensures c * size >= n && (c == 0 || (c - 1) * size < n)
  {
    (n + size - 1) / size
  }

  /** The store behind ScreenshotRecordRepository, inside one transaction: rows
      saved in the open transaction are pending until it commits, and a rollback
      discards them. Every save call is logged in `attempts`, kept or not. */
  class Repository {
    var committed: seq<Entity>
    var pending: seq<Entity>
    var attempts: seq<Entity>
    const world: (nat, Entity) -> Option<string>   // the message of a failing save
    const ids: nat -> string                       // the id generated for the n-th save

    constructor (world: (nat, Entity) -> Option<string>, ids: nat -> string, rows: seq<Entity>)
      ensures this.world == world && this.ids == ids
      ensures committed == rows && pending == [] && attempts == []
    {
      this.world := world;
      this.ids := ids;
      committed := rows;
      pending := [];
      attempts := [];
    }

    /** The saved form of an entity: with a generated id when it has none. */
    function Stored(e: Entity, n: nat): (s: Entity)
      reads this
      ensures s.id.Some? && (e.id.Some? ==> s.id == e.id)
      ensures s == e.(id := s.id)
    {
      if e.id.Some? then e else e.(id := Some(ids(n)))
    }

    /** A transactional method starts with nothing pending. */
    method Begin()
      modifies this
      ensures pending == [] && committed == old(committed) && attempts == old(attempts)
    {
      pending := [];
    }

    /** save(entity) within the open transaction. */
    method Save(e: Entity) returns (r: Result<Entity, Fault>)
      modifies this
      ensures attempts == old(attempts) + [e] && committed == old(committed)
      ensures var f := world(|old(attempts)|, e);
              && (f.Some? ==> r == Err(Runtime(f.value)) && pending == old(pending))
              && (f.None? ==> r == Ok(Stored(e, |old(attempts)|)) && pending == old(pending) + [r.value])
    {
      var n := |attempts|;
      var f := world(n, e);
      attempts := attempts + [e];
      if f.Some? {
        return Err(Runtime(f.value));
      }
      var s := Stored(e, n);
      pending := pending + [s];
      return Ok(s);
    }

    /** The transaction ends normally: its rows become visible. */
    method Commit()
      modifies this
      ensures committed == old(committed) + old(pending) && pending == [] && attempts == old(attempts)
    {
      committed := committed + pending;
      pending := [];
    }

    /** A runtime exception leaves the transactional method: its rows are dropped. */
    method Rollback()
      modifies this
      ensures committed == old(committed) && pending == [] && attempts == old(attempts)
    {
      pending := [];
    }

    /** findAll(spec, pageable) in a read-only transaction: the committed rows the
        specification admits, one page of them (sorting is not applied). */
    method FindAll(spec: Option<Spec>, req: PageRequest) returns (page: RowPage)
      requires req.page >= 0 && req.size >= 1
      ensures var rows := Matching(committed, spec);
              && page.content == Window(rows, req.page, req.size)
              && page.number == req.page && page.size == req.size
              && page.totalElements == |rows| && page.totalPages == PageCount(|rows|, req.size)
    {
      var rows := Matching(committed, spec);
      page := RowPage(Window(rows, req.page, req.size), req.page, req.size, |rows|, PageCount(|rows|, req.size));
    }
  }
}

/**
 * The list request's optional filter and its conversion into a conjunction of
 * clauses, one clause per present field in a fixed order.
 */
module ListRequest {

  import opened Wrappers
  import opened Records
  import opened RecordSpecification

  /** ListScreenshotRecordRequest.Filter: nine independent optional criteria. */
  datatype Filter = Filter(
    githubUsername: Option<string>,
    recipientEmail: Option<string>,
    status: Option<Status>,
    sentAtFrom: Option<Instant>,
    sentAtTo: Option<Instant>,
    minFileSizeBytes: Option<int>,
    maxFileSizeBytes: Option<int>,
    fileNameContains: Option<string>,
    keyword: Option<string>)

  /** The position a clause takes in the built list; the three date clauses share one. */
  function Slot(c: Clause): nat {
    match c
    case HasGithubUsername(_) => 0
    case HasRecipientEmail(_) => 1
    case HasStatus(_) => 2
    case SentAfter(_) => 3
    case SentBefore(_) => 3
    case SentBetween(_, _) => 3
    case FileSizeGte(_) => 4
    case FileSizeLte(_) => 5
    case FileNameLike(_) => 6
    case Search(_) => 7
  }

  // One slot per criterion: at most one clause each, in the order they are added.
  function UsernameClause(f: Filter): seq<Clause> {
    if f.githubUsername.Some? then [HasGithubUsername(f.githubUsername.value)] else []
  }
  function EmailClause(f: Filter): seq<Clause> {
    if f.recipientEmail.Some? then [HasRecipientEmail(f.recipientEmail.value)] else []
  }
  function StatusClause(f: Filter): seq<Clause> {
    if f.status.Some? then [HasStatus(f.status.value)] else []
  }
  /** Both bounds give between(from, to); otherwise after(from) and before(to) for
      whichever bound is present (and since only one can be, at most one clause). */
  function DateClause(f: Filter): seq<Clause> {
    if f.sentAtFrom.Some? && f.sentAtTo.Some? then [SentBetween(f.sentAtFrom.value, f.sentAtTo.value)]
    else (if f.sentAtFrom.Some? then [SentAfter(f.sentAtFrom.value)] else [])
         + (if f.sentAtTo.Some? then [SentBefore(f.sentAtTo.value)] else [])
  }
  function MinSizeClause(f: Filter): seq<Clause> {
    if f.minFileSizeBytes.Some? then [FileSizeGte(f.minFileSizeBytes.value)] else []
  }
  function MaxSizeClause(f: Filter): seq<Clause> {
    if f.maxFileSizeBytes.Some? then [FileSizeLte(f.maxFileSizeBytes.value)] else []
  }
  function FileNameClause(f: Filter): seq<Clause> {
    if f.fileNameContains.Some? then [FileNameLike(f.fileNameContains.value)] else []
  }
  function KeywordClause(f: Filter): seq<Clause> {
    if f.keyword.Some? then [Search(f.keyword.value)] else []
  }

  function Slots(f: Filter): (bs: seq<seq<Clause>>)
    ensures |bs| == 8
  {
    [UsernameClause(f), EmailClause(f), StatusClause(f), DateClause(f),
     MinSizeClause(f), MaxSizeClause(f), FileNameClause(f), KeywordClause(f)]
  }

  /** Concatenation of the slots, first slot first. */
  function Flatten(bs: seq<seq<Clause>>): seq<Clause>
    decreases |bs|
  {
    if bs == [] then [] else Flatten(bs[..|bs| - 1]) + bs[|bs| - 1]
  }

  lemma FlattenStep(bs: seq<seq<Clause>>, k: nat)
    requires k < |bs|
    ensures Flatten(bs[..k + 1]) == Flatten(bs[..k]) + bs[k]
  {
    assert bs[..k + 1][..k] == bs[..k];
  }

  /** The clause list toSpecification collects. */
  function Clauses(f: Filter): seq<Clause> {
    Flatten(Slots(f))
  }

  /** The list is the eight slots one after the other. */
  lemma ClausesInOrder(f: Filter)
    ensures Clauses(f) == UsernameClause(f) + EmailClause(f) + StatusClause(f) + DateClause(f)
                          + MinSizeClause(f) + MaxSizeClause(f) + FileNameClause(f) + KeywordClause(f)
  {
    var bs := Slots(f);
    assert bs[..0] == [];
    FlattenStep(bs, 0);
    assert Flatten(bs[..1]) == UsernameClause(f);
    FlattenStep(bs, 1);
    assert Flatten(bs[..2]) == UsernameClause(f) + EmailClause(f);
    FlattenStep(bs, 2);
    assert Flatten(bs[..3]) == UsernameClause(f) + EmailClause(f) + StatusClause(f);
    FlattenStep(bs, 3);
    assert Flatten(bs[..4]) == UsernameClause(f) + EmailClause(f) + StatusClause(f) + DateClause(f);
    FlattenStep(bs, 4);
    assert Flatten(bs[..5]) == UsernameClause(f) + EmailClause(f) + StatusClause(f) + DateClause(f) + MinSizeClause(f);
    FlattenStep(bs, 5);
    assert Flatten(bs[..6]) == UsernameClause(f) + EmailClause(f) + StatusClause(f) + DateClause(f) + MinSizeClause(f) + MaxSizeClause(f);
    FlattenStep(bs, 6);
    assert Flatten(bs[..7]) == UsernameClause(f) + EmailClause(f) + StatusClause(f) + DateClause(f) + MinSizeClause(f) + MaxSizeClause(f) + FileNameClause(f);
    FlattenStep(bs, 7);
    assert Flatten(bs[..8]) == UsernameClause(f) + EmailClause(f) + StatusClause(f) + DateClause(f) + MinSizeClause(f) + MaxSizeClause(f) + FileNameClause(f) + KeywordClause(f);
    assert bs[..8] == bs;
  }

  /** An independent reading of the filter: a row passes when it meets every
      criterion that is present. */
  predicate Accepts(f: Filter, e: Entity) {
    && (f.githubUsername.Some? ==> e.githubUsername == f.githubUsername.value)
    && (f.recipientEmail.Some? ==> e.recipientEmail == f.recipientEmail.value)
    && (f.status.Some? ==> e.status == f.status.value)
    && (f.sentAtFrom.Some? && f.sentAtTo.None? ==> e.sentAt > f.sentAtFrom.value)
    && (f.sentAtTo.Some? && f.sentAtFrom.None? ==> e.sentAt < f.sentAtTo.value)
    && (f.sentAtFrom.Some? && f.sentAtTo.Some? ==> f.sentAtFrom.value <= e.sentAt <= f.sentAtTo.value)
    && (f.minFileSizeBytes.Some? ==> e.fileSizeBytes >= f.minFileSizeBytes.value)
    && (f.maxFileSizeBytes.Some? ==> e.fileSizeBytes <= f.maxFileSizeBytes.value)
    && (f.fileNameContains.Some? ==> LikeIgnoringCase(e.fileName, f.fileNameContains.value))
    && (f.keyword.Some? ==> Holds(Search(f.keyword.value), e))
  }

  /** A missing filter, or one without clauses, restricts nothing. */
  predicate MatchesOrAll(s: Option<Spec>, e: Entity) {
    s.None? || Matches(s.value, e)
  }

  /**
   * toSpecification: a null filter gives no specification; otherwise each present
   * criterion appends its clause and the list is folded with `and`, an empty list
   * again giving no specification.
   */
  method ToSpecification(filter: Option<Filter>) returns (spec: Option<Spec>)
    ensures filter.None? ==> spec.None?
    ensures filter.Some? ==> (spec.None? <==> Clauses(filter.value) == [])
    ensures filter.Some? && spec.Some? ==> spec.value == AndAll(Clauses(filter.value))
  {
    if filter.None? {
      return None;
    }
    var f := filter.value;
    var specs: seq<Clause> := [];
    if f.githubUsername.Some? {
      specs := specs + [HasGithubUsername(f.githubUsername.value)];
    }
    ghost var upToUser := UsernameClause(f);
    assert specs == upToUser;
    if f.recipientEmail.Some? {
      specs := specs + [HasRecipientEmail(f.recipientEmail.value)];
    }
    ghost var upToEmail := upToUser + EmailClause(f);
    assert specs == upToEmail;
    if f.status.Some? {
      specs := specs + [HasStatus(f.status.value)];
    }
    ghost var upToStatus := upToEmail + StatusClause(f);
    assert specs == upToStatus;
    if f.sentAtFrom.Some? && f.sentAtTo.Some? {
      specs := specs + [SentBetween(f.sentAtFrom.value, f.sentAtTo.value)];
    } else {
      if f.sentAtFrom.Some? {
        specs := specs + [SentAfter(f.sentAtFrom.value)];
      }
      if f.sentAtTo.Some? {
        specs := specs + [SentBefore(f.sentAtTo.value)];
      }
    }
    ghost var upToDate := upToStatus + DateClause(f);
    assert specs == upToDate;
    if f.minFileSizeBytes.Some? {
      specs := specs + [FileSizeGte(f.minFileSizeBytes.value)];
    }
    ghost var upToMin := upToDate + MinSizeClause(f);
    assert specs == upToMin;
    if f.maxFileSizeBytes.Some? {
      specs := specs + [FileSizeLte(f.maxFileSizeBytes.value)];
    }
    ghost var upToMax := upToMin + MaxSizeClause(f);
    assert specs == upToMax;
    if f.fileNameContains.Some? {
      specs := specs + [FileNameLike(f.fileNameContains.value)];
    }
    ghost var upToName := upToMax + FileNameClause(f);
    assert specs == upToName;
    if f.keyword.Some? {
      specs := specs + [Search(f.keyword.value)];
    }
    assert specs == upToName + KeywordClause(f);
    ClausesInOrder(f);
    if specs == [] {
      spec := None;
    } else {
      spec := Some(AndAll(specs));
    }
  }

  // ---------------------------------------------------------------------------
  // What the clause list is
  // ---------------------------------------------------------------------------

  /** Every slot holds at most one clause, and only clauses of its own position. */
  lemma SlotsShape(f: Filter)
    ensures forall k | 0 <= k < 8 :: |Slots(f)[k]| <= 1
    ensures forall k, c | 0 <= k < 8 && c in Slots(f)[k] :: Slot(c) == k
  {
  }

  lemma {:induction false} FlattenMember(bs: seq<seq<Clause>>, c: Clause)
    ensures c in Flatten(bs) <==> exists k | 0 <= k < |bs| :: c in bs[k]
    decreases |bs|
  {
    if bs != [] {
      var init := bs[..|bs| - 1];
      FlattenMember(init, c);
      assert forall k | 0 <= k < |init| :: init[k] == bs[k];
      if c in Flatten(bs) && c !in bs[|bs| - 1] {
        var k :| 0 <= k < |init| && c in init[k];
        assert c in bs[k];
      }
    }
  }

  lemma {:induction false} FlattenOrdered(bs: seq<seq<Clause>>)
    requires forall k | 0 <= k < |bs| :: |bs[k]| <= 1
    requires forall k, c | 0 <= k < |bs| && c in bs[k] :: Slot(c) == k
    ensures |Flatten(bs)| <= |bs|
    ensures forall i | 0 <= i < |Flatten(bs)| :: Slot(Flatten(bs)[i]) < |bs|
    ensures forall i, j | 0 <= i < j < |Flatten(bs)| :: Slot(Flatten(bs)[i]) < Slot(Flatten(bs)[j])
    decreases |bs|
  {
    if bs != [] {
      var n := |bs| - 1;
      var init := bs[..n];
      FlattenOrdered(init);
      var prev := Flatten(init);
      var cur := Flatten(bs);
      assert cur == prev + bs[n];
      forall i | |prev| <= i < |cur|
        ensures Slot(cur[i]) == n
      {
        assert cur[i] in bs[n];
      }
    }
  }

  /** The clauses come in the fixed order username, email, status, date, minimum
      size, maximum size, file name, keyword, at most one of each, so at most eight. */
  lemma ClauseOrder(f: Filter)
    ensures forall i, j | 0 <= i < j < |Clauses(f)| :: Slot(Clauses(f)[i]) < Slot(Clauses(f)[j])
    ensures |Clauses(f)| <= 8
  {
    SlotsShape(f);
    FlattenOrdered(Slots(f));
  }

  /** A clause is in the list exactly when its own slot holds it. */
  lemma InClauses(f: Filter, c: Clause)
    ensures c in Clauses(f) <==> c in Slots(f)[Slot(c)]
  {
    FlattenMember(Slots(f), c);
    SlotsShape(f);
  }

  /** Each non-date criterion contributes exactly its own clause, and only when present. */
  lemma PresentFieldsAddTheirClause(f: Filter)
    ensures forall u :: HasGithubUsername(u) in Clauses(f) <==> f.githubUsername == Some(u)
    ensures forall m :: HasRecipientEmail(m) in Clauses(f) <==> f.recipientEmail == Some(m)
    ensures forall s :: HasStatus(s) in Clauses(f) <==> f.status == Some(s)
    ensures forall n :: FileSizeGte(n) in Clauses(f) <==> f.minFileSizeBytes == Some(n)
    ensures forall n :: FileSizeLte(n) in Clauses(f) <==> f.maxFileSizeBytes == Some(n)
    ensures forall k :: FileNameLike(k) in Clauses(f) <==> f.fileNameContains == Some(k)
    ensures forall k :: Search(k) in Clauses(f) <==> f.keyword == Some(k)
  {
    forall u ensures HasGithubUsername(u) in Clauses(f) <==> f.githubUsername == Some(u) {
      InClauses(f, HasGithubUsername(u));
    }
    forall m ensures HasRecipientEmail(m) in Clauses(f) <==> f.recipientEmail == Some(m) {
      InClauses(f, HasRecipientEmail(m));
    }
    forall s ensures HasStatus(s) in Clauses(f) <==> f.status == Some(s) {
      InClauses(f, HasStatus(s));
    }
    forall n ensures FileSizeGte(n) in Clauses(f) <==> f.minFileSizeBytes == Some(n) {
      InClauses(f, FileSizeGte(n));
    }
    forall n ensures FileSizeLte(n) in Clauses(f) <==> f.maxFileSizeBytes == Some(n) {
      InClauses(f, FileSizeLte(n));
    }
    forall k ensures FileNameLike(k) in Clauses(f) <==> f.fileNameContains == Some(k) {
      InClauses(f, FileNameLike(k));
    }
    forall k ensures Search(k) in Clauses(f) <==> f.keyword == Some(k) {
      InClauses(f, Search(k));
    }
  }

  /** Both bounds give the single between clause and neither after nor before;
      one bound gives after or before alone; no bound gives no date clause. */
  lemma DateRangeClauses(f: Filter)
    ensures forall a, b :: SentBetween(a, b) in Clauses(f) <==> f.sentAtFrom == Some(a) && f.sentAtTo == Some(b)
    ensures forall a :: SentAfter(a) in Clauses(f) <==> f.sentAtFrom == Some(a) && f.sentAtTo.None?
    ensures forall b :: SentBefore(b) in Clauses(f) <==> f.sentAtTo == Some(b) && f.sentAtFrom.None?
  {
    forall a, b ensures SentBetween(a, b) in Clauses(f) <==> f.sentAtFrom == Some(a) && f.sentAtTo == Some(b) {
      InClauses(f, SentBetween(a, b));
    }
    forall a ensures SentAfter(a) in Clauses(f) <==> f.sentAtFrom == Some(a) && f.sentAtTo.None? {
      InClauses(f, SentAfter(a));
    }
    forall b ensures SentBefore(b) in Clauses(f) <==> f.sentAtTo == Some(b) && f.sentAtFrom.None? {
      InClauses(f, SentBefore(b));
    }
  }

  predicate AllHold(cs: seq<Clause>, e: Entity) {
    forall c | c in cs :: Holds(c, e)
  }

  lemma AllHoldAppend(a: seq<Clause>, b: seq<Clause>, e: Entity)
    ensures AllHold(a + b, e) <==> AllHold(a, e) && AllHold(b, e)
  {
    assert forall c :: c in a + b <==> c in a || c in b;
  }

  lemma AllHoldAtMostOne(cs: seq<Clause>, e: Entity)
    requires |cs| <= 1
    ensures AllHold(cs, e) <==> (cs == [] || Holds(cs[0], e))
  {
    if cs != [] {
      assert cs == [cs[0]];
    }
  }

  lemma DateSlotMeaning(f: Filter, e: Entity)
    ensures AllHold(DateClause(f), e) <==>
      && (f.sentAtFrom.Some? && f.sentAtTo.None? ==> e.sentAt > f.sentAtFrom.value)
      && (f.sentAtTo.Some? && f.sentAtFrom.None? ==> e.sentAt < f.sentAtTo.value)
      && (f.sentAtFrom.Some? && f.sentAtTo.Some? ==> f.sentAtFrom.value <= e.sentAt <= f.sentAtTo.value)
  {
    var d := DateClause(f);
    if f.sentAtFrom.Some? && f.sentAtTo.Some? {
      assert d == [SentBetween(f.sentAtFrom.value, f.sentAtTo.value)];
      assert AllHold(d, e) <==> Holds(d[0], e);
    } else if f.sentAtFrom.Some? {
      assert d == [SentAfter(f.sentAtFrom.value)];
      assert AllHold(d, e) <==> Holds(d[0], e);
    } else if f.sentAtTo.Some? {
      assert d == [SentBefore(f.sentAtTo.value)];
      assert AllHold(d, e) <==> Holds(d[0], e);
    } else {
      assert d == [];
    }
  }

  /** Every clause of the list holds exactly when the filter accepts the row. */
  lemma AllClausesHoldIffAccepts(f: Filter, e: Entity)
    ensures AllHold(Clauses(f), e) <==> Accepts(f, e)
  {
    ClausesInOrder(f);
    var u, m, st, d := UsernameClause(f), EmailClause(f), StatusClause(f), DateClause(f);
    var lo, hi, n, k := MinSizeClause(f), MaxSizeClause(f), FileNameClause(f), KeywordClause(f);
    AllHoldAppend(u, m, e);
    AllHoldAppend(u + m, st, e);
    AllHoldAppend(u + m + st, d, e);
    AllHoldAppend(u + m + st + d, lo, e);
    AllHoldAppend(u + m + st + d + lo, hi, e);
    AllHoldAppend(u + m + st + d + lo + hi, n, e);
    AllHoldAppend(u + m + st + d + lo + hi + n, k, e);
    DateSlotMeaning(f, e);
    AllHoldAtMostOne(u, e);
    AllHoldAtMostOne(m, e);
    AllHoldAtMostOne(st, e);
    AllHoldAtMostOne(lo, e);
    AllHoldAtMostOne(hi, e);
    AllHoldAtMostOne(n, e);
    AllHoldAtMostOne(k, e);
  }

  /** A row satisfies the built specification exactly when the filter accepts it;
      a filter without criteria accepts every row. */
  lemma ToSpecificationMeansAccepts(f: Filter, e: Entity)
    ensures Clauses(f) == [] ==> Accepts(f, e)
    ensures Clauses(f) != [] ==> (Matches(AndAll(Clauses(f)), e) <==> Accepts(f, e))
  {
    var cs := Clauses(f);
    AllClausesHoldIffAccepts(f, e);
    assert (forall i | 0 <= i < |cs| :: Holds(cs[i], e)) <==> AllHold(cs, e);
    if cs != [] {
      AndAllMatches(cs, e);
    }
  }

  /** The bounds of a two-sided range are kept; the same bound given alone is not. */
  lemma DateBoundQuirk(f: Filter, g: Filter, e: Entity, d: Instant)
    requires f.sentAtFrom == Some(d) && f.sentAtTo == Some(d)
    requires g.sentAtFrom == Some(d) && g.sentAtTo.None?
    requires e.sentAt == d
    ensures !Accepts(g, e)
    ensures Accepts(f, e) <==> Accepts(f.(sentAtFrom := None, sentAtTo := None), e)
  {
  }
}

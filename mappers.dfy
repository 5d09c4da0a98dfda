/**
 * The three mappers between the persisted entity, the domain record and the
 * response: single-item mappers that turn null into null, collection mappers
 * that drop null items, and the page mapper that keeps them.
 */
module RecordMappers {

  import opened Wrappers
  import opened Records

  // ---------------------------------------------------------------------------
  // Null-dropping and element-wise mapping of lists with null items
  // ---------------------------------------------------------------------------

  /** The non-null items of a list, in order (`stream().filter(Objects::nonNull)`). */
  function Present<T>(xs: seq<Option<T>>): (r: seq<T>)
    ensures |r| <= |xs|
    ensures forall i | 0 <= i < |xs| && xs[i].Some? :: xs[i].value in r
    ensures forall j | 0 <= j < |r| :: Some(r[j]) in xs
  {
    if xs == [] then []
    else
      var rest := Present(xs[1..]);
      assert forall i | 1 <= i < |xs| :: xs[i] == xs[1..][i - 1];
      if xs[0].Some? then [xs[0].value] + rest else rest
  }

  /** Filtering distributes over concatenation, so it keeps the relative order. */
  lemma {:induction false} PresentAppend<T>(a: seq<Option<T>>, b: seq<Option<T>>)
    ensures Present(a + b) == Present(a) + Present(b)
    decreases |a|
  {
    if a != [] {
      assert (a + b)[1..] == a[1..] + b;
      PresentAppend(a[1..], b);
    } else {
      assert a + b == b;
    }
  }

  /** A list without null items filters to itself. */
  lemma {:induction false} PresentOfSomes<T>(xs: seq<T>)
    ensures Present(seq(|xs|, i requires 0 <= i < |xs| => Some(xs[i]))) == xs
    decreases |xs|
  {
    var w := seq(|xs|, i requires 0 <= i < |xs| => Some(xs[i]));
    if xs != [] {
      PresentOfSomes(xs[1..]);
      assert w[1..] == seq(|xs[1..]|, i requires 0 <= i < |xs[1..]| => Some(xs[1..][i]));
      assert xs == [xs[0]] + xs[1..];
    }
  }

  // ---------------------------------------------------------------------------
  // Entity -> record
  // ---------------------------------------------------------------------------

  /** The field-by-field copy behind mapFromEntity, for a non-null entity. */
  function EntityToRecord(e: Entity): ScreenshotRecord {
    ScreenshotRecord(e.id, e.githubUsername, e.recipientEmail, e.fileName,
                     e.filePath, e.fileSizeBytes, e.sentAt, Some(e.status))
  }

  /** mapFromEntity / map(entity): null in, null out. */
  function MapFromEntity(entity: Option<Entity>): (r: Option<ScreenshotRecord>)
    ensures r.Some? <==> entity.Some?
    ensures r.Some? ==> (r.value.status == Some(entity.value.status)
                         && r.value.imageId == entity.value.id)
  {
    match entity
    case None => None
    case Some(e) => Some(EntityToRecord(e))
  }

  /** map(Collection<entity>): a null collection gives an empty list; null items are
      dropped; the others are mapped in order. MapEntitiesCovers proves every present
      item is mapped, MapEntitiesAppend that mapping distributes over concatenation. */
  function MapEntities(sources: Option<seq<Option<Entity>>>): (rs: seq<ScreenshotRecord>)
    ensures sources.None? ==> rs == []
    ensures sources.Some? ==> |rs| == |Present(sources.value)| <= |sources.value|
    ensures sources.Some? ==> forall i | 0 <= i < |rs| :: rs[i] == EntityToRecord(Present(sources.value)[i])
  {
    match sources
    case None => []
    case Some(xs) =>
      var ps := Present(xs);
      seq(|ps|, i requires 0 <= i < |ps| => EntityToRecord(ps[i]))
  }

  /** Every non-null entity of the input is represented in the output. */
  lemma MapEntitiesCovers(xs: seq<Option<Entity>>, e: Entity)
    requires Some(e) in xs
    ensures EntityToRecord(e) in MapEntities(Some(xs))
  {
    var ps := Present(xs);
    var k :| 0 <= k < |xs| && xs[k] == Some(e);
    assert e in ps;
    var i :| 0 <= i < |ps| && ps[i] == e;
    assert MapEntities(Some(xs))[i] == EntityToRecord(e);
  }

  /** Mapping two lists one after the other is mapping their concatenation. */
  lemma MapEntitiesAppend(a: seq<Option<Entity>>, b: seq<Option<Entity>>)
    ensures MapEntities(Some(a + b)) == MapEntities(Some(a)) + MapEntities(Some(b))
  {
    PresentAppend(a, b);
    var whole, left, right := MapEntities(Some(a + b)), MapEntities(Some(a)), MapEntities(Some(b));
    var pa, pb := Present(a), Present(b);
    assert |whole| == |left| + |right|;
    forall i | 0 <= i < |whole| ensures whole[i] == (left + right)[i] {
      if i < |left| {
        assert (pa + pb)[i] == pa[i];
      } else {
        assert (pa + pb)[i] == pb[i - |left|];
      }
    }
  }

  // ---------------------------------------------------------------------------
  // Record -> response
  // ---------------------------------------------------------------------------

  /** The copy behind mapToResponse for a non-null record: the status becomes its
      enum name, a null status stays null. */
  function RecordToResponse(r: ScreenshotRecord): ScreenshotResponse {
    ScreenshotResponse(r.imageId, r.githubUsername, r.recipientEmail, r.fileName,
                       r.path, r.fileSize, r.sentAt,
                       if r.status.Some? then Some(StatusName(r.status.value)) else None)
  }

  /** mapToResponse / map(record): null in, null out. */
  function MapToResponse(record: Option<ScreenshotRecord>): (r: Option<ScreenshotResponse>)
    ensures r.Some? <==> record.Some?
    ensures r.Some? ==> (r.value.status.Some? <==> record.value.status.Some?)
  {
    match record
    case None => None
    case Some(x) => Some(RecordToResponse(x))
  }

  /** The response status reads back as the record's status. */
  lemma ResponseStatusRoundTrip(record: ScreenshotRecord)
    requires record.status.Some?
    ensures StatusValueOf(RecordToResponse(record).status.value) == record.status
  {
    StatusNameRoundTrip(record.status.value);
  }

  /** map(Collection<record>): as MapEntities, for records. PageListAgreesWithCollection
      proves that on a list without nulls the page mapper's list agrees with it. */
  function MapRecords(sources: Option<seq<Option<ScreenshotRecord>>>): (rs: seq<ScreenshotResponse>)
    ensures sources.None? ==> rs == []
    ensures sources.Some? ==> |rs| == |Present(sources.value)| <= |sources.value|
    ensures sources.Some? ==> forall i | 0 <= i < |rs| :: rs[i] == RecordToResponse(Present(sources.value)[i])
  {
    match sources
    case None => []
    case Some(xs) =>
      var ps := Present(xs);
      seq(|ps|, i requires 0 <= i < |ps| => RecordToResponse(ps[i]))
  }

  /** Records built from entities always carry a status, so every response does. */
  lemma EntityToResponseStatus(xs: seq<Option<Entity>>)
    ensures var recs := MapEntities(Some(xs));
            var rs := MapRecords(Some(seq(|recs|, i requires 0 <= i < |recs| => Some(recs[i]))));
            |rs| == |Present(xs)|
            && forall i | 0 <= i < |rs| :: rs[i].status == Some(StatusName(Present(xs)[i].status))
  {
    var recs := MapEntities(Some(xs));
    PresentOfSomes(recs);
  }

  // ---------------------------------------------------------------------------
  // Page of records -> paging response
  // ---------------------------------------------------------------------------

  /** toScreenshotResponseList: null list in, null list out; otherwise each item is
      mapped in place, a null item to a null item (no filtering here). */
  function ToScreenshotResponseList(records: Option<seq<Option<ScreenshotRecord>>>)
    : (r: Option<seq<Option<ScreenshotResponse>>>)
    ensures r.Some? <==> records.Some?
    ensures r.Some? ==> |r.value| == |records.value|
    ensures r.Some? ==> forall i | 0 <= i < |r.value| :: (r.value[i].None? <==> records.value[i].None?)
    ensures r.Some? ==> forall i | 0 <= i < |r.value| :: r.value[i] == MapToResponse(records.value[i])
  {
    match records
    case None => None
    case Some(xs) => Some(seq(|xs|, i requires 0 <= i < |xs| => MapToResponse(xs[i])))
  }

  /** On a list without nulls the page mapper and the collection mapper agree. */
  lemma PageListAgreesWithCollection(xs: seq<ScreenshotRecord>)
    ensures var ws := seq(|xs|, i requires 0 <= i < |xs| => Some(xs[i]));
            Present(ToScreenshotResponseList(Some(ws)).value) == MapRecords(Some(ws))
  {
    var ws := seq(|xs|, i requires 0 <= i < |xs| => Some(xs[i]));
    PresentOfSomes(xs);
    var rs := seq(|xs|, i requires 0 <= i < |xs| => RecordToResponse(xs[i]));
    assert ToScreenshotResponseList(Some(ws)).value == seq(|rs|, i requires 0 <= i < |rs| => Some(rs[i]));
    PresentOfSomes(rs);
  }

  /** toPagingResponse: null page in, null out; otherwise the mapped content and the
      four counters copied unchanged. */
  function ToPagingResponse(page: Option<CustomPage<ScreenshotRecord>>)
    : (r: Option<CustomPagingResponse<ScreenshotResponse>>)
    ensures r.Some? <==> page.Some?
    ensures r.Some? ==>
      && r.value.pageNumber == page.value.pageNumber
      && r.value.pageSize == page.value.pageSize
      && r.value.totalElementCount == page.value.totalElementCount
      && r.value.totalPageCount == page.value.totalPageCount
      && (r.value.content.Some? <==> page.value.content.Some?)
      && (r.value.content.Some? ==> |r.value.content.value| == |page.value.content.value|)
      && r.value.content == ToScreenshotResponseList(page.value.content)
  {
    match page
    case None => None
    case Some(p) =>
      Some(CustomPagingResponse(ToScreenshotResponseList(p.content), p.totalElementCount,
                                p.totalPageCount, p.pageNumber, p.pageSize))
  }
}

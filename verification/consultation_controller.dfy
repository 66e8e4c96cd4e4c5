/**
 * The consultation collection and the admin/query operations over it
 * (backend/src/controllers/consultationController.js): listing with filters, newest-first
 * order and offset pagination, lookup by id and by reference, partial update, statistics.
 */
module ConsultationController {
  import opened Wrappers
  import opened Strings
  import opened ConsultationModel

  const NotFoundMessage: string := "Consultation not found"
  const FetchOneError: string := "Error fetching consultation"
  const FetchAllError: string := "Error fetching consultations"
  const UpdateError: string := "Error updating consultation"

  /** A record as every response shows it: the stored fields and the computed reference number. */
  datatype RecordView = RecordView(record: Consultation, referenceNumber: string)

  function WithReference(r: Consultation): RecordView {
    RecordView(r, ReferenceNumber(r.id))
  }

  predicate UniqueIds(rs: seq<Consultation>) {
    forall i, j :: 0 <= i < j < |rs| ==> rs[i].id != rs[j].id
  }

  /** What the collection always satisfies: ObjectId keys, no two alike, every record valid. */
  predicate WellFormedStore(rs: seq<Consultation>) {
    && UniqueIds(rs)
    && forall i :: 0 <= i < |rs| ==> IsObjectIdHex(rs[i].id) && ValidRecord(rs[i])
  }

  predicate HasId(rs: seq<Consultation>, id: string) {
    exists i :: 0 <= i < |rs| && rs[i].id == id
  }

  // ---------------------------------------------------------------- listing

  /** A query-string filter constrains only when it is a non-empty string. */
  predicate MatchesFilter(filter: Option<string>, value: string) {
    !Present(filter) || value == filter.value
  }

  predicate Matches(r: Consultation, status: Option<string>, consultationType: Option<string>) {
    MatchesFilter(status, r.status) && MatchesFilter(consultationType, r.consultationType)
  }

  /** `Consultation.find(query)`: the matching records, in collection order. */
  function FilterRecords(rs: seq<Consultation>, status: Option<string>, consultationType: Option<string>)
    : (out: seq<Consultation>)
    ensures |out| <= |rs|
    ensures forall x :: x in out ==> x in rs && Matches(x, status, consultationType)
    ensures forall x :: x in rs && Matches(x, status, consultationType) ==> x in out
    ensures multiset(out) <= multiset(rs)
    ensures forall x :: multiset(out)[x] == if Matches(x, status, consultationType) then multiset(rs)[x] else 0
  {
    if rs == [] then []
    else
      var rest := FilterRecords(rs[1..], status, consultationType);
      assert rs == [rs[0]] + rs[1..];
      if Matches(rs[0], status, consultationType) then [rs[0]] + rest else rest
  }

  /** An empty filter constrains nothing: the listing then considers the whole collection. */
  lemma {:induction false} EmptyFilterKeepsAll(rs: seq<Consultation>)
    ensures FilterRecords(rs, None, None) == rs
  {
    if rs != [] {
      EmptyFilterKeepsAll(rs[1..]);
      assert rs == [rs[0]] + rs[1..];
    }
  }

  function Key(r: Consultation): int {
    r.createdAt.Millis()
  }

  /** Ordered by `createdAt`, newest first. */
  predicate NewestFirst(s: seq<Consultation>) {
    forall i, j :: 0 <= i < j < |s| ==> Key(s[i]) >= Key(s[j])
  }

  /** A record at least as new as the head of a newest-first list can go in front of it. */
  lemma ConsNewestFirst(x: Consultation, s: seq<Consultation>)
    requires NewestFirst(s) && (|s| > 0 ==> Key(x) >= Key(s[0]))
    ensures NewestFirst([x] + s)
  {
    var r := [x] + s;
    forall i, j | 0 <= i < j < |r|
      ensures Key(r[i]) >= Key(r[j])
    {
      assert r[j] == s[j - 1];
      if i == 0 {
        assert Key(s[0]) >= Key(s[j - 1]);
      } else {
        assert r[i] == s[i - 1];
      }
    }
  }

  /** Insertion into a newest-first list, after every strictly newer record. */
  function InsertByNewest(x: Consultation, s: seq<Consultation>): (r: seq<Consultation>)
    requires NewestFirst(s)
    ensures NewestFirst(r)
    ensures multiset(r) == multiset(s) + multiset{x}
    ensures |r| == |s| + 1
    ensures r[0] == x || (|s| > 0 && r[0] == s[0])
  {
    if s == [] then [x]
    else if Key(x) >= Key(s[0]) then
      ConsNewestFirst(x, s);
      [x] + s
    else
      assert s == [s[0]] + s[1..];
      var rest := InsertByNewest(x, s[1..]);
      assert Key(s[0]) >= Key(rest[0]);
      ConsNewestFirst(s[0], rest);
      assert multiset([s[0]] + rest) == multiset{s[0]} + multiset(rest);
      [s[0]] + rest
  }

  /** `sort({ createdAt: -1 })`: a newest-first permutation of `rs`. */
  function SortNewestFirst(rs: seq<Consultation>): (s: seq<Consultation>)
    ensures NewestFirst(s)
    ensures multiset(s) == multiset(rs)
    ensures |s| == |rs|
  {
    if rs == [] then []
    else
      assert rs == [rs[0]] + rs[1..];
      InsertByNewest(rs[0], SortNewestFirst(rs[1..]))
  }

  /** `.skip(skip).limit(limit)`: a limit of 0 means no limit, a negative one its magnitude. */
  function Window(s: seq<Consultation>, skip: nat, limit: int): (w: seq<Consultation>)
    ensures limit != 0 ==> |w| <= (if limit < 0 then -limit else limit)
    ensures skip <= |s| ==> skip + |w| <= |s| && w == s[skip..skip + |w|]
    ensures skip > |s| ==> w == []
    ensures limit == 0 ==> |w| == if skip <= |s| then |s| - skip else 0
    ensures limit != 0 && skip <= |s| ==>
      var n := if limit < 0 then -limit else limit;
      |w| == if skip + n <= |s| then n else |s| - skip
  {
    var n := if limit < 0 then -limit else limit;
    if skip > |s| then []
    else if limit == 0 || skip + n > |s| then s[skip..]
    else s[skip..skip + n]
  }

  /** `Math.ceil(total / limit)`, with the infinite and undefined quotients of limit 0 as `None`. */
  function PageCount(total: nat, limit: int): (pages: Option<int>)
    ensures pages.None? <==> limit == 0
    ensures limit > 0 ==>
      pages.Some? && 0 <= pages.value && (pages.value - 1) * limit < total <= pages.value * limit
  {
    if limit == 0 then None
    else if limit > 0 then
      var p := (total + limit - 1) / limit;
      assert p * limit <= total + limit - 1 < (p + 1) * limit;
      Some(p)
    else Some(-(total / -limit))
  }

  datatype ListQuery = ListQuery(
    status: Option<string>,
    consultationType: Option<string>,
    page: Option<int>,
    limit: Option<int>)

  datatype Pagination = Pagination(page: int, limit: int, total: nat, pages: Option<int>)

  datatype ListResponse = ListResponse(data: seq<RecordView>, pagination: Pagination)

  function Views(rs: seq<Consultation>): (vs: seq<RecordView>)
    ensures |vs| == |rs|
    ensures forall i :: 0 <= i < |rs| ==> vs[i] == WithReference(rs[i])
  {
    seq(|rs|, i requires 0 <= i < |rs| => WithReference(rs[i]))
  }

  /** A window of a newest-first list is newest first, and holds only records of the list. */
  lemma WindowOfNewestFirst(s: seq<Consultation>, skip: nat, limit: int)
    requires NewestFirst(s)
    ensures NewestFirst(Window(s, skip, limit))
    ensures forall i :: 0 <= i < |Window(s, skip, limit)| ==> Window(s, skip, limit)[i] in s
  {
    var w := Window(s, skip, limit);
    if skip <= |s| {
      forall i | 0 <= i < |w|
        ensures w[i] == s[skip + i]
      {
      }
    }
  }

  /** Sorting keeps exactly the records it was given. */
  lemma SortedMembers(rs: seq<Consultation>)
    ensures forall x :: x in SortNewestFirst(rs) ==> x in rs
  {
    var s := SortNewestFirst(rs);
    forall x | x in s
      ensures x in rs
    {
      assert x in multiset(s);
    }
  }

  /** The records the listing shows: the requested window of the matching records, newest first. */
  function ListedRecords(rs: seq<Consultation>, q: ListQuery, skip: nat, limit: int): (w: seq<Consultation>)
    ensures w == Window(SortNewestFirst(FilterRecords(rs, q.status, q.consultationType)), skip, limit)
    ensures forall i :: 0 <= i < |w| ==> w[i] in rs && Matches(w[i], q.status, q.consultationType)
    ensures NewestFirst(w)
  {
    var matching := FilterRecords(rs, q.status, q.consultationType);
    var sorted := SortNewestFirst(matching);
    WindowOfNewestFirst(sorted, skip, limit);
    SortedMembers(matching);
    Window(sorted, skip, limit)
  }

  function Skip(q: ListQuery): int {
    (q.page.GetOr(1) - 1) * q.limit.GetOr(10)
  }

  /**
   * `getAllConsultations`: page defaults to 1 and limit to 10; the skip is
   * (page - 1) * limit, and a negative skip is refused by the database.
   */
  function ListConsultations(rs: seq<Consultation>, q: ListQuery): (r: Result<ListResponse, string>)
    ensures r.Err? <==> Skip(q) < 0
    ensures r.Err? ==> r.error == FetchAllError
    ensures r.Ok? ==> r.value.pagination.page == q.page.GetOr(1) && r.value.pagination.limit == q.limit.GetOr(10)
    ensures r.Ok? ==> r.value.data == Views(ListedRecords(rs, q, Skip(q), q.limit.GetOr(10)))
    ensures r.Ok? ==> r.value.pagination.total == |FilterRecords(rs, q.status, q.consultationType)|
    ensures r.Ok? ==> r.value.pagination.pages == PageCount(r.value.pagination.total, q.limit.GetOr(10))
  {
    var page := q.page.GetOr(1);
    var limit := q.limit.GetOr(10);
    var skip := Skip(q);
    if skip < 0 then Err(FetchAllError)
    else
      var total := |FilterRecords(rs, q.status, q.consultationType)|;
      Ok(ListResponse(Views(ListedRecords(rs, q, skip, limit)), Pagination(page, limit, total, PageCount(total, limit))))
  }

  /**
   * Every listed record is in the collection, matches the non-empty filters and carries its
   * reference; the page is newest first and holds at most `limit` records.
   */
  lemma ListedPageContents(rs: seq<Consultation>, q: ListQuery)
    requires ListConsultations(rs, q).Ok?
    ensures var d := ListConsultations(rs, q).value.data; var limit := q.limit.GetOr(10);
      && (limit != 0 ==> |d| <= (if limit < 0 then -limit else limit))
      && (forall i :: 0 <= i < |d| ==>
            && d[i].record in rs && Matches(d[i].record, q.status, q.consultationType)
            && d[i].referenceNumber == ReferenceNumber(d[i].record.id))
      && (forall i, j :: 0 <= i < j < |d| ==> Key(d[i].record) >= Key(d[j].record))
  {
    var w := ListedRecords(rs, q, Skip(q), q.limit.GetOr(10));
    var d := ListConsultations(rs, q).value.data;
    assert forall i :: 0 <= i < |d| ==> d[i].record == w[i];
  }

  // ---------------------------------------------------------------- lookup

  /** The response of a single-record lookup: 200 with the record, 404, or 500. */
  datatype Lookup = Found(view: RecordView) | NotFound | Failed(message: string)

  function IndexOfId(rs: seq<Consultation>, id: string): (i: int)
    ensures -1 <= i < |rs|
    ensures i >= 0 ==> rs[i].id == id && forall k :: 0 <= k < i ==> rs[k].id != id
    ensures i == -1 <==> !HasId(rs, id)
  {
    if rs == [] then -1
    else if rs[0].id == id then 0
    else
      var k := IndexOfId(rs[1..], id);
      assert HasId(rs, id) ==> HasId(rs[1..], id) by {
        if HasId(rs, id) {
          var j :| 0 <= j < |rs| && rs[j].id == id;
          assert rs[1..][j - 1].id == id;
        }
      }
      if k == -1 then -1 else k + 1
  }

  /** `findById(id)` followed by the reference decoration: a malformed id is a cast error (500). */
  function GetById(rs: seq<Consultation>, id: string): (r: Lookup)
    ensures r.Failed? <==> CastObjectId(id).None?
    ensures r.Failed? ==> r.message == FetchOneError
    ensures r.NotFound? <==> CastObjectId(id).Some? && !HasId(rs, CastObjectId(id).value)
    ensures r.Found? ==>
      r.view.record in rs && r.view.record.id == Lower(id) && r.view.referenceNumber == ReferenceNumber(r.view.record.id)
  {
    match CastObjectId(id)
    case None => Failed(FetchOneError)
    case Some(key) =>
      var i := IndexOfId(rs, key);
      if i < 0 then NotFound else Found(WithReference(rs[i]))
  }

  lemma IndexOfStoredId(rs: seq<Consultation>, k: nat)
    requires UniqueIds(rs) && k < |rs|
    ensures IndexOfId(rs, rs[k].id) == k
  {
    assert HasId(rs, rs[k].id);
  }

  /** A stored record is found by its own id, in either letter case. */
  lemma GetByIdFindsStored(rs: seq<Consultation>, k: nat)
    requires WellFormedStore(rs) && k < |rs|
    ensures GetById(rs, rs[k].id) == Found(WithReference(rs[k]))
    ensures GetById(rs, Upper(rs[k].id)) == Found(WithReference(rs[k]))
  {
    IndexOfStoredId(rs, k);
    CastUpperObjectId(rs[k].id);
  }

  /** `getConsultationByRef`: the first five characters are dropped and the rest is looked up as an id. */
  function GetByRef(rs: seq<Consultation>, reference: string): (r: Lookup)
    ensures |reference| != 29 ==> r == Failed(FetchOneError)
    ensures r.Failed? <==> |reference| != 29 || CastObjectId(reference[5..]).None?
    ensures r.Found? <==>
      |reference| == 29 && CastObjectId(reference[5..]).Some? && HasId(rs, CastObjectId(reference[5..]).value)
    ensures r.NotFound? <==>
      |reference| == 29 && CastObjectId(reference[5..]).Some? && !HasId(rs, CastObjectId(reference[5..]).value)
    ensures r.Found? ==>
      r.view.record in rs && r.view.record.id == Lower(reference[5..]) && r.view == WithReference(r.view.record)
  {
    GetById(rs, DropPrefix(reference, 5))
  }

  /** A stored record is found when its whole id follows any five characters. */
  lemma GetByRefFindsStored(rs: seq<Consultation>, k: nat, prefix: string)
    requires WellFormedStore(rs) && k < |rs| && |prefix| == 5
    ensures GetByRef(rs, prefix + rs[k].id) == Found(WithReference(rs[k]))
  {
    assert DropPrefix(prefix + rs[k].id, 5) == rs[k].id;
    GetByIdFindsStored(rs, k);
  }

  /**
   * The reference a booking is issued never finds it: what follows the prefix is eight
   * characters, not an ObjectId, so the lookup fails with the fetch error.
   */
  lemma IssuedReferenceNeverFound(rs: seq<Consultation>, id: string)
    requires IsObjectIdHex(id)
    ensures GetByRef(rs, ReferenceNumber(id)) == Failed(FetchOneError)
  {
  }

  predicate HasReference(rs: seq<Consultation>, reference: string) {
    exists i :: 0 <= i < |rs| && ReferenceNumber(rs[i].id) == reference
  }

  /**
   * The lookup the confirmation page needs: the first record, in collection order, whose
   * reference number is the one given.
   */
  function FindByReference(rs: seq<Consultation>, reference: string): (r: Lookup)
    ensures !r.Failed?
    ensures r.Found? <==> HasReference(rs, reference)
    ensures r.Found? ==> r.view.record in rs && r.view.referenceNumber == reference && r.view == WithReference(r.view.record)
  {
    if rs == [] then NotFound
    else if ReferenceNumber(rs[0].id) == reference then Found(WithReference(rs[0]))
    else
      var r := FindByReference(rs[1..], reference);
      assert HasReference(rs, reference) ==> HasReference(rs[1..], reference) by {
        if HasReference(rs, reference) {
          var j :| 0 <= j < |rs| && ReferenceNumber(rs[j].id) == reference;
          assert rs[1..][j - 1] == rs[j];
        }
      }
      assert HasReference(rs[1..], reference) ==> HasReference(rs, reference) by {
        if HasReference(rs[1..], reference) {
          var j :| 0 <= j < |rs[1..]| && ReferenceNumber(rs[1..][j].id) == reference;
          assert rs[j + 1] == rs[1..][j];
        }
      }
      r
  }

  /** A booking whose reference no other booking shares is found by the reference it was issued. */
  lemma {:induction false} IssuedReferenceFound(rs: seq<Consultation>, k: nat)
    requires k < |rs|
    requires forall j :: 0 <= j < |rs| && j != k ==> ReferenceNumber(rs[j].id) != ReferenceNumber(rs[k].id)
    ensures FindByReference(rs, ReferenceNumber(rs[k].id)) == Found(WithReference(rs[k]))
  {
    if k > 0 {
      var tail := rs[1..];
      assert ReferenceNumber(rs[0].id) != ReferenceNumber(rs[k].id);
      assert tail[k - 1] == rs[k];
      forall j | 0 <= j < |tail| && j != k - 1
        ensures ReferenceNumber(tail[j].id) != ReferenceNumber(tail[k - 1].id)
      {
        assert tail[j] == rs[j + 1];
      }
      IssuedReferenceFound(tail, k - 1);
    }
  }

  // ---------------------------------------------------------------- statistics

  function CountStatus(rs: seq<Consultation>, s: string): (n: nat)
    ensures n <= |rs|
  {
    if rs == [] then 0 else (if rs[0].status == s then 1 else 0) + CountStatus(rs[1..], s)
  }

  function CountType(rs: seq<Consultation>, t: string): (n: nat)
    ensures n <= |rs|
  {
    if rs == [] then 0 else (if rs[0].consultationType == t then 1 else 0) + CountType(rs[1..], t)
  }

  /** Counts of distinct status values together never exceed the number of records. */
  lemma {:induction false} StatusCountsBounded(rs: seq<Consultation>, a: string, b: string, c: string)
    requires a != b && b != c && a != c
    ensures CountStatus(rs, a) + CountStatus(rs, b) + CountStatus(rs, c) <= |rs|
  {
    if rs != [] {
      StatusCountsBounded(rs[1..], a, b, c);
    }
  }

  lemma {:induction false} TypeCountsBounded(rs: seq<Consultation>, a: string, b: string)
    requires a != b
    ensures CountType(rs, a) + CountType(rs, b) <= |rs|
  {
    if rs != [] {
      TypeCountsBounded(rs[1..], a, b);
    }
  }

  /** Every record is either a skin or a hair consultation, so the two counts add up to the total. */
  lemma {:induction false} TypeCountsCoverValid(rs: seq<Consultation>)
    requires forall i :: 0 <= i < |rs| ==> ValidRecord(rs[i])
    ensures CountType(rs, "skin") + CountType(rs, "hair") == |rs|
  {
    if rs != [] {
      TypeCountsCoverValid(rs[1..]);
    }
  }

  /** `countDocuments({ consultationType })` counts what `find({ consultationType })` lists. */
  lemma {:induction false} CountTypeIsFilterSize(rs: seq<Consultation>, t: string)
    requires t != ""
    ensures CountType(rs, t) == |FilterRecords(rs, None, Some(t))|
  {
    if rs != [] {
      CountTypeIsFilterSize(rs[1..], t);
    }
  }

  /** `countDocuments({ status })` counts what `find({ status })` lists. */
  lemma {:induction false} CountStatusIsFilterSize(rs: seq<Consultation>, s: string)
    requires s != ""
    ensures CountStatus(rs, s) == |FilterRecords(rs, Some(s), None)|
  {
    if rs != [] {
      CountStatusIsFilterSize(rs[1..], s);
    }
  }

  datatype Stats = Stats(total: nat, pending: nat, scheduled: nat, completed: nat, skin: nat, hair: nat)

  /** `getConsultationStats`: counts over the whole collection. */
  function GetStats(rs: seq<Consultation>): (st: Stats)
    ensures st.total == |rs|
    ensures st.pending == |FilterRecords(rs, Some("pending"), None)|
    ensures st.scheduled == |FilterRecords(rs, Some("scheduled"), None)|
    ensures st.completed == |FilterRecords(rs, Some("completed"), None)|
    ensures st.skin == |FilterRecords(rs, None, Some("skin"))|
    ensures st.hair == |FilterRecords(rs, None, Some("hair"))|
    ensures st.pending + st.scheduled + st.completed <= st.total
    ensures st.skin + st.hair <= st.total
  {
    StatusCountsBounded(rs, "pending", "scheduled", "completed");
    TypeCountsBounded(rs, "skin", "hair");
    CountStatusIsFilterSize(rs, "pending");
    CountStatusIsFilterSize(rs, "scheduled");
    CountStatusIsFilterSize(rs, "completed");
    CountTypeIsFilterSize(rs, "skin");
    CountTypeIsFilterSize(rs, "hair");
    Stats(|rs|, CountStatus(rs, "pending"), CountStatus(rs, "scheduled"), CountStatus(rs, "completed"),
          CountType(rs, "skin"), CountType(rs, "hair"))
  }

  // ---------------------------------------------------------------- update

  /**
   * The body of an update request; `None` is a field the request leaves undefined. The notes
   * and the expert may also be sent as `null`, which is stored.
   */
  datatype Patch = Patch(
    status: Option<string>,
    expertNotes: Field<string>,
    assignedExpert: Field<string>,
    scheduledDate: Option<string>,
    scheduledTime: Option<string>)

  /** What a string field holds once `null` or a string has been written to it. */
  function Stored(f: Field<string>): Option<string> {
    if f.Defined? then Some(f.value) else None
  }

  /**
   * The fields `updateData` sets: status, scheduledDate and scheduledTime only when truthy,
   * expertNotes and assignedExpert whenever not undefined (`null` included); the timestamp
   * plugin sets updatedAt.
   */
  function ApplyPatch(r: Consultation, p: Patch, date: Date, now: Date): (u: Consultation)
    ensures u.status == (if Present(p.status) then p.status.value else r.status)
    ensures p.expertNotes.Undefined? ==> u.expertNotes == r.expertNotes
    ensures p.expertNotes.Null? ==> u.expertNotes == None
    ensures p.expertNotes.Defined? ==> u.expertNotes == Some(p.expertNotes.value)
    ensures p.assignedExpert.Undefined? ==> u.assignedExpert == r.assignedExpert
    ensures p.assignedExpert.Null? ==> u.assignedExpert == None
    ensures p.assignedExpert.Defined? ==> u.assignedExpert == Some(p.assignedExpert.value)
    ensures u.scheduledDate == (if Present(p.scheduledDate) then Some(date) else r.scheduledDate)
    ensures u.scheduledTime == (if Present(p.scheduledTime) then p.scheduledTime else r.scheduledTime)
    ensures u.updatedAt == now
    ensures u == r.(status := u.status, expertNotes := u.expertNotes, assignedExpert := u.assignedExpert,
                    scheduledDate := u.scheduledDate, scheduledTime := u.scheduledTime, updatedAt := now)
  {
    var u := r.(updatedAt := now);
    var u := if Present(p.status) then u.(status := p.status.value) else u;
    var u := if p.expertNotes.Undefined? then u else u.(expertNotes := Stored(p.expertNotes));
    var u := if p.assignedExpert.Undefined? then u else u.(assignedExpert := Stored(p.assignedExpert));
    var u := if Present(p.scheduledDate) then u.(scheduledDate := Some(date)) else u;
    if Present(p.scheduledTime) then u.(scheduledTime := p.scheduledTime) else u
  }

  /** An update whose status passes the enum validator keeps the record valid. */
  lemma ApplyPatchPreservesValid(r: Consultation, p: Patch, date: Date, now: Date)
    requires ValidRecord(r)
    requires Present(p.status) ==> IsStatus(p.status.value)
    ensures ValidRecord(ApplyPatch(r, p, date, now))
  {
  }

  /** Payment and identity fields are never touched by an update. */
  lemma ApplyPatchKeepsPayment(r: Consultation, p: Patch, date: Date, now: Date)
    ensures var u := ApplyPatch(r, p, date, now);
      && u.id == r.id && u.name == r.name && u.age == r.age
      && u.razorpayOrderId == r.razorpayOrderId && u.razorpayPaymentId == r.razorpayPaymentId
      && u.amount == r.amount && u.paymentStatus == r.paymentStatus && u.createdAt == r.createdAt
  {
  }

  /**
   * The update response. The record is a hydrated document: assigning its getter-only
   * `referenceNumber` virtual stores nothing and `toJSON` leaves virtuals out, so the
   * response carries the stored fields only.
   */
  datatype UpdateOutcome = Updated(record: Consultation) | UpdateNotFound | UpdateFailed(message: string)

  /**
   * `updateConsultation` against a snapshot: the id and the date are cast first, then the
   * status is validated, then the record is looked up. Returns the response and the new collection.
   */
  function UpdateResult(rs: seq<Consultation>, id: string, p: Patch, parseDate: string -> Option<Date>, now: Date)
    : (res: (UpdateOutcome, seq<Consultation>))
    ensures res.0.UpdateFailed? ==> res.0.message == UpdateError
    ensures !res.0.Updated? ==> res.1 == rs
    ensures res.0.UpdateFailed? <==>
      || CastObjectId(id).None?
      || (Present(p.scheduledDate) && parseDate(p.scheduledDate.value).None?)
      || (Present(p.status) && !IsStatus(p.status.value))
    ensures res.0.UpdateNotFound? ==> CastObjectId(id).Some? && !HasId(rs, CastObjectId(id).value)
    ensures res.0.Updated? ==>
      var key := CastObjectId(id).value;
      var k := IndexOfId(rs, key);
      && 0 <= k < |rs|
      && res.1 == rs[k := res.0.record]
      && res.0.record == ApplyPatch(rs[k], p,
           if Present(p.scheduledDate) then parseDate(p.scheduledDate.value).value else now, now)
  {
    match CastObjectId(id)
    case None => (UpdateFailed(UpdateError), rs)
    case Some(key) =>
      if Present(p.scheduledDate) && parseDate(p.scheduledDate.value).None? then (UpdateFailed(UpdateError), rs)
      else if Present(p.status) && !IsStatus(p.status.value) then (UpdateFailed(UpdateError), rs)
      else
        var k := IndexOfId(rs, key);
        if k < 0 then (UpdateNotFound, rs)
        else
          var date := if Present(p.scheduledDate) then parseDate(p.scheduledDate.value).value else now;
          var u := ApplyPatch(rs[k], p, date, now);
          (Updated(u), rs[k := u])
  }

  /** Replacing a record by one with the same id that is still valid keeps the collection well formed. */
  lemma ReplacePreservesStore(rs: seq<Consultation>, k: nat, u: Consultation)
    requires WellFormedStore(rs) && k < |rs|
    requires u.id == rs[k].id && ValidRecord(u)
    ensures WellFormedStore(rs[k := u])
  {
    var rs' := rs[k := u];
    forall i | 0 <= i < |rs'|
      ensures IsObjectIdHex(rs'[i].id) && ValidRecord(rs'[i])
    {
      if i != k {
        assert rs'[i] == rs[i];
      }
    }
    forall i, j | 0 <= i < j < |rs'|
      ensures rs'[i].id != rs'[j].id
    {
      assert rs'[i].id == rs[i].id && rs'[j].id == rs[j].id;
    }
  }

  /** Appending a valid record under a new ObjectId keeps the collection well formed. */
  lemma AppendPreservesStore(rs: seq<Consultation>, r: Consultation)
    requires WellFormedStore(rs) && IsObjectIdHex(r.id) && ValidRecord(r) && !HasId(rs, r.id)
    ensures WellFormedStore(rs + [r])
  {
    var rs' := rs + [r];
    assert forall i :: 0 <= i < |rs| ==> rs'[i] == rs[i];
  }

  /** An update keeps the collection well formed. */
  lemma UpdatePreservesStore(rs: seq<Consultation>, id: string, p: Patch, parseDate: string -> Option<Date>, now: Date)
    requires WellFormedStore(rs)
    ensures WellFormedStore(UpdateResult(rs, id, p, parseDate, now).1)
  {
    var res := UpdateResult(rs, id, p, parseDate, now);
    if res.0.Updated? {
      var k := IndexOfId(rs, CastObjectId(id).value);
      var date := if Present(p.scheduledDate) then parseDate(p.scheduledDate.value).value else now;
      var u := ApplyPatch(rs[k], p, date, now);
      ApplyPatchPreservesValid(rs[k], p, date, now);
      ReplacePreservesStore(rs, k, u);
    }
  }

  /** The calendar result written back onto a booking. */
  datatype CalendarData = CalendarData(eventId: string, htmlLink: string)

  /**
   * A booking with the calendar event id and link set and, since `save()` runs the timestamp
   * plugin, `updatedAt` moved to the time of that save; every other field is kept.
   */
  function WithCalendar(r: Consultation, c: CalendarData, now: Date): (u: Consultation)
    ensures u.googleCalendarEventId == Some(c.eventId) && u.googleCalendarLink == Some(c.htmlLink)
    ensures u.updatedAt == now
    ensures u.(googleCalendarEventId := r.googleCalendarEventId, googleCalendarLink := r.googleCalendarLink,
               updatedAt := r.updatedAt) == r
    ensures ValidRecord(r) ==> ValidRecord(u)
  {
    r.(googleCalendarEventId := Some(c.eventId), googleCalendarLink := Some(c.htmlLink), updatedAt := now)
  }

  /** The collection after the write-back: the booking with `id` gets the calendar fields. */
  function CalendarWriteBack(rs: seq<Consultation>, id: string, c: CalendarData, now: Date): (out: seq<Consultation>)
    ensures |out| == |rs|
    ensures forall i :: 0 <= i < |rs| ==> out[i] == if rs[i].id == id then WithCalendar(rs[i], c, now) else rs[i]
  {
    seq(|rs|, i requires 0 <= i < |rs| => if rs[i].id == id then WithCalendar(rs[i], c, now) else rs[i])
  }

  /** The write-back keeps the collection well formed and changes at most one booking. */
  lemma CalendarWriteBackPreservesStore(rs: seq<Consultation>, id: string, c: CalendarData, now: Date)
    requires WellFormedStore(rs)
    ensures WellFormedStore(CalendarWriteBack(rs, id, c, now))
    ensures forall i, j :: 0 <= i < j < |rs| && rs[i].id == id ==> CalendarWriteBack(rs, id, c, now)[j] == rs[j]
  {
    var out := CalendarWriteBack(rs, id, c, now);
    forall i | 0 <= i < |out|
      ensures out[i].id == rs[i].id && ValidRecord(out[i])
    {
    }
  }

  /** The collection of consultation bookings. */
  class ConsultationStore {
    var records: seq<Consultation>

    ghost predicate Valid()
      reads this
    {
      WellFormedStore(records)
    }

    constructor ()
      ensures Valid() && records == []
    {
      records := [];
    }

    /**
     * `Consultation.create`: validate, run the pre-save hook on the new document, insert.
     * `writeOk` stands for the database accepting the insert.
     */
    method Create(input: NewConsultation, id: string, now: Date, writeOk: bool)
      returns (r: Result<Consultation, string>)
      requires Valid() && IsObjectIdHex(id)
      modifies this
      ensures Valid()
      ensures r.Ok? <==> Validate(input, id, now).Ok? && !HasId(old(records), id) && writeOk
      ensures r.Ok? ==> r.value == AutoSchedule(Validate(input, id, now).value, true, now)
      ensures r.Ok? ==> records == old(records) + [r.value]
      ensures r.Err? ==> records == old(records)
    {
      var v := Validate(input, id, now);
      if v.Err? {
        r := Err("Consultation validation failed");
        return;
      }
      var doc := new ConsultationDocument(v.value);
      doc.PreSave(now);
      if IndexOfId(records, id) >= 0 {
        r := Err("E11000 duplicate key error");
        return;
      }
      if !writeOk {
        r := Err("database write failed");
        return;
      }
      AutoSchedulePreservesValid(v.value, true, now);
      AppendPreservesStore(records, doc.record);
      records := records + [doc.record];
      doc.MarkSaved();
      r := Ok(doc.record);
    }

    /** `findByIdAndUpdate` with the request's patch; changes at most the one record it names. */
    method Update(id: string, p: Patch, parseDate: string -> Option<Date>, now: Date)
      returns (out: UpdateOutcome)
      requires Valid()
      modifies this
      ensures Valid()
      ensures (out, records) == UpdateResult(old(records), id, p, parseDate, now)
    {
      UpdatePreservesStore(records, id, p, parseDate, now);
      var res := UpdateResult(records, id, p, parseDate, now);
      out := res.0;
      records := res.1;
    }

    /**
     * The calendar write-back: when the calendar returned data, the booking's event id and
     * link are set and the save at `now` stamps `updatedAt`; nothing else changes.
     */
    method SetCalendarFields(id: string, calendar: Option<CalendarData>, now: Date)
      requires Valid()
      modifies this
      ensures Valid()
      ensures calendar.None? ==> records == old(records)
      ensures calendar.Some? ==> records == CalendarWriteBack(old(records), id, calendar.value, now)
    {
      if calendar.Some? {
        CalendarWriteBackPreservesStore(records, id, calendar.value, now);
        records := CalendarWriteBack(records, id, calendar.value, now);
      }
    }
  }
}

/**
 * The consultation booking record (backend/src/models/Consultation.js): the schema's
 * field rules and defaults, the derived reference number, and the pre-save hook that
 * auto-schedules a new booking.
 */
module ConsultationModel {
  import opened Wrappers
  import opened Strings

  const MsPerDay: int := 86400000

  type MsOfDay = x: int | 0 <= x < 86400000

  /** A point in time: a day number and the milliseconds elapsed since that day's midnight. */
  datatype Date = Date(day: int, ms: MsOfDay) {
    function Millis(): int {
      day * MsPerDay + ms
    }
  }

  /** 10:00:00.000, the time of day `setHours(10, 0, 0, 0)` sets. */
  const TenAm: MsOfDay := 36000000
  const DefaultTime: string := "10:00 AM"
  const ReferencePrefix: string := "CONS-"

  predicate IsGender(s: string) {
    s == "male" || s == "female" || s == "other"
  }

  predicate IsConsultationType(s: string) {
    s == "skin" || s == "hair"
  }

  predicate IsSkinType(s: string) {
    s == "dry" || s == "oily" || s == "combination" || s == "normal" || s == "sensitive"
  }

  predicate IsPaymentStatus(s: string) {
    s == "pending" || s == "completed" || s == "failed"
  }

  predicate IsStatus(s: string) {
    s == "pending" || s == "scheduled" || s == "completed" || s == "cancelled"
  }

  predicate IsHexChar(c: char) {
    ('0' <= c <= '9') || ('a' <= c <= 'f') || ('A' <= c <= 'F')
  }

  predicate IsLowerHexChar(c: char) {
    ('0' <= c <= '9') || ('a' <= c <= 'f')
  }

  /** The string form of an ObjectId, as `_id.toString()` renders it: 24 lower-case hex digits. */
  predicate IsObjectIdHex(s: string) {
    |s| == 24 && forall i :: 0 <= i < |s| ==> IsLowerHexChar(s[i])
  }

  /**
   * Casting a request string to an ObjectId: 24 hex digits in either case are accepted and
   * denote the id written in lower case; anything else is a cast error.
   */
  function CastObjectId(s: string): (r: Option<string>)
    ensures r.Some? <==> |s| == 24 && forall i :: 0 <= i < |s| ==> IsHexChar(s[i])
    ensures r.Some? ==> IsObjectIdHex(r.value)
    ensures IsObjectIdHex(s) ==> r == Some(s)
    ensures r.Some? ==> r.value == Lower(s)
  {
    if |s| == 24 && forall i :: 0 <= i < |s| ==> IsHexChar(s[i]) then
      var l := Lower(s);
      assert forall i :: 0 <= i < |l| ==> IsLowerHexChar(l[i]);
      assert IsObjectIdHex(s) ==> l == s;
      Some(l)
    else
      None
  }

  /** An ObjectId written in capitals casts back to the same id. */
  lemma CastUpperObjectId(id: string)
    requires IsObjectIdHex(id)
    ensures CastObjectId(Upper(id)) == Some(id)
  {
    var up := Upper(id);
    assert forall j :: 0 <= j < 24 ==> IsHexChar(up[j]);
    assert Lower(up) == id by {
      assert forall j :: 0 <= j < 24 ==> Lower(up)[j] == id[j];
    }
  }

  /** The fields handed to `Consultation.create`; `None` is a field that was not supplied. */
  datatype NewConsultation = NewConsultation(
    name: Option<string>,
    age: Option<int>,
    gender: Option<string>,
    email: Option<string>,
    phone: Option<string>,
    consultationType: Option<string>,
    skinType: Option<string>,
    concerns: Option<string>,
    currentProducts: Option<string>,
    razorpayOrderId: Option<string>,
    razorpayPaymentId: Option<string>,
    amount: Option<int>,
    paymentStatus: Option<string>,
    scheduledDate: Option<Date>,
    scheduledTime: Option<string>,
    status: Option<string>,
    expertNotes: Option<string>,
    assignedExpert: Option<string>)

  /** A stored consultation booking. */
  datatype Consultation = Consultation(
    id: string,
    name: string,
    age: int,
    gender: string,
    email: Option<string>,
    phone: Option<string>,
    consultationType: string,
    skinType: Option<string>,
    concerns: string,
    currentProducts: string,
    razorpayOrderId: string,
    razorpayPaymentId: string,
    amount: int,
    paymentStatus: string,
    scheduledDate: Option<Date>,
    scheduledTime: Option<string>,
    status: string,
    googleCalendarEventId: Option<string>,
    googleCalendarLink: Option<string>,
    user: Option<string>,
    expertNotes: Option<string>,     // None: set to null by an update
    assignedExpert: Option<string>,
    createdAt: Date,
    updatedAt: Date)


  /** The schema's enum validator: an absent value passes, a present one must be listed. */
  predicate EnumAbsentOr(o: Option<string>, listed: bool) {
    o.None? || listed
  }

  /** The e-mail address as the schema stores it: trimmed and lower-cased. */
  function NormalizeEmail(e: string): string {
    Lower(Trim(e))
  }

  /** Everything the schema demands of a stored record. */
  predicate ValidRecord(r: Consultation) {
    && r.name != "" && Trim(r.name) == r.name
    && 1 <= r.age <= 120
    && IsGender(r.gender)
    && IsConsultationType(r.consultationType)
    && (r.skinType.Some? ==> IsSkinType(r.skinType.value))
    && r.razorpayOrderId != ""
    && r.razorpayPaymentId != ""
    && IsPaymentStatus(r.paymentStatus)
    && IsStatus(r.status)
    && (r.email.Some? ==> NormalizeEmail(r.email.value) == r.email.value)
    && (r.phone.Some? ==> Trim(r.phone.value) == r.phone.value)
  }

  predicate NameOk(input: NewConsultation) {
    input.name.Some? && Trim(input.name.value) != ""
  }

  predicate AgeOk(input: NewConsultation) {
    input.age.Some? && 1 <= input.age.value <= 120
  }

  predicate GenderOk(input: NewConsultation) {
    Present(input.gender) && IsGender(input.gender.value)
  }

  predicate TypeOk(input: NewConsultation) {
    Present(input.consultationType) && IsConsultationType(input.consultationType.value)
  }

  predicate SkinTypeOk(input: NewConsultation) {
    EnumAbsentOr(input.skinType, input.skinType.Some? && IsSkinType(input.skinType.value))
  }

  predicate PaymentStatusOk(input: NewConsultation) {
    EnumAbsentOr(input.paymentStatus, input.paymentStatus.Some? && IsPaymentStatus(input.paymentStatus.value))
  }

  predicate StatusOk(input: NewConsultation) {
    EnumAbsentOr(input.status, input.status.Some? && IsStatus(input.status.value))
  }

  /** The paths that fail validation, in the schema's order. */
  function FieldErrors(input: NewConsultation): seq<string> {
    (if NameOk(input) then [] else ["name"])
    + (if AgeOk(input) then [] else ["age"])
    + (if GenderOk(input) then [] else ["gender"])
    + (if TypeOk(input) then [] else ["consultationType"])
    + (if SkinTypeOk(input) then [] else ["skinType"])
    + (if Present(input.razorpayOrderId) then [] else ["razorpayOrderId"])
    + (if Present(input.razorpayPaymentId) then [] else ["razorpayPaymentId"])
    + (if input.amount.Some? then [] else ["amount"])
    + (if PaymentStatusOk(input) then [] else ["paymentStatus"])
    + (if StatusOk(input) then [] else ["status"])
  }

  /** No path fails exactly when every rule holds. */
  lemma NoFieldErrors(input: NewConsultation)
    ensures FieldErrors(input) == [] <==>
      && NameOk(input) && AgeOk(input) && GenderOk(input) && TypeOk(input) && SkinTypeOk(input)
      && Present(input.razorpayOrderId) && Present(input.razorpayPaymentId) && input.amount.Some?
      && PaymentStatusOk(input) && StatusOk(input)
  {
  }

  lemma TrimLowerTrimmed(e: string)
    ensures Trim(Lower(Trim(e))) == Lower(Trim(e))
  {
    var t := Trim(e);
    var l := Lower(t);
    if l != [] {
      assert !IsSpace(l[0]) && !IsSpace(l[|l| - 1]);
      assert TrimStart(l) == l;
      assert TrimEnd(l) == l;
    }
  }

  lemma LowerIdempotent(s: string)
    ensures Lower(Lower(s)) == Lower(s)
  {
    assert forall i :: 0 <= i < |s| ==> Lower(Lower(s))[i] == Lower(s)[i];
  }

  lemma NormalizeEmailIdempotent(e: string)
    ensures NormalizeEmail(NormalizeEmail(e)) == NormalizeEmail(e)
  {
    TrimLowerTrimmed(e);
    LowerIdempotent(Trim(e));
  }

  /**
   * `Consultation.create`'s casting and validation step: setters trim `name`, `email` and
   * `phone` and lower-case `email`; defaults fill unsupplied fields; the result is either
   * the record or the list of the failing paths.
   */
  function Validate(input: NewConsultation, id: string, now: Date): (r: Result<Consultation, seq<string>>)
    ensures r.Ok? <==> FieldErrors(input) == []
    ensures r.Err? ==> r.error == FieldErrors(input) && r.error != []
    ensures r.Ok? ==> ValidRecord(r.value) && r.value.id == id
    ensures r.Ok? ==> r.value.createdAt == now && r.value.updatedAt == now
  {
    NoFieldErrors(input);
    if FieldErrors(input) != [] then
      Err(FieldErrors(input))
    else
      var email := if input.email.Some? then Some(NormalizeEmail(input.email.value)) else None;
      var phone := if input.phone.Some? then Some(Trim(input.phone.value)) else None;
      NormalizeEmailIdempotent(input.email.GetOr(""));
      TrimIdempotent(input.phone.GetOr(""));
      TrimIdempotent(input.name.value);
      var r := Consultation(
        id := id,
        name := Trim(input.name.value),
        age := input.age.value,
        gender := input.gender.value,
        email := email,
        phone := phone,
        consultationType := input.consultationType.value,
        skinType := input.skinType,
        concerns := input.concerns.GetOr(""),
        currentProducts := input.currentProducts.GetOr(""),
        razorpayOrderId := input.razorpayOrderId.value,
        razorpayPaymentId := input.razorpayPaymentId.value,
        amount := input.amount.value,
        paymentStatus := input.paymentStatus.GetOr("completed"),
        scheduledDate := input.scheduledDate,
        scheduledTime := input.scheduledTime,
        status := input.status.GetOr("pending"),
        googleCalendarEventId := None,
        googleCalendarLink := None,
        user := None,
        expertNotes := Some(input.expertNotes.GetOr("")),
        assignedExpert := Some(input.assignedExpert.GetOr("")),
        createdAt := now,
        updatedAt := now);
      Ok(r)
  }

  /** Validation succeeds exactly when every schema rule holds of the supplied fields. */
  lemma ValidateAcceptsExactly(input: NewConsultation, id: string, now: Date)
    ensures Validate(input, id, now).Ok? <==>
      && input.name.Some? && Trim(input.name.value) != ""
      && input.age.Some? && 1 <= input.age.value <= 120
      && input.gender.Some? && IsGender(input.gender.value)
      && input.consultationType.Some? && IsConsultationType(input.consultationType.value)
      && (input.skinType.Some? ==> IsSkinType(input.skinType.value))
      && Present(input.razorpayOrderId) && Present(input.razorpayPaymentId)
      && input.amount.Some?
      && (input.paymentStatus.Some? ==> IsPaymentStatus(input.paymentStatus.value))
      && (input.status.Some? ==> IsStatus(input.status.value))
  {
  }

  /** A missing required field is named in the validation error. */
  lemma MissingRequiredRejected(input: NewConsultation, id: string, now: Date)
    ensures input.name.None? ==> Validate(input, id, now).Err? && "name" in Validate(input, id, now).error
    ensures input.age.None? ==> Validate(input, id, now).Err? && "age" in Validate(input, id, now).error
    ensures input.gender.None? ==> Validate(input, id, now).Err? && "gender" in Validate(input, id, now).error
    ensures input.consultationType.None? ==>
      Validate(input, id, now).Err? && "consultationType" in Validate(input, id, now).error
    ensures input.razorpayOrderId.None? ==>
      Validate(input, id, now).Err? && "razorpayOrderId" in Validate(input, id, now).error
    ensures input.razorpayPaymentId.None? ==>
      Validate(input, id, now).Err? && "razorpayPaymentId" in Validate(input, id, now).error
    ensures input.amount.None? ==> Validate(input, id, now).Err? && "amount" in Validate(input, id, now).error
  {
    var e := FieldErrors(input);
    if input.amount.None? {
      assert "amount" in e;
    }
  }

  /** A supplied skin type outside the enum, the empty string included, is rejected. */
  lemma SkinTypeOutsideEnumRejected(input: NewConsultation, id: string, now: Date)
    requires input.skinType.Some? && !IsSkinType(input.skinType.value)
    ensures Validate(input, id, now).Err? && "skinType" in Validate(input, id, now).error
  {
    var e := FieldErrors(input);
    assert "skinType" in e;
  }

  /** Unsupplied fields take the schema's defaults; supplied ones are kept. */
  lemma DefaultsApplied(input: NewConsultation, id: string, now: Date)
    requires Validate(input, id, now).Ok?
    ensures var r := Validate(input, id, now).value;
      && (input.paymentStatus.None? ==> r.paymentStatus == "completed")
      && (input.status.None? ==> r.status == "pending")
      && (input.concerns.None? ==> r.concerns == "")
      && (input.currentProducts.None? ==> r.currentProducts == "")
      && (input.expertNotes.None? ==> r.expertNotes == Some(""))
      && (input.assignedExpert.None? ==> r.assignedExpert == Some(""))
      && (input.status.Some? ==> r.status == input.status.value)
      && (input.concerns.Some? ==> r.concerns == input.concerns.value)
      && r.name == Trim(input.name.value)
      && (input.email.Some? ==> r.email == Some(Lower(Trim(input.email.value))))
      && r.skinType == input.skinType
      && r.scheduledDate == input.scheduledDate
  {
  }

  /** The `referenceNumber` virtual: `CONS-` and the first eight characters of the id, upper-cased. */
  function ReferenceNumber(id: string): (r: string)
    ensures |r| == 5 + (if |id| < 8 then |id| else 8)
    ensures r[..5] == ReferencePrefix
    ensures forall i :: 5 <= i < |r| ==> r[i] == UpperChar(id[i - 5])
  {
    ReferencePrefix + Upper(Prefix(id, 8))
  }

  /** For an ObjectId the reference has 13 characters, the last eight upper-case hex digits. */
  lemma ReferenceOfObjectId(id: string)
    requires IsObjectIdHex(id)
    ensures |ReferenceNumber(id)| == 13
    ensures forall i :: 5 <= i < 13 ==>
      var c := ReferenceNumber(id)[i]; ('0' <= c <= '9') || ('A' <= c <= 'F')
  {
  }

  /**
   * The reference keeps only eight characters of the id: two ObjectIds have the same
   * reference exactly when their first eight characters agree.
   */
  lemma ReferenceCollision(a: string, b: string)
    requires IsObjectIdHex(a) && IsObjectIdHex(b)
    ensures ReferenceNumber(a) == ReferenceNumber(b) <==> a[..8] == b[..8]
  {
    if ReferenceNumber(a) == ReferenceNumber(b) {
      forall i | 0 <= i < 8
        ensures a[i] == b[i]
      {
        assert ReferenceNumber(a)[i + 5] == ReferenceNumber(b)[i + 5];
        assert UpperChar(a[i]) == UpperChar(b[i]);
      }
    }
    if a[..8] == b[..8] {
      assert forall i :: 0 <= i < 8 ==> a[i] == b[i] by {
        forall i | 0 <= i < 8 ensures a[i] == b[i] {
          assert a[..8][i] == b[..8][i];
        }
      }
      assert Prefix(a, 8) == Prefix(b, 8);
    }
  }

  /** The worked example: id 60c72b2f9b1e8a3f4c8b4567 has reference CONS-60C72B2F. */
  lemma ReferenceExample()
    ensures ReferenceNumber("60c72b2f9b1e8a3f4c8b4567") == "CONS-60C72B2F"
  {
    var u := Upper(Prefix("60c72b2f9b1e8a3f4c8b4567", 8));
    assert u == "60C72B2F";
  }

  /** The scheduled date the hook assigns: two days after `now`, at 10:00:00.000. */
  function TwoDaysAtTen(now: Date): (d: Date)
    ensures d.day == now.day + 2 && d.ms == TenAm
    ensures d.Millis() - now.Millis() > MsPerDay
  {
    Date(now.day + 2, TenAm)
  }

  /** Whether the pre-save hook fires: only for a new record that has no scheduled date. */
  predicate HookFires(r: Consultation, isNew: bool) {
    isNew && r.scheduledDate.None?
  }

  /** The effect of the pre-save hook on a record saved at time `now`. */
  function AutoSchedule(r: Consultation, isNew: bool, now: Date): (s: Consultation)
    ensures HookFires(r, isNew) ==>
      && s.scheduledDate == Some(TwoDaysAtTen(now))
      && s.scheduledTime == Some(DefaultTime)
      && s.status == "scheduled"
      && s == r.(scheduledDate := s.scheduledDate, scheduledTime := s.scheduledTime, status := s.status)
    ensures !HookFires(r, isNew) ==> s == r
    ensures s.scheduledDate.Some? || !isNew
  {
    if HookFires(r, isNew) then
      r.(scheduledDate := Some(TwoDaysAtTen(now)), scheduledTime := Some(DefaultTime), status := "scheduled")
    else
      r
  }

  /** Running the hook a second time, at any time, changes nothing. */
  lemma AutoScheduleOnce(r: Consultation, isNew: bool, now: Date, later: Date)
    ensures AutoSchedule(AutoSchedule(r, isNew, now), isNew, later) == AutoSchedule(r, isNew, now)
  {
  }

  /** The hook keeps a valid record valid. */
  lemma AutoSchedulePreservesValid(r: Consultation, isNew: bool, now: Date)
    requires ValidRecord(r)
    ensures ValidRecord(AutoSchedule(r, isNew, now))
  {
  }

  /** A Mongoose document of the consultation model: the record and whether it is yet unsaved. */
  class ConsultationDocument {
    var record: Consultation
    var isNew: bool

    constructor (r: Consultation)
      ensures record == r && isNew
    {
      record := r;
      isNew := true;
    }

    /** The `pre('save')` hook: updates the scheduled date, time and status in place. */
    method PreSave(now: Date)
      modifies this
      ensures isNew == old(isNew)
      ensures record == AutoSchedule(old(record), old(isNew), now)
    {
      if isNew && record.scheduledDate.None? {
        var scheduledDate := Date(now.day + 2, now.ms);
        scheduledDate := scheduledDate.(ms := TenAm);
        record := record.(scheduledDate := Some(scheduledDate));
        record := record.(scheduledTime := Some(DefaultTime));
        record := record.(status := "scheduled");
      }
    }

    /** After the first save the document is no longer new. */
    method MarkSaved()
      modifies this
      ensures record == old(record) && !isNew
    {
      isNew := false;
    }
  }
}

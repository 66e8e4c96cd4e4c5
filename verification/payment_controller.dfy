/**
 * The payment endpoints (backend/src/controllers/paymentController.js): creating a gateway
 * order, and verifying a payment signature and booking the consultation it paid for.
 *
 * The gateway client, the HMAC-SHA256 digest and the clock are parameters: the gateway's
 * `orders.create` is `ordersCreate` (None when it throws), the hex digest is `hmacHex(key, message)`.
 */
module PaymentController {
  import opened Wrappers
  import opened Strings
  import opened ConsultationModel
  import opened ConsultationController

  /** Every booking costs 29900 paise (299 rupees). */
  const BookingAmount: int := 29900
  const DefaultCurrency: string := "INR"

  const NotConfiguredMessage: string :=
    "Payment gateway is not configured. Please add Razorpay keys to .env file."
  const AmountRequiredMessage: string := "Amount is required"
  const OrderErrorMessage: string := "Error creating payment order"
  const VerificationFailedMessage: string := "Payment verification failed"
  const SaveFailedMessage: string :=
    "Payment verified but failed to save consultation. Please contact support."
  const BookedMessage: string := "Payment verified successfully and consultation booked"

  /** The two gateway credentials read from the environment. */
  datatype GatewayEnv = GatewayEnv(keyId: Option<string>, keySecret: Option<string>)

  /** The gateway client exists only when both credentials are non-empty. */
  predicate Configured(env: GatewayEnv) {
    Present(env.keyId) && Present(env.keySecret)
  }

  /** The consultation form the client sends along with the payment. */
  datatype ConsultationData = ConsultationData(
    name: Option<string>,
    age: Option<int>,
    gender: Option<string>,
    email: Option<string>,
    phone: Option<string>,
    consultationType: Option<string>,
    skinType: Option<string>,
    concerns: Option<string>,
    currentProducts: Option<string>)

  // ---------------------------------------------------------------- createRazorpayOrder

  datatype OrderRequest = OrderRequest(amount: Option<int>, currency: Option<string>, consultationData: Option<ConsultationData>)

  /** The options handed to `orders.create`; `notes` is the consultation data, or nothing. */
  datatype OrderOptions = OrderOptions(amount: int, currency: string, receipt: string, notes: Option<ConsultationData>)

  datatype GatewayOrder = GatewayOrder(id: string, amount: int, currency: string)

  datatype OrderResponse =
    | OrderCreated(razorpayKey: string, order: GatewayOrder)
    | OrderRejected(status: int, message: string)

  /** A JSON amount is falsy when it is missing or zero. */
  predicate AmountGiven(amount: Option<int>) {
    amount.Some? && amount.value != 0
  }

  /** The order options: the amount as given, the currency defaulting to INR, a time-stamped receipt. */
  function OrderOptionsFor(req: OrderRequest, nowMillis: nat): (o: OrderOptions)
    requires AmountGiven(req.amount)
    ensures o.amount == req.amount.value
    ensures req.currency.None? ==> o.currency == DefaultCurrency
    ensures req.currency.Some? ==> o.currency == req.currency.value
    ensures |o.receipt| > 8 && o.receipt[..8] == "receipt_"
    ensures forall i :: 8 <= i < |o.receipt| ==> IsDigit(o.receipt[i])
    ensures o.notes == req.consultationData
  {
    OrderOptions(req.amount.value, req.currency.GetOr(DefaultCurrency), "receipt_" + Decimal(nowMillis), req.consultationData)
  }

  /** `createRazorpayOrder`: configuration check, amount check, then the gateway call. */
  function CreateRazorpayOrder(env: GatewayEnv, req: OrderRequest, nowMillis: nat,
                               ordersCreate: OrderOptions -> Option<GatewayOrder>): (r: OrderResponse)
    ensures !Configured(env) ==> r == OrderRejected(500, NotConfiguredMessage)
    ensures Configured(env) && !AmountGiven(req.amount) ==> r == OrderRejected(400, AmountRequiredMessage)
    ensures r.OrderCreated? <==>
      Configured(env) && AmountGiven(req.amount) && ordersCreate(OrderOptionsFor(req, nowMillis)).Some?
    ensures r.OrderCreated? ==>
      r.razorpayKey == env.keyId.value && r.order == ordersCreate(OrderOptionsFor(req, nowMillis)).value
    ensures r.OrderRejected? && Configured(env) && AmountGiven(req.amount) ==>
      r == OrderRejected(500, OrderErrorMessage)
  {
    if !Configured(env) then OrderRejected(500, NotConfiguredMessage)
    else if !AmountGiven(req.amount) then OrderRejected(400, AmountRequiredMessage)
    else
      match ordersCreate(OrderOptionsFor(req, nowMillis))
      case None => OrderRejected(500, OrderErrorMessage)
      case Some(order) => OrderCreated(env.keyId.value, GatewayOrder(order.id, order.amount, order.currency))
  }

  // ---------------------------------------------------------------- verifyPayment

  datatype VerifyRequest = VerifyRequest(
    orderId: Option<string>,
    paymentId: Option<string>,
    signature: Option<string>,
    consultationData: Option<ConsultationData>)

  /** A value inside a template literal: an undefined one renders as "undefined". */
  function Interpolated(o: Option<string>): string {
    if o.None? then "undefined" else o.value
  }

  /** The signed message: `${orderId}|${paymentId}`. */
  function SignedMessage(orderId: Option<string>, paymentId: Option<string>): (m: string)
    ensures m == Interpolated(orderId) + "|" + Interpolated(paymentId)
    ensures m[|Interpolated(orderId)|] == '|'
  {
    Interpolated(orderId) + "|" + Interpolated(paymentId)
  }

  /** The signature check: the claim must equal the hex HMAC of the message under the secret. */
  predicate SignatureMatches(hmacHex: (string, string) -> string, secret: string, req: VerifyRequest) {
    req.signature == Some(hmacHex(secret, SignedMessage(req.orderId, req.paymentId)))
  }

  /** A signature the gateway computed with the same secret over the same ids is accepted. */
  lemma GenuineSignatureAccepted(hmacHex: (string, string) -> string, secret: string, orderId: string, paymentId: string,
                                 data: Option<ConsultationData>)
    ensures SignatureMatches(hmacHex, secret,
      VerifyRequest(Some(orderId), Some(paymentId), Some(hmacHex(secret, orderId + "|" + paymentId)), data))
  {
  }

  /** `value || ''` on a string: a missing or empty value becomes "". */
  function OrEmpty(o: Option<string>): (s: string)
    ensures Present(o) ==> s == o.value
    ensures !Present(o) ==> s == ""
  {
    if Present(o) then o.value else ""
  }

  /**
   * The fields `verifyPayment` hands to `Consultation.create`, as written: the skin type is
   * `consultationData.skinType || ''`, so a missing skin type is sent as "".
   */
  function BookingFieldsAsWritten(data: ConsultationData, orderId: Option<string>, paymentId: Option<string>)
    : (f: NewConsultation)
    ensures f.skinType == Some(OrEmpty(data.skinType))
    ensures f.amount == Some(BookingAmount) && f.paymentStatus == Some("completed") && f.status == Some("scheduled")
  {
    NewConsultation(
      name := data.name,
      age := data.age,
      gender := data.gender,
      email := Some(OrEmpty(data.email)),
      phone := Some(OrEmpty(data.phone)),
      consultationType := data.consultationType,
      skinType := Some(OrEmpty(data.skinType)),
      concerns := Some(OrEmpty(data.concerns)),
      currentProducts := Some(OrEmpty(data.currentProducts)),
      razorpayOrderId := orderId,
      razorpayPaymentId := paymentId,
      amount := Some(BookingAmount),
      paymentStatus := Some("completed"),
      scheduledDate := None,
      scheduledTime := None,
      status := Some("scheduled"),
      expertNotes := None,
      assignedExpert := None)
  }

  /**
   * The fields handed to `Consultation.create` with the skin type left out when the form has
   * none, so that the schema's enum validator is not given "".
   */
  function BookingFields(data: ConsultationData, orderId: Option<string>, paymentId: Option<string>)
    : (f: NewConsultation)
    ensures f.skinType == (if Present(data.skinType) then data.skinType else None)
    ensures f.email == Some(OrEmpty(data.email)) && f.phone == Some(OrEmpty(data.phone))
    ensures f.concerns == Some(OrEmpty(data.concerns)) && f.currentProducts == Some(OrEmpty(data.currentProducts))
    ensures f.name == data.name && f.age == data.age && f.gender == data.gender
    ensures f.consultationType == data.consultationType
    ensures f.razorpayOrderId == orderId && f.razorpayPaymentId == paymentId
    ensures f.amount == Some(BookingAmount) && f.paymentStatus == Some("completed") && f.status == Some("scheduled")
    ensures f.scheduledDate.None?
    ensures f == BookingFieldsAsWritten(data, orderId, paymentId).(skinType := f.skinType)
  {
    BookingFieldsAsWritten(data, orderId, paymentId).(skinType := if Present(data.skinType) then data.skinType else None)
  }

  /** What the form must hold for a booking to be storable. */
  predicate FormValid(data: ConsultationData) {
    && data.name.Some? && Trim(data.name.value) != ""
    && data.age.Some? && 1 <= data.age.value <= 120
    && data.gender.Some? && IsGender(data.gender.value)
    && data.consultationType.Some? && IsConsultationType(data.consultationType.value)
    && (Present(data.skinType) ==> IsSkinType(data.skinType.value))
  }

  /**
   * As written, a form without a skin type (every hair consultation) fails validation on
   * `skinType`, after the payment has been verified.
   */
  lemma AsWrittenRejectsMissingSkinType(data: ConsultationData, orderId: Option<string>, paymentId: Option<string>,
                                        id: string, now: Date)
    requires !Present(data.skinType)
    ensures Validate(BookingFieldsAsWritten(data, orderId, paymentId), id, now).Err?
    ensures "skinType" in Validate(BookingFieldsAsWritten(data, orderId, paymentId), id, now).error
  {
    SkinTypeOutsideEnumRejected(BookingFieldsAsWritten(data, orderId, paymentId), id, now);
  }

  /** A step of `AsWrittenHairBookingFails`: the name in its form is already trimmed. */
  lemma PlainNameTrimmed()
    ensures Trim("Asha") == "Asha"
  {
    var s := "Asha";
    assert !IsSpace(s[0]) && !IsSpace(s[3]);
    assert TrimStart(s) == s;
    assert TrimEnd(s) == s;
  }

  /** The concrete case: a hair consultation for Asha, 29, with a genuine payment. */
  lemma AsWrittenHairBookingFails(id: string, now: Date)
    ensures var data := ConsultationData(Some("Asha"), Some(29), Some("female"), None, None, Some("hair"), None, None, None);
      && FormValid(data)
      && Validate(BookingFieldsAsWritten(data, Some("order_1"), Some("pay_1")), id, now).Err?
  {
    var data := ConsultationData(Some("Asha"), Some(29), Some("female"), None, None, Some("hair"), None, None, None);
    PlainNameTrimmed();
    assert FormValid(data);
    AsWrittenRejectsMissingSkinType(data, Some("order_1"), Some("pay_1"), id, now);
  }

  /** With the skin type left out when missing, every valid form with both payment ids validates. */
  lemma BookingFieldsAcceptValidForm(data: ConsultationData, orderId: Option<string>, paymentId: Option<string>,
                                     id: string, now: Date)
    requires FormValid(data) && Present(orderId) && Present(paymentId)
    ensures Validate(BookingFields(data, orderId, paymentId), id, now).Ok?
  {
    var f := BookingFields(data, orderId, paymentId);
    assert FieldErrors(f) == [];
  }

  /** Where the form has a skin type, the correction changes nothing. */
  lemma CorrectionOnlyForMissingSkinType(data: ConsultationData, orderId: Option<string>, paymentId: Option<string>)
    ensures Present(data.skinType) <==> BookingFields(data, orderId, paymentId) == BookingFieldsAsWritten(data, orderId, paymentId)
  {
    if !Present(data.skinType) {
      assert BookingFields(data, orderId, paymentId).skinType != BookingFieldsAsWritten(data, orderId, paymentId).skinType;
    }
  }

  /** As written, a valid form that has a skin type validates. */
  lemma AsWrittenAcceptsFormWithSkinType(data: ConsultationData, orderId: Option<string>, paymentId: Option<string>,
                                         id: string, now: Date)
    requires FormValid(data) && Present(data.skinType) && Present(orderId) && Present(paymentId)
    ensures Validate(BookingFieldsAsWritten(data, orderId, paymentId), id, now).Ok?
  {
    BookingFieldsAcceptValidForm(data, orderId, paymentId, id, now);
    CorrectionOnlyForMissingSkinType(data, orderId, paymentId);
  }

  /** As written, validation passes only for a form that carries a skin type. */
  lemma SkinTypeSentIsPresent(data: ConsultationData, orderId: Option<string>, paymentId: Option<string>,
                              id: string, now: Date)
    requires Validate(BookingFieldsAsWritten(data, orderId, paymentId), id, now).Ok?
    ensures Present(data.skinType)
  {
    if !Present(data.skinType) {
      AsWrittenRejectsMissingSkinType(data, orderId, paymentId, id, now);
    }
  }

  /**
   * The booking `verifyPayment` stores for a form that validates: the form's fields, the two
   * payment ids, the fixed amount, and the date the pre-save hook assigns.
   */
  function BookedRecord(data: ConsultationData, orderId: Option<string>, paymentId: Option<string>,
                        id: string, now: Date): (b: Consultation)
    requires Validate(BookingFieldsAsWritten(data, orderId, paymentId), id, now).Ok?
    ensures ValidRecord(b) && b.id == id && b.createdAt == now
    ensures b.amount == BookingAmount && b.paymentStatus == "completed" && b.status == "scheduled"
    ensures Some(b.razorpayOrderId) == orderId && Some(b.razorpayPaymentId) == paymentId
    ensures b.scheduledDate == Some(TwoDaysAtTen(now)) && b.scheduledTime == Some(DefaultTime)
    ensures data.name.Some? && b.name == Trim(data.name.value)
    ensures Some(b.age) == data.age && Some(b.gender) == data.gender
    ensures Some(b.consultationType) == data.consultationType
    ensures b.email == Some(NormalizeEmail(OrEmpty(data.email))) && b.phone == Some(Trim(OrEmpty(data.phone)))
    ensures b.concerns == OrEmpty(data.concerns) && b.currentProducts == OrEmpty(data.currentProducts)
    ensures Present(data.skinType) && b.skinType == data.skinType
    ensures b.expertNotes == Some("") && b.assignedExpert == Some("")
  {
    var fields := BookingFieldsAsWritten(data, orderId, paymentId);
    SkinTypeSentIsPresent(data, orderId, paymentId, id, now);
    DefaultsApplied(fields, id, now);
    AutoSchedulePreservesValid(Validate(fields, id, now).value, true, now);
    AutoSchedule(Validate(fields, id, now).value, true, now)
  }

  /** The outcome of `verifyPayment`, one constructor per response it can send. */
  datatype VerifyOutcome =
    | ConfigError
    | SignatureMismatch
    | PersistenceError(reason: string)
    | Booked(id: string, referenceNumber: string, scheduledDate: Option<Date>, scheduledTime: Option<string>,
             consultationData: ConsultationData)
  {
    function StatusCode(): int {
      match this
      case ConfigError => 500
      case SignatureMismatch => 400
      case PersistenceError(_) => 500
      case Booked(_, _, _, _, _) => 200
    }

    function Message(): string {
      match this
      case ConfigError => NotConfiguredMessage
      case SignatureMismatch => VerificationFailedMessage
      case PersistenceError(_) => SaveFailedMessage
      case Booked(_, _, _, _, _) => BookedMessage
    }
  }

  /**
   * `verifyPayment`: configuration check, signature check, creation of the booking, response.
   * `newId` is the ObjectId the driver assigns, `now` the time of the save, `writeOk` whether
   * the database accepts the insert.
   */
  method VerifyPayment(store: ConsultationStore, env: GatewayEnv, hmacHex: (string, string) -> string,
                       req: VerifyRequest, newId: string, now: Date, writeOk: bool)
    returns (out: VerifyOutcome)
    requires store.Valid() && IsObjectIdHex(newId)
    modifies store
    ensures store.Valid()
    ensures !Configured(env) ==> out == ConfigError
    ensures Configured(env) && !SignatureMatches(hmacHex, env.keySecret.value, req) ==> out == SignatureMismatch
    ensures out.PersistenceError? || out.Booked? <==> Configured(env) && SignatureMatches(hmacHex, env.keySecret.value, req)
    ensures Configured(env) && SignatureMatches(hmacHex, env.keySecret.value, req)
            && (req.consultationData.None? || !Present(req.consultationData.value.skinType))
            ==> out.PersistenceError?
    ensures !out.Booked? ==> store.records == old(store.records)
    ensures out.Booked? ==>
      && req.consultationData.Some?
      && out.consultationData == req.consultationData.value
      && Validate(BookingFieldsAsWritten(req.consultationData.value, req.orderId, req.paymentId), newId, now).Ok?
      && var b := BookedRecord(req.consultationData.value, req.orderId, req.paymentId, newId, now);
      && store.records == old(store.records) + [b]
      && out.id == newId && out.referenceNumber == ReferenceNumber(newId)
      && out.scheduledDate == b.scheduledDate && out.scheduledTime == b.scheduledTime
    ensures Configured(env) && SignatureMatches(hmacHex, env.keySecret.value, req) && req.consultationData.Some?
            && FormValid(req.consultationData.value) && Present(req.consultationData.value.skinType)
            && Present(req.orderId) && Present(req.paymentId)
            && !HasId(old(store.records), newId) && writeOk
            ==> out.Booked?
  {
    if !Configured(env) {
      return ConfigError;
    }
    var secret := env.keySecret.value;
    var generatedSignature := hmacHex(secret, SignedMessage(req.orderId, req.paymentId));
    if req.signature != Some(generatedSignature) {
      return SignatureMismatch;
    }
    if req.consultationData.None? {
      // reading a field of an undefined form throws inside the save block
      return PersistenceError("consultationData is undefined");
    }
    var data := req.consultationData.value;
    var fields := BookingFieldsAsWritten(data, req.orderId, req.paymentId);
    if FormValid(data) && Present(data.skinType) && Present(req.orderId) && Present(req.paymentId) {
      AsWrittenAcceptsFormWithSkinType(data, req.orderId, req.paymentId, newId, now);
    }
    if !Present(data.skinType) {
      AsWrittenRejectsMissingSkinType(data, req.orderId, req.paymentId, newId, now);
    }
    var created := store.Create(fields, newId, now, writeOk);
    match created
    case Err(reason) =>
      out := PersistenceError(reason);
    case Ok(consultation) =>
      var referenceNumber := ReferenceNumber(consultation.id);
      out := Booked(consultation.id, referenceNumber, consultation.scheduledDate, consultation.scheduledTime, data);
  }
}

/** Stored form of a dealing record, and what a record keeps through it. */
module DemoCodec {
  import opened Outcomes
  import opened Strings
  import opened DemoExecution
  import opened Decimals
  import Json

  /** Member names of the stored document. */
  datatype Field =
    | RequestField | LifecycleField | SubmissionField | ConfirmationField | PositionField | CloseSubmissionField
    | IntentIdField | GlobalCycleIdField | EpicField | DirectionField | SizeField | CurrencyCodeField | ExpiryField
    | OrderTypeField | ForceOpenField | GuaranteedStopField | StopDistanceField | StopLevelField | LimitDistanceField
    | LimitLevelField | DealReferenceField | ConfigurationField | RiskApprovalField | FencingTokenField | CreatedAtField
    | AllowedField | EvaluatedAtField | DealIdField | DealStatusField | StatusField | LevelField

  type Document = Json.Value<Field>

  /** Text forms of identifiers, decimals and instants, and how they are read back. */
  datatype Texts = Texts(
    ofId: int -> string, toId: string -> Option<int>,
    ofDecimal: Decimal -> string, toDecimal: string -> Option<Decimal>,
    ofTime: int -> string, toTime: string -> Option<int>)

  ghost predicate Faithful(t: Texts) {
    && (forall x :: t.ofId(x) != "" && t.toId(t.ofId(x)) == Some(x))
    && (forall x: Decimal :: t.ofDecimal(x) != "" && t.toDecimal(t.ofDecimal(x)) == Some(x))
    && (forall x :: t.ofTime(x) != "" && t.toTime(t.ofTime(x)) == Some(x))
  }

  /** BadDecimal is the decimal parser's own error, which the decoder does not translate. */
  datatype DecodeError = Invalid | BadDecimal | ShapeRejected

  type Decoded<T> = Result<T, DecodeError>

  // ---------------------------------------------------------------- the request's own validation

  predicate Capital(c: char) {
    'A' <= c <= 'Z'
  }

  predicate ReferenceChar(c: char) {
    Capital(c) || 'a' <= c <= 'z' || '0' <= c <= '9' || c == '_' || c == '-'
  }

  predicate OneOf(distance: Option<Decimal>, level: Option<Decimal>) {
    && distance.Some? != level.Some?
    && (if distance.Some? then distance.value else level.value) > 0.0
  }

  /** What constructing a request demands. */
  predicate ShapeValid(r: Request) {
    && NonBlank(r.epic) && NonBlank(r.expiry) && NonBlank(r.currencyCode) && NonBlank(r.configuration)
    && |r.currencyCode| == 3 && (forall i :: 0 <= i < 3 ==> Capital(r.currencyCode[i]))
    && r.size > 0.0
    && OneOf(r.stopDistance, r.stopLevel) && OneOf(r.limitDistance, r.limitLevel)
    && 1 <= |r.dealReference| <= 30
    && (forall i :: 0 <= i < |r.dealReference| ==> ReferenceChar(r.dealReference[i]))
    && r.fencingToken > 0
  }

  /** A letter, a digit, an underscore or a hyphen, by its code. */
  ghost predicate ReferenceCode(n: int) {
    65 <= n <= 90 || 97 <= n <= 122 || 48 <= n <= 57 || n == 95 || n == 45
  }

  ghost predicate GivenOnce(distance: Option<Decimal>, level: Option<Decimal>) {
    || (distance.Some? && level.None? && distance.value > 0.0)
    || (distance.None? && level.Some? && level.value > 0.0)
  }

  /** A request can be constructed exactly when each of its facts has its form. */
  lemma ShapeMeans(r: Request)
    ensures ShapeValid(r) <==>
            && (exists i :: 0 <= i < |r.epic| && r.epic[i] != ' ')
            && (exists i :: 0 <= i < |r.expiry| && r.expiry[i] != ' ')
            && (exists i :: 0 <= i < |r.configuration| && r.configuration[i] != ' ')
            && |r.currencyCode| == 3 && (forall i :: 0 <= i < 3 ==> 65 <= r.currencyCode[i] as int <= 90)
            && r.size > 0.0 && r.fencingToken > 0
            && GivenOnce(r.stopDistance, r.stopLevel) && GivenOnce(r.limitDistance, r.limitLevel)
            && 0 < |r.dealReference| < 31
            && (forall i :: 0 <= i < |r.dealReference| ==> ReferenceCode(r.dealReference[i] as int))
  {
    if |r.currencyCode| == 3 && forall i :: 0 <= i < 3 ==> 65 <= r.currencyCode[i] as int <= 90 {
      assert r.currencyCode[0] != ' ';
    }
  }

  // ---------------------------------------------------------------- enumerations

  function OfDirection(d: Direction): string {
    if d == Buy then "BUY" else "SELL"
  }

  function ToDirection(s: string): Decoded<Direction> {
    if s == "BUY" then Ok(Buy) else if s == "SELL" then Ok(Sell) else Err(Invalid)
  }

  function OfStatus(s: Status): string {
    if s == Accepted then "ACCEPTED" else "REJECTED"
  }

  function ToStatus(s: string): Decoded<Status> {
    if s == "ACCEPTED" then Ok(Accepted) else if s == "REJECTED" then Ok(Rejected) else Err(Invalid)
  }

  function ToOrderType(s: string): Decoded<OrderType> {
    if s == "MARKET" then Ok(Market) else Err(Invalid)
  }

  function OfLifecycle(l: Lifecycle): string {
    match l
    case Prepared => "PREPARED"
    case Submitting => "SUBMITTING"
    case Submitted => "SUBMITTED"
    case ConfirmedAccepted => "CONFIRMED_ACCEPTED"
    case ConfirmedRejected => "CONFIRMED_REJECTED"
    case OpenReconciled => "OPEN_RECONCILED"
    case CloseRequested => "CLOSE_REQUESTED"
    case ClosedReconciled => "CLOSED_RECONCILED"
    case FailedSafe => "FAILED_SAFE"
    case Ambiguous => "AMBIGUOUS"
  }

  function ToLifecycle(s: string): Decoded<Lifecycle> {
    if s == "PREPARED" then Ok(Prepared)
    else if s == "SUBMITTING" then Ok(Submitting)
    else if s == "SUBMITTED" then Ok(Submitted)
    else if s == "CONFIRMED_ACCEPTED" then Ok(ConfirmedAccepted)
    else if s == "CONFIRMED_REJECTED" then Ok(ConfirmedRejected)
    else if s == "OPEN_RECONCILED" then Ok(OpenReconciled)
    else if s == "CLOSE_REQUESTED" then Ok(CloseRequested)
    else if s == "CLOSED_RECONCILED" then Ok(ClosedReconciled)
    else if s == "FAILED_SAFE" then Ok(FailedSafe)
    else if s == "AMBIGUOUS" then Ok(Ambiguous)
    else Err(Invalid)
  }

  // ---------------------------------------------------------------- encoding

  function OptionalText(o: Option<string>): Document {
    if o.Some? then Json.Text(o.value) else Json.Null
  }

  function DecimalText(o: Option<Decimal>, t: Texts): Document {
    if o.Some? then Json.Text(t.ofDecimal(o.value)) else Json.Null
  }

  function EncodeRisk(a: RiskApproval, t: Texts): Document {
    Json.Object(map[
      ConfigurationField := Json.Text(a.configuration),
      AllowedField := Json.Boolean(a.allowed),
      EvaluatedAtField := Json.Text(t.ofTime(a.evaluatedAt))])
  }

  /** The members of a stored request. */
  predicate InRequest(f: Field) {
    match f
    case IntentIdField | GlobalCycleIdField | EpicField | DirectionField | SizeField | CurrencyCodeField | ExpiryField => true
    case OrderTypeField | ForceOpenField | GuaranteedStopField => true
    case StopDistanceField | StopLevelField | LimitDistanceField | LimitLevelField => true
    case DealReferenceField | ConfigurationField | RiskApprovalField | FencingTokenField | CreatedAtField => true
    case _ => false
  }

  function RequestMember(f: Field, r: Request, t: Texts): Document {
    match f
    case IntentIdField => Json.Text(t.ofId(r.intentId))
    case GlobalCycleIdField => Json.Text(t.ofId(r.cycleId))
    case EpicField => Json.Text(r.epic)
    case DirectionField => Json.Text(OfDirection(r.direction))
    case SizeField => Json.Text(t.ofDecimal(r.size))
    case CurrencyCodeField => Json.Text(r.currencyCode)
    case ExpiryField => Json.Text(r.expiry)
    case OrderTypeField => Json.Text("MARKET")
    case ForceOpenField => Json.Boolean(r.forceOpen)
    case GuaranteedStopField => Json.Boolean(r.guaranteedStop)
    case StopDistanceField => DecimalText(r.stopDistance, t)
    case StopLevelField => DecimalText(r.stopLevel, t)
    case LimitDistanceField => DecimalText(r.limitDistance, t)
    case LimitLevelField => DecimalText(r.limitLevel, t)
    case DealReferenceField => Json.Text(r.dealReference)
    case ConfigurationField => Json.Text(r.configuration)
    case RiskApprovalField => EncodeRisk(r.risk, t)
    case FencingTokenField => Json.Integer(r.fencingToken)
    case CreatedAtField => Json.Text(t.ofTime(r.createdAt))
    case _ => Json.Null
  }

  function EncodeRequest(r: Request, t: Texts): Document {
    Json.Object(map f | InRequest(f) :: RequestMember(f, r, t))
  }

  function EncodeSubmission(o: Option<Submission>): Document {
    if o.None? then Json.Null
    else Json.Object(map[DealReferenceField := Json.Text(o.value.dealReference), DealIdField := OptionalText(o.value.dealId)])
  }

  /** The members of a stored confirmation. */
  predicate InConfirmation(f: Field) {
    match f
    case DealReferenceField | DealIdField | DealStatusField | StatusField | EpicField | DirectionField | SizeField => true
    case LevelField | StopLevelField | LimitLevelField => true
    case _ => false
  }

  function ConfirmationMember(f: Field, c: Confirmation, t: Texts): Document {
    match f
    case DealReferenceField => Json.Text(c.dealReference)
    case DealIdField => OptionalText(c.dealId)
    case DealStatusField => Json.Text(OfStatus(c.dealStatus))
    case StatusField => Json.Text(c.status)
    case EpicField => OptionalText(c.epic)
    case DirectionField => if c.direction.Some? then Json.Text(OfDirection(c.direction.value)) else Json.Null
    case SizeField => DecimalText(c.size, t)
    case LevelField => DecimalText(c.level, t)
    case StopLevelField => DecimalText(c.stopLevel, t)
    case LimitLevelField => DecimalText(c.limitLevel, t)
    case _ => Json.Null
  }

  function EncodeConfirmation(o: Option<Confirmation>, t: Texts): Document {
    if o.None? then Json.Null
    else Json.Object(map f | InConfirmation(f) :: ConfirmationMember(f, o.value, t))
  }

  function EncodePosition(o: Option<Position>, t: Texts): Document {
    if o.None? then Json.Null
    else
      Json.Object(map[
        DealIdField := Json.Text(o.value.dealId),
        EpicField := Json.Text(o.value.epic),
        DirectionField := Json.Text(OfDirection(o.value.direction)),
        SizeField := Json.Text(t.ofDecimal(o.value.size))])
  }

  function EncodeRecord(e: ExecutionRecord, t: Texts): Document {
    Json.Object(map[
      RequestField := EncodeRequest(e.request, t),
      LifecycleField := Json.Text(OfLifecycle(e.lifecycle)),
      SubmissionField := EncodeSubmission(e.submission),
      ConfirmationField := EncodeConfirmation(e.confirmation, t),
      PositionField := EncodePosition(e.position, t),
      CloseSubmissionField := EncodeSubmission(e.closeSubmission)])
  }

  // ---------------------------------------------------------------- decoding

  function Members(d: Document): Decoded<Document> {
    if d.Object? then Ok(d) else Err(Invalid)
  }

  function Required(d: Document, f: Field): Decoded<string>
    requires d.Object?
  {
    var v := Json.Get(d, f);
    if v.Text? && v.text != "" then Ok(v.text) else Err(Invalid)
  }

  function RequiredBool(d: Document, f: Field): Decoded<bool>
    requires d.Object?
  {
    var v := Json.Get(d, f);
    if v.Boolean? then Ok(v.truth) else Err(Invalid)
  }

  function RequiredInt(d: Document, f: Field): Decoded<int>
    requires d.Object?
  {
    var v := Json.Get(d, f);
    if v.Integer? then Ok(v.whole) else Err(Invalid)
  }

  function OptionalTextOf(v: Document): Option<string> {
    if v.Text? && v.text != "" then Some(v.text) else None
  }

  function ToDecimal(s: string, t: Texts): Decoded<Decimal> {
    var x := t.toDecimal(s);
    if x.Some? then Ok(x.value) else Err(BadDecimal)
  }

  function OptionalDecimal(v: Document, t: Texts): Decoded<Option<Decimal>> {
    if v.Text? then
      var x :- ToDecimal(v.text, t);
      Ok(Some(x))
    else Ok(None)
  }

  function ToId(s: string, t: Texts): Decoded<int> {
    var x := t.toId(s);
    if x.Some? then Ok(x.value) else Err(Invalid)
  }

  function ToTime(s: string, t: Texts): Decoded<int> {
    var x := t.toTime(s);
    if x.Some? then Ok(x.value) else Err(Invalid)
  }

  function DecodeRisk(d: Document, t: Texts): Decoded<RiskApproval>
    requires d.Object?
  {
    var configuration :- Required(d, ConfigurationField);
    var allowed :- RequiredBool(d, AllowedField);
    var evaluatedText :- Required(d, EvaluatedAtField);
    var evaluated :- ToTime(evaluatedText, t);
    Ok(RiskApproval(configuration, allowed, evaluated))
  }

  datatype Identity = Identity(
    intentId: int, cycleId: int, epic: string, direction: Direction, size: Decimal, currencyCode: string, expiry: string)

  function DecodeIdentity(d: Document, t: Texts): Decoded<Identity>
    requires d.Object?
  {
    var intentText :- Required(d, IntentIdField);
    var intent :- ToId(intentText, t);
    var cycleText :- Required(d, GlobalCycleIdField);
    var cycle :- ToId(cycleText, t);
    var epic :- Required(d, EpicField);
    var directionText :- Required(d, DirectionField);
    var direction :- ToDirection(directionText);
    var sizeText :- Required(d, SizeField);
    var size :- ToDecimal(sizeText, t);
    var currency :- Required(d, CurrencyCodeField);
    var expiry :- Required(d, ExpiryField);
    Ok(Identity(intent, cycle, epic, direction, size, currency, expiry))
  }

  datatype Terms = Terms(
    orderType: OrderType, forceOpen: bool, guaranteedStop: bool, stopDistance: Option<Decimal>, stopLevel: Option<Decimal>,
    limitDistance: Option<Decimal>, limitLevel: Option<Decimal>)

  function DecodeTerms(d: Document, t: Texts): Decoded<Terms>
    requires d.Object?
  {
    var orderText :- Required(d, OrderTypeField);
    var orderType :- ToOrderType(orderText);
    var forceOpen :- RequiredBool(d, ForceOpenField);
    var guaranteedStop :- RequiredBool(d, GuaranteedStopField);
    var stopDistance :- OptionalDecimal(Json.Get(d, StopDistanceField), t);
    var stopLevel :- OptionalDecimal(Json.Get(d, StopLevelField), t);
    var limitDistance :- OptionalDecimal(Json.Get(d, LimitDistanceField), t);
    var limitLevel :- OptionalDecimal(Json.Get(d, LimitLevelField), t);
    Ok(Terms(orderType, forceOpen, guaranteedStop, stopDistance, stopLevel, limitDistance, limitLevel))
  }

  datatype Controls = Controls(
    dealReference: string, configuration: string, risk: RiskApproval, fencingToken: int, createdAt: int)

  function DecodeControls(d: Document, risk: Document, t: Texts): Decoded<Controls>
    requires d.Object? && risk.Object?
  {
    var reference :- Required(d, DealReferenceField);
    var configuration :- Required(d, ConfigurationField);
    var approval :- DecodeRisk(risk, t);
    var token :- RequiredInt(d, FencingTokenField);
    var createdText :- Required(d, CreatedAtField);
    var created :- ToTime(createdText, t);
    Ok(Controls(reference, configuration, approval, token, created))
  }

  function DecodeRequest(d: Document, t: Texts): Decoded<Request>
    requires d.Object?
  {
    var risk :- Members(Json.Get(d, RiskApprovalField));
    var i :- DecodeIdentity(d, t);
    var x :- DecodeTerms(d, t);
    var c :- DecodeControls(d, risk, t);
    var r := Request(i.intentId, i.cycleId, i.epic, i.direction, i.size, i.currencyCode, i.expiry, x.orderType, x.forceOpen,
                     x.guaranteedStop, x.stopDistance, x.stopLevel, x.limitDistance, x.limitLevel, c.dealReference,
                     c.configuration, c.risk, c.fencingToken, c.createdAt);
    if ShapeValid(r) then Ok(r) else Err(ShapeRejected)
  }

  function DecodeSubmission(v: Document): Decoded<Option<Submission>> {
    if v.Null? then Ok(None)
    else
      var d :- Members(v);
      var reference :- Required(d, DealReferenceField);
      Ok(Some(Submission(reference, OptionalTextOf(Json.Get(d, DealIdField)))))
  }

  function OptionalDirection(v: Document): Decoded<Option<Direction>> {
    var text := OptionalTextOf(v);
    if text.None? then Ok(None)
    else
      var direction :- ToDirection(text.value);
      Ok(Some(direction))
  }

  datatype Prices = Prices(size: Option<Decimal>, level: Option<Decimal>, stopLevel: Option<Decimal>, limitLevel: Option<Decimal>)

  function DecodePrices(d: Document, t: Texts): Decoded<Prices>
    requires d.Object?
  {
    var size :- OptionalDecimal(Json.Get(d, SizeField), t);
    var level :- OptionalDecimal(Json.Get(d, LevelField), t);
    var stopLevel :- OptionalDecimal(Json.Get(d, StopLevelField), t);
    var limitLevel :- OptionalDecimal(Json.Get(d, LimitLevelField), t);
    Ok(Prices(size, level, stopLevel, limitLevel))
  }

  function DecodeConfirmation(v: Document, t: Texts): Decoded<Option<Confirmation>> {
    if v.Null? then Ok(None)
    else
      var d :- Members(v);
      var reference :- Required(d, DealReferenceField);
      var dealStatusText :- Required(d, DealStatusField);
      var dealStatus :- ToStatus(dealStatusText);
      var status :- Required(d, StatusField);
      var direction :- OptionalDirection(Json.Get(d, DirectionField));
      var prices :- DecodePrices(d, t);
      Ok(Some(Confirmation(reference, OptionalTextOf(Json.Get(d, DealIdField)), dealStatus, status,
                           OptionalTextOf(Json.Get(d, EpicField)), direction, prices.size, prices.level, prices.stopLevel,
                           prices.limitLevel)))
  }

  function DecodePosition(v: Document, t: Texts): Decoded<Option<Position>> {
    if v.Null? then Ok(None)
    else
      var d :- Members(v);
      var dealId :- Required(d, DealIdField);
      var epic :- Required(d, EpicField);
      var directionText :- Required(d, DirectionField);
      var direction :- ToDirection(directionText);
      var sizeText :- Required(d, SizeField);
      var size :- ToDecimal(sizeText, t);
      Ok(Some(Position(dealId, epic, direction, size)))
  }

  function DecodeRecord(document: Document, t: Texts): Decoded<ExecutionRecord> {
    var d :- Members(document);
    var requestDocument :- Members(Json.Get(d, RequestField));
    var request :- DecodeRequest(requestDocument, t);
    var lifecycleText :- Required(d, LifecycleField);
    var lifecycle :- ToLifecycle(lifecycleText);
    var submission :- DecodeSubmission(Json.Get(d, SubmissionField));
    var confirmation :- DecodeConfirmation(Json.Get(d, ConfirmationField), t);
    var position :- DecodePosition(Json.Get(d, PositionField), t);
    var closeSubmission :- DecodeSubmission(Json.Get(d, CloseSubmissionField));
    Ok(ExecutionRecord(request, lifecycle, submission, confirmation, position, closeSubmission))
  }

  // ---------------------------------------------------------------- what survives

  /** A blank optional text is stored but read back as absent. */
  function Cleaned(o: Option<string>): Option<string> {
    if o == Some("") then None else o
  }

  predicate SubmissionReadable(o: Option<Submission>) {
    o.Some? ==> o.value.dealReference != ""
  }

  predicate ConfirmationReadable(o: Option<Confirmation>) {
    o.Some? ==> o.value.dealReference != "" && o.value.status != ""
  }

  predicate PositionReadable(o: Option<Position>) {
    o.Some? ==> o.value.dealId != "" && o.value.epic != ""
  }

  /** The record can be read back: its request is well-shaped and none of its mandatory texts is empty. */
  predicate Readable(e: ExecutionRecord) {
    && ShapeValid(e.request) && e.request.risk.configuration != ""
    && SubmissionReadable(e.submission) && SubmissionReadable(e.closeSubmission)
    && ConfirmationReadable(e.confirmation) && PositionReadable(e.position)
  }

  function CleanSubmission(o: Option<Submission>): Option<Submission> {
    if o.None? then None else Some(o.value.(dealId := Cleaned(o.value.dealId)))
  }

  function CleanConfirmation(o: Option<Confirmation>): Option<Confirmation> {
    if o.None? then None else Some(o.value.(dealId := Cleaned(o.value.dealId), epic := Cleaned(o.value.epic)))
  }

  function Clean(e: ExecutionRecord): ExecutionRecord {
    e.(submission := CleanSubmission(e.submission),
       closeSubmission := CleanSubmission(e.closeSubmission),
       confirmation := CleanConfirmation(e.confirmation))
  }

  lemma DecimalBack(x: Decimal, t: Texts)
    requires Faithful(t)
    ensures ToDecimal(t.ofDecimal(x), t) == Ok(x)
  {
  }

  lemma DecimalKept(o: Option<Decimal>, t: Texts)
    requires Faithful(t)
    ensures OptionalDecimal(DecimalText(o, t), t) == Ok(o)
  {
    if o.Some? {
      DecimalBack(o.value, t);
    }
  }

  lemma DirectionKept(d: Direction)
    ensures OfDirection(d) != "" && ToDirection(OfDirection(d)) == Ok(d)
  {
  }

  lemma LifecyclesDecode(s: string, l: Lifecycle)
    ensures ToLifecycle(s) == Ok(l) <==> s == OfLifecycle(l)
    ensures ToLifecycle(s) == Err(Invalid) <==> forall k :: s != OfLifecycle(k)
  {
    if ToLifecycle(s).Ok? {
      assert s == OfLifecycle(ToLifecycle(s).value);
    }
  }

  /** A stored text decodes exactly to the value whose text it is, and any other text to none. */
  lemma TextsDecode(s: string, d: Direction, status: Status, l: Lifecycle)
    ensures ToDirection(s) == Ok(d) <==> s == OfDirection(d)
    ensures ToStatus(s) == Ok(status) <==> s == OfStatus(status)
    ensures ToLifecycle(s) == Ok(l) <==> s == OfLifecycle(l)
    ensures ToOrderType(s).Ok? <==> s == "MARKET"
    ensures ToDirection(s) == Err(Invalid) <==> s != "BUY" && s != "SELL"
    ensures ToStatus(s) == Err(Invalid) <==> s != "ACCEPTED" && s != "REJECTED"
    ensures ToLifecycle(s) == Err(Invalid) <==> forall k :: s != OfLifecycle(k)
    ensures ToOrderType(s) == Err(Invalid) <==> s != "MARKET"
  {
    LifecyclesDecode(s, l);
  }

  /** A member of the wrong kind, an identifier or an instant that does not read is invalid; only a decimal has an error of its own. */
  lemma ReadersFail(d: Document, f: Field, s: string, t: Texts)
    requires d.Object?
    ensures var v := Json.Get(d, f);
            && (Required(d, f) == Err(Invalid) <==> !v.Text? || v.text == "")
            && (RequiredBool(d, f) == Err(Invalid) <==> !v.Boolean?)
            && (RequiredInt(d, f) == Err(Invalid) <==> !v.Integer?)
            && (Members(v) == Err(Invalid) <==> !v.Object?)
    ensures ToId(s, t) == Err(Invalid) <==> t.toId(s).None?
    ensures ToTime(s, t) == Err(Invalid) <==> t.toTime(s).None?
    ensures ToDecimal(s, t) == Err(BadDecimal) <==> t.toDecimal(s).None?
    ensures DecodeRequest(d, t).Ok? ==> ShapeValid(DecodeRequest(d, t).value)
  {
  }

  lemma LifecycleKept(l: Lifecycle)
    ensures OfLifecycle(l) != "" && ToLifecycle(OfLifecycle(l)) == Ok(l)
  {
  }

  lemma RiskKept(a: RiskApproval, t: Texts)
    requires Faithful(t)
    ensures EncodeRisk(a, t).Object?
    ensures a.configuration != "" ==> DecodeRisk(EncodeRisk(a, t), t) == Ok(a)
    ensures a.configuration == "" ==> DecodeRisk(EncodeRisk(a, t), t).Err?
  {
  }

  predicate IdentityReadable(r: Request) {
    r.epic != "" && r.currencyCode != "" && r.expiry != ""
  }

  ghost predicate IdentityMembers(d: Document, r: Request, t: Texts) {
    && d.Object?
    && Json.Get(d, IntentIdField) == Json.Text(t.ofId(r.intentId))
    && Json.Get(d, GlobalCycleIdField) == Json.Text(t.ofId(r.cycleId))
    && Json.Get(d, EpicField) == Json.Text(r.epic)
    && Json.Get(d, DirectionField) == Json.Text(OfDirection(r.direction))
    && Json.Get(d, SizeField) == Json.Text(t.ofDecimal(r.size))
    && Json.Get(d, CurrencyCodeField) == Json.Text(r.currencyCode)
    && Json.Get(d, ExpiryField) == Json.Text(r.expiry)
  }

  ghost predicate TermsMembers(d: Document, r: Request, t: Texts) {
    && d.Object?
    && Json.Get(d, OrderTypeField) == Json.Text("MARKET")
    && Json.Get(d, ForceOpenField) == Json.Boolean(r.forceOpen)
    && Json.Get(d, GuaranteedStopField) == Json.Boolean(r.guaranteedStop)
    && Json.Get(d, StopDistanceField) == DecimalText(r.stopDistance, t)
    && Json.Get(d, StopLevelField) == DecimalText(r.stopLevel, t)
    && Json.Get(d, LimitDistanceField) == DecimalText(r.limitDistance, t)
    && Json.Get(d, LimitLevelField) == DecimalText(r.limitLevel, t)
  }

  lemma RequestIdentity(r: Request, t: Texts)
    ensures IdentityMembers(EncodeRequest(r, t), r, t)
  {
  }

  lemma RequestHas(f: Field, r: Request, t: Texts)
    requires InRequest(f)
    ensures Json.Get(EncodeRequest(r, t), f) == RequestMember(f, r, t)
  {
  }

  lemma RequestTerms(r: Request, t: Texts)
    ensures TermsMembers(EncodeRequest(r, t), r, t)
  {
    RequestHas(OrderTypeField, r, t);
    RequestHas(ForceOpenField, r, t);
    RequestHas(GuaranteedStopField, r, t);
    RequestHas(StopDistanceField, r, t);
    RequestHas(StopLevelField, r, t);
    RequestHas(LimitDistanceField, r, t);
    RequestHas(LimitLevelField, r, t);
  }

  lemma IdentityKept(d: Document, r: Request, t: Texts)
    requires Faithful(t) && IdentityMembers(d, r, t)
    ensures if IdentityReadable(r)
            then DecodeIdentity(d, t) == Ok(Identity(r.intentId, r.cycleId, r.epic, r.direction, r.size, r.currencyCode, r.expiry))
            else DecodeIdentity(d, t).Err?
  {
    DirectionKept(r.direction);
    assert t.toId(t.ofId(r.intentId)) == Some(r.intentId);
    assert t.toId(t.ofId(r.cycleId)) == Some(r.cycleId);
    assert t.toDecimal(t.ofDecimal(r.size)) == Some(r.size);
  }

  lemma TermsKept(d: Document, r: Request, t: Texts)
    requires Faithful(t) && TermsMembers(d, r, t)
    ensures DecodeTerms(d, t)
            == Ok(Terms(r.orderType, r.forceOpen, r.guaranteedStop, r.stopDistance, r.stopLevel, r.limitDistance, r.limitLevel))
  {
    assert r.orderType == Market;
    DecimalKept(r.stopDistance, t);
    DecimalKept(r.stopLevel, t);
    DecimalKept(r.limitDistance, t);
    DecimalKept(r.limitLevel, t);
  }

  lemma ShapeIsReadable(r: Request)
    requires ShapeValid(r)
    ensures IdentityReadable(r) && r.dealReference != "" && r.configuration != ""
  {
  }

  ghost predicate ControlsMembers(d: Document, r: Request, t: Texts) {
    && d.Object?
    && Json.Get(d, DealReferenceField) == Json.Text(r.dealReference)
    && Json.Get(d, ConfigurationField) == Json.Text(r.configuration)
    && Json.Get(d, RiskApprovalField) == EncodeRisk(r.risk, t)
    && Json.Get(d, FencingTokenField) == Json.Integer(r.fencingToken)
    && Json.Get(d, CreatedAtField) == Json.Text(t.ofTime(r.createdAt))
  }

  lemma RequestControls(r: Request, t: Texts)
    ensures ControlsMembers(EncodeRequest(r, t), r, t)
  {
  }

  lemma ControlsKept(d: Document, r: Request, t: Texts)
    requires Faithful(t) && ControlsMembers(d, r, t)
    ensures EncodeRisk(r.risk, t).Object?
    ensures var decoded := DecodeControls(d, EncodeRisk(r.risk, t), t);
            if r.dealReference != "" && r.configuration != "" && r.risk.configuration != ""
            then decoded == Ok(Controls(r.dealReference, r.configuration, r.risk, r.fencingToken, r.createdAt))
            else decoded.Err?
  {
    RiskKept(r.risk, t);
  }

  lemma RequestDecoded(d: Document, r: Request, t: Texts)
    requires Faithful(t) && IdentityMembers(d, r, t) && TermsMembers(d, r, t) && ControlsMembers(d, r, t)
    ensures if ShapeValid(r) && r.risk.configuration != "" then DecodeRequest(d, t) == Ok(r) else DecodeRequest(d, t).Err?
  {
    IdentityKept(d, r, t);
    TermsKept(d, r, t);
    ControlsKept(d, r, t);
    if ShapeValid(r) {
      ShapeIsReadable(r);
    }
  }

  lemma RequestKept(r: Request, t: Texts)
    requires Faithful(t)
    ensures EncodeRequest(r, t).Object?
    ensures if ShapeValid(r) && r.risk.configuration != ""
            then DecodeRequest(EncodeRequest(r, t), t) == Ok(r)
            else DecodeRequest(EncodeRequest(r, t), t).Err?
  {
    var d := EncodeRequest(r, t);
    RequestIdentity(r, t);
    RequestTerms(r, t);
    RequestControls(r, t);
    RequestDecoded(d, r, t);
  }

  lemma SubmissionKept(o: Option<Submission>)
    ensures if SubmissionReadable(o) then DecodeSubmission(EncodeSubmission(o)) == Ok(CleanSubmission(o))
            else DecodeSubmission(EncodeSubmission(o)).Err?
  {
  }

  ghost predicate PriceMembers(d: Document, c: Confirmation, t: Texts) {
    && d.Object?
    && Json.Get(d, SizeField) == DecimalText(c.size, t)
    && Json.Get(d, LevelField) == DecimalText(c.level, t)
    && Json.Get(d, StopLevelField) == DecimalText(c.stopLevel, t)
    && Json.Get(d, LimitLevelField) == DecimalText(c.limitLevel, t)
  }

  ghost predicate FactMembers(d: Document, c: Confirmation) {
    && d.Object?
    && Json.Get(d, DealReferenceField) == Json.Text(c.dealReference)
    && Json.Get(d, DealIdField) == OptionalText(c.dealId)
    && Json.Get(d, DealStatusField) == Json.Text(OfStatus(c.dealStatus))
    && Json.Get(d, StatusField) == Json.Text(c.status)
    && Json.Get(d, EpicField) == OptionalText(c.epic)
    && Json.Get(d, DirectionField) == (if c.direction.Some? then Json.Text(OfDirection(c.direction.value)) else Json.Null)
  }

  lemma PricesKept(d: Document, c: Confirmation, t: Texts)
    requires Faithful(t) && PriceMembers(d, c, t)
    ensures DecodePrices(d, t) == Ok(Prices(c.size, c.level, c.stopLevel, c.limitLevel))
  {
    DecimalKept(c.size, t);
    DecimalKept(c.level, t);
    DecimalKept(c.stopLevel, t);
    DecimalKept(c.limitLevel, t);
  }

  lemma DecodedFrom(d: Document, c: Confirmation, t: Texts)
    requires Faithful(t) && PriceMembers(d, c, t) && FactMembers(d, c)
    ensures if ConfirmationReadable(Some(c)) then DecodeConfirmation(d, t) == Ok(CleanConfirmation(Some(c)))
            else DecodeConfirmation(d, t).Err?
  {
    PricesKept(d, c, t);
    assert OfStatus(c.dealStatus) != "" && ToStatus(OfStatus(c.dealStatus)) == Ok(c.dealStatus);
    if c.direction.Some? {
      DirectionKept(c.direction.value);
    }
  }

  lemma ConfirmationFacts(c: Confirmation, t: Texts)
    ensures FactMembers(EncodeConfirmation(Some(c), t), c)
  {
  }

  lemma ConfirmationPrices(c: Confirmation, t: Texts)
    ensures PriceMembers(EncodeConfirmation(Some(c), t), c, t)
  {
  }

  lemma ConfirmationKept(o: Option<Confirmation>, t: Texts)
    requires Faithful(t)
    ensures if ConfirmationReadable(o) then DecodeConfirmation(EncodeConfirmation(o, t), t) == Ok(CleanConfirmation(o))
            else DecodeConfirmation(EncodeConfirmation(o, t), t).Err?
  {
    if o.Some? {
      ConfirmationFacts(o.value, t);
      ConfirmationPrices(o.value, t);
      DecodedFrom(EncodeConfirmation(o, t), o.value, t);
    }
  }

  lemma PositionKept(o: Option<Position>, t: Texts)
    requires Faithful(t)
    ensures if PositionReadable(o) then DecodePosition(EncodePosition(o, t), t) == Ok(o)
            else DecodePosition(EncodePosition(o, t), t).Err?
  {
    if o.Some? {
      DirectionKept(o.value.direction);
    }
  }

  ghost predicate RecordMembers(d: Document, e: ExecutionRecord, t: Texts) {
    && d.Object?
    && Json.Get(d, RequestField) == EncodeRequest(e.request, t)
    && Json.Get(d, LifecycleField) == Json.Text(OfLifecycle(e.lifecycle))
    && Json.Get(d, SubmissionField) == EncodeSubmission(e.submission)
    && Json.Get(d, ConfirmationField) == EncodeConfirmation(e.confirmation, t)
    && Json.Get(d, PositionField) == EncodePosition(e.position, t)
    && Json.Get(d, CloseSubmissionField) == EncodeSubmission(e.closeSubmission)
  }

  lemma RecordEncoded(e: ExecutionRecord, t: Texts)
    ensures RecordMembers(EncodeRecord(e, t), e, t)
  {
  }

  lemma RecordDecoded(d: Document, e: ExecutionRecord, t: Texts)
    requires Faithful(t) && RecordMembers(d, e, t)
    ensures if Readable(e) then DecodeRecord(d, t) == Ok(Clean(e)) else DecodeRecord(d, t).Err?
  {
    RequestKept(e.request, t);
    LifecycleKept(e.lifecycle);
    SubmissionKept(e.submission);
    SubmissionKept(e.closeSubmission);
    ConfirmationKept(e.confirmation, t);
    PositionKept(e.position, t);
  }

  /** A stored record reads back as itself with blank optional texts absent, or not at all when a mandatory text is empty. */
  lemma StoredForm(e: ExecutionRecord, t: Texts)
    requires Faithful(t)
    ensures if Readable(e) then DecodeRecord(EncodeRecord(e, t), t) == Ok(Clean(e))
            else DecodeRecord(EncodeRecord(e, t), t).Err?
  {
    RecordEncoded(e, t);
    RecordDecoded(EncodeRecord(e, t), e, t);
  }

  predicate NoBlankOptional(e: ExecutionRecord) {
    && (e.submission.Some? ==> e.submission.value.dealId != Some(""))
    && (e.closeSubmission.Some? ==> e.closeSubmission.value.dealId != Some(""))
    && (e.confirmation.Some? ==> e.confirmation.value.dealId != Some("") && e.confirmation.value.epic != Some(""))
  }

  lemma CleanIffNoBlank(e: ExecutionRecord)
    ensures Clean(e) == e <==> NoBlankOptional(e)
  {
  }

  /** The round trip is exact for exactly the readable records without a blank optional text. */
  lemma RoundTripIff(e: ExecutionRecord, t: Texts)
    requires Faithful(t)
    ensures DecodeRecord(EncodeRecord(e, t), t) == Ok(e) <==> Readable(e) && NoBlankOptional(e)
  {
    StoredForm(e, t);
    CleanIffNoBlank(e);
    var decoded := DecodeRecord(EncodeRecord(e, t), t);
    assert Readable(e) ==> decoded == Ok(Clean(e));
    assert !Readable(e) ==> decoded.Err?;
  }
}

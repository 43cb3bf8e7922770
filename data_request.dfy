/**
 * Validation of a component-data request `(network_id, component, offset, limit)`:
 * field bounds with defaults, and the two validators that reject empty names.
 * As in pydantic, every field is checked and all field errors are reported
 * together, in field declaration order.
 */
module DataRequests {
  import opened Wrappers

  const DefaultOffset: int := 0
  const DefaultLimit: int := 100
  const MinLimit: int := 1
  const MaxLimit: int := 10000

  const NetworkIdRequired := "Network ID is required"
  const ComponentRequired := "Component name is required"

  /** The request as received: any field may be missing. */
  datatype RawDataRequest = RawDataRequest(
    networkId: Option<string>,
    component: Option<string>,
    offset: Option<int>,
    limit: Option<int>)

  /** An accepted request, every field set. */
  datatype DataRequest = DataRequest(networkId: string, component: string, offset: int, limit: int)

  datatype Field = NetworkIdField | ComponentField | OffsetField | LimitField

  datatype ErrorKind =
    | Missing                 // a required field without a default is absent
    | BelowMinimum(ge: int)   // `ge` bound violated
    | AboveMaximum(le: int)   // `le` bound violated
    | ValueError(message: string) // raised by a field validator

  datatype FieldError = FieldError(field: Field, kind: ErrorKind)

  // ---------------------------------------------------------------------------
  // Field validators
  // ---------------------------------------------------------------------------

  /** Rejects an empty network id; returns any other value unchanged. */
  function ValidateNetworkId(v: string): (r: Result<string, string>)
    ensures r.Success? <==> v != ""
    ensures r.Success? ==> r.value == v
    ensures r.Failure? ==> r.error == NetworkIdRequired
  {
    if v == "" then Failure(NetworkIdRequired) else Success(v)
  }

  /** Rejects an empty component name; returns any other value unchanged. */
  function ValidateComponent(v: string): (r: Result<string, string>)
    ensures r.Success? <==> v != ""
    ensures r.Success? ==> r.value == v
    ensures r.Failure? ==> r.error == ComponentRequired
  {
    if v == "" then Failure(ComponentRequired) else Success(v)
  }

  // ---------------------------------------------------------------------------
  // One field at a time
  // ---------------------------------------------------------------------------

  /** A required string field: missing, then the field's validator. */
  function CheckName(field: Field, v: Option<string>, validate: string -> Result<string, string>)
    : Result<string, FieldError>
  {
    if v.None? then Failure(FieldError(field, Missing))
    else match validate(v.value)
      case Success(s) => Success(s)
      case Failure(msg) => Failure(FieldError(field, ValueError(msg)))
  }

  /** `offset: int = Field(default=0, ge=0)`. */
  function CheckOffset(v: Option<int>): Result<int, FieldError> {
    if v.None? then Success(DefaultOffset)
    else if v.value < 0 then Failure(FieldError(OffsetField, BelowMinimum(0)))
    else Success(v.value)
  }

  /** `limit: int = Field(default=100, ge=1, le=10000)`. */
  function CheckLimit(v: Option<int>): Result<int, FieldError> {
    if v.None? then Success(DefaultLimit)
    else if v.value < MinLimit then Failure(FieldError(LimitField, BelowMinimum(MinLimit)))
    else if v.value > MaxLimit then Failure(FieldError(LimitField, AboveMaximum(MaxLimit)))
    else Success(v.value)
  }

  function ErrorsOf<T>(r: Result<T, FieldError>): seq<FieldError> {
    if r.Failure? then [r.error] else []
  }

  // ---------------------------------------------------------------------------
  // The whole request
  // ---------------------------------------------------------------------------

  /** The acceptance condition, stated field by field on the raw input. */
  predicate Acceptable(raw: RawDataRequest) {
    && raw.networkId.Some? && raw.networkId.value != ""
    && raw.component.Some? && raw.component.value != ""
    && (raw.offset.None? || raw.offset.value >= 0)
    && (raw.limit.None? || MinLimit <= raw.limit.value <= MaxLimit)
  }

  /** Builds a `DataRequest`, or reports every field that fails, in declaration order. */
  function Validate(raw: RawDataRequest): (r: Result<DataRequest, seq<FieldError>>)
    ensures r.Success? <==> Acceptable(raw)
    ensures r.Success? ==>
      && r.value.networkId == raw.networkId.value
      && r.value.component == raw.component.value
      && r.value.offset == (if raw.offset.Some? then raw.offset.value else 0)
      && r.value.limit == (if raw.limit.Some? then raw.limit.value else 100)
      && r.value.offset >= 0
      && 1 <= r.value.limit <= 10000
    ensures r.Failure? ==> 1 <= |r.error| <= 4
  {
    var n := CheckName(NetworkIdField, raw.networkId, ValidateNetworkId);
    var c := CheckName(ComponentField, raw.component, ValidateComponent);
    var o := CheckOffset(raw.offset);
    var l := CheckLimit(raw.limit);
    if n.Success? && c.Success? && o.Success? && l.Success? then
      Success(DataRequest(n.value, c.value, o.value, l.value))
    else
      Failure(ErrorsOf(n) + ErrorsOf(c) + ErrorsOf(o) + ErrorsOf(l))
  }

  /** The exact error report: one entry per failing field, each with its reason. */
  lemma ValidateErrors(raw: RawDataRequest)
    requires !Acceptable(raw)
    ensures var errs := Validate(raw).error;
      && (FieldError(NetworkIdField, Missing) in errs <==> raw.networkId.None?)
      && (FieldError(NetworkIdField, ValueError(NetworkIdRequired)) in errs <==> raw.networkId == Some(""))
      && (FieldError(ComponentField, Missing) in errs <==> raw.component.None?)
      && (FieldError(ComponentField, ValueError(ComponentRequired)) in errs <==> raw.component == Some(""))
      && (FieldError(OffsetField, BelowMinimum(0)) in errs <==> raw.offset.Some? && raw.offset.value < 0)
      && (FieldError(LimitField, BelowMinimum(1)) in errs <==> raw.limit.Some? && raw.limit.value < 1)
      && (FieldError(LimitField, AboveMaximum(10000)) in errs <==> raw.limit.Some? && raw.limit.value > 10000)
  {
    var n := CheckName(NetworkIdField, raw.networkId, ValidateNetworkId);
    var c := CheckName(ComponentField, raw.component, ValidateComponent);
    var o := CheckOffset(raw.offset);
    var l := CheckLimit(raw.limit);
    assert Validate(raw).error == ErrorsOf(n) + ErrorsOf(c) + ErrorsOf(o) + ErrorsOf(l);
    assert forall e :: e in ErrorsOf(n) ==> e.field == NetworkIdField;
    assert forall e :: e in ErrorsOf(c) ==> e.field == ComponentField;
    assert forall e :: e in ErrorsOf(o) ==> e == FieldError(OffsetField, BelowMinimum(0));
    assert forall e :: e in ErrorsOf(l) ==> e.field == LimitField;
  }

  /** Each field's entries in the error report carry only that field's own reasons. */
  lemma ValidateErrorKinds(raw: RawDataRequest)
    requires !Acceptable(raw)
    ensures forall e :: e in Validate(raw).error ==>
      match e.field
      case NetworkIdField => e.kind == Missing || e.kind == ValueError(NetworkIdRequired)
      case ComponentField => e.kind == Missing || e.kind == ValueError(ComponentRequired)
      case OffsetField => e.kind == BelowMinimum(0)
      case LimitField => e.kind == BelowMinimum(1) || e.kind == AboveMaximum(10000)
  {
    var n := CheckName(NetworkIdField, raw.networkId, ValidateNetworkId);
    var c := CheckName(ComponentField, raw.component, ValidateComponent);
    var o := CheckOffset(raw.offset);
    var l := CheckLimit(raw.limit);
    assert Validate(raw).error == ErrorsOf(n) + ErrorsOf(c) + ErrorsOf(o) + ErrorsOf(l);
  }

  /** The fields of an accepted request. */
  function Raw(d: DataRequest): RawDataRequest {
    RawDataRequest(Some(d.networkId), Some(d.component), Some(d.offset), Some(d.limit))
  }

  /** Validating an accepted request again accepts it unchanged. */
  lemma ValidateIdempotent(raw: RawDataRequest)
    requires Validate(raw).Success?
    ensures Validate(Raw(Validate(raw).value)) == Validate(raw)
  {
  }

  /** A request that names a network and a component and leaves paging out gets offset 0 and limit 100. */
  lemma ValidateDefaults(networkId: string, component: string)
    requires networkId != "" && component != ""
    ensures Validate(RawDataRequest(Some(networkId), Some(component), None, None))
      == Success(DataRequest(networkId, component, 0, 100))
  {
  }
}

/** Request validation for alerts (api/schemas/alerts.py). Fields are
    validated in declaration order and every failing field reports an
    error; a field validator sees the fields validated before it, so the
    target check knows the alert type only when that type was valid. A
    validator runs only on a value the request gives: a defaulted field is
    not validated. */
module AlertSchemas {
  import opened Common
  import opened SchemaCommon
  import M = Models

  /** A validated AlertCreate. */
  datatype AlertCreate = AlertCreate(productId: int, alertType: M.AlertType, targetValue: Option<real>,
                                     minChangeThreshold: real)

  /** A validated AlertUpdate. */
  datatype AlertUpdate = AlertUpdate(targetValue: Option<real>, minChangeThreshold: Option<real>,
                                     isActive: Option<bool>)

  /** The alert type a request names by its value, if any. */
  function ParseAlertType(s: string): (r: Option<M.AlertType>)
    ensures r.Some? ==> r.value.Value() == s
  {
    if s == "target_price" then Some(M.TargetPrice)
    else if s == "percent_drop" then Some(M.PercentDrop)
    else if s == "any_change" then Some(M.AnyChange)
    else if s == "back_in_stock" then Some(M.BackInStock)
    else None
  }

  /** Every alert type is named by its own value. */
  lemma ParseAlertTypeValue(t: M.AlertType)
    ensures ParseAlertType(t.Value()) == Some(t)
  {
  }

  /** The alert types that compare against a target. */
  predicate NeedsTarget(t: M.AlertType)
  {
    t == M.TargetPrice || t == M.PercentDrop
  }

  /** validate_target_value: a target-price or percent-drop alert needs a
      target, and a positive one; the value is returned as given. */
  function ValidateTargetValue(alertType: Option<M.AlertType>, v: Option<real>): (r: Result<Option<real>, string>)
    ensures r.Ok? <==> !(alertType.Some? && NeedsTarget(alertType.value)) || (v.Some? && v.value > 0.0)
    ensures r.Ok? ==> r.value == v
    ensures r.Err? && v.None? ==> r.error == alertType.value.Value() + " requires a target_value"
    ensures r.Err? && v.Some? ==> r.error == "target_value must be positive"
  {
    if alertType.Some? && NeedsTarget(alertType.value) then
      if v.None? then Err(alertType.value.Value() + " requires a target_value")
      else if v.value <= 0.0 then Err("target_value must be positive")
      else Ok(v)
    else Ok(v)
  }

  /** The alert_type field: required, and one of the enum's values. */
  function AlertTypeField(i: Input<string>): (r: Result<M.AlertType, FieldError>)
    ensures r.Ok? <==> i.Given? && ParseAlertType(i.value).Some?
    ensures r.Ok? ==> r.value.Value() == i.value
  {
    match i
    case Omitted => Err(Missing("alert_type"))
    case Given(s) =>
      var t := ParseAlertType(s);
      if t.Some? then Ok(t.value) else Err(Constraint("alert_type", "enum"))
  }

  /** The min_change_threshold field: 1.0 when left out, otherwise at
      least 0. */
  function ThresholdField(i: Input<real>): (r: Result<real, FieldError>)
    ensures r.Ok? <==> i.Omitted? || i.value >= 0.0
    ensures r.Ok? ==> r.value == (if i.Omitted? then 1.0 else i.value) && r.value >= 0.0
  {
    match i
    case Omitted => Ok(1.0)
    case Given(x) => if x >= 0.0 then Ok(x) else Err(Constraint("min_change_threshold", "ge=0"))
  }

  /** The alert type the target validator sees: the validated one, or
      none when alert_type failed. */
  function SeenType(at: Result<M.AlertType, FieldError>): Option<M.AlertType>
  {
    if at.Ok? then Some(at.value) else None
  }

  /** The target_value field as written: left out, it takes its default
      None without the validator running; given, it is validated. */
  function TargetFieldAsWritten(at: Result<M.AlertType, FieldError>, i: Input<Option<real>>)
    : (r: Result<Option<real>, FieldError>)
    ensures i.Omitted? ==> r == Ok(None)
    ensures i.Given? ==> (r.Ok? <==> ValidateTargetValue(SeenType(at), i.value).Ok?)
  {
    match i
    case Omitted => Ok(None)
    case Given(v) => TargetField(at, v)
  }

  /** The target_value field validated whether given or defaulted, which
      is what validate_target_value is there to enforce. */
  function TargetField(at: Result<M.AlertType, FieldError>, v: Option<real>): (r: Result<Option<real>, FieldError>)
    ensures r.Ok? <==> ValidateTargetValue(SeenType(at), v).Ok?
    ensures r.Ok? ==> r.value == v
    ensures r.Err? ==> r.error == Invalid("target_value", ValidateTargetValue(SeenType(at), v).error)
  {
    var c := ValidateTargetValue(SeenType(at), v);
    if c.Ok? then Ok(v) else Err(Invalid("target_value", c.error))
  }

  /** The model from its validated fields, or every field's error in
      field order. */
  function Assemble(pid: Result<int, FieldError>, at: Result<M.AlertType, FieldError>,
                    tv: Result<Option<real>, FieldError>, mc: Result<real, FieldError>)
    : (r: Result<AlertCreate, seq<FieldError>>)
    ensures r.Ok? <==> pid.Ok? && at.Ok? && tv.Ok? && mc.Ok?
    ensures r.Ok? ==> r.value == AlertCreate(pid.value, at.value, tv.value, mc.value)
    ensures r.Err? ==> r.error == ErrorsOf(pid) + ErrorsOf(at) + ErrorsOf(tv) + ErrorsOf(mc)
  {
    var errs := ErrorsOf(pid) + ErrorsOf(at) + ErrorsOf(tv) + ErrorsOf(mc);
    if errs == [] then Ok(AlertCreate(pid.value, at.value, tv.value, mc.value)) else Err(errs)
  }

  /** AlertCreate as written: a left-out target_value is never checked. */
  function AlertCreateAsWritten(productId: Input<int>, alertType: Input<string>, targetValue: Input<Option<real>>,
                                minChangeThreshold: Input<real>): (r: Result<AlertCreate, seq<FieldError>>)
    ensures targetValue.Omitted? && r.Ok? ==> r.value.targetValue.None?
  {
    var at := AlertTypeField(alertType);
    Assemble(Required("product_id", productId), at, TargetFieldAsWritten(at, targetValue),
             ThresholdField(minChangeThreshold))
  }

  /** A target-price alert with no target_value in the request is accepted
      as written, although validate_target_value exists to refuse it. */
  lemma OmittedTargetAccepted(productId: int)
    ensures var r := AlertCreateAsWritten(Given(productId), Given("target_price"), Omitted, Omitted);
            && r == Ok(AlertCreate(productId, M.TargetPrice, None, 1.0))
            && NeedsTarget(r.value.alertType) && r.value.targetValue.None?
  {
    var at := AlertTypeField(Given("target_price"));
    assert at == Ok(M.TargetPrice);
  }

  /** AlertCreate with the target checked also when it is left out.
      Whatever it accepts is an alert the service can evaluate: the
      request's product and type, a positive target for a target-based
      alert, and a threshold that is not negative. */
  function ValidateAlertCreate(productId: Input<int>, alertType: Input<string>, targetValue: Input<Option<real>>,
                               minChangeThreshold: Input<real>): (r: Result<AlertCreate, seq<FieldError>>)
    ensures r.Ok? ==>
              && productId == Given(r.value.productId)
              && alertType == Given(r.value.alertType.Value())
              && (NeedsTarget(r.value.alertType) ==> r.value.targetValue.Some? && r.value.targetValue.value > 0.0)
              && r.value.minChangeThreshold >= 0.0
    ensures productId.Omitted? ==> r.Err? && Missing("product_id") in r.error
    ensures alertType.Omitted? ==> r.Err? && Missing("alert_type") in r.error
  {
    var at := AlertTypeField(alertType);
    var tv := if targetValue.Given? then targetValue.value else None;
    Assemble(Required("product_id", productId), at, TargetField(at, tv), ThresholdField(minChangeThreshold))
  }

  /** ValidateAlertCreate accepts every such request, with the request's values. */
  lemma ValidateAlertCreateComplete(productId: int, t: M.AlertType, targetValue: Input<Option<real>>,
                                    minChangeThreshold: Input<real>)
    requires var tv := if targetValue.Given? then targetValue.value else None;
             NeedsTarget(t) ==> tv.Some? && tv.value > 0.0
    requires minChangeThreshold.Given? ==> minChangeThreshold.value >= 0.0
    ensures ValidateAlertCreate(Given(productId), Given(t.Value()), targetValue, minChangeThreshold)
            == Ok(AlertCreate(productId, t, if targetValue.Given? then targetValue.value else None,
                              if minChangeThreshold.Given? then minChangeThreshold.value else 1.0))
  {
    ParseAlertTypeValue(t);
  }

  /** When the request gives target_value, the two agree. */
  lemma AgreeWhenTargetGiven(productId: Input<int>, alertType: Input<string>, v: Option<real>,
                             minChangeThreshold: Input<real>)
    ensures AlertCreateAsWritten(productId, alertType, Given(v), minChangeThreshold)
            == ValidateAlertCreate(productId, alertType, Given(v), minChangeThreshold)
  {
  }

  /** AlertUpdate: every field optional; a given threshold is at least 0. */
  function ValidateAlertUpdate(targetValue: Option<real>, minChangeThreshold: Option<real>, isActive: Option<bool>)
    : (r: Result<AlertUpdate, seq<FieldError>>)
    ensures r.Ok? <==> minChangeThreshold.None? || minChangeThreshold.value >= 0.0
    ensures r.Ok? ==> r.value == AlertUpdate(targetValue, minChangeThreshold, isActive)
    ensures r.Err? ==> r.error == [Constraint("min_change_threshold", "ge=0")]
  {
    if minChangeThreshold.Some? && minChangeThreshold.value < 0.0 then
      Err([Constraint("min_change_threshold", "ge=0")])
    else Ok(AlertUpdate(targetValue, minChangeThreshold, isActive))
  }
}

/** Request validation for crawl schedules (api/schemas/schedules.py). A
    schedule targets one product or one whole store, and carries a CRON
    expression that the croniter library must accept; croniter is a
    parameter here, answering with its error text for an expression it
    refuses. As for every request schema, a validator runs only on a value
    the request gives. */
module ScheduleSchemas {
  import opened Common
  import opened SchemaCommon

  /** A validated ScheduleCreate. */
  datatype ScheduleCreate = ScheduleCreate(productId: Option<int>, storeDomain: Option<string>, cronExpression: string)

  /** A validated ScheduleUpdate. */
  datatype ScheduleUpdate = ScheduleUpdate(cronExpression: Option<string>, isActive: Option<bool>)

  /** croniter(expression): None when it parses, else the error's text. */
  type Croniter = string -> Option<string>

  const MaxStoreDomain := 255
  const MaxCron := 100

  /** validate_cron_expression: the expression itself, or croniter's
      complaint behind "Invalid CRON expression: ". */
  function ValidateCronExpression(cron: string, croniter: Croniter): (r: Result<string, string>)
    ensures r.Ok? <==> croniter(cron).None?
    ensures r.Ok? ==> r.value == cron
    ensures r.Err? ==> r.error == "Invalid CRON expression: " + croniter(cron).value
  {
    match croniter(cron)
    case None => Ok(cron)
    case Some(e) => Err("Invalid CRON expression: " + e)
  }

  /** validate_schedule_target: exactly one of product_id and store_domain;
      the store domain is returned as given. */
  function ValidateScheduleTarget(productId: Option<int>, v: Option<string>): (r: Result<Option<string>, string>)
    ensures r.Ok? <==> productId.Some? != v.Some?
    ensures r.Ok? ==> r.value == v
    ensures r.Err? && v.None? ==> r.error == "Either product_id or store_domain must be provided"
    ensures r.Err? && v.Some? ==> r.error == "Cannot set both product_id and store_domain"
  {
    if productId.None? && v.None? then Err("Either product_id or store_domain must be provided")
    else if productId.Some? && v.Some? then Err("Cannot set both product_id and store_domain")
    else Ok(v)
  }

  /** A store_domain value the request gives: at most 255 characters, then
      the target check. */
  function StoreDomainField(productId: Option<int>, v: Option<string>): (r: Result<Option<string>, FieldError>)
    ensures r.Ok? <==> (v.None? || |v.value| <= MaxStoreDomain) && productId.Some? != v.Some?
    ensures r.Ok? ==> r.value == v
  {
    if v.Some? && |v.value| > MaxStoreDomain then Err(Constraint("store_domain", "max_length=255"))
    else
      var c := ValidateScheduleTarget(productId, v);
      if c.Ok? then Ok(v) else Err(Invalid("store_domain", c.error))
  }

  /** The store_domain field as written: left out, it defaults to None
      without the target check. */
  function StoreDomainFieldAsWritten(productId: Option<int>, i: Input<Option<string>>)
    : (r: Result<Option<string>, FieldError>)
    ensures i.Omitted? ==> r == Ok(None)
    ensures i.Given? ==> r == StoreDomainField(productId, i.value)
  {
    match i
    case Omitted => Ok(None)
    case Given(v) => StoreDomainField(productId, v)
  }

  /** The cron_expression field: required, at most 100 characters, and
      accepted by croniter. */
  function CronField(i: Input<string>, croniter: Croniter): (r: Result<string, FieldError>)
    ensures r.Ok? <==> i.Given? && |i.value| <= MaxCron && croniter(i.value).None?
    ensures r.Ok? ==> r.value == i.value
    ensures i.Omitted? ==> r == Err(Missing("cron_expression"))
  {
    match i
    case Omitted => Err(Missing("cron_expression"))
    case Given(s) =>
      if |s| > MaxCron then Err(Constraint("cron_expression", "max_length=100"))
      else
        var c := ValidateCronExpression(s, croniter);
        if c.Ok? then Ok(s) else Err(Invalid("cron_expression", c.error))
  }

  /** The model from its validated fields, or every field's error in
      field order (product_id itself has no check). */
  function Assemble(productId: Option<int>, sd: Result<Option<string>, FieldError>, cron: Result<string, FieldError>)
    : (r: Result<ScheduleCreate, seq<FieldError>>)
    ensures r.Ok? <==> sd.Ok? && cron.Ok?
    ensures r.Ok? ==> r.value == ScheduleCreate(productId, sd.value, cron.value)
    ensures r.Err? ==> r.error == ErrorsOf(sd) + ErrorsOf(cron)
  {
    var errs := ErrorsOf(sd) + ErrorsOf(cron);
    if errs == [] then Ok(ScheduleCreate(productId, sd.value, cron.value)) else Err(errs)
  }

  /** ScheduleCreate as written: product_id defaults to None, and a
      left-out store_domain skips the target check. */
  function ScheduleCreateAsWritten(productId: Input<Option<int>>, storeDomain: Input<Option<string>>,
                                   cronExpression: Input<string>, croniter: Croniter)
    : (r: Result<ScheduleCreate, seq<FieldError>>)
    ensures storeDomain.Omitted? && r.Ok? ==> r.value.storeDomain.None?
  {
    var pid := if productId.Given? then productId.value else None;
    Assemble(pid, StoreDomainFieldAsWritten(pid, storeDomain), CronField(cronExpression, croniter))
  }

  /** A request with neither product_id nor store_domain is accepted as
      written: a schedule with no target at all. */
  lemma NoTargetAccepted(cron: string, croniter: Croniter)
    requires |cron| <= MaxCron && croniter(cron).None?
    ensures var r := ScheduleCreateAsWritten(Omitted, Omitted, Given(cron), croniter);
            && r == Ok(ScheduleCreate(None, None, cron))
            && r.value.productId.None? && r.value.storeDomain.None?
  {
  }

  /** ScheduleCreate with the target checked also when store_domain is
      left out. Whatever it accepts targets exactly one product or one
      store and has an expression croniter parses. */
  function ValidateScheduleCreate(productId: Input<Option<int>>, storeDomain: Input<Option<string>>,
                                  cronExpression: Input<string>, croniter: Croniter)
    : (r: Result<ScheduleCreate, seq<FieldError>>)
    ensures r.Ok? ==>
              && r.value.productId.Some? != r.value.storeDomain.Some?
              && (r.value.storeDomain.Some? ==> |r.value.storeDomain.value| <= MaxStoreDomain)
              && cronExpression == Given(r.value.cronExpression)
              && |r.value.cronExpression| <= MaxCron && croniter(r.value.cronExpression).None?
    ensures cronExpression.Omitted? ==> r.Err? && Missing("cron_expression") in r.error
  {
    var pid := if productId.Given? then productId.value else None;
    var sd := if storeDomain.Given? then storeDomain.value else None;
    Assemble(pid, StoreDomainField(pid, sd), CronField(cronExpression, croniter))
  }

  /** ValidateScheduleCreate accepts every request with exactly one target
      and a good expression, keeping its values. */
  lemma ValidateScheduleCreateComplete(productId: Option<int>, storeDomain: Option<string>, cron: string,
                                       croniter: Croniter)
    requires productId.Some? != storeDomain.Some?
    requires storeDomain.Some? ==> |storeDomain.value| <= MaxStoreDomain
    requires |cron| <= MaxCron && croniter(cron).None?
    ensures ValidateScheduleCreate(Given(productId), Given(storeDomain), Given(cron), croniter)
            == Ok(ScheduleCreate(productId, storeDomain, cron))
  {
  }

  /** When the request gives store_domain, the two agree. */
  lemma AgreeWhenStoreGiven(productId: Input<Option<int>>, v: Option<string>, cronExpression: Input<string>,
                            croniter: Croniter)
    ensures ScheduleCreateAsWritten(productId, Given(v), cronExpression, croniter)
            == ValidateScheduleCreate(productId, Given(v), cronExpression, croniter)
  {
  }

  /** ScheduleUpdate: a None expression passes unchecked; a given one must
      fit 100 characters and parse. */
  function ValidateScheduleUpdate(cronExpression: Option<string>, isActive: Option<bool>, croniter: Croniter)
    : (r: Result<ScheduleUpdate, seq<FieldError>>)
    ensures r.Ok? <==> cronExpression.None? || (|cronExpression.value| <= MaxCron && croniter(cronExpression.value).None?)
    ensures r.Ok? ==> r.value == ScheduleUpdate(cronExpression, isActive)
    ensures r.Err? ==> |r.error| == 1 && r.error[0].field == "cron_expression"
  {
    if cronExpression.None? then Ok(ScheduleUpdate(None, isActive))
    else
      var c := CronField(Given(cronExpression.value), croniter);
      if c.Ok? then Ok(ScheduleUpdate(cronExpression, isActive)) else Err([c.error])
  }
}

/** Schedule triggers: CRON validation, the effective schedule of a product
    (product schedule, then store schedule, then the system default), schedule
    creation and next-run bookkeeping, the human-readable CRON description and
    the predefined presets.

    The CRON engine (croniter) is outside the model: the two next run times it
    computes for an expression, or the error it raises, are a parameter. */
module Triggers {
  import opened Common
  import M = Models

  const MinIntervalHours: int := 24
  const DefaultCron: string := "0 6 * * *"
  const WeeklyCron: string := "0 6 * * 1"

  // ---------------------------------------------------------------
  // Validation
  // ---------------------------------------------------------------

  /** What the CRON engine reports for an expression: its next two run times
      (seconds), or the message of the error it raises. */
  datatype CronRuns = Runs(first: real, second: real) | Rejected(message: string)

  datatype CronValidation = CronValidation(
    valid: bool,
    expression: string,
    error: Option<string>,
    nextRun: Option<real>,
    intervalHours: Option<real>)

  function FieldCountError(n: nat): string
  {
    "Expected 5 fields, got " + NatToString(n)
  }

  /** A span of seconds in hours. */
  function Hours(seconds: real): real
  {
    seconds / 3600.0
  }

  /** validate_cron: the stripped expression must split into five fields and
      be accepted by the CRON engine; the interval is the gap between the next
      two runs, in hours. */
  function ValidateCron(expression: string, croniter: string -> CronRuns): (r: CronValidation)
    ensures r.expression == Strip(expression)
    ensures r.valid <==> |Words(Strip(expression))| == 5 && croniter(Strip(expression)).Runs?
    ensures |Words(Strip(expression))| != 5 ==>
              r.error == Some(FieldCountError(|Words(Strip(expression))|))
    ensures r.valid ==>
              var runs := croniter(Strip(expression));
              r.error.None? && r.nextRun == Some(runs.first)
              && r.intervalHours == Some(Hours(runs.second - runs.first))
    ensures !r.valid ==> r.error.Some? && r.nextRun.None? && r.intervalHours.None?
  {
    Verdict(Strip(expression), |Words(Strip(expression))|, croniter(Strip(expression)))
  }

  /** validate_cron's answer for the stripped expression `e`, its field
      count `n` and the engine's report on it. */
  function Verdict(e: string, n: nat, runs: CronRuns): (r: CronValidation)
    ensures r.expression == e
    ensures r.valid <==> n == 5 && runs.Runs?
    ensures n != 5 ==> r.error == Some(FieldCountError(n))
    ensures r.valid ==> r.error.None? && r.nextRun == Some(runs.first) && r.intervalHours == Some(Hours(runs.second - runs.first))
    ensures !r.valid ==> r.error.Some? && r.nextRun.None? && r.intervalHours.None?
  {
    if n != 5 then
      CronValidation(false, e, Some(FieldCountError(n)), None, None)
    else if runs.Runs? then
      CronValidation(true, e, None, Some(runs.first), Some(Hours(runs.second - runs.first)))
    else
      CronValidation(false, e, Some(runs.message), None, None)
  }

  /** Python truthiness of an optional float. */
  predicate TruthyHours(h: Option<real>)
  {
    h.Some? && h.value != 0.0
  }

  /** validate_cron_with_minimum: a valid expression whose (non-zero) interval
      is below `minHours` is refused; everything else is passed through.
      `format1` is Python's `:.1f` formatting. */
  function ValidateCronWithMinimum(expression: string, minHours: int, croniter: string -> CronRuns,
                                   format1: real -> string): (r: CronValidation)
    ensures var v := ValidateCron(expression, croniter);
            && (!v.valid ==> r == v)
            && (r.valid <==> v.valid && !(TruthyHours(v.intervalHours) && v.intervalHours.value < minHours as real))
            && (r.valid ==> r == v)
            && r.intervalHours == v.intervalHours
            && (v.valid && !r.valid ==>
                  r.expression == expression && r.nextRun.None?
                  && r.error.Some? && Contains(r.error.value, "below minimum"))
  {
    var v := ValidateCron(expression, croniter);
    if !v.valid then v
    else if TruthyHours(v.intervalHours) && v.intervalHours.value < minHours as real then
      var pre := "Interval " + format1(v.intervalHours.value) + "h is ";
      var post := " " + IntToString(minHours) + "h";
      ContainsMiddle(pre, "below minimum", post);
      CronValidation(false, expression, Some(pre + "below minimum" + post), None, v.intervalHours)
    else v
  }

  /** A schedule accepted by the minimum check runs no more often than
      every `minHours` hours. */
  lemma AcceptedIntervalMeetsMinimum(expression: string, minHours: int, croniter: string -> CronRuns,
                                     format1: real -> string)
    requires ValidateCronWithMinimum(expression, minHours, croniter, format1).valid
    requires croniter(Strip(expression)).second != croniter(Strip(expression)).first
    ensures var runs := croniter(Strip(expression));
            (runs.second - runs.first) / 3600.0 >= minHours as real
  {
    var runs := croniter(Strip(expression));
    var h := (runs.second - runs.first) / 3600.0;
    assert h != 0.0 by {
      if h == 0.0 {
        assert runs.second - runs.first == h * 3600.0;
      }
    }
  }

  // ---------------------------------------------------------------
  // Effective schedule
  // ---------------------------------------------------------------

  /** Active and not soft-deleted. */
  predicate Live(s: M.Schedule)
  {
    s.isActive && s.deletedAt.None?
  }

  predicate ProductTarget(s: M.Schedule, productId: int)
  {
    Live(s) && s.productId == Some(productId)
  }

  /** The store lookup ignores product-level schedules. */
  predicate StoreTarget(s: M.Schedule, domain: string)
  {
    Live(s) && s.storeDomain == Some(domain) && s.productId.None?
  }

  /** ORDER BY created_at DESC LIMIT 1 over the rows that `keep` accepts
      (among equal creation times the earlier row is taken). */
  function LatestWhere(rows: seq<M.Schedule>, keep: M.Schedule -> bool): (r: Option<M.Schedule>)
    ensures r.None? <==> forall i :: 0 <= i < |rows| ==> !keep(rows[i])
    ensures r.Some? ==>
              r.value in rows && keep(r.value)
              && forall i :: 0 <= i < |rows| && keep(rows[i]) ==> rows[i].createdAt <= r.value.createdAt
    decreases |rows|
  {
    if rows == [] then None
    else
      var front := rows[..|rows| - 1];
      var last := rows[|rows| - 1];
      var best := LatestWhere(front, keep);
      assert forall i :: 0 <= i < |front| ==> front[i] == rows[i];
      if !keep(last) then best
      else if best.Some? && best.value.createdAt >= last.createdAt then best
      else Some(last)
  }

  /** _get_product_schedule. */
  function ProductSchedule(rows: seq<M.Schedule>, productId: int): Option<M.Schedule>
  {
    LatestWhere(rows, s => ProductTarget(s, productId))
  }

  /** _get_store_schedule. */
  function StoreSchedule(rows: seq<M.Schedule>, domain: string): Option<M.Schedule>
  {
    LatestWhere(rows, s => StoreTarget(s, domain))
  }

  datatype ScheduleSource = ProductLevel | StoreLevel | SystemLevel
  {
    function Name(): string
    {
      match this
      case ProductLevel => "product"
      case StoreLevel => "store"
      case SystemLevel => "system"
    }
  }

  datatype ScheduleInfo = ScheduleInfo(
    productId: int,
    cronExpression: string,
    source: ScheduleSource,
    scheduleId: Option<int>,
    nextRun: Option<real>)

  /** The newest live schedule among those `target` accepts sits at index i. */
  predicate Newest(rows: seq<M.Schedule>, i: int, target: M.Schedule -> bool)
  {
    0 <= i < |rows| && target(rows[i])
    && forall j :: 0 <= j < |rows| && target(rows[j]) ==> rows[j].createdAt <= rows[i].createdAt
  }

  /** get_effective_schedule: `product` is what the session holds for
      `productId` (null when there is none); `nextRun` is get_next_run_time
      from the current time. */
  function GetEffectiveSchedule(product: M.Product?, productId: int, rows: seq<M.Schedule>,
                                nextRun: string -> Option<real>): (r: ScheduleInfo)
    reads product
    ensures r.productId == productId
    ensures product == null ==> r == ScheduleInfo(productId, DefaultCron, SystemLevel, None, None)
    ensures r.source == ProductLevel <==>
              product != null && exists i :: 0 <= i < |rows| && ProductTarget(rows[i], productId)
    ensures r.source == StoreLevel <==>
              && product != null
              && (forall i :: 0 <= i < |rows| ==> !ProductTarget(rows[i], productId))
              && (exists i :: 0 <= i < |rows| && StoreTarget(rows[i], product.storeDomain))
    ensures r.source == ProductLevel ==>
              exists i :: Newest(rows, i, s => ProductTarget(s, productId))
                          && r.scheduleId == Some(rows[i].id) && r.cronExpression == rows[i].cronExpression
    ensures r.source == StoreLevel ==>
              var domain := product.storeDomain;
              exists i :: Newest(rows, i, s => StoreTarget(s, domain))
                          && r.scheduleId == Some(rows[i].id) && r.cronExpression == rows[i].cronExpression
    ensures r.source == SystemLevel ==> r.cronExpression == DefaultCron && r.scheduleId.None?
    ensures product != null ==> r.nextRun == nextRun(r.cronExpression)
  {
    if product == null then
      ScheduleInfo(productId, DefaultCron, SystemLevel, None, None)
    else
      var own := ProductSchedule(rows, productId);
      if own.Some? then
        ScheduleInfo(productId, own.value.cronExpression, ProductLevel, Some(own.value.id),
                     nextRun(own.value.cronExpression))
      else
        var shared := StoreSchedule(rows, product.storeDomain);
        if shared.Some? then
          ScheduleInfo(productId, shared.value.cronExpression, StoreLevel, Some(shared.value.id),
                       nextRun(shared.value.cronExpression))
        else
          ScheduleInfo(productId, DefaultCron, SystemLevel, None, nextRun(DefaultCron))
  }

  // ---------------------------------------------------------------
  // Creating and advancing schedules
  // ---------------------------------------------------------------

  const TargetRequired: string := "Either product_id or store_domain must be provided"
  const InvalidCronPrefix: string := "Invalid CRON expression: "

  /** Python truthiness of the two optional targets. */
  predicate HasTarget(productId: Option<int>, storeDomain: Option<string>)
  {
    (productId.Some? && productId.value != 0) || (storeDomain.Some? && storeDomain.value != "")
  }

  /** The ValueError create_schedule raises, or the schedule it stores. */
  datatype Creation = Created(schedule: M.Schedule) | Raised(message: string)

  /** The validation create_schedule applies. */
  function CreationCheck(cronExpression: string, validateMinimum: bool, croniter: string -> CronRuns,
                         format1: real -> string): CronValidation
  {
    if validateMinimum then ValidateCronWithMinimum(cronExpression, MinIntervalHours, croniter, format1)
    else ValidateCron(cronExpression, croniter)
  }

  /** str() of an optional error text in an f-string. */
  function ErrorText(e: Option<string>): string
  {
    if e.Some? then e.value else "None"
  }

  /** The schedules table. */
  class ScheduleTable {
    var rows: seq<M.Schedule>

    constructor(rows: seq<M.Schedule>)
      ensures this.rows == rows
    {
      this.rows := rows;
    }

    /** The position of the row with the given id, if any. */
    function Position(id: int): (r: Option<nat>)
      reads this
      ensures r.None? <==> forall i :: 0 <= i < |rows| ==> rows[i].id != id
      ensures r.Some? ==> r.value < |rows| && rows[r.value].id == id
                          && forall i :: 0 <= i < r.value ==> rows[i].id != id
    {
      PositionIn(rows, id)
    }

    /** create_schedule: `id` is the key the database assigns and `now` the
        creation time. */
    method CreateSchedule(cronExpression: string, productId: Option<int>, storeDomain: Option<string>,
                          validateMinimum: bool, croniter: string -> CronRuns, format1: real -> string,
                          id: int, now: real)
      returns (r: Creation)
      modifies this
      ensures !HasTarget(productId, storeDomain) ==> r == Raised(TargetRequired) && rows == old(rows)
      ensures var v := CreationCheck(cronExpression, validateMinimum, croniter, format1);
              HasTarget(productId, storeDomain) && !v.valid ==>
                r == Raised(InvalidCronPrefix + ErrorText(v.error)) && rows == old(rows)
      ensures r.Created? <==>
                HasTarget(productId, storeDomain)
                && CreationCheck(cronExpression, validateMinimum, croniter, format1).valid
      ensures r.Created? ==>
                && Live(r.schedule)
                && r.schedule.id == id && r.schedule.cronExpression == cronExpression
                && r.schedule.productId == productId && r.schedule.storeDomain == storeDomain
                && r.schedule.nextRunAt == CreationCheck(cronExpression, validateMinimum, croniter, format1).nextRun
                && r.schedule.lastRunAt.None? && r.schedule.createdAt == now
                && rows == old(rows) + [r.schedule]
    {
      if !HasTarget(productId, storeDomain) {
        return Raised(TargetRequired);
      }
      var validation := CreationCheck(cronExpression, validateMinimum, croniter, format1);
      if !validation.valid {
        return Raised(InvalidCronPrefix + ErrorText(validation.error));
      }
      var schedule := M.Schedule(id, productId, storeDomain, cronExpression, true, None,
                                 validation.nextRun, None, now, now);
      rows := rows + [schedule];
      r := Created(schedule);
    }

    /** update_schedule_next_run: stamps the last run and recomputes the next
        one; false when there is no such schedule. */
    method UpdateScheduleNextRun(scheduleId: int, now: real, nextRun: string -> Option<real>)
      returns (ok: bool)
      modifies this
      ensures ok <==> exists i :: 0 <= i < |old(rows)| && old(rows)[i].id == scheduleId
      ensures !ok ==> rows == old(rows)
      ensures ok ==>
                var k := PositionIn(old(rows), scheduleId).value;
                var s := old(rows)[k];
                rows == old(rows)[k := s.(lastRunAt := Some(now), nextRunAt := nextRun(s.cronExpression),
                                          updatedAt := now)]
    {
      var k := Position(scheduleId);
      if k.None? {
        return false;
      }
      var s := rows[k.value];
      rows := rows[k.value := s.(lastRunAt := Some(now), nextRunAt := nextRun(s.cronExpression),
                                 updatedAt := now)];
      ok := true;
    }
  }

  function PositionIn(rows: seq<M.Schedule>, id: int): (r: Option<nat>)
    ensures r.None? <==> forall i :: 0 <= i < |rows| ==> rows[i].id != id
    ensures r.Some? ==> r.value < |rows| && rows[r.value].id == id
                        && forall i :: 0 <= i < r.value ==> rows[i].id != id
  {
    if rows == [] then None
    else if rows[0].id == id then Some(0)
    else
      var rest := PositionIn(rows[1..], id);
      if rest.None? then None else Some(rest.value + 1)
  }

  /** A schedule created after every existing one becomes the product's
      effective schedule. */
  lemma {:induction false} NewestProductScheduleWins(rows: seq<M.Schedule>, s: M.Schedule, productId: int)
    requires ProductTarget(s, productId)
    requires forall i :: 0 <= i < |rows| ==> rows[i].createdAt < s.createdAt
    ensures ProductSchedule(rows + [s], productId) == Some(s)
  {
    var all := rows + [s];
    var r := ProductSchedule(all, productId);
    assert all[|rows|] == s;
    assert r.Some?;
    assert s.createdAt <= r.value.createdAt;
    assert forall k :: 0 <= k < |rows| ==> all[k] != r.value by {
      forall k | 0 <= k < |rows| ensures all[k] != r.value {
        assert all[k] == rows[k];
      }
    }
  }

  // ---------------------------------------------------------------
  // Descriptions
  // ---------------------------------------------------------------

  /** str.isdigit for ASCII digits. */
  predicate AllDigits(s: string)
  {
    s != [] && forall c :: c in s ==> IsDigit(c)
  }

  /** Python's str.zfill(2). */
  function Zfill2(s: string): (r: string)
    ensures |r| == if |s| >= 2 then |s| else 2
  {
    if |s| >= 2 then s
    else if |s| == 1 && (s[0] == '+' || s[0] == '-') then [s[0], '0']
    else if |s| == 1 then ['0', s[0]]
    else "00"
  }

  /** The day-of-week names as the description indexes them. */
  const DowNames: seq<string> := ["Mon", "Tue", "Wed", "Thu", "Fri", "Sat", "Sun"]

  /** The day-of-week names in croniter's numbering, where 0 is Sunday. */
  const CronDowNames: seq<string> := ["Sun", "Mon", "Tue", "Wed", "Thu", "Fri", "Sat"]

  /** croniter's numbering with 7 as a second name for Sunday. */
  const CronDowNamesWithSeven: seq<string> := CronDowNames + ["Sun"]

  /** A numeric day-of-week field indexes the seven names; a larger one
      makes describe_cron raise IndexError. */
  predicate DowIndexable(expression: string)
  {
    var parts := Words(expression);
    |parts| == 5 && AllDigits(parts[4]) ==> DigitsValue(parts[4]) < 7
  }

  predicate Fixed(expression: string)
  {
    expression == "0 6 * * *" || expression == "0 0 * * *"
    || expression == "0 6 * * 0" || expression == "0 6 * * 1"
  }

  /** Nothing about the fields is worth saying. */
  predicate Unremarkable(parts: seq<string>)
    requires |parts| == 5
  {
    (parts[1] == "*" || parts[0] == "*") && parts[4] == "*" && parts[2] == "*" && parts[3] == "*"
  }

  function TimePiece(minute: string, hour: string): string
  {
    "at " + Zfill2(hour) + ":" + Zfill2(minute) + " UTC"
  }

  /** The day-of-week piece: a number names its day, anything else is
      quoted. A number past the names is quoted too; describe_cron itself
      raises there, which DescribeCron's precondition keeps out. */
  function DowPiece(dow: string, names: seq<string>): string
  {
    if AllDigits(dow) && DigitsValue(dow) < |names| then "on " + names[DigitsValue(dow)] else "on day " + dow
  }

  /** The pieces of a composed description, in order. */
  function Pieces(parts: seq<string>, names: seq<string>): (ps: seq<string>)
    requires |parts| == 5
    ensures forall i :: 0 <= i < |ps| ==> |ps[i]| >= 3 && ps[i][0] in "aoi"
  {
    var minute := parts[0];
    var hour := parts[1];
    var day := parts[2];
    var month := parts[3];
    var dow := parts[4];
    (if hour != "*" && minute != "*" then [TimePiece(minute, hour)] else [])
    + (if dow != "*" then [DowPiece(dow, names)] else [])
    + (if day != "*" then ["on day " + day] else [])
    + (if month != "*" then ["in month " + month] else [])
  }

  /** describe_cron, with the day-of-week names as a parameter. */
  function DescribeWith(expression: string, names: seq<string>): (r: string)
    ensures |Words(expression)| != 5 ==> r == "Invalid schedule"
    ensures |Words(expression)| == 5 && expression == "0 6 * * *" ==> r == "Daily at 6:00 AM UTC"
    ensures |Words(expression)| == 5 && expression == "0 0 * * *" ==> r == "Daily at midnight UTC"
    ensures |Words(expression)| == 5 && expression == "0 6 * * 0" ==> r == "Weekly on Sunday at 6:00 AM UTC"
    ensures |Words(expression)| == 5 && expression == "0 6 * * 1" ==> r == "Weekly on Monday at 6:00 AM UTC"
    ensures var parts := Words(expression);
            |parts| == 5 && !Fixed(expression) ==>
              && (r == "Custom schedule" <==> Unremarkable(parts))
              && (parts[1] != "*" && parts[0] != "*" ==> TimePiece(parts[0], parts[1]) <= r)
              && (parts[4] != "*" && AllDigits(parts[4]) && DigitsValue(parts[4]) < |names| ==>
                    Contains(r, "on " + names[DigitsValue(parts[4])]))
              && (parts[4] != "*" && !(AllDigits(parts[4]) && DigitsValue(parts[4]) < |names|) ==>
                    Contains(r, "on day " + parts[4]))
              && (parts[2] != "*" ==> Contains(r, "on day " + parts[2]))
              && (parts[3] != "*" ==> Contains(r, "in month " + parts[3]))
  {
    var parts := Words(expression);
    if |parts| != 5 then "Invalid schedule"
    else if expression == "0 6 * * *" then "Daily at 6:00 AM UTC"
    else if expression == "0 0 * * *" then "Daily at midnight UTC"
    else if expression == "0 6 * * 0" then "Weekly on Sunday at 6:00 AM UTC"
    else if expression == "0 6 * * 1" then "Weekly on Monday at 6:00 AM UTC"
    else
      var ps := Pieces(parts, names);
      if ps == [] then "Custom schedule"
      else
        var r := Join(ps, " ");
        PiecesDescribed(parts, names, ps, r);
        r
  }

  /** The composed text starts with its first piece, names every piece and
      so is never the "Custom schedule" text. */
  lemma PiecesDescribed(parts: seq<string>, names: seq<string>, ps: seq<string>, r: string)
    requires |parts| == 5
    requires ps == Pieces(parts, names) && ps != [] && r == Join(ps, " ")
    ensures r != "Custom schedule" && !Unremarkable(parts)
    ensures ps[0] <= r
    ensures parts[1] != "*" && parts[0] != "*" ==> TimePiece(parts[0], parts[1]) <= r
    ensures parts[4] != "*" && AllDigits(parts[4]) && DigitsValue(parts[4]) < |names| ==>
              Contains(r, "on " + names[DigitsValue(parts[4])])
    ensures parts[4] != "*" && !(AllDigits(parts[4]) && DigitsValue(parts[4]) < |names|) ==>
              Contains(r, "on day " + parts[4])
    ensures parts[2] != "*" ==> Contains(r, "on day " + parts[2])
    ensures parts[3] != "*" ==> Contains(r, "in month " + parts[3])
  {
    PiecesListed(parts, names);
    JoinStart(ps, r);
    forall x | x in ps ensures Contains(r, x) {
      var i :| 0 <= i < |ps| && ps[i] == x;
      JoinContains(ps, " ", i);
    }
  }

  /** Which pieces a description has: the time first when both hour and
      minute are set, then one piece per other field that is set; with no
      piece, nothing is remarkable. */
  lemma PiecesListed(parts: seq<string>, names: seq<string>)
    requires |parts| == 5
    ensures var ps := Pieces(parts, names);
            && (ps != [] <==> !Unremarkable(parts))
            && (parts[1] != "*" && parts[0] != "*" ==> ps[0] == TimePiece(parts[0], parts[1]))
            && (parts[4] != "*" ==> DowPiece(parts[4], names) in ps)
            && (parts[2] != "*" ==> "on day " + parts[2] in ps)
            && (parts[3] != "*" ==> "in month " + parts[3] in ps)
  {
  }

  /** A space-joined list of pieces starts with the first piece, so with
      its letter. */
  lemma JoinStart(ps: seq<string>, r: string)
    requires ps != [] && r == Join(ps, " ") && |ps[0]| >= 3 && ps[0][0] in "aoi"
    ensures ps[0] <= r && r != "Custom schedule"
  {
    assert r[0] == ps[0][0];
  }

  /** describe_cron as written: a numeric day of week d reads as the d-th of
      Mon..Sun, so 0 is Monday. */
  function DescribeCron(expression: string): (r: string)
    requires DowIndexable(expression)
    ensures var parts := Words(expression);
            |parts| == 5 && !Fixed(expression) && AllDigits(parts[4]) ==>
              Contains(r, "on " + DowNames[DigitsValue(parts[4])])
    ensures |Words(expression)| != 5 ==> r == "Invalid schedule"
  {
    DescribeWith(expression, DowNames)
  }

  /** describe_cron with croniter's numbering of days (0 and 7 are
      Sunday), the one its own "0 6 * * 0" case uses; it raises on no day. */
  function DescribeCronCorrected(expression: string): (r: string)
    ensures var parts := Words(expression);
            |parts| == 5 && !Fixed(expression) && AllDigits(parts[4]) && DigitsValue(parts[4]) <= 7 ==>
              Contains(r, "on " + CronDowNames[DigitsValue(parts[4]) % 7])
    ensures |Words(expression)| != 5 ==> r == "Invalid schedule"
  {
    var parts := Words(expression);
    if |parts| == 5 && AllDigits(parts[4]) && DigitsValue(parts[4]) <= 7 then
      DayNamedModSeven(DigitsValue(parts[4]));
      DescribeWith(expression, CronDowNamesWithSeven)
    else
      DescribeWith(expression, CronDowNamesWithSeven)
  }

  /** Day 7 is a second name for Sunday. */
  lemma DayNamedModSeven(v: nat)
    requires v <= 7
    ensures |CronDowNamesWithSeven| == 8 && CronDowNamesWithSeven[v] == CronDowNames[v % 7]
  {
    if v == 7 {
      assert CronDowNamesWithSeven[7] == "Sun";
    }
  }

  /** Five single-spaced fields split back into those fields. */
  lemma FiveFields(m: string, h: string, d: string, mo: string, w: string)
    requires IsWord(m) && IsWord(h) && IsWord(d) && IsWord(mo) && IsWord(w)
    ensures Words(m + " " + (h + " " + (d + " " + (mo + " " + w)))) == [m, h, d, mo, w]
  {
    var t2 := d + " " + (mo + " " + w);
    var t1 := h + " " + t2;
    ThreeFields(d, mo, w);
    WordsOfWordThen(h, t2);
    assert Words(t1) == [h, d, mo, w];
    WordsOfWordThen(m, t1);
  }

  /** Three single-spaced fields split back into those fields. */
  lemma ThreeFields(d: string, mo: string, w: string)
    requires IsWord(d) && IsWord(mo) && IsWord(w)
    ensures Words(d + " " + (mo + " " + w)) == [d, mo, w]
  {
    var t3 := mo + " " + w;
    WordsOfWord(w);
    WordsOfWordThen(mo, w);
    assert Words(t3) == [mo, w];
    WordsOfWordThen(d, t3);
  }

  /** As written, describe_cron disagrees with itself: "0 7 * * 0" is
      described as a Monday schedule, while its own "0 6 * * 0" case says
      Sunday, as croniter (validation and next run times) reads day 0. */
  lemma SundayDescribedAsMonday(e: string, f: string)
    requires e == "0 7 * * 0" && f == "0 6 * * 0"
    ensures DowIndexable(e) && Contains(DescribeCron(e), "on Mon")
    ensures DowIndexable(f) && DescribeCron(f) == "Weekly on Sunday at 6:00 AM UTC"
    ensures CronDowNames[0] == "Sun"
  {
    SevenZeroAsWritten(e);
    SixOnDayDescribed(f, "0");
  }

  /** As written, "0 7 * * 0" names Monday. */
  lemma SevenZeroAsWritten(e: string)
    requires e == "0 7 * * 0"
    ensures DowIndexable(e) && Contains(DescribeCron(e), "on Mon")
  {
    SevenOnDay(e, "0");
    assert "on " + DowNames[0] == "on Mon";
  }

  /** "0 6 * * 0" and "0 6 * * 1" are the fixed weekly texts, whichever
      names the days carry. */
  lemma SixOnDayDescribed(f: string, d: string)
    requires d == "0" || d == "1"
    requires f == "0 6 * * " + d
    ensures DowIndexable(f)
    ensures d == "0" ==> DescribeCron(f) == "Weekly on Sunday at 6:00 AM UTC"
                         && DescribeCronCorrected(f) == "Weekly on Sunday at 6:00 AM UTC"
    ensures d == "1" ==> DescribeCron(f) == "Weekly on Monday at 6:00 AM UTC"
                         && DescribeCronCorrected(f) == "Weekly on Monday at 6:00 AM UTC"
  {
    SixOnDay(f, d);
  }

  /** Corrected, a numeric day of week names the same day as the fixed
      weekly texts: 0 is Sunday and 1 is Monday. */
  lemma CorrectedAgreesWithWeeklyTexts(d: string, e: string, f: string)
    requires d == "0" || d == "1"
    requires e == "0 7 * * " + d && f == "0 6 * * " + d
    ensures DowIndexable(e) && DowIndexable(f)
    ensures d == "0" ==>
              Contains(DescribeCronCorrected(e), "on Sun")
              && DescribeCronCorrected(f) == "Weekly on Sunday at 6:00 AM UTC"
    ensures d == "1" ==>
              Contains(DescribeCronCorrected(e), "on Mon")
              && DescribeCronCorrected(f) == "Weekly on Monday at 6:00 AM UTC"
  {
    SevenCorrected(e, d);
    SixOnDayDescribed(f, d);
  }

  /** Corrected, "0 7 * * 0" names Sunday and "0 7 * * 1" Monday. */
  lemma SevenCorrected(e: string, d: string)
    requires d == "0" || d == "1"
    requires e == "0 7 * * " + d
    ensures DowIndexable(e)
    ensures d == "0" ==> Contains(DescribeCronCorrected(e), "on Sun")
    ensures d == "1" ==> Contains(DescribeCronCorrected(e), "on Mon")
  {
    SevenOnDay(e, d);
    assert "on " + CronDowNames[0] == "on Sun";
    assert "on " + CronDowNames[1] == "on Mon";
  }

  /** "0 7 * * d" for a one-digit day d. */
  lemma SevenOnDay(e: string, d: string)
    requires d == "0" || d == "1"
    requires e == "0 7 * * " + d
    ensures Words(e) == ["0", "7", "*", "*", d]
    ensures AllDigits(d) && DigitsValue(d) == (if d == "0" then 0 else 1)
    ensures !Fixed(e) && DowIndexable(e)
  {
    FiveFields("0", "7", "*", "*", d);
    assert e == "0" + " " + ("7" + " " + ("*" + " " + ("*" + " " + d)));
    OneDigitDay(d);
    NotFixedAt(e);
  }

  /** The day "0" or "1" is a number below 7. */
  lemma OneDigitDay(d: string)
    requires d == "0" || d == "1"
    ensures AllDigits(d) && DigitsValue(d) == (if d == "0" then 0 else 1)
  {
    assert d[..0] == [];
  }

  /** An expression whose hour is 7 is none of the fixed ones. */
  lemma NotFixedAt(e: string)
    requires |e| > 2 && e[2] == '7'
    ensures !Fixed(e)
  {
  }

  /** "0 6 * * d" for a day field d that is "0", "1" or "*". */
  lemma SixOnDay(e: string, d: string)
    requires d == "0" || d == "1" || d == "*"
    requires e == "0 6 * * " + d
    ensures Words(e) == ["0", "6", "*", "*", d]
    ensures DowIndexable(e)
  {
    FiveFields("0", "6", "*", "*", d);
    assert e == "0" + " " + ("6" + " " + ("*" + " " + ("*" + " " + d)));
    assert d[..0] == [];
  }

  // ---------------------------------------------------------------
  // Presets
  // ---------------------------------------------------------------

  datatype Preset = Preset(cron: string, description: string)

  const SchedulePresets: map<string, Preset> := map[
    "daily_morning" := Preset("0 6 * * *", "Daily at 6:00 AM UTC"),
    "daily_evening" := Preset("0 18 * * *", "Daily at 6:00 PM UTC"),
    "twice_daily" := Preset("0 6,18 * * *", "Twice daily at 6:00 AM and 6:00 PM UTC"),
    "weekly" := Preset("0 6 * * 1", "Weekly on Monday at 6:00 AM UTC")
  ]

  /** get_preset_schedule: SCHEDULE_PRESETS.get(name). */
  function GetPresetSchedule(name: string): (r: Option<Preset>)
    ensures r.Some? <==> name in {"daily_morning", "daily_evening", "twice_daily", "weekly"}
    ensures r.Some? ==> r.value == SchedulePresets[name]
  {
    if name in SchedulePresets then Some(SchedulePresets[name]) else None
  }

  /** The presets whose CRON is one of the fixed patterns carry the same
      text describe_cron gives it; the morning preset is the default schedule
      and the weekly preset the weekly one. */
  lemma PresetTextsMatchDescriptions(name: string, cron: string)
    requires (name == "daily_morning" && cron == DefaultCron) || (name == "weekly" && cron == WeeklyCron)
    ensures DowIndexable(cron) && GetPresetSchedule(name) == Some(Preset(cron, DescribeCron(cron)))
  {
    if name == "daily_morning" {
      MorningText();
      assert SchedulePresets[name] == Preset(cron, "Daily at 6:00 AM UTC");
    } else {
      WeeklyText();
      assert SchedulePresets[name] == Preset(cron, "Weekly on Monday at 6:00 AM UTC");
    }
  }

  /** describe_cron's text for the default schedule. */
  lemma MorningText()
    ensures DowIndexable(DefaultCron) && DescribeCron(DefaultCron) == "Daily at 6:00 AM UTC"
  {
    SixOnDay(DefaultCron, "*");
  }

  /** describe_cron's text for the weekly schedule. */
  lemma WeeklyText()
    ensures DowIndexable(WeeklyCron) && DescribeCron(WeeklyCron) == "Weekly on Monday at 6:00 AM UTC"
  {
    SixOnDay(WeeklyCron, "1");
  }
}

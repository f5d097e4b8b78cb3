/** The notification service: when an alert fires, the duplicate check
    against recently sent notifications, and the delivery record that every
    e-mail leaves in the notifications table. */
module Notifications {
  import opened Common
  import opened JsonValue
  import M = Models

  /** NOTIFICATION_COOLDOWN_HOURS, in seconds. */
  const CooldownSeconds: real := 24.0 * 3600.0
  /** Two prices closer than this are the same price. */
  const SamePriceTolerance: real := 0.01

  const NoUserEmail := "No user email configured"
  const DuplicatePrevented := "Duplicate notification prevented"
  /** What formatting a missing price as "{:.2f}" raises. */
  const NoPriceError := "TypeError: unsupported format string passed to NoneType.__format__"

  // ---------------------------------------------------------------
  // Alert evaluation
  // ---------------------------------------------------------------

  /** Why an alert did or did not fire (the reason texts, without their
      number formatting). */
  datatype Reason =
    | NotActive
    | BackInStockNow
    | StockUnchanged
    | OutOfStock
    | AtOrBelowTarget(current: real, target: real)
    | AboveTarget(current: real, target: real)
    | NoTarget
    | DropBelowThreshold(drop: real, threshold: real)
    | Dropped(percent: real, targetPercent: real)
    | NoDrop
    | ChangeBelowThreshold(change: real, threshold: real)
    | Changed(previous: real, current: real)
    | NoChange

  datatype Evaluation = Evaluation(triggered: bool, alertType: M.AlertType, alertId: int, reason: Reason)

  /** `alert.target_value or 0`. */
  function TargetOrZero(t: Option<real>): real
  {
    if t.Some? then t.value else 0.0
  }

  /** The drop from previous to current, in percent of previous. */
  function DropPercent(previous: real, current: real): real
    requires previous > 0.0
  {
    (previous - current) / previous * 100.0
  }

  /** evaluate_alert. An inactive alert never fires; BACK_IN_STOCK needs the
      product in stock now and out of stock (False, not None) before; the
      price alerts never fire while the product is out of stock. */
  function EvaluateAlert(alert: M.Alert, current: real, previous: Option<real>, inStock: bool, wasInStock: Option<bool>)
    : (r: Evaluation)
    reads alert
    ensures r.alertType == alert.alertType && r.alertId == alert.id
    ensures !alert.isActive ==> !r.triggered && r.reason == NotActive
    ensures alert.alertType == M.BackInStock ==>
              (r.triggered <==> alert.isActive && inStock && wasInStock == Some(false))
    ensures alert.alertType != M.BackInStock && !inStock ==> !r.triggered
    ensures alert.alertType == M.TargetPrice ==>
              (r.triggered <==> && alert.isActive && inStock
                                && alert.targetValue.Some? && alert.targetValue.value != 0.0
                                && current <= alert.targetValue.value)
    ensures alert.alertType == M.PercentDrop ==>
              (r.triggered <==> && alert.isActive && inStock && previous.Some? && previous.value > 0.0
                                && previous.value - current >= alert.minChangeThreshold
                                && DropPercent(previous.value, current) >= TargetOrZero(alert.targetValue))
    ensures alert.alertType == M.AnyChange ==>
              (r.triggered <==> && alert.isActive && inStock && previous.Some? && current != previous.value
                                && AbsReal(current - previous.value) >= alert.minChangeThreshold)
  {
    var t, id := alert.alertType, alert.id;
    if !alert.isActive then Evaluation(false, t, id, NotActive)
    else if t == M.BackInStock then
      if inStock && wasInStock == Some(false) then Evaluation(true, t, id, BackInStockNow)
      else Evaluation(false, t, id, StockUnchanged)
    else if !inStock then Evaluation(false, t, id, OutOfStock)
    else if t == M.TargetPrice then
      var target := alert.targetValue;
      if target.Some? && target.value != 0.0 && current <= target.value then
        Evaluation(true, t, id, AtOrBelowTarget(current, target.value))
      else if target.Some? && target.value != 0.0 then Evaluation(false, t, id, AboveTarget(current, target.value))
      else Evaluation(false, t, id, NoTarget)
    else if t == M.PercentDrop then
      if previous.Some? && previous.value > 0.0 then
        var drop := previous.value - current;
        var percent := DropPercent(previous.value, current);
        if drop < alert.minChangeThreshold then
          Evaluation(false, t, id, DropBelowThreshold(drop, alert.minChangeThreshold))
        else if percent >= TargetOrZero(alert.targetValue) then
          Evaluation(true, t, id, Dropped(percent, TargetOrZero(alert.targetValue)))
        else Evaluation(false, t, id, NoDrop)
      else Evaluation(false, t, id, NoDrop)
    else
      if previous.Some? && current != previous.value then
        var change := AbsReal(current - previous.value);
        if change < alert.minChangeThreshold then
          Evaluation(false, t, id, ChangeBelowThreshold(change, alert.minChangeThreshold))
        else Evaluation(true, t, id, Changed(previous.value, current))
      else Evaluation(false, t, id, NoChange)
  }

  /** A lower price never un-fires a target-price or percent-drop alert. */
  lemma LowerPriceStillTriggers(alert: M.Alert, higher: real, lower: real, previous: Option<real>,
                                inStock: bool, wasInStock: Option<bool>)
    requires alert.alertType == M.TargetPrice || alert.alertType == M.PercentDrop
    requires lower <= higher
    requires EvaluateAlert(alert, higher, previous, inStock, wasInStock).triggered
    ensures EvaluateAlert(alert, lower, previous, inStock, wasInStock).triggered
  {
    if alert.alertType == M.PercentDrop {
      var p := previous.value;
      DropGrows(p, higher, lower);
    }
  }

  lemma DropGrows(p: real, higher: real, lower: real)
    requires p > 0.0 && lower <= higher
    ensures DropPercent(p, lower) >= DropPercent(p, higher)
  {
    var d := (higher - lower) / p;
    assert d * p == higher - lower;
    assert d >= 0.0;
    calc {
      DropPercent(p, lower);
      (p - lower) / p * 100.0;
      == { assert (p - lower) / p == (p - higher) / p + d; }
      ((p - higher) / p + d) * 100.0;
    }
  }

  /** An any-change alert is symmetric in the two prices. */
  lemma AnyChangeSymmetric(alert: M.Alert, a: real, b: real, inStock: bool, wasInStock: Option<bool>)
    requires alert.alertType == M.AnyChange
    ensures EvaluateAlert(alert, a, Some(b), inStock, wasInStock).triggered
            == EvaluateAlert(alert, b, Some(a), inStock, wasInStock).triggered
  {
    assert AbsReal(a - b) == AbsReal(b - a);
  }

  /** A back-in-stock alert does not look at prices at all. */
  lemma BackInStockIgnoresPrices(alert: M.Alert, c1: real, p1: Option<real>, c2: real, p2: Option<real>,
                                 inStock: bool, wasInStock: Option<bool>)
    requires alert.alertType == M.BackInStock
    ensures EvaluateAlert(alert, c1, p1, inStock, wasInStock) == EvaluateAlert(alert, c2, p2, inStock, wasInStock)
  {
  }

  // ---------------------------------------------------------------
  // Duplicate prevention
  // ---------------------------------------------------------------

  /** A SENT notification for this product and alert, created at or after
      the cutoff. */
  predicate Recent(n: M.Notification, productId: int, alertId: int, cutoff: real)
    reads n
  {
    n.productId == productId && n.alertId == Some(alertId) && n.status == M.Sent && n.createdAt >= cutoff
  }

  /** Record i is a recent one that no other recent record is newer than. */
  predicate Newest(rows: seq<M.Notification>, i: int, productId: int, alertId: int, cutoff: real)
    reads rows
  {
    && 0 <= i < |rows| && Recent(rows[i], productId, alertId, cutoff)
    && forall j :: 0 <= j < |rows| && Recent(rows[j], productId, alertId, cutoff) ==> rows[j].createdAt <= rows[i].createdAt
  }

  /** The record the query `order by created_at desc limit 1` returns; of
      equally new records, the one stored last. */
  function LatestRecent(rows: seq<M.Notification>, productId: int, alertId: int, cutoff: real): (r: Option<nat>)
    reads rows
    ensures r.Some? ==> Newest(rows, r.value, productId, alertId, cutoff)
    ensures r.None? <==> forall j :: 0 <= j < |rows| ==> !Recent(rows[j], productId, alertId, cutoff)
  {
    if rows == [] then None
    else
      var n := |rows| - 1;
      var prev := LatestRecent(rows[..n], productId, alertId, cutoff);
      assert forall j :: 0 <= j < n ==> rows[..n][j] == rows[j];
      if !Recent(rows[n], productId, alertId, cutoff) then prev
      else if prev.Some? && rows[prev.value].createdAt > rows[n].createdAt then prev
      else Some(n)
  }

  /** `float(payload.get("current_price"))` of a stored notification, when
      there is a number there. */
  function PayloadPrice(payload: Json): Option<real>
  {
    if !payload.JObj? then None
    else match GetOr(payload.m, "current_price", JNull)
      case JNum(x) => Some(x)
      case JBool(b) => Some(if b then 1.0 else 0.0)
      case _ => None
  }

  predicate SamePrice(n: M.Notification, current: real)
    reads n
  {
    var p := PayloadPrice(n.payload);
    p.Some? && AbsReal(p.value - current) < SamePriceTolerance
  }

  /** check_duplicate: the newest SENT notification for this product and
      alert within the cooldown recorded (nearly) the same price. */
  function IsDuplicate(rows: seq<M.Notification>, productId: int, alertId: int, current: real, now: real): (r: bool)
    reads rows
    ensures r ==> exists i :: Newest(rows, i, productId, alertId, now - CooldownSeconds) && SamePrice(rows[i], current)
    ensures (forall i :: 0 <= i < |rows| ==> !Recent(rows[i], productId, alertId, now - CooldownSeconds)) ==> !r
    ensures (exists i :: 0 <= i < |rows| && Recent(rows[i], productId, alertId, now - CooldownSeconds))
            && (forall i :: Newest(rows, i, productId, alertId, now - CooldownSeconds) ==> SamePrice(rows[i], current))
            ==> r
  {
    var latest := LatestRecent(rows, productId, alertId, now - CooldownSeconds);
    latest.Some? && SamePrice(rows[latest.value], current)
  }

  // ---------------------------------------------------------------
  // Payloads
  // ---------------------------------------------------------------

  function Num(x: Option<real>): Json
  {
    if x.Some? then JNum(x.value) else JNull
  }

  function PriceAlertPayload(name: string, current: Option<real>, previous: Option<real>, t: M.AlertType): Json
  {
    JObj(map["product_name" := JStr(name), "current_price" := Num(current),
             "previous_price" := Num(previous), "alert_type" := JStr(t.Value())])
  }

  function BackInStockPayload(name: string, current: Option<real>): Json
  {
    JObj(map["product_name" := JStr(name), "current_price" := Num(current), "alert_type" := JStr("back_in_stock")])
  }

  function ProductErrorPayload(name: string, errorType: string, errorMessage: string): Json
  {
    JObj(map["product_name" := JStr(name), "error_type" := JStr(errorType), "error_message" := JStr(errorMessage)])
  }

  function StoreFlaggedPayload(domain: string, name: string, successRate: real, productsAffected: int): Json
  {
    JObj(map["store_domain" := JStr(domain), "store_name" := JStr(name),
             "success_rate" := JNum(successRate), "products_affected" := JNum(productsAffected as real)])
  }

  /** The price a price-alert or back-in-stock record stores is the price the
      duplicate check reads back. */
  lemma StoredPriceReadBack(name: string, current: Option<real>, previous: Option<real>, t: M.AlertType)
    ensures PayloadPrice(PriceAlertPayload(name, current, previous, t)) == current
    ensures PayloadPrice(BackInStockPayload(name, current)) == current
  {
    var m := map["product_name" := JStr(name), "current_price" := Num(current),
                 "previous_price" := Num(previous), "alert_type" := JStr(t.Value())];
    assert m["current_price"] == Num(current);
    var b := map["product_name" := JStr(name), "current_price" := Num(current), "alert_type" := JStr("back_in_stock")];
    assert b["current_price"] == Num(current);
  }

  // ---------------------------------------------------------------
  // Delivery
  // ---------------------------------------------------------------

  /** What the e-mail channel did with one message: answered, or raised. */
  datatype Delivery = Answered(success: bool, errorMessage: Option<string>) | Threw(message: string)

  datatype NotificationResult = NotificationResult(success: bool, notificationId: Option<int>, errorMessage: Option<string>)

  predicate Delivered(d: Delivery)
  {
    d.Answered? && d.success
  }

  /** The error message a settled record and its result carry. */
  function DeliveryError(d: Delivery): Option<string>
  {
    if d.Threw? then Some(d.message) else d.errorMessage
  }

  /** `after` is `before` with one record added for the alert and product,
      carrying the payload and settled by the delivery, and `r` reports it. */
  ghost predicate Recorded(before: seq<M.Notification>, after: seq<M.Notification>, r: NotificationResult,
                           alertId: Option<int>, productId: int, payload: Json, d: Delivery)
    reads after
  {
    && |after| == |before| + 1 && after[..|before|] == before
    && var n := after[|before|];
       && n.alertId == alertId && n.productId == productId && n.payload == payload
       && n.status == (if Delivered(d) then M.Sent else M.Failed)
       && r == NotificationResult(Delivered(d), Some(n.id), DeliveryError(d))
  }

  class NotificationService {
    /** `user_email or settings.user_email`. */
    const userEmail: Option<string>
    /** The notifications table. */
    var records: seq<M.Notification>

    constructor(userEmail: Option<string>, configured: Option<string>, records: seq<M.Notification>)
      ensures this.userEmail == (if TruthyText(userEmail) then userEmail else configured)
      ensures this.records == records
    {
      this.userEmail := if TruthyText(userEmail) then userEmail else configured;
      this.records := records;
    }

    /** Add a PENDING record, hand the message to the e-mail channel and
        settle the record: SENT at `now` on success, FAILED with the error
        otherwise. */
    method Deliver(alertId: Option<int>, productId: int, payload: Json, delivery: Delivery, now: real)
      returns (r: NotificationResult)
      modifies this
      ensures |records| == |old(records)| + 1 && records[..|old(records)|] == old(records)
      ensures var n := records[|old(records)|];
              && fresh(n) && n.id == |old(records)| + 1 && n.alertId == alertId && n.productId == productId
              && n.payload == payload && n.createdAt == now
              && n.status == (if Delivered(delivery) then M.Sent else M.Failed)
              && n.sentAt == (if Delivered(delivery) then Some(now) else None)
              && n.errorMessage == (if Delivered(delivery) then None else DeliveryError(delivery))
              && r == NotificationResult(Delivered(delivery), Some(n.id), DeliveryError(delivery))
    {
      var n := new M.Notification(|records| + 1, alertId, productId, payload, now);
      records := records + [n];
      match delivery {
        case Answered(success, error) =>
          if success {
            n.status := M.Sent;
            n.sentAt := Some(now);
          } else {
            n.status := M.Failed;
            n.errorMessage := error;
          }
          r := NotificationResult(success, Some(n.id), error);
        case Threw(message) =>
          n.status := M.Failed;
          n.errorMessage := Some(message);
          r := NotificationResult(false, Some(n.id), Some(message));
      }
    }

    /** send_price_alert. Without a user e-mail or for a duplicate nothing is
        recorded; otherwise one record is added and settled. A delivered
        alert suppresses the same alert at the same price until the cooldown
        ends. A product without a price raises before anything is recorded:
        the e-mail template formats the price with "{:.2f}" (and the
        duplicate check may already fail subtracting from it). */
    method SendPriceAlert(product: M.Product, alert: M.Alert, previous: Option<real>, delivery: Delivery, now: real)
      returns (r: Result<NotificationResult, string>)
      modifies this
      ensures !TruthyText(userEmail) ==>
                r == Ok(NotificationResult(false, None, Some(NoUserEmail))) && records == old(records)
      ensures TruthyText(userEmail) && product.currentPrice.None? ==> r == Err(NoPriceError) && records == old(records)
      ensures TruthyText(userEmail) && product.currentPrice.Some?
              && old(IsDuplicate(records, product.id, alert.id, product.currentPrice.value, now)) ==>
                r == Ok(NotificationResult(false, None, Some(DuplicatePrevented))) && records == old(records)
      ensures TruthyText(userEmail) && product.currentPrice.Some?
              && !old(IsDuplicate(records, product.id, alert.id, product.currentPrice.value, now)) ==>
                && r.Ok? && |records| == |old(records)| + 1 && fresh(records[|old(records)|])
                && Recorded(old(records), records, r.value, Some(alert.id), product.id,
                            PriceAlertPayload(product.name, product.currentPrice, previous, alert.alertType), delivery)
      ensures TruthyText(userEmail) && product.currentPrice.Some? && Delivered(delivery)
              && (forall i :: 0 <= i < |old(records)| ==> old(records[i].createdAt) <= now) ==>
                IsDuplicate(records, product.id, alert.id, product.currentPrice.value, now)
    {
      if !TruthyText(userEmail) {
        return Ok(NotificationResult(false, None, Some(NoUserEmail)));
      }
      if product.currentPrice.None? {
        return Err(NoPriceError);
      }
      if IsDuplicate(records, product.id, alert.id, product.currentPrice.value, now) {
        return Ok(NotificationResult(false, None, Some(DuplicatePrevented)));
      }
      ghost var before := records;
      var payload := PriceAlertPayload(product.name, product.currentPrice, previous, alert.alertType);
      var sent := Deliver(Some(alert.id), product.id, payload, delivery, now);
      r := Ok(sent);
      if Delivered(delivery) && forall i :: 0 <= i < |before| ==> before[i].createdAt <= now {
        NewestIsLast(records, product.id, alert.id, product.currentPrice.value, now);
      }
    }

    /** send_back_in_stock: no duplicate check. */
    method SendBackInStock(product: M.Product, alert: M.Alert, delivery: Delivery, now: real)
      returns (r: NotificationResult)
      modifies this
      ensures !TruthyText(userEmail) ==>
                r == NotificationResult(false, None, Some(NoUserEmail)) && records == old(records)
      ensures TruthyText(userEmail) ==>
                && |records| == |old(records)| + 1 && records[..|old(records)|] == old(records)
                && var n := records[|old(records)|];
                   && fresh(n) && n.alertId == Some(alert.id) && n.productId == product.id
                   && n.payload == BackInStockPayload(product.name, product.currentPrice)
                   && n.status == (if Delivered(delivery) then M.Sent else M.Failed)
                   && r == NotificationResult(Delivered(delivery), Some(n.id), DeliveryError(delivery))
    {
      if !TruthyText(userEmail) {
        return NotificationResult(false, None, Some(NoUserEmail));
      }
      r := Deliver(Some(alert.id), product.id, BackInStockPayload(product.name, product.currentPrice), delivery, now);
    }

    /** send_product_error: a record tied to the product but to no alert. */
    method SendProductError(product: M.Product, errorType: string, errorMessage: string, delivery: Delivery, now: real)
      returns (r: NotificationResult)
      modifies this
      ensures !TruthyText(userEmail) ==>
                r == NotificationResult(false, None, Some(NoUserEmail)) && records == old(records)
      ensures TruthyText(userEmail) ==>
                && |records| == |old(records)| + 1 && records[..|old(records)|] == old(records)
                && var n := records[|old(records)|];
                   && fresh(n) && n.alertId.None? && n.productId == product.id
                   && n.payload == ProductErrorPayload(product.name, errorType, errorMessage)
                   && n.status == (if Delivered(delivery) then M.Sent else M.Failed)
                   && r == NotificationResult(Delivered(delivery), Some(n.id), DeliveryError(delivery))
    {
      if !TruthyText(userEmail) {
        return NotificationResult(false, None, Some(NoUserEmail));
      }
      r := Deliver(None, product.id, ProductErrorPayload(product.name, errorType, errorMessage), delivery, now);
    }

    /** send_store_flagged: a record with product id 0 and no alert. */
    method SendStoreFlagged(store: M.Store, productsAffected: int, failedScrapes: int, failureReason: string,
                            delivery: Delivery, now: real)
      returns (r: NotificationResult)
      modifies this
      ensures !TruthyText(userEmail) ==>
                r == NotificationResult(false, None, Some(NoUserEmail)) && records == old(records)
      ensures TruthyText(userEmail) ==>
                && |records| == |old(records)| + 1 && records[..|old(records)|] == old(records)
                && var n := records[|old(records)|];
                   && fresh(n) && n.alertId.None? && n.productId == 0
                   && n.payload == StoreFlaggedPayload(store.domain, store.name, store.successRate, productsAffected)
                   && n.status == (if Delivered(delivery) then M.Sent else M.Failed)
                   && r == NotificationResult(Delivered(delivery), Some(n.id), DeliveryError(delivery))
    {
      if !TruthyText(userEmail) {
        return NotificationResult(false, None, Some(NoUserEmail));
      }
      var payload := StoreFlaggedPayload(store.domain, store.name, store.successRate, productsAffected);
      r := Deliver(None, 0, payload, delivery, now);
    }

    /** process_price_change: every active, undeleted alert of the product is
        evaluated; each one that fires is marked triggered at `now` and sends
        one notification (back-in-stock or price alert), whose result is
        collected in alert order. */
    method ProcessPriceChange(product: M.Product, alerts: seq<M.Alert>, newPrice: real, newStock: bool,
                              oldPrice: Option<real>, oldStock: Option<bool>, email: int -> Delivery, now: real)
      returns (results: seq<NotificationResult>)
      requires product.currentPrice.Some?
      requires forall j, k :: 0 <= j < k < |alerts| ==> alerts[j] != alerts[k]
      modifies this, set a | a in alerts
      ensures |results| == old(FiringCount(alerts, product.id, newPrice, oldPrice, newStock, oldStock))
      ensures forall j :: 0 <= j < |alerts| && old(Fires(alerts[j], product.id, newPrice, oldPrice, newStock, oldStock)) ==>
                alerts[j].isTriggered && alerts[j].triggeredAt == Some(now)
      ensures forall j :: 0 <= j < |alerts| && !old(Fires(alerts[j], product.id, newPrice, oldPrice, newStock, oldStock)) ==>
                alerts[j].isTriggered == old(alerts[j].isTriggered) && alerts[j].triggeredAt == old(alerts[j].triggeredAt)
      ensures old(|records|) <= |records| <= old(|records|) + |results| && records[..old(|records|)] == old(records)
      ensures forall k :: old(|records|) <= k < |records| ==> records[k].productId == product.id && records[k].alertId.Some?
      ensures !TruthyText(userEmail) ==>
                records == old(records) && forall k :: 0 <= k < |results| ==> results[k] == NotificationResult(false, None, Some(NoUserEmail))
    {
      ghost var us := Unmarks(alerts);
      ghost var fires := FiringFlags(us, product.id, newPrice, oldPrice, newStock, oldStock);
      FiringCountIsCount(alerts, us, product.id, newPrice, oldPrice, newStock, oldStock);
      FiringFlagsAll(us, product.id, newPrice, oldPrice, newStock, oldStock);
      results := HandleAlerts(product, alerts, newPrice, newStock, oldPrice, oldStock, email, now, us, fires);
    }

    /** The loop of process_price_change over the alerts, given each
        alert's unmarked fields `us` and whether it fires, `fires`. */
    method HandleAlerts(product: M.Product, alerts: seq<M.Alert>, newPrice: real, newStock: bool,
                        oldPrice: Option<real>, oldStock: Option<bool>, email: int -> Delivery, now: real,
                        ghost us: seq<Unmarking>, ghost fires: seq<bool>)
      returns (results: seq<NotificationResult>)
      requires product.currentPrice.Some?
      requires forall j, k :: 0 <= j < k < |alerts| ==> alerts[j] != alerts[k]
      requires |us| == |alerts| == |fires|
      requires forall j :: 0 <= j < |alerts| ==> Unmarked(alerts[j]) == us[j]
      requires forall j {:trigger FiresOn(us[j], product.id, newPrice, oldPrice, newStock, oldStock)} :: 0 <= j < |us| ==>
                 fires[j] == FiresOn(us[j], product.id, newPrice, oldPrice, newStock, oldStock)
      modifies this, set a | a in alerts
      ensures |results| == CountTrue(fires)
      ensures forall j :: 0 <= j < |alerts| && fires[j] ==> alerts[j].isTriggered && alerts[j].triggeredAt == Some(now)
      ensures forall j :: 0 <= j < |alerts| && !fires[j] ==>
                alerts[j].isTriggered == old(alerts[j].isTriggered) && alerts[j].triggeredAt == old(alerts[j].triggeredAt)
      ensures old(|records|) <= |records| <= old(|records|) + CountTrue(fires) && records[..old(|records|)] == old(records)
      ensures forall k :: old(|records|) <= k < |records| ==> records[k].productId == product.id && records[k].alertId.Some?
      ensures !TruthyText(userEmail) ==>
                records == old(records) && forall k :: 0 <= k < |results| ==> results[k] == NotificationResult(false, None, Some(NoUserEmail))
    {
      results := [];
      for i := 0 to |alerts|
        invariant forall j :: 0 <= j < |alerts| ==> Unmarked(alerts[j]) == us[j]
        invariant |results| == CountTrue(fires[..i])
        invariant old(|records|) <= |records| <= old(|records|) + CountTrue(fires[..i]) && records[..old(|records|)] == old(records)
        invariant forall k :: old(|records|) <= k < |records| ==> records[k].productId == product.id && records[k].alertId.Some?
        invariant !TruthyText(userEmail) ==>
                    records == old(records) && forall k :: 0 <= k < |results| ==> results[k] == NotificationResult(false, None, Some(NoUserEmail))
        invariant forall j :: 0 <= j < i && fires[j] ==> alerts[j].isTriggered && alerts[j].triggeredAt == Some(now)
        invariant forall j :: 0 <= j < |alerts| && !fires[j] ==>
                    alerts[j].isTriggered == old(alerts[j].isTriggered) && alerts[j].triggeredAt == old(alerts[j].triggeredAt)
        invariant product.currentPrice == old(product.currentPrice) && product.id == old(product.id)
      {
        results := AlertsStep(product, alerts, i, newPrice, newStock, oldPrice, oldStock, email, now, us, fires,
                              old(records), results);
      }
      assert fires[..|alerts|] == fires;
    }

    /** One turn of process_price_change's loop: alert i is handled and the
        results and records grow by at most its notification. */
    method AlertsStep(product: M.Product, alerts: seq<M.Alert>, i: nat, newPrice: real, newStock: bool,
                      oldPrice: Option<real>, oldStock: Option<bool>, email: int -> Delivery, now: real,
                      ghost us: seq<Unmarking>, ghost fires: seq<bool>, ghost before: seq<M.Notification>,
                      results: seq<NotificationResult>)
      returns (next: seq<NotificationResult>)
      requires product.currentPrice.Some?
      requires i < |alerts| && |us| == |alerts| == |fires|
      requires Unmarked(alerts[i]) == us[i]
      requires fires[i] == FiresOn(us[i], product.id, newPrice, oldPrice, newStock, oldStock)
      requires |results| == CountTrue(fires[..i])
      requires |before| <= |records| <= |before| + CountTrue(fires[..i]) && records[..|before|] == before
      requires forall k :: |before| <= k < |records| ==> records[k].productId == product.id && records[k].alertId.Some?
      requires !TruthyText(userEmail) ==>
                 records == before && forall k :: 0 <= k < |results| ==> results[k] == NotificationResult(false, None, Some(NoUserEmail))
      modifies this, alerts[i]
      ensures Unmarked(alerts[i]) == us[i]
      ensures |next| == CountTrue(fires[..i + 1])
      ensures |before| <= |records| <= |before| + CountTrue(fires[..i + 1]) && records[..|before|] == before
      ensures forall k :: |before| <= k < |records| ==> records[k].productId == product.id && records[k].alertId.Some?
      ensures !TruthyText(userEmail) ==>
                records == before && forall k :: 0 <= k < |next| ==> next[k] == NotificationResult(false, None, Some(NoUserEmail))
      ensures fires[i] ==> alerts[i].isTriggered && alerts[i].triggeredAt == Some(now)
      ensures !fires[i] ==>
                alerts[i].isTriggered == old(alerts[i].isTriggered) && alerts[i].triggeredAt == old(alerts[i].triggeredAt)
    {
      assert fires[..i + 1] == fires[..i] + [fires[i]];
      var result := HandleAlert(product, alerts[i], newPrice, newStock, oldPrice, oldStock, email, now, us[i], fires[i]);
      next := if result.Some? then results + [result.value] else results;
    }

    /** One alert of process_price_change: when it fires, mark it and send
        its notification. `u` and `fires` name the alert's unmarked fields
        and whether it fires. */
    method HandleAlert(product: M.Product, alert: M.Alert, newPrice: real, newStock: bool,
                       oldPrice: Option<real>, oldStock: Option<bool>, email: int -> Delivery, now: real,
                       ghost u: Unmarking, ghost fires: bool)
      returns (result: Option<NotificationResult>)
      requires product.currentPrice.Some?
      requires Unmarked(alert) == u && fires == FiresOn(u, product.id, newPrice, oldPrice, newStock, oldStock)
      modifies this, alert
      ensures Unmarked(alert) == u
      ensures result.Some? == fires
      ensures result.Some? ==> alert.isTriggered && alert.triggeredAt == Some(now)
      ensures result.None? ==> alert.isTriggered == old(alert.isTriggered) && alert.triggeredAt == old(alert.triggeredAt)
      ensures !fires ==> records == old(records)
      ensures old(|records|) <= |records| <= old(|records|) + (if fires then 1 else 0) && records[..old(|records|)] == old(records)
      ensures forall k :: old(|records|) <= k < |records| ==> records[k].productId == product.id && records[k].alertId.Some?
      ensures fires && !TruthyText(userEmail) ==>
                result == Some(NotificationResult(false, None, Some(NoUserEmail))) && records == old(records)
      ensures fires && TruthyText(userEmail) && alert.alertType == M.BackInStock ==>
                Recorded(old(records), records, result.value, Some(alert.id), product.id,
                         BackInStockPayload(product.name, product.currentPrice), email(alert.id))
      ensures fires && TruthyText(userEmail) && alert.alertType != M.BackInStock
              && old(IsDuplicate(records, product.id, alert.id, product.currentPrice.value, now)) ==>
                result == Some(NotificationResult(false, None, Some(DuplicatePrevented))) && records == old(records)
      ensures fires && TruthyText(userEmail) && alert.alertType != M.BackInStock
              && !old(IsDuplicate(records, product.id, alert.id, product.currentPrice.value, now)) ==>
                Recorded(old(records), records, result.value, Some(alert.id), product.id,
                         PriceAlertPayload(product.name, product.currentPrice, oldPrice, alert.alertType), email(alert.id))
    {
      FiresIsEvaluation(alert, product.id, newPrice, oldPrice, newStock, oldStock);
      var evaluation := EvaluateAlert(alert, newPrice, oldPrice, newStock, oldStock);
      if alert.productId == product.id && alert.isActive && alert.deletedAt.None? && evaluation.triggered {
        alert.isTriggered := true;
        alert.triggeredAt := Some(now);
        var r;
        if alert.alertType == M.BackInStock {
          r := SendBackInStock(product, alert, email(alert.id), now);
        } else {
          var sent := SendPriceAlert(product, alert, oldPrice, email(alert.id), now);
          r := sent.value;
        }
        result := Some(r);
      } else {
        result := None;
      }
    }
  }

  /** The newest record is the one just added, when nothing recorded before
      is newer than now. */
  lemma NewestIsLast(rows: seq<M.Notification>, productId: int, alertId: int, current: real, now: real)
    requires rows != [] && forall i :: 0 <= i < |rows| - 1 ==> rows[i].createdAt <= now
    requires var n := rows[|rows| - 1];
             n.productId == productId && n.alertId == Some(alertId) && n.status == M.Sent && n.createdAt == now
             && SamePrice(n, current)
    ensures IsDuplicate(rows, productId, alertId, current, now)
  {
    var k := |rows| - 1;
    assert Recent(rows[k], productId, alertId, now - CooldownSeconds);
    var latest := LatestRecent(rows, productId, alertId, now - CooldownSeconds);
    assert LatestRecent(rows, productId, alertId, now - CooldownSeconds) == Some(k);
  }

  /** The alert fields process_price_change looks at, which marking an alert
      triggered leaves alone. */
  type Unmarking = (int, int, M.AlertType, Option<real>, real, bool, Option<real>)

  function Unmarked(a: M.Alert): Unmarking
    reads a
  {
    (a.id, a.productId, a.alertType, a.targetValue, a.minChangeThreshold, a.isActive, a.deletedAt)
  }

  /** An alert the query selects (this product, active, not deleted) and
      whose evaluation fires, told from its unmarked fields. */
  predicate Fires(a: M.Alert, productId: int, newPrice: real, oldPrice: Option<real>, newStock: bool, oldStock: Option<bool>)
    reads a
  {
    FiresOn(Unmarked(a), productId, newPrice, oldPrice, newStock, oldStock)
  }

  /** Fires is exactly the query's filter plus evaluate_alert's verdict. */
  lemma FiresIsEvaluation(a: M.Alert, productId: int, newPrice: real, oldPrice: Option<real>, newStock: bool,
                          oldStock: Option<bool>)
    ensures Fires(a, productId, newPrice, oldPrice, newStock, oldStock)
            <==> (&& a.productId == productId && a.isActive && a.deletedAt.None?
                  && EvaluateAlert(a, newPrice, oldPrice, newStock, oldStock).triggered)
  {
    var e := EvaluateAlert(a, newPrice, oldPrice, newStock, oldStock);
    if a.alertType == M.AnyChange && a.isActive && newStock {
      assert e.triggered <==> oldPrice.Some? && newPrice != oldPrice.value
                               && AbsReal(newPrice - oldPrice.value) >= a.minChangeThreshold;
    }
  }

  function FiresOn(u: Unmarking, productId: int, newPrice: real,
                   oldPrice: Option<real>, newStock: bool, oldStock: Option<bool>): bool
  {
    var (id, pid, t, target, threshold, active, deleted) := u;
    pid == productId && active && deleted.None? &&
    (if t == M.BackInStock then newStock && oldStock == Some(false)
     else if !newStock then false
     else if t == M.TargetPrice then target.Some? && target.value != 0.0 && newPrice <= target.value
     else if t == M.PercentDrop then
       oldPrice.Some? && oldPrice.value > 0.0 && oldPrice.value - newPrice >= threshold
       && DropPercent(oldPrice.value, newPrice) >= TargetOrZero(target)
     else oldPrice.Some? && newPrice != oldPrice.value && AbsReal(newPrice - oldPrice.value) >= threshold)
  }

  /** The number of alerts that fire. */
  function FiringCount(alerts: seq<M.Alert>, productId: int, newPrice: real, oldPrice: Option<real>,
                       newStock: bool, oldStock: Option<bool>): (r: nat)
    reads alerts
    ensures r <= |alerts|
  {
    if alerts == [] then 0
    else
      var n := |alerts| - 1;
      FiringCount(alerts[..n], productId, newPrice, oldPrice, newStock, oldStock)
      + (if Fires(alerts[n], productId, newPrice, oldPrice, newStock, oldStock) then 1 else 0)
  }

  /** The unmarked fields of each alert. */
  function Unmarks(alerts: seq<M.Alert>): (us: seq<Unmarking>)
    reads alerts
    ensures |us| == |alerts| && forall j :: 0 <= j < |alerts| ==> us[j] == Unmarked(alerts[j])
  {
    seq(|alerts|, j reads alerts requires 0 <= j < |alerts| => Unmarked(alerts[j]))
  }

  /** Whether each alert fires, told from its unmarked fields. */
  function FiringFlags(us: seq<Unmarking>, productId: int, newPrice: real, oldPrice: Option<real>, newStock: bool,
                       oldStock: Option<bool>): (fs: seq<bool>)
    ensures |fs| == |us|
  {
    if us == [] then []
    else
      var n := |us| - 1;
      FiringFlags(us[..n], productId, newPrice, oldPrice, newStock, oldStock)
      + [FiresOn(us[n], productId, newPrice, oldPrice, newStock, oldStock)]
  }

  lemma {:induction false} FiringFlagsAt(us: seq<Unmarking>, j: nat, productId: int, newPrice: real,
                                         oldPrice: Option<real>, newStock: bool, oldStock: Option<bool>)
    requires j < |us|
    ensures FiringFlags(us, productId, newPrice, oldPrice, newStock, oldStock)[j]
            == FiresOn(us[j], productId, newPrice, oldPrice, newStock, oldStock)
    decreases |us|
  {
    var n := |us| - 1;
    if j < n {
      FiringFlagsAt(us[..n], j, productId, newPrice, oldPrice, newStock, oldStock);
    }
  }

  lemma FiringFlagsAll(us: seq<Unmarking>, productId: int, newPrice: real, oldPrice: Option<real>, newStock: bool,
                       oldStock: Option<bool>)
    ensures forall j {:trigger FiresOn(us[j], productId, newPrice, oldPrice, newStock, oldStock)} :: 0 <= j < |us| ==>
              FiringFlags(us, productId, newPrice, oldPrice, newStock, oldStock)[j]
              == FiresOn(us[j], productId, newPrice, oldPrice, newStock, oldStock)
  {
    forall j | 0 <= j < |us|
      ensures FiringFlags(us, productId, newPrice, oldPrice, newStock, oldStock)[j]
              == FiresOn(us[j], productId, newPrice, oldPrice, newStock, oldStock)
    {
      FiringFlagsAt(us, j, productId, newPrice, oldPrice, newStock, oldStock);
    }
  }

  /** The number of true flags. */
  function CountTrue(bs: seq<bool>): nat
  {
    if bs == [] then 0 else CountTrue(bs[..|bs| - 1]) + (if bs[|bs| - 1] then 1 else 0)
  }

  /** The alerts that fire are counted by their flags. */
  lemma {:induction false} FiringCountIsCount(alerts: seq<M.Alert>, us: seq<Unmarking>, productId: int, newPrice: real,
                                              oldPrice: Option<real>, newStock: bool, oldStock: Option<bool>)
    requires |us| == |alerts| && forall j :: 0 <= j < |alerts| ==> us[j] == Unmarked(alerts[j])
    ensures FiringCount(alerts, productId, newPrice, oldPrice, newStock, oldStock)
            == CountTrue(FiringFlags(us, productId, newPrice, oldPrice, newStock, oldStock))
    decreases |alerts|
  {
    if alerts != [] {
      var n := |alerts| - 1;
      FiringCountIsCount(alerts[..n], us[..n], productId, newPrice, oldPrice, newStock, oldStock);
      var fs := FiringFlags(us, productId, newPrice, oldPrice, newStock, oldStock);
      assert fs[..n] == FiringFlags(us[..n], productId, newPrice, oldPrice, newStock, oldStock);
    }
  }
}

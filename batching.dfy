/** The batching engine: orders are pooled in the single `collecting` batch
    until it holds `targetCount` orders, then the batch is released for
    shipment and, on an operator's action, every member order is moved to
    `preparing_shipment` in one atomic write. */
module Batching {
  import opened Base
  import opened Store

  /** The target every new batch is created with. */
  const DefaultTargetCount := 1000

  /** Three days, in milliseconds. */
  const ShipDelayMs := 3 * 24 * 60 * 60 * 1000

  // ------------------------------------------------------ batch invariants

  /** `currentCount` is the number of member ids, in every batch. */
  ghost predicate CountsMatch(batches: map<string, Batch>)
  {
    forall id :: id in batches ==> batches[id].currentCount == |batches[id].orders|
  }

  /** At most one batch is `collecting`. */
  ghost predicate AtMostOneCollecting(batches: map<string, Batch>)
  {
    forall i, j :: i in batches && j in batches && batches[i].status == Collecting && batches[j].status == Collecting ==> i == j
  }

  // -------------------------------------------------------- getCurrentBatch

  /** The answers `getCurrentBatch` may give: when the query throws, the error
      is swallowed and the answer is "no batch"; otherwise some collecting
      batch, or none when no batch is collecting. */
  ghost predicate IsCurrentBatchAnswer(batches: map<string, Batch>, queryFails: bool, answer: Option<string>)
  {
    if queryFails then answer == None
    else match answer
      case None => forall id :: id in batches ==> batches[id].status != Collecting
      case Some(id) => id in batches && batches[id].status == Collecting
  }

  /** `getCurrentBatch`: the id of a batch whose status is `collecting`.
      `queryFails` stands for the query throwing. */
  method GetCurrentBatch(db: Db, queryFails: bool) returns (answer: Option<string>)
    ensures IsCurrentBatchAnswer(db.batches, queryFails, answer)
  {
    if queryFails {
      return None;
    }
    if id :| id in db.batches && db.batches[id].status == Collecting {
      return Some(id);
    }
    return None;
  }

  // -------------------------------------------------------- addOrderToBatch

  /** The batch written when nothing is collecting. */
  function NewBatch(orderId: string, now: nat): Batch
  {
    Batch("BATCH-" + Decimal(now), Collecting, [orderId], DefaultTargetCount, 1, now, None, None)
  }

  /** The id of the batch an admission writes: the current batch, or the
      freshly generated id. */
  function AdmissionTarget(answer: Option<string>, freshId: string): string
  {
    if answer.Some? then answer.value else freshId
  }

  /** The batch as admission leaves it before the readiness check; this is
      also the value `addOrderToBatch` returns. */
  function AdmittedBatch(batches: map<string, Batch>, answer: Option<string>, orderId: string, now: nat): Batch
    requires answer.Some? ==> answer.value in batches
  {
    match answer
    case None => NewBatch(orderId, now)
    case Some(id) =>
      var b := batches[id];
      b.(orders := b.orders + [orderId], currentCount := b.currentCount + 1)
  }

  predicate IsFull(b: Batch)
  {
    b.currentCount >= b.targetCount
  }

  /** What `markBatchReadyToShip` writes on a batch. */
  function MarkedReady(b: Batch, now: nat): Batch
  {
    b.(status := ReadyToShip, estimatedShipDate := Some(now + ShipDelayMs))
  }

  /** The batches after one admission of `orderId`. */
  function Admission(batches: map<string, Batch>, answer: Option<string>, orderId: string, now: nat, freshId: string): map<string, Batch>
    requires answer.Some? ==> answer.value in batches
  {
    var b := AdmittedBatch(batches, answer, orderId, now);
    batches[AdmissionTarget(answer, freshId) := if IsFull(b) then MarkedReady(b, now) else b]
  }

  /** `markBatchReadyToShip`: status `ready_to_ship`, estimated ship date three
      days ahead, and an administrator notification. Updating a missing
      document throws. */
  method MarkBatchReadyToShip(db: Db, batchId: string, now: nat) returns (r: Outcome)
    modifies db
    ensures batchId !in old(db.batches) ==> r == Failed(NoDocument("orderBatches", batchId)) && unchanged(db)
    ensures batchId in old(db.batches) ==>
      && r == Done
      && db.batches == old(db.batches)[batchId := MarkedReady(old(db.batches)[batchId], now)]
      && db.adminNotifications == old(db.adminNotifications) + [BatchReady(batchId, now)]
      && db.orders == old(db.orders) && db.subscriptions == old(db.subscriptions)
      && db.users == old(db.users) && db.childDocs == old(db.childDocs)
  {
    if batchId !in db.batches {
      return Failed(NoDocument("orderBatches", batchId));
    }
    db.batches := db.batches[batchId := MarkedReady(db.batches[batchId], now)];
    db.adminNotifications := db.adminNotifications + [BatchReady(batchId, now)];
    return Done;
  }

  /** `addOrderToBatch`: append `orderId` to the collecting batch, or create a
      batch for it when the query finds none (or fails); then, when the batch
      is full, mark it ready to ship. Returns the batch id and the local copy
      of the batch, whose status is never updated by the readiness step. */
  method AddOrderToBatch(db: Db, orderId: string, now: nat, freshId: string, queryFails: bool)
    returns (batchId: string, returned: Batch)
    requires freshId !in db.batches
    modifies db
    ensures var answer := if batchId == freshId then None else Some(batchId);
      && IsCurrentBatchAnswer(old(db.batches), queryFails, answer)
      && batchId == AdmissionTarget(answer, freshId)
      && returned == AdmittedBatch(old(db.batches), answer, orderId, now)
      && db.batches == Admission(old(db.batches), answer, orderId, now, freshId)
    ensures db.adminNotifications == old(db.adminNotifications) + (if IsFull(returned) then [BatchReady(batchId, now)] else [])
    ensures db.orders == old(db.orders) && db.subscriptions == old(db.subscriptions)
    ensures db.users == old(db.users) && db.childDocs == old(db.childDocs)
  {
    var current := GetCurrentBatch(db, queryFails);
    if current == None {
      batchId := freshId;
      returned := NewBatch(orderId, now);
    } else {
      batchId := current.value;
      var stored := db.batches[batchId];
      returned := stored.(orders := stored.orders + [orderId], currentCount := stored.currentCount + 1);
    }
    db.batches := db.batches[batchId := returned];
    if returned.currentCount >= returned.targetCount {
      var _ := MarkBatchReadyToShip(db, batchId, now);
    }
  }

  // ------------------------------------------------- properties of admission

  /** With nothing collecting, admission creates one batch holding only the
      order, counted once, with the default target, still collecting. */
  lemma AdmissionCreatesBatch(batches: map<string, Batch>, orderId: string, now: nat, freshId: string)
    requires freshId !in batches
    ensures var r := Admission(batches, None, orderId, now, freshId);
      && r.Keys == batches.Keys + {freshId}
      && r[freshId].orders == [orderId] && r[freshId].currentCount == 1
      && r[freshId].targetCount == 1000 && r[freshId].status == Collecting
      && r[freshId].batchNumber == "BATCH-" + Decimal(now) && r[freshId].createdAt == now
      && forall id :: id in batches ==> r[id] == batches[id]
  {
  }

  /** With a collecting batch, admission appends the order at the end, keeps
      every earlier id in order, counts it once, and touches no other batch. */
  lemma AdmissionAppends(batches: map<string, Batch>, id: string, orderId: string, now: nat, freshId: string)
    requires id in batches
    ensures var r := Admission(batches, Some(id), orderId, now, freshId);
      && r.Keys == batches.Keys
      && r[id].orders == batches[id].orders + [orderId]
      && r[id].orders[..|batches[id].orders|] == batches[id].orders
      && r[id].currentCount == batches[id].currentCount + 1
      && r[id].targetCount == batches[id].targetCount
      && forall other :: other in batches && other != id ==> r[other] == batches[other]
  {
  }

  /** Admission keeps `currentCount == |orders|` in every batch. */
  lemma AdmissionKeepsCounts(batches: map<string, Batch>, answer: Option<string>, orderId: string, now: nat, freshId: string)
    requires answer.Some? ==> answer.value in batches
    requires CountsMatch(batches)
    ensures CountsMatch(Admission(batches, answer, orderId, now, freshId))
  {
    var r := Admission(batches, answer, orderId, now, freshId);
    var t := AdmissionTarget(answer, freshId);
    forall id | id in r
      ensures r[id].currentCount == |r[id].orders|
    {
      if id == t && answer.Some? {
        assert r[id].orders == batches[id].orders + [orderId];
      }
    }
  }

  /** After admission, the batch is `ready_to_ship` with its estimated ship
      date three days ahead exactly when its count has reached its target;
      otherwise it is still `collecting`. */
  lemma AdmissionReadiness(batches: map<string, Batch>, queryFails: bool, answer: Option<string>, orderId: string, now: nat, freshId: string)
    requires IsCurrentBatchAnswer(batches, queryFails, answer)
    ensures var t := AdmissionTarget(answer, freshId);
      var r := Admission(batches, answer, orderId, now, freshId);
      && t in r
      && (r[t].currentCount >= r[t].targetCount <==> r[t].status == ReadyToShip)
      && (r[t].currentCount >= r[t].targetCount ==> r[t].estimatedShipDate == Some(now + ShipDelayMs))
      && (r[t].currentCount < r[t].targetCount ==> r[t].status == Collecting)
  {
  }

  /** With a query that does not fail, admission creates a batch only when none
      is collecting, so there is never more than one collecting batch. */
  lemma AdmissionKeepsOneCollecting(batches: map<string, Batch>, answer: Option<string>, orderId: string, now: nat, freshId: string)
    requires freshId !in batches
    requires IsCurrentBatchAnswer(batches, false, answer)
    requires AtMostOneCollecting(batches)
    ensures AtMostOneCollecting(Admission(batches, answer, orderId, now, freshId))
  {
  }

  /** When the query fails while a batch is collecting, admission opens a
      second collecting batch: the single-batch invariant rests on the query
      succeeding. */
  lemma FailedQueryOpensSecondBatch(batches: map<string, Batch>, id: string, orderId: string, now: nat, freshId: string)
    requires freshId !in batches
    requires id in batches && batches[id].status == Collecting
    ensures IsCurrentBatchAnswer(batches, true, None)
    ensures var r := Admission(batches, None, orderId, now, freshId);
      r[id].status == Collecting && r[freshId].status == Collecting && !AtMostOneCollecting(r)
  {
    var r := Admission(batches, None, orderId, now, freshId);
    assert id != freshId;
    assert r[id] == batches[id];
  }

  // ---------------------------------------------------- getOrderWaitStatus

  datatype WaitMessage =
    | Processing                  // 'Commande en cours de traitement'
    | OrdersRemaining(count: int) // '... N commandes restantes avant expédition.'
    | ShipsWithinThreeDays        // 'Votre lot est complet ! ...'
    | InTransit                   // 'Votre téléphone est en cours d'expédition !'
    | Handled                     // 'Commande traitée'

  datatype WaitStatus =
    | NotInBatch(message: WaitMessage)
    | InBatch(
        batchId: string,
        batchStatus: BatchStatus,
        progress: Option<int>,
        remainingOrders: int,
        currentCount: int,
        targetCount: int,
        message: WaitMessage)

  /** `Math.round((count / target) * 100)`: the nearest integer to
      100 * count / target, halves rounded up; `None` where JavaScript gives
      NaN or an infinity (target 0). */
  function RoundedPercent(count: int, target: int): (p: Option<int>)
    ensures p.Some? <==> target != 0
    ensures target > 0 ==> (2 * p.value - 1) * target <= 200 * count < (2 * p.value + 1) * target
    ensures target < 0 ==> (2 * p.value + 1) * target < 200 * count <= (2 * p.value - 1) * target
  {
    if target == 0 then None
    else
      var n, d := if target > 0 then count else -count, if target > 0 then target else -target;
      var q := (200 * n + d) / (2 * d);
      RoundingBounds(200 * n + d, 2 * d, q);
      assert (2 * q - 1) * d <= 200 * n < (2 * q + 1) * d;
      Some(q)
  }

  lemma RoundingBounds(a: int, b: int, q: int)
    requires b > 0 && q == a / b
    ensures q * b <= a < q * b + b
  {
  }

  /** The status reported for a member of batch `b`. */
  function WaitStatusOf(batchId: string, b: Batch): WaitStatus
  {
    var remaining := b.targetCount - b.currentCount;
    InBatch(batchId, b.status, RoundedPercent(b.currentCount, b.targetCount), remaining,
      b.currentCount, b.targetCount,
      match b.status
      case Collecting => OrdersRemaining(remaining)
      case ReadyToShip => ShipsWithinThreeDays
      case Shipping => InTransit
      case Completed => Handled)
  }

  /** `getOrderWaitStatus`: the progress of some batch whose member list
      contains the order, or "not in a batch". */
  method GetOrderWaitStatus(db: Db, orderId: string) returns (r: WaitStatus)
    ensures r.NotInBatch? <==> forall id :: id in db.batches ==> orderId !in db.batches[id].orders
    ensures r.NotInBatch? ==> r.message == Processing
    ensures r.InBatch? ==>
      && r.batchId in db.batches
      && orderId in db.batches[r.batchId].orders
      && r == WaitStatusOf(r.batchId, db.batches[r.batchId])
  {
    if id :| id in db.batches && orderId in db.batches[id].orders {
      return WaitStatusOf(id, db.batches[id]);
    }
    return NotInBatch(Processing);
  }

  /** For a member order the remaining count is target minus current count,
      the progress is the rounded percentage, and the message follows the
      batch status. */
  lemma WaitStatusOfMember(batchId: string, b: Batch)
    requires b.targetCount > 0
    ensures var s := WaitStatusOf(batchId, b);
      && s.remainingOrders == b.targetCount - b.currentCount
      && s.progress.Some?
      && (2 * s.progress.value - 1) * b.targetCount <= 200 * b.currentCount < (2 * s.progress.value + 1) * b.targetCount
      && (b.status == Collecting <==> s.message == OrdersRemaining(s.remainingOrders))
      && (b.status == ReadyToShip <==> s.message == ShipsWithinThreeDays)
  {
  }

  /** Two orders of a three-order batch: 67 percent, one order to go. */
  lemma TwoOfThree(batchId: string, a: string, c: string)
    ensures var s := WaitStatusOf(batchId, Batch("BATCH-1", Collecting, [a, c], 3, 2, 1, None, None));
      s.progress == Some(67) && s.remainingOrders == 1 && s.message == OrdersRemaining(1)
  {
    assert RoundedPercent(2, 3) == Some(67);
  }

  // -------------------------------------------------------------- shipBatch

  /** The fields the write batch sets on each member order. */
  function ShipmentStamp(o: Order, batchId: string, batchNumber: string, now: nat): Order
  {
    o.(status := PreparingShipment,
       timeline := o.timeline.(batchShipped := Some(now)),
       batch := Some(BatchLink(batchId, batchNumber)))
  }

  /** Building the write batch of `shipBatch`: one update per member id, in
      member order. `staged` is the order collection as the commit would leave
      it; `missing` is the position of the first member document that does
      not exist, in which case the commit is rejected as a whole. */
  method StageShipment(orders: map<string, Order>, batchId: string, batch: Batch, now: nat)
    returns (staged: map<string, Order>, missing: Option<nat>)
    ensures missing.None? <==> forall k :: 0 <= k < |batch.orders| ==> batch.orders[k] in orders
    ensures missing.Some? ==>
      && missing.value < |batch.orders| && batch.orders[missing.value] !in orders
      && forall k :: 0 <= k < missing.value ==> batch.orders[k] in orders
    ensures staged.Keys == orders.Keys
    ensures forall id :: id in orders && id in batch.orders ==>
      staged[id] == ShipmentStamp(orders[id], batchId, batch.batchNumber, now)
    ensures forall id :: id in orders && id !in batch.orders ==> staged[id] == orders[id]
  {
    staged, missing := orders, None;
    for i := 0 to |batch.orders|
      invariant staged.Keys == orders.Keys
      invariant missing.None? <==> forall k :: 0 <= k < i ==> batch.orders[k] in orders
      invariant missing.Some? ==>
        && missing.value < i && batch.orders[missing.value] !in orders
        && forall k :: 0 <= k < missing.value ==> batch.orders[k] in orders
      invariant forall id :: id in orders && id in batch.orders[..i] ==>
        staged[id] == ShipmentStamp(orders[id], batchId, batch.batchNumber, now)
      invariant forall id :: id in orders && id !in batch.orders[..i] ==> staged[id] == orders[id]
    {
      var id := batch.orders[i];
      assert batch.orders[..i + 1] == batch.orders[..i] + [id];
      if id in staged {
        staged := staged[id := ShipmentStamp(orders[id], batchId, batch.batchNumber, now)];
      } else if missing.None? {
        missing := Some(i);
      }
    }
    assert batch.orders[..|batch.orders|] == batch.orders;
  }

  /** `shipBatch`: fails on an unknown batch; otherwise sets the batch to
      `shipping` with its actual ship date, then commits the write batch that
      stamps every member order. A commit rejected for a missing member leaves
      every order untouched while the batch stays `shipping`. */
  method ShipBatch(db: Db, batchId: string, now: nat) returns (r: Outcome)
    modifies db
    ensures batchId !in old(db.batches) ==> r == Failed("Batch non trouvé") && unchanged(db)
    ensures batchId in old(db.batches) ==>
      var b := old(db.batches)[batchId];
      && db.batches == old(db.batches)[batchId := b.(status := Shipping, actualShipDate := Some(now))]
      && db.orders.Keys == old(db.orders).Keys
      && (r.Done? <==> forall k :: 0 <= k < |b.orders| ==> b.orders[k] in old(db.orders))
      && (r.Failed? ==> db.orders == old(db.orders))
      && (r.Failed? ==>
            exists k :: (0 <= k < |b.orders| && b.orders[k] !in old(db.orders)
                         && (forall j :: 0 <= j < k ==> b.orders[j] in old(db.orders))
                         && r == Failed(NoDocument("smarteenOrders", b.orders[k]))))
      && (r.Done? ==> forall id :: id in old(db.orders) && id in b.orders ==>
            db.orders[id] == ShipmentStamp(old(db.orders)[id], batchId, b.batchNumber, now))
      && (forall id :: id in old(db.orders) && id !in b.orders ==> db.orders[id] == old(db.orders)[id])
    ensures db.subscriptions == old(db.subscriptions) && db.users == old(db.users)
    ensures db.childDocs == old(db.childDocs) && db.adminNotifications == old(db.adminNotifications)
  {
    if batchId !in db.batches {
      return Failed("Batch non trouvé");
    }
    var batch := db.batches[batchId];
    db.batches := db.batches[batchId := batch.(status := Shipping, actualShipDate := Some(now))];
    var staged, missing := StageShipment(db.orders, batchId, batch, now);
    if missing.Some? {
      return Failed(NoDocument("smarteenOrders", batch.orders[missing.value]));
    }
    db.orders := staged;
    return Done;
  }
}

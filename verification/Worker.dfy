/** `handle_message` and a batch of the poll loop served with a single permit. */
module Worker {
  import opened FiniteSets
  import opened Model
  import opened Wrappers
  import opened Geo
  import opened Database
  import opened AtomicSpec
  import opened Pipeline
  import opened Delivery
  import opened Postgres
  import opened Serial
  import opened Greedy
  import opened MatchingService

  /** The main SQS queue. It gives every message an id of its own and never gives it again. */
  class OrderQueue {
    var messages: map<Id, Message>
    var used: set<Id>

    constructor ()
      ensures messages == map[] && used == {}
    {
      messages, used := map[], {};
    }

    method Send(o: Id, pickup: GeoPoint, fate: Fate) returns (ok: bool, m: Id)
      modifies this
      ensures ok == (fate == Fine)
      ensures m !in old(used) && m !in old(messages) && used == old(used) + {m}
      ensures messages == if fate == Fails then old(messages) else old(messages)[m := Message(o, pickup, 0, true)]
    {
      ghost var _ := FreshIdExists(used + messages.Keys);
      m :| m !in used && m !in messages;
      used := used + {m};
      if fate != Fails {
        messages := messages[m := Message(o, pickup, 0, true)];
      }
      ok := fate == Fine;
    }

    /** `delete_message`: without a receipt handle nothing is asked of the queue, and that is no error. */
    method Delete(m: Id, handle: bool, fate: Fate) returns (ok: bool)
      modifies `messages
      ensures ok == (handle ==> fate == Fine)
      ensures messages == if handle && fate != Fails then old(messages) - {m} else old(messages)
    {
      if handle && fate != Fails {
        messages := messages - {m};
      }
      ok := !handle || fate == Fine;
    }
  }

  /** The EventBridge bus. */
  class EventBus {
    var events: seq<DispatchAssigned>

    constructor ()
      ensures events == []
    {
      events := [];
    }

    method Publish(e: DispatchAssigned, fate: Fate) returns (ok: bool)
      modifies this
      ensures ok == (fate == Fine)
      ensures events == if fate == Fails then old(events) else old(events) + [e]
    {
      if fate != Fails {
        events := events + [e];
      }
      ok := fate == Fine;
    }
  }

  /** A message body: absent, not an `OrderCreated`, or one. */
  datatype Body = Absent | Garbled | Created(orderId: Id, pickup: GeoPoint)

  /** The queue after a delete of message `m`. */
  function Removed(messages: map<Id, Message>, m: Id, handle: bool, deleted: Fate): map<Id, Message> {
    if handle && deleted != Fails then messages - {m} else messages
  }

  /** What the caller hears of a delete, and so of the whole delivery. */
  function Acknowledged(outcome: Option<AssignOutcome>, handle: bool, deleted: Fate)
    : Result<Option<AssignOutcome>, Failure>
  {
    if handle ==> deleted == Fine then Ok(outcome) else Err(Failure)
  }

  /**
   One delivery, whatever others do to the database meanwhile. The message leaves the queue only when its order is
   assigned (or it has no body at all). An assignment's event is published first, and unless that is acknowledged
   the message stays. "No driver" and errors of `assign_order` change nothing else. `outcome` is what
   `assign_order` returned.
   */
  method HandleMessage(pg: Server, queue: OrderQueue, bus: EventBus, t: Id, m: Id, body: Body, handle: bool, a: Id,
                       plan: seq<Await>, published: Fate, deleted: Fate)
    returns (r: Result<Option<AssignOutcome>, Failure>, ghost outcome: Result<AssignOutcome, Failure>,
             ghost rows: seq<Driver>, ghost awaits: nat)
    requires pg.Valid() && t !in pg.txns
    modifies pg, queue`messages, bus
    ensures pg.Valid() && old(pg.log) <= pg.log && t !in pg.txns
    ensures !body.Created? ==>
              pg.log == old(pg.log) && pg.Contents() == old(pg.Contents()) && bus.events == old(bus.events)
    ensures body.Absent? ==>
              && queue.messages == Removed(old(queue.messages), m, handle, deleted)
              && r == Acknowledged(None, handle, deleted)
    ensures body.Garbled? ==> r == Err(Failure) && queue.messages == old(queue.messages)
    ensures body.Created? ==>
              match outcome
              case Err(_) =>
                && r == Err(Failure) && queue.messages == old(queue.messages) && bus.events == old(bus.events)
                && IsExcused(pg, plan, awaits, body.orderId, a)
              case Ok(NoDriverAvailable) =>
                && r == Ok(Some(NoDriverAvailable)) && queue.messages == old(queue.messages)
                && bus.events == old(bus.events) && Quietly(t, plan, old(pg.log), pg.log)
              case Ok(AlreadyHandled) =>
                && r == Acknowledged(Some(AlreadyHandled), handle, deleted) && bus.events == old(bus.events)
                && queue.messages == Removed(old(queue.messages), m, handle, deleted)
              case Ok(Assigned(e)) =>
                && HoldsEvent(pg, e) && e.orderId == body.orderId
                && bus.events == old(bus.events) + (if published == Fails then [] else [e])
                && if published == Fine
                   then && r == Acknowledged(Some(AssignOutcome.Assigned(e)), handle, deleted)
                        && queue.messages == Removed(old(queue.messages), m, handle, deleted)
                   else r == Err(Failure) && queue.messages == old(queue.messages)
    ensures queue.messages != old(queue.messages) && body.Created? && body.orderId in old(pg.orders) ==>
              IsAssigned(pg.Contents().tables, body.orderId)
    ensures body.Created? && outcome.Ok? ==>
              && AllFine(plan, 0, awaits)
              && AnswersFor(pg.c, body.pickup, rows, outcome.value) && StillThere(pg, rows)
              && (!outcome.value.AlreadyHandled? ==>
                    forall d | StayedFree(pg.c, old(pg.log), pg.log, t, d) :: d in IdsOf(rows))
    ensures body.Created? && plan == [] && old(NobodyRuns(pg)) && a !in old(pg.assignments) ==>
              && outcome.Ok? && NobodyRuns(pg)
              && (pg.Contents().tables, outcome.value)
                 == AssignAlone(pg.c, old(pg.Contents()).tables, body.orderId, body.pickup, a, rows)
              && (outcome.value.AlreadyHandled? || IsSelection(old(pg.Contents()).tables, rows))
  {
    outcome, rows, awaits := Err(Failure), [], 0;
    match body
    case Absent =>
      var ok := queue.Delete(m, handle, deleted);
      r := if ok then Ok(None) else Err(Failure);
    case Garbled =>
      r := Err(Failure);
    case Created(o, pickup) =>
      var answer;
      answer, rows, awaits := AssignOrder(pg, t, o, pickup, a, plan);
      outcome := answer;
      if answer.Err? {
        return Err(Failure), outcome, rows, awaits;
      }
      match answer.value
      case Assigned(event) =>
        var ok := bus.Publish(event, published);
        if ok {
          ok := queue.Delete(m, handle, deleted);
        }
        r := if ok then Ok(Some(answer.value)) else Err(Failure);
      case AlreadyHandled =>
        var ok := queue.Delete(m, handle, deleted);
        r := if ok then Ok(Some(answer.value)) else Err(Failure);
      case NoDriverAvailable =>
        r := Ok(Some(answer.value));
  }

  // --- A batch, one message after the other

  /** The events reported by a list of outcomes, in order. */
  function Reported(outcomes: seq<AssignOutcome>): seq<DispatchAssigned> {
    if outcomes == [] then []
    else
      var n := |outcomes| - 1;
      Reported(outcomes[..n]) + (if outcomes[n].Assigned? then [outcomes[n].event] else [])
  }

  lemma ReportedStep(outcomes: seq<AssignOutcome>, x: AssignOutcome)
    ensures Reported(outcomes + [x]) == Reported(outcomes) + (if x.Assigned? then [x.event] else [])
  {
    assert (outcomes + [x])[..|outcomes|] == outcomes;
  }

  /** The messages of a batch that were deleted: all but those of orders without a driver. */
  ghost function Deleted(batch: seq<Receipt>, outcomes: seq<AssignOutcome>): set<Id>
    requires |outcomes| <= |batch|
  {
    set i | 0 <= i < |outcomes| && !outcomes[i].NoDriverAvailable? :: batch[i].messageId
  }

  lemma DeletedStep(batch: seq<Receipt>, outcomes: seq<AssignOutcome>, x: AssignOutcome)
    requires |outcomes| < |batch|
    ensures Deleted(batch, outcomes + [x]) ==
            Deleted(batch, outcomes) + (if x.NoDriverAvailable? then {} else {batch[|outcomes|].messageId})
  {
    var n := |outcomes|;
    assert forall i | 0 <= i < n :: (outcomes + [x])[i] == outcomes[i];
    assert (outcomes + [x])[n] == x;
  }

  /** The orders and pickups of a batch are those of the table, and the ids are unused and distinct. */
  predicate BatchIsTrue(pg: Server, batch: seq<Receipt>, ids: seq<Id>)
    reads pg
  {
    && |ids| == |batch|
    && (forall i | 0 <= i < |batch| ::
        batch[i].orderId in pg.orders && pg.orders[batch[i].orderId].pickup == batch[i].pickup)
    && (forall i | 0 <= i < |ids| :: ids[i] !in pg.assignments)
    && (forall i, j | 0 <= i < j < |ids| :: ids[i] != ids[j])
  }

  /** All that a batch can change. */
  datatype Effects = Effects(tables: Tables, bus: seq<DispatchAssigned>, queue: map<Id, Message>)

  ghost function EffectsOf(pg: Server, queue: OrderQueue, bus: EventBus): Effects
    reads pg, queue, bus
  {
    Effects(pg.Contents().tables, bus.events, queue.messages)
  }

  /** The deliveries of a run are those of the batch, in its order. */
  ghost predicate AreAttemptsOf(batch: seq<Receipt>, ids: seq<Id>, xs: seq<Attempt>)
    requires |xs| <= |batch| == |ids|
  {
    forall i | 0 <= i < |xs| ::
      xs[i].orderId == batch[i].orderId && xs[i].pickup == batch[i].pickup && xs[i].assignmentId == ids[i]
  }

  /** The serial run so far: what the first messages of the batch did to the tables, to the bus and to the queue. */
  ghost predicate Served(c: Config, before: Effects, after: Effects, batch: seq<Receipt>, ids: seq<Id>,
                         xs: seq<Attempt>)
    requires |xs| <= |batch| == |ids|
  {
    && IsSerialRun(c, before.tables, xs)
    && after.tables == Drained(c, before.tables, xs)
    && after.bus == before.bus + Reported(Outcomes(c, before.tables, xs))
    && after.queue == before.queue - Deleted(batch, Outcomes(c, before.tables, xs))
    && AreAttemptsOf(batch, ids, xs)
  }

  lemma ServedStep(c: Config, before: Effects, mid: Effects, after: Effects, batch: seq<Receipt>, ids: seq<Id>,
                   xs: seq<Attempt>, x: Attempt)
    requires |xs| < |batch| == |ids| && Served(c, before, mid, batch, ids, xs) && Fits(mid.tables, x)
    requires var m := batch[|xs|]; x.orderId == m.orderId && x.pickup == m.pickup && x.assignmentId == ids[|xs|]
    requires var outcome := OutcomeOf(c, mid.tables, x);
             && after.tables == TablesAfter(c, mid.tables, x)
             && after.bus == mid.bus + (if outcome.Assigned? then [outcome.event] else [])
             && after.queue == mid.queue - (if outcome.NoDriverAvailable? then {} else {batch[|xs|].messageId})
    ensures Served(c, before, after, batch, ids, xs + [x])
  {
    var outcome := OutcomeOf(c, mid.tables, x);
    SerialRunStep(c, before.tables, xs, x);
    ReportedStep(Outcomes(c, before.tables, xs), outcome);
    DeletedStep(batch, Outcomes(c, before.tables, xs), outcome);
  }

  ghost predicate RestIsTrue(pg: Server, batch: seq<Receipt>, ids: seq<Id>, i: nat)
    requires |batch| == |ids|
    reads pg
  {
    && (forall j | 0 <= j < |batch| ::
        batch[j].orderId in pg.orders && pg.orders[batch[j].orderId].pickup == batch[j].pickup)
    && (forall j | i <= j < |ids| :: ids[j] !in pg.assignments)
  }

  method ServeOne(pg: Server, queue: OrderQueue, bus: EventBus, t: Id, batch: seq<Receipt>, ids: seq<Id>, i: nat)
    returns (ghost rows: seq<Driver>)
    requires pg.Valid() && NobodyRuns(pg) && i < |batch| == |ids| && RestIsTrue(pg, batch, ids, i)
    requires forall j, k | 0 <= j < k < |ids| :: ids[j] != ids[k]
    modifies pg, queue`messages, bus
    ensures pg.Valid() && NobodyRuns(pg) && RestIsTrue(pg, batch, ids, i + 1)
    ensures var before, after := old(EffectsOf(pg, queue, bus)), EffectsOf(pg, queue, bus);
            var x := Attempt(batch[i].orderId, batch[i].pickup, ids[i], rows);
            var outcome := OutcomeOf(pg.c, before.tables, x);
            && Fits(before.tables, x) && after.tables == TablesAfter(pg.c, before.tables, x)
            && after.bus == before.bus + (if outcome.Assigned? then [outcome.event] else [])
            && after.queue == before.queue - (if outcome.NoDriverAvailable? then {} else {batch[i].messageId})
  {
    var m := batch[i];
    var body := Created(m.orderId, m.pickup);
    ghost var outcome, awaits;
    var r;
    r, outcome, rows, awaits := HandleMessage(pg, queue, bus, t, m.messageId, body, true, ids[i], [], Fine, Fine);
    TablesOnlyGrow(pg.c, old(pg.log), pg.log);
  }

  /**
   The `for` loop over received messages when there is one permit and nothing fails: a serial run, whose events
   are on the bus in order, and which leaves in the queue only messages of orders without a driver.
   */
  method ServeBatch(pg: Server, queue: OrderQueue, bus: EventBus, t: Id, batch: seq<Receipt>, ids: seq<Id>)
    returns (ghost xs: seq<Attempt>)
    requires pg.Valid() && NobodyRuns(pg) && BatchIsTrue(pg, batch, ids)
    modifies pg, queue`messages, bus
    ensures pg.Valid() && NobodyRuns(pg) && |xs| == |batch|
    ensures Served(pg.c, old(EffectsOf(pg, queue, bus)), EffectsOf(pg, queue, bus), batch, ids, xs)
  {
    xs := [];
    ghost var before := EffectsOf(pg, queue, bus);
    for i := 0 to |batch|
      invariant pg.Valid() && NobodyRuns(pg) && |xs| == i
      invariant Served(pg.c, before, EffectsOf(pg, queue, bus), batch, ids, xs)
      invariant RestIsTrue(pg, batch, ids, i)
    {
      ghost var mid := EffectsOf(pg, queue, bus);
      ghost var rows := ServeOne(pg, queue, bus, t, batch, ids, i);
      ghost var x := Attempt(batch[i].orderId, batch[i].pickup, ids[i], rows);
      ServedStep(pg.c, before, mid, EffectsOf(pg, queue, bus), batch, ids, xs, x);
      xs := xs + [x];
    }
  }

  lemma {:induction false} ReportedConcat(xs: seq<AssignOutcome>, ys: seq<AssignOutcome>)
    ensures Reported(xs + ys) == Reported(xs) + Reported(ys)
    decreases |ys|
  {
    if ys == [] {
      assert xs + ys == xs;
    } else {
      var n := |ys| - 1;
      ReportedConcat(xs, ys[..n]);
      assert xs + ys == xs + ys[..n] + [ys[n]];
      ReportedStep(xs + ys[..n], ys[n]);
    }
  }

  lemma DeletedConcat(batch: seq<Receipt>, more: seq<Receipt>, xs: seq<AssignOutcome>, ys: seq<AssignOutcome>)
    requires |xs| == |batch| && |ys| == |more|
    ensures Deleted(batch + more, xs + ys) == Deleted(batch, xs) + Deleted(more, ys)
  {
    var all, out := batch + more, xs + ys;
    assert forall i | 0 <= i < |xs| :: out[i] == xs[i] && all[i] == batch[i];
    assert forall i | 0 <= i < |ys| :: out[|xs| + i] == ys[i] && all[|xs| + i] == more[i];
  }

  lemma AttemptsConcat(batch: seq<Receipt>, ids: seq<Id>, xs: seq<Attempt>,
                       more: seq<Receipt>, moreIds: seq<Id>, ys: seq<Attempt>)
    requires |xs| == |batch| == |ids| && AreAttemptsOf(batch, ids, xs)
    requires |ys| == |more| == |moreIds| && AreAttemptsOf(more, moreIds, ys)
    ensures AreAttemptsOf(batch + more, ids + moreIds, xs + ys)
  {
  }

  /** Batches one after the other are one long batch: what holds of a served batch holds of any list of them. */
  lemma ServedConcat(c: Config, before: Effects, mid: Effects, after: Effects, batch: seq<Receipt>, ids: seq<Id>,
                     xs: seq<Attempt>, more: seq<Receipt>, moreIds: seq<Id>, ys: seq<Attempt>)
    requires |xs| == |batch| == |ids| && Served(c, before, mid, batch, ids, xs)
    requires |ys| == |more| == |moreIds| && Served(c, mid, after, more, moreIds, ys)
    ensures Served(c, before, after, batch + more, ids + moreIds, xs + ys)
  {
    var first, second := Outcomes(c, before.tables, xs), Outcomes(c, mid.tables, ys);
    assert after.bus == before.bus + Reported(first + second) by {
      ReportedConcat(first, second);
    }
    assert after.queue == before.queue - Deleted(batch + more, first + second) by {
      DeletedConcat(batch, more, first, second);
    }
    assert AreAttemptsOf(batch + more, ids + moreIds, xs + ys) by {
      AttemptsConcat(batch, ids, xs, more, moreIds, ys);
    }
    SerialRunConcat(c, before.tables, xs, ys);
  }

  /**
   So a batch with a message for every pending order stores at least half as many assignments as any matching
   of those orders with available drivers in range has pairs.
   */
  lemma BatchStoresHalfOfBest(dist: Metric, radiusKm: nat, c: Config, before: Effects, after: Effects,
                              batch: seq<Receipt>, ids: seq<Id>, xs: seq<Attempt>, other: map<Id, Id>)
    requires c.nearest == Matching(dist, radiusKm) && TablesInv(before.tables)
    requires |xs| == |batch| == |ids| && Served(c, before, after, batch, ids, xs)
    requires forall o | IsPending(before.tables, o) :: exists i :: 0 <= i < |batch| && batch[i].orderId == o
    requires IsMatching(WithinKm(dist, radiusKm), before.tables, other)
    ensures |other| <= 2 * (|after.tables.assignments| - |before.tables.assignments|)
  {
    forall o | IsPending(before.tables, o) ensures Delivers(xs, o) {
      var i :| 0 <= i < |batch| && batch[i].orderId == o;
      assert xs[i].orderId == o;
    }
    NearestFinds(dist, radiusKm, c);
    DrainIsHalfOfBest(dist, radiusKm, c, before.tables, xs, other);
    DrainStoresMatching(c, WithinKm(dist, radiusKm), before.tables, xs);
  }
}

/**
 The notification function behind the event bus: notify first, then write the audit record. The bus may
 invoke it any number of times per event, in any order, and each of its two calls may fail.
 */
module Notify {
  import opened Model
  import opened Database
  import opened Pipeline
  import opened Delivery
  import opened Accounting
  import opened Postgres
  import opened Reachability

  /** `assignments/{order_id}/{assignment_id}.json` */
  type Key = (Id, Id)

  function KeyOf(e: DispatchAssigned): Key {
    (e.orderId, e.assignmentId)
  }

  class Topic {
    var sent: seq<Id>

    method Publish(a: Id, fate: Fate) returns (ok: bool)
      modifies this
      ensures ok == (fate == Fine)
      ensures sent == if fate == Fails then old(sent) else old(sent) + [a]
    {
      if fate != Fails {
        sent := sent + [a];
      }
      ok := fate == Fine;
    }
  }

  class Bucket {
    var objects: map<Key, DispatchAssigned>

    method Put(key: Key, e: DispatchAssigned, fate: Fate) returns (ok: bool)
      modifies this
      ensures ok == (fate == Fine)
      ensures objects == if fate == Fails then old(objects) else old(objects)[key := e]
    {
      if fate != Fails {
        objects := objects[key := e];
      }
      ok := fate == Fine;
    }
  }

  // --- As values

  datatype Setup = Setup(hasTopic: bool, hasBucket: bool)

  datatype Sinks = Sinks(sent: seq<Id>, objects: map<Key, DispatchAssigned>)

  const NOTHING := Sinks([], map[])

  /** One invocation and what becomes of its two calls. */
  datatype Invocation = Invocation(event: DispatchAssigned, notified: Fate, audited: Fate)

  /** Did the notification step let the handler go on? */
  predicate NotifyPassed(setup: Setup, x: Invocation) {
    !setup.hasTopic || x.notified == Fine
  }

  /** Did the audit step take effect? */
  predicate Wrote(setup: Setup, x: Invocation) {
    NotifyPassed(setup, x) && setup.hasBucket && x.audited != Fails
  }

  function Invoke(setup: Setup, s: Sinks, x: Invocation): Sinks {
    Sinks(
      if setup.hasTopic && x.notified != Fails then s.sent + [x.event.assignmentId] else s.sent,
      if Wrote(setup, x) then s.objects[KeyOf(x.event) := x.event] else s.objects)
  }

  function InvokeAll(setup: Setup, xs: seq<Invocation>): Sinks {
    if xs == [] then NOTHING else Invoke(setup, InvokeAll(setup, xs[..|xs| - 1]), xs[|xs| - 1])
  }

  function SinksOf(topic: Topic?, bucket: Bucket?): Sinks
    reads topic, bucket
  {
    Sinks(if topic == null then [] else topic.sent, if bucket == null then map[] else bucket.objects)
  }

  /** `handle_event`: an error in the first step keeps the second from happening. */
  method HandleEvent(topic: Topic?, bucket: Bucket?, e: DispatchAssigned, notified: Fate, audited: Fate)
    returns (ok: bool)
    modifies topic, bucket
    ensures var setup, x := Setup(topic != null, bucket != null), Invocation(e, notified, audited);
            && SinksOf(topic, bucket) == Invoke(setup, old(SinksOf(topic, bucket)), x)
            && (ok <==> NotifyPassed(setup, x) && (bucket == null || audited == Fine))
    ensures topic != null ==>
              topic.sent == old(topic.sent) + (if notified == Fails then [] else [e.assignmentId])
    ensures bucket != null ==>
              bucket.objects == if (topic == null || notified == Fine) && audited != Fails
                                then old(bucket.objects)[(e.orderId, e.assignmentId) := e]
                                else old(bucket.objects)
    ensures ok <==> (topic != null ==> notified == Fine) && (bucket != null ==> audited == Fine)
  {
    ok := true;
    if topic != null {
      ok := topic.Publish(e.assignmentId, notified);
    }
    if ok && bucket != null {
      ok := bucket.Put((e.orderId, e.assignmentId), e, audited);
    }
  }

  // --- Convergence

  /** Was event `e` written by one of these invocations? */
  predicate WasWritten(setup: Setup, xs: seq<Invocation>, e: DispatchAssigned) {
    exists i :: 0 <= i < |xs| && Wrote(setup, xs[i]) && xs[i].event == e
  }

  /** Invocations with the same key carry the same event. */
  ghost predicate SameKeySameEvent(xs: seq<Invocation>) {
    forall i, j | 0 <= i < |xs| && 0 <= j < |xs| && KeyOf(xs[i].event) == KeyOf(xs[j].event) ::
        xs[i].event == xs[j].event
  }

  /** The store holds exactly the events written at least once, each under its key. */
  lemma {:induction false} StoreHoldsWritten(setup: Setup, xs: seq<Invocation>, e: DispatchAssigned)
    requires SameKeySameEvent(xs)
    ensures var store := InvokeAll(setup, xs).objects;
            KeyOf(e) in store && store[KeyOf(e)] == e <==> WasWritten(setup, xs, e)
    decreases |xs|
  {
    if xs != [] {
      var n := |xs| - 1;
      var ys, x := xs[..n], xs[n];
      StoreHoldsWritten(setup, ys, e);
      assert WasWritten(setup, xs, e) <==> WasWritten(setup, ys, e) || (Wrote(setup, x) && x.event == e) by {
        assert forall i | 0 <= i < n :: xs[i] == ys[i];
      }
      if WasWritten(setup, ys, e) {
        var i :| 0 <= i < |ys| && Wrote(setup, ys[i]) && ys[i].event == e;
        assert xs[i] == ys[i];
        assert KeyOf(x.event) == KeyOf(e) ==> x.event == e;
      }
    }
  }

  /** Every record is some invocation's event under that event's key. */
  lemma {:induction false} StoreHoldsNothingElse(setup: Setup, xs: seq<Invocation>, key: Key)
    requires key in InvokeAll(setup, xs).objects
    ensures KeyOf(InvokeAll(setup, xs).objects[key]) == key
    ensures exists i :: 0 <= i < |xs| && xs[i].event == InvokeAll(setup, xs).objects[key]
    decreases |xs|
  {
    if xs != [] {
      var n := |xs| - 1;
      if Wrote(setup, xs[n]) && KeyOf(xs[n].event) == key {
        assert xs[n].event == InvokeAll(setup, xs).objects[key];
      } else {
        StoreHoldsNothingElse(setup, xs[..n], key);
        var i :| 0 <= i < n && xs[..n][i].event == InvokeAll(setup, xs[..n]).objects[key];
        assert xs[i].event == InvokeAll(setup, xs).objects[key];
      }
    }
  }

  lemma StoreIncluded(setup: Setup, xs: seq<Invocation>, ys: seq<Invocation>)
    requires SameKeySameEvent(xs) && SameKeySameEvent(ys)
    requires forall e :: WasWritten(setup, xs, e) ==> WasWritten(setup, ys, e)
    ensures var a, b := InvokeAll(setup, xs).objects, InvokeAll(setup, ys).objects;
            forall key | key in a :: key in b && b[key] == a[key]
  {
    var a := InvokeAll(setup, xs).objects;
    forall key | key in a ensures key in InvokeAll(setup, ys).objects && InvokeAll(setup, ys).objects[key] == a[key] {
      StoreHoldsNothingElse(setup, xs, key);
      StoreHoldsWritten(setup, xs, a[key]);
      StoreHoldsWritten(setup, ys, a[key]);
    }
  }

  /**
   Reordering, duplication, retries and partial failures do not show: the store is a function of the set of written
   events.
   */
  lemma AuditConverges(setup: Setup, xs: seq<Invocation>, ys: seq<Invocation>)
    requires SameKeySameEvent(xs) && SameKeySameEvent(ys)
    requires forall e :: WasWritten(setup, xs, e) <==> WasWritten(setup, ys, e)
    ensures InvokeAll(setup, xs).objects == InvokeAll(setup, ys).objects
  {
    StoreIncluded(setup, xs, ys);
    StoreIncluded(setup, ys, xs);
  }

  /** With a topic configured, a record in the store means its notification has been sent. */
  lemma {:induction false} RecordsWereNotified(setup: Setup, xs: seq<Invocation>, key: Key)
    requires setup.hasTopic && key in InvokeAll(setup, xs).objects
    ensures key.1 in InvokeAll(setup, xs).sent
    decreases |xs|
  {
    if xs != [] {
      var n := |xs| - 1;
      var s := InvokeAll(setup, xs[..n]);
      if key in s.objects {
        RecordsWereNotified(setup, xs[..n], key);
        assert s.sent <= InvokeAll(setup, xs).sent;
      } else {
        assert InvokeAll(setup, xs).sent == s.sent + [xs[n].event.assignmentId];
      }
    }
  }

  /** Was the notification for assignment `a` sent by one of these invocations? */
  predicate WasNotified(setup: Setup, xs: seq<Invocation>, a: Id) {
    exists i :: 0 <= i < |xs| && setup.hasTopic && xs[i].notified != Fails && xs[i].event.assignmentId == a
  }

  /** The topic has the notifications that were sent and no others. */
  lemma {:induction false} TopicHoldsNotified(setup: Setup, xs: seq<Invocation>, a: Id)
    ensures a in InvokeAll(setup, xs).sent <==> WasNotified(setup, xs, a)
    decreases |xs|
  {
    if xs != [] {
      var n := |xs| - 1;
      var ys, x := xs[..n], xs[n];
      TopicHoldsNotified(setup, ys, a);
      assert WasNotified(setup, xs, a) <==>
             WasNotified(setup, ys, a) || (setup.hasTopic && x.notified != Fails && x.event.assignmentId == a) by {
        assert forall i | 0 <= i < n :: xs[i] == ys[i];
      }
    }
  }

  // --- Behind the pipeline

  /** Every invocation delivers an event the bus accepted. */
  ghost predicate ComeFromBus(s: Sys, xs: seq<Invocation>) {
    forall i | 0 <= i < |xs| :: xs[i].event in s.events.bus
  }

  lemma BusEventsHaveOneKeyEach(s: Sys, xs: seq<Invocation>)
    requires Balanced(LedgerOf(s)) && ComeFromBus(s, xs)
    ensures SameKeySameEvent(xs)
  {
    forall i, j | 0 <= i < |xs| && 0 <= j < |xs| && KeyOf(xs[i].event) == KeyOf(xs[j].event)
      ensures xs[i].event == xs[j].event
    {
      var k :| 0 <= k < |s.events.bus| && s.events.bus[k] == xs[i].event;
      var l :| 0 <= l < |s.events.bus| && s.events.bus[l] == xs[j].event;
      assert LedgerOf(s).events.bus[k].assignmentId == LedgerOf(s).events.bus[l].assignmentId;
    }
  }

  /** So behind the pipeline nothing but the set of written events matters. */
  lemma AuditConvergesBehindBus(c: Config, s0: Sys, trace: seq<Action>, setup: Setup, xs: seq<Invocation>,
                                ys: seq<Invocation>)
    requires Initial(c, s0) && IsTrace(c, s0, trace)
    requires ComeFromBus(End(c, s0, trace), xs) && ComeFromBus(End(c, s0, trace), ys)
    requires forall e :: WasWritten(setup, xs, e) <==> WasWritten(setup, ys, e)
    ensures InvokeAll(setup, xs).objects == InvokeAll(setup, ys).objects
  {
    var s := End(c, s0, trace);
    EveryReachableState(c, s0, trace);
    BusEventsHaveOneKeyEach(s, xs);
    BusEventsHaveOneKeyEach(s, ys);
    AuditConverges(setup, xs, ys);
  }

  lemma RecordMatchesRow(s: Sys, setup: Setup, xs: seq<Invocation>, k: Key)
    requires Balanced(LedgerOf(s)) && ComeFromBus(s, xs) && k in InvokeAll(setup, xs).objects
    ensures var e := InvokeAll(setup, xs).objects[k];
            KeyOf(e) == k && k.1 in s.db.tables.assignments && s.db.tables.assignments[k.1] == RowFor(e)
  {
    StoreHoldsNothingElse(setup, xs, k);
    var i :| 0 <= i < |xs| && xs[i].event == InvokeAll(setup, xs).objects[k];
    var j :| 0 <= j < |s.events.bus| && s.events.bus[j] == xs[i].event;
    assert MatchesRow(LedgerOf(s), LedgerOf(s).events.bus[j]);
  }

  /** In every reachable state each audit record agrees with its assignment row, and no order has two records. */
  lemma RecordsMatchRows(c: Config, s: Sys, setup: Setup, xs: seq<Invocation>, k: Key, l: Key)
    requires Invariant(c, s) && Balanced(LedgerOf(s)) && ComeFromBus(s, xs)
    requires k in InvokeAll(setup, xs).objects && l in InvokeAll(setup, xs).objects
    ensures var e := InvokeAll(setup, xs).objects[k];
            && KeyOf(e) == k && k.1 in s.db.tables.assignments
            && s.db.tables.assignments[k.1] == Assignment(k.0, e.driverId, e.distance)
    ensures k.0 == l.0 ==> k == l
  {
    RecordMatchesRow(s, setup, xs, k);
    RecordMatchesRow(s, setup, xs, l);
  }

  // --- FR-9

  /** Notified, and with an audit record under its key. */
  ghost predicate NotifiedAndAudited(sinks: Sinks, o: Id, a: Id) {
    a in sinks.sent && (o, a) in sinks.objects
  }

  /** Some invocation took the event of `a` through both steps, or several did so between them. */
  ghost predicate BothStepsDone(setup: Setup, xs: seq<Invocation>, a: Id) {
    && WasNotified(setup, xs, a)
    && exists i :: 0 <= i < |xs| && Wrote(setup, xs[i]) && xs[i].event.assignmentId == a
  }

  lemma RecordOfAssignment(s: Sys, setup: Setup, xs: seq<Invocation>, a: Id)
    requires Balanced(LedgerOf(s)) && ComeFromBus(s, xs) && a in s.db.tables.assignments
    ensures (s.db.tables.assignments[a].orderId, a) in InvokeAll(setup, xs).objects
       <==> exists i :: 0 <= i < |xs| && Wrote(setup, xs[i]) && xs[i].event.assignmentId == a
  {
    var key := (s.db.tables.assignments[a].orderId, a);
    BusEventsHaveOneKeyEach(s, xs);
    if key in InvokeAll(setup, xs).objects {
      StoreHoldsNothingElse(setup, xs, key);
      StoreHoldsWritten(setup, xs, InvokeAll(setup, xs).objects[key]);
    }
    if i :| 0 <= i < |xs| && Wrote(setup, xs[i]) && xs[i].event.assignmentId == a {
      var j :| 0 <= j < |s.events.bus| && s.events.bus[j] == xs[i].event;
      assert MatchesRow(LedgerOf(s), LedgerOf(s).events.bus[j]);
      StoreHoldsWritten(setup, xs, xs[i].event);
    }
  }

  lemma InvokedWasPublished(s: Sys, xs: seq<Invocation>, i: nat)
    requires ComeFromBus(s, xs) && i < |xs|
    ensures OnBus(LedgerOf(s), xs[i].event.assignmentId)
  {
    assert xs[i].event in s.events.bus;
    var j :| 0 <= j < |s.events.bus| && s.events.bus[j] == xs[i].event;
    assert LedgerOf(s).events.bus[j].assignmentId == xs[i].event.assignmentId;
  }

  /**
   FR-9 over every run of the pipeline and every list of invocations the bus makes. Once no worker task holds it,
   an assignment is notified and audited if and only if invocations of its event got through both steps; and that
   they can only if none of the three failures before the bus ever hit it.
   */
  lemma NotifiedIffNothingFailed(c: Config, s0: Sys, trace: seq<Action>, setup: Setup, xs: seq<Invocation>, a: Id)
    requires Initial(c, s0) && IsTrace(c, s0, trace) && ComeFromBus(End(c, s0, trace), xs)
    requires a in End(c, s0, trace).db.tables.assignments && !IsHeld(LedgerOf(End(c, s0, trace)), a)
    ensures NotifiedAndAudited(InvokeAll(setup, xs), End(c, s0, trace).db.tables.assignments[a].orderId, a)
       <==> BothStepsDone(setup, xs, a)
    ensures BothStepsDone(setup, xs, a) ==> !SomewhereLost(c, s0, trace, a)
  {
    var s := End(c, s0, trace);
    EveryReachableState(c, s0, trace);
    PublishedIffNothingFailed(c, s0, trace, a);
    TopicHoldsNotified(setup, xs, a);
    RecordOfAssignment(s, setup, xs, a);
    if WasNotified(setup, xs, a) {
      var i :| 0 <= i < |xs| && setup.hasTopic && xs[i].notified != Fails && xs[i].event.assignmentId == a;
      InvokedWasPublished(s, xs, i);
    }
  }

  /**
   If the bus gets every accepted event through once, FR-9 holds exactly of the assignments the worker side did not
   lose.
   */
  lemma FR9HoldsUnlessLost(c: Config, s0: Sys, trace: seq<Action>, setup: Setup, xs: seq<Invocation>, a: Id)
    requires Initial(c, s0) && IsTrace(c, s0, trace) && ComeFromBus(End(c, s0, trace), xs)
    requires a in End(c, s0, trace).db.tables.assignments && !IsHeld(LedgerOf(End(c, s0, trace)), a)
    requires setup == Setup(true, true)
    requires forall e | e in End(c, s0, trace).events.bus :: Invocation(e, Fine, Fine) in xs
    ensures NotifiedAndAudited(InvokeAll(setup, xs), End(c, s0, trace).db.tables.assignments[a].orderId, a)
       <==> !SomewhereLost(c, s0, trace, a)
  {
    var s := End(c, s0, trace);
    NotifiedIffNothingFailed(c, s0, trace, setup, xs, a);
    PublishedIffNothingFailed(c, s0, trace, a);
    if OnBus(LedgerOf(s), a) {
      var j :| 0 <= j < |s.events.bus| && s.events.bus[j].assignmentId == a;
      assert Invocation(s.events.bus[j], Fine, Fine) in xs;
      var i :| 0 <= i < |xs| && xs[i] == Invocation(s.events.bus[j], Fine, Fine);
      assert Wrote(setup, xs[i]) && xs[i].event.assignmentId == a;
    }
  }
}

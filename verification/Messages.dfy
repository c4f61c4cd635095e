/**
 What a message goes through, over whole runs: how often it is received, when it is seen again, where it ends, and
 what the worker's task does with it. The limit of five receives is written out.
 */
module Messages {
  import opened Model
  import opened Database
  import opened LockSoundness
  import opened Pipeline
  import opened Delivery
  import opened Accounting

  // --- The two queues

  /** Ids are those of stored messages, no message is in both queues, and a dead letter was received five times. */
  ghost predicate BoxesAreSound(q: Sqs) {
    && q.queue.Keys <= q.sent.Keys && q.dlq.Keys <= q.sent.Keys && q.queue.Keys !! q.dlq.Keys
    && (forall m | m in q.queue :: q.queue[m].receives <= 5)
    && (forall m | m in q.dlq :: q.dlq[m].receives == 5)
  }

  lemma KeepsBoxes(c: Config, s: Sys, a: Action)
    requires BoxesAreSound(s.sqs) && Possible(c, s, a)
    ensures BoxesAreSound(SqsAfter(c, s, a))
  {
  }

  function Receives(trace: seq<Action>, m: Id): nat {
    if trace == [] then 0
    else (if trace[0].Receive? && trace[0].messageId == m then 1 else 0) + Receives(trace[1..], m)
  }

  function Timeouts(trace: seq<Action>, m: Id): nat {
    if trace == [] then 0 else (if trace[0] == Expire(m) then 1 else 0) + Timeouts(trace[1..], m)
  }

  predicate IsRedriven(trace: seq<Action>, m: Id) {
    Redrive(m) in trace
  }

  predicate Deletes(s: Sys, a: Action, m: Id) {
    a.Delete? && a.removed && a.task in s.tasks && s.tasks[a.task].delivery.messageId == m
  }

  /** A task has deleted the message. */
  ghost predicate IsDeleted(c: Config, s: Sys, trace: seq<Action>, m: Id)
    requires IsTrace(c, s, trace)
    decreases |trace|
  {
    trace != [] && (Deletes(s, trace[0], m) || IsDeleted(c, Next(c, s, trace[0]), trace[1..], m))
  }

  // --- Out of the main queue for good

  /** Stored once, and no longer in the main queue. */
  predicate IsOut(q: Sqs, m: Id) {
    m in q.sent && m !in q.queue
  }

  lemma OutStaysOut(c: Config, s: Sys, a: Action, m: Id)
    requires BoxesAreSound(s.sqs) && Possible(c, s, a) && IsOut(s.sqs, m)
    ensures IsOut(SqsAfter(c, s, a), m) && a != Redrive(m) && a != Expire(m)
    ensures a.Receive? ==> a.messageId != m
    ensures m in SqsAfter(c, s, a).dlq <==> m in s.sqs.dlq
  {
  }

  /** A message that has left the main queue is never received again, and never changes places again. */
  lemma {:induction false} OutForGood(c: Config, s: Sys, trace: seq<Action>, m: Id)
    requires BoxesAreSound(s.sqs) && IsTrace(c, s, trace) && IsOut(s.sqs, m)
    ensures IsOut(End(c, s, trace).sqs, m) && Receives(trace, m) == 0 && Timeouts(trace, m) == 0
    ensures m in End(c, s, trace).sqs.dlq <==> m in s.sqs.dlq
    ensures !IsRedriven(trace, m)
    decreases |trace|
  {
    if trace != [] {
      OutStaysOut(c, s, trace[0], m);
      KeepsBoxes(c, s, trace[0]);
      OutForGood(c, Next(c, s, trace[0]), trace[1..], m);
      assert trace == [trace[0]] + trace[1..];
    }
  }

  /** A successful delete takes exactly its message out of the main queue. */
  lemma DeleteTakesOne(c: Config, s: Sys, t: Id)
    requires Possible(c, s, Delete(t, true))
    ensures var m, q, r := s.tasks[t].delivery.messageId, s.sqs, Next(c, s, Delete(t, true)).sqs;
            && r.dlq == q.dlq && r.sent == q.sent
            && (forall n :: n in r.queue <==> n in q.queue && n != m)
            && (forall n | n in r.queue :: r.queue[n] == q.queue[n])
    ensures t !in Next(c, s, Delete(t, true)).tasks
  {
  }

  /** And at no later point of any run is it there, or received. */
  lemma DeletedIsGone(c: Config, s: Sys, t: Id, trace: seq<Action>)
    requires MessagesAreTrue(s) && BoxesAreSound(s.sqs) && Possible(c, s, Delete(t, true))
    requires IsTrace(c, Next(c, s, Delete(t, true)), trace)
    ensures var m, q := s.tasks[t].delivery.messageId, End(c, Next(c, s, Delete(t, true)), trace).sqs;
            m !in q.queue && Receives(trace, m) == 0 && (m in q.dlq <==> m in s.sqs.dlq)
  {
    assert GoodReceipt(s.db.tables, s.sqs, s.tasks[t].delivery);
    DeleteTakesOne(c, s, t);
    KeepsBoxes(c, s, Delete(t, true));
    OutForGood(c, Next(c, s, Delete(t, true)), trace, s.tasks[t].delivery.messageId);
  }

  // --- How often, and when again

  function ReceivesSoFar(q: Sqs, m: Id): nat {
    if m in q.queue then q.queue[m].receives else 0
  }

  /** 1 while the message is in flight: received, and its visibility timeout not over. */
  function InFlight(q: Sqs, m: Id): nat {
    if m in q.queue && !q.queue[m].visible then 1 else 0
  }

  /** Receives and timeouts are what the queue says they are. */
  ghost predicate CountsAgree(s: Sqs, r: Sqs, received: nat, timedOut: nat, m: Id) {
    && ReceivesSoFar(s, m) + received <= 5
    && (m in r.queue ==>
          && r.queue[m].receives == ReceivesSoFar(s, m) + received
          && timedOut + InFlight(r, m) == received + InFlight(s, m))
    && (m in r.dlq ==> ReceivesSoFar(s, m) + received == 5 && timedOut == received + InFlight(s, m))
  }

  function One(b: bool): nat {
    if b then 1 else 0
  }

  lemma ActionCounts(c: Config, s: Sys, a: Action, m: Id)
    requires BoxesAreSound(s.sqs) && Possible(c, s, a) && (m in s.sqs.queue || m !in s.sqs.sent)
    ensures CountsAgree(s.sqs, SqsAfter(c, s, a), One(a.Receive? && a.messageId == m), One(a == Expire(m)), m)
  {
  }

  /**
   Over every run: at most five receives, each counted, each but the first after a timeout; dead letters had all
   five.
   */
  lemma {:induction false} MessageCounts(c: Config, s: Sys, trace: seq<Action>, m: Id)
    requires BoxesAreSound(s.sqs) && IsTrace(c, s, trace) && (m in s.sqs.queue || m !in s.sqs.sent)
    ensures CountsAgree(s.sqs, End(c, s, trace).sqs, Receives(trace, m), Timeouts(trace, m), m)
    decreases |trace|
  {
    if trace != [] {
      var a := trace[0];
      var r := Next(c, s, a);
      ActionCounts(c, s, a, m);
      KeepsBoxes(c, s, a);
      if IsOut(r.sqs, m) {
        OutForGood(c, r, trace[1..], m);
      } else {
        MessageCounts(c, r, trace[1..], m);
      }
    }
  }

  lemma {:induction false} BoxesStaySound(c: Config, s: Sys, trace: seq<Action>)
    requires BoxesAreSound(s.sqs) && IsTrace(c, s, trace)
    ensures BoxesAreSound(End(c, s, trace).sqs)
    decreases |trace|
  {
    if trace != [] {
      KeepsBoxes(c, s, trace[0]);
      BoxesStaySound(c, Next(c, s, trace[0]), trace[1..]);
    }
  }

  lemma {:induction false} TimeoutsFollowReceives(c: Config, s: Sys, trace: seq<Action>, m: Id)
    requires BoxesAreSound(s.sqs) && IsTrace(c, s, trace) && (m in s.sqs.queue || m !in s.sqs.sent)
    ensures Receives(trace, m) + InFlight(s.sqs, m) <= Timeouts(trace, m) + 1
    decreases |trace|
  {
    if trace != [] {
      var a := trace[0];
      var r := Next(c, s, a);
      ActionCounts(c, s, a, m);
      KeepsBoxes(c, s, a);
      if IsOut(r.sqs, m) {
        OutForGood(c, r, trace[1..], m);
      } else {
        TimeoutsFollowReceives(c, r, trace[1..], m);
      }
    }
  }

  /** From an empty system: the limit, the count, and the timeouts between receives, with the numbers written out. */
  lemma FiveReceives(c: Config, s: Sys, trace: seq<Action>, m: Id)
    requires Initial(c, s) && IsTrace(c, s, trace)
    ensures var q := End(c, s, trace).sqs;
            && Receives(trace, m) <= 5 && Receives(trace, m) <= Timeouts(trace, m) + 1
            && (m in q.queue ==> q.queue[m].receives == Receives(trace, m))
            && (m in q.queue ==> (q.queue[m].visible <==> Receives(trace, m) == Timeouts(trace, m)))
            && (m in q.dlq ==> q.dlq[m].receives == 5 && Receives(trace, m) == 5 && Timeouts(trace, m) == 5)
  {
    MessageCounts(c, s, trace, m);
    BoxesStaySound(c, s, trace);
    TimeoutsFollowReceives(c, s, trace, m);
  }

  // --- Where it ends

  lemma ActionMoves(c: Config, s: Sys, a: Action, m: Id)
    requires BoxesAreSound(s.sqs) && Possible(c, s, a) && m in s.sqs.queue
    ensures m in SqsAfter(c, s, a).queue <==> !Deletes(s, a, m) && a != Redrive(m)
    ensures m in SqsAfter(c, s, a).dlq <==> a == Redrive(m)
  {
  }

  /**
   A queued message stays until a task deletes it or it is redriven; and it is a dead letter exactly if it was
   redriven.
   */
  lemma {:induction false} WhereMessagesEnd(c: Config, s: Sys, trace: seq<Action>, m: Id)
    requires BoxesAreSound(s.sqs) && IsTrace(c, s, trace) && m in s.sqs.queue
    ensures m in End(c, s, trace).sqs.queue <==> !IsDeleted(c, s, trace, m) && !IsRedriven(trace, m)
    ensures m in End(c, s, trace).sqs.dlq <==> IsRedriven(trace, m)
    decreases |trace|
  {
    if trace != [] {
      var a, rest := trace[0], trace[1..];
      var r := Next(c, s, a);
      ActionMoves(c, s, a, m);
      KeepsBoxes(c, s, a);
      assert IsRedriven(trace, m) <==> a == Redrive(m) || IsRedriven(rest, m) by {
        assert trace == [a] + rest;
      }
      if m in r.sqs.queue {
        WhereMessagesEnd(c, r, rest, m);
      } else {
        OutForGood(c, r, rest, m);
      }
    }
  }

  // --- What a task does

  /** The caller does not hear of success. */
  predicate EndsInError(a: Action) {
    match a
    case CommitTxn(_, replied) => !replied
    case RollBack(_, replied) => !replied
    case Publish(_, _, acknowledged) => !acknowledged
    case Delete(_, removed) => !removed
    case Fail(_) => true
    case _ => false
  }

  /** A task that fails is gone, and its message is where it was, to be received again. */
  lemma FailedTaskLeavesMessage(c: Config, s: Sys, a: Action)
    requires Possible(c, s, a) && EndsInError(a)
    ensures TaskOf(a).Some? && TaskOf(a).value !in Next(c, s, a).tasks
    ensures Next(c, s, a).sqs == s.sqs
  {
  }

  /** No driver: the task returns and leaves the message for another attempt. */
  lemma NoDriverLeavesMessage(c: Config, s: Sys, t: Id)
    requires Possible(c, s, RollBack(t, true)) && s.db.txns[t].phase.Selected?
    ensures t !in Next(c, s, RollBack(t, true)).tasks && Next(c, s, RollBack(t, true)).sqs == s.sqs
  {
  }

  /** An order already handled, and an acknowledged event: the message may be deleted. */
  lemma HandledMayBeDeleted(c: Config, s: Sys, a: Action, t: Id, removed: bool)
    requires Possible(c, s, a)
    requires a == Publish(t, true, true) || (a == RollBack(t, true) && s.db.txns[t].phase.NotClaimed?)
    ensures Possible(c, Next(c, s, a), Delete(t, removed))
  {
  }

  /** A commit that is heard of is to be published, with the ids and the distance of its row. */
  lemma CommittedMayBePublished(c: Config, s: Sys, t: Id, accepted: bool)
    requires DbInv(c, s.db) && Possible(c, s, CommitTxn(t, true))
    ensures var r := Next(c, s, CommitTxn(t, true));
            && Possible(c, r, Publish(t, accepted, accepted)) && t in r.tasks && r.tasks[t].stage.Publishing?
            && MatchesRow(LedgerOf(r), r.tasks[t].stage.event)
  {
    TablesMove(c, s, CommitTxn(t, true));
  }

  lemma DeleterComesFrom(c: Config, s: Sys, a: Action, t: Id)
    requires Possible(c, s, a) && AtStage(Next(c, s, a), t, Deleting)
    ensures AtStage(s, t, Deleting) || a == Publish(t, true, true) || a == RollBack(t, true)
  {
  }

  /** Nobody deletes before the bus has acknowledged the event, unless the order was handled before. */
  lemma {:induction false} DeletersWereAcknowledged(c: Config, s: Sys, trace: seq<Action>, t: Id)
    requires IsTrace(c, s, trace) && AtStage(End(c, s, trace), t, Deleting)
    ensures AtStage(s, t, Deleting) || Publish(t, true, true) in trace || RollBack(t, true) in trace
    decreases |trace|
  {
    if trace != [] {
      DeletersWereAcknowledged(c, Next(c, s, trace[0]), trace[1..], t);
      assert trace == [trace[0]] + trace[1..];
      if AtStage(Next(c, s, trace[0]), t, Deleting) {
        DeleterComesFrom(c, s, trace[0], t);
      }
    }
  }

  // --- Anything may fail at any time

  /** The same call, failing; a publish may fail for the caller and still be accepted. */
  function Failing(a: Action, accepted: bool): Action {
    match a
    case Announce(o, m, _) => Announce(o, m, false)
    case PutDriver(d, _, _, _) => CancelPut(d)
    case Receive(w, m, _) => Receive(w, m, false)
    case CommitTxn(t, _) => CommitTxn(t, false)
    case RollBack(t, _) => RollBack(t, false)
    case Publish(t, _, _) => Publish(t, accepted, false)
    case Delete(t, _) => Delete(t, false)
    case _ => a
  }

  /** Wherever a call can be made it can also fail. */
  lemma CallsMayFail(c: Config, s: Sys, a: Action, accepted: bool)
    requires Possible(c, s, a)
    ensures Possible(c, s, Failing(a, accepted))
  {
  }

  /** A task may die at any await, and with it its transaction. */
  lemma TasksMayDie(c: Config, s: Sys, t: Id)
    requires TasksOwnTxns(s) && t in s.tasks
    ensures Possible(c, s, Fail(t)) && t !in Next(c, s, Fail(t)).tasks && t !in Next(c, s, Fail(t)).db.txns
  {
    assert s.tasks[t].stage.InTxn? ==> OwnsTxn(s.tasks, s.db, t);
    assert t in s.db.txns ==> AtStage(s, t, InTxn);
  }

  /** A worker may restart with messages in hand, and a timeout may be over at any moment. */
  lemma WorkersMayRestart(c: Config, s: Sys, w: Id, m: Id)
    ensures w in s.loops && s.loops[w].batch != [] ==> Possible(c, s, Restart(w))
    ensures w in s.loops && s.loops[w].batch != [] ==> Next(c, s, Restart(w)).loops[w].batch == []
    ensures m in s.sqs.queue && !s.sqs.queue[m].visible ==> Possible(c, s, Expire(m))
  {
  }

  // --- Announcements

  /** The message was stored for this order, or its publish failed. */
  predicate IsAnnounced(trace: seq<Action>, o: Id, m: Id, stored: bool) {
    Announce(o, m, stored) in trace
  }

  predicate FailedToAnnounce(trace: seq<Action>, o: Id) {
    exists i :: 0 <= i < |trace| && trace[i].Announce? && trace[i].orderId == o && !trace[i].stored
  }

  /** An order is unannounced if and only if publishing its message failed. */
  lemma {:induction false} UnannouncedIffFailed(c: Config, s: Sys, trace: seq<Action>, o: Id)
    requires IsTrace(c, s, trace)
    ensures o in End(c, s, trace).api.unannounced <==> o in s.api.unannounced || FailedToAnnounce(trace, o)
    decreases |trace|
  {
    if trace != [] {
      var a, rest := trace[0], trace[1..];
      UnannouncedIffFailed(c, Next(c, s, a), rest, o);
      assert FailedToAnnounce(trace, o) <==>
             (a.Announce? && a.orderId == o && !a.stored) || FailedToAnnounce(rest, o) by {
        assert forall i | 0 <= i < |rest| :: trace[i + 1] == rest[i];
        assert forall i | 0 < i < |trace| :: trace[i] == rest[i - 1];
      }
    }
  }

  lemma {:induction false} NotAnnouncedAgain(c: Config, s: Sys, trace: seq<Action>, m: Id)
    requires IsTrace(c, s, trace) && m in s.sqs.sent
    ensures forall o, stored :: !IsAnnounced(trace, o, m, stored)
    decreases |trace|
  {
    if trace != [] {
      SentOnlyGrows(c, s, trace[0], m);
      NotAnnouncedAgain(c, Next(c, s, trace[0]), trace[1..], m);
      assert trace == [trace[0]] + trace[1..];
      forall o, stored ensures !IsAnnounced(trace, o, m, stored) {
        assert !IsAnnounced(trace[1..], o, m, stored);
        assert trace[0] != Announce(o, m, stored);
      }
    }
  }

  /** A message exists for an order if and only if it was stored by the announcement of that order. */
  lemma {:induction false} StoredIffAnnounced(c: Config, s: Sys, trace: seq<Action>, o: Id, m: Id)
    requires IsTrace(c, s, trace)
    ensures var q := End(c, s, trace).sqs;
            m in q.sent && q.sent[m] == o <==> (m in s.sqs.sent && s.sqs.sent[m] == o) || IsAnnounced(trace, o, m, true)
    decreases |trace|
  {
    if trace != [] {
      var a, rest := trace[0], trace[1..];
      assert trace == [a] + rest;
      StoredIffAnnounced(c, Next(c, s, a), rest, o, m);
      if m in s.sqs.sent {
        NotAnnouncedAgain(c, s, trace, m);
      }
    }
  }

  /** No order has two messages, and one still to be announced has none. */
  ghost predicate OneMessagePerOrder(s: Sys) {
    && (forall m, n | m in s.sqs.sent && n in s.sqs.sent && s.sqs.sent[m] == s.sqs.sent[n] :: m == n)
    && (forall m | m in s.sqs.sent :: s.sqs.sent[m] in s.db.tables.orders && s.sqs.sent[m] !in s.api.announcing)
  }

  lemma KeepsOneMessage(c: Config, s: Sys, a: Action)
    requires DbInv(c, s.db) && OneMessagePerOrder(s) && Possible(c, s, a)
    ensures OneMessagePerOrder(Next(c, s, a))
  {
    TablesGrow(c, s, a);
    var r := Next(c, s, a);
    forall m | m in r.sqs.sent ensures r.sqs.sent[m] in r.db.tables.orders && r.sqs.sent[m] !in r.api.announcing {
      assert m in s.sqs.sent || (a.Announce? && a.messageId == m);
    }
  }

  lemma {:induction false} OrdersAreAnnouncedOnce(c: Config, s: Sys, trace: seq<Action>)
    requires Invariant(c, s) && OneMessagePerOrder(s) && IsTrace(c, s, trace)
    ensures OneMessagePerOrder(End(c, s, trace))
    decreases |trace|
  {
    if trace != [] {
      KeepsOneMessage(c, s, trace[0]);
      ActionKeepsInvariant(c, s, trace[0]);
      OrdersAreAnnouncedOnce(c, Next(c, s, trace[0]), trace[1..]);
    }
  }

  // --- Batches

  lemma BatchStaysSmall(c: Config, s: Sys, a: Action)
    requires Possible(c, s, a) && forall w | w in s.loops :: |s.loops[w].batch| <= 10
    ensures forall w | w in LoopsAfter(c, s, a) :: |LoopsAfter(c, s, a)[w].batch| <= 10
  {
  }

  /** A batch never holds more than the ten messages of one receive call. */
  lemma {:induction false} BatchesHoldTen(c: Config, s: Sys, trace: seq<Action>)
    requires IsTrace(c, s, trace) && forall w | w in s.loops :: |s.loops[w].batch| <= 10
    ensures forall w | w in End(c, s, trace).loops :: |End(c, s, trace).loops[w].batch| <= 10
    decreases |trace|
  {
    if trace != [] {
      BatchStaysSmall(c, s, trace[0]);
      BatchesHoldTen(c, Next(c, s, trace[0]), trace[1..]);
    }
  }

  /** And a polling worker can get any visible message until it has ten, if that was received less than five times. */
  lemma PollersMayReceive(c: Config, s: Sys, w: Id, m: Id, delivered: bool)
    requires w in s.loops && !s.loops[w].dispatching && |s.loops[w].batch| < 10
    requires m in s.sqs.queue && s.sqs.queue[m].visible && s.sqs.queue[m].receives < 5
    ensures Possible(c, s, Receive(w, m, delivered))
  {
  }

  /** A received message is the last of the batch, in the words of the queue; a lost reply hands over nothing. */
  lemma ReceivedIsHandedOver(c: Config, s: Sys, w: Id, m: Id, delivered: bool)
    requires Possible(c, s, Receive(w, m, delivered))
    ensures var r, msg := Next(c, s, Receive(w, m, delivered)), s.sqs.queue[m];
            && w in r.loops && r.tasks == s.tasks
            && (forall v | v in s.loops && v != w :: v in r.loops && r.loops[v] == s.loops[v])
            && r.loops[w].batch ==
               s.loops[w].batch + (if delivered then [Receipt(m, msg.orderId, msg.pickup)] else [])
  {
  }

  /** Each message of a batch goes to one task of its own, in the order of the batch. */
  lemma SpawnTakesFirst(c: Config, s: Sys, w: Id, t: Id)
    requires Possible(c, s, Spawn(w, t))
    ensures var r := Next(c, s, Spawn(w, t));
            && t !in s.tasks && t in r.tasks && r.tasks[t].worker == w && w in r.loops
            && s.loops[w].batch == [r.tasks[t].delivery] + r.loops[w].batch
            && (forall u | u in s.tasks :: u in r.tasks && r.tasks[u] == s.tasks[u])
  {
  }

  /** The API may create any new order at any time, and start an upsert of any driver whose row is free. */
  lemma ApiMayAct(c: Config, s: Sys, o: Id, d: Id, m: Id, name: string, p: GeoPoint, q: GeoPoint, status: DriverStatus)
    requires ValidPoint(p) && ValidPoint(q)
    ensures o !in s.db.tables.orders ==> Possible(c, s, CreateOrder(o, p, q))
    ensures o in s.api.announcing && o in s.db.tables.orders && m !in s.sqs.sent ==>
              Possible(c, s, Announce(o, m, true))
    ensures !DriverLocked(s.db, d) ==> Possible(c, s, StartPut(d))
    ensures d in s.db.held ==> Possible(c, s, PutDriver(d, name, p, status))
  {
  }
}

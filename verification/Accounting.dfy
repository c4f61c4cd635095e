/**
 Where the event of every committed assignment is: on the bus, with the worker task that committed it, or lost.
 Kept as a ledger, of which each action of the pipeline posts at most one entry.
 */
module Accounting {
  import opened Model
  import opened Database
  import opened LockSoundness
  import opened Pipeline
  import opened Delivery

  /** Assignment rows, the bus, the lost events, and the events tasks hold between commit and publish. */
  datatype Ledger = Ledger(rows: map<Id, Assignment>, events: Events, held: map<Id, DispatchAssigned>)

  datatype Entry =
    | NoEntry
    | Opened(task: Id, event: DispatchAssigned)
    | OpenedAndLost(event: DispatchAssigned)
    | Accepted(task: Id)
    | Dropped(task: Id)

  ghost function HeldBy(tasks: map<Id, Task>): map<Id, DispatchAssigned> {
    map t | t in tasks && tasks[t].stage.Publishing? :: tasks[t].stage.event
  }

  ghost function LedgerOf(s: Sys): Ledger {
    Ledger(s.db.tables.assignments, s.events, HeldBy(s.tasks))
  }

  function RowFor(e: DispatchAssigned): Assignment {
    Assignment(e.orderId, e.driverId, e.distance)
  }

  ghost predicate CanPost(l: Ledger, entry: Entry) {
    match entry
    case NoEntry => true
    case Opened(t, e) => t !in l.held && e.assignmentId !in l.rows
    case OpenedAndLost(e) => e.assignmentId !in l.rows
    case Accepted(t) => t in l.held
    case Dropped(t) => t in l.held
  }

  ghost function Post(l: Ledger, entry: Entry): Ledger
    requires CanPost(l, entry)
  {
    match entry
    case NoEntry => l
    case Opened(t, e) => l.(rows := l.rows[e.assignmentId := RowFor(e)], held := l.held[t := e])
    case OpenedAndLost(e) =>
      l.(rows := l.rows[e.assignmentId := RowFor(e)], events := l.events.(lost := l.events.lost + {e.assignmentId}))
    case Accepted(t) => l.(events := l.events.(bus := l.events.bus + [l.held[t]]), held := l.held - {t})
    case Dropped(t) => l.(events := l.events.(lost := l.events.lost + {l.held[t].assignmentId}), held := l.held - {t})
  }

  function EntryOf(c: Config, s: Sys, a: Action): Entry
    requires Possible(c, s, a)
  {
    match a
    case CommitTxn(t, replied) =>
      var e := EventFor(c, s.db.txns[t]);
      if replied then Opened(t, e) else OpenedAndLost(e)
    case Publish(t, accepted, _) => if accepted then Accepted(t) else Dropped(t)
    case Fail(t) => if s.tasks[t].stage.Publishing? then Dropped(t) else NoEntry
    case _ => NoEntry
  }

  lemma HeldAfter(c: Config, s: Sys, a: Action)
    requires Possible(c, s, a)
    ensures HeldBy(TasksAfter(c, s, a))
         == match EntryOf(c, s, a)
            case NoEntry => HeldBy(s.tasks)
            case Opened(t, e) => HeldBy(s.tasks)[t := e]
            case OpenedAndLost(_) => HeldBy(s.tasks)
            case Accepted(t) => HeldBy(s.tasks) - {t}
            case Dropped(t) => HeldBy(s.tasks) - {t}
  {
  }

  /** Every action of the pipeline posts its entry, and nothing else touches the ledger. */
  lemma ActionsPostEntries(c: Config, s: Sys, a: Action)
    requires DbInv(c, s.db) && Possible(c, s, a)
    ensures CanPost(LedgerOf(s), EntryOf(c, s, a))
    ensures LedgerOf(Next(c, s, a)) == Post(LedgerOf(s), EntryOf(c, s, a))
  {
    TablesMove(c, s, a);
    HeldAfter(c, s, a);
  }

  ghost predicate OnBus(l: Ledger, a: Id) {
    exists i :: 0 <= i < |l.events.bus| && l.events.bus[i].assignmentId == a
  }

  ghost predicate IsHeld(l: Ledger, a: Id) {
    exists t :: t in l.held && l.held[t].assignmentId == a
  }

  ghost predicate MatchesRow(l: Ledger, e: DispatchAssigned) {
    e.assignmentId in l.rows && l.rows[e.assignmentId] == RowFor(e)
  }

  /** Exactly one of the three places, once, with the ids and the distance of the stored row. */
  ghost predicate Balanced(l: Ledger) {
    && (forall a | a in l.rows :: OnBus(l, a) || IsHeld(l, a) || a in l.events.lost)
    && (forall i | 0 <= i < |l.events.bus| :: MatchesRow(l, l.events.bus[i]))
    && (forall i, j | 0 <= i < j < |l.events.bus| :: l.events.bus[i].assignmentId != l.events.bus[j].assignmentId)
    && (forall t | t in l.held ::
          MatchesRow(l, l.held[t]) && !OnBus(l, l.held[t].assignmentId) && l.held[t].assignmentId !in l.events.lost)
    && (forall t, u | t in l.held && u in l.held && l.held[t].assignmentId == l.held[u].assignmentId :: t == u)
    && (forall a | a in l.events.lost :: a in l.rows && !OnBus(l, a))
  }

  lemma OpeningCovers(l: Ledger, entry: Entry, a: Id)
    requires Balanced(l) && CanPost(l, entry) && (entry.Opened? || entry.OpenedAndLost?) && a in Post(l, entry).rows
    ensures var r := Post(l, entry); OnBus(r, a) || IsHeld(r, a) || a in r.events.lost
  {
    var r := Post(l, entry);
    if a == entry.event.assignmentId {
      assert entry.Opened? ==> entry.task in r.held && r.held[entry.task].assignmentId == a;
    } else if IsHeld(l, a) {
      var t :| t in l.held && l.held[t].assignmentId == a;
      assert t in r.held && r.held[t].assignmentId == a;
    } else {
      assert OnBus(l, a) ==> OnBus(r, a);
    }
  }

  lemma UnusedIdIsNowhere(l: Ledger, a: Id)
    requires Balanced(l) && a !in l.rows
    ensures !OnBus(l, a) && !IsHeld(l, a) && a !in l.events.lost
  {
    forall i | 0 <= i < |l.events.bus| ensures l.events.bus[i].assignmentId != a {
      assert MatchesRow(l, l.events.bus[i]);
    }
  }

  lemma OpeningKeepsBalance(l: Ledger, entry: Entry)
    requires Balanced(l) && CanPost(l, entry) && (entry.Opened? || entry.OpenedAndLost?)
    ensures Balanced(Post(l, entry))
  {
    var r, a := Post(l, entry), entry.event.assignmentId;
    UnusedIdIsNowhere(l, a);
    assert forall b :: OnBus(r, b) == OnBus(l, b);
    forall b | b in r.rows ensures OnBus(r, b) || IsHeld(r, b) || b in r.events.lost {
      OpeningCovers(l, entry, b);
    }
    forall i | 0 <= i < |r.events.bus| ensures MatchesRow(r, r.events.bus[i]) {
      assert MatchesRow(l, l.events.bus[i]);
    }
    forall t | t in r.held ensures MatchesRow(r, r.held[t]) {
      assert t in l.held ==> MatchesRow(l, l.held[t]);
    }
  }

  lemma OnBusAfter(l: Ledger, t: Id, a: Id)
    requires CanPost(l, Accepted(t))
    ensures OnBus(Post(l, Accepted(t)), a) <==> OnBus(l, a) || l.held[t].assignmentId == a
  {
    var r := Post(l, Accepted(t));
    assert r.events.bus[|l.events.bus|] == l.held[t];
    if OnBus(l, a) {
      var i :| 0 <= i < |l.events.bus| && l.events.bus[i].assignmentId == a;
      assert r.events.bus[i].assignmentId == a;
    }
  }

  lemma HeldElsewhere(l: Ledger, entry: Entry, t: Id, a: Id)
    requires CanPost(l, entry) && (entry == Accepted(t) || entry == Dropped(t))
    ensures IsHeld(l, a) ==> IsHeld(Post(l, entry), a) || l.held[t].assignmentId == a
  {
    if IsHeld(l, a) {
      var u :| u in l.held && l.held[u].assignmentId == a;
      assert u != t ==> u in Post(l, entry).held;
    }
  }

  lemma AcceptingKeepsBalance(l: Ledger, t: Id)
    requires Balanced(l) && CanPost(l, Accepted(t))
    ensures Balanced(Post(l, Accepted(t)))
  {
    var r := Post(l, Accepted(t));
    forall a ensures OnBus(r, a) <==> OnBus(l, a) || l.held[t].assignmentId == a {
      OnBusAfter(l, t, a);
    }
    assert MatchesRow(l, l.held[t]);
    forall a | a in r.rows ensures OnBus(r, a) || IsHeld(r, a) || a in r.events.lost {
      HeldElsewhere(l, Accepted(t), t, a);
    }
    forall i | 0 <= i < |r.events.bus| ensures MatchesRow(r, r.events.bus[i]) {
      assert i < |l.events.bus| ==> MatchesRow(l, l.events.bus[i]);
    }
  }

  lemma DroppingKeepsBalance(l: Ledger, t: Id)
    requires Balanced(l) && CanPost(l, Dropped(t))
    ensures Balanced(Post(l, Dropped(t)))
  {
    var r := Post(l, Dropped(t));
    assert MatchesRow(l, l.held[t]);
    forall a ensures OnBus(r, a) <==> OnBus(l, a) {
    }
    forall a | a in r.rows ensures OnBus(r, a) || IsHeld(r, a) || a in r.events.lost {
      HeldElsewhere(l, Dropped(t), t, a);
    }
    forall i | 0 <= i < |r.events.bus| ensures MatchesRow(r, r.events.bus[i]) {
      assert MatchesRow(l, l.events.bus[i]);
    }
  }

  lemma PostingKeepsBalance(l: Ledger, entry: Entry)
    requires Balanced(l) && CanPost(l, entry)
    ensures Balanced(Post(l, entry))
  {
    match entry
    case NoEntry =>
    case Opened(_, _) => OpeningKeepsBalance(l, entry);
    case OpenedAndLost(_) => OpeningKeepsBalance(l, entry);
    case Accepted(t) => AcceptingKeepsBalance(l, t);
    case Dropped(t) => DroppingKeepsBalance(l, t);
  }

  /**
   The accounting holds in every reachable state: nothing is published twice, and what is missing is exactly what
   was lost or is held.
   */
  lemma {:induction false} TraceKeepsBalance(c: Config, s: Sys, trace: seq<Action>)
    requires Invariant(c, s) && Balanced(LedgerOf(s)) && IsTrace(c, s, trace)
    ensures Balanced(LedgerOf(End(c, s, trace)))
    decreases |trace|
  {
    if trace != [] {
      ActionsPostEntries(c, s, trace[0]);
      PostingKeepsBalance(LedgerOf(s), EntryOf(c, s, trace[0]));
      ActionKeepsInvariant(c, s, trace[0]);
      TraceKeepsBalance(c, Next(c, s, trace[0]), trace[1..]);
    }
  }
}

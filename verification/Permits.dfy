/** Conservation of semaphore permits, and the bound they and the pool put on work in progress. */
module Permits {
  import opened FiniteSets
  import opened Model
  import opened Database
  import opened Pipeline

  function Held(l: PollLoop): nat {
    if l.holding then 1 else 0
  }

  /** Free permits, the one the loop holds and those of its running tasks are always all of them. */
  ghost predicate PermitsConserved(c: Config, s: Sys) {
    && (forall w | w in s.loops :: s.loops[w].free + Held(s.loops[w]) + |TasksOf(s.tasks, w)| == c.maxInFlight)
    && (forall w | w in s.loops && s.loops[w].holding :: s.loops[w].dispatching && s.loops[w].batch != [])
    && (forall t | t in s.tasks :: s.tasks[t].worker in s.loops)
  }

  ghost predicate PoolRespected(c: Config, s: Sys) {
    forall w | w in s.loops :: |TxnsOf(s.tasks, w)| <= c.poolSize
  }

  lemma SpawnConserves(c: Config, s: Sys, a: Action, w: Id)
    requires PermitsConserved(c, s) && Possible(c, s, a) && a.Spawn? && w in s.loops
    ensures var l := IdleLoopsAfter(c, s, a)[w];
            l.free + Held(l) + |TasksOf(TasksAfter(c, s, a), w)| == c.maxInFlight
  {
    assert TasksOf(TasksAfter(c, s, a), a.worker) == TasksOf(s.tasks, a.worker) + {a.task};
    assert w != a.worker ==> TasksOf(TasksAfter(c, s, a), w) == TasksOf(s.tasks, w);
  }

  lemma LoopStepConserves(c: Config, s: Sys, a: Action, w: Id)
    requires PermitsConserved(c, s) && Possible(c, s, a) && TaskOf(a).None? && w in s.loops
    ensures var l := IdleLoopsAfter(c, s, a)[w];
            && l.free + Held(l) + |TasksOf(TasksAfter(c, s, a), w)| == c.maxInFlight
            && (l.holding ==> l.dispatching && l.batch != [])
  {
    if a.Spawn? {
      SpawnConserves(c, s, a, w);
    } else {
      assert TasksAfter(c, s, a) == s.tasks;
    }
  }

  lemma TaskStepConserves(c: Config, s: Sys, a: Action, w: Id)
    requires PermitsConserved(c, s) && Possible(c, s, a) && TaskOf(a).Some? && w in s.loops
    ensures var l := LoopsAfter(c, s, a)[w];
            && l.free + Held(l) + |TasksOf(TasksAfter(c, s, a), w)| == c.maxInFlight
            && (l.holding ==> l.dispatching && l.batch != [])
  {
    var t := TaskOf(a).value;
    var v := s.tasks[t].worker;
    if StageAfter(c, s, a).None? {
      assert TasksOf(s.tasks, v) == TasksOf(TasksAfter(c, s, a), v) + {t};
      assert w != v ==> TasksOf(TasksAfter(c, s, a), w) == TasksOf(s.tasks, w);
    } else {
      assert TasksOf(TasksAfter(c, s, a), w) == TasksOf(s.tasks, w);
    }
  }

  lemma ActionConservesPermits(c: Config, s: Sys, a: Action)
    requires PermitsConserved(c, s) && Possible(c, s, a)
    ensures PermitsConserved(c, Next(c, s, a))
  {
    var r := Next(c, s, a);
    assert r.loops.Keys == s.loops.Keys;
    forall w | w in r.loops
      ensures && r.loops[w].free + Held(r.loops[w]) + |TasksOf(r.tasks, w)| == c.maxInFlight
              && (r.loops[w].holding ==> r.loops[w].dispatching && r.loops[w].batch != [])
    {
      if TaskOf(a).None? {
        LoopStepConserves(c, s, a, w);
      } else {
        TaskStepConserves(c, s, a, w);
      }
    }
  }

  /** Only BEGIN opens a transaction. */
  lemma OnlyBeginOpens(c: Config, s: Sys, a: Action, w: Id)
    requires Possible(c, s, a) && !a.BeginTxn?
    ensures TxnsOf(TasksAfter(c, s, a), w) <= TxnsOf(s.tasks, w)
  {
  }

  lemma BeginOpensOne(c: Config, s: Sys, a: Action, w: Id)
    requires Possible(c, s, a) && a.BeginTxn?
    ensures TxnsOf(TasksAfter(c, s, a), w) ==
              TxnsOf(s.tasks, w) + (if s.tasks[a.task].worker == w then {a.task} else {})
  {
    assert TasksAfter(c, s, a) == s.tasks[a.task := s.tasks[a.task].(stage := InTxn)];
  }

  lemma ActionRespectsPool(c: Config, s: Sys, a: Action)
    requires PoolRespected(c, s) && Possible(c, s, a)
    ensures PoolRespected(c, Next(c, s, a))
  {
    assert LoopsAfter(c, s, a).Keys == s.loops.Keys;
    forall w | w in s.loops ensures |TxnsOf(TasksAfter(c, s, a), w)| <= c.poolSize {
      if a.BeginTxn? {
        BeginOpensOne(c, s, a, w);
      } else {
        OnlyBeginOpens(c, s, a, w);
        SubsetSize(TxnsOf(TasksAfter(c, s, a), w), TxnsOf(s.tasks, w));
      }
    }
  }

  lemma {:induction false} TraceConservesPermits(c: Config, s: Sys, trace: seq<Action>)
    requires PermitsConserved(c, s) && PoolRespected(c, s) && IsTrace(c, s, trace)
    ensures PermitsConserved(c, End(c, s, trace)) && PoolRespected(c, End(c, s, trace))
    decreases |trace|
  {
    if trace != [] {
      ActionConservesPermits(c, s, trace[0]);
      ActionRespectsPool(c, s, trace[0]);
      TraceConservesPermits(c, Next(c, s, trace[0]), trace[1..]);
    }
  }

  /** A worker never runs more tasks than its permits, nor more transactions than permits or connections allow. */
  lemma WorkIsBounded(c: Config, s: Sys, w: Id)
    requires PermitsConserved(c, s) && PoolRespected(c, s) && w in s.loops
    ensures |TasksOf(s.tasks, w)| <= c.maxInFlight
    ensures |TxnsOf(s.tasks, w)| <= c.poolSize && |TxnsOf(s.tasks, w)| <= c.maxInFlight
  {
    SubsetSize(TxnsOf(s.tasks, w), TasksOf(s.tasks, w));
  }
}

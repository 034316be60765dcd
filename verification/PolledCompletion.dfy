/**
 Polled mode, realtime build, fair locks: from which states the mapping updates,
 the pass and the queries in flight can still be finished.
 */
module PolledCompletion {
  import opened Options
  import opened Mappings
  import opened Protocol
  import opened Invariant
  import opened Locks
  import opened Progress
  import opened PolledTable
  import opened Reconcile

  // The keys for which a pass has yet to read the mapping, should they be missing.
  function Ahead(s: State, task: Task): set<Key> {
    match task
    case PassCloning => s.secrets.reverse.Keys
    case PassCloned(_, _) => s.secrets.reverse.Keys
    case PassSyncing(p) => p.todo
    case CheckKey(k, ToPass(p)) => p.todo + {k}
    case CheckedKey(k, ToPass(p), _) => p.todo + {k}
    case CliWant(Create(k, ToPass(p))) => p.todo + {k}
    case CliQueued(Create(k, ToPass(p))) => p.todo + {k}
    case CliHeld(Create(k, ToPass(p))) => p.todo + {k}
    case NotifyWant(k, ToPass(p)) => p.todo + {k}
    case NotifyHeld(k, ToPass(p), _, _) => p.todo - {k}
    case Notified(k, ToPass(p), _, _) => p.todo - {k}
    case _ => {}
  }

  // The pass has a client to create for which it must yet read the mapping.
  ghost predicate Owes(s: State, task: Task) {
    exists k :: k in Ahead(s, task) && k !in s.clients
  }

  ghost predicate PassOwes(s: State) {
    exists t | t in s.threads :: Owes(s, s.threads[t].task)
  }

  ghost predicate WriterQueued(s: State) {
    exists t | t in s.threads :: s.threads[t].task.MapQueued?
  }

  // The pass will wait for the queued writer, which waits for the pass.
  ghost predicate PassDoomed(s: State) {
    WriterQueued(s) && PassOwes(s)
  }

  lemma OwesReads(s: State, task: Task)
    requires Owes(s, task)
    ensures InPass(task) && ReadsMap(task) && !WritesMap(task) && !task.PassRemoving?
  {
  }

  // ---------------------------------------------------------------------
  // Once doomed, always doomed
  // ---------------------------------------------------------------------

  lemma AheadAfter(cfg: Config, s: State, t: Tid, ch: Choice, k: Key)
    requires cfg.realtime && CanMove(cfg, s, t, ch) && !s.threads[t].task.NotifyWant?
    requires k in Ahead(s, s.threads[t].task) && k !in s.clients
    requires s.threads[t].task.CheckedKey? ==> s.threads[t].task.missing == (s.threads[t].task.key !in s.clients)
    requires s.threads[t].task.PassCloned? ==> s.secrets.version > 0
    ensures k in Ahead(Moved(cfg, s, t, ch), NextTask(cfg, s, s.threads[t].task, ch))
    ensures k !in Moved(cfg, s, t, ch).clients
  {
  }

  lemma OwesStays(cfg: Config, s: State, t: Tid, ch: Choice)
    requires PolledTableInv(cfg, s) && cfg.realtime && CanMove(cfg, s, t, ch)
    requires Owes(s, s.threads[t].task) && !s.threads[t].task.NotifyWant?
    ensures Owes(Moved(cfg, s, t, ch), NextTask(cfg, s, s.threads[t].task, ch))
  {
    var k :| k in Ahead(s, s.threads[t].task) && k !in s.clients;
    assert LockFacts(s, s.threads[t].task);
    AheadAfter(cfg, s, t, ch, k);
  }

  lemma OwesOther(cfg: Config, s: State, t: Tid, u: Tid, ch: Choice)
    requires PolledTableInv(cfg, s) && CanMove(cfg, s, u, ch)
    requires t in s.threads && t != u && InPass(s.threads[t].task)
    ensures Owes(Moved(cfg, s, u, ch), s.threads[t].task) <==> Owes(s, s.threads[t].task)
  {
    assert Belongs(cfg, s.threads[t].op, s.threads[t].task);
    OthersLeaveTable(cfg, s, t, u, ch);
    assert ReadsMap(s.threads[t].task);
    Frames(cfg, s, u, ch);
  }

  lemma PassDoomedBy(s: State, t: Tid, w: Tid)
    requires t in s.threads && Owes(s, s.threads[t].task)
    requires w in s.threads && s.threads[w].task.MapQueued?
    ensures PassDoomed(s)
  {
  }

  lemma PassDoomedMove(cfg: Config, s: State, u: Tid, ch: Choice, t: Tid, w: Tid)
    requires PolledTableInv(cfg, s) && cfg.realtime && cfg.fair && CanMove(cfg, s, u, ch)
    requires t in s.threads && Owes(s, s.threads[t].task)
    requires w in s.threads && s.threads[w].task.MapQueued?
    ensures PassDoomed(Moved(cfg, s, u, ch))
  {
    OwesReads(s, s.threads[t].task);
    assert w != u;
    if u == t {
      OwesStays(cfg, s, t, ch);
    } else {
      OwesOther(cfg, s, t, u, ch);
    }
    PassDoomedBy(Moved(cfg, s, u, ch), t, w);
  }

  lemma PassDoomedStep(cfg: Config, s: State, a: Action)
    requires PolledTableInv(cfg, s) && cfg.realtime && cfg.fair && PassDoomed(s) && Enabled(cfg, s, a)
    ensures PassDoomed(Apply(cfg, s, a))
  {
    match a
    case Move(u, ch) =>
      var w :| w in s.threads && s.threads[w].task.MapQueued?;
      var t :| t in s.threads && Owes(s, s.threads[t].task);
      PassDoomedMove(cfg, s, u, ch, t, w);
    case _ =>
      PassStillDoomed(cfg, s, a);
  }

  lemma PassStillDoomed(cfg: Config, s: State, a: Action)
    requires Enabled(cfg, s, a) && !a.Move? && PassDoomed(s)
    ensures PassDoomed(Apply(cfg, s, a))
  {
    var w :| w in s.threads && s.threads[w].task.MapQueued?;
    var t :| t in s.threads && Owes(s, s.threads[t].task);
    assert Owes(Apply(cfg, s, a), s.threads[t].task);
    PassDoomedBy(Apply(cfg, s, a), t, w);
  }

  lemma {:induction false} PassDoomedForever(cfg: Config, s: State, run: seq<Action>, end: State)
    requires cfg.mode == Polled && PolledTableInv(cfg, s) && cfg.realtime && cfg.fair
    requires PassDoomed(s) && Runs(cfg, s, run, end)
    ensures Unfinished(end)
    decreases |run|
  {
    if run == [] {
      var w :| w in s.threads && s.threads[w].task.MapQueued?;
      assert !s.threads[w].task.Done?;
    } else {
      PassDoomedStep(cfg, s, run[0]);
      PolledTableStep(cfg, s, run[0]);
      PassDoomedForever(cfg, Apply(cfg, s, run[0]), run[1..], end);
    }
  }

  // ---------------------------------------------------------------------
  // Until then, some step keeps clear of it
  // ---------------------------------------------------------------------

  // A pass only comes to owe by starting, which no queued writer allows.
  lemma OwedBefore(cfg: Config, s: State, t: Tid, ch: Choice)
    requires CanMove(cfg, s, t, ch)
    requires Owes(Moved(cfg, s, t, ch), NextTask(cfg, s, s.threads[t].task, ch))
    ensures s.threads[t].task.PassBegin? || Owes(s, s.threads[t].task)
  {
    var s' := Moved(cfg, s, t, ch);
    var k :| k in Ahead(s', NextTask(cfg, s, s.threads[t].task, ch)) && k !in s'.clients;
    if !s.threads[t].task.PassBegin? {
      AheadBefore(cfg, s, t, ch, k);
    }
  }

  lemma AheadBefore(cfg: Config, s: State, t: Tid, ch: Choice, k: Key)
    requires CanMove(cfg, s, t, ch) && !s.threads[t].task.PassBegin?
    requires k in Ahead(Moved(cfg, s, t, ch), NextTask(cfg, s, s.threads[t].task, ch))
    requires k !in Moved(cfg, s, t, ch).clients
    ensures k in Ahead(s, s.threads[t].task) && k !in s.clients
  {
  }

  lemma OwerBefore(cfg: Config, s: State, t: Tid, ch: Choice, u: Tid)
    requires PolledTableInv(cfg, s) && CanMove(cfg, s, t, ch) && u in s.threads
    requires Owes(Moved(cfg, s, t, ch), Moved(cfg, s, t, ch).threads[u].task)
    ensures s.threads[t].task.PassBegin? || Owes(s, s.threads[u].task)
  {
    if u == t {
      OwedBefore(cfg, s, t, ch);
    } else {
      OwesReads(Moved(cfg, s, t, ch), s.threads[u].task);
      OwesOther(cfg, s, u, t, ch);
    }
  }

  lemma WriterBefore(cfg: Config, s: State, t: Tid, ch: Choice)
    requires CanMove(cfg, s, t, ch) && WriterQueued(Moved(cfg, s, t, ch))
    ensures s.threads[t].task.MapWant? || WriterQueued(s)
  {
  }

  lemma WhatDoomsPass(cfg: Config, s: State, t: Tid, ch: Choice)
    requires PolledTableInv(cfg, s) && cfg.fair && CanMove(cfg, s, t, ch)
    requires !PassDoomed(s) && PassDoomed(Moved(cfg, s, t, ch))
    ensures s.threads[t].task.MapWant? && PassOwes(s)
  {
    var s' := Moved(cfg, s, t, ch);
    var u :| u in s'.threads && Owes(s', s'.threads[u].task);
    OwerBefore(cfg, s, t, ch, u);
    WriterBefore(cfg, s, t, ch);
  }

  // With no writer queued, everybody but those about to queue for the mapping can
  // be let through until somebody moves.
  predicate StandsAside(s: State, task: Task) {
    Waits(s, task) || task.MapWant?
  }

  lemma TableFreeAside(s: State, t: Tid)
    requires t in s.threads && StandsAside(s, s.threads[t].task) && !s.threads[t].task.NotifyWant?
    ensures !WritesCli(s.threads[t].task) && !ReadsCli(s.threads[t].task)
  {
  }

  lemma PassFirst(cfg: Config, s: State) returns (t: Tid, ch: Choice)
    requires Inv(cfg, s) && PassOwes(s) && !WriterQueued(s)
    ensures CanMove(cfg, s, t, ch) && !s.threads[t].task.MapWant?
  {
    var p :| p in s.threads && Owes(s, s.threads[p].task);
    OwesReads(s, s.threads[p].task);
    assert CanReadMap(cfg, s);
    ch := Auto;
    if u :| u in s.threads && !StandsAside(s, s.threads[u].task) {
      t := u;
      ch := NoWaiting(cfg, s, u);
    } else if n :| n in s.threads && s.threads[n].task.NotifyWant? {
      t := n;
    } else {
      t := TableQueueMoves(cfg, s, p);
    }
  }

  lemma TableQueueMoves(cfg: Config, s: State, p: Tid) returns (t: Tid)
    requires p in s.threads && InPass(s.threads[p].task) && !s.threads[p].task.PassRemoving?
    requires forall u | u in s.threads :: StandsAside(s, s.threads[u].task) && !s.threads[u].task.NotifyWant?
    ensures CanMove(cfg, s, t, Auto) && !s.threads[t].task.MapWant?
  {
    forall u | u in s.threads ensures !WritesCli(s.threads[u].task) && !ReadsCli(s.threads[u].task) {
      TableFreeAside(s, u);
    }
    if w :| w in s.threads && s.threads[w].task.CliQueued? {
      t := w;
    } else {
      assert StandsAside(s, s.threads[p].task) && CanReadCli(cfg, s);
      t := p;
    }
  }

  lemma NotifierOwes(cfg: Config, s: State, n: Tid)
    requires PolledTableInv(cfg, s) && n in s.threads && s.threads[n].task.NotifyWant?
    ensures PassOwes(s)
  {
    var task := s.threads[n].task;
    assert Belongs(cfg, s.threads[n].op, task) && Creating(task) == Some(task.key);
    assert task.key in Ahead(s, task) && task.key !in s.clients;
    assert Owes(s, task);
  }

  lemma PassNotOwing(cfg: Config, s: State)
    requires PolledTableInv(cfg, s) && Unfinished(s) && !PassOwes(s)
    ensures CanStep(cfg, s)
  {
    SomebodyMoves(cfg, s);
    if n, w :| NotifierBehindWriter(s, n, w) {
      NotifierOwes(cfg, s, n);
    }
  }

  lemma ClearMovePolled(cfg: Config, s: State) returns (t: Tid, ch: Choice)
    requires PolledTableInv(cfg, s) && cfg.fair && Unfinished(s) && !PassDoomed(s)
    ensures CanMove(cfg, s, t, ch) && !PassDoomed(Moved(cfg, s, t, ch))
  {
    if PassOwes(s) {
      t, ch := PassFirst(cfg, s);
    } else {
      PassNotOwing(cfg, s);
      t, ch :| CanMove(cfg, s, t, ch);
    }
    if PassDoomed(Moved(cfg, s, t, ch)) {
      WhatDoomsPass(cfg, s, t, ch);
    }
  }

  lemma {:induction false} PassFinishesUnlessDoomed(cfg: Config, s: State)
    requires cfg.mode == Polled && Reachable(cfg, s) && cfg.fair && !PassDoomed(s)
    ensures CanAllFinish(cfg, s)
    decreases Sum(EarlyMap(s.threads)), Sum(WorkMap(s.threads))
  {
    if !Unfinished(s) {
      assert OnlyMoves([]) && Runs(cfg, s, [], s);
    } else {
      ReachablePolledTable(cfg, s);
      var t, ch := ClearMovePolled(cfg, s);
      StepShrinks(cfg, s, t, ch);
      ReachableStep(cfg, s, Move(t, ch));
      PassFinishesUnlessDoomed(cfg, Moved(cfg, s, t, ch));
      CanAllFinishAfter(cfg, s, t, ch);
    }
  }

  /**
   Polled mode, every build: the calls in flight can all be finished if and only if
   the build is not realtime with fair locks, or no mapping update is queued while the
   pass in progress has yet to read the mapping for a client it must create.
   */
  lemma PolledFinishableIff(cfg: Config, s: State)
    requires cfg.mode == Polled && Reachable(cfg, s)
    ensures CanAllFinish(cfg, s) <==> !(cfg.realtime && cfg.fair && PassDoomed(s))
  {
    if !(cfg.realtime && cfg.fair) {
      var run, end := AllCallsCanFinish(cfg, s);
    } else if PassDoomed(s) {
      ReachablePolledTable(cfg, s);
      forall run, end | OnlyMoves(run) && Runs(cfg, s, run, end) ensures Unfinished(end) {
        PassDoomedForever(cfg, s, run, end);
      }
    } else {
      PassFinishesUnlessDoomed(cfg, s);
    }
  }
}

/**
 Static mode, realtime build, fair locks: from which states the `sync` calls and
 queries in flight can still be finished.
 */
module StaticCompletion {
  import opened Queries
  import opened Protocol
  import opened Invariant
  import opened Locks
  import opened Progress
  import opened StaticMode

  // Creating a client: holds the table or is queued for it, and has yet to read
  // the mapping.
  predicate ClaimsTable(task: Task) {
    task.NotifyWant? || ((task.CliQueued? || task.CliHeld?) && task.cliJob.Create?)
  }

  // A query that reads the mapping and has yet to read the table.
  predicate OwesTable(s: State, task: Task) {
    task.QueryMapped? && Resolve(s.secrets, task.query).Found?
  }

  ghost predicate Claimed(s: State) {
    exists t | t in s.threads :: ClaimsTable(s.threads[t].task)
  }

  ghost predicate Queued(s: State) {
    exists t | t in s.threads :: s.threads[t].task.MapQueued?
  }

  ghost predicate Owed(s: State) {
    exists t | t in s.threads :: OwesTable(s, s.threads[t].task)
  }

  // The query waits for the creator, the creator will wait for the queued writer,
  // and the writer waits for the query.
  ghost predicate Doomed(s: State) {
    Claimed(s) && Queued(s) && Owed(s)
  }

  // ---------------------------------------------------------------------
  // Once doomed, always doomed
  // ---------------------------------------------------------------------

  lemma DoomedMove(cfg: Config, s: State, t: Tid, ch: Choice, n: Tid, w: Tid, r: Tid)
    requires Inv(cfg, s) && cfg.realtime && cfg.fair && CanMove(cfg, s, t, ch)
    requires n in s.threads && ClaimsTable(s.threads[n].task)
    requires w in s.threads && s.threads[w].task.MapQueued?
    requires r in s.threads && OwesTable(s, s.threads[r].task)
    ensures t != w && t != r && Moved(cfg, s, t, ch).secrets == s.secrets
    ensures ClaimsTable(Moved(cfg, s, t, ch).threads[n].task)
  {
    assert ReadsMap(s.threads[r].task);
    Frames(cfg, s, t, ch);
    if t == n {
      ClaimStays(cfg, s, n, ch);
    }
  }

  lemma ClaimStays(cfg: Config, s: State, n: Tid, ch: Choice)
    requires cfg.realtime && CanMove(cfg, s, n, ch)
    requires ClaimsTable(s.threads[n].task) && !s.threads[n].task.NotifyWant?
    ensures ClaimsTable(NextTask(cfg, s, s.threads[n].task, ch))
  {
  }

  lemma StillDoomed(cfg: Config, s: State, a: Action)
    requires Enabled(cfg, s, a) && !a.Move? && Doomed(s)
    ensures Doomed(Apply(cfg, s, a))
  {
    var n :| n in s.threads && ClaimsTable(s.threads[n].task);
    var w :| w in s.threads && s.threads[w].task.MapQueued?;
    var r :| r in s.threads && OwesTable(s, s.threads[r].task);
    DoomedBy(Apply(cfg, s, a), n, w, r);
  }

  lemma DoomedBy(s: State, n: Tid, w: Tid, r: Tid)
    requires n in s.threads && ClaimsTable(s.threads[n].task)
    requires w in s.threads && s.threads[w].task.MapQueued?
    requires r in s.threads && OwesTable(s, s.threads[r].task)
    ensures Doomed(s)
  {
  }

  lemma DoomedStep(cfg: Config, s: State, a: Action)
    requires Inv(cfg, s) && cfg.realtime && cfg.fair && Doomed(s) && Enabled(cfg, s, a)
    ensures Doomed(Apply(cfg, s, a))
  {
    match a
    case Move(t, ch) =>
      var n :| n in s.threads && ClaimsTable(s.threads[n].task);
      var w :| w in s.threads && s.threads[w].task.MapQueued?;
      var r :| r in s.threads && OwesTable(s, s.threads[r].task);
      DoomedMove(cfg, s, t, ch, n, w, r);
      DoomedBy(Moved(cfg, s, t, ch), n, w, r);
    case _ =>
      StillDoomed(cfg, s, a);
  }

  lemma {:induction false} DoomedForever(cfg: Config, s: State, run: seq<Action>, end: State)
    requires Inv(cfg, s) && cfg.realtime && cfg.fair && Doomed(s) && Runs(cfg, s, run, end)
    ensures Inv(cfg, end) && Doomed(end) && Unfinished(end)
    decreases |run|
  {
    if run == [] {
      var w :| w in s.threads && s.threads[w].task.MapQueued?;
      assert !s.threads[w].task.Done?;
    } else {
      DoomedStep(cfg, s, run[0]);
      InvStep(cfg, s, run[0]);
      DoomedForever(cfg, Apply(cfg, s, run[0]), run[1..], end);
    }
  }

  // ---------------------------------------------------------------------
  // Until then, some step keeps clear of it
  // ---------------------------------------------------------------------

  lemma WhatDooms(cfg: Config, s: State, t: Tid, ch: Choice)
    requires Inv(cfg, s) && cfg.fair && CanMove(cfg, s, t, ch) && !Doomed(s) && Doomed(Moved(cfg, s, t, ch))
    ensures Owed(s)
    ensures (s.threads[t].task.MapWant? && Claimed(s)) || (s.threads[t].task.CliWant? && Queued(s))
  {
    var s', task := Moved(cfg, s, t, ch), s.threads[t].task;
    var n :| n in s'.threads && ClaimsTable(s'.threads[n].task);
    var w :| w in s'.threads && s'.threads[w].task.MapQueued?;
    var r :| r in s'.threads && OwesTable(s', s'.threads[r].task);
    OwerWas(cfg, s, t, ch, w, r);
    if !task.CliWant? && ClaimsTable(s'.threads[t].task) {
      ClaimantWas(cfg, s, t, ch);
    }
    if task.MapWant? {
      assert n != t && ClaimsTable(s.threads[n].task);
    } else {
      WriterWas(cfg, s, t, ch);
      assert s.threads[w].task.MapQueued?;
    }
  }

  // A query only starts to read the mapping when no writer is queued.
  lemma OwerWas(cfg: Config, s: State, t: Tid, ch: Choice, w: Tid, r: Tid)
    requires Inv(cfg, s) && cfg.fair && CanMove(cfg, s, t, ch)
    requires w in s.threads && Moved(cfg, s, t, ch).threads[w].task.MapQueued?
    requires r in s.threads && OwesTable(Moved(cfg, s, t, ch), Moved(cfg, s, t, ch).threads[r].task)
    ensures r != t && OwesTable(s, s.threads[r].task)
  {
    assert r != t;
    assert ReadsMap(s.threads[r].task);
    Frames(cfg, s, t, ch);
  }

  lemma ClaimantWas(cfg: Config, s: State, t: Tid, ch: Choice)
    requires CanMove(cfg, s, t, ch) && ClaimsTable(NextTask(cfg, s, s.threads[t].task, ch))
          && !s.threads[t].task.CliWant?
    ensures ClaimsTable(s.threads[t].task)
  {
  }

  lemma WriterWas(cfg: Config, s: State, t: Tid, ch: Choice)
    requires CanMove(cfg, s, t, ch) && !s.threads[t].task.MapWant?
    ensures !NextTask(cfg, s, s.threads[t].task, ch).MapQueued?
  {
  }

  // Whoever is inside a lock on the table can go on, given that a notifier can
  // read the mapping.
  lemma HolderMoves(cfg: Config, s: State, u: Tid) returns (ch: Choice)
    requires Inv(cfg, s) && u in s.threads
    requires WritesCli(s.threads[u].task) || ReadsCli(s.threads[u].task)
    requires s.threads[u].task.NotifyWant? ==> CanReadMap(cfg, s)
    ensures CanMove(cfg, s, u, ch) && !s.threads[u].task.MapWant? && !s.threads[u].task.CliWant?
  {
    if s.threads[u].task.NotifyWant? {
      ch := Auto;
    } else {
      ch := NoWaiting(cfg, s, u);
    }
  }

  // A claimed table and a query that owes it: let the creator read the mapping.
  lemma ClaimantFirst(cfg: Config, s: State) returns (t: Tid, ch: Choice)
    requires Inv(cfg, s) && Claimed(s) && Owed(s) && !Queued(s)
    ensures CanMove(cfg, s, t, ch) && !s.threads[t].task.MapWant? && !s.threads[t].task.CliWant?
  {
    var r :| r in s.threads && OwesTable(s, s.threads[r].task);
    assert ReadsMap(s.threads[r].task);
    assert CanReadMap(cfg, s);
    t :| t in s.threads && ClaimsTable(s.threads[t].task);
    if s.threads[t].task.CliQueued? {
      t, ch := QueuedOrHolder(cfg, s, t);
    } else {
      ch := HolderMoves(cfg, s, t);
    }
  }

  // A thread queued for the table gets it, or whoever is in its way moves.
  lemma QueuedOrHolder(cfg: Config, s: State, q: Tid) returns (t: Tid, ch: Choice)
    requires Inv(cfg, s) && CanReadMap(cfg, s) && q in s.threads && s.threads[q].task.CliQueued?
    ensures CanMove(cfg, s, t, ch) && !s.threads[t].task.MapWant? && !s.threads[t].task.CliWant?
  {
    if CanWriteCli(s) {
      t, ch := q, Auto;
    } else {
      t :| t in s.threads && (WritesCli(s.threads[t].task) || ReadsCli(s.threads[t].task));
      ch := HolderMoves(cfg, s, t);
    }
  }

  // A queued writer and a query that owes the table: let the query read it.
  lemma QueryFirst(cfg: Config, s: State) returns (t: Tid, ch: Choice)
    requires Inv(cfg, s) && Queued(s) && Owed(s) && !Claimed(s)
    ensures CanMove(cfg, s, t, ch) && !s.threads[t].task.MapWant? && !s.threads[t].task.CliWant?
  {
    if u :| u in s.threads && (WritesCli(s.threads[u].task) || ReadsCli(s.threads[u].task)) {
      t := u;
      assert !ClaimsTable(s.threads[u].task);
      ch := HolderMoves(cfg, s, u);
    } else if q :| q in s.threads && s.threads[q].task.CliQueued? {
      t, ch := q, Auto;
    } else {
      var r :| r in s.threads && OwesTable(s, s.threads[r].task);
      t, ch := r, Auto;
    }
  }

  // Static mode: with no query owing the table, or no claim on it, nobody is stuck.
  lemma OthersMove(cfg: Config, s: State)
    requires StaticInv(cfg, s) && Unfinished(s) && (!Owed(s) || !Claimed(s))
    ensures CanStep(cfg, s)
  {
    SomebodyMoves(cfg, s);
    if !CanStep(cfg, s) {
      var n, w :| NotifierBehindWriter(s, n, w);
      assert ClaimsTable(s.threads[n].task);
      forall t | t in s.threads ensures !WritesMap(s.threads[t].task) && !ReadsMap(s.threads[t].task) {
        StuckReadsNot(cfg, s, t);
      }
      assert CanMove(cfg, s, w, Auto);
    }
  }

  lemma StuckReadsNot(cfg: Config, s: State, t: Tid)
    requires StaticInv(cfg, s) && t in s.threads && !CanStep(cfg, s) && !Owed(s)
    ensures !WritesMap(s.threads[t].task) && !ReadsMap(s.threads[t].task)
  {
    if !Waits(s, s.threads[t].task) {
      var ch := NoWaiting(cfg, s, t);
    }
    assert Belongs(cfg, s.threads[t].op, s.threads[t].task);
    assert !OwesTable(s, s.threads[t].task);
  }

  lemma ClearMove(cfg: Config, s: State) returns (t: Tid, ch: Choice)
    requires StaticInv(cfg, s) && cfg.fair && Unfinished(s) && !Doomed(s)
    ensures CanMove(cfg, s, t, ch) && !Doomed(Moved(cfg, s, t, ch))
  {
    if Owed(s) && Claimed(s) {
      t, ch := ClaimantFirst(cfg, s);
    } else if Owed(s) && Queued(s) {
      t, ch := QueryFirst(cfg, s);
    } else {
      OthersMove(cfg, s);
      t, ch :| CanMove(cfg, s, t, ch);
    }
    if Doomed(Moved(cfg, s, t, ch)) {
      WhatDooms(cfg, s, t, ch);
    }
  }

  lemma {:induction false} FinishesUnlessDoomed(cfg: Config, s: State)
    requires cfg.mode == Static && Reachable(cfg, s) && cfg.fair && !Doomed(s)
    ensures CanAllFinish(cfg, s)
    decreases Sum(EarlyMap(s.threads)), Sum(WorkMap(s.threads))
  {
    if !Unfinished(s) {
      assert OnlyMoves([]) && Runs(cfg, s, [], s);
    } else {
      ReachableStatic(cfg, s);
      var t, ch := ClearMove(cfg, s);
      StepShrinks(cfg, s, t, ch);
      ReachableStep(cfg, s, Move(t, ch));
      FinishesUnlessDoomed(cfg, Moved(cfg, s, t, ch));
      CanAllFinishAfter(cfg, s, t, ch);
    }
  }

  /**
   Static mode, every build: the calls in flight can all be finished if and only if
   the build is not realtime with fair locks, or the state is not doomed: there is no
   insert queued for the mapping while a query that reads it has yet to read the table
   and a creator that has yet to read the mapping holds the table or is queued for it.
   */
  lemma StaticFinishableIff(cfg: Config, s: State)
    requires cfg.mode == Static && Reachable(cfg, s)
    ensures CanAllFinish(cfg, s) <==> !(cfg.realtime && cfg.fair && Doomed(s))
  {
    if !(cfg.realtime && cfg.fair) {
      var run, end := AllCallsCanFinish(cfg, s);
    } else if Doomed(s) {
      ReachableInv(cfg, s);
      forall run, end | OnlyMoves(run) && Runs(cfg, s, run, end) ensures Unfinished(end) {
        DoomedForever(cfg, s, run, end);
      }
    } else {
      FinishesUnlessDoomed(cfg, s);
    }
  }

  /**
   Static mode: a stuck state has two `sync` calls at once, one about to read the
   mapping for its new client and one queued to insert. Calls that do not overlap,
   such as a single one before anything is served, never get stuck.
   */
  lemma StuckNeedsTwoSyncs(cfg: Config, s: State) returns (n: Tid, w: Tid)
    requires cfg.mode == Static && Reachable(cfg, s) && Stuck(cfg, s)
    ensures n != w && NotifierBehindWriter(s, n, w) && Owed(s)
    ensures s.threads[n].op.Sync? && s.threads[w].op.Sync?
  {
    StuckOnlyBehindNotifier(cfg, s);
    n, w :| NotifierBehindWriter(s, n, w);
    ReachableStatic(cfg, s);
    assert Belongs(cfg, s.threads[n].op, s.threads[n].task);
    assert Belongs(cfg, s.threads[w].op, s.threads[w].task);
    if !Owed(s) {
      OthersMove(cfg, s);
    }
  }
}

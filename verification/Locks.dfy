/**
 Mutual exclusion, and when the two locks can deadlock: never, unless the build
 is realtime and readers queue behind waiting writers.
 */
module Locks {
  import opened Mappings
  import opened Queries
  import opened Protocol
  import opened Invariant
  import opened Register
  import opened Scenarios

  ghost predicate Unfinished(s: State) {
    exists t | t in s.threads :: !s.threads[t].task.Done?
  }

  ghost predicate CanStep(cfg: Config, s: State) {
    exists t, ch :: CanMove(cfg, s, t, ch)
  }

  // Calls are in flight and not one of them can go on.
  ghost predicate Stuck(cfg: Config, s: State) {
    Unfinished(s) && !CanStep(cfg, s)
  }

  ghost predicate DeadlockFree(cfg: Config) {
    forall s | Reachable(cfg, s) :: !Stuck(cfg, s)
  }

  /** In every reachable state a writer of a lock shares it with nobody. */
  lemma MutualExclusion(cfg: Config, s: State, t: Tid, u: Tid)
    requires Reachable(cfg, s) && t in s.threads && u in s.threads && t != u
    ensures WritesMap(s.threads[t].task) ==> !WritesMap(s.threads[u].task) && !ReadsMap(s.threads[u].task)
    ensures WritesCli(s.threads[t].task) ==> !WritesCli(s.threads[u].task) && !ReadsCli(s.threads[u].task)
  {
    ReachableInv(cfg, s);
  }

  // ---------------------------------------------------------------------
  // Somebody can move
  // ---------------------------------------------------------------------

  predicate AsksToReadMap(task: Task) {
    task.ReadVersion? || task.PassBegin? || task.QueryBegin? || task.KeysBegin?
  }

  predicate AsksToReadCli(s: State, task: Task) {
    task.CheckKey? || task.PassCloning? || (task.QueryMapped? && Resolve(s.secrets, task.query).Found?)
  }

  // Everywhere else a thread has what it needs to go on.
  predicate Waits(s: State, task: Task) {
    || AsksToReadMap(task) || AsksToReadCli(s, task)
    || task.MapQueued? || task.CliQueued? || task.NotifyWant? || task.Done?
  }

  lemma NoWaiting(cfg: Config, s: State, t: Tid) returns (ch: Choice)
    requires Inv(cfg, s) && t in s.threads && !Waits(s, s.threads[t].task)
    ensures CanMove(cfg, s, t, ch)
  {
    var task := s.threads[t].task;
    ch := Auto;
    assert LockFacts(s, task);
    match task
    case MapHeld(Adopt(offer)) =>
      var reverse := IndexExists(offer.mapping);
      ch := if offer.version > s.secrets.version
            then Rebuilt(Secrets(offer.version, offer.mapping, reverse)) else Rebuilt(s.secrets);
    case PassSyncing(p) =>
      if p.todo != {} {
        var k :| k in p.todo;
        ch := Pick(k);
      }
    case PassRemoving(p) =>
      if p.rest != {} {
        var k :| k in p.rest;
        ch := Pick(k);
      }
    case _ =>
  }

  // The realtime build's bad pair: a client being created waits to read the
  // mapping a second time, and a writer is queued for it.
  ghost predicate NotifierBehindWriter(s: State, n: Tid, w: Tid) {
    && n in s.threads && s.threads[n].task.NotifyWant?
    && w in s.threads && s.threads[w].task.MapQueued?
  }

  // With everybody waiting, the client table is free once no notifier holds it,
  // and the mapping once nobody wants the table.
  lemma TableFree(cfg: Config, s: State, t: Tid)
    requires t in s.threads && Waits(s, s.threads[t].task) && !s.threads[t].task.NotifyWant?
    ensures !WritesCli(s.threads[t].task) && !ReadsCli(s.threads[t].task)
    ensures ReadsMap(s.threads[t].task) ==> s.threads[t].task.CliQueued? || AsksToReadCli(s, s.threads[t].task)
    ensures !WritesMap(s.threads[t].task)
  {
  }

  lemma SomebodyMoves(cfg: Config, s: State)
    requires Inv(cfg, s) && Unfinished(s)
    ensures CanStep(cfg, s)
         || (cfg.realtime && cfg.fair && exists n, w :: NotifierBehindWriter(s, n, w))
  {
    if t :| t in s.threads && !Waits(s, s.threads[t].task) {
      var ch := NoWaiting(cfg, s, t);
    } else if n :| n in s.threads && s.threads[n].task.NotifyWant? {
      NotifierMoves(cfg, s, n);
    } else {
      WaitersMove(cfg, s);
    }
  }

  lemma WaitersMove(cfg: Config, s: State)
    requires Unfinished(s)
    requires forall t | t in s.threads :: Waits(s, s.threads[t].task) && !s.threads[t].task.NotifyWant?
    ensures CanStep(cfg, s)
  {
    forall t | t in s.threads
      ensures !WritesCli(s.threads[t].task) && !ReadsCli(s.threads[t].task)
      ensures ReadsMap(s.threads[t].task) ==> s.threads[t].task.CliQueued? || AsksToReadCli(s, s.threads[t].task)
      ensures !WritesMap(s.threads[t].task)
    {
      TableFree(cfg, s, t);
    }
    if w :| w in s.threads && s.threads[w].task.CliQueued? {
      assert CanMove(cfg, s, w, Auto);
    } else if r :| r in s.threads && AsksToReadCli(s, s.threads[r].task) {
      assert CanReadCli(cfg, s);
      assert CanMove(cfg, s, r, Auto);
    } else if w :| w in s.threads && s.threads[w].task.MapQueued? {
      assert CanMove(cfg, s, w, Auto);
    } else {
      var r :| r in s.threads && !s.threads[r].task.Done?;
      assert Waits(s, s.threads[r].task) && CanReadMap(cfg, s);
      assert CanMove(cfg, s, r, Auto);
    }
  }

  lemma NotifierMoves(cfg: Config, s: State, n: Tid)
    requires Inv(cfg, s) && n in s.threads && s.threads[n].task.NotifyWant?
    requires forall t | t in s.threads :: Waits(s, s.threads[t].task)
    ensures CanMove(cfg, s, n, Auto)
         || (cfg.realtime && cfg.fair && exists w :: NotifierBehindWriter(s, n, w))
  {
    assert Belongs(cfg, s.threads[n].op, s.threads[n].task);
    if !CanReadMap(cfg, s) {
      var w :| w in s.threads && s.threads[w].task.MapQueued?;
      assert NotifierBehindWriter(s, n, w);
    }
  }

  /** A stuck state is always the realtime build's notifier behind a queued writer. */
  lemma StuckOnlyBehindNotifier(cfg: Config, s: State)
    requires Reachable(cfg, s) && Stuck(cfg, s)
    ensures cfg.realtime && cfg.fair
    ensures exists n, w :: NotifierBehindWriter(s, n, w)
  {
    ReachableInv(cfg, s);
    SomebodyMoves(cfg, s);
  }

  // ---------------------------------------------------------------------
  // The pair inside one reconcile pass never comes apart
  // ---------------------------------------------------------------------

  // The notifier runs inside a pass, which has been reading the mapping all along.
  ghost predicate SelfBlocked(s: State, n: Tid, w: Tid) {
    NotifierBehindWriter(s, n, w) && s.threads[n].task.ret.ToPass?
  }

  /** In polled mode every stuck state is such a pass with such a writer. */
  lemma PolledStuckIsSelfBlocked(cfg: Config, s: State) returns (n: Tid, w: Tid)
    requires cfg.mode == Polled && Reachable(cfg, s) && Stuck(cfg, s)
    ensures SelfBlocked(s, n, w) && s.threads[n].op.UpdateClients? && s.threads[w].op.UpdateMapping?
  {
    StuckOnlyBehindNotifier(cfg, s);
    n, w :| NotifierBehindWriter(s, n, w);
    ReachablePolled(cfg, s);
    assert Belongs(cfg, s.threads[n].op, s.threads[n].task);
    assert Belongs(cfg, s.threads[w].op, s.threads[w].task);
  }

  lemma SelfBlockedStep(cfg: Config, s: State, a: Action, n: Tid, w: Tid)
    requires cfg.fair && SelfBlocked(s, n, w) && Enabled(cfg, s, a)
    ensures Apply(cfg, s, a).threads[n] == s.threads[n] && Apply(cfg, s, a).threads[w] == s.threads[w]
    ensures n in Apply(cfg, s, a).threads && w in Apply(cfg, s, a).threads
  {
  }

  /** Whatever happens next, neither the pass nor the writer moves again. */
  lemma {:induction false} SelfBlockedForever(cfg: Config, s: State, run: seq<Action>, end: State, n: Tid, w: Tid)
    requires cfg.fair && SelfBlocked(s, n, w) && Runs(cfg, s, run, end)
    ensures SelfBlocked(end, n, w)
    ensures end.threads[n] == s.threads[n] && end.threads[w] == s.threads[w]
    decreases |run|
  {
    if run != [] {
      SelfBlockedStep(cfg, s, run[0], n, w);
      SelfBlockedForever(cfg, Apply(cfg, s, run[0]), run[1..], end, n, w);
    }
  }

  // ---------------------------------------------------------------------
  // Reaching a stuck state
  // ---------------------------------------------------------------------

  const ONE := Secrets(1, map["c" := "k"], map["k" := "c"])
  const TWO := Secrets(2, map["c" := "k"], map["k" := "c"])

  lemma PairStuck(cfg: Config, s: State, n: Tid, w: Tid)
    requires cfg.fair && SelfBlocked(s, n, w)
    requires forall t | t in s.threads && t != n && t != w :: s.threads[t].task.Done?
    ensures Stuck(cfg, s)
  {
    assert ReadsMap(s.threads[n].task);
    assert !s.threads[n].task.Done?;
  }

  lemma OneDelivered(cfg: Config) returns (s: State)
    requires cfg.mode != Static
    ensures Reachable(cfg, s) && s.secrets == ONE && s.clients == map[]
    ensures s.threads == map[0 := Thread(UpdateMapping(ONE), Done(Finished))]
  {
    InitReachable(cfg);
    UpdateAlone(cfg, INIT, 0, ONE);
    s := At(INIT.(secrets := ONE, lin := INIT.lin + [0]), 0, UpdateMapping(ONE), Done(Finished));
  }

  /**
   Polled mode: a pass is creating the client of a key just delivered when the
   next mapping arrives. The writer waits for the pass and the pass for the writer.
   */
  lemma PassBlocksItself(cfg: Config) returns (s: State)
    requires cfg.realtime && cfg.fair && cfg.mode != Static
    ensures Reachable(cfg, s) && Stuck(cfg, s) && SelfBlocked(s, 1, 2)
  {
    var s0 := OneDelivered(cfg);
    var ret := PassTakes(cfg, s0, 1, "k");
    CreateStarts(cfg, s0, 1, UpdateClients, "k", ret);
    var s1 := At(s0, 1, UpdateClients, NotifyWant("k", ret));
    UpdateQueues(cfg, s1, 2, TWO);
    s := At(s1, 2, UpdateMapping(TWO), MapQueued(Adopt(TWO)));
    PairStuck(cfg, s, 1, 2);
  }

  lemma TriangleStuck(cfg: Config, s: State, writer: Tid, notifier: Tid, reader: Tid)
    requires cfg.fair && NotifierBehindWriter(s, notifier, writer)
    requires reader in s.threads && s.threads[reader].task.QueryMapped?
    requires Resolve(s.secrets, s.threads[reader].task.query).Found?
    requires forall t | t in s.threads && t !in {writer, notifier, reader} :: s.threads[t].task.Done?
    ensures Stuck(cfg, s)
  {
    assert ReadsMap(s.threads[reader].task) && WritesCli(s.threads[notifier].task);
    assert !s.threads[notifier].task.Done?;
  }

  // From a state at rest where key "k" is served: a second insert of it is on its
  // way, and another key's client is being created.
  lemma WriterAndNotifier(cfg: Config, s: State) returns (s': State)
    requires Reachable(cfg, s) && Undisturbed(s, 1) && s.threads.Keys == {0} && s.threads[0].task.Done?
    requires cfg.realtime && cfg.mode == Static && "k" in s.clients && "m" !in s.clients
    ensures Reachable(cfg, s') && s'.secrets == s.secrets
    ensures s'.threads == s.threads[1 := Thread(Sync("c", "k", 1), MapWant(Insert("c", "k", 1)))]
                                   [2 := Thread(Sync("d", "m", 1), NotifyWant("m", ToInsert("d", "m", 1)))]
  {
    SyncToInsert(cfg, s, 1, "c", "k", 1);
    var s1 := At(s, 1, Sync("c", "k", 1), MapWant(Insert("c", "k", 1)));
    Call(cfg, s1, 2, Sync("d", "m", 1));
    CreateStarts(cfg, s1, 2, Sync("d", "m", 1), "m", ToInsert("d", "m", 1));
    s' := At(s1, 2, Sync("d", "m", 1), NotifyWant("m", ToInsert("d", "m", 1)));
  }

  // A query starts to read the mapping.
  lemma ReaderEnters(cfg: Config, s: State, t: Tid, q: Query)
    requires Reachable(cfg, s) && t !in s.threads
    requires forall u | u in s.threads :: !WritesMap(s.threads[u].task) && !s.threads[u].task.MapQueued?
    ensures Reachable(cfg, At(s, t, Ask(q), QueryMapped(q, s.secrets)))
  {
    Call(cfg, s, t, Ask(q));
    LocalStep(cfg, s, t, Ask(q), QueryBegin(q), Auto);
  }

  lemma WriterQueues(cfg: Config, s: State, t: Tid)
    requires Reachable(cfg, s) && t in s.threads && s.threads[t].task.MapWant?
    ensures Reachable(cfg, At(s, t, s.threads[t].op, MapQueued(s.threads[t].task.mapJob)))
  {
    assert At(s, t, s.threads[t].op, s.threads[t].task) == s by {
      assert s.threads[t := s.threads[t]] == s.threads;
    }
    LocalStep(cfg, s, t, s.threads[t].op, s.threads[t].task, Auto);
  }

  /**
   Static mode: no pass is needed. A `sync` call creating a client waits behind a
   `sync` call queued to insert, which waits for a query, which waits for the table.
   */
  lemma SyncCallsBlock(cfg: Config) returns (s: State)
    requires cfg.realtime && cfg.fair && cfg.mode == Static
    ensures Reachable(cfg, s) && Stuck(cfg, s)
  {
    InitReachable(cfg);
    var s0 := SyncAlone(cfg, INIT, 0, "c", "k", 1);
    assert "k" != "m";
    var s1 := WriterAndNotifier(cfg, At(s0, 0, Sync("c", "k", 1), Done(Finished)));
    ReaderEnters(cfg, s1, 3, ServerRepo("k"));
    var s2 := At(s1, 3, Ask(ServerRepo("k")), QueryMapped(ServerRepo("k"), s1.secrets));
    WriterQueues(cfg, s2, 1);
    s := At(s2, 1, Sync("c", "k", 1), MapQueued(Insert("c", "k", 1)));
    TriangleStuck(cfg, s, 1, 2, 3);
  }

  /** Deadlock freedom, exactly: all modes but the realtime build with fair locks. */
  lemma DeadlockFreeIff(cfg: Config)
    ensures DeadlockFree(cfg) <==> !(cfg.realtime && cfg.fair)
  {
    if cfg.realtime && cfg.fair {
      var s: State;
      if cfg.mode == Static {
        s := SyncCallsBlock(cfg);
      } else {
        s := PassBlocksItself(cfg);
      }
      assert Reachable(cfg, s) && Stuck(cfg, s);
    } else {
      forall s | Reachable(cfg, s) ensures !Stuck(cfg, s) {
        ReachableInv(cfg, s);
        if Unfinished(s) {
          SomebodyMoves(cfg, s);
        }
      }
    }
  }
}

/** Static mode: concurrent `SdkRepository::sync` calls and queries, no passes. */
module StaticMode {
  import opened Options
  import opened Queries
  import opened Protocol
  import opened Invariant
  import opened Service

  ghost predicate Published(s: State) {
    forall k | k in s.secrets.reverse :: k in s.clients
  }

  // About to insert a pair: its client is already there.
  ghost predicate InsertsCreated(s: State) {
    forall t | t in s.threads && s.threads[t].op.Sync? ::
      s.threads[t].task.MapWant? || s.threads[t].task.MapQueued? || s.threads[t].task.MapHeld? ==>
        s.threads[t].op.s in s.clients
  }

  ghost predicate StaticInv(cfg: Config, s: State) {
    && Inv(cfg, s) && Published(s) && InsertsCreated(s) && s.secrets.Covers()
    && (forall t | t in s.threads :: !s.threads[t].op.UpdateMapping? && !s.threads[t].op.UpdateClients?)
  }

  lemma StaticTable(cfg: Config, s: State, t: Tid, ch: Choice)
    requires StaticInv(cfg, s) && CanMove(cfg, s, t, ch)
    ensures s.clients.Keys <= Moved(cfg, s, t, ch).clients.Keys
  {
    assert Belongs(cfg, s.threads[t].op, s.threads[t].task);
  }

  lemma InsertsCreatedMove(cfg: Config, s: State, t: Tid, ch: Choice)
    requires StaticInv(cfg, s) && CanMove(cfg, s, t, ch)
    ensures InsertsCreated(Moved(cfg, s, t, ch))
  {
    StaticTable(cfg, s, t, ch);
    if s.threads[t].op.Sync? {
      InsertFollowsCreate(cfg, s, t, ch);
    }
  }

  lemma InsertFollowsCreate(cfg: Config, s: State, t: Tid, ch: Choice)
    requires StaticInv(cfg, s) && CanMove(cfg, s, t, ch) && s.threads[t].op.Sync?
    ensures var next := NextTask(cfg, s, s.threads[t].task, ch);
            next.MapWant? || next.MapQueued? || next.MapHeld? ==> s.threads[t].op.s in Moved(cfg, s, t, ch).clients
  {
    assert Belongs(cfg, s.threads[t].op, s.threads[t].task);
    assert LockFacts(s, s.threads[t].task);
  }

  lemma PublishedMove(cfg: Config, s: State, t: Tid, ch: Choice)
    requires StaticInv(cfg, s) && CanMove(cfg, s, t, ch)
    ensures Published(Moved(cfg, s, t, ch)) && Moved(cfg, s, t, ch).secrets.Covers()
  {
    StaticTable(cfg, s, t, ch);
    assert Belongs(cfg, s.threads[t].op, s.threads[t].task);
  }

  lemma StaticStep(cfg: Config, s: State, a: Action)
    requires cfg.mode == Static && StaticInv(cfg, s) && Enabled(cfg, s, a)
    ensures StaticInv(cfg, Apply(cfg, s, a))
  {
    InvStep(cfg, s, a);
    if a.Move? {
      InsertsCreatedMove(cfg, s, a.t, a.ch);
      PublishedMove(cfg, s, a.t, a.ch);
    }
  }

  lemma {:induction false} StaticRun(cfg: Config, s: State, run: seq<Action>, end: State)
    requires cfg.mode == Static && StaticInv(cfg, s) && Runs(cfg, s, run, end)
    ensures StaticInv(cfg, end)
    decreases |run|
  {
    if run != [] {
      StaticStep(cfg, s, run[0]);
      StaticRun(cfg, Apply(cfg, s, run[0]), run[1..], end);
    }
  }

  lemma ReachableStatic(cfg: Config, s: State)
    requires cfg.mode == Static && Reachable(cfg, s)
    ensures StaticInv(cfg, s)
  {
    var run :| Runs(cfg, INIT, run, s);
    StaticRun(cfg, INIT, run, s);
  }

  /**
   At every micro-step every published server key has a client in the table, so
   above version 0 a known key is turned away only while its client is initialising.
   */
  lemma CreatedBeforePublished(cfg: Config, s: State, q: Query)
    requires cfg.mode == Static && Reachable(cfg, s)
    ensures s.secrets.reverse.Keys <= s.clients.Keys && TableInHeap(s)
    ensures s.secrets.version > 0 && Decide(s, q).Refuse? && Decide(s, q).error.NotReady? ==>
              var k := Decide(s, q).error.key;
              k in s.clients && !s.heap[s.clients[k]].initialized
  {
    ReachableStatic(cfg, s);
  }

  /**
   The other side of that order: the first client made for a key is made before
   the pair is inserted, so its update callback captures no client key.
   */
  lemma FirstClientCapturesNothing(cfg: Config, s: State, t: Tid, ch: Choice)
    requires cfg.mode == Static && Reachable(cfg, s) && CanMove(cfg, s, t, ch)
    requires s.threads[t].task.NotifyWant? && s.threads[t].task.key !in s.clients
    ensures NextTask(cfg, s, s.threads[t].task, ch).NotifyHeld?
    ensures NextTask(cfg, s, s.threads[t].task, ch).captured == None
  {
    ReachableStatic(cfg, s);
  }
}

/** What clients' update callbacks capture. */
module Notify {
  import opened Options
  import opened Mappings
  import opened Protocol
  import opened Invariant
  import opened Register

  // The captured client key leads to the client's server key in the mapping that
  // was in force.
  predicate CapturedWell(c: Client) {
    && c.notifies.Some? && c.notifies.value in c.under.mapping
    && c.under.mapping[c.notifies.value] == c.key
  }

  // ---------------------------------------------------------------------
  // Every mode
  // ---------------------------------------------------------------------

  ghost predicate WasInForce(cfg: Config, x: Secrets) {
    exists y :: Reachable(cfg, y) && y.secrets == x
  }

  // The client took from the index of a mapping once in force what it had.
  ghost predicate TookFromIndex(cfg: Config, c: Client) {
    && c.notifies == (if cfg.realtime then Lookup(c.under.reverse, c.key) else None)
    && WasInForce(cfg, c.under)
  }

  ghost predicate Captures(cfg: Config, s: State) {
    && (forall id | 0 <= id < |s.heap| :: TookFromIndex(cfg, s.heap[id]))
    && (forall t | t in s.threads :: s.threads[t].task.NotifyHeld? || s.threads[t].task.Notified? ==>
          WasInForce(cfg, s.threads[t].task.under))
  }

  lemma CapturesMove(cfg: Config, s: State, t: Tid, ch: Choice)
    requires Reachable(cfg, s) && Captures(cfg, s) && CanMove(cfg, s, t, ch)
    ensures Captures(cfg, Moved(cfg, s, t, ch))
  {
    ReachableInv(cfg, s);
    assert Belongs(cfg, s.threads[t].op, s.threads[t].task) && LockFacts(s, s.threads[t].task);
    assert WasInForce(cfg, s.secrets);
  }

  lemma {:induction false} CapturesRun(cfg: Config, s: State, run: seq<Action>, end: State)
    requires Reachable(cfg, s) && Captures(cfg, s) && Runs(cfg, s, run, end)
    ensures Captures(cfg, end)
    decreases |run|
  {
    if run != [] {
      var mid := Apply(cfg, s, run[0]);
      if run[0].Move? {
        CapturesMove(cfg, s, run[0].t, run[0].ch);
      }
      ReachableStep(cfg, s, run[0]);
      CapturesRun(cfg, mid, run[1..], end);
    }
  }

  /**
   Realtime build, every mode, every client ever made: it captured a client key of
   its own server key if and only if, in the mapping in force when it was made, that
   key was indexed by a client key that led to it; and it captured none if and only
   if the key was not indexed.
   */
  lemma CapturedWellIff(cfg: Config, s: State, id: ClientId)
    requires cfg.realtime && Reachable(cfg, s) && id < |s.heap|
    ensures var c, x := s.heap[id], s.heap[id].under;
            && WasInForce(cfg, x)
            && (CapturedWell(c) <==>
                  c.key in x.reverse && x.reverse[c.key] in x.mapping && x.mapping[x.reverse[c.key]] == c.key)
            && (c.notifies == None <==> c.key !in x.reverse)
  {
    var run :| Runs(cfg, INIT, run, s);
    assert Runs(cfg, INIT, [], INIT);
    CapturesRun(cfg, INIT, run, s);
  }

  /** Realtime build, every mode: what is captured is what the index says while it is being read. */
  lemma CaptureReadsIndex(cfg: Config, s: State, t: Tid)
    requires Reachable(cfg, s) && t in s.threads && s.threads[t].task.NotifyHeld?
    ensures var task := s.threads[t].task;
            && task.under == s.secrets
            && (task.key in s.secrets.reverse ==> task.captured == Some(s.secrets.reverse[task.key]))
            && (task.key !in s.secrets.reverse ==> task.captured == None)
  {
    ReachableInv(cfg, s);
    assert LockFacts(s, s.threads[t].task);
  }

  // ---------------------------------------------------------------------
  // Polled mode
  // ---------------------------------------------------------------------

  /** A client is only made inside a pass, from the mapping which that pass holds. */
  lemma CreatedUnderPass(cfg: Config, s: State, t: Tid, ch: Choice)
    requires cfg.mode == Polled && cfg.realtime && Reachable(cfg, s) && CanMove(cfg, s, t, ch)
    requires Moved(cfg, s, t, ch).heap != s.heap
    ensures s.threads[t].op.UpdateClients? && InPass(s.threads[t].task)
    ensures var heap := Moved(cfg, s, t, ch).heap;
            && |heap| == |s.heap| + 1 && heap[..|s.heap|] == s.heap
            && heap[|s.heap|].under == s.secrets && CapturedWell(heap[|s.heap|])
  {
    ReachablePolled(cfg, s);
    assert Belongs(cfg, s.threads[t].op, s.threads[t].task);
    assert LockFacts(s, s.threads[t].task) && InPassFacts(s, s.threads[t].task);
  }

  lemma {:induction false} NotifyCapture(cfg: Config, s: State, run: seq<Action>, end: State)
    requires cfg.mode == Polled && cfg.realtime && Reachable(cfg, s) && Runs(cfg, s, run, end)
    requires forall id | 0 <= id < |s.heap| :: CapturedWell(s.heap[id])
    ensures forall id | 0 <= id < |end.heap| :: CapturedWell(end.heap[id])
    decreases |run|
  {
    if run != [] {
      var mid := Apply(cfg, s, run[0]);
      if run[0].Move? && mid.heap != s.heap {
        CreatedUnderPass(cfg, s, run[0].t, run[0].ch);
      }
      ReachableStep(cfg, s, run[0]);
      NotifyCapture(cfg, mid, run[1..], end);
    }
  }

  /** Every client ever made captured a client key of its own server key. */
  lemma EveryClientCapturedWell(cfg: Config, s: State, id: ClientId)
    requires cfg.mode == Polled && cfg.realtime && Reachable(cfg, s) && id < |s.heap|
    ensures CapturedWell(s.heap[id])
  {
    var run :| Runs(cfg, INIT, run, s);
    assert Runs(cfg, INIT, [], INIT);
    NotifyCapture(cfg, INIT, run, s);
  }
}

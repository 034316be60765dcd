/** What a reconcile pass achieves while other threads run. */
module Reconcile {
  import opened Mappings
  import opened Protocol
  import opened Invariant
  import opened Register
  import opened PolledTable

  // The pass `t` is about to return from its loops.
  ghost predicate Finishing(s: State, t: Tid) {
    t in s.threads && s.threads[t].task.PassRemoving? && s.threads[t].task.pass.rest == {}
  }

  // The pass took its snapshot no earlier than when `synced` had length n.
  ghost predicate StartedAfter(s: State, t: Tid, n: nat) {
    && t in s.threads && n <= |s.synced| && s.threads[t].op.UpdateClients?
    && (s.threads[t].task.PassCloned? ==> n <= s.threads[t].task.mark)
    && (PassOf(s.threads[t].task).Some? ==> n <= PassOf(s.threads[t].task).value.0.mark)
  }

  lemma StartedAfterMove(cfg: Config, s: State, t: Tid, ch: Choice, n: nat)
    requires CanMove(cfg, s, t, ch) && StartedAfter(s, t, n)
    ensures StartedAfter(Moved(cfg, s, t, ch), t, n)
  {
  }

  lemma {:induction false} StartedAfterRun(cfg: Config, s: State, run: seq<Action>, end: State, t: Tid, n: nat)
    requires StartedAfter(s, t, n) && Runs(cfg, s, run, end)
    ensures StartedAfter(end, t, n) && s.synced <= end.synced
    decreases |run|
  {
    if run != [] {
      var mid := Apply(cfg, s, run[0]);
      if run[0].Move? && run[0].t == t {
        StartedAfterMove(cfg, s, t, run[0].ch, n);
      }
      assert StartedAfter(mid, t, n);
      StartedAfterRun(cfg, mid, run[1..], end, t, n);
    }
  }

  /**
   Every mode, whatever runs beside it: a pass that starts in `start` and is done
   with its loops in `s` leaves a table with all the desired keys, and no others but
   those that `SdkRepository::sync` calls have put there since `start`.
   */
  lemma PassReconciles(cfg: Config, start: State, run: seq<Action>, s: State, t: Tid, ch: Choice)
    requires Reachable(cfg, start) && Runs(cfg, start, run, s)
    requires t in start.threads && start.threads[t] == Thread(UpdateClients, PassBegin)
    requires Finishing(s, t) && CanMove(cfg, s, t, ch)
    ensures var end := Moved(cfg, s, t, ch);
            && end.threads[t].task == Done(Finished) && end.secrets == s.secrets && end.secrets.version > 0
            && end.secrets.reverse.Keys <= end.clients.Keys
            && start.synced <= end.synced
            && (forall k | k in end.clients :: k in end.secrets.reverse || k in end.synced[|start.synced|..])
  {
    ReachableRun(cfg, start, run, s);
    ThreadFacts(cfg, s, t);
    StartedAfterRun(cfg, start, run, s, t, |start.synced|);
    LoopsDone(s, t, |start.synced|);
    FinishingChangesNothing(cfg, s, t, ch);
  }

  lemma ThreadFacts(cfg: Config, s: State, t: Tid)
    requires Reachable(cfg, s) && t in s.threads
    ensures InPassFacts(s, s.threads[t].task) && LockFacts(s, s.threads[t].task)
  {
    ReachableInv(cfg, s);
  }

  lemma LoopsDone(s: State, t: Tid, n: nat)
    requires Finishing(s, t) && StartedAfter(s, t, n)
    requires InPassFacts(s, s.threads[t].task) && LockFacts(s, s.threads[t].task)
    ensures s.secrets.version > 0 && s.secrets.reverse.Keys <= s.clients.Keys
    ensures forall k | k in s.clients :: k in s.secrets.reverse || k in s.synced[n..]
  {
    var p := s.threads[t].task.pass;
    assert s.synced[n..] == s.synced[n..p.mark] + s.synced[p.mark..];
  }

  lemma FinishingChangesNothing(cfg: Config, s: State, t: Tid, ch: Choice)
    requires Finishing(s, t) && CanMove(cfg, s, t, ch)
    ensures Moved(cfg, s, t, ch) == s.(threads := s.threads[t := s.threads[t].(task := Done(Finished))])
  {
  }

  /** Every mode: no step takes a client from a key the mapping now wants. */
  lemma DesiredNeverRemoved(cfg: Config, s: State, a: Action, k: Key)
    requires Reachable(cfg, s) && Enabled(cfg, s, a)
    requires k in s.clients && k in s.secrets.reverse
    ensures k in Apply(cfg, s, a).clients
  {
    ReachableInv(cfg, s);
    if a.Move? {
      assert InPassFacts(s, s.threads[a.t].task);
    }
  }

  /** While a pass is past its first lock, the mapping does not change. */
  lemma MappingHeldDuringPass(cfg: Config, s: State, a: Action, t: Tid)
    requires Reachable(cfg, s) && Enabled(cfg, s, a)
    requires t in s.threads && InPass(s.threads[t].task)
    ensures Apply(cfg, s, a).secrets == s.secrets
  {
    ReachableInv(cfg, s);
    assert ReadsMap(s.threads[t].task);
  }

  // ---------------------------------------------------------------------
  // Convergence in polled mode
  // ---------------------------------------------------------------------

  ghost predicate Received(s: State, r: Release) {
    exists t | t in s.threads :: s.threads[t].op.UpdateMapping? && s.threads[t].op.offer.Released() == r
  }

  // No mapping that has been received is still on its way in.
  ghost predicate Quiet(s: State) {
    forall t | t in s.threads && s.threads[t].op.UpdateMapping? :: s.threads[t].task.Done?
  }

  lemma QuietMeansGreatest(cfg: Config, s: State)
    requires PolledTableInv(cfg, s) && Quiet(s)
    ensures forall r :: Received(s, r) ==> r.version <= s.secrets.version
    ensures s.secrets.version > 0 ==> Received(s, s.secrets.Released())
  {
    var current := s.secrets.Released();
    KeepAllIsGreatest(DEFAULT.Released(), Deliveries(s));
    forall r | Received(s, r) ensures r.version <= s.secrets.version {
      var t :| t in s.threads && s.threads[t].op.UpdateMapping? && s.threads[t].op.offer.Released() == r;
      assert TookEffect(s.threads[t].task) && t in s.lin;
      var i :| 0 <= i < |s.lin| && s.lin[i] == t;
      assert Deliveries(s)[i] == r;
    }
    if s.secrets.version > 0 {
      var i :| 0 <= i < |Deliveries(s)| && IsFirst(Deliveries(s), i, current);
      assert s.lin[i] in s.lin && s.threads[s.lin[i]].op.offer.Released() == current;
    }
  }

  /**
   Polled mode: once no received mapping is in flight, a pass that completes ends
   with a client for exactly the server keys of the greatest mapping received, and
   with none if no mapping above version 0 was. It need not be the first pass, nor
   have started after the last mapping came.
   */
  lemma Convergence(cfg: Config, s: State, t: Tid, ch: Choice)
    requires cfg.mode == Polled && Reachable(cfg, s) && Quiet(s)
    requires CanMove(cfg, s, t, ch) && s.threads[t].op.UpdateClients?
    requires NextTask(cfg, s, s.threads[t].task, ch).Done?
    ensures var end := Moved(cfg, s, t, ch);
            if exists r :: Received(s, r) && r.version > 0 then
              && end.clients.Keys == end.secrets.mapping.Values
              && Received(s, end.secrets.Released())
              && (forall r :: Received(s, r) ==> r.version <= end.secrets.version)
            else
              end.clients == map[]
  {
    ReachablePolledTable(cfg, s);
    QuietMeansGreatest(cfg, s);
    PassEndsExact(cfg, s, t, ch);
    IndexedKeys(s.secrets);
  }

  // A pass ends after its loops, or at once at version 0.
  lemma PassEnds(cfg: Config, s: State, t: Tid, ch: Choice)
    requires CanMove(cfg, s, t, ch) && s.threads[t].op.UpdateClients?
    requires Belongs(cfg, s.threads[t].op, s.threads[t].task)
    requires NextTask(cfg, s, s.threads[t].task, ch).Done?
    ensures Finishing(s, t) || s.secrets.version == 0
    ensures !WritesMap(s.threads[t].task) && !WritesCli(s.threads[t].task)
  {
  }

  /** Polled mode: any completed pass leaves exactly the present server keys. */
  lemma PassEndsExact(cfg: Config, s: State, t: Tid, ch: Choice)
    requires cfg.mode == Polled && Reachable(cfg, s) && CanMove(cfg, s, t, ch) && s.threads[t].op.UpdateClients?
    requires NextTask(cfg, s, s.threads[t].task, ch).Done?
    ensures var end := Moved(cfg, s, t, ch);
            end.secrets == s.secrets && end.clients == s.clients && end.clients.Keys == end.secrets.reverse.Keys
  {
    ReachablePolledTable(cfg, s);
    PassEnds(cfg, s, t, ch);
    Frames(cfg, s, t, ch);
    if Finishing(s, t) {
      LoopsDoneExactly(s, t);
    }
  }

  lemma LoopsDoneExactly(s: State, t: Tid)
    requires Finishing(s, t) && s.synced == []
    requires InPassFacts(s, s.threads[t].task) && LockFacts(s, s.threads[t].task)
    ensures s.clients.Keys == s.secrets.reverse.Keys
  {
  }

  // ---------------------------------------------------------------------
  // A concurrent pass does what the sequential one does
  // ---------------------------------------------------------------------

  // Of the table at the start, the pass `t` in progress has kept all that it wants.
  ghost predicate Keeping(start: State, x: State, t: Tid) {
    && t in x.threads && x.threads[t].op.UpdateClients? && |start.heap| <= |x.heap|
    && (x.threads[t].task.PassBegin? ==> x.clients == start.clients)
    && (x.secrets.version == 0 ==> x.clients == start.clients)
    && (forall k | k in x.clients ::
          (k in start.clients && x.clients[k] == start.clients[k]) || x.clients[k] >= |start.heap|)
    && (InPass(x.threads[t].task) ==>
          forall k | k in start.clients && k in x.secrets.reverse :: k in x.clients && x.clients[k] == start.clients[k])
  }

  lemma OthersLeaveTable(cfg: Config, s: State, t: Tid, u: Tid, ch: Choice)
    requires PolledTableInv(cfg, s) && CanMove(cfg, s, u, ch)
    requires t in s.threads && t != u && s.threads[t].op.UpdateClients? && !s.threads[t].task.Done?
    ensures Moved(cfg, s, u, ch).clients == s.clients && Moved(cfg, s, u, ch).heap == s.heap
  {
    assert Belongs(cfg, s.threads[u].op, s.threads[u].task);
  }

  lemma KeepingStep(cfg: Config, start: State, x: State, a: Action, t: Tid)
    requires PolledTableInv(cfg, x) && Keeping(start, x, t) && !x.threads[t].task.Done?
    requires EmptyAtZero(start) && TableInHeap(start)
    requires Enabled(cfg, x, a) && PolledTableInv(cfg, Apply(cfg, x, a))
    ensures Keeping(start, Apply(cfg, x, a), t)
  {
    if a.Move? && a.t == t {
      KeepingOwnStep(cfg, start, x, t, a.ch);
    } else if a.Move? {
      OthersLeaveTable(cfg, x, t, a.t, a.ch);
      StepVersion(cfg, x, a.t, a.ch);
      assert InPass(x.threads[t].task) ==> !WritesMap(x.threads[a.t].task);
    }
  }

  // A pass's own steps leave the mapping alone and never lead back to its start.
  lemma PassTasks(cfg: Config, s: State, t: Tid, ch: Choice)
    requires CanMove(cfg, s, t, ch) && s.threads[t].op.UpdateClients?
    requires Belongs(cfg, s.threads[t].op, s.threads[t].task)
    ensures !NextTask(cfg, s, s.threads[t].task, ch).PassBegin? && !WritesMap(s.threads[t].task)
    ensures s.threads[t].task.PassBegin? ==> !WritesCli(s.threads[t].task)
    ensures s.threads[t].task.PassBegin? || InPass(s.threads[t].task)
  {
  }

  // The table stays, gains a client under a missing key, or loses an unwanted one.
  ghost predicate SmallChange(x: State, x': State) {
    || (x'.clients == x.clients && x'.heap == x.heap)
    || (exists k :: k !in x.clients && x'.clients == x.clients[k := |x.heap|] && |x'.heap| == |x.heap| + 1)
    || (exists k :: k !in x.secrets.reverse && x'.clients == x.clients - {k} && x'.heap == x.heap)
  }

  lemma KeepingTransfer(start: State, x: State, x': State, t: Tid)
    requires Keeping(start, x, t) && t in x'.threads && x'.threads[t].op == x.threads[t].op
    requires x.threads[t].task.PassBegin? || InPass(x.threads[t].task)
    requires x.threads[t].task.PassBegin? || x.secrets.version == 0 ==> x'.clients == x.clients
    requires x'.secrets == x.secrets && !x'.threads[t].task.PassBegin? && SmallChange(x, x')
    ensures Keeping(start, x', t)
  {
  }

  lemma KeepingOwnStep(cfg: Config, start: State, x: State, t: Tid, ch: Choice)
    requires PolledTableInv(cfg, x) && Keeping(start, x, t) && CanMove(cfg, x, t, ch)
    requires PolledTableInv(cfg, Moved(cfg, x, t, ch))
    ensures Keeping(start, Moved(cfg, x, t, ch), t)
  {
    var x', created := Moved(cfg, x, t, ch), Creating(x.threads[t].task);
    PassTasks(cfg, x, t, ch);
    Frames(cfg, x, t, ch);
    TableStep(cfg, x, t, ch);
    assert SmallChange(x, x') by {
      if created.Some? {
        assert created.value !in x.clients;
      }
    }
    assert x.secrets.version == 0 ==> x.clients == map[] == x'.clients;
    KeepingTransfer(start, x, x', t);
  }

  lemma {:induction false} DoneForever(cfg: Config, s: State, run: seq<Action>, end: State, t: Tid)
    requires t in s.threads && s.threads[t].task.Done? && Runs(cfg, s, run, end)
    ensures t in end.threads && end.threads[t] == s.threads[t]
    decreases |run|
  {
    if run != [] {
      DoneForever(cfg, Apply(cfg, s, run[0]), run[1..], end, t);
    }
  }

  lemma {:induction false} KeepingRun(cfg: Config, start: State, x: State, run: seq<Action>, s: State, t: Tid)
    requires cfg.mode == Polled && PolledTableInv(cfg, start) && PolledTableInv(cfg, x) && Keeping(start, x, t)
    requires Runs(cfg, x, run, s) && t in s.threads && !s.threads[t].task.Done?
    ensures Keeping(start, s, t)
    decreases |run|
  {
    if run != [] {
      if x.threads[t].task.Done? {
        DoneForever(cfg, x, run, s, t);
      }
      PolledTableStep(cfg, x, run[0]);
      KeepingStep(cfg, start, x, run[0], t);
      KeepingRun(cfg, start, Apply(cfg, x, run[0]), run[1..], s, t);
    }
  }

  /**
   Polled mode: from where it starts to where it ends, a pass does to the table just
   what the sequential `update_clients` does, whatever ran in between: it keeps the
   identical client of every key already there and still wanted, makes new ones for
   the rest, and leaves a table that has the desired keys as it is.
   */
  lemma PassRefinesUpdateClients(cfg: Config, start: State, run: seq<Action>, s: State, t: Tid, ch: Choice)
    requires cfg.mode == Polled && Reachable(cfg, start) && Runs(cfg, start, run, s)
    requires t in start.threads && start.threads[t] == Thread(UpdateClients, PassBegin)
    requires CanMove(cfg, s, t, ch) && NextTask(cfg, s, s.threads[t].task, ch).Done?
    ensures var end := Moved(cfg, s, t, ch);
            && Reconciles(end.secrets, start.clients, end.clients)
            && (if end.secrets.version == 0 then end.clients == start.clients
                else
                  && end.clients.Keys == end.secrets.reverse.Keys
                  && (forall k | k in end.clients && k in start.clients :: end.clients[k] == start.clients[k]))
            && (forall k | k in end.clients && k !in start.clients :: end.clients[k] >= |start.heap|)
            && (start.clients.Keys == end.secrets.reverse.Keys ==> end.clients == start.clients)
  {
    ReachablePolledTable(cfg, start);
    ReachableRun(cfg, start, run, s);
    ReachablePolledTable(cfg, s);
    assert Keeping(start, start, t);
    KeepingRun(cfg, start, start, run, s, t);
    OpConstant(cfg, start, run, s, t);
    PassEndsExact(cfg, s, t, ch);
    KeptAtEnd(cfg, start, s, t, ch);
  }

  lemma {:induction false} OpConstant(cfg: Config, s: State, run: seq<Action>, end: State, t: Tid)
    requires t in s.threads && Runs(cfg, s, run, end)
    ensures t in end.threads && end.threads[t].op == s.threads[t].op
    decreases |run|
  {
    if run != [] {
      OpConstant(cfg, Apply(cfg, s, run[0]), run[1..], end, t);
    }
  }

  lemma KeptAtEnd(cfg: Config, start: State, s: State, t: Tid, ch: Choice)
    requires Inv(cfg, s) && Keeping(start, s, t) && CanMove(cfg, s, t, ch)
    requires NextTask(cfg, s, s.threads[t].task, ch).Done? && s.clients.Keys == s.secrets.reverse.Keys
    ensures Reconciles(s.secrets, start.clients, s.clients)
    ensures start.clients.Keys == s.secrets.reverse.Keys ==> s.clients == start.clients
  {
    assert Belongs(cfg, s.threads[t].op, s.threads[t].task);
    assert InPass(s.threads[t].task);
  }
}

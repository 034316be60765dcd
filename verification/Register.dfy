/**
 Polled mode: any number of concurrent `update_mapping` calls, each reading the
 version under one lock and writing under another, act as one atomic
 last-writer-wins register.
 */
module Register {
  import opened Mappings
  import opened Protocol
  import opened Invariant

  // What the calls listed in `lin` deliver, in that order.
  ghost function Deliveries(s: State): seq<Release>
    requires forall t | t in s.lin :: t in s.threads && s.threads[t].op.UpdateMapping?
  {
    seq(|s.lin|, i requires 0 <= i < |s.lin| =>
      assert s.lin[i] in s.lin; s.threads[s.lin[i]].op.offer.Released())
  }

  // The call's place in the order is settled: it is known to be out of date, or done.
  predicate TookEffect(task: Task) {
    task.Done? || (task.GotVersion? && task.offer.version <= task.stale)
  }

  ghost predicate Linearised(s: State) {
    && (forall t | t in s.lin :: t in s.threads && s.threads[t].op.UpdateMapping?)
    && (forall i, j | 0 <= i < j < |s.lin| :: s.lin[i] != s.lin[j])
    && (forall t | t in s.threads && s.threads[t].op.UpdateMapping? ::
          t in s.lin <==> TookEffect(s.threads[t].task))
    && s.secrets.Released() == KeepAll(DEFAULT.Released(), Deliveries(s))
    && s.secrets.Indexed()
  }

  // No step of a polled run inserts.
  ghost predicate NoInserts(s: State) {
    && s.synced == []
    && (forall t | t in s.threads :: !s.threads[t].op.Sync?)
  }

  ghost predicate PolledInv(cfg: Config, s: State) {
    Inv(cfg, s) && Linearised(s) && NoInserts(s)
  }

  // ---------------------------------------------------------------------
  // The refinement
  // ---------------------------------------------------------------------

  lemma StepRefines(cfg: Config, s: State, t: Tid, ch: Choice)
    requires PolledInv(cfg, s) && CanMove(cfg, s, t, ch)
    ensures var s' := Moved(cfg, s, t, ch);
            || (s'.lin == s.lin && s'.secrets == s.secrets)
            || (&& s'.lin == s.lin + [t] && t !in s.lin && s.threads[t].op.UpdateMapping?
                && s'.secrets.Released() == Keep(s.secrets.Released(), s.threads[t].op.offer.Released()))
    ensures Moved(cfg, s, t, ch).secrets.Indexed()
  {
    assert Belongs(cfg, s.threads[t].op, s.threads[t].task);
  }

  lemma EffectTaken(cfg: Config, s: State, t: Tid, ch: Choice)
    requires PolledInv(cfg, s) && CanMove(cfg, s, t, ch) && s.threads[t].op.UpdateMapping?
    ensures TookEffect(NextTask(cfg, s, s.threads[t].task, ch)) <==>
            TookEffect(s.threads[t].task) || Moved(cfg, s, t, ch).lin == s.lin + [t]
  {
    assert Belongs(cfg, s.threads[t].op, s.threads[t].task);
    assert LockFacts(s, s.threads[t].task);
    assert |s.lin + [t]| == |s.lin| + 1;
  }

  lemma DeliveriesGrow(s: State, s': State, t: Tid)
    requires forall u | u in s.lin :: u in s.threads && s.threads[u].op.UpdateMapping?
    requires forall u | u in s.threads :: u in s'.threads && s'.threads[u].op == s.threads[u].op
    requires t in s.threads && s.threads[t].op.UpdateMapping?
    requires s'.lin == s.lin || s'.lin == s.lin + [t]
    ensures forall u | u in s'.lin :: u in s'.threads && s'.threads[u].op.UpdateMapping?
    ensures Deliveries(s') ==
            if s'.lin == s.lin then Deliveries(s) else Deliveries(s) + [s.threads[t].op.offer.Released()]
  {
    assert s'.lin == s.lin + [t] ==> |s'.lin| == |s.lin| + 1;
  }

  lemma DeliveriesSame(s: State, s': State)
    requires forall u | u in s.lin :: u in s.threads && s.threads[u].op.UpdateMapping?
    requires forall u | u in s.threads :: u in s'.threads && s'.threads[u].op == s.threads[u].op
    requires s'.lin == s.lin
    ensures forall u | u in s'.lin :: u in s'.threads && s'.threads[u].op.UpdateMapping?
    ensures Deliveries(s') == Deliveries(s)
  {
  }

  lemma DeliveriesMove(cfg: Config, s: State, t: Tid, ch: Choice)
    requires PolledInv(cfg, s) && CanMove(cfg, s, t, ch)
    ensures var s' := Moved(cfg, s, t, ch);
            && (forall u | u in s'.lin :: u in s'.threads && s'.threads[u].op.UpdateMapping?)
            && s'.secrets.Released() == KeepAll(DEFAULT.Released(), Deliveries(s'))
            && s'.secrets.Indexed()
  {
    var s' := Moved(cfg, s, t, ch);
    StepRefines(cfg, s, t, ch);
    if s'.lin == s.lin {
      DeliveriesSame(s, s');
    } else {
      DeliveriesGrow(s, s', t);
      var d := Deliveries(s');
      assert d[..|d| - 1] == Deliveries(s);
    }
  }

  lemma EffectOnceMove(cfg: Config, s: State, t: Tid, ch: Choice)
    requires PolledInv(cfg, s) && CanMove(cfg, s, t, ch)
    ensures var s' := Moved(cfg, s, t, ch);
            && (forall i, j | 0 <= i < j < |s'.lin| :: s'.lin[i] != s'.lin[j])
            && (forall u | u in s'.threads && s'.threads[u].op.UpdateMapping? ::
                  u in s'.lin <==> TookEffect(s'.threads[u].task))
  {
    StepRefines(cfg, s, t, ch);
    if s.threads[t].op.UpdateMapping? {
      EffectTaken(cfg, s, t, ch);
    }
  }

  lemma LinearisedMove(cfg: Config, s: State, t: Tid, ch: Choice)
    requires PolledInv(cfg, s) && CanMove(cfg, s, t, ch)
    ensures Linearised(Moved(cfg, s, t, ch))
  {
    DeliveriesMove(cfg, s, t, ch);
    EffectOnceMove(cfg, s, t, ch);
  }

  lemma NoInsertsStep(cfg: Config, s: State, a: Action)
    requires cfg.mode == Polled && Inv(cfg, s) && NoInserts(s) && Enabled(cfg, s, a)
    ensures NoInserts(Apply(cfg, s, a))
  {
    if a.Move? {
      assert Belongs(cfg, s.threads[a.t].op, s.threads[a.t].task);
    }
  }

  lemma PolledStep(cfg: Config, s: State, a: Action)
    requires cfg.mode == Polled && PolledInv(cfg, s) && Enabled(cfg, s, a)
    ensures PolledInv(cfg, Apply(cfg, s, a))
  {
    InvStep(cfg, s, a);
    NoInsertsStep(cfg, s, a);
    if a.Move? {
      LinearisedMove(cfg, s, a.t, a.ch);
    } else {
      DeliveriesSame(s, Apply(cfg, s, a));
    }
  }

  lemma {:induction false} PolledRun(cfg: Config, s: State, run: seq<Action>, end: State)
    requires cfg.mode == Polled && PolledInv(cfg, s) && Runs(cfg, s, run, end)
    ensures PolledInv(cfg, end)
    decreases |run|
  {
    if run != [] {
      PolledStep(cfg, s, run[0]);
      PolledRun(cfg, Apply(cfg, s, run[0]), run[1..], end);
    }
  }

  lemma ReachablePolled(cfg: Config, s: State)
    requires cfg.mode == Polled && Reachable(cfg, s)
    ensures PolledInv(cfg, s)
  {
    var run :| Runs(cfg, INIT, run, s);
    PolledRun(cfg, INIT, run, s);
  }

  /**
   In every reachable polled state the mapping is the greatest one delivered by
   the calls that have taken effect, the earliest of those that tie. `lin` is
   their order: each such call is in it once, and every finished call is in it.
   */
  lemma MappingIsGreatestDelivered(cfg: Config, s: State)
    requires cfg.mode == Polled && Reachable(cfg, s)
    ensures Linearised(s)
    ensures GreatestEarliest(DEFAULT.Released(), Deliveries(s), s.secrets.Released())
  {
    ReachablePolled(cfg, s);
    RegisterHoldsGreatest(DEFAULT.Released(), Deliveries(s), s.secrets.Released());
  }

  /**
   One step of the server is either invisible to the register or one atomic
   delivery by the moving thread, made once and while its call is in progress.
   */
  lemma StepIsAtomicDelivery(cfg: Config, s: State, a: Action)
    requires cfg.mode == Polled && Reachable(cfg, s) && Enabled(cfg, s, a)
    ensures var s' := Apply(cfg, s, a);
            || (s'.lin == s.lin && s'.secrets == s.secrets)
            || (&& a.Move? && s'.lin == s.lin + [a.t] && a.t !in s.lin
                && s.threads[a.t].op.UpdateMapping? && !s.threads[a.t].task.Done?
                && s'.secrets.Released() == Keep(s.secrets.Released(), s.threads[a.t].op.offer.Released()))
  {
    ReachablePolled(cfg, s);
    if a.Move? {
      StepRefines(cfg, s, a.t, a.ch);
    }
  }

  /** The version never goes down in a polled run, and a changed mapping has a greater one. */
  lemma {:induction false} VersionNeverDecreases(cfg: Config, s: State, run: seq<Action>, end: State)
    requires cfg.mode == Polled && Reachable(cfg, s) && Runs(cfg, s, run, end)
    ensures s.secrets.version <= end.secrets.version
    ensures s.secrets.version == end.secrets.version ==> s.secrets == end.secrets
    decreases |run|
  {
    if run != [] {
      ReachablePolled(cfg, s);
      var mid := Apply(cfg, s, run[0]);
      ReachableStep(cfg, s, run[0]);
      if run[0].Move? {
        StepVersion(cfg, s, run[0].t, run[0].ch);
      }
      VersionNeverDecreases(cfg, mid, run[1..], end);
    }
  }

  lemma StepVersion(cfg: Config, s: State, t: Tid, ch: Choice)
    requires PolledInv(cfg, s) && CanMove(cfg, s, t, ch)
    ensures Moved(cfg, s, t, ch).secrets == s.secrets
         || Moved(cfg, s, t, ch).secrets.version > s.secrets.version
  {
    assert Belongs(cfg, s.threads[t].op, s.threads[t].task);
  }
}

/** Polled mode: what the single reconcile task guarantees about the table. */
module PolledTable {
  import opened Mappings
  import opened Protocol
  import opened Invariant
  import opened Register

  ghost predicate OnePass(s: State) {
    forall t, u | t in s.threads && u in s.threads && t != u ::
      s.threads[t].op.UpdateClients? && s.threads[u].op.UpdateClients? ==>
        s.threads[t].task.Done? || s.threads[u].task.Done?
  }

  ghost predicate CreatesOnlyMissing(s: State) {
    forall t | t in s.threads && Creating(s.threads[t].task).Some? ::
      Creating(s.threads[t].task).value !in s.clients
  }

  ghost predicate EmptyAtZero(s: State) {
    s.secrets.version == 0 ==> s.clients == map[] && s.secrets == DEFAULT
  }

  ghost predicate PolledTableInv(cfg: Config, s: State) {
    PolledInv(cfg, s) && OnePass(s) && CreatesOnlyMissing(s) && EmptyAtZero(s)
  }

  // Only the pass in progress creates clients, and only under a mapping.
  lemma CreatorIsPass(cfg: Config, s: State, t: Tid)
    requires PolledInv(cfg, s) && t in s.threads && Creating(s.threads[t].task).Some?
    ensures s.threads[t].op.UpdateClients? && s.secrets.version > 0
    ensures Creating(s.threads[t].task).value in s.secrets.reverse
  {
    assert Belongs(cfg, s.threads[t].op, s.threads[t].task);
    assert InPassFacts(s, s.threads[t].task);
  }

  // What one step can do to the table.
  lemma TableStep(cfg: Config, s: State, t: Tid, ch: Choice)
    requires PolledInv(cfg, s) && CanMove(cfg, s, t, ch)
    ensures var s', task := Moved(cfg, s, t, ch), s.threads[t].task;
            || (s'.clients == s.clients && s'.heap == s.heap)
            || (&& Creating(task).Some? && s'.clients == s.clients[Creating(task).value := |s.heap|]
                && |s'.heap| == |s.heap| + 1 && s'.heap[..|s.heap|] == s.heap)
            || (exists k :: k !in s.secrets.reverse && s'.clients == s.clients - {k} && s'.heap == s.heap)
  {
    assert InPassFacts(s, s.threads[t].task);
  }

  lemma CreatesOnlyMissingStep(cfg: Config, s: State, t: Tid, ch: Choice)
    requires PolledTableInv(cfg, s) && CanMove(cfg, s, t, ch)
    ensures CreatesOnlyMissing(Moved(cfg, s, t, ch))
  {
    var s', task := Moved(cfg, s, t, ch), s.threads[t].task;
    CreatingNext(cfg, s, task, ch);
    forall u | u in s'.threads && Creating(s'.threads[u].task).Some?
      ensures Creating(s'.threads[u].task).value !in s'.clients
    {
      if Publishing(cfg, task).Some? && u != t {
        CreatorIsPass(cfg, s, t);
        CreatorIsPass(cfg, s, u);
        assert false;
      }
    }
  }

  lemma EmptyAtZeroStep(cfg: Config, s: State, t: Tid, ch: Choice)
    requires PolledTableInv(cfg, s) && CanMove(cfg, s, t, ch)
    ensures EmptyAtZero(Moved(cfg, s, t, ch))
  {
    StepVersion(cfg, s, t, ch);
    if Creating(s.threads[t].task).Some? {
      CreatorIsPass(cfg, s, t);
    }
    TableStep(cfg, s, t, ch);
  }

  lemma OnePassStep(cfg: Config, s: State, a: Action)
    requires cfg.mode == Polled && OnePass(s) && Enabled(cfg, s, a)
    ensures OnePass(Apply(cfg, s, a))
  {
  }

  lemma QuietStep(cfg: Config, s: State, a: Action)
    requires CreatesOnlyMissing(s) && EmptyAtZero(s) && Enabled(cfg, s, a) && !a.Move?
    ensures CreatesOnlyMissing(Apply(cfg, s, a)) && EmptyAtZero(Apply(cfg, s, a))
  {
  }

  lemma PolledTableStep(cfg: Config, s: State, a: Action)
    requires cfg.mode == Polled && PolledTableInv(cfg, s) && Enabled(cfg, s, a)
    ensures PolledTableInv(cfg, Apply(cfg, s, a))
  {
    PolledStep(cfg, s, a);
    OnePassStep(cfg, s, a);
    match a
    case Move(t, ch) =>
      CreatesOnlyMissingStep(cfg, s, t, ch);
      EmptyAtZeroStep(cfg, s, t, ch);
    case _ =>
      QuietStep(cfg, s, a);
  }

  lemma {:induction false} PolledTableRun(cfg: Config, s: State, run: seq<Action>, end: State)
    requires cfg.mode == Polled && PolledTableInv(cfg, s) && Runs(cfg, s, run, end)
    ensures PolledTableInv(cfg, end)
    decreases |run|
  {
    if run != [] {
      PolledTableStep(cfg, s, run[0]);
      PolledTableRun(cfg, Apply(cfg, s, run[0]), run[1..], end);
    }
  }

  lemma ReachablePolledTable(cfg: Config, s: State)
    requires cfg.mode == Polled && Reachable(cfg, s)
    ensures PolledTableInv(cfg, s)
  {
    var run :| Runs(cfg, INIT, run, s);
    PolledTableRun(cfg, INIT, run, s);
  }
}

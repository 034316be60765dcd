/**
 Static mode: concurrent `sync` calls insert one after another, each once, and the
 mapping is what the last insert of each key made it.
 */
module StaticRegister {
  import opened Mappings
  import opened Protocol
  import opened Invariant
  import opened StaticMode

  // The operations listed in `lin`, in that order.
  ghost function Inserts(s: State): seq<Op>
    requires forall t | t in s.lin :: t in s.threads
  {
    seq(|s.lin|, i requires 0 <= i < |s.lin| => assert s.lin[i] in s.lin; s.threads[s.lin[i]].op)
  }

  // m has exactly these keys, each with the value it was last given.
  ghost predicate BindsLast(m: map<Key, Key>, keys: seq<Key>, values: seq<Key>)
    requires |keys| == |values|
  {
    && (forall k :: k in m <==> k in keys)
    && (forall i | 0 <= i < |keys| && keys[i] !in keys[i + 1..] :: m[keys[i]] == values[i])
  }

  ghost function ClientKeys(ops: seq<Op>): seq<Key>
    requires forall op | op in ops :: op.Sync?
  {
    seq(|ops|, i requires 0 <= i < |ops| => ops[i].c)
  }

  ghost function ServerKeys(ops: seq<Op>): seq<Key>
    requires forall op | op in ops :: op.Sync?
  {
    seq(|ops|, i requires 0 <= i < |ops| => ops[i].s)
  }

  // A client key has the server key that its last insert gave it, a server key the
  // client key of its last insert, and the version is that of the last insert.
  ghost predicate IsLastInserted(x: Secrets, ops: seq<Op>)
    requires forall op | op in ops :: op.Sync?
  {
    && x.version == (if ops == [] then 0 else ops[|ops| - 1].v)
    && BindsLast(x.mapping, ClientKeys(ops), ServerKeys(ops))
    && BindsLast(x.reverse, ServerKeys(ops), ClientKeys(ops))
  }

  ghost predicate InsertsLinearised(s: State) {
    && (forall t | t in s.lin :: t in s.threads && s.threads[t].op.Sync?)
    && (forall i, j | 0 <= i < j < |s.lin| :: s.lin[i] != s.lin[j])
    && (forall t | t in s.threads && s.threads[t].op.Sync? :: t in s.lin <==> s.threads[t].task.Done?)
    && InsertedOps(s)
  }

  ghost predicate InsertedOps(s: State)
    requires forall t | t in s.lin :: t in s.threads && s.threads[t].op.Sync?
  {
    IsLastInserted(s.secrets, Inserts(s))
  }

  lemma BindsOneMore(m: map<Key, Key>, keys: seq<Key>, values: seq<Key>, k: Key, v: Key)
    requires |keys| == |values| && BindsLast(m, keys, values)
    ensures BindsLast(m[k := v], keys + [k], values + [v])
  {
    var more := keys + [k];
    forall i | 0 <= i < |more| && more[i] !in more[i + 1..] ensures m[k := v][more[i]] == (values + [v])[i] {
      if i < |keys| {
        assert more[i + 1..] == keys[i + 1..] + [k];
        assert k in more[i + 1..];
      }
    }
  }

  lemma OneMoreInsert(x: Secrets, ops: seq<Op>, op: Op)
    requires (forall o | o in ops :: o.Sync?) && op.Sync? && IsLastInserted(x, ops)
    ensures IsLastInserted(Secrets(op.v, x.mapping[op.c := op.s], x.reverse[op.s := op.c]), ops + [op])
  {
    BindsOneMore(x.mapping, ClientKeys(ops), ServerKeys(ops), op.c, op.s);
    BindsOneMore(x.reverse, ServerKeys(ops), ClientKeys(ops), op.s, op.c);
    assert ClientKeys(ops + [op]) == ClientKeys(ops) + [op.c];
    assert ServerKeys(ops + [op]) == ServerKeys(ops) + [op.s];
  }

  // A step is invisible to the mapping, or it is the insert of a call in progress.
  lemma StepInserts(cfg: Config, s: State, t: Tid, ch: Choice)
    requires StaticInv(cfg, s) && CanMove(cfg, s, t, ch)
    ensures var s', op := Moved(cfg, s, t, ch), s.threads[t].op;
            || (s'.lin == s.lin && s'.secrets == s.secrets && (op.Sync? ==> !s'.threads[t].task.Done?))
            || (&& op.Sync? && s'.lin == s.lin + [t] && !s.threads[t].task.Done? && s'.threads[t].task.Done?
                && s'.secrets == Secrets(op.v, s.secrets.mapping[op.c := op.s], s.secrets.reverse[op.s := op.c]))
  {
    assert Belongs(cfg, s.threads[t].op, s.threads[t].task);
  }

  lemma InsertsGrow(s: State, s': State, t: Tid)
    requires forall u | u in s.lin :: u in s.threads && s.threads[u].op.Sync?
    requires forall u | u in s.threads :: u in s'.threads && s'.threads[u].op == s.threads[u].op
    requires t in s.threads && s.threads[t].op.Sync? && s'.lin == s.lin + [t]
    ensures forall u | u in s'.lin :: u in s'.threads && s'.threads[u].op.Sync?
    ensures Inserts(s') == Inserts(s) + [s.threads[t].op]
  {
  }

  lemma InsertsSame(s: State, s': State)
    requires forall u | u in s.lin :: u in s.threads && s.threads[u].op.Sync?
    requires forall u | u in s.threads :: u in s'.threads && s'.threads[u].op == s.threads[u].op
    requires s'.lin == s.lin
    ensures forall u | u in s'.lin :: u in s'.threads && s'.threads[u].op.Sync?
    ensures Inserts(s') == Inserts(s)
  {
  }

  lemma InsertedOpsNext(s: State, s': State, t: Tid)
    requires (forall u | u in s.lin :: u in s.threads && s.threads[u].op.Sync?) && InsertedOps(s)
    requires forall u | u in s.threads :: u in s'.threads && s'.threads[u].op == s.threads[u].op
    requires t in s.threads
    requires var op := s.threads[t].op;
             || (s'.lin == s.lin && s'.secrets == s.secrets)
             || (&& op.Sync? && s'.lin == s.lin + [t]
                 && s'.secrets == Secrets(op.v, s.secrets.mapping[op.c := op.s], s.secrets.reverse[op.s := op.c]))
    ensures (forall u | u in s'.lin :: u in s'.threads && s'.threads[u].op.Sync?) && InsertedOps(s')
  {
    if s'.lin == s.lin && s'.secrets == s.secrets {
      InsertsSame(s, s');
    } else {
      InsertsGrow(s, s', t);
      OneMoreInsert(s.secrets, Inserts(s), s.threads[t].op);
    }
  }

  lemma DoneOnceMove(cfg: Config, s: State, t: Tid, ch: Choice)
    requires StaticInv(cfg, s) && InsertsLinearised(s) && CanMove(cfg, s, t, ch)
    ensures var s' := Moved(cfg, s, t, ch);
            && (forall i, j | 0 <= i < j < |s'.lin| :: s'.lin[i] != s'.lin[j])
            && (forall u | u in s'.threads && s'.threads[u].op.Sync? :: u in s'.lin <==> s'.threads[u].task.Done?)
  {
    StepInserts(cfg, s, t, ch);
    assert !s.threads[t].task.Done?;
  }

  lemma InsertsMove(cfg: Config, s: State, t: Tid, ch: Choice)
    requires StaticInv(cfg, s) && InsertsLinearised(s) && CanMove(cfg, s, t, ch)
    ensures InsertsLinearised(Moved(cfg, s, t, ch))
  {
    StepInserts(cfg, s, t, ch);
    InsertedOpsNext(s, Moved(cfg, s, t, ch), t);
    DoneOnceMove(cfg, s, t, ch);
  }

  lemma InsertsStep(cfg: Config, s: State, a: Action)
    requires StaticInv(cfg, s) && InsertsLinearised(s) && Enabled(cfg, s, a)
    ensures InsertsLinearised(Apply(cfg, s, a))
  {
    if a.Move? {
      InsertsMove(cfg, s, a.t, a.ch);
    } else {
      InsertsSame(s, Apply(cfg, s, a));
    }
  }

  lemma {:induction false} InsertsRun(cfg: Config, s: State, run: seq<Action>, end: State)
    requires cfg.mode == Static && StaticInv(cfg, s) && InsertsLinearised(s) && Runs(cfg, s, run, end)
    ensures InsertsLinearised(end)
    decreases |run|
  {
    if run != [] {
      StaticStep(cfg, s, run[0]);
      InsertsStep(cfg, s, run[0]);
      InsertsRun(cfg, Apply(cfg, s, run[0]), run[1..], end);
    }
  }

  /**
   In every reachable static state: a client key is mapped exactly if some finished
   `sync` call inserted it, and then to the server key of the last one to do so; the
   index holds for a server key the client key of the last call for it; the version
   is that of the last call. Each finished call inserted once, the others not yet.
   */
  lemma MappingIsLastInserted(cfg: Config, s: State)
    requires cfg.mode == Static && Reachable(cfg, s)
    ensures InsertsLinearised(s) && IsLastInserted(s.secrets, Inserts(s))
  {
    var run :| Runs(cfg, INIT, run, s);
    InsertsRun(cfg, INIT, run, s);
  }

  /** Each step is invisible to the mapping or one insert, made once and during the call. */
  lemma StepIsAtomicInsert(cfg: Config, s: State, t: Tid, ch: Choice)
    requires cfg.mode == Static && Reachable(cfg, s) && CanMove(cfg, s, t, ch)
    ensures var s', op := Moved(cfg, s, t, ch), s.threads[t].op;
            || (s'.lin == s.lin && s'.secrets == s.secrets)
            || (&& op.Sync? && t !in s.lin && s'.lin == s.lin + [t]
                && s'.secrets == Secrets(op.v, s.secrets.mapping[op.c := op.s], s.secrets.reverse[op.s := op.c]))
  {
    ReachableStatic(cfg, s);
    MappingIsLastInserted(cfg, s);
    StepInserts(cfg, s, t, ch);
  }
}

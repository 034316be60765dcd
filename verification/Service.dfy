/** What queries are answered while the mapping and the table change. */
module Service {
  import opened Options
  import opened Mappings
  import opened Queries
  import opened Protocol
  import opened Invariant
  import opened Register
  import opened PolledTable

  // The verdict in one state: one mapping, one table.
  ghost function Decide(s: State, q: Query): Verdict<ClientId>
    requires TableInHeap(s)
  {
    match Resolve(s.secrets, q)
    case Refused(e) => Refuse(e)
    case Found(k) =>
      if k in s.clients && s.heap[s.clients[k]].initialized then Serve(s.clients[k], s.heap[s.clients[k]].repo)
      else Refuse(NotReady(k))
  }

  ghost predicate Answers(s: State, t: Tid, q: Query, v: Verdict<ClientId>) {
    t in s.threads && s.threads[t] == Thread(Ask(q), Done(Said(v)))
  }

  // ---------------------------------------------------------------------
  // One mapping decides
  // ---------------------------------------------------------------------

  /**
   Every mode: a query's verdict is the one that the state it returns in gives,
   although it looked at the mapping, the table and the client one after another.
   */
  lemma VerdictIsAtomic(cfg: Config, s: State, t: Tid, ch: Choice)
    requires Reachable(cfg, s) && CanMove(cfg, s, t, ch) && s.threads[t].op.Ask?
    requires NextTask(cfg, s, s.threads[t].task, ch).Done?
    ensures TableInHeap(s) && Answers(Moved(cfg, s, t, ch), t, s.threads[t].op.query, Decide(s, s.threads[t].op.query))
  {
    ReachableInv(cfg, s);
    assert Belongs(cfg, s.threads[t].op, s.threads[t].task);
    assert LockFacts(s, s.threads[t].task);
  }

  // The mapping when the query took its read lock, kept by the thread.
  function Seen(task: Task): Option<Secrets> {
    match task
    case QueryMapped(_, seen) => Some(seen)
    case QueryLooked(_, seen, _, _) => Some(seen)
    case QueryReading(_, seen, _, _) => Some(seen)
    case _ => None
  }

  /** Every mode: from the moment a query takes its read lock until it returns the mapping stays the same. */
  lemma QueryHoldsMapping(cfg: Config, s: State, t: Tid)
    requires Reachable(cfg, s) && t in s.threads && Seen(s.threads[t].task).Some?
    ensures Seen(s.threads[t].task) == Some(s.secrets)
  {
    ReachableInv(cfg, s);
    assert LockFacts(s, s.threads[t].task);
  }

  /** Every mode: `secret_keys` returns the mapping of one state, held since its lock was taken. */
  lemma KeysAreOneSnapshot(cfg: Config, s: State, a: Action, t: Tid)
    requires Reachable(cfg, s) && Enabled(cfg, s, a) && t in s.threads && s.threads[t].task.KeysHeld?
    ensures Apply(cfg, s, a).secrets == s.secrets
    ensures a.Move? && a.t == t ==> Apply(cfg, s, a).threads[t].task == Done(Keys(s.secrets.mapping))
  {
    ReachableInv(cfg, s);
    assert ReadsMap(s.threads[t].task);
  }

  /** Every mode: `client_sync_now` answers by the table and changes nothing. */
  lemma SyncNowAnswers(cfg: Config, s: State, t: Tid, ch: Choice, k: Key)
    requires Reachable(cfg, s) && CanMove(cfg, s, t, ch) && s.threads[t].op == SyncNow(k)
    ensures var s' := Moved(cfg, s, t, ch);
            && s' == s.(threads := s'.threads)
            && (s'.threads[t].task.Done? ==>
                  s'.threads[t].task.reply == (if k in s.clients then Nudged(k) else Said(Refuse(NotFound(k)))))
  {
    ReachableInv(cfg, s);
    assert Belongs(cfg, s.threads[t].op, s.threads[t].task);
  }

  // ---------------------------------------------------------------------
  // Revocation
  // ---------------------------------------------------------------------

  // The mapping does not know the query's key.
  predicate Unknown(x: Secrets, q: Query) {
    if q.ServerRepo? then q.key !in x.reverse else q.key !in x.mapping
  }

  lemma RevokedStep(cfg: Config, s: State, a: Action, q: Query, t: Tid, v: Verdict<ClientId>)
    requires Reachable(cfg, s) && Enabled(cfg, s, a)
    requires s.secrets.version > 0 && Unknown(s.secrets, q)
    requires Answers(Apply(cfg, s, a), t, q, v) && !Answers(s, t, q, v)
    ensures v == Refuse(NotFound(q.key))
  {
    if a.Move? && a.t == t {
      VerdictIsAtomic(cfg, s, t, a.ch);
    }
  }

  /**
   Polled mode: from a state whose mapping, above version 0, does not have the
   query's key, and for as long as it stays without it, every answer given is
   NotFound, whether or not the old client is still in the table.
   */
  lemma {:induction false} RevocationIsImmediate(cfg: Config, s: State, run: seq<Action>, end: State, q: Query,
                                                 t: Tid, v: Verdict<ClientId>)
    requires cfg.mode == Polled && Reachable(cfg, s) && s.secrets.version > 0
    requires Runs(cfg, s, run, end) && Always(cfg, s, run, (x: State) => Unknown(x.secrets, q))
    requires Answers(end, t, q, v) && !Answers(s, t, q, v)
    ensures v == Refuse(NotFound(q.key))
    decreases |run|
  {
    if run != [] {
      var mid := Apply(cfg, s, run[0]);
      ReachableStep(cfg, s, run[0]);
      assert Runs(cfg, mid, [], mid) && Runs(cfg, s, [run[0]], mid) by {
        assert [run[0]][1..] == [];
      }
      VersionNeverDecreases(cfg, s, [run[0]], mid);
      if Answers(mid, t, q, v) {
        RevokedStep(cfg, s, run[0], q, t, v);
      } else {
        RevocationIsImmediate(cfg, mid, run[1..], end, q, t, v);
      }
    }
  }

  // ---------------------------------------------------------------------
  // Continuity
  // ---------------------------------------------------------------------

  // The mapping takes the query to server key k.
  predicate LeadsTo(x: Secrets, q: Query, k: Key) {
    if q.ServerRepo? then q.key == k && k in x.reverse
    else q.key in x.mapping && x.mapping[q.key] == k
  }

  ghost predicate ServedBy(s: State, k: Key, id: ClientId) {
    k in s.clients && s.clients[k] == id && id < |s.heap| && s.heap[id].initialized
  }

  lemma LeadsToKnown(cfg: Config, s: State, q: Query, k: Key)
    requires PolledTableInv(cfg, s) && LeadsTo(s.secrets, q, k)
    ensures k in s.secrets.reverse && Resolve(s.secrets, q) == Found(k)
  {
  }

  // A client stays in its place while the mapping wants its key.
  lemma PlaceKept(cfg: Config, s: State, a: Action, k: Key, id: ClientId)
    requires PolledTableInv(cfg, s) && Enabled(cfg, s, a)
    requires k in s.secrets.reverse && ServedBy(s, k, id)
    ensures ServedBy(Apply(cfg, s, a), k, id)
  {
    if a.Move? {
      TableStep(cfg, s, a.t, a.ch);
      if Creating(s.threads[a.t].task).Some? {
        assert Creating(s.threads[a.t].task).value != k;
      }
    }
  }

  lemma ServedStep(cfg: Config, s: State, a: Action, q: Query, k: Key, id: ClientId, t: Tid, v: Verdict<ClientId>)
    requires cfg.mode == Polled && Reachable(cfg, s) && Enabled(cfg, s, a)
    requires LeadsTo(s.secrets, q, k) && ServedBy(s, k, id)
    requires Answers(Apply(cfg, s, a), t, q, v) && !Answers(s, t, q, v)
    ensures v == Serve(id, s.heap[id].repo)
  {
    ReachablePolledTable(cfg, s);
    LeadsToKnown(cfg, s, q, k);
    if a.Move? && a.t == t {
      VerdictIsAtomic(cfg, s, t, a.ch);
    }
  }

  /**
   Polled mode: from a state in which a key's client is initialised, and for as
   long as the mapping leads the query to that key, the client stays and every
   answer given comes from it, at every micro-step of every pass and update.
   */
  lemma {:induction false} ServiceContinues(cfg: Config, s: State, run: seq<Action>, end: State, q: Query,
                                            k: Key, id: ClientId)
    requires cfg.mode == Polled && Reachable(cfg, s) && ServedBy(s, k, id)
    requires Runs(cfg, s, run, end) && Always(cfg, s, run, (x: State) => LeadsTo(x.secrets, q, k))
    ensures ServedBy(end, k, id)
    ensures forall t, v | Answers(end, t, q, v) && !Answers(s, t, q, v) :: v.Serve? && v.client == id
    decreases |run|
  {
    if run != [] {
      var mid := Apply(cfg, s, run[0]);
      ReachablePolledTable(cfg, s);
      LeadsToKnown(cfg, s, q, k);
      PlaceKept(cfg, s, run[0], k, id);
      ReachableStep(cfg, s, run[0]);
      ServiceContinues(cfg, mid, run[1..], end, q, k, id);
      forall t, v | Answers(end, t, q, v) && !Answers(s, t, q, v) ensures v.Serve? && v.client == id {
        if Answers(mid, t, q, v) {
          ServedStep(cfg, s, run[0], q, k, id, t, v);
        }
      }
    }
  }

  // ---------------------------------------------------------------------
  // Client and server views
  // ---------------------------------------------------------------------

  /**
   Polled mode, any reachable state above version 0: a client key is known exactly
   when it is mapped, and then gets the very verdict of its server key, which is
   known too; and every known server key has a client key that gets its verdict.
   */
  lemma ViewsAgree(cfg: Config, s: State, c: Key, k: Key)
    requires cfg.mode == Polled && Reachable(cfg, s) && s.secrets.version > 0
    ensures TableInHeap(s)
    ensures Decide(s, ClientEval(c)) == Refuse(NotFound(c)) <==> c !in s.secrets.mapping
    ensures c in s.secrets.mapping ==>
              && Decide(s, ClientEval(c)) == Decide(s, ClientEvents(c)) == Decide(s, ServerRepo(s.secrets.mapping[c]))
              && Decide(s, ClientEval(c)) != Refuse(NotFound(s.secrets.mapping[c]))
    ensures Decide(s, ServerRepo(k)) != Refuse(NotFound(k)) ==>
              exists d :: d in s.secrets.mapping && s.secrets.mapping[d] == k
                          && Decide(s, ClientEval(d)) == Decide(s, ServerRepo(k))
  {
    ReachablePolledTable(cfg, s);
    if k in s.secrets.reverse {
      var d := s.secrets.reverse[k];
      assert d in s.secrets.mapping && s.secrets.mapping[d] == k;
      assert Decide(s, ClientEval(d)) == Decide(s, ServerRepo(k));
    }
  }
}

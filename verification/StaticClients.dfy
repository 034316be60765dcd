/** Static mode: when a client that serves keeps its place in the table. */
module StaticClients {
  import opened Options
  import opened Mappings
  import opened Evaluation
  import opened Queries
  import opened Protocol
  import opened Invariant
  import opened Locks
  import opened Progress
  import opened Service
  import opened Scenarios
  import opened StaticMode
  import opened StaticCompletion

  // ---------------------------------------------------------------------
  // When a serving client keeps its place
  // ---------------------------------------------------------------------

  // A `sync` call that has already found the key missing is in flight.
  ghost predicate CreatorInFlight(s: State, k: Key) {
    exists t | t in s.threads :: Creating(s.threads[t].task) == Some(k)
  }

  ghost predicate KeepsPlace(cfg: Config, s: State, k: Key, id: ClientId) {
    forall run, end | Runs(cfg, s, run, end) :: ServedBy(end, k, id)
  }

  lemma NoNewCreator(cfg: Config, s: State, t: Tid, ch: Choice, k: Key)
    requires CanMove(cfg, s, t, ch) && k in s.clients && !CreatorInFlight(s, k)
    ensures !CreatorInFlight(Moved(cfg, s, t, ch), k)
  {
    CreatingNext(cfg, s, s.threads[t].task, ch);
    assert Creating(s.threads[t].task) != Some(k);
  }

  lemma StaticClientsStay(cfg: Config, s: State, t: Tid, ch: Choice, k: Key, id: ClientId)
    requires StaticInv(cfg, s) && CanMove(cfg, s, t, ch) && ServedBy(s, k, id)
    requires Publishing(cfg, s.threads[t].task).Some? ==> Publishing(cfg, s.threads[t].task).value.0 != k
    ensures ServedBy(Moved(cfg, s, t, ch), k, id)
  {
    assert Belongs(cfg, s.threads[t].op, s.threads[t].task);
  }

  lemma PlaceKeptStep(cfg: Config, s: State, a: Action, k: Key, id: ClientId)
    requires StaticInv(cfg, s) && Enabled(cfg, s, a) && ServedBy(s, k, id) && !CreatorInFlight(s, k)
    ensures ServedBy(Apply(cfg, s, a), k, id) && !CreatorInFlight(Apply(cfg, s, a), k)
  {
    match a
    case Move(t, ch) =>
      PublishesCreated(cfg, s.threads[t].task);
      assert Creating(s.threads[t].task) != Some(k);
      StaticClientsStay(cfg, s, t, ch, k, id);
      NoNewCreator(cfg, s, t, ch, k);
    case _ =>
      NothingMoves(cfg, s, a, k, id);
  }

  lemma NothingMoves(cfg: Config, s: State, a: Action, k: Key, id: ClientId)
    requires Enabled(cfg, s, a) && !a.Move? && ServedBy(s, k, id)
    ensures ServedBy(Apply(cfg, s, a), k, id)
    ensures CreatorInFlight(Apply(cfg, s, a), k) ==> CreatorInFlight(s, k)
    ensures PastReads(Apply(cfg, s, a), k) ==> PastReads(s, k)
  {
  }

  lemma {:induction false} PlaceKeptRun(cfg: Config, s: State, run: seq<Action>, end: State, k: Key, id: ClientId)
    requires cfg.mode == Static && StaticInv(cfg, s) && Runs(cfg, s, run, end)
    requires ServedBy(s, k, id) && !CreatorInFlight(s, k)
    ensures ServedBy(end, k, id)
    decreases |run|
  {
    if run != [] {
      PlaceKeptStep(cfg, s, run[0], k, id);
      StaticStep(cfg, s, run[0]);
      PlaceKeptRun(cfg, Apply(cfg, s, run[0]), run[1..], end, k, id);
    }
  }

  // Once `t` is done creating for k, client `id` is out of k's place for good.
  ghost predicate WillReplace(s: State, t: Tid, k: Key, id: ClientId) {
    && t in s.threads && id < |s.heap|
    && (Creating(s.threads[t].task) == Some(k) || Lookup(s.clients, k) != Some(id))
  }

  lemma WillReplaceStep(cfg: Config, s: State, a: Action, t: Tid, k: Key, id: ClientId)
    requires Enabled(cfg, s, a) && WillReplace(s, t, k, id)
    ensures WillReplace(Apply(cfg, s, a), t, k, id)
  {
    if a.Move? && a.t == t && Creating(s.threads[t].task) == Some(k) {
      CreatingGoesOn(cfg, s, s.threads[t].task, a.ch);
    }
  }

  lemma {:induction false} WillReplaceRun(cfg: Config, s: State, run: seq<Action>, end: State, t: Tid,
                                           k: Key, id: ClientId)
    requires Runs(cfg, s, run, end) && WillReplace(s, t, k, id)
    ensures WillReplace(end, t, k, id)
    decreases |run|
  {
    if run != [] {
      WillReplaceStep(cfg, s, run[0], t, k, id);
      WillReplaceRun(cfg, Apply(cfg, s, run[0]), run[1..], end, t, k, id);
    }
  }

  // A `sync` call is past its reads and only has to put its client of k in the table.
  ghost predicate PastReads(s: State, k: Key) {
    exists t | t in s.threads ::
      (s.threads[t].task.NotifyHeld? || s.threads[t].task.Notified?) && s.threads[t].task.key == k
  }

  // In a doomed state nobody reads the mapping for a new client any more.
  lemma NoMoreReads(cfg: Config, s: State, t: Tid, ch: Choice, k: Key)
    requires cfg.fair && CanMove(cfg, s, t, ch) && Queued(s) && !PastReads(s, k)
    ensures !PastReads(Moved(cfg, s, t, ch), k)
  {
    assert !s.threads[t].task.NotifyWant?;
  }

  lemma PublisherPastReads(cfg: Config, s: State, t: Tid, k: Key)
    requires cfg.realtime && t in s.threads && !PastReads(s, k)
    ensures Publishing(cfg, s.threads[t].task).Some? ==> Publishing(cfg, s.threads[t].task).value.0 != k
  {
  }

  lemma DoomedPlaceStep(cfg: Config, s: State, a: Action, k: Key, id: ClientId)
    requires StaticInv(cfg, s) && cfg.realtime && cfg.fair && Enabled(cfg, s, a)
    requires Queued(s) && !PastReads(s, k) && ServedBy(s, k, id)
    ensures !PastReads(Apply(cfg, s, a), k) && ServedBy(Apply(cfg, s, a), k, id)
  {
    match a
    case Move(t, ch) =>
      NoMoreReads(cfg, s, t, ch, k);
      PublisherPastReads(cfg, s, t, k);
      StaticClientsStay(cfg, s, t, ch, k, id);
    case _ =>
      NothingMoves(cfg, s, a, k, id);
  }

  lemma {:induction false} DoomedPlaceRun(cfg: Config, s: State, run: seq<Action>, end: State, k: Key, id: ClientId)
    requires cfg.mode == Static && StaticInv(cfg, s) && cfg.realtime && cfg.fair && Runs(cfg, s, run, end)
    requires Doomed(s) && !PastReads(s, k) && ServedBy(s, k, id)
    ensures ServedBy(end, k, id)
    decreases |run|
  {
    if run != [] {
      DoomedPlaceStep(cfg, s, run[0], k, id);
      DoomedStep(cfg, s, run[0]);
      StaticStep(cfg, s, run[0]);
      DoomedPlaceRun(cfg, Apply(cfg, s, run[0]), run[1..], end, k, id);
    }
  }

  // Every call can finish, so the one that creates does.
  lemma FinishingReplaces(cfg: Config, s: State, k: Key, id: ClientId)
    requires CreatorInFlight(s, k) && ServedBy(s, k, id) && CanAllFinish(cfg, s)
    ensures !KeepsPlace(cfg, s, k, id)
  {
    var t :| t in s.threads && Creating(s.threads[t].task) == Some(k);
    var run, end :| OnlyMoves(run) && Runs(cfg, s, run, end) && !Unfinished(end);
    WillReplaceRun(cfg, s, run, end, t, k, id);
    assert end.threads[t].task.Done?;
    assert !ServedBy(end, k, id);
  }

  // A call past its reads needs no further lock.
  lemma PastReadsReplaces(cfg: Config, s: State, k: Key, id: ClientId)
    requires PastReads(s, k) && ServedBy(s, k, id)
    ensures !KeepsPlace(cfg, s, k, id)
  {
    var t :| t in s.threads
          && (s.threads[t].task.NotifyHeld? || s.threads[t].task.Notified?) && s.threads[t].task.key == k;
    if s.threads[t].task.NotifyHeld? {
      var mid := Moved(cfg, s, t, Auto);
      assert mid.threads[t].task.Notified? && mid.clients == s.clients && mid.heap == s.heap;
      NotifiedReplaces(cfg, mid, t, id);
      var run := [Move(t, Auto)] + [Move(t, Auto)];
      assert run[1..] == [Move(t, Auto)];
      assert Runs(cfg, s, run, Moved(cfg, mid, t, Auto));
    } else {
      NotifiedReplaces(cfg, s, t, id);
    }
  }

  lemma NotifiedReplaces(cfg: Config, s: State, t: Tid, id: ClientId)
    requires t in s.threads && s.threads[t].task.Notified? && ServedBy(s, s.threads[t].task.key, id)
    ensures CanMove(cfg, s, t, Auto) && Runs(cfg, s, [Move(t, Auto)], Moved(cfg, s, t, Auto))
    ensures !ServedBy(Moved(cfg, s, t, Auto), s.threads[t].task.key, id)
  {
    assert [Move(t, Auto)][1..] == [];
    assert Runs(cfg, Moved(cfg, s, t, Auto), [], Moved(cfg, s, t, Auto));
  }

  /**
   Static mode, every build: a serving client keeps its place in every run if and
   only if no `sync` call in flight has already found its key missing, or, in the
   realtime build with fair locks, the state is doomed and no such call is past its
   reads.
   */
  lemma ServingClientKeepsPlaceIff(cfg: Config, s: State, k: Key, id: ClientId)
    requires cfg.mode == Static && Reachable(cfg, s) && ServedBy(s, k, id)
    ensures KeepsPlace(cfg, s, k, id) <==>
            || !CreatorInFlight(s, k)
            || (cfg.realtime && cfg.fair && Doomed(s) && !PastReads(s, k))
  {
    ReachableStatic(cfg, s);
    StaticFinishableIff(cfg, s);
    if !CreatorInFlight(s, k) {
      forall run, end | Runs(cfg, s, run, end) ensures ServedBy(end, k, id) {
        PlaceKeptRun(cfg, s, run, end, k, id);
      }
    } else if CanAllFinish(cfg, s) {
      FinishingReplaces(cfg, s, k, id);
    } else if PastReads(s, k) {
      PastReadsReplaces(cfg, s, k, id);
    } else {
      forall run, end | Runs(cfg, s, run, end) ensures ServedBy(end, k, id) {
        DoomedPlaceRun(cfg, s, run, end, k, id);
      }
    }
  }

  // ---------------------------------------------------------------------
  // A run in which one loses it, in either build
  // ---------------------------------------------------------------------

  lemma FindsMissing(cfg: Config, s: State, t: Tid, c: Key, k: Key, v: Version)
    requires Reachable(cfg, s) && Undisturbed(s, t) && t !in s.threads && cfg.mode != Polled && k !in s.clients
    ensures Reachable(cfg, At(s, t, Sync(c, k, v), CliWant(Create(k, ToInsert(c, k, v)))))
  {
    Call(cfg, s, t, Sync(c, k, v));
    Go(cfg, s, t, Sync(c, k, v), CheckKey(k, ToInsert(c, k, v)), Auto);
    Go(cfg, s, t, Sync(c, k, v), CheckedKey(k, ToInsert(c, k, v), true), Auto);
  }

  // A `sync` call that has found its key missing is about to put a client in the
  // table; in the realtime build it has read the index first.
  lemma AboutToPublish(cfg: Config, s: State, t: Tid, k: Key, op: Op, ret: Return) returns (task: Task)
    requires Undisturbed(s, t) && Reachable(cfg, At(s, t, op, CliWant(Create(k, ret))))
    ensures Reachable(cfg, At(s, t, op, task)) && Publishing(cfg, task) == Some((k, ret))
  {
    task := CliHeld(Create(k, ret));
    Go(cfg, s, t, op, CliWant(Create(k, ret)), Auto);
    Go(cfg, s, t, op, CliQueued(Create(k, ret)), Auto);
    if cfg.realtime {
      Go(cfg, s, t, op, task, Auto);
      task := ThroughNotify(cfg, s, t, k, op, ret);
    }
  }

  // The rest of a `sync` call that is about to put its client in the table, and
  // that client's first poll.
  lemma FinishesAndPolls(cfg: Config, s: State, t: Tid, c: Key, k: Key, v: Version, task: Task) returns (s': State)
    requires Undisturbed(s, t) && Reachable(cfg, At(s, t, Sync(c, k, v), task))
    requires Publishing(cfg, task) == Some((k, ToInsert(c, k, v)))
    ensures s'.threads == s.threads[t := Thread(Sync(c, k, v), Done(Finished))]
    ensures s'.secrets == Inserted(s.secrets, c, k, v) && ServedBy(s', k, |s.heap|)
    ensures Reachable(cfg, s')
  {
    var op := Sync(c, k, v);
    var s1 := PublishLast(cfg, s, t, op, task);
    InsertAlone(cfg, s1, t, c, k, v);
    var s2 := At(AfterInsert(s1, t, c, k, v), t, op, Done(Finished));
    var poll := Poll(|s.heap|, EMPTY_REPOSITORY);
    ReachableStep(cfg, s2, poll);
    s' := Apply(cfg, s2, poll);
  }

  lemma Standing(s: State, t: Tid)
    requires t in s.threads
    ensures s == At(s, t, s.threads[t].op, s.threads[t].task)
  {
    assert s.threads[t := s.threads[t]] == s.threads;
  }

  // Whoever puts a new client in the table makes its key unready.
  lemma NewClientNotReady(cfg: Config, s: State, t: Tid, ch: Choice, k: Key)
    requires Reachable(cfg, s) && CanMove(cfg, s, t, ch) && s.secrets.version > 0 && k in s.secrets.reverse
    requires Publishing(cfg, s.threads[t].task).Some? && Publishing(cfg, s.threads[t].task).value.0 == k
    ensures TableInHeap(Moved(cfg, s, t, ch))
    ensures Decide(Moved(cfg, s, t, ch), ServerRepo(k)) == Refuse(NotReady(k))
  {
    ReachableInv(cfg, s);
    TableKept(cfg, s, t, ch);
  }

  const PAIR := Sync("c", "k", 1)
  const JOB := Create("k", ToInsert("c", "k", 1))

  // Both calls have found the key missing; the second has done its work since.
  lemma SecondOvertakes(cfg: Config) returns (s: State)
    requires cfg.mode == Static
    ensures Reachable(cfg, s) && s.threads == map[0 := Thread(PAIR, CliWant(JOB)), 1 := Thread(PAIR, Done(Finished))]
    ensures s.secrets == Inserted(DEFAULT, "c", "k", 1) && ServedBy(s, "k", 0)
  {
    InitReachable(cfg);
    FindsMissing(cfg, INIT, 0, "c", "k", 1);
    var s0 := At(INIT, 0, PAIR, CliWant(JOB));
    FindsMissing(cfg, s0, 1, "c", "k", 1);
    var task := AboutToPublish(cfg, s0, 1, "k", PAIR, JOB.ret);
    s := FinishesAndPolls(cfg, s0, 1, "c", "k", 1, task);
  }

  /**
   Two overlapping `sync` calls for one key, in either build: both find it missing,
   one finishes and its client serves, and then the other puts a new client in its
   place, which is not ready.
   */
  lemma OverlappingSyncsReplaceClient(cfg: Config) returns (s: State, a: Action)
    requires cfg.mode == Static
    ensures Reachable(cfg, s) && Enabled(cfg, s, a)
    ensures "k" in s.secrets.reverse && ServedBy(s, "k", 0)
    ensures TableInHeap(Apply(cfg, s, a)) && Decide(Apply(cfg, s, a), ServerRepo("k")) == Refuse(NotReady("k"))
  {
    var s1 := SecondOvertakes(cfg);
    Standing(s1, 0);
    var task := AboutToPublish(cfg, s1, 0, "k", PAIR, JOB.ret);
    s := At(s1, 0, PAIR, task);
    a := Move(0, Auto);
    assert CanMove(cfg, s, 0, Auto);
    NewClientNotReady(cfg, s, 0, Auto, "k");
  }
}

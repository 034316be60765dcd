/** Building concrete runs: one thread moves while the others stand aside. */
module Scenarios {
  import opened Options
  import opened Mappings
  import opened Protocol

  // The state `s` with thread `t` at a given task.
  ghost function At(s: State, t: Tid, op: Op, task: Task): State {
    s.(threads := s.threads[t := Thread(op, task)])
  }

  lemma Call(cfg: Config, s: State, t: Tid, op: Op)
    requires Reachable(cfg, s) && t !in s.threads && Allowed(cfg.mode, s, op)
    ensures Reachable(cfg, At(s, t, op, Start(op)))
  {
    ReachableStep(cfg, s, Begin(t, op));
  }

  // Nobody but `t` holds either lock or queues for it.
  ghost predicate Undisturbed(s: State, t: Tid) {
    forall u | u in s.threads && u != t ::
      var task := s.threads[u].task;
      && !ReadsMap(task) && !WritesMap(task) && !task.MapQueued?
      && !ReadsCli(task) && !WritesCli(task) && !task.CliQueued?
  }

  lemma GrantedAlone(cfg: Config, s: State, t: Tid, op: Op, task: Task)
    requires Undisturbed(s, t)
    ensures Granted(cfg, At(s, t, op, task), task)
  {
  }

  // Tasks whose next step changes nothing but the thread.
  predicate Local(cfg: Config, s: State, task: Task) {
    && (task.ReadVersion? ==> task.offer.version > s.secrets.version)
    && !task.MapHeld? && !task.Notified? && (task.CliHeld? ==> task.cliJob.Create? && cfg.realtime)
  }

  lemma LocalFrame(cfg: Config, s: State, t: Tid, task: Task, ch: Choice)
    requires Local(cfg, s, task)
    ensures NextSecrets(s, task, ch) == s.secrets && NextClients(cfg, s, task) == s.clients
    ensures NextHeap(cfg, s, task) == s.heap && NextSynced(cfg, s, task) == s.synced && NextLin(s, t, task) == s.lin
  {
  }

  // Other threads have no part in what a step does.
  lemma ThreadsApart(cfg: Config, s: State, s': State, task: Task, ch: Choice)
    requires s' == s.(threads := s'.threads) && Ready(s, task, ch)
    ensures Ready(s', task, ch) && NextTask(cfg, s', task, ch) == NextTask(cfg, s, task, ch)
  {
  }

  lemma LocalStep(cfg: Config, s: State, t: Tid, op: Op, task: Task, ch: Choice)
    requires Reachable(cfg, At(s, t, op, task)) && Local(cfg, s, task) && Ready(s, task, ch)
    requires Granted(cfg, At(s, t, op, task), task)
    ensures Reachable(cfg, At(s, t, op, NextTask(cfg, s, task, ch)))
  {
    var before := At(s, t, op, task);
    ThreadsApart(cfg, s, before, task, ch);
    LocalFrame(cfg, before, t, task, ch);
    ReachableStep(cfg, before, Move(t, ch));
    assert Moved(cfg, before, t, ch) == At(s, t, op, NextTask(cfg, s, task, ch));
  }

  // A local step with nobody in the way.
  lemma Go(cfg: Config, s: State, t: Tid, op: Op, task: Task, ch: Choice)
    requires Undisturbed(s, t)
    requires Reachable(cfg, At(s, t, op, task)) && Local(cfg, s, task) && Ready(s, task, ch)
    ensures Reachable(cfg, At(s, t, op, NextTask(cfg, s, task, ch)))
  {
    GrantedAlone(cfg, s, t, op, task);
    LocalStep(cfg, s, t, op, task, ch);
  }

  // A newer mapping is delivered.
  lemma UpdateAlone(cfg: Config, s: State, t: Tid, next: Secrets)
    requires Reachable(cfg, s) && Undisturbed(s, t) && t !in s.threads && cfg.mode != Static
    requires next.version > s.secrets.version && next.Indexed()
    ensures Reachable(cfg, At(s.(secrets := next, lin := s.lin + [t]), t, UpdateMapping(next), Done(Finished)))
  {
    var op, stale := UpdateMapping(next), s.secrets.version;
    Call(cfg, s, t, op);
    Go(cfg, s, t, op, ReadVersion(next), Auto);
    Go(cfg, s, t, op, GotVersion(next, stale), Auto);
    Go(cfg, s, t, op, MapWant(Adopt(next)), Auto);
    Go(cfg, s, t, op, MapQueued(Adopt(next)), Auto);
    AdoptLast(cfg, s, t, next);
  }

  lemma AdoptLast(cfg: Config, s: State, t: Tid, next: Secrets)
    requires Reachable(cfg, At(s, t, UpdateMapping(next), MapHeld(Adopt(next))))
    requires next.version > s.secrets.version && next.Indexed()
    ensures Reachable(cfg, At(s.(secrets := next, lin := s.lin + [t]), t, UpdateMapping(next), Done(Finished)))
  {
    var before := At(s, t, UpdateMapping(next), MapHeld(Adopt(next)));
    var after := At(s.(secrets := next, lin := s.lin + [t]), t, UpdateMapping(next), Done(Finished));
    ReachableStep(cfg, before, Move(t, Rebuilt(next)));
    assert Moved(cfg, before, t, Rebuilt(next)).threads == after.threads;
    assert Moved(cfg, before, t, Rebuilt(next)) == after;
  }

  // A newer mapping is delivered and its writer gets as far as the queue.
  lemma UpdateQueues(cfg: Config, s: State, t: Tid, next: Secrets)
    requires Reachable(cfg, s) && t !in s.threads && cfg.mode != Static
    requires forall u | u in s.threads :: !WritesMap(s.threads[u].task) && !s.threads[u].task.MapQueued?
    requires next.version > s.secrets.version
    ensures Reachable(cfg, At(s, t, UpdateMapping(next), MapQueued(Adopt(next))))
  {
    var op, stale := UpdateMapping(next), s.secrets.version;
    Call(cfg, s, t, op);
    LocalStep(cfg, s, t, op, ReadVersion(next), Auto);
    LocalStep(cfg, s, t, op, GotVersion(next, stale), Auto);
    LocalStep(cfg, s, t, op, MapWant(Adopt(next)), Auto);
  }

  // A thread goes from its check of a missing key to the notifier.
  lemma CreateStarts(cfg: Config, s: State, t: Tid, op: Op, k: Key, ret: Return)
    requires cfg.realtime && k !in s.clients && Undisturbed(s, t)
    requires Reachable(cfg, At(s, t, op, CheckKey(k, ret)))
    ensures Reachable(cfg, At(s, t, op, NotifyWant(k, ret)))
  {
    Go(cfg, s, t, op, CheckKey(k, ret), Auto);
    Go(cfg, s, t, op, CheckedKey(k, ret, true), Auto);
    Go(cfg, s, t, op, CliWant(Create(k, ret)), Auto);
    Go(cfg, s, t, op, CliQueued(Create(k, ret)), Auto);
    Go(cfg, s, t, op, CliHeld(Create(k, ret)), Auto);
  }

  // A pass starts and takes the key `k` from its list.
  lemma PassTakes(cfg: Config, s: State, t: Tid, k: Key) returns (ret: Return)
    requires Reachable(cfg, s) && Undisturbed(s, t) && t !in s.threads && Allowed(cfg.mode, s, UpdateClients)
    requires s.secrets.version > 0 && k in s.secrets.reverse
    ensures Reachable(cfg, At(s, t, UpdateClients, CheckKey(k, ret))) && ret.ToPass?
  {
    var op, desired := UpdateClients, s.secrets.reverse.Keys;
    var p := Pass(desired, desired, s.clients.Keys, |s.synced|);
    ret := ToPass(p.(todo := desired - {k}));
    Call(cfg, s, t, op);
    Go(cfg, s, t, op, PassBegin, Auto);
    Go(cfg, s, t, op, PassCloning, Auto);
    Go(cfg, s, t, op, PassCloned(s.clients.Keys, |s.synced|), Auto);
    Go(cfg, s, t, op, PassSyncing(p), Pick(k));
  }

  // The notifier reads the index and is ready to put its client in the table.
  lemma ThroughNotify(cfg: Config, s: State, t: Tid, k: Key, op: Op, ret: Return) returns (task: Task)
    requires cfg.realtime && Undisturbed(s, t) && Reachable(cfg, At(s, t, op, NotifyWant(k, ret)))
    ensures Reachable(cfg, At(s, t, op, task)) && Publishing(cfg, task) == Some((k, ret))
  {
    var captured := Lookup(s.secrets.reverse, k);
    Go(cfg, s, t, op, NotifyWant(k, ret), Auto);
    Go(cfg, s, t, op, NotifyHeld(k, ret, captured, s.secrets), Auto);
    task := Notified(k, ret, captured, s.secrets);
  }

  // A `SdkRepository::sync` call for a new key runs to its end.
  lemma SyncAlone(cfg: Config, s: State, t: Tid, c: Key, k: Key, v: Version) returns (s': State)
    requires Reachable(cfg, s) && Undisturbed(s, t) && t !in s.threads && cfg.mode != Polled
    requires cfg.realtime && k !in s.clients
    ensures s'.clients == s.clients[k := |s.heap|] && s'.secrets == Inserted(s.secrets, c, k, v)
    ensures s'.threads == s.threads
    ensures Reachable(cfg, At(s', t, Sync(c, k, v), Done(Finished)))
  {
    var op, ret := Sync(c, k, v), ToInsert(c, k, v);
    Call(cfg, s, t, op);
    CreateStarts(cfg, s, t, op, k, ret);
    var task := ThroughNotify(cfg, s, t, k, op, ret);
    var s1 := PublishLast(cfg, s, t, op, task);
    InsertAlone(cfg, s1, t, c, k, v);
    s' := AfterInsert(s1, t, c, k, v);
  }

  ghost function AfterInsert(s: State, t: Tid, c: Key, k: Key, v: Version): State {
    s.(secrets := Inserted(s.secrets, c, k, v), lin := s.lin + [t])
  }

  lemma InsertAlone(cfg: Config, s: State, t: Tid, c: Key, k: Key, v: Version)
    requires Undisturbed(s, t) && Reachable(cfg, At(s, t, Sync(c, k, v), MapWant(Insert(c, k, v))))
    ensures Reachable(cfg, At(AfterInsert(s, t, c, k, v), t, Sync(c, k, v), Done(Finished)))
  {
    Go(cfg, s, t, Sync(c, k, v), MapWant(Insert(c, k, v)), Auto);
    Go(cfg, s, t, Sync(c, k, v), MapQueued(Insert(c, k, v)), Auto);
    InsertLast(cfg, s, t, c, k, v);
  }

  // A new client goes into the table.
  lemma PublishLast(cfg: Config, s: State, t: Tid, op: Op, task: Task) returns (s': State)
    requires Reachable(cfg, At(s, t, op, task)) && Publishing(cfg, task).Some?
    ensures s'.clients == s.clients[Publishing(cfg, task).value.0 := |s.heap|] && |s'.heap| == |s.heap| + 1
    ensures s'.secrets == s.secrets && s'.threads == s.threads && !s'.heap[|s.heap|].initialized
    ensures Reachable(cfg, At(s', t, op, Resume(Publishing(cfg, task).value.1)))
  {
    var before := At(s, t, op, task);
    var after := Moved(cfg, before, t, Auto);
    ReachableStep(cfg, before, Move(t, Auto));
    s' := after.(threads := s.threads);
    assert after.threads == s.threads[t := Thread(op, Resume(Publishing(cfg, task).value.1))];
  }

  lemma InsertLast(cfg: Config, s: State, t: Tid, c: Key, k: Key, v: Version)
    requires Reachable(cfg, At(s, t, Sync(c, k, v), MapHeld(Insert(c, k, v))))
    ensures Reachable(cfg, At(AfterInsert(s, t, c, k, v), t, Sync(c, k, v), Done(Finished)))
  {
    var before := At(s, t, Sync(c, k, v), MapHeld(Insert(c, k, v)));
    var after := At(AfterInsert(s, t, c, k, v), t, Sync(c, k, v), Done(Finished));
    ReachableStep(cfg, before, Move(t, Auto));
    assert Moved(cfg, before, t, Auto).threads == after.threads;
    assert Moved(cfg, before, t, Auto) == after;
  }

  // A further `sync` for a key already in the table is about to insert.
  lemma SyncToInsert(cfg: Config, s: State, t: Tid, c: Key, k: Key, v: Version)
    requires Reachable(cfg, s) && Undisturbed(s, t) && t !in s.threads && cfg.mode != Polled
    requires k in s.clients
    ensures Reachable(cfg, At(s, t, Sync(c, k, v), MapWant(Insert(c, k, v))))
  {
    Call(cfg, s, t, Sync(c, k, v));
    Go(cfg, s, t, Sync(c, k, v), CheckKey(k, ToInsert(c, k, v)), Auto);
    Go(cfg, s, t, Sync(c, k, v), CheckedKey(k, ToInsert(c, k, v), false), Auto);
  }

  lemma InitReachable(cfg: Config)
    ensures Reachable(cfg, INIT)
  {
    assert Runs(cfg, INIT, [], INIT);
  }
}

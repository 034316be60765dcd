/** What every reachable state of the protocol satisfies, in any mode and build. */
module Invariant {
  import opened Options
  import opened Mappings
  import opened Evaluation
  import opened Queries
  import opened Protocol

  // ---------------------------------------------------------------------
  // Which tasks an operation goes through
  // ---------------------------------------------------------------------

  predicate MapTask(task: Task, job: MapJob) {
    task == MapWant(job) || task == MapQueued(job) || task == MapHeld(job)
  }

  predicate CliTask(task: Task, job: CliJob) {
    task == CliWant(job) || task == CliQueued(job) || task == CliHeld(job)
  }

  predicate SyncTask(task: Task, key: Key, ret: Return) {
    || task == CheckKey(key, ret)
    || (task.CheckedKey? && task.key == key && task.ret == ret)
    || CliTask(task, Create(key, ret))
    || task == NotifyWant(key, ret)
    || (task.NotifyHeld? && task.key == key && task.ret == ret)
    || (task.Notified? && task.key == key && task.ret == ret)
  }

  predicate Belongs(cfg: Config, op: Op, task: Task) {
    && (task.Done? ||
        match op
        case UpdateMapping(offer) =>
          task == ReadVersion(offer) || (task.GotVersion? && task.offer == offer) || MapTask(task, Adopt(offer))
        case UpdateClients => task.PassBegin? || InPass(task)
        case Sync(c, s, v) => SyncTask(task, s, ToInsert(c, s, v)) || MapTask(task, Insert(c, s, v))
        case Ask(q) =>
          (task.QueryBegin? || task.QueryMapped? || task.QueryLooked? || task.QueryReading?) && task.query == q
        case SecretKeys => task.KeysBegin? || task.KeysHeld?
        case SyncNow(s) => CliTask(task, Nudge(s)))
    && (task.NotifyWant? || task.NotifyHeld? || task.Notified? ==> cfg.realtime)
  }

  // ---------------------------------------------------------------------
  // Which key a thread will put in the table
  // ---------------------------------------------------------------------

  // The key a thread has found missing and will put in the table.
  function Creating(task: Task): Option<Key> {
    match task
    case CheckedKey(k, _, missing) => if missing then Some(k) else None
    case CliWant(Create(k, _)) => Some(k)
    case CliQueued(Create(k, _)) => Some(k)
    case CliHeld(Create(k, _)) => Some(k)
    case NotifyWant(k, _) => Some(k)
    case NotifyHeld(k, _, _, _) => Some(k)
    case Notified(k, _, _, _) => Some(k)
    case _ => None
  }

  lemma CreatingNext(cfg: Config, s: State, task: Task, ch: Choice)
    requires Ready(s, task, ch)
    ensures var next := NextTask(cfg, s, task, ch);
            Creating(next).Some? ==>
              || (Creating(next) == Creating(task) && Publishing(cfg, task).None?)
              || (task.CheckKey? && Creating(next).value !in s.clients)
  {
  }

  lemma CreatingGoesOn(cfg: Config, s: State, task: Task, ch: Choice)
    requires Ready(s, task, ch) && Creating(task).Some?
    ensures Creating(NextTask(cfg, s, task, ch)) == Creating(task)
         || (Publishing(cfg, task).Some? && Publishing(cfg, task).value.0 == Creating(task).value)
  {
  }

  lemma PublishesCreated(cfg: Config, task: Task)
    ensures Publishing(cfg, task).Some? ==> Creating(task) == Some(Publishing(cfg, task).value.0)
  {
  }

  // ---------------------------------------------------------------------
  // What a thread may rely on where it stands
  // ---------------------------------------------------------------------

  // A pass past its snapshot works on the mapping's present keys. `current` is
  // the key being synced and `removing` the one being removed.
  ghost predicate PassFacts(s: State, p: Pass, current: Option<Key>, removing: Option<Key>) {
    && s.secrets.version > 0 && p.desired == s.secrets.reverse.Keys
    && p.todo <= p.desired && p.mark <= |s.synced|
    && (current.Some? ==> current.value in p.desired)
    && (removing.Some? ==> removing.value !in p.desired && p.todo == {})
    && (forall k | k in p.desired && k !in p.todo && Some(k) != current :: k in s.clients)
    && (forall k | k in s.clients ::
          k in p.desired || k in p.rest || Some(k) == removing || k in s.synced[p.mark..])
  }

  // The pass a task belongs to, with the keys it is handling.
  function PassOf(task: Task): Option<(Pass, Option<Key>, Option<Key>)> {
    match task
    case PassSyncing(p) => Some((p, None, None))
    case PassRemoving(p) => Some((p, None, None))
    case CheckKey(k, ToPass(p)) => Some((p, Some(k), None))
    case CheckedKey(k, ToPass(p), _) => Some((p, Some(k), None))
    case CliWant(job) => PassOfJob(job)
    case CliQueued(job) => PassOfJob(job)
    case CliHeld(job) => PassOfJob(job)
    case NotifyWant(k, ToPass(p)) => Some((p, Some(k), None))
    case NotifyHeld(k, ToPass(p), _, _) => Some((p, Some(k), None))
    case Notified(k, ToPass(p), _, _) => Some((p, Some(k), None))
    case _ => None
  }

  function PassOfJob(job: CliJob): Option<(Pass, Option<Key>, Option<Key>)> {
    match job
    case Create(k, ToPass(p)) => Some((p, Some(k), None))
    case Remove(k, p) => Some((p, None, Some(k)))
    case _ => None
  }

  ghost predicate InPassFacts(s: State, task: Task) {
    PassOf(task).Some? ==>
      var (p, current, removing) := PassOf(task).value;
      PassFacts(s, p, current, removing)
  }

  // What was read under a lock that is still held is still so.
  ghost predicate LockFacts(s: State, task: Task) {
    match task
    case GotVersion(_, stale) => stale == s.secrets.version
    case CheckedKey(k, _, missing) => missing == (k !in s.clients)
    case NotifyHeld(k, _, captured, under) => under == s.secrets && captured == Lookup(under.reverse, k)
    case Notified(k, ret, captured, under) =>
      captured == Lookup(under.reverse, k) && (ret.ToPass? ==> under == s.secrets)
    case PassCloned(snapshot, mark) => snapshot == s.clients.Keys && mark == |s.synced|
    case PassRemoving(p) => p.todo == {}
    case QueryMapped(_, seen) => seen == s.secrets
    case QueryLooked(q, seen, k, found) =>
      seen == s.secrets && Resolve(seen, q) == Found(k) && found == Lookup(s.clients, k)
    case QueryReading(q, seen, k, id) =>
      && seen == s.secrets && Resolve(seen, q) == Found(k) && Lookup(s.clients, k) == Some(id)
      && id < |s.heap| && s.heap[id].initialized
    case _ => true
  }

  // ---------------------------------------------------------------------
  // The invariant
  // ---------------------------------------------------------------------

  /** A writer of either lock has it to itself. */
  ghost predicate Exclusive(s: State) {
    forall t, u | t in s.threads && u in s.threads && t != u ::
      && (WritesMap(s.threads[t].task) ==> !WritesMap(s.threads[u].task) && !ReadsMap(s.threads[u].task))
      && (WritesCli(s.threads[t].task) ==> !WritesCli(s.threads[u].task) && !ReadsCli(s.threads[u].task))
  }

  ghost predicate TableInHeap(s: State) {
    forall k | k in s.clients :: s.clients[k] < |s.heap| && s.heap[s.clients[k]].key == k
  }

  ghost predicate Inv(cfg: Config, s: State) {
    && Exclusive(s)
    && TableInHeap(s)
    && (forall t | t in s.threads :: Belongs(cfg, s.threads[t].op, s.threads[t].task))
    && (forall t | t in s.threads :: LockFacts(s, s.threads[t].task))
    && (forall t | t in s.threads :: InPassFacts(s, s.threads[t].task))
  }

  // ---------------------------------------------------------------------
  // Every step keeps it
  // ---------------------------------------------------------------------

  // A lock is only ever taken when it is free to be taken.
  lemma LocksTaken(cfg: Config, s: State, t: Tid, ch: Choice)
    requires CanMove(cfg, s, t, ch)
    ensures var task, next := s.threads[t].task, NextTask(cfg, s, s.threads[t].task, ch);
            && (WritesMap(next) ==> CanWriteMap(s))
            && (ReadsMap(next) ==> ReadsMap(task) || forall u | u in s.threads :: !WritesMap(s.threads[u].task))
            && (WritesCli(next) ==> WritesCli(task) || CanWriteCli(s))
            && (ReadsCli(next) ==> ReadsCli(task) || forall u | u in s.threads :: !WritesCli(s.threads[u].task))
  {
  }

  lemma ExclusiveKept(cfg: Config, s: State, t: Tid, ch: Choice)
    requires CanMove(cfg, s, t, ch) && Exclusive(s)
    ensures Exclusive(Moved(cfg, s, t, ch))
  {
    LocksTaken(cfg, s, t, ch);
  }

  lemma BelongsKept(cfg: Config, s: State, t: Tid, ch: Choice)
    requires CanMove(cfg, s, t, ch) && Belongs(cfg, s.threads[t].op, s.threads[t].task)
    ensures Belongs(cfg, s.threads[t].op, NextTask(cfg, s, s.threads[t].task, ch))
  {
  }

  // Changes to the shared state that leave the facts of others standing.
  ghost predicate Tolerable(s: State, s': State, p: Pass) {
    && s'.secrets == s.secrets
    && s.synced <= s'.synced
    && (forall k | k in s.clients && k in p.desired :: k in s'.clients)
    && (forall k | k in s'.clients :: k in s.clients || k in p.desired || k in s'.synced[|s.synced|..])
  }

  lemma PassFactsKept(s: State, s': State, p: Pass, current: Option<Key>, removing: Option<Key>)
    requires PassFacts(s, p, current, removing) && Tolerable(s, s', p)
    ensures PassFacts(s', p, current, removing)
  {
    forall k | k in s.synced[p.mark..] || k in s'.synced[|s.synced|..] ensures k in s'.synced[p.mark..] {
      assert s'.synced[p.mark..] == s.synced[p.mark..] + s'.synced[|s.synced|..];
    }
  }

  // What a step may change depends on the write locks its thread holds.
  lemma Frames(cfg: Config, s: State, t: Tid, ch: Choice)
    requires CanMove(cfg, s, t, ch)
    ensures var s' := Moved(cfg, s, t, ch);
            && (!WritesMap(s.threads[t].task) ==> s'.secrets == s.secrets)
            && (!WritesCli(s.threads[t].task) ==>
                  s'.clients == s.clients && s'.heap == s.heap && s'.synced == s.synced)
  {
  }

  // While a pass holds the mapping, no step of any thread disturbs it.
  lemma StepTolerable(cfg: Config, s: State, t: Tid, ch: Choice, p: Pass)
    requires Inv(cfg, s) && CanMove(cfg, s, t, ch) && !WritesMap(s.threads[t].task)
    requires p.desired == s.secrets.reverse.Keys
    ensures Tolerable(s, Moved(cfg, s, t, ch), p)
  {
    assert InPassFacts(s, s.threads[t].task);
  }

  lemma OtherLockFacts(cfg: Config, s: State, t: Tid, ch: Choice, u: Tid)
    requires Inv(cfg, s) && CanMove(cfg, s, t, ch) && u in s.threads && u != t
    ensures LockFacts(Moved(cfg, s, t, ch), s.threads[u].task)
  {
    assert LockFacts(s, s.threads[u].task);
    assert ReadsMap(s.threads[u].task) ==> !WritesMap(s.threads[t].task);
    assert ReadsCli(s.threads[u].task) ==> !WritesCli(s.threads[t].task);
    Frames(cfg, s, t, ch);
  }

  lemma OtherPassFacts(cfg: Config, s: State, t: Tid, ch: Choice, u: Tid)
    requires Inv(cfg, s) && CanMove(cfg, s, t, ch) && u in s.threads && u != t
    ensures InPassFacts(Moved(cfg, s, t, ch), s.threads[u].task)
  {
    var task := s.threads[u].task;
    if PassOf(task).Some? {
      PassReads(task);
      assert !WritesMap(s.threads[t].task);
      var (p, current, removing) := PassOf(task).value;
      assert InPassFacts(s, task);
      StepTolerable(cfg, s, t, ch, p);
      PassFactsKept(s, Moved(cfg, s, t, ch), p, current, removing);
    }
  }

  lemma PassReads(task: Task)
    requires PassOf(task).Some?
    ensures ReadsMap(task) && !WritesMap(task)
  {
  }

  lemma MoverLockFacts(cfg: Config, s: State, t: Tid, ch: Choice)
    requires Inv(cfg, s) && CanMove(cfg, s, t, ch)
    ensures LockFacts(Moved(cfg, s, t, ch), NextTask(cfg, s, s.threads[t].task, ch))
  {
    var task := s.threads[t].task;
    Frames(cfg, s, t, ch);
    assert LockFacts(s, task) && InPassFacts(s, task);
    assert Belongs(cfg, s.threads[t].op, task);
  }

  // Most steps leave a thread handling the same keys of the same pass.
  predicate Advances(task: Task) {
    || task.PassCloned? || task.PassSyncing? || task.PassRemoving?
    || task.CheckedKey? || task.CliHeld? || task.Notified?
  }

  lemma PassCarried(cfg: Config, s: State, t: Tid, ch: Choice)
    requires CanMove(cfg, s, t, ch) && !Advances(s.threads[t].task)
    ensures PassOf(NextTask(cfg, s, s.threads[t].task, ch)) == PassOf(s.threads[t].task)
  {
  }

  lemma PassStarts(cfg: Config, s: State, t: Tid, ch: Choice)
    requires CanMove(cfg, s, t, ch) && s.threads[t].task.PassCloned? && LockFacts(s, s.threads[t].task)
    ensures InPassFacts(Moved(cfg, s, t, ch), NextTask(cfg, s, s.threads[t].task, ch))
  {
  }

  // A loop takes its next key, or `Inner::sync` returns with its key in the table.
  lemma PassGoesOn(cfg: Config, s: State, t: Tid, ch: Choice)
    requires CanMove(cfg, s, t, ch) && LockFacts(s, s.threads[t].task)
    requires Advances(s.threads[t].task) && PassOf(s.threads[t].task).Some?
    requires InPassFacts(Moved(cfg, s, t, ch), s.threads[t].task)
    ensures InPassFacts(Moved(cfg, s, t, ch), NextTask(cfg, s, s.threads[t].task, ch))
  {
  }

  lemma MoverPassFacts(cfg: Config, s: State, t: Tid, ch: Choice)
    requires Inv(cfg, s) && CanMove(cfg, s, t, ch)
    ensures InPassFacts(Moved(cfg, s, t, ch), NextTask(cfg, s, s.threads[t].task, ch))
  {
    var task, s' := s.threads[t].task, Moved(cfg, s, t, ch);
    assert LockFacts(s, task) && InPassFacts(s, task);
    if PassOf(task).Some? {
      PassReads(task);
      var (p, current, removing) := PassOf(task).value;
      StepTolerable(cfg, s, t, ch, p);
      PassFactsKept(s, s', p, current, removing);
      if Advances(task) {
        PassGoesOn(cfg, s, t, ch);
      } else {
        PassCarried(cfg, s, t, ch);
      }
    } else if task.PassCloned? {
      PassStarts(cfg, s, t, ch);
    } else {
      NoPassStarts(cfg, s, t, ch);
    }
  }

  lemma NoPassStarts(cfg: Config, s: State, t: Tid, ch: Choice)
    requires CanMove(cfg, s, t, ch) && PassOf(s.threads[t].task).None? && !s.threads[t].task.PassCloned?
    ensures PassOf(NextTask(cfg, s, s.threads[t].task, ch)).None?
  {
  }

  lemma TableKept(cfg: Config, s: State, t: Tid, ch: Choice)
    requires TableInHeap(s) && CanMove(cfg, s, t, ch)
    ensures TableInHeap(Moved(cfg, s, t, ch))
  {
  }

  lemma InvMove(cfg: Config, s: State, t: Tid, ch: Choice)
    requires Inv(cfg, s) && CanMove(cfg, s, t, ch)
    ensures Inv(cfg, Moved(cfg, s, t, ch))
  {
    var s' := Moved(cfg, s, t, ch);
    ExclusiveKept(cfg, s, t, ch);
    TableKept(cfg, s, t, ch);
    BelongsKept(cfg, s, t, ch);
    MoverLockFacts(cfg, s, t, ch);
    MoverPassFacts(cfg, s, t, ch);
    forall u | u in s'.threads
      ensures Belongs(cfg, s'.threads[u].op, s'.threads[u].task)
      ensures LockFacts(s', s'.threads[u].task) && InPassFacts(s', s'.threads[u].task)
    {
      if u != t {
        OtherLockFacts(cfg, s, t, ch, u);
        OtherPassFacts(cfg, s, t, ch, u);
      }
    }
  }

  lemma InvPoll(cfg: Config, s: State, id: ClientId, repo: Repository)
    requires Inv(cfg, s) && Enabled(cfg, s, Poll(id, repo))
    ensures Inv(cfg, Apply(cfg, s, Poll(id, repo)))
  {
    var s' := Apply(cfg, s, Poll(id, repo));
    forall u | u in s'.threads
      ensures LockFacts(s', s'.threads[u].task) && InPassFacts(s', s'.threads[u].task)
    {
      assert LockFacts(s, s.threads[u].task) && InPassFacts(s, s.threads[u].task);
    }
  }

  lemma FactsFrame(s: State, s': State, task: Task)
    requires LockFacts(s, task) && InPassFacts(s, task)
    requires s' == s.(threads := s'.threads)
    ensures LockFacts(s', task) && InPassFacts(s', task)
  {
  }

  lemma StartFacts(cfg: Config, s: State, op: Op)
    ensures var task := Start(op);
            && Belongs(cfg, op, task) && LockFacts(s, task) && InPassFacts(s, task)
            && !WritesMap(task) && !ReadsMap(task) && !WritesCli(task) && !ReadsCli(task)
  {
  }

  lemma InvBegin(cfg: Config, s: State, t: Tid, op: Op)
    requires Inv(cfg, s) && Enabled(cfg, s, Begin(t, op))
    ensures Inv(cfg, Apply(cfg, s, Begin(t, op)))
  {
    var s' := Apply(cfg, s, Begin(t, op));
    StartFacts(cfg, s', op);
    assert forall u | u in s.threads :: s'.threads[u] == s.threads[u];
    forall u | u in s'.threads
      ensures LockFacts(s', s'.threads[u].task) && InPassFacts(s', s'.threads[u].task)
    {
      if u != t {
        FactsFrame(s, s', s.threads[u].task);
      }
    }
  }

  lemma InvStep(cfg: Config, s: State, a: Action)
    requires Inv(cfg, s) && Enabled(cfg, s, a)
    ensures Inv(cfg, Apply(cfg, s, a))
  {
    match a
    case Begin(t, op) => InvBegin(cfg, s, t, op);
    case Poll(id, repo) => InvPoll(cfg, s, id, repo);
    case Move(t, ch) => InvMove(cfg, s, t, ch);
  }

  lemma {:induction false} InvRun(cfg: Config, s: State, run: seq<Action>, end: State)
    requires Inv(cfg, s) && Runs(cfg, s, run, end)
    ensures Inv(cfg, end)
    decreases |run|
  {
    if run != [] {
      InvStep(cfg, s, run[0]);
      InvRun(cfg, Apply(cfg, s, run[0]), run[1..], end);
    }
  }

  lemma ReachableInv(cfg: Config, s: State)
    requires Reachable(cfg, s)
    ensures Inv(cfg, s)
  {
    var run :| Runs(cfg, INIT, run, s);
    InvRun(cfg, INIT, run, s);
  }
}

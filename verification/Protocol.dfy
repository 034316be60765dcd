/**
 The server as a transition system. Threads run the public operations; a step
 takes or releases one lock and does the code in between. The mapping is guarded
 by one RwLock and the client table by another; which locks a thread holds, or is
 queued for, follows from where it is.
 */
module Protocol {
  import opened Options
  import opened Mappings
  import opened Evaluation
  import opened Queries

  // Polled: `sync_with`, one reconcile task and mapping updates, no inserts.
  // Static: `sync` only. Open: every public operation, any number at once.
  datatype Mode = Polled | Static | Open

  // `realtime` is the build feature. `fair` makes readers queue behind waiting
  // writers, as parking_lot does; without it a reader may overtake them.
  datatype Config = Config(mode: Mode, realtime: bool, fair: bool)

  type Tid = nat
  type ClientId = nat

  // `notifies` is the client key captured for the update callback, `under` the
  // mapping in force when it was captured (recorded for the proofs only).
  datatype Client = Client(key: Key, initialized: bool, repo: Repository, notifies: Option<Key>, under: Secrets)

  datatype Op =
    | UpdateMapping(offer: Secrets)
    | UpdateClients
    | Sync(c: Key, s: Key, v: Version)
    | Ask(query: Query)
    | SecretKeys
    | SyncNow(s: Key)

  datatype Reply = Finished | Keys(mapping: map<Key, Key>) | Nudged(s: Key) | Said(verdict: Verdict<ClientId>)

  // A pass in its loops: the desired keys it read, those still to be synced, and
  // those of its snapshot still to be examined. `mark` is the length of `synced`
  // when the snapshot was taken (recorded for the proofs only).
  datatype Pass = Pass(desired: set<Key>, todo: set<Key>, rest: set<Key>, mark: nat)

  // Where `Inner::sync` returns to.
  datatype Return = ToInsert(c: Key, s: Key, v: Version) | ToPass(pass: Pass)

  // What a thread does under a write lock.
  datatype MapJob = Adopt(offer: Secrets) | Insert(c: Key, s: Key, v: Version)
  datatype CliJob = Create(key: Key, ret: Return) | Remove(key: Key, pass: Pass) | Nudge(key: Key)

  datatype Task =
    // Inner::update_mapping: the unlocked version check
    | ReadVersion(offer: Secrets)
    | GotVersion(offer: Secrets, stale: Version)
    // a section under the mapping's write lock: about to ask, queued, inside
    | MapWant(mapJob: MapJob)
    | MapQueued(mapJob: MapJob)
    | MapHeld(mapJob: MapJob)
    // Inner::sync: the check under the read lock
    | CheckKey(key: Key, ret: Return)
    | CheckedKey(key: Key, ret: Return, missing: bool)
    // a section under the table's write lock
    | CliWant(cliJob: CliJob)
    | CliQueued(cliJob: CliJob)
    | CliHeld(cliJob: CliJob)
    // setup_notify, inside the table's write lock
    | NotifyWant(key: Key, ret: Return)
    | NotifyHeld(key: Key, ret: Return, captured: Option<Key>, under: Secrets)
    | Notified(key: Key, ret: Return, captured: Option<Key>, under: Secrets)
    // Inner::update_clients
    | PassBegin
    | PassCloning
    | PassCloned(snapshot: set<Key>, mark: nat)
    | PassSyncing(pass: Pass)
    | PassRemoving(pass: Pass)
    // queries; `seen` is the mapping when the read lock was taken (for the proofs)
    | QueryBegin(query: Query)
    | QueryMapped(query: Query, seen: Secrets)
    | QueryLooked(query: Query, seen: Secrets, key: Key, found: Option<ClientId>)
    | QueryReading(query: Query, seen: Secrets, key: Key, id: ClientId)
    // secret_keys
    | KeysBegin
    | KeysHeld
    | Done(reply: Reply)

  datatype Thread = Thread(op: Op, task: Task)

  // `clients` is the table and `heap` every client ever made. A finished thread
  // stays, with its reply. `lin` lists mapping updates and inserts in the order in
  // which they take effect, `synced` the keys that `SdkRepository::sync` calls have put in
  // the table; both are records for the proofs.
  datatype State = State(
    secrets: Secrets,
    clients: map<Key, ClientId>,
    heap: seq<Client>,
    threads: map<Tid, Thread>,
    lin: seq<Tid>,
    synced: seq<Key>)

  const INIT := State(DEFAULT, map[], [], map[], [], [])

  // ---------------------------------------------------------------------
  // Locks
  // ---------------------------------------------------------------------


  predicate InPass(task: Task) {
    match task
    case CheckKey(_, ret) => ret.ToPass?
    case CheckedKey(_, ret, _) => ret.ToPass?
    case CliWant(job) => JobInPass(job)
    case CliQueued(job) => JobInPass(job)
    case CliHeld(job) => JobInPass(job)
    case NotifyWant(_, ret) => ret.ToPass?
    case NotifyHeld(_, ret, _, _) => ret.ToPass?
    case Notified(_, ret, _, _) => ret.ToPass?
    case _ => task.PassCloning? || task.PassCloned? || task.PassSyncing? || task.PassRemoving?
  }

  predicate JobInPass(job: CliJob) {
    match job
    case Create(_, ret) => ret.ToPass?
    case Remove(_, _) => true
    case Nudge(_) => false
  }

  predicate ReadsMap(task: Task) {
    || task.GotVersion? || task.NotifyHeld? || task.KeysHeld?
    || task.QueryMapped? || task.QueryLooked? || task.QueryReading?
    || InPass(task)
  }

  predicate WritesMap(task: Task) {
    task.MapHeld?
  }

  predicate ReadsCli(task: Task) {
    task.CheckedKey? || task.PassCloned? || task.QueryLooked? || task.QueryReading?
  }

  predicate WritesCli(task: Task) {
    task.CliHeld? || task.NotifyWant? || task.NotifyHeld? || task.Notified?
  }

  ghost predicate CanReadMap(cfg: Config, s: State) {
    forall t | t in s.threads ::
      !WritesMap(s.threads[t].task) && (cfg.fair ==> !s.threads[t].task.MapQueued?)
  }

  ghost predicate CanWriteMap(s: State) {
    forall t | t in s.threads :: !WritesMap(s.threads[t].task) && !ReadsMap(s.threads[t].task)
  }

  ghost predicate CanReadCli(cfg: Config, s: State) {
    forall t | t in s.threads ::
      !WritesCli(s.threads[t].task) && (cfg.fair ==> !s.threads[t].task.CliQueued?)
  }

  ghost predicate CanWriteCli(s: State) {
    forall t | t in s.threads :: !WritesCli(s.threads[t].task) && !ReadsCli(s.threads[t].task)
  }

  // ---------------------------------------------------------------------
  // One thread's step
  // ---------------------------------------------------------------------

  // What the step leaves open: the key a loop takes next, or the mapping with
  // the index that a rebuild left.
  datatype Choice = Auto | Pick(key: Key) | Rebuilt(next: Secrets)

  // The locks the step takes are to be had.
  ghost predicate Granted(cfg: Config, s: State, task: Task) {
    match task
    case ReadVersion(_) => CanReadMap(cfg, s)
    case PassBegin => CanReadMap(cfg, s)
    case QueryBegin(_) => CanReadMap(cfg, s)
    case KeysBegin => CanReadMap(cfg, s)
    case NotifyWant(_, _) => CanReadMap(cfg, s)
    case MapQueued(_) => CanWriteMap(s)
    case CheckKey(_, _) => CanReadCli(cfg, s)
    case PassCloning => CanReadCli(cfg, s)
    case QueryMapped(q, _) => Resolve(s.secrets, q).Found? ==> CanReadCli(cfg, s)
    case CliQueued(_) => CanWriteCli(s)
    case _ => true
  }

  // The choice is one the step has. A finished thread has none.
  ghost predicate Ready(s: State, task: Task, ch: Choice) {
    match task
    case MapHeld(job) => job.Adopt? ==> ch.Rebuilt? && Adopts(s.secrets, job.offer, ch.next)
    case PassSyncing(p) => p.todo != {} ==> ch.Pick? && ch.key in p.todo
    case PassRemoving(p) => p.rest != {} ==> ch.Pick? && ch.key in p.rest
    case QueryLooked(_, _, _, found) => found.Some? ==> found.value < |s.heap|
    case QueryReading(_, _, _, id) => id < |s.heap|
    case Done(_) => false
    case _ => true
  }

  ghost predicate CanMove(cfg: Config, s: State, t: Tid, ch: Choice) {
    t in s.threads && Granted(cfg, s, s.threads[t].task) && Ready(s, s.threads[t].task, ch)
  }

  // Where `Inner::sync` goes on.
  function Resume(ret: Return): Task {
    match ret
    case ToInsert(c, s, v) => MapWant(Insert(c, s, v))
    case ToPass(p) => PassSyncing(p)
  }

  ghost function NextTask(cfg: Config, s: State, task: Task, ch: Choice): Task
    requires Ready(s, task, ch)
  {
    match task
    case ReadVersion(offer) => GotVersion(offer, s.secrets.version)
    case GotVersion(offer, stale) => if offer.version > stale then MapWant(Adopt(offer)) else Done(Finished)
    case MapWant(job) => MapQueued(job)
    case MapQueued(job) => MapHeld(job)
    case MapHeld(_) => Done(Finished)
    case CheckKey(k, ret) => CheckedKey(k, ret, k !in s.clients)
    case CheckedKey(k, ret, missing) => if missing then CliWant(Create(k, ret)) else Resume(ret)
    case CliWant(job) => CliQueued(job)
    case CliQueued(job) => CliHeld(job)
    case CliHeld(Create(k, ret)) => if cfg.realtime then NotifyWant(k, ret) else Resume(ret)
    case CliHeld(Remove(_, p)) => PassRemoving(p)
    case CliHeld(Nudge(k)) => Done(if k in s.clients then Nudged(k) else Said(Refuse(NotFound(k))))
    case NotifyWant(k, ret) => NotifyHeld(k, ret, Lookup(s.secrets.reverse, k), s.secrets)
    case NotifyHeld(k, ret, captured, under) => Notified(k, ret, captured, under)
    case Notified(_, ret, _, _) => Resume(ret)
    case PassBegin => PassCloning
    case PassCloning => PassCloned(s.clients.Keys, |s.synced|)
    case PassCloned(snapshot, mark) =>
      if s.secrets.version > 0 then
        PassSyncing(Pass(s.secrets.reverse.Keys, s.secrets.reverse.Keys, snapshot, mark))
      else
        Done(Finished)
    case PassSyncing(p) =>
      if p.todo == {} then PassRemoving(p) else CheckKey(ch.key, ToPass(p.(todo := p.todo - {ch.key})))
    case PassRemoving(p) =>
      if p.rest == {} then Done(Finished)
      else if ch.key in p.desired then PassRemoving(p.(rest := p.rest - {ch.key}))
      else CliWant(Remove(ch.key, p.(rest := p.rest - {ch.key})))
    case QueryBegin(q) => QueryMapped(q, s.secrets)
    case QueryMapped(q, seen) =>
      (match Resolve(s.secrets, q)
       case Refused(e) => Done(Said(Refuse(e)))
       case Found(k) => QueryLooked(q, seen, k, Lookup(s.clients, k)))
    case QueryLooked(q, seen, k, found) =>
      if found.Some? && s.heap[found.value].initialized then QueryReading(q, seen, k, found.value)
      else Done(Said(Refuse(NotReady(k))))
    case QueryReading(_, _, _, id) => Done(Said(Serve(id, s.heap[id].repo)))
    case KeysBegin => KeysHeld
    case KeysHeld => Done(Keys(s.secrets.mapping))
  }

  ghost function NextSecrets(s: State, task: Task, ch: Choice): Secrets {
    match task
    case MapHeld(Adopt(_)) => if ch.Rebuilt? then ch.next else s.secrets
    case MapHeld(Insert(c, k, v)) => Inserted(s.secrets, c, k, v)
    case _ => s.secrets
  }

  // The key whose new client this step puts in the table, and where it returns.
  function Publishing(cfg: Config, task: Task): Option<(Key, Return)> {
    match task
    case CliHeld(Create(k, ret)) => if cfg.realtime then None else Some((k, ret))
    case Notified(k, ret, _, _) => Some((k, ret))
    case _ => None
  }

  function NextClients(cfg: Config, s: State, task: Task): map<Key, ClientId> {
    if Publishing(cfg, task).Some? then s.clients[Publishing(cfg, task).value.0 := |s.heap|]
    else if task.CliHeld? && task.cliJob.Remove? then s.clients - {task.cliJob.key}
    else s.clients
  }

  function NextHeap(cfg: Config, s: State, task: Task): seq<Client> {
    if Publishing(cfg, task).None? then s.heap
    else
      var k := Publishing(cfg, task).value.0;
      var (notifies, under) := if task.Notified? then (task.captured, task.under) else (None, s.secrets);
      s.heap + [Client(k, false, EMPTY_REPOSITORY, notifies, under)]
  }

  function NextSynced(cfg: Config, s: State, task: Task): seq<Key> {
    if Publishing(cfg, task).Some? && Publishing(cfg, task).value.1.ToInsert? then
      s.synced + [Publishing(cfg, task).value.0]
    else s.synced
  }

  // An update that will be turned away takes effect when it reads the version;
  // any other, and an insert, when it writes.
  function NextLin(s: State, t: Tid, task: Task): seq<Tid> {
    if task.ReadVersion? && task.offer.version <= s.secrets.version then s.lin + [t]
    else if task.MapHeld? then s.lin + [t]
    else s.lin
  }

  ghost function Moved(cfg: Config, s: State, t: Tid, ch: Choice): State
    requires CanMove(cfg, s, t, ch)
  {
    var task := s.threads[t].task;
    State(NextSecrets(s, task, ch), NextClients(cfg, s, task), NextHeap(cfg, s, task),
          s.threads[t := s.threads[t].(task := NextTask(cfg, s, task, ch))],
          NextLin(s, t, task), NextSynced(cfg, s, task))
  }

  // ---------------------------------------------------------------------
  // Steps and runs
  // ---------------------------------------------------------------------

  function Start(op: Op): Task {
    match op
    case UpdateMapping(offer) => ReadVersion(offer)
    case UpdateClients => PassBegin
    case Sync(c, s, v) => CheckKey(s, ToInsert(c, s, v))
    case Ask(q) => QueryBegin(q)
    case SecretKeys => KeysBegin
    case SyncNow(s) => CliWant(Nudge(s))
  }

  ghost predicate Allowed(mode: Mode, s: State, op: Op) {
    match mode
    case Open => true
    case Static => !op.UpdateMapping? && !op.UpdateClients?
    case Polled =>
      && !op.Sync?
      && (op.UpdateClients? ==> forall t | t in s.threads && s.threads[t].op.UpdateClients? :: s.threads[t].task.Done?)
  }

  // A call begins, a client's poller stores what it fetched, or a thread moves.
  datatype Action = Begin(t: Tid, op: Op) | Poll(id: ClientId, repo: Repository) | Move(t: Tid, ch: Choice)

  ghost predicate Enabled(cfg: Config, s: State, a: Action) {
    match a
    case Begin(t, op) => t !in s.threads && Allowed(cfg.mode, s, op)
    case Poll(id, _) => id < |s.heap|
    case Move(t, ch) => CanMove(cfg, s, t, ch)
  }

  ghost function Apply(cfg: Config, s: State, a: Action): State
    requires Enabled(cfg, s, a)
  {
    match a
    case Begin(t, op) => s.(threads := s.threads[t := Thread(op, Start(op))])
    case Poll(id, repo) => s.(heap := s.heap[id := s.heap[id].(initialized := true, repo := repo)])
    case Move(t, ch) => Moved(cfg, s, t, ch)
  }

  // The state after a run of actions, if each is enabled in its turn.
  ghost predicate Runs(cfg: Config, s: State, run: seq<Action>, end: State)
    decreases |run|
  {
    if run == [] then end == s
    else Enabled(cfg, s, run[0]) && Runs(cfg, Apply(cfg, s, run[0]), run[1..], end)
  }

  // P holds in every state of the run.
  ghost predicate Always(cfg: Config, s: State, run: seq<Action>, P: State -> bool)
    decreases |run|
  {
    P(s) && (run != [] && Enabled(cfg, s, run[0]) ==> Always(cfg, Apply(cfg, s, run[0]), run[1..], P))
  }

  ghost predicate Reachable(cfg: Config, s: State) {
    exists run :: Runs(cfg, INIT, run, s)
  }

  lemma {:induction false} RunsConcat(cfg: Config, s: State, run: seq<Action>, mid: State,
                                      more: seq<Action>, end: State)
    requires Runs(cfg, s, run, mid) && Runs(cfg, mid, more, end)
    ensures Runs(cfg, s, run + more, end)
    decreases |run|
  {
    if run == [] {
      assert run + more == more;
    } else {
      RunsConcat(cfg, Apply(cfg, s, run[0]), run[1..], mid, more, end);
      assert (run + more)[1..] == run[1..] + more;
    }
  }

  lemma ReachableStep(cfg: Config, s: State, a: Action)
    requires Reachable(cfg, s) && Enabled(cfg, s, a)
    ensures Reachable(cfg, Apply(cfg, s, a))
  {
    var run :| Runs(cfg, INIT, run, s);
    var end := Apply(cfg, s, a);
    assert Runs(cfg, end, [], end);
    assert [a][1..] == [];
    assert Runs(cfg, s, [a], end);
    RunsConcat(cfg, INIT, run, s, [a], end);
  }

  lemma ReachableRun(cfg: Config, s: State, run: seq<Action>, end: State)
    requires Reachable(cfg, s) && Runs(cfg, s, run, end)
    ensures Reachable(cfg, end)
  {
    var before :| Runs(cfg, INIT, before, s);
    RunsConcat(cfg, INIT, before, s, run, end);
  }
}

/** The HTTP handler: verdicts to responses, and events handed on. */
module Handler {
  import opened Options
  import opened Mappings
  import opened Evaluation
  import opened Queries
  import opened Protocol
  import opened Invariant
  import opened Service

  datatype Status = Ok | ServiceUnavailable | Unauthorized

  // Bodies before serialisation, which is total.
  datatype Body<D> =
    | WholeRepository(repo: Repository)
    | Evaluations(details: map<Key, D>)
    | EventList(events: string)
    | EmptyObject

  // The handler's `Result`: a response, or an error left to the framework.
  datatype Outcome<D> = Reply(status: Status, body: Body<D>) | Fail(error: Error)

  function ServerSdkToggles<D>(v: Verdict<ClientId>): Outcome<D> {
    match v
    case Serve(_, repo) => Reply(Ok, WholeRepository(repo))
    case Refuse(NotReady(_)) => Reply(ServiceUnavailable, EmptyObject)
    case Refuse(NotFound(_)) => Reply(Ok, WholeRepository(EMPTY_REPOSITORY))
    case Refuse(e) => Fail(e)
  }

  // A user parameter that cannot be decoded is `None`.
  function ClientSdkToggles<U, D>(user: Option<U>, v: Verdict<ClientId>, eval: Evaluator<U, D>): Outcome<D> {
    if user.None? then Fail(UserDecode)
    else
      match v
      case Serve(_, repo) => Reply(Ok, Evaluations(Evaluated(repo, user.value, eval)))
      case Refuse(NotReady(_)) => Reply(ServiceUnavailable, EmptyObject)
      case Refuse(NotFound(_)) => Reply(Ok, EmptyObject)
      case Refuse(e) => Fail(e)
  }

  function ClientSdkEvents<D>(v: Verdict<ClientId>): Outcome<D> {
    match v
    case Serve(_, repo) => Reply(Ok, EventList(repo.events))
    case Refuse(NotReady(_)) => Reply(ServiceUnavailable, EmptyObject)
    case Refuse(NotFound(_)) => Reply(Ok, EmptyObject)
    case Refuse(e) => Fail(e)
  }

  /**
   What `server_sdk_toggles` returns for a query that ends in this state: 503
   exactly at version 0 or for a known key without an initialised client, the
   default repository for an unknown key, and otherwise the key's own.
   */
  lemma ServerResponse<D>(cfg: Config, s: State, t: Tid, ch: Choice, k: Key, v: Verdict<ClientId>)
    requires Reachable(cfg, s) && CanMove(cfg, s, t, ch)
    requires s.threads[t].op == Ask(ServerRepo(k)) && Answers(Moved(cfg, s, t, ch), t, ServerRepo(k), v)
    ensures TableInHeap(s)
    ensures var r: Outcome<D> := ServerSdkToggles(v);
            && r.Reply?
            && (r.status == ServiceUnavailable <==>
                  || s.secrets.version == 0
                  || (k in s.secrets.reverse && !(k in s.clients && s.heap[s.clients[k]].initialized)))
            && (r.status == ServiceUnavailable ==> r.body == EmptyObject)
            && (s.secrets.version > 0 && k !in s.secrets.reverse ==> r == Reply(Ok, WholeRepository(EMPTY_REPOSITORY)))
            && (s.secrets.version > 0 && k in s.secrets.reverse
                && k in s.clients && s.heap[s.clients[k]].initialized ==>
                  r == Reply(Ok, WholeRepository(s.heap[s.clients[k]].repo)))
  {
    VerdictIsAtomic(cfg, s, t, ch);
  }

  /**
   What `client_sdk_toggles` returns for a query that ends in this state: 503 exactly
   at version 0 or for a mapped key whose server key has no initialised client, an
   empty object for an unmapped key, and otherwise the evaluation of its server key's
   repository. A user that cannot be decoded is an error whatever the verdict.
   */
  lemma ClientTogglesResponse<U, D>(cfg: Config, s: State, t: Tid, ch: Choice, c: Key, v: Verdict<ClientId>,
                                    user: U, eval: Evaluator<U, D>)
    requires Reachable(cfg, s) && CanMove(cfg, s, t, ch)
    requires s.threads[t].op == Ask(ClientEval(c)) && Answers(Moved(cfg, s, t, ch), t, ClientEval(c), v)
    ensures TableInHeap(s) && ClientSdkToggles(None, v, eval) == Fail(UserDecode)
    ensures var r, m := ClientSdkToggles(Some(user), v, eval), s.secrets.mapping;
            && r.Reply?
            && (r.status == ServiceUnavailable <==>
                  || s.secrets.version == 0
                  || (c in m && !(m[c] in s.clients && s.heap[s.clients[m[c]]].initialized)))
            && (r.status == ServiceUnavailable ==> r.body == EmptyObject)
            && (s.secrets.version > 0 && c !in m ==> r == Reply(Ok, EmptyObject))
            && (s.secrets.version > 0 && c in m && m[c] in s.clients && s.heap[s.clients[m[c]]].initialized ==>
                  r == Reply(Ok, Evaluations(Evaluated(s.heap[s.clients[m[c]]].repo, user, eval))))
  {
    VerdictIsAtomic(cfg, s, t, ch);
  }

  /** The same for `client_sdk_events`, whose answer is the repository's events. */
  lemma ClientEventsResponse<D>(cfg: Config, s: State, t: Tid, ch: Choice, c: Key, v: Verdict<ClientId>)
    requires Reachable(cfg, s) && CanMove(cfg, s, t, ch)
    requires s.threads[t].op == Ask(ClientEvents(c)) && Answers(Moved(cfg, s, t, ch), t, ClientEvents(c), v)
    ensures TableInHeap(s)
    ensures var r: Outcome<D>, m := ClientSdkEvents(v), s.secrets.mapping;
            && r.Reply?
            && (r.status == ServiceUnavailable <==>
                  || s.secrets.version == 0
                  || (c in m && !(m[c] in s.clients && s.heap[s.clients[m[c]]].initialized)))
            && (r.status == ServiceUnavailable ==> r.body == EmptyObject)
            && (s.secrets.version > 0 && c !in m ==> r == Reply(Ok, EmptyObject))
            && (s.secrets.version > 0 && c in m && m[c] in s.clients && s.heap[s.clients[m[c]]].initialized ==>
                  r == Reply(Ok, EventList(s.heap[s.clients[m[c]]].repo.events)))
  {
    VerdictIsAtomic(cfg, s, t, ch);
  }

  /**
   Polled mode: what a client key is shown, evaluations and events, comes from the
   repository that its server key is sent, with the same status; the toggles shown
   are its client toggles.
   */
  lemma ClientSeesServerRepository<U, D>(cfg: Config, s: State, c: Key, user: U, eval: Evaluator<U, D>)
    requires cfg.mode == Polled && Reachable(cfg, s) && s.secrets.version > 0 && c in s.secrets.mapping
    ensures TableInHeap(s)
    ensures var sent: Outcome<D> := ServerSdkToggles(Decide(s, ServerRepo(s.secrets.mapping[c])));
            var shown := ClientSdkToggles(Some(user), Decide(s, ClientEval(c)), eval);
            var listed: Outcome<D> := ClientSdkEvents(Decide(s, ClientEvents(c)));
            && sent.Reply? && shown.Reply? && listed.Reply? && shown.status == listed.status == sent.status
            && (sent.status == Ok ==>
                  && listed.body == EventList(sent.body.repo.events)
                  && shown.body == Evaluations(Evaluated(sent.body.repo, user, eval))
                  && shown.body.details.Keys == ClientToggles(sent.body.repo).Keys)
  {
    ViewsAgree(cfg, s, c, s.secrets.mapping[c]);
  }

  // ---------------------------------------------------------------------
  // Events
  // ---------------------------------------------------------------------

  datatype Header = Header(name: string, value: string)

  const AUTHORIZATION := "authorization"
  const USER_AGENT := "user-agent"
  const UA := "ua"

  datatype Request = Request(sdkKey: Key, userAgent: string, headers: seq<Header>, data: seq<string>)

  datatype Target = ToEvents | ToAnalysis

  // `call` numbers the `handle_events` calls.
  datatype Post = Post(call: nat, target: Target, headers: seq<Header>, data: seq<string>)

  // The first value of a header, as `HeaderMap::get` gives it.
  function First(headers: seq<Header>, name: string): (v: Option<string>)
    ensures v == None ==> forall h | h in headers :: h.name != name
    ensures v.Some? ==>
              exists i | 0 <= i < |headers| ::
                headers[i] == Header(name, v.value) && forall j | 0 <= j < i :: headers[j].name != name
  {
    if headers == [] then None
    else if headers[0].name == name then Some(headers[0].value)
    else First(headers[1..], name)
  }

  predicate IsClientKey(k: Key) {
    "client" <= k
  }

  // The server key a call is authorised with under one snapshot of the mapping.
  function Authorised(keys: map<Key, Key>, sdkKey: Key): Option<Key> {
    if IsClientKey(sdkKey) then Lookup(keys, sdkKey) else Some(sdkKey)
  }

  // Headers of a forwarded batch. Which strings are header values is for `valid`.
  ghost predicate Forwarded(headers: seq<Header>, serverKey: Key, request: Request, valid: string -> bool) {
    && |headers| >= 1 && headers[0] == Header(AUTHORIZATION, serverKey)
    && First(headers, UA) == First(request.headers, UA)
    && First(headers, USER_AGENT) == (if valid(request.userAgent) then Some(request.userAgent) else None)
    && (forall i, j | 0 <= i < j < |headers| :: headers[i].name != headers[j].name)
    && (forall h | h in headers :: h.name == AUTHORIZATION || h.name == USER_AGENT || h.name == UA)
  }

  /** One authorisation, and of the caller's own headers nothing but `ua`. */
  method BuildHeader(request: Request, serverKey: Key, valid: string -> bool) returns (headers: seq<Header>)
    ensures Forwarded(headers, serverKey, request, valid)
    ensures headers == Built(request, serverKey, valid)
  {
    var ua := First(request.headers, UA);
    headers := [Header(AUTHORIZATION, serverKey)];
    if valid(request.userAgent) {
      headers := headers + [Header(USER_AGENT, request.userAgent)];
    }
    if ua.Some? {
      headers := headers + [Header(UA, ua.value)];
    }
    assert headers == Built(request, serverKey, valid);
    BuiltIsForwarded(request, serverKey, valid);
  }

  function Built(request: Request, serverKey: Key, valid: string -> bool): seq<Header> {
    [Header(AUTHORIZATION, serverKey)]
    + (if valid(request.userAgent) then [Header(USER_AGENT, request.userAgent)] else [])
    + (var ua := First(request.headers, UA); if ua.Some? then [Header(UA, ua.value)] else [])
  }

  lemma BuiltIsForwarded(request: Request, serverKey: Key, valid: string -> bool)
    ensures Forwarded(Built(request, serverKey, valid), serverKey, request, valid)
  {
    assert |AUTHORIZATION| == 13 && |USER_AGENT| == 10 && |UA| == 2;
    var headers := Built(request, serverKey, valid);
    assert First(headers, UA) == First(headers[1..], UA);
    assert First(headers, USER_AGENT) == First(headers[1..], USER_AGENT);
    if |headers| >= 2 {
      assert First(headers[1..], UA)
          == if headers[1].name == UA then Some(headers[1].value) else First(headers[2..], UA);
      assert First(headers[1..], USER_AGENT)
          == if headers[1].name == USER_AGENT then Some(headers[1].value) else First(headers[2..], USER_AGENT);
    }
  }

  // What one call hands to the HTTP client.
  function Handed(analysis: bool, call: nat, keys: map<Key, Key>, request: Request, valid: string -> bool): seq<Post> {
    match Authorised(keys, request.sdkKey)
    case None => []
    case Some(serverKey) =>
      Copies(analysis, call, Built(request, serverKey, valid), request.data)
  }

  function Copies(analysis: bool, call: nat, headers: seq<Header>, data: seq<string>): seq<Post> {
    (if analysis then [Post(call, ToAnalysis, headers, data)] else []) + [Post(call, ToEvents, headers, data)]
  }

  class EventForwarder {
    const analysis: bool
    const valid: string -> bool
    var calls: nat
    var outbox: seq<Post>

    constructor (analysis: bool, valid: string -> bool)
      ensures this.analysis == analysis && this.valid == valid && calls == 0 && outbox == []
    {
      this.analysis, this.valid, calls, outbox := analysis, valid, 0, [];
    }

    // `keys` is the clone of the mapping that `secret_keys` returned.
    method HandleEvents(keys: map<Key, Key>, request: Request) returns (status: Status)
      modifies this
      ensures calls == old(calls) + 1
      ensures outbox == old(outbox) + Handed(analysis, old(calls), keys, request, valid)
      ensures status == (if "client" <= request.sdkKey && request.sdkKey !in keys then Unauthorized else Ok)
      ensures status == Unauthorized ==> outbox == old(outbox)
      ensures status == Ok ==>
                var serverKey := if "client" <= request.sdkKey then keys[request.sdkKey] else request.sdkKey;
                && |outbox| > 0 && var post := outbox[|outbox| - 1];
                && post.call == old(calls) && post.target == ToEvents && post.data == request.data
                && Forwarded(post.headers, serverKey, request, valid)
                && outbox == old(outbox) + (if analysis then [post.(target := ToAnalysis)] else []) + [post]
    {
      var call := calls;
      calls := calls + 1;
      var serverKey := request.sdkKey;
      if IsClientKey(request.sdkKey) {
        if request.sdkKey !in keys {
          return Unauthorized;
        }
        serverKey := keys[request.sdkKey];
      }
      var headers := BuildHeader(request, serverKey, valid);
      SendEvents(call, headers, request.data);
      status := Ok;
    }

    // Each target gets this call's batch once, if there is such a target, and
    // nothing else is added.
    method SendEvents(call: nat, headers: seq<Header>, data: seq<string>)
      modifies this`outbox
      ensures old(outbox) <= outbox
      ensures forall other, target ::
                OfCall(outbox[|old(outbox)|..], other, target) ==
                if other == call && (target == ToEvents || analysis) then [Post(call, target, headers, data)] else []
      ensures outbox == old(outbox) + Copies(analysis, call, headers, data)
    {
      if analysis {
        outbox := outbox + [Post(call, ToAnalysis, headers, data)];
      }
      outbox := outbox + [Post(call, ToEvents, headers, data)];
      assert outbox[|old(outbox)|..] == Copies(analysis, call, headers, data);
      forall other, target {
        OfCallCopies(analysis, call, headers, data, other, target);
      }
    }
  }

  // Everything handed on by the first calls of a series; call i sees snapshots[i],
  // whatever updates the mapping went through in between.
  ghost function Outbox(analysis: bool, snapshots: seq<map<Key, Key>>, requests: seq<Request>,
                        valid: string -> bool): seq<Post>
    requires |snapshots| == |requests|
  {
    if requests == [] then []
    else
      var n := |requests| - 1;
      Outbox(analysis, snapshots[..n], requests[..n], valid) + Handed(analysis, n, snapshots[n], requests[n], valid)
  }

  // The posts of one call to one target.
  ghost function OfCall(posts: seq<Post>, call: nat, target: Target): seq<Post> {
    if posts == [] then []
    else
      var last := posts[|posts| - 1];
      OfCall(posts[..|posts| - 1], call, target) + (if last.call == call && last.target == target then [last] else [])
  }

  lemma {:induction false} OfCallConcat(a: seq<Post>, b: seq<Post>, call: nat, target: Target)
    ensures OfCall(a + b, call, target) == OfCall(a, call, target) + OfCall(b, call, target)
  {
    if b == [] {
      assert a + b == a;
    } else {
      var front := b[..|b| - 1];
      OfCallConcat(a, front, call, target);
      assert (a + b)[..|a + b| - 1] == a + front;
    }
  }

  lemma OfCallCopies(analysis: bool, n: nat, headers: seq<Header>, data: seq<string>, call: nat, target: Target)
    ensures OfCall(Copies(analysis, n, headers, data), call, target) ==
            if n == call && (target == ToEvents || analysis) then [Post(call, target, headers, data)] else []
  {
    var first := if analysis then [Post(n, ToAnalysis, headers, data)] else [];
    OfCallConcat(first, [Post(n, ToEvents, headers, data)], call, target);
    OfCallSingle(Post(n, ToAnalysis, headers, data), call, target);
    OfCallSingle(Post(n, ToEvents, headers, data), call, target);
  }

  lemma OfCallHanded(analysis: bool, n: nat, keys: map<Key, Key>, request: Request, valid: string -> bool,
                     call: nat, target: Target)
    ensures var key := Authorised(keys, request.sdkKey);
            OfCall(Handed(analysis, n, keys, request, valid), call, target) ==
            if n == call && key.Some? && (target == ToEvents || analysis)
            then [Post(call, target, Built(request, key.value, valid), request.data)] else []
  {
    var key := Authorised(keys, request.sdkKey);
    if key.Some? {
      OfCallCopies(analysis, n, Built(request, key.value, valid), request.data, call, target);
    }
  }

  lemma OfCallSingle(p: Post, call: nat, target: Target)
    ensures OfCall([p], call, target) == if p.call == call && p.target == target then [p] else []
  {
    assert [p][..0] == [];
  }

  /**
   Over any series of calls, whatever the mapping does in between: an accepted
   batch goes to the events target exactly once, and to the analysis target exactly
   once more if there is one; a rejected batch goes nowhere. Both copies carry the
   same data and headers, authorised with the server key of the call's snapshot.
   */
  lemma {:induction false} EventsHandedOnce(analysis: bool, snapshots: seq<map<Key, Key>>, requests: seq<Request>,
                                            valid: string -> bool, call: nat, target: Target)
    requires |snapshots| == |requests|
    ensures OfCall(Outbox(analysis, snapshots, requests, valid), call, target) ==
            if call < |requests| && (target == ToEvents || analysis)
               && Authorised(snapshots[call], requests[call].sdkKey).Some?
            then
              var serverKey := Authorised(snapshots[call], requests[call].sdkKey).value;
              [Post(call, target, Built(requests[call], serverKey, valid), requests[call].data)]
            else []
  {
    if requests != [] {
      var n := |requests| - 1;
      var before := Outbox(analysis, snapshots[..n], requests[..n], valid);
      EventsHandedOnce(analysis, snapshots[..n], requests[..n], valid, call, target);
      OfCallConcat(before, Handed(analysis, n, snapshots[n], requests[n], valid), call, target);
      OfCallHanded(analysis, n, snapshots[n], requests[n], valid, call, target);
    }
  }

  lemma OutboxGrows(analysis: bool, snapshots: seq<map<Key, Key>>, requests: seq<Request>, valid: string -> bool,
                    i: nat)
    requires |snapshots| == |requests| && i < |requests|
    ensures Outbox(analysis, snapshots[..i + 1], requests[..i + 1], valid) ==
            Outbox(analysis, snapshots[..i], requests[..i], valid)
            + Handed(analysis, i, snapshots[i], requests[i], valid)
  {
    assert snapshots[..i + 1][..i] == snapshots[..i] && requests[..i + 1][..i] == requests[..i];
  }

  // The reply to a call under one snapshot.
  function Replied(keys: map<Key, Key>, sdkKey: Key): Status {
    if "client" <= sdkKey && sdkKey !in keys then Unauthorized else Ok
  }

  // One call of a series: its reply, and what it adds to the outbox.
  method HandleNext(forwarder: EventForwarder, keys: map<Key, Key>, request: Request) returns (status: Status)
    modifies forwarder
    ensures forwarder.calls == old(forwarder.calls) + 1
    ensures forwarder.outbox ==
            old(forwarder.outbox) + Handed(forwarder.analysis, old(forwarder.calls), keys, request, forwarder.valid)
    ensures status == Replied(keys, request.sdkKey)
  {
    status := forwarder.HandleEvents(keys, request);
  }

  // A new forwarder handles a series of calls, each with the snapshot it was given.
  method HandleSeries(analysis: bool, valid: string -> bool, snapshots: seq<map<Key, Key>>, requests: seq<Request>)
    returns (forwarder: EventForwarder, statuses: seq<Status>)
    requires |snapshots| == |requests|
    ensures fresh(forwarder) && forwarder.calls == |requests|
    ensures forwarder.outbox == Outbox(analysis, snapshots, requests, valid)
    ensures |statuses| == |requests|
    ensures forall i | 0 <= i < |requests| ::
              statuses[i] == if "client" <= requests[i].sdkKey && requests[i].sdkKey !in snapshots[i]
                             then Unauthorized else Ok
  {
    forwarder := new EventForwarder(analysis, valid);
    statuses := [];
    for i := 0 to |requests|
      invariant fresh(forwarder) && forwarder.analysis == analysis && forwarder.valid == valid
      invariant forwarder.calls == i && |statuses| == i
      invariant forwarder.outbox == Outbox(analysis, snapshots[..i], requests[..i], valid)
      invariant forall j | 0 <= j < i :: statuses[j] == Replied(snapshots[j], requests[j].sdkKey)
    {
      var status := HandleNext(forwarder, snapshots[i], requests[i]);
      statuses := statuses + [status];
      OutboxGrows(analysis, snapshots, requests, valid, i);
    }
    assert snapshots[..|requests|] == snapshots && requests[..|requests|] == requests;
  }

  /**
   Polled mode, above version 0: the mapping that a `secret_keys` call returns
   refuses a client-prefixed key exactly when a query for that key would be NotFound
   at that moment; otherwise it authorises the events with the server key whose
   verdict is the client key's own.
   */
  lemma EventsAuthorisedAsQueried(cfg: Config, s: State, t: Tid, ch: Choice, c: Key)
    requires cfg.mode == Polled && Reachable(cfg, s) && s.secrets.version > 0
    requires CanMove(cfg, s, t, ch) && s.threads[t].op.SecretKeys?
    requires NextTask(cfg, s, s.threads[t].task, ch).Done? && IsClientKey(c)
    ensures TableInHeap(s) && NextTask(cfg, s, s.threads[t].task, ch).reply.Keys?
    ensures var server := Authorised(NextTask(cfg, s, s.threads[t].task, ch).reply.mapping, c);
            && (server.None? <==> Decide(s, ClientEval(c)) == Refuse(NotFound(c)))
            && (server.Some? ==> Decide(s, ServerRepo(server.value)) == Decide(s, ClientEval(c)))
  {
    ReachableInv(cfg, s);
    assert Belongs(cfg, s.threads[t].op, s.threads[t].task);
    ViewsAgree(cfg, s, c, c);
  }
}

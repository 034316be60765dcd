/**
 The repository as one caller at a time sees it: the mapping, the table of live
 clients, and the operations that change them in place.
 */
module SdkRepository {
  import opened Options
  import opened Mappings
  import opened Evaluation
  import opened Queries
  import opened SecretMappings

  // A live SDK client. Its poller sets `initialized` and `repo` later on.
  class Client {
    const serverSdkKey: Key
    const notifies: Option<Key>  // the client key its update callback captured
    var initialized: bool
    var repo: Repository

    constructor (serverSdkKey: Key, notifies: Option<Key>)
      ensures this.serverSdkKey == serverSdkKey && this.notifies == notifies
      ensures !initialized && repo == EMPTY_REPOSITORY
    {
      this.serverSdkKey, this.notifies := serverSdkKey, notifies;
      initialized, repo := false, EMPTY_REPOSITORY;
    }
  }

  class Inner {
    const realtime: bool
    const secretMapping: SecretMapping
    var sdkClients: map<Key, Client>

    constructor (realtime: bool)
      ensures this.realtime == realtime
      ensures fresh(secretMapping) && secretMapping.Value() == DEFAULT && sdkClients == map[]
    {
      this.realtime := realtime;
      secretMapping := new SecretMapping.Default();
      sdkClients := map[];
    }

    // The client captures the client key that the index gives at this moment.
    method Sync(serverSdkKey: Key)
      modifies this`sdkClients
      ensures serverSdkKey in sdkClients
      ensures serverSdkKey in old(sdkClients) ==> sdkClients == old(sdkClients)
      ensures serverSdkKey !in old(sdkClients) ==>
                var c := sdkClients[serverSdkKey];
                && sdkClients == old(sdkClients)[serverSdkKey := c]
                && fresh(c) && IsNew(c, serverSdkKey)
                && (realtime && secretMapping.Value().Indexed() && serverSdkKey in secretMapping.reverse ==>
                      NotifiesOwn(c, secretMapping.mapping))
    {
      var shouldSync := serverSdkKey !in sdkClients;
      if !shouldSync {
        return;
      }
      var notifies := if realtime then secretMapping.ClientSdkKey(serverSdkKey) else None;
      var client := new Client(serverSdkKey, notifies);
      sdkClients := sdkClients[serverSdkKey := client];
    }

    // A client just made for this server key under the present mapping: in the
    // realtime build its callback notifies the client key indexed for it, if any.
    ghost predicate IsNew(c: Client, serverSdkKey: Key)
      reads this, secretMapping, c
    {
      && c.serverSdkKey == serverSdkKey && !c.initialized
      && (realtime && serverSdkKey in secretMapping.reverse ==> c.notifies == Some(secretMapping.reverse[serverSdkKey]))
      && (!realtime || serverSdkKey !in secretMapping.reverse ==> c.notifies == None)
    }

    // The client key that the callback notifies is one of the client's server key.
    ghost predicate NotifiesOwn(c: Client, mapping: map<Key, Key>) {
      c.notifies.Some? && c.notifies.value in mapping && mapping[c.notifies.value] == c.serverSdkKey
    }

    method RemoveClient(serverSdkKey: Key)
      modifies this`sdkClients
      ensures serverSdkKey !in sdkClients && sdkClients.Keys <= old(sdkClients).Keys
      ensures forall k | k in old(sdkClients) && k != serverSdkKey ::
                k in sdkClients && sdkClients[k] == old(sdkClients)[k]
    {
      sdkClients := sdkClients - {serverSdkKey};
    }

    /**
     One reconcile pass. At version 0 it does nothing; otherwise the table ends
     with exactly the desired keys, the identical client wherever one was already
     there, and new clients for the rest. A table that already has the desired
     keys is left alone, so a second pass changes nothing.
     */
    method UpdateClients()
      modifies this`sdkClients
      ensures Reconciles(secretMapping.Value(), old(sdkClients), sdkClients)
      ensures secretMapping.version == 0 ==> sdkClients == old(sdkClients)
      ensures secretMapping.version > 0 ==>
                && sdkClients.Keys == secretMapping.reverse.Keys
                && (forall k | k in sdkClients && k in old(sdkClients) :: sdkClients[k] == old(sdkClients)[k])
      ensures forall k | k in sdkClients && k !in old(sdkClients) :: fresh(sdkClients[k]) && IsNew(sdkClients[k], k)
      ensures realtime && secretMapping.Value().Indexed() ==>
                forall k | k in sdkClients && k !in old(sdkClients) :: NotifiesOwn(sdkClients[k], secretMapping.mapping)
      ensures old(sdkClients).Keys == secretMapping.reverse.Keys ==> sdkClients == old(sdkClients)
    {
      var clients := sdkClients;
      if secretMapping.version > 0 {
        var serverSdkKeys := secretMapping.ServerSdkKeys();
        for i := 0 to |serverSdkKeys|
          invariant forall k | k in serverSdkKeys[..i] :: k in sdkClients
          invariant forall k | k in clients :: k in sdkClients && sdkClients[k] == clients[k]
          invariant forall k | k in sdkClients && k !in clients ::
                      k in secretMapping.reverse && fresh(sdkClients[k]) && IsNew(sdkClients[k], k)
        {
          assert serverSdkKeys[i] in serverSdkKeys;
          Sync(serverSdkKeys[i]);
        }
        assert serverSdkKeys[..|serverSdkKeys|] == serverSdkKeys;
        RemoveUnwanted(clients, serverSdkKeys);
      }
    }

    // The second loop of the pass, over the table as it was before the first.
    method RemoveUnwanted(clients: map<Key, Client>, serverSdkKeys: seq<Key>)
      modifies this`sdkClients
      ensures sdkClients == old(sdkClients) - (set k | k in clients && k !in serverSdkKeys)
    {
      var todo := clients.Keys;
      ghost var removed := {};
      while todo != {}
        invariant todo <= clients.Keys
        invariant removed == set k | k in clients && k !in todo && k !in serverSdkKeys
        invariant sdkClients == old(sdkClients) - removed
      {
        var k :| k in todo;
        if k !in serverSdkKeys {
          RemoveClient(k);
          removed := removed + {k};
        }
        todo := todo - {k};
      }
      assert removed == set k | k in clients && k !in serverSdkKeys;
    }

    method UpdateMapping(offer: Secrets)
      modifies secretMapping
      ensures Adopts(old(secretMapping.Value()), offer, secretMapping.Value())
      ensures offer.version > old(secretMapping.version) ==>
                && secretMapping.version == offer.version && secretMapping.mapping == offer.mapping
                && secretMapping.reverse.Keys == offer.mapping.Values
      ensures offer.version <= old(secretMapping.version) ==> unchanged(secretMapping)
    {
      var version := secretMapping.version;
      if offer.version > version {
        secretMapping.UpdateMapping(offer);
        IndexedKeys(secretMapping.Value());
      }
    }

    // `SdkRepository::sync`: the client first, then the pair that publishes it.
    method SyncPair(clientSdkKey: Key, serverSdkKey: Key, version: Version)
      modifies this`sdkClients, secretMapping
      ensures secretMapping.version == version
      ensures var m, was := secretMapping.mapping, old(secretMapping.mapping);
              && m.Keys == was.Keys + {clientSdkKey} && m[clientSdkKey] == serverSdkKey
              && (forall c | c in was && c != clientSdkKey :: m[c] == was[c])
      ensures var r, was := secretMapping.reverse, old(secretMapping.reverse);
              && r.Keys == was.Keys + {serverSdkKey} && r[serverSdkKey] == clientSdkKey
              && (forall s | s in was && s != serverSdkKey :: r[s] == was[s])
      ensures secretMapping.Value() == Inserted(old(secretMapping.Value()), clientSdkKey, serverSdkKey, version)
      ensures sdkClients.Keys == old(sdkClients).Keys + {serverSdkKey}
      ensures forall k | k in old(sdkClients) :: sdkClients[k] == old(sdkClients)[k]
      ensures serverSdkKey !in old(sdkClients) ==>
                var c := sdkClients[serverSdkKey];
                && fresh(c) && c.serverSdkKey == serverSdkKey && !c.initialized
                && c.notifies == (if realtime && serverSdkKey in old(secretMapping.reverse)
                                  then Some(old(secretMapping.reverse)[serverSdkKey]) else None)
      ensures old(secretMapping.reverse).Keys <= old(sdkClients).Keys ==> secretMapping.reverse.Keys <= sdkClients.Keys
    {
      Sync(serverSdkKey);
      secretMapping.Insert(clientSdkKey, serverSdkKey, version);
    }

    // The match shared by `repo_string`, `all_evaluated_string` and `all_event_string`.
    function Serving(serverSdkKey: Key): Verdict<Client>
      reads this, sdkClients.Values
    {
      if serverSdkKey in sdkClients && sdkClients[serverSdkKey].initialized then
        Serve(sdkClients[serverSdkKey], sdkClients[serverSdkKey].repo)
      else
        Refuse(NotReady(serverSdkKey))
    }

    method ServerSdkRepo(serverSdkKey: Key) returns (v: Verdict<Client>)
      ensures v.Serve? <==>
                && secretMapping.version > 0 && serverSdkKey in secretMapping.reverse
                && serverSdkKey in sdkClients && sdkClients[serverSdkKey].initialized
      ensures v.Serve? ==> v.client == sdkClients[serverSdkKey] && v.repo == v.client.repo
      ensures v.Refuse? ==>
                v.error == if secretMapping.version > 0 && serverSdkKey !in secretMapping.reverse
                           then NotFound(serverSdkKey) else NotReady(serverSdkKey)
      ensures v == match Resolve(secretMapping.Value(), ServerRepo(serverSdkKey))
                   case Refused(e) => Refuse(e)
                   case Found(s) => Serving(s)
    {
      if secretMapping.version == 0 {
        return Refuse(NotReady(serverSdkKey));
      }
      if !secretMapping.ContainsServerSdkKey(serverSdkKey) {
        return Refuse(NotFound(serverSdkKey));
      }
      v := Serving(serverSdkKey);
    }

    // `client_sdk_eval_string` and `client_sdk_events_string` up to serialisation.
    method ClientSdkRepo(clientSdkKey: Key) returns (v: Verdict<Client>)
      ensures var m := secretMapping.mapping;
              v.Serve? <==>
                && secretMapping.version > 0 && clientSdkKey in m
                && m[clientSdkKey] in sdkClients && sdkClients[m[clientSdkKey]].initialized
      ensures v.Serve? ==> v.client == sdkClients[secretMapping.mapping[clientSdkKey]] && v.repo == v.client.repo
      ensures v.Refuse? ==>
                v.error == if secretMapping.version == 0 then NotReady(clientSdkKey)
                           else if clientSdkKey !in secretMapping.mapping then NotFound(clientSdkKey)
                           else NotReady(secretMapping.mapping[clientSdkKey])
      ensures forall q | q == ClientEval(clientSdkKey) || q == ClientEvents(clientSdkKey) ::
                v == match Resolve(secretMapping.Value(), q)
                     case Refused(e) => Refuse(e)
                     case Found(s) => Serving(s)
    {
      if secretMapping.version == 0 {
        return Refuse(NotReady(clientSdkKey));
      }
      match secretMapping.ServerSdkKey(clientSdkKey)
      case None => return Refuse(NotFound(clientSdkKey));
      case Some(s) => v := Serving(s);
    }
  }
}

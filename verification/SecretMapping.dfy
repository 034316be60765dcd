/** The mapping as the object the server updates in place. */
module SecretMappings {
  import opened Options
  import opened Mappings

  class SecretMapping {
    var version: Version
    var mapping: map<Key, Key>
    var reverse: map<Key, Key>

    ghost function Value(): Secrets
      reads this
    {
      Secrets(version, mapping, reverse)
    }

    constructor Default()
      ensures Value() == DEFAULT
    {
      version, mapping, reverse := 0, map[], map[];
    }

    constructor (version: Version, mapping: map<Key, Key>)
      ensures Value().Released() == Release(version, mapping)
      ensures Value().Indexed()
    {
      this.version, this.mapping := version, mapping;
      new;
      this.reverse := Reversed(mapping);
    }

    // The loop that fills an index. The set is iterated in an arbitrary order.
    static method Reversed(mapping: map<Key, Key>) returns (reverse: map<Key, Key>)
      ensures forall v :: Secrets(v, mapping, reverse).Indexed()
    {
      reverse := map[];
      var todo := mapping.Keys;
      while todo != {}
        invariant todo <= mapping.Keys
        invariant forall c | c in mapping && c !in todo :: mapping[c] in reverse
        invariant forall s | s in reverse :: reverse[s] in mapping && mapping[reverse[s]] == s
      {
        var c :| c in todo;
        reverse := reverse[mapping[c] := c];
        todo := todo - {c};
      }
    }

    // `offer.reverse` is whatever came with the new mapping: empty after
    // deserialisation. It is not used.
    method UpdateMapping(offer: Secrets)
      modifies this
      ensures Adopts(old(Value()), offer, Value())
      ensures offer.version > old(version) ==>
                && version == offer.version && mapping == offer.mapping
                && (forall c | c in mapping :: mapping[c] in reverse)
                && (forall s | s in reverse :: reverse[s] in mapping && mapping[reverse[s]] == s)
      ensures offer.version <= old(version) ==> unchanged(this)
    {
      if offer.version > version {
        version := offer.version;
        mapping := offer.mapping;
        reverse := Reversed(mapping);
      }
    }

    method Insert(clientSdkKey: Key, serverSdkKey: Key, version: Version)
      modifies this
      ensures this.version == version
      ensures clientSdkKey in mapping && mapping[clientSdkKey] == serverSdkKey
      ensures serverSdkKey in reverse && reverse[serverSdkKey] == clientSdkKey
      ensures mapping.Keys == old(mapping).Keys + {clientSdkKey}
      ensures reverse.Keys == old(reverse).Keys + {serverSdkKey}
      ensures forall c | c in old(mapping) && c != clientSdkKey :: mapping[c] == old(mapping)[c]
      ensures forall s | s in old(reverse) && s != serverSdkKey :: reverse[s] == old(reverse)[s]
      ensures Value() == Inserted(old(Value()), clientSdkKey, serverSdkKey, version)
    {
      this.version := version;
      mapping := mapping[clientSdkKey := serverSdkKey];
      reverse := reverse[serverSdkKey := clientSdkKey];
    }

    function ClientSdkKey(serverSdkKey: Key): Option<Key>
      reads this
    {
      Lookup(reverse, serverSdkKey)
    }

    function ServerSdkKey(clientSdkKey: Key): Option<Key>
      reads this
    {
      Lookup(mapping, clientSdkKey)
    }

    predicate ContainsServerSdkKey(serverSdkKey: Key)
      reads this
    {
      serverSdkKey in reverse
    }

    // The index's keys, collected in an arbitrary order.
    method ServerSdkKeys() returns (keys: seq<Key>)
      ensures Enumerates(keys, reverse.Keys)
    {
      keys := [];
      var todo := reverse.Keys;
      while todo != {}
        invariant todo <= reverse.Keys
        invariant Enumerates(keys, reverse.Keys - todo)
      {
        var s :| s in todo;
        keys := keys + [s];
        todo := todo - {s};
      }
    }
  }
}

/** An optional value: Rust's `Option`. */
module Options {
  datatype Option<+T> = None | Some(value: T)
}

/**
 The key mapping as a value: a version, the forward map from client keys to
 server keys, and the derived reverse index. The operations of `SecretMapping`
 are given here as relations and functions; the class of that name and the
 concurrent protocol are both built on them.
 */
module Mappings {
  import opened Options

  type Key = string
  type Version = nat

  // What the management API sends: the part of a mapping that is serialised.
  datatype Release = Release(version: Version, mapping: map<Key, Key>)

  datatype Secrets = Secrets(version: Version, mapping: map<Key, Key>, reverse: map<Key, Key>) {
    function Released(): Release {
      Release(version, mapping)
    }

    // Every server key in use can be looked up.
    ghost predicate Covers() {
      forall c | c in mapping :: mapping[c] in reverse
    }

    // Every index entry points at a client key that really has that server key.
    ghost predicate Sound() {
      forall s | s in reverse :: reverse[s] in mapping && mapping[reverse[s]] == s
    }

    ghost predicate Indexed() {
      Covers() && Sound()
    }
  }

  const DEFAULT := Secrets(0, map[], map[])

  function Lookup<V>(m: map<Key, V>, k: Key): Option<V> {
    if k in m then Some(m[k]) else None
  }

  lemma IndexedKeys(x: Secrets)
    requires x.Indexed()
    ensures x.reverse.Keys == x.mapping.Values
  {
    forall s | s in x.reverse ensures s in x.mapping.Values {
      assert x.mapping[x.reverse[s]] == s;
    }
  }

  /** An injective mapping has one possible index, its exact inverse. */
  lemma InjectiveIndexIsInverse(x: Secrets, y: Secrets)
    requires x.Indexed() && y.Indexed() && x.mapping == y.mapping
    requires forall c, d | c in x.mapping && d in x.mapping && x.mapping[c] == x.mapping[d] :: c == d
    ensures x.reverse == y.reverse
    ensures forall c, s :: (s in x.reverse && x.reverse[s] == c) <==> (c in x.mapping && x.mapping[c] == s)
  {
    forall c | c in x.mapping ensures x.mapping[c] in x.reverse && x.reverse[x.mapping[c]] == c {
      var s := x.mapping[c];
      assert x.mapping[x.reverse[s]] == s;
    }
    IndexedKeys(x);
    IndexedKeys(y);
    forall s | s in x.reverse ensures x.reverse[s] == y.reverse[s] {
      assert x.mapping[x.reverse[s]] == s == x.mapping[y.reverse[s]];
    }
  }

  // ---------------------------------------------------------------------
  // Rebuilding the index by iterating over the forward map in some order
  // ---------------------------------------------------------------------

  // The index after the entries of `order` have been inserted, first to last.
  ghost function Filled(mapping: map<Key, Key>, order: seq<Key>): map<Key, Key>
    requires forall k | k in order :: k in mapping
  {
    if order == [] then map[]
    else
      var last := order[|order| - 1];
      Filled(mapping, order[..|order| - 1])[mapping[last] := last]
  }

  ghost predicate Enumerates(order: seq<Key>, keys: set<Key>) {
    && (forall k :: k in order <==> k in keys)
    && (forall i, j | 0 <= i < j < |order| :: order[i] != order[j])
  }

  lemma {:induction false} FilledSound(mapping: map<Key, Key>, order: seq<Key>)
    requires forall k | k in order :: k in mapping
    ensures var r := Filled(mapping, order);
            && (forall k | k in order :: mapping[k] in r)
            && (forall s | s in r :: r[s] in order && mapping[r[s]] == s)
  {
    if order != [] {
      var front := order[..|order| - 1];
      assert order == front + [order[|order| - 1]];
      FilledSound(mapping, front);
    }
  }

  // The entry that stays is the one inserted last.
  lemma {:induction false} FilledLast(mapping: map<Key, Key>, order: seq<Key>, i: nat)
    requires forall k | k in order :: k in mapping
    requires i < |order|
    requires forall j | i < j < |order| :: mapping[order[j]] != mapping[order[i]]
    ensures var r := Filled(mapping, order);
            mapping[order[i]] in r && r[mapping[order[i]]] == order[i]
  {
    if i < |order| - 1 {
      var front := order[..|order| - 1];
      assert order[|order| - 1] == order[|front|];
      FilledLast(mapping, front, i);
    }
  }

  lemma {:induction false} EnumerationExists(keys: set<Key>) returns (order: seq<Key>)
    ensures Enumerates(order, keys)
  {
    if keys == {} {
      order := [];
    } else {
      var k :| k in keys;
      var rest := EnumerationExists(keys - {k});
      order := rest + [k];
    }
  }

  /**
   The `for` loops that fill `reverse` can leave exactly the indexes that
   `Indexed` describes: each iteration order leaves one, and each is left by one.
   */
  lemma RebuildIsExact(x: Secrets)
    ensures x.Indexed() <==>
            exists order :: Enumerates(order, x.mapping.Keys) && Filled(x.mapping, order) == x.reverse
  {
    if x.Indexed() {
      var _ := OrderLeaving(x);
    }
    if order :| Enumerates(order, x.mapping.Keys) && Filled(x.mapping, order) == x.reverse {
      FilledSound(x.mapping, order);
    }
  }

  lemma EnumerationsConcat(a: seq<Key>, b: seq<Key>, keys: set<Key>, others: set<Key>)
    requires Enumerates(a, keys) && Enumerates(b, others) && keys !! others
    ensures Enumerates(a + b, keys + others)
  {
    forall i, j | 0 <= i < j < |a + b| ensures (a + b)[i] != (a + b)[j] {
      if i < |a| <= j {
        assert a[i] in keys && b[j - |a|] in others;
      }
    }
  }

  // An order that leaves the given index: the indexed client keys go last.
  lemma OrderLeaving(x: Secrets) returns (order: seq<Key>)
    requires x.Indexed()
    ensures Enumerates(order, x.mapping.Keys) && Filled(x.mapping, order) == x.reverse
  {
    var indexed := set s | s in x.reverse :: x.reverse[s];
    var first := EnumerationExists(x.mapping.Keys - indexed);
    var last := EnumerationExists(indexed);
    EnumerationsConcat(first, last, x.mapping.Keys - indexed, indexed);
    assert x.mapping.Keys - indexed + indexed == x.mapping.Keys;
    order := first + last;
    forall s | s in x.reverse ensures s in Filled(x.mapping, order) && Filled(x.mapping, order)[s] == x.reverse[s] {
      IndexedGoLast(x, first, last, s);
    }
    FilledWithinIndex(x, order);
  }

  lemma FilledWithinIndex(x: Secrets, order: seq<Key>)
    requires x.Indexed() && forall k | k in order :: k in x.mapping
    ensures forall s | s in Filled(x.mapping, order) :: s in x.reverse
  {
    FilledSound(x.mapping, order);
    assert forall s | s in Filled(x.mapping, order) :: x.mapping[Filled(x.mapping, order)[s]] == s;
  }

  lemma IndexedGoLast(x: Secrets, first: seq<Key>, last: seq<Key>, s: Key)
    requires x.Indexed() && s in x.reverse
    requires forall k | k in first + last :: k in x.mapping
    requires Enumerates(last, set t | t in x.reverse :: x.reverse[t])
    ensures var r := Filled(x.mapping, first + last); s in r && r[s] == x.reverse[s]
  {
    assert x.reverse[s] in last;
    var i :| 0 <= i < |last| && last[i] == x.reverse[s];
    var order := first + last;
    forall j | |first| + i < j < |order| ensures x.mapping[order[j]] != s {
      var d := last[j - |first|];
      assert d in last;
      var t :| t in x.reverse && x.reverse[t] == d;
      assert order[j] == d && last[i] != d;
    }
    assert order[|first| + i] == last[i];
    FilledLast(x.mapping, order, |first| + i);
  }

  lemma IndexExists(mapping: map<Key, Key>) returns (reverse: map<Key, Key>)
    ensures forall v :: Secrets(v, mapping, reverse).Indexed()
  {
    var order := EnumerationExists(mapping.Keys);
    reverse := Filled(mapping, order);
    FilledSound(mapping, order);
  }

  // ---------------------------------------------------------------------
  // Adopting a delivered mapping, and inserting one pair
  // ---------------------------------------------------------------------

  /**
   `SecretMapping::update_mapping`: a strictly newer mapping replaces the current
   one and the index is rebuilt, whatever index came with it; any other is ignored.
   */
  ghost predicate Adopts(cur: Secrets, offer: Secrets, next: Secrets) {
    if offer.version > cur.version then
      next.Released() == offer.Released() && next.Indexed()
    else
      next == cur
  }

  /** `SecretMapping::insert`: the version is set, not compared. */
  function Inserted(cur: Secrets, c: Key, s: Key, v: Version): Secrets {
    Secrets(v, cur.mapping[c := s], cur.reverse[s := c])
  }

  /**
   What `update_clients` makes of a table of clients: nothing at version 0, and
   otherwise a client for exactly the server keys, the same one as before wherever
   there was one.
   */
  ghost predicate Reconciles<C>(x: Secrets, before: map<Key, C>, after: map<Key, C>) {
    if x.version == 0 then after == before
    else
      && after.Keys == x.reverse.Keys
      && (forall k | k in after && k in before :: after[k] == before[k])
  }

  datatype Change = Put(c: Key, s: Key, v: Version) | Offer(offer: Secrets)

  ghost predicate Changes(cur: Secrets, change: Change, next: Secrets) {
    match change
    case Put(c, s, v) => next == Inserted(cur, c, s, v)
    case Offer(offer) => Adopts(cur, offer, next)
  }

  ghost predicate History(states: seq<Secrets>, changes: seq<Change>) {
    && |states| == |changes| + 1
    && (forall i | 0 <= i < |changes| :: Changes(states[i], changes[i], states[i + 1]))
  }

  // The insertion does not take its client key away from the server key whose
  // index entry names it.
  predicate KeepsIndex(cur: Secrets, change: Change) {
    match change
    case Put(c, s, _) =>
      c in cur.mapping && cur.mapping[c] in cur.reverse ==>
        cur.mapping[c] == s || cur.reverse[cur.mapping[c]] != c
    case Offer(_) => true
  }

  lemma ChangeKeepsIndexIff(cur: Secrets, change: Change, next: Secrets)
    requires cur.Indexed() && Changes(cur, change, next)
    ensures next.Indexed() <==> KeepsIndex(cur, change)
  {
    match change
    case Offer(_) =>
    case Put(c, s, _) =>
      if c in cur.mapping && cur.mapping[c] != s && cur.reverse[cur.mapping[c]] == c {
        var stale := cur.mapping[c];
        assert stale in next.reverse && next.reverse[stale] == c && next.mapping[c] == s;
      }
  }

  /**
   Over any history the index covers every server key in use. It stays exact in
   every state precisely when no insertion rebinds the client key that an index
   entry names; a fresh client key, or one already bound to that server key,
   never does.
   */
  lemma {:induction false} IndexOverHistory(states: seq<Secrets>, changes: seq<Change>)
    requires History(states, changes) && states[0].Indexed()
    ensures forall i | 0 <= i < |states| :: states[i].Covers()
    ensures (forall i | 0 <= i < |states| :: states[i].Indexed())
       <==> (forall i | 0 <= i < |changes| :: KeepsIndex(states[i], changes[i]))
  {
    CoversOverHistory(states, changes);
    if forall i | 0 <= i < |states| :: states[i].Indexed() {
      forall i | 0 <= i < |changes| ensures KeepsIndex(states[i], changes[i]) {
        ChangeKeepsIndexIff(states[i], changes[i], states[i + 1]);
      }
    }
    if forall i | 0 <= i < |changes| :: KeepsIndex(states[i], changes[i]) {
      var n := 0;
      while n < |changes|
        invariant 0 <= n <= |changes|
        invariant forall i | 0 <= i <= n :: states[i].Indexed()
      {
        ChangeKeepsIndexIff(states[n], changes[n], states[n + 1]);
        n := n + 1;
      }
    }
  }

  lemma {:induction false} CoversOverHistory(states: seq<Secrets>, changes: seq<Change>)
    requires History(states, changes) && states[0].Covers()
    ensures forall i | 0 <= i < |states| :: states[i].Covers()
  {
    var n := 0;
    while n < |changes|
      invariant 0 <= n <= |changes|
      invariant forall i | 0 <= i <= n :: states[i].Covers()
    {
      assert Changes(states[n], changes[n], states[n + 1]);
      n := n + 1;
    }
  }

  /** Rebinding a client key that the index names does break it. */
  lemma RebindingLeavesStaleEntry()
    ensures var before := Inserted(DEFAULT, "c", "s", 1);
            var after := Inserted(before, "c", "t", 2);
            before.Indexed() && "s" in after.reverse && "s" !in after.mapping.Values && !after.Indexed()
  {
    var after := Inserted(Inserted(DEFAULT, "c", "s", 1), "c", "t", 2);
    assert after.reverse["s"] == "c" && after.mapping["c"] == "t";
  }

  // ---------------------------------------------------------------------
  // The mapping as a last-writer-wins register
  // ---------------------------------------------------------------------

  // One atomic delivery to the register.
  function Keep(cur: Release, offer: Release): Release {
    if offer.version > cur.version then offer else cur
  }

  ghost function KeepAll(cur: Release, deliveries: seq<Release>): Release {
    if deliveries == [] then cur
    else Keep(KeepAll(cur, deliveries[..|deliveries| - 1]), deliveries[|deliveries| - 1])
  }

  // `r` is the delivery of greatest version, the earliest of those that tie, and
  // the initial value where no delivery is newer than that.
  ghost predicate GreatestEarliest(cur: Release, deliveries: seq<Release>, r: Release) {
    && (forall d | d in deliveries :: d.version <= r.version)
    && cur.version <= r.version
    && (if r.version == cur.version then r == cur
        else exists i | 0 <= i < |deliveries| :: IsFirst(deliveries, i, r))
  }

  ghost predicate IsFirst(deliveries: seq<Release>, i: nat, r: Release)
    requires i < |deliveries|
  {
    deliveries[i] == r && forall j | 0 <= j < i :: deliveries[j].version < r.version
  }

  /** The register holds exactly the greatest delivery, earliest among equals. */
  lemma {:induction false} RegisterHoldsGreatest(cur: Release, deliveries: seq<Release>, r: Release)
    ensures r == KeepAll(cur, deliveries) <==> GreatestEarliest(cur, deliveries, r)
  {
    KeepAllIsGreatest(cur, deliveries);
    if GreatestEarliest(cur, deliveries, r) {
      var k := KeepAll(cur, deliveries);
      assert r.version == k.version;
      if r.version != cur.version {
        var i :| 0 <= i < |deliveries| && IsFirst(deliveries, i, r);
        var j :| 0 <= j < |deliveries| && IsFirst(deliveries, j, k);
        assert i == j;
      }
    }
  }

  lemma {:induction false} KeepAllIsGreatest(cur: Release, deliveries: seq<Release>)
    ensures GreatestEarliest(cur, deliveries, KeepAll(cur, deliveries))
  {
    if deliveries != [] {
      var front := deliveries[..|deliveries| - 1];
      var last := deliveries[|deliveries| - 1];
      assert deliveries == front + [last];
      KeepAllIsGreatest(cur, front);
      var k := KeepAll(cur, front);
      if last.version > k.version {
        assert IsFirst(deliveries, |front|, last);
      } else if k.version != cur.version {
        var i :| 0 <= i < |front| && IsFirst(front, i, k);
        assert IsFirst(deliveries, i, k);
      }
    }
  }

  ghost predicate Coherent(deliveries: seq<Release>) {
    forall d, e | d in deliveries && e in deliveries && d.version == e.version :: d == e
  }

  // The states a mapping passes through as responses arrive one after another.
  ghost predicate Delivers(states: seq<Secrets>, news: seq<Secrets>) {
    && |states| == |news| + 1
    && (forall i | 0 <= i < |news| :: Adopts(states[i], news[i], states[i + 1]))
  }

  ghost function Releases(news: seq<Secrets>): seq<Release> {
    seq(|news|, i requires 0 <= i < |news| => news[i].Released())
  }

  lemma {:induction false} ReceivedIsRegister(states: seq<Secrets>, news: seq<Secrets>)
    requires Delivers(states, news) && states[0].Indexed()
    ensures states[|news|].Released() == KeepAll(states[0].Released(), Releases(news))
    ensures states[|news|].Indexed()
  {
    if news != [] {
      var n := |news| - 1;
      ReceivedIsRegister(states[..n + 1], news[..n]);
      assert Releases(news)[..n] == Releases(news[..n]);
      assert Adopts(states[n], news[n], states[n + 1]);
    }
  }

  /**
   Delivery order is irrelevant: two series made of the same responses, in any
   order, with any duplicates and any iteration orders, end with the same version,
   the same forward map and the same server keys.
   */
  lemma DeliveryOrderIrrelevant(xs: seq<Secrets>, news: seq<Secrets>, ys: seq<Secrets>, others: seq<Secrets>)
    requires Delivers(xs, news) && Delivers(ys, others) && xs[0] == ys[0] && xs[0].Indexed()
    requires forall r :: r in Releases(news) <==> r in Releases(others)
    requires Coherent(Releases(news))
    ensures xs[|news|].Released() == ys[|others|].Released()
    ensures xs[|news|].reverse.Keys == ys[|others|].reverse.Keys
  {
    ReceivedIsRegister(xs, news);
    ReceivedIsRegister(ys, others);
    KeepAllIsGreatest(xs[0].Released(), Releases(news));
    KeepAllIsGreatest(ys[0].Released(), Releases(others));
    var a, b := xs[|news|].Released(), ys[|others|].Released();
    assert a.version == xs[0].version || a in Releases(news);
    assert b.version == xs[0].version || b in Releases(others);
    assert a == b;
    IndexedKeys(xs[|news|]);
    IndexedKeys(ys[|others|]);
  }
}

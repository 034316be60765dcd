/** A client's repository and what client-side SDKs are shown of it. */
module Evaluation {
  import opened Mappings

  // Rules are evaluated by the SDK crate; here they are opaque.
  datatype Toggle = Toggle(forClient: bool, rules: string)
  datatype Repository = Repository(toggles: map<Key, Toggle>, segments: map<Key, string>, events: string)

  const EMPTY_REPOSITORY := Repository(map[], map[], "")

  // Toggle, user and segments to evaluation detail: the SDK's `eval_detail`.
  type Evaluator<!U, !D> = (Toggle, U, map<Key, string>) -> D

  function ClientToggles(repo: Repository): map<Key, Toggle> {
    map k | k in repo.toggles && repo.toggles[k].forClient :: repo.toggles[k]
  }

  /** What `all_evaluated_string` serialises: the evaluation of every client toggle. */
  function Evaluated<U, D>(repo: Repository, user: U, eval: Evaluator<U, D>): map<Key, D> {
    map k | k in repo.toggles && repo.toggles[k].forClient :: eval(repo.toggles[k], user, repo.segments)
  }

  // The same by the iterator chain: filter, evaluate and collect in `order`.
  ghost function Collected<U, D>(repo: Repository, order: seq<Key>, user: U, eval: Evaluator<U, D>): map<Key, D>
    requires forall k | k in order :: k in repo.toggles
  {
    if order == [] then map[]
    else
      var k := order[|order| - 1];
      var before := Collected(repo, order[..|order| - 1], user, eval);
      if repo.toggles[k].forClient then before[k := eval(repo.toggles[k], user, repo.segments)] else before
  }

  lemma {:induction false} CollectedIs<U, D>(repo: Repository, order: seq<Key>, user: U, eval: Evaluator<U, D>)
    requires forall k | k in order :: k in repo.toggles
    ensures var r := Collected(repo, order, user, eval);
            && (forall k :: k in r <==> k in order && repo.toggles[k].forClient)
            && (forall k | k in r :: r[k] == eval(repo.toggles[k], user, repo.segments))
  {
    if order != [] {
      var front := order[..|order| - 1];
      assert order == front + [order[|order| - 1]];
      CollectedIs(repo, front, user, eval);
    }
  }

  /**
   Server-only toggles do not reach clients: repositories that agree on segments
   and on their client toggles evaluate alike for every user, evaluator and
   iteration order, and the keys shown are the client toggles' keys.
   */
  lemma ServerOnlyTogglesInvisible<U, D>(a: Repository, b: Repository, orderA: seq<Key>, orderB: seq<Key>,
                                         user: U, eval: Evaluator<U, D>)
    requires a.segments == b.segments && ClientToggles(a) == ClientToggles(b)
    requires Enumerates(orderA, a.toggles.Keys) && Enumerates(orderB, b.toggles.Keys)
    ensures Collected(a, orderA, user, eval) == Collected(b, orderB, user, eval) == Evaluated(a, user, eval)
    ensures Evaluated(a, user, eval).Keys == ClientToggles(a).Keys
  {
    CollectedIs(a, orderA, user, eval);
    CollectedIs(b, orderB, user, eval);
    forall k ensures k in ClientToggles(a) <==> k in b.toggles && b.toggles[k].forClient {
      assert k in ClientToggles(a) <==> k in ClientToggles(b);
    }
    forall k | k in ClientToggles(a) ensures a.toggles[k] == b.toggles[k] {
      assert ClientToggles(a)[k] == ClientToggles(b)[k];
    }
    assert Collected(a, orderA, user, eval) == Evaluated(a, user, eval);
    assert Collected(b, orderB, user, eval) == Evaluated(a, user, eval);
  }
}

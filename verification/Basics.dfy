/** Shared vocabulary: optional values, results, identifiers, and facts about sequences. */
module Basics {

  datatype Option<+T> = None | Some(value: T)

  datatype Result<+T, +E> = Ok(value: T) | Err(error: E)

  /** A UUID. The all-zero UUID is NIL. */
  type Id = nat
  const NIL: Id := 0

  ghost predicate NoDup<T(!new)>(s: seq<T>) {
    forall i, j | 0 <= i < j < |s| :: s[i] != s[j]
  }

  /** The concatenation of f(ctx, 0, s[0]), f(ctx, 1, s[1]), ... */
  function Flat<T, N>(ctx: Id, s: seq<T>, f: (Id, nat, T) -> seq<N>): seq<N> {
    if s == [] then []
    else Flat(ctx, s[..|s| - 1], f) + f(ctx, |s| - 1, s[|s| - 1])
  }

  lemma FlatStep<T, N>(ctx: Id, s: seq<T>, i: nat, f: (Id, nat, T) -> seq<N>)
    requires i < |s|
    ensures Flat(ctx, s[..i + 1], f) == Flat(ctx, s[..i], f) + f(ctx, i, s[i])
  {
    assert s[..i + 1][..i] == s[..i];
  }

  lemma FlatWhole<T, N>(ctx: Id, s: seq<T>, f: (Id, nat, T) -> seq<N>)
    ensures Flat(ctx, s[..|s|], f) == Flat(ctx, s, f)
  {
    assert s[..|s|] == s;
  }

  /** Membership in a concatenation is membership in one of its parts. */
  lemma {:induction false} InFlat<T, N>(ctx: Id, s: seq<T>, f: (Id, nat, T) -> seq<N>, n: N)
    ensures n in Flat(ctx, s, f) <==> exists i: nat | i < |s| :: n in f(ctx, i, s[i])
  {
    if s == [] {
    } else {
      var init, k := s[..|s| - 1], |s| - 1;
      InFlat(ctx, init, f, n);
      assert forall i: nat | i < k :: init[i] == s[i];
      if n in Flat(ctx, s, f) {
        if n in Flat(ctx, init, f) {
          var i: nat :| i < |init| && n in f(ctx, i, init[i]);
          assert n in f(ctx, i, s[i]);
        } else {
          assert n in f(ctx, k, s[k]);
        }
      }
      if i: nat :| i < |s| && n in f(ctx, i, s[i]) {
        if i < k {
          assert n in f(ctx, i, init[i]);
        }
      }
    }
  }

  /** Splitting every part into two splits the whole, up to order. */
  lemma {:induction false} FlatSplit<T, N>(ctx: Id, s: seq<T>, h: (Id, nat, T) -> seq<N>,
      f: (Id, nat, T) -> seq<N>, g: (Id, nat, T) -> seq<N>)
    requires forall i: nat | i < |s| ::
      multiset(h(ctx, i, s[i])) == multiset(f(ctx, i, s[i])) + multiset(g(ctx, i, s[i]))
    ensures multiset(Flat(ctx, s, h)) == multiset(Flat(ctx, s, f)) + multiset(Flat(ctx, s, g))
  {
    if s == [] {
    } else {
      var init, k := s[..|s| - 1], |s| - 1;
      assert forall i: nat | i < k :: init[i] == s[i];
      FlatSplit(ctx, init, h, f, g);
      assert multiset(h(ctx, k, s[k])) == multiset(f(ctx, k, s[k])) + multiset(g(ctx, k, s[k]));
    }
  }

  /** A sequence has no duplicates exactly when no element counts twice. */
  lemma {:induction false} NoDupBag<T(!new)>(s: seq<T>)
    ensures NoDup(s) <==> forall x :: multiset(s)[x] <= 1
  {
    if s == [] {
    } else {
      var init, last := s[..|s| - 1], s[|s| - 1];
      assert s == init + [last];
      NoDupBag(init);
      if NoDup(s) {
        assert last !in init;
        assert NoDup(init);
        forall x ensures multiset(s)[x] <= 1 { }
      }
      if forall x :: multiset(s)[x] <= 1 {
        forall x ensures multiset(init)[x] <= 1 {
          assert multiset(s)[x] <= 1;
        }
        assert multiset(s)[last] == multiset(init)[last] + 1;
        assert last !in init;
        forall i, j | 0 <= i < j < |s| ensures s[i] != s[j] {
          if j == |s| - 1 {
            assert s[i] == init[i];
          } else {
            assert s[i] == init[i] && s[j] == init[j];
          }
        }
      }
    }
  }

  /** The keys of the first k elements. */
  function Keys<T, K>(s: seq<T>, k: nat, key: T -> K): set<K>
    requires k <= |s|
  {
    if k == 0 then {} else Keys(s, k - 1, key) + {key(s[k - 1])}
  }

  lemma {:induction false} InKeys<T, K(!new)>(s: seq<T>, k: nat, key: T -> K, x: K)
    requires k <= |s|
    ensures x in Keys(s, k, key) <==> exists j | 0 <= j < k :: key(s[j]) == x
  {
    if k == 0 {
    } else {
      InKeys(s, k - 1, key, x);
      assert key(s[k - 1]) == x ==> exists j | 0 <= j < k :: key(s[j]) == x;
    }
  }

  function Map<A, B>(s: seq<A>, f: A -> B): (r: seq<B>)
    ensures |r| == |s|
  {
    if s == [] then [] else Map(s[..|s| - 1], f) + [f(s[|s| - 1])]
  }

  lemma {:induction false} MapAt<A, B>(s: seq<A>, f: A -> B, k: nat)
    requires k < |s|
    ensures Map(s, f)[k] == f(s[k])
  {
    if k == |s| - 1 {
    } else {
      MapAt(s[..|s| - 1], f, k);
    }
  }
}

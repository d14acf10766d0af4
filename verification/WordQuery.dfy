/**
 Loading an entry (internal/word/repository.go, GetTree): one ordered query per table, rows
 grouped by parent in a map, and the tree stitched together bottom-up.
 */
module WordQuery {
  import opened Basics
  import opened WordModel
  import opened WordTables
  import opened WordStore
  import opened WordRead
  import opened WordReplace
  import opened WordInvariant
  import opened WordFrame

  // --- One query: SELECT ... WHERE the row is under w ORDER BY sort_order ---

  /** The rows of table t under w, each once, by sort order. */
  ghost predicate Queried(rows: Rows, t: Table, w: Id, ids: seq<Id>) {
    && (forall id :: id in ids <==> Key(t, id) in rows && Root(rows, Key(t, id)) == Some(w))
    && Sorted(rows, t, ids)
  }

  ghost predicate Sorted(rows: Rows, t: Table, ids: seq<Id>) {
    && NoDup(ids)
    && (forall id | id in ids :: Key(t, id) in rows)
    && (forall i, j | 0 <= i < j < |ids| :: rows[Key(t, ids[i])].ord <= rows[Key(t, ids[j])].ord)
  }

  /** id, put behind everything that sorts no later. */
  function Insert(rows: Rows, t: Table, id: Id, ids: seq<Id>): (r: seq<Id>)
    requires Key(t, id) in rows && forall x | x in ids :: Key(t, x) in rows
    ensures forall x :: x in r <==> x == id || x in ids
  {
    if ids == [] || rows[Key(t, ids[|ids| - 1])].ord <= rows[Key(t, id)].ord then ids + [id]
    else Insert(rows, t, id, ids[..|ids| - 1]) + [ids[|ids| - 1]]
  }

  lemma {:induction false} InsertSorted(rows: Rows, t: Table, id: Id, ids: seq<Id>)
    requires Key(t, id) in rows && Sorted(rows, t, ids) && id !in ids
    ensures Sorted(rows, t, Insert(rows, t, id, ids))
  {
    if ids != [] && rows[Key(t, ids[|ids| - 1])].ord > rows[Key(t, id)].ord {
      var init, last := ids[..|ids| - 1], ids[|ids| - 1];
      SortedInit(rows, t, ids);
      InsertSorted(rows, t, id, init);
      hide Sorted;
      var r := Insert(rows, t, id, init);
      forall x | x in r ensures x != last && rows[Key(t, x)].ord <= rows[Key(t, last)].ord {
      }
      SortedSnoc(rows, t, r, last);
    } else {
      forall x | x in ids ensures x != id && rows[Key(t, x)].ord <= rows[Key(t, id)].ord {
        var j :| 0 <= j < |ids| && ids[j] == x;
      }
      SortedSnoc(rows, t, ids, id);
    }
  }

  lemma SortedSnoc(rows: Rows, t: Table, ids: seq<Id>, id: Id)
    requires Sorted(rows, t, ids) && Key(t, id) in rows
    requires forall x | x in ids :: x != id && rows[Key(t, x)].ord <= rows[Key(t, id)].ord
    ensures Sorted(rows, t, ids + [id])
  {
  }

  lemma SortedInit(rows: Rows, t: Table, ids: seq<Id>)
    requires Sorted(rows, t, ids) && ids != []
    ensures Sorted(rows, t, ids[..|ids| - 1]) && Key(t, ids[|ids| - 1]) in rows
    ensures var last := ids[|ids| - 1];
      forall x | x in ids[..|ids| - 1] :: x != last && rows[Key(t, x)].ord <= rows[Key(t, last)].ord
  {
    var init, last := ids[..|ids| - 1], ids[|ids| - 1];
    forall x | x in init ensures x in ids && x != last && rows[Key(t, x)].ord <= rows[Key(t, last)].ord {
      var j :| 0 <= j < |init| && init[j] == x;
      assert ids[j] == x;
    }
  }

  method Query(rows: Rows, t: Table, w: Id) returns (ids: seq<Id>)
    ensures Queried(rows, t, w, ids)
  {
    hide Root, Sorted, Insert;
    var left := set k | k in rows && k.table == t && Root(rows, k) == Some(w);
    ghost var all := left;
    ids := [];
    assert Sorted(rows, t, ids) by { Empty(rows, t); }
    while left != {}
      invariant left <= all
      invariant forall id :: id in ids <==> Key(t, id) in all - left
      invariant Sorted(rows, t, ids)
      decreases left
    {
      var k :| k in left;
      left := left - {k};
      assert k == Key(t, k.id);
      InsertSorted(rows, t, k.id, ids);
      ids := Insert(rows, t, k.id, ids);
    }
  }

  lemma Empty(rows: Rows, t: Table)
    ensures Sorted(rows, t, [])
  {
  }

  // --- Grouping by parent ---

  function OrEmptySeq<X>(m: map<Id, seq<X>>, p: Id): seq<X> {
    if p in m then m[p] else []
  }

  /** The records whose parent is p, in order. */
  function Pick<X>(parents: seq<Id>, xs: seq<X>, p: Id): seq<X>
    requires |parents| == |xs|
  {
    if xs == [] then []
    else
      var k := |xs| - 1;
      if parents[k] == p then Pick(parents[..k], xs[..k], p) + [xs[k]] else Pick(parents[..k], xs[..k], p)
  }

  lemma PickStep<X>(parents: seq<Id>, xs: seq<X>, i: nat, p: Id)
    requires |parents| == |xs| && i < |xs|
    ensures parents[i] == p ==> Pick(parents[..i + 1], xs[..i + 1], p) == Pick(parents[..i], xs[..i], p) + [xs[i]]
    ensures parents[i] != p ==> Pick(parents[..i + 1], xs[..i + 1], p) == Pick(parents[..i], xs[..i], p)
  {
    assert parents[..i + 1][..i] == parents[..i] && xs[..i + 1][..i] == xs[..i];
  }

  method GroupBy<X>(parents: seq<Id>, xs: seq<X>) returns (m: map<Id, seq<X>>)
    requires |parents| == |xs|
    ensures forall p :: OrEmptySeq(m, p) == Pick(parents, xs, p)
  {
    m := map[];
    for i := 0 to |xs|
      invariant forall p :: OrEmptySeq(m, p) == Pick(parents[..i], xs[..i], p)
    {
      ghost var was := m;
      m := m[parents[i] := OrEmptySeq(m, parents[i]) + [xs[i]]];
      forall p ensures OrEmptySeq(m, p) == Pick(parents[..i + 1], xs[..i + 1], p) {
        PickStep(parents, xs, i, p);
        assert OrEmptySeq(was, p) == Pick(parents[..i], xs[..i], p);
      }
    }
    assert parents[..|xs|] == parents && xs[..|xs|] == xs;
  }

  lemma {:induction false} PickLength<X>(parents: seq<Id>, xs: seq<X>, ids: seq<Id>, p: Id)
    requires |parents| == |xs| == |ids|
    ensures |Pick(parents, xs, p)| == |Pick(parents, ids, p)|
  {
    if xs == [] {
    } else {
      var k := |xs| - 1;
      PickLength(parents[..k], xs[..k], ids[..k], p);
    }
  }

  /** Picking records and picking their ids goes in step. */
  lemma {:induction false} PickAligned<X>(parents: seq<Id>, xs: seq<X>, ids: seq<Id>, p: Id, j: nat) returns (i: nat)
    requires |parents| == |xs| == |ids| && j < |Pick(parents, xs, p)| && j < |Pick(parents, ids, p)|
    ensures i < |ids| && Pick(parents, xs, p)[j] == xs[i] && Pick(parents, ids, p)[j] == ids[i]
  {
    var k := |xs| - 1;
    PickLength(parents[..k], xs[..k], ids[..k], p);
    if j < |Pick(parents[..k], ids[..k], p)| {
      i := PickAligned(parents[..k], xs[..k], ids[..k], p, j);
    } else {
      i := k;
    }
  }

  // --- A sorted group is the list of children ---

  lemma {:induction false} PickIn(parents: seq<Id>, ids: seq<Id>, p: Id, x: Id)
    requires |parents| == |ids|
    ensures x in Pick(parents, ids, p) <==> exists i | 0 <= i < |ids| :: parents[i] == p && ids[i] == x
  {
    if ids == [] {
    } else {
      var k := |ids| - 1;
      PickIn(parents[..k], ids[..k], p, x);
      if i :| 0 <= i < |ids| && parents[i] == p && ids[i] == x {
        if i < k {
          assert parents[..k][i] == p && ids[..k][i] == x;
        }
      }
      if i :| 0 <= i < k && parents[..k][i] == p && ids[..k][i] == x {
        assert parents[i] == p && ids[i] == x;
      }
    }
  }

  lemma {:induction false} PickSorted(rows: Rows, t: Table, parents: seq<Id>, ids: seq<Id>, p: Id)
    requires |parents| == |ids| && Sorted(rows, t, ids)
    ensures Sorted(rows, t, Pick(parents, ids, p))
  {
    if ids == [] {
    } else {
      var k := |ids| - 1;
      var init, last := ids[..k], ids[k];
      SortedInit(rows, t, ids);
      PickSorted(rows, t, parents[..k], init, p);
      hide Sorted;
      var r := Pick(parents[..k], init, p);
      forall x | x in r ensures x in init {
        PickIn(parents[..k], init, p, x);
      }
      if parents[k] == p {
        SortedSnoc(rows, t, r, last);
      }
    }
  }

  /** Distinct ids sorted by ord, whose ords are their places in ks, are ks. */
  lemma SortedKids(rows: Rows, t: Table, p: Id, ks: seq<Id>, g: seq<Id>)
    requires IsKids(rows, t, p, ks) && Sorted(rows, t, g)
    requires forall x :: x in g <==> x in ks
    ensures g == ks
  {
    OrdsAbove(rows, t, p, ks, g, |g|);
    SizesEqual(rows, t, p, ks, g);
    forall i: nat | i < |g| ensures g[i] == ks[i] {
      OrdsBelow(rows, t, p, ks, g, |g| - i);
      assert g[i] in ks;
      var j: nat :| j < |ks| && ks[j] == g[i];
    }
  }

  /** Along a sorted list of children the ords strictly increase. */
  lemma Increasing(rows: Rows, t: Table, p: Id, ks: seq<Id>, g: seq<Id>, i: nat)
    requires IsKids(rows, t, p, ks) && Sorted(rows, t, g) && (forall x | x in g :: x in ks) && i + 1 < |g|
    ensures rows[Key(t, g[i])].ord < rows[Key(t, g[i + 1])].ord
  {
    assert g[i] in ks && g[i + 1] in ks;
    var a: nat :| a < |ks| && ks[a] == g[i];
    var c: nat :| c < |ks| && ks[c] == g[i + 1];
    assert g[i] != g[i + 1];
  }

  lemma {:induction false} OrdsAbove(rows: Rows, t: Table, p: Id, ks: seq<Id>, g: seq<Id>, n: nat)
    requires IsKids(rows, t, p, ks) && Sorted(rows, t, g) && (forall x | x in g :: x in ks) && n <= |g|
    ensures forall i: nat | i < n :: i <= rows[Key(t, g[i])].ord < |ks|
  {
    if n == 0 {
    } else {
      OrdsAbove(rows, t, p, ks, g, n - 1);
      if n > 1 {
        Increasing(rows, t, p, ks, g, n - 2);
      }
      assert g[n - 1] in ks;
      var j: nat :| j < |ks| && ks[j] == g[n - 1];
    }
  }

  lemma SizesEqual(rows: Rows, t: Table, p: Id, ks: seq<Id>, g: seq<Id>)
    requires IsKids(rows, t, p, ks) && Sorted(rows, t, g) && forall x :: x in g <==> x in ks
    ensures |g| == |ks|
  {
    assert NoDup(ks) by {
      forall i, j | 0 <= i < j < |ks| ensures ks[i] != ks[j] {
        assert rows[Key(t, ks[i])].ord == i && rows[Key(t, ks[j])].ord == j;
      }
    }
    NoDupBag(g);
    NoDupBag(ks);
    assert forall x :: x in multiset(g) <==> x in multiset(ks);
    assert multiset(g) == multiset(ks);
    assert |multiset(g)| == |g| && |multiset(ks)| == |ks|;
  }

  /** The last n ords lie below the end by their distance from it. */
  lemma {:induction false} OrdsBelow(rows: Rows, t: Table, p: Id, ks: seq<Id>, g: seq<Id>, n: nat)
    requires IsKids(rows, t, p, ks) && Sorted(rows, t, g) && (forall x | x in g :: x in ks) && |g| == |ks| && 0 < n <= |g|
    ensures rows[Key(t, g[|g| - n])].ord <= |g| - n
  {
    var i := |g| - n;
    if n > 1 {
      OrdsBelow(rows, t, p, ks, g, n - 1);
      Increasing(rows, t, p, ks, g, i);
    } else {
      OrdsAbove(rows, t, p, ks, g, |g|);
    }
  }

  ghost predicate ParentsOf(rows: Rows, t: Table, ids: seq<Id>, parents: seq<Id>) {
    |parents| == |ids| && forall i: nat | i < |ids| :: Key(t, ids[i]) in rows && parents[i] == rows[Key(t, ids[i])].parent
  }

  lemma GroupIsKids(rows: Rows, t: Table, w: Id, ids: seq<Id>, parents: seq<Id>, p: Id)
    requires Queried(rows, t, w, ids) && ParentsOf(rows, t, ids, parents)
    requires Mine(rows, w, t, p) && Listed(rows, t, p)
    ensures Pick(parents, ids, p) == Kids(rows, t, p)
  {
    var ks :| IsKids(rows, t, p, ks);
    KidsAre(rows, t, p, ks);
    var g := Pick(parents, ids, p);
    PickSorted(rows, t, parents, ids, p);
    forall x ensures x in g <==> x in ks {
      PickIn(parents, ids, p, x);
      hide Sorted, Pick;
      if x in ks {
        if !Top(t) {
          RootOfChild(rows, Key(t, x));
        } else {
          RootOfTop(rows, Key(t, x));
        }
        assert x in ids;
        var i: nat :| i < |ids| && ids[i] == x;
        assert parents[i] == p;
      }
      if x in g {
        var i: nat :| i < |ids| && parents[i] == p && ids[i] == x;
        assert Key(t, x) in rows && rows[Key(t, x)].parent == p;
      }
    }
    hide Sorted, IsKids, Pick, Queried;
    SortedKids(rows, t, p, ks, g);
  }

  // --- One table at a time ---

  /** What loading w relies on: rows of the right kinds, and ordered children everywhere. */
  ghost predicate Readable(rows: Rows) {
    RowsFit(rows) && AllListed(rows)
  }

  /** The records of one table, grouped by parent: each group goes in step with the parent's children. */
  lemma GroupsAre<X>(rows: Rows, t: Table, w: Id, ids: seq<Id>, parents: seq<Id>, xs: seq<X>, p: Id)
    requires Readable(rows) && Mine(rows, w, t, p)
    requires Queried(rows, t, w, ids) && ParentsOf(rows, t, ids, parents) && |xs| == |ids|
    ensures |Pick(parents, xs, p)| == |Kids(rows, t, p)| && Pick(parents, ids, p) == Kids(rows, t, p)
  {
    assert Listed(rows, t, p);
    hide *;
    GroupIsKids(rows, t, w, ids, parents, p);
    PickLength(parents, xs, ids, p);
  }

  method PronsByForm(rows: Rows, w: Id) returns (m: map<Id, seq<Pronunciation>>)
    requires Readable(rows)
    ensures forall p | Mine(rows, w, Prons, p) :: OrEmptySeq(m, p) == PronsOf(rows, p)
  {
    hide Root, Listed, Sorted, Pick;
    var ids := Query(rows, Prons, w);
    var parents: seq<Id>, xs: seq<Pronunciation> := [], [];
    for i := 0 to |ids|
      invariant |parents| == |xs| == i
      invariant forall j: nat | j < i :: Key(Prons, ids[j]) in rows && parents[j] == rows[Key(Prons, ids[j])].parent
      invariant forall j: nat | j < i :: Key(Prons, ids[j]) in rows && xs[j] == PronOf(rows, ids[j])
    {
      assert ids[i] in ids;
      var r := rows[Key(Prons, ids[i])];
      parents := parents + [r.parent];
      xs := xs + [Pronunciation(ids[i], r.data.dictPhonetic, r.data.actualPron, r.data.style, r.audio)];
    }
    m := GroupBy(parents, xs);
    forall p | Mine(rows, w, Prons, p) ensures OrEmptySeq(m, p) == PronsOf(rows, p) {
      PronsGroup(rows, w, ids, parents, xs, p);
    }
  }

  lemma PronsGroup(rows: Rows, w: Id, ids: seq<Id>, parents: seq<Id>, xs: seq<Pronunciation>, p: Id)
    requires Readable(rows) && Mine(rows, w, Prons, p)
    requires Queried(rows, Prons, w, ids) && ParentsOf(rows, Prons, ids, parents) && |xs| == |ids|
    requires forall j: nat | j < |ids| :: Key(Prons, ids[j]) in rows && xs[j] == PronOf(rows, ids[j])
    ensures Pick(parents, xs, p) == PronsOf(rows, p)
  {
    hide Queried, RowsFit, Kids, Mine, Pick, PronOf, Listed;
    GroupsAre(rows, Prons, w, ids, parents, xs, p);
    forall j: nat | j < |Kids(rows, Prons, p)| ensures Pick(parents, xs, p)[j] == PronsOf(rows, p)[j] {
      var i := PickAligned(parents, xs, ids, p, j);
    }
  }

  method FormsByPos(rows: Rows, w: Id, prons: map<Id, seq<Pronunciation>>) returns (m: map<Id, seq<Form>>)
    requires Readable(rows)
    requires forall p | Mine(rows, w, Prons, p) :: OrEmptySeq(prons, p) == PronsOf(rows, p)
    ensures forall p | Mine(rows, w, Forms, p) :: OrEmptySeq(m, p) == FormsOf(rows, p)
  {
    hide Root, Listed, Sorted, Pick, PronsOf;
    var ids := Query(rows, Forms, w);
    var parents: seq<Id>, xs: seq<Form> := [], [];
    for i := 0 to |ids|
      invariant |parents| == |xs| == i
      invariant forall j: nat | j < i :: Key(Forms, ids[j]) in rows && parents[j] == rows[Key(Forms, ids[j])].parent
      invariant forall j: nat | j < i :: Key(Forms, ids[j]) in rows && xs[j] == FormOf(rows, ids[j])
    {
      assert ids[i] in ids;
      var r := rows[Key(Forms, ids[i])];
      assert Mine(rows, w, Prons, ids[i]);
      parents := parents + [r.parent];
      xs := xs + [Form(ids[i], r.data.dialect, r.data.formType, r.data.spelling, OrEmptySeq(prons, ids[i]))];
    }
    m := GroupBy(parents, xs);
    forall p | Mine(rows, w, Forms, p) ensures OrEmptySeq(m, p) == FormsOf(rows, p) {
      FormsGroup(rows, w, ids, parents, xs, p);
    }
  }

  lemma FormsGroup(rows: Rows, w: Id, ids: seq<Id>, parents: seq<Id>, xs: seq<Form>, p: Id)
    requires Readable(rows) && Mine(rows, w, Forms, p)
    requires Queried(rows, Forms, w, ids) && ParentsOf(rows, Forms, ids, parents) && |xs| == |ids|
    requires forall j: nat | j < |ids| :: Key(Forms, ids[j]) in rows && xs[j] == FormOf(rows, ids[j])
    ensures Pick(parents, xs, p) == FormsOf(rows, p)
  {
    hide Queried, RowsFit, Kids, Mine, Pick, FormOf, Listed;
    GroupsAre(rows, Forms, w, ids, parents, xs, p);
    forall j: nat | j < |Kids(rows, Forms, p)| ensures Pick(parents, xs, p)[j] == FormsOf(rows, p)[j] {
      var i := PickAligned(parents, xs, ids, p, j);
    }
  }

  method VariantsByStruct(rows: Rows, w: Id) returns (m: map<Id, seq<GrammarVariant>>)
    requires Readable(rows)
    ensures forall p | Mine(rows, w, Variants, p) :: OrEmptySeq(m, p) == VariantsOf(rows, p)
  {
    hide Root, Listed, Sorted, Pick;
    var ids := Query(rows, Variants, w);
    var parents: seq<Id>, xs: seq<GrammarVariant> := [], [];
    for i := 0 to |ids|
      invariant |parents| == |xs| == i
      invariant forall j: nat | j < i :: Key(Variants, ids[j]) in rows && parents[j] == rows[Key(Variants, ids[j])].parent
      invariant forall j: nat | j < i :: Key(Variants, ids[j]) in rows && xs[j] == VariantOf(rows, ids[j])
    {
      assert ids[i] in ids;
      var r := rows[Key(Variants, ids[i])];
      parents := parents + [r.parent];
      xs := xs + [GrammarVariant(ids[i], r.data.variantDialect, NormalText(r.data.content), r.audio)];
    }
    m := GroupBy(parents, xs);
    forall p | Mine(rows, w, Variants, p) ensures OrEmptySeq(m, p) == VariantsOf(rows, p) {
      VariantsGroup(rows, w, ids, parents, xs, p);
    }
  }

  lemma VariantsGroup(rows: Rows, w: Id, ids: seq<Id>, parents: seq<Id>, xs: seq<GrammarVariant>, p: Id)
    requires Readable(rows) && Mine(rows, w, Variants, p)
    requires Queried(rows, Variants, w, ids) && ParentsOf(rows, Variants, ids, parents) && |xs| == |ids|
    requires forall j: nat | j < |ids| :: Key(Variants, ids[j]) in rows && xs[j] == VariantOf(rows, ids[j])
    ensures Pick(parents, xs, p) == VariantsOf(rows, p)
  {
    hide Queried, RowsFit, Kids, Mine, Pick, VariantOf, Listed;
    GroupsAre(rows, Variants, w, ids, parents, xs, p);
    forall j: nat | j < |Kids(rows, Variants, p)| ensures Pick(parents, xs, p)[j] == VariantsOf(rows, p)[j] {
      var i := PickAligned(parents, xs, ids, p, j);
    }
  }

  method StructsByPos(rows: Rows, w: Id, variants: map<Id, seq<GrammarVariant>>) returns (m: map<Id, seq<GrammarStructure>>)
    requires Readable(rows)
    requires forall p | Mine(rows, w, Variants, p) :: OrEmptySeq(variants, p) == VariantsOf(rows, p)
    ensures forall p | Mine(rows, w, Structs, p) :: OrEmptySeq(m, p) == StructsOf(rows, p)
  {
    hide Root, Listed, Sorted, Pick, VariantsOf;
    var ids := Query(rows, Structs, w);
    var parents: seq<Id>, xs: seq<GrammarStructure> := [], [];
    for i := 0 to |ids|
      invariant |parents| == |xs| == i
      invariant forall j: nat | j < i :: Key(Structs, ids[j]) in rows && parents[j] == rows[Key(Structs, ids[j])].parent
      invariant forall j: nat | j < i :: Key(Structs, ids[j]) in rows && xs[j] == StructOf(rows, ids[j])
    {
      assert ids[i] in ids;
      var r := rows[Key(Structs, ids[i])];
      assert Mine(rows, w, Variants, ids[i]);
      parents := parents + [r.parent];
      xs := xs + [GrammarStructure(ids[i], OrEmptySeq(variants, ids[i]))];
    }
    m := GroupBy(parents, xs);
    forall p | Mine(rows, w, Structs, p) ensures OrEmptySeq(m, p) == StructsOf(rows, p) {
      StructsGroup(rows, w, ids, parents, xs, p);
    }
  }

  lemma StructsGroup(rows: Rows, w: Id, ids: seq<Id>, parents: seq<Id>, xs: seq<GrammarStructure>, p: Id)
    requires Readable(rows) && Mine(rows, w, Structs, p)
    requires Queried(rows, Structs, w, ids) && ParentsOf(rows, Structs, ids, parents) && |xs| == |ids|
    requires forall j: nat | j < |ids| :: Key(Structs, ids[j]) in rows && xs[j] == StructOf(rows, ids[j])
    ensures Pick(parents, xs, p) == StructsOf(rows, p)
  {
    hide Queried, RowsFit, Kids, Mine, Pick, StructOf, Listed;
    GroupsAre(rows, Structs, w, ids, parents, xs, p);
    forall j: nat | j < |Kids(rows, Structs, p)| ensures Pick(parents, xs, p)[j] == StructsOf(rows, p)[j] {
      var i := PickAligned(parents, xs, ids, p, j);
    }
  }

  method DefsBySense(rows: Rows, w: Id) returns (m: map<Id, seq<Definition>>)
    requires Readable(rows)
    ensures forall p | Mine(rows, w, Defs, p) :: OrEmptySeq(m, p) == DefsOf(rows, p)
  {
    hide Root, Listed, Sorted, Pick;
    var ids := Query(rows, Defs, w);
    var parents: seq<Id>, xs: seq<Definition> := [], [];
    for i := 0 to |ids|
      invariant |parents| == |xs| == i
      invariant forall j: nat | j < i :: Key(Defs, ids[j]) in rows && parents[j] == rows[Key(Defs, ids[j])].parent
      invariant forall j: nat | j < i :: Key(Defs, ids[j]) in rows && xs[j] == DefOf(rows, ids[j])
    {
      assert ids[i] in ids;
      var r := rows[Key(Defs, ids[i])];
      parents := parents + [r.parent];
      xs := xs + [Definition(ids[i], r.data.defLevel, r.data.defType, NormalText(r.data.text), r.data.structure, r.audio)];
    }
    m := GroupBy(parents, xs);
    forall p | Mine(rows, w, Defs, p) ensures OrEmptySeq(m, p) == DefsOf(rows, p) {
      DefsGroup(rows, w, ids, parents, xs, p);
    }
  }

  lemma DefsGroup(rows: Rows, w: Id, ids: seq<Id>, parents: seq<Id>, xs: seq<Definition>, p: Id)
    requires Readable(rows) && Mine(rows, w, Defs, p)
    requires Queried(rows, Defs, w, ids) && ParentsOf(rows, Defs, ids, parents) && |xs| == |ids|
    requires forall j: nat | j < |ids| :: Key(Defs, ids[j]) in rows && xs[j] == DefOf(rows, ids[j])
    ensures Pick(parents, xs, p) == DefsOf(rows, p)
  {
    hide Queried, RowsFit, Kids, Mine, Pick, DefOf, Listed;
    GroupsAre(rows, Defs, w, ids, parents, xs, p);
    forall j: nat | j < |Kids(rows, Defs, p)| ensures Pick(parents, xs, p)[j] == DefsOf(rows, p)[j] {
      var i := PickAligned(parents, xs, ids, p, j);
    }
  }

  method SentsBySense(rows: Rows, w: Id) returns (m: map<Id, seq<Sentence>>)
    requires Readable(rows)
    ensures forall p | Mine(rows, w, Sents, p) :: OrEmptySeq(m, p) == SentsOf(rows, p)
  {
    hide Root, Listed, Sorted, Pick;
    var ids := Query(rows, Sents, w);
    var parents: seq<Id>, xs: seq<Sentence> := [], [];
    for i := 0 to |ids|
      invariant |parents| == |xs| == i
      invariant forall j: nat | j < i :: Key(Sents, ids[j]) in rows && parents[j] == rows[Key(Sents, ids[j])].parent
      invariant forall j: nat | j < i :: Key(Sents, ids[j]) in rows && xs[j] == SentOf(rows, ids[j])
    {
      assert ids[i] in ids;
      var r := rows[Key(Sents, ids[i])];
      parents := parents + [r.parent];
      xs := xs + [Sentence(ids[i], r.data.sourceExample,
        if r.data.sentence.Some? then Some(NormalText(r.data.sentence.value)) else None, r.audio)];
    }
    m := GroupBy(parents, xs);
    forall p | Mine(rows, w, Sents, p) ensures OrEmptySeq(m, p) == SentsOf(rows, p) {
      SentsGroup(rows, w, ids, parents, xs, p);
    }
  }

  lemma SentsGroup(rows: Rows, w: Id, ids: seq<Id>, parents: seq<Id>, xs: seq<Sentence>, p: Id)
    requires Readable(rows) && Mine(rows, w, Sents, p)
    requires Queried(rows, Sents, w, ids) && ParentsOf(rows, Sents, ids, parents) && |xs| == |ids|
    requires forall j: nat | j < |ids| :: Key(Sents, ids[j]) in rows && xs[j] == SentOf(rows, ids[j])
    ensures Pick(parents, xs, p) == SentsOf(rows, p)
  {
    hide Queried, RowsFit, Kids, Mine, Pick, SentOf, Listed;
    GroupsAre(rows, Sents, w, ids, parents, xs, p);
    forall j: nat | j < |Kids(rows, Sents, p)| ensures Pick(parents, xs, p)[j] == SentsOf(rows, p)[j] {
      var i := PickAligned(parents, xs, ids, p, j);
    }
  }

  method RelsBySense(rows: Rows, w: Id) returns (m: map<Id, seq<Relation>>)
    requires Readable(rows)
    ensures forall p | Mine(rows, w, Rels, p) :: OrEmptySeq(m, p) == RelsOf(rows, p)
  {
    hide Root, Listed, Sorted, Pick;
    var ids := Query(rows, Rels, w);
    var parents: seq<Id>, xs: seq<Relation> := [], [];
    for i := 0 to |ids|
      invariant |parents| == |xs| == i
      invariant forall j: nat | j < i :: Key(Rels, ids[j]) in rows && parents[j] == rows[Key(Rels, ids[j])].parent
      invariant forall j: nat | j < i :: Key(Rels, ids[j]) in rows && xs[j] == RelOf(rows, ids[j])
    {
      assert ids[i] in ids;
      var r := rows[Key(Rels, ids[i])];
      parents := parents + [r.parent];
      xs := xs + [Relation(ids[i], r.data.relation, r.data.target, r.data.score)];
    }
    m := GroupBy(parents, xs);
    forall p | Mine(rows, w, Rels, p) ensures OrEmptySeq(m, p) == RelsOf(rows, p) {
      RelsGroup(rows, w, ids, parents, xs, p);
    }
  }

  lemma RelsGroup(rows: Rows, w: Id, ids: seq<Id>, parents: seq<Id>, xs: seq<Relation>, p: Id)
    requires Readable(rows) && Mine(rows, w, Rels, p)
    requires Queried(rows, Rels, w, ids) && ParentsOf(rows, Rels, ids, parents) && |xs| == |ids|
    requires forall j: nat | j < |ids| :: Key(Rels, ids[j]) in rows && xs[j] == RelOf(rows, ids[j])
    ensures Pick(parents, xs, p) == RelsOf(rows, p)
  {
    hide Queried, RowsFit, Kids, Mine, Pick, RelOf, Listed;
    GroupsAre(rows, Rels, w, ids, parents, xs, p);
    forall j: nat | j < |Kids(rows, Rels, p)| ensures Pick(parents, xs, p)[j] == RelsOf(rows, p)[j] {
      var i := PickAligned(parents, xs, ids, p, j);
    }
  }

  method SensesByPos(rows: Rows, w: Id, defs: map<Id, seq<Definition>>, sents: map<Id, seq<Sentence>>, rels: map<Id, seq<Relation>>) returns (m: map<Id, seq<Sense>>)
    requires Readable(rows)
    requires forall p | Mine(rows, w, Defs, p) :: OrEmptySeq(defs, p) == DefsOf(rows, p)
    requires forall p | Mine(rows, w, Sents, p) :: OrEmptySeq(sents, p) == SentsOf(rows, p)
    requires forall p | Mine(rows, w, Rels, p) :: OrEmptySeq(rels, p) == RelsOf(rows, p)
    ensures forall p | Mine(rows, w, Senses, p) :: OrEmptySeq(m, p) == SensesOf(rows, p)
  {
    hide Root, Listed, Sorted, Pick, DefsOf, SentsOf, RelsOf;
    var ids := Query(rows, Senses, w);
    var parents: seq<Id>, xs: seq<Sense> := [], [];
    for i := 0 to |ids|
      invariant |parents| == |xs| == i
      invariant forall j: nat | j < i :: Key(Senses, ids[j]) in rows && parents[j] == rows[Key(Senses, ids[j])].parent
      invariant forall j: nat | j < i :: Key(Senses, ids[j]) in rows && xs[j] == SenseOf(rows, ids[j])
    {
      assert ids[i] in ids;
      var r := rows[Key(Senses, ids[i])];
      assert Mine(rows, w, Defs, ids[i]) && Mine(rows, w, Sents, ids[i]) && Mine(rows, w, Rels, ids[i]);
      parents := parents + [r.parent];
      xs := xs + [Sense(ids[i], r.data.subPos, r.data.level, r.data.group, OrBlank(r.data.frequency),
        r.data.dependsOnContext, OrEmptySeq(defs, ids[i]), OrEmptySeq(sents, ids[i]), OrEmptySeq(rels, ids[i]))];
    }
    m := GroupBy(parents, xs);
    forall p | Mine(rows, w, Senses, p) ensures OrEmptySeq(m, p) == SensesOf(rows, p) {
      SensesGroup(rows, w, ids, parents, xs, p);
    }
  }

  lemma SensesGroup(rows: Rows, w: Id, ids: seq<Id>, parents: seq<Id>, xs: seq<Sense>, p: Id)
    requires Readable(rows) && Mine(rows, w, Senses, p)
    requires Queried(rows, Senses, w, ids) && ParentsOf(rows, Senses, ids, parents) && |xs| == |ids|
    requires forall j: nat | j < |ids| :: Key(Senses, ids[j]) in rows && xs[j] == SenseOf(rows, ids[j])
    ensures Pick(parents, xs, p) == SensesOf(rows, p)
  {
    hide Queried, RowsFit, Kids, Mine, Pick, SenseOf, Listed;
    GroupsAre(rows, Senses, w, ids, parents, xs, p);
    forall j: nat | j < |Kids(rows, Senses, p)| ensures Pick(parents, xs, p)[j] == SensesOf(rows, p)[j] {
      var i := PickAligned(parents, xs, ids, p, j);
    }
  }

  /** The top-level lists need no grouping: all their rows have the word as parent. */
  lemma TopKids(rows: Rows, t: Table, w: Id, ids: seq<Id>)
    requires Queried(rows, t, w, ids) && Top(t) && Listed(rows, t, w)
    ensures ids == Kids(rows, t, w)
  {
    var ks :| IsKids(rows, t, w, ks);
    KidsAre(rows, t, w, ks);
    hide Sorted;
    forall x ensures x in ids <==> x in ks {
      if Key(t, x) in rows {
        RootOfTop(rows, Key(t, x));
      }
    }
    SortedKids(rows, t, w, ks, ids);
  }

  method LoadGroups(rows: Rows, w: Id) returns (xs: seq<SenseGroup>)
    requires Readable(rows)
    ensures xs == GroupsOf(rows, w)
  {
    var ids := Query(rows, Groups, w);
    TopKids(rows, Groups, w, ids);
    xs := [];
    for i := 0 to |ids|
      invariant |xs| == i && forall j: nat | j < i :: xs[j] == GroupOf(rows, ids[j])
    {
      xs := xs + [SenseGroup(ids[i], rows[Key(Groups, ids[i])].data.name)];
    }
  }

  method LoadTabs(rows: Rows, w: Id) returns (xs: seq<POS>)
    requires Readable(rows)
    ensures xs == TabsOf(rows, w)
  {
    var prons := PronsByForm(rows, w);
    var forms := FormsByPos(rows, w, prons);
    var variants := VariantsByStruct(rows, w);
    var structs := StructsByPos(rows, w, variants);
    var defs := DefsBySense(rows, w);
    var sents := SentsBySense(rows, w);
    var rels := RelsBySense(rows, w);
    var senses := SensesByPos(rows, w, defs, sents, rels);
    var ids := Query(rows, Pos, w);
    TopKids(rows, Pos, w, ids);
    xs := StitchTabs(rows, w, ids, forms, structs, senses);
  }

  method StitchTabs(rows: Rows, w: Id, ids: seq<Id>, forms: map<Id, seq<Form>>,
      structs: map<Id, seq<GrammarStructure>>, senses: map<Id, seq<Sense>>) returns (xs: seq<POS>)
    requires Readable(rows) && ids == Kids(rows, Pos, w) && Queried(rows, Pos, w, ids)
    requires forall p | Mine(rows, w, Forms, p) :: OrEmptySeq(forms, p) == FormsOf(rows, p)
    requires forall p | Mine(rows, w, Structs, p) :: OrEmptySeq(structs, p) == StructsOf(rows, p)
    requires forall p | Mine(rows, w, Senses, p) :: OrEmptySeq(senses, p) == SensesOf(rows, p)
    ensures xs == TabsOf(rows, w)
  {
    hide Root, Listed, Sorted, FormsOf, StructsOf, SensesOf, Kids;
    xs := [];
    for i := 0 to |ids|
      invariant |xs| == i && forall j: nat | j < i :: xs[j] == PosOf(rows, ids[j])
    {
      assert ids[i] in ids;
      assert Mine(rows, w, Forms, ids[i]) && Mine(rows, w, Structs, ids[i]) && Mine(rows, w, Senses, ids[i]);
      xs := xs + [POS(ids[i], rows[Key(Pos, ids[i])].data.pos, OrEmptySeq(forms, ids[i]),
        OrEmptySeq(structs, ids[i]), OrEmptySeq(senses, ids[i]))];
    }
  }

  /** The whole entry, or nothing when there is no such word. */
  method LoadTree(db: DB, w: Id) returns (r: Option<Word>)
    requires Readable(db.rows)
    ensures r == if w in db.words then Some(TreeOf(db, w)) else None
  {
    if w !in db.words {
      return None;
    }
    var row := db.words[w];
    var groups := LoadGroups(db.rows, w);
    var tabs := LoadTabs(db.rows, w);
    return Some(Word(w, row.kind, row.headword, OrBlank(row.frequency), row.mode, row.dialects, row.status,
      row.createdBy, row.token, groups, tabs));
  }
}

/**
 The display gloss of a sense (internal/word/repository.go, glossSQL): the query's first row
 when Chinese definitions sort before others and ties go by sort order.
 */
module WordGloss {
  import opened Basics
  import opened WordModel
  import opened WordTables
  import opened WordStore
  import opened WordRead

  predicate IsDefOf(rows: Rows, sense: Id, k: Key) {
    k in rows && k.table.Defs? && rows[k].parent == sense && rows[k].data.DefData?
  }

  /** ORDER BY (def_type <> 'zh'), sort_order; rows that tie on both are taken by id. */
  predicate Precedes(rows: Rows, k: Key, l: Key)
    requires k in rows && l in rows && rows[k].data.DefData? && rows[l].data.DefData?
  {
    var zh, hz := rows[k].data.defType == ZH, rows[l].data.defType == ZH;
    if zh != hz then zh
    else rows[k].ord < rows[l].ord || (rows[k].ord == rows[l].ord && k.id < l.id)
  }

  ghost predicate IsFirst(rows: Rows, sense: Id, k: Key) {
    IsDefOf(rows, sense, k) && forall l | IsDefOf(rows, sense, l) && l != k :: Precedes(rows, k, l)
  }

  ghost function GlossAt(rows: Rows, sense: Id): string {
    if k :| IsFirst(rows, sense, k) then rows[k].data.text.text else ""
  }

  lemma FirstUnique(rows: Rows, sense: Id, k: Key, l: Key)
    requires IsFirst(rows, sense, k) && IsFirst(rows, sense, l)
    ensures k == l
  {
  }

  lemma GlossIs(rows: Rows, sense: Id, k: Key)
    requires IsFirst(rows, sense, k)
    ensures GlossAt(rows, sense) == rows[k].data.text.text
  {
    var l :| IsFirst(rows, sense, l) && GlossAt(rows, sense) == rows[l].data.text.text;
    FirstUnique(rows, sense, k, l);
  }

  /** A total order on the definitions of a sense. */
  lemma PrecedesOrder(rows: Rows, sense: Id, k: Key, l: Key)
    requires IsDefOf(rows, sense, k) && IsDefOf(rows, sense, l) && k != l
    ensures Precedes(rows, k, l) || Precedes(rows, l, k)
    ensures Precedes(rows, k, l) ==> forall m | IsDefOf(rows, sense, m) && Precedes(rows, l, m) :: Precedes(rows, k, m)
  {
  }

  ghost predicate BestOf(rows: Rows, sense: Id, done: set<Key>, best: Option<Key>) {
    && (forall l | l in done :: IsDefOf(rows, sense, l))
    && (best.None? ==> done == {})
    && (best.Some? ==> best.value in done && forall l | l in done && l != best.value :: Precedes(rows, best.value, l))
  }

  lemma BetterOf(rows: Rows, sense: Id, done: set<Key>, best: Option<Key>, k: Key)
    requires BestOf(rows, sense, done, best) && IsDefOf(rows, sense, k) && k !in done
    ensures BestOf(rows, sense, done + {k},
      if best.None? || Precedes(rows, k, best.value) then Some(k) else best)
  {
    if best.Some? {
      PrecedesOrder(rows, sense, k, best.value);
    }
  }

  /** The query, one row at a time. */
  method FirstGloss(rows: Rows, sense: Id) returns (gloss: string)
    ensures gloss == GlossAt(rows, sense)
  {
    hide Precedes, GlossAt, IsFirst, BestOf;
    NoneYet(rows, sense);
    var left := set k | k in rows && IsDefOf(rows, sense, k);
    ghost var all := left;
    ghost var done: set<Key> := {};
    var best: Option<Key> := None;
    while left != {}
      invariant all == done + left && done !! left
      invariant BestOf(rows, sense, done, best)
      invariant best.Some? ==> IsDefOf(rows, sense, best.value)
      decreases left
    {
      var k :| k in left;
      BetterOf(rows, sense, done, best, k);
      left := left - {k};
      done := done + {k};
      if best.None? || Precedes(rows, k, best.value) {
        best := Some(k);
      }
    }
    if best.Some? {
      BestIsFirst(rows, sense, all, best.value);
      return rows[best.value].data.text.text;
    }
    NoneDone(rows, sense, done);
    NoGloss(rows, sense, all);
    return "";
  }

  lemma NoneYet(rows: Rows, sense: Id)
    ensures BestOf(rows, sense, {}, None)
  {
  }

  lemma NoneDone(rows: Rows, sense: Id, done: set<Key>)
    requires BestOf(rows, sense, done, None)
    ensures done == {}
  {
  }

  lemma BestIsFirst(rows: Rows, sense: Id, all: set<Key>, k: Key)
    requires all == set k | k in rows && IsDefOf(rows, sense, k)
    requires BestOf(rows, sense, all, Some(k))
    ensures IsDefOf(rows, sense, k) && GlossAt(rows, sense) == rows[k].data.text.text
  {
    hide GlossAt;
    assert IsFirst(rows, sense, k);
    GlossIs(rows, sense, k);
  }

  lemma NoGloss(rows: Rows, sense: Id, all: set<Key>)
    requires all == {} && all == set k | k in rows && IsDefOf(rows, sense, k)
    ensures GlossAt(rows, sense) == ""
  {
    forall k ensures !IsFirst(rows, sense, k) {
      assert k !in all;
    }
  }

  // --- What the query means for ordered definitions ---

  function GlossAmong(ds: seq<Definition>): string {
    match FirstChinese(ds)
    case Some(d) => d.text.text
    case None => if ds == [] then "" else ds[0].text.text
  }

  function FirstChinese(ds: seq<Definition>): Option<Definition> {
    if ds == [] then None
    else if ds[0].defType == ZH then Some(ds[0])
    else FirstChinese(ds[1..])
  }

  /** The position GlossAmong takes. */
  lemma {:induction false} FirstChineseAt(ds: seq<Definition>) returns (i: nat)
    ensures FirstChinese(ds).Some? ==> i < |ds| && ds[i].defType == ZH && FirstChinese(ds).value == ds[i]
    ensures FirstChinese(ds).Some? ==> forall j | 0 <= j < i :: ds[j].defType != ZH
    ensures FirstChinese(ds).None? ==> i == 0 && forall j | 0 <= j < |ds| :: ds[j].defType != ZH
  {
    i := 0;
    if ds != [] && ds[0].defType != ZH {
      i := FirstChineseAt(ds[1..]);
      if FirstChinese(ds).Some? {
        i := i + 1;
      }
    }
  }

  lemma KidMember(rows: Rows, t: Table, p: Id, ids: seq<Id>, k: Key)
    requires IsKids(rows, t, p, ids) && k in rows && k.table == t && rows[k].parent == p
    ensures k.id in ids
  {
    assert k == Key(t, k.id);
  }

  /** The gloss is the text of the first Chinese definition, or else of the first definition. */
  lemma GlossMeaning(rows: Rows, sense: Id)
    requires RowsFit(rows) && Listed(rows, Defs, sense)
    ensures GlossAt(rows, sense) == GlossAmong(DefsOf(rows, sense))
  {
    var ids :| IsKids(rows, Defs, sense, ids);
    KidsAre(rows, Defs, sense, ids);
    var ds := DefsOf(rows, sense);
    assert forall i: nat | i < |ids| :: ds[i].defType == rows[Key(Defs, ids[i])].data.defType;
    var i := FirstChineseAt(ds);
    if ds == [] {
      forall k ensures !IsFirst(rows, sense, k) {
        if IsDefOf(rows, sense, k) {
          KidMember(rows, Defs, sense, ids, k);
        }
      }
    } else {
      var k := Key(Defs, ids[i]);
      assert Fits(Defs, rows[k].data);
      forall l | IsDefOf(rows, sense, l) && l != k ensures Precedes(rows, k, l) {
        assert Key(Defs, l.id) in rows;
        var j: nat :| j < |ids| && ids[j] == l.id;
      }
      GlossIs(rows, sense, k);
    }
  }
}

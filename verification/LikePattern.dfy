/**
 LIKE patterns built from user input (internal/word/repository.go). The matching
 rules are those of section 9.7.1 (LIKE) of the PostgreSQL documentation.
 */
module LikePattern {

  predicate Meta(c: char) {
    c == '\\' || c == '%' || c == '_'
  }

  /** Neutralizes the metacharacters in one left-to-right pass. */
  function EscapeLike(s: string): string {
    if s == "" then ""
    else (if Meta(s[0]) then ['\\', s[0]] else [s[0]]) + EscapeLike(s[1..])
  }

  function SubstringPattern(s: string): string {
    "%" + EscapeLike(s) + "%"
  }

  function PrefixPattern(s: string): string {
    EscapeLike(s) + "%"
  }

  /**
   Does text t match pattern p, with '\' as the escape character? PostgreSQL rejects
   a pattern that ends in a lone escape character; here it matches nothing.
   */
  predicate Like(p: string, t: string)
    decreases |p|
  {
    if p == "" then t == ""
    else if p[0] == '%' then exists k | 0 <= k <= |t| :: Like(p[1..], t[k..])
    else if p[0] == '_' then t != "" && Like(p[1..], t[1..])
    else if p[0] == '\\' then |p| >= 2 && t != "" && t[0] == p[1] && Like(p[2..], t[1..])
    else t != "" && t[0] == p[0] && Like(p[1..], t[1..])
  }

  predicate HasSubstring(t: string, s: string) {
    exists k | 0 <= k <= |t| :: s <= t[k..]
  }

  /** An escaped text followed by p matches exactly the text itself, then p. */
  lemma {:induction false} LikeEscaped(s: string, p: string, t: string)
    ensures Like(EscapeLike(s) + p, t) <==> s <= t && Like(p, t[|s|..])
  {
    if s == "" {
      assert EscapeLike(s) + p == p && t[0..] == t;
    } else {
      var q := EscapeLike(s[1..]) + p;
      if Meta(s[0]) {
        assert EscapeLike(s) + p == ['\\', s[0]] + q;
        assert (['\\', s[0]] + q)[2..] == q;
      } else {
        assert EscapeLike(s) + p == [s[0]] + q;
        assert ([s[0]] + q)[1..] == q;
      }
      assert Like(EscapeLike(s) + p, t) <==> t != "" && t[0] == s[0] && Like(q, t[1..]);
      if t != "" {
        LikeEscaped(s[1..], p, t[1..]);
        if |s| <= |t| {
          assert t[1..][|s| - 1..] == t[|s|..];
        }
        assert t[0] == s[0] ==> (s <= t <==> s[1..] <= t[1..]);
      }
    }
  }

  lemma PercentMatchesAll(t: string)
    ensures Like("%", t)
  {
    assert Like("%"[1..], t[|t|..]);
  }

  lemma PrefixPatternExact(s: string, t: string)
    ensures Like(PrefixPattern(s), t) <==> s <= t
  {
    LikeEscaped(s, "%", t);
    if s <= t {
      PercentMatchesAll(t[|s|..]);
    }
  }

  lemma SubstringPatternExact(s: string, t: string)
    ensures Like(SubstringPattern(s), t) <==> HasSubstring(t, s)
  {
    assert SubstringPattern(s) == "%" + PrefixPattern(s);
    assert SubstringPattern(s)[1..] == PrefixPattern(s);
    forall k | 0 <= k <= |t|
      ensures Like(PrefixPattern(s), t[k..]) <==> s <= t[k..]
    {
      PrefixPatternExact(s, t[k..]);
    }
  }

  // --- ILIKE: both sides pass through a case fold first ---

  function Fold(fold: char -> char, s: string): string {
    seq(|s|, i requires 0 <= i < |s| => fold(s[i]))
  }

  /** The fold keeps the three metacharacters and maps nothing else onto them. */
  ghost predicate KeepsMeta(fold: char -> char) {
    forall c :: (Meta(c) ==> fold(c) == c) && (Meta(fold(c)) ==> Meta(c))
  }

  predicate ILike(fold: char -> char, p: string, t: string) {
    Like(Fold(fold, p), Fold(fold, t))
  }

  lemma {:induction false} FoldEscaped(fold: char -> char, s: string)
    requires KeepsMeta(fold)
    ensures Fold(fold, EscapeLike(s)) == EscapeLike(Fold(fold, s))
  {
    if s == "" {
    } else {
      FoldEscaped(fold, s[1..]);
      assert Fold(fold, s)[1..] == Fold(fold, s[1..]);
      assert Meta(s[0]) <==> Meta(fold(s[0]));
      var head := if Meta(s[0]) then ['\\', s[0]] else [s[0]];
      assert Meta('\\') && fold('\\') == '\\';
      assert Fold(fold, head) == if Meta(fold(s[0])) then ['\\', fold(s[0])] else [fold(s[0])];
      assert Fold(fold, head + EscapeLike(s[1..])) == Fold(fold, head) + Fold(fold, EscapeLike(s[1..]));
    }
  }

  lemma ILikePatternsExact(fold: char -> char, s: string, t: string)
    requires KeepsMeta(fold)
    ensures ILike(fold, SubstringPattern(s), t) <==> HasSubstring(Fold(fold, t), Fold(fold, s))
    ensures ILike(fold, PrefixPattern(s), t) <==> Fold(fold, s) <= Fold(fold, t)
  {
    FoldEscaped(fold, s);
    assert Meta('%') && fold('%') == '%';
    assert Fold(fold, SubstringPattern(s)) == SubstringPattern(Fold(fold, s));
    assert Fold(fold, PrefixPattern(s)) == PrefixPattern(Fold(fold, s));
    SubstringPatternExact(Fold(fold, s), Fold(fold, t));
    PrefixPatternExact(Fold(fold, s), Fold(fold, t));
  }
}

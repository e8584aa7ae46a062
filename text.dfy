/**
 * The character-level string operations of Python that both the scraper and
 * the cleaning pipeline use: deleting every character of a class
 * (`str.replace(c, '')`, `str.translate` with a deletion table, a regex
 * substitution with the empty string) and replacing one character by another.
 */
module Text {

  /** `s` with every character satisfying `drop` removed, the rest kept in order. */
  function DeleteWhere(s: string, drop: char -> bool): (r: string)
    ensures |r| <= |s|
    ensures forall i :: 0 <= i < |r| ==> !drop(r[i]) && r[i] in s
  {
    if s == [] then []
    else if drop(s[0]) then DeleteWhere(s[1..], drop)
    else [s[0]] + DeleteWhere(s[1..], drop)
  }

  /** Every kept character occurs as often as before; every deleted one is gone. */
  lemma {:induction false} DeleteWhereCounts(s: string, drop: char -> bool)
    ensures forall c :: !drop(c) ==> multiset(DeleteWhere(s, drop))[c] == multiset(s)[c]
    ensures forall c :: drop(c) ==> multiset(DeleteWhere(s, drop))[c] == 0
  {
    if s != [] {
      DeleteWhereCounts(s[1..], drop);
      assert s == [s[0]] + s[1..];
    }
  }

  /** Deleting a class of characters that does not occur changes nothing. */
  lemma {:induction false} DeleteWhereAbsent(s: string, drop: char -> bool)
    requires forall i :: 0 <= i < |s| ==> !drop(s[i])
    ensures DeleteWhere(s, drop) == s
  {
    if s != [] {
      DeleteWhereAbsent(s[1..], drop);
    }
  }

  /** Deleting a class, then a wider class, is deleting the wider class. */
  lemma {:induction false} DeleteWhereAbsorbed(s: string, narrow: char -> bool, wide: char -> bool)
    requires forall c :: narrow(c) ==> wide(c)
    ensures DeleteWhere(DeleteWhere(s, narrow), wide) == DeleteWhere(s, wide)
  {
    if s != [] {
      DeleteWhereAbsorbed(s[1..], narrow, wide);
    }
  }

  /** Deleting one class and then another is deleting their union. */
  lemma {:induction false} DeleteWhereUnion(s: string, first: char -> bool, second: char -> bool, either: char -> bool)
    requires forall c :: either(c) <==> first(c) || second(c)
    ensures DeleteWhere(DeleteWhere(s, first), second) == DeleteWhere(s, either)
  {
    if s != [] {
      DeleteWhereUnion(s[1..], first, second, either);
      if !first(s[0]) {
        var kept := DeleteWhere(s[1..], first);
        assert ([s[0]] + kept)[0] == s[0] && ([s[0]] + kept)[1..] == kept;
      }
    }
  }

  /** Deleting distributes over concatenation: the kept characters stay in their order. */
  lemma {:induction false} DeleteWhereAppend(a: string, b: string, drop: char -> bool)
    ensures DeleteWhere(a + b, drop) == DeleteWhere(a, drop) + DeleteWhere(b, drop)
  {
    if a == [] {
      assert a + b == b;
    } else {
      var ab := a + b;
      assert ab[0] == a[0] && ab[1..] == a[1..] + b;
      DeleteWhereAppend(a[1..], b, drop);
      var rest := DeleteWhere(ab[1..], drop);
      assert rest == DeleteWhere(a[1..], drop) + DeleteWhere(b, drop);
      if !drop(a[0]) {
        assert DeleteWhere(ab, drop) == [a[0]] + rest;
        assert DeleteWhere(a, drop) == [a[0]] + DeleteWhere(a[1..], drop);
      }
    }
  }

  /** Python `s.replace(a, b)` for single characters `a` and `b`. */
  function ReplaceChar(s: string, a: char, b: char): (r: string)
    ensures |r| == |s|
    ensures forall i :: 0 <= i < |s| ==> r[i] == (if s[i] == a then b else s[i])
  {
    if s == [] then []
    else [if s[0] == a then b else s[0]] + ReplaceChar(s[1..], a, b)
  }
}

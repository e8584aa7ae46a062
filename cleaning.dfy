/**
 * The text-cleaning pipeline that prepares article titles and bodies for
 * retrieval: delete `/`, delete ASCII punctuation, delete digit runs, replace
 * every run of two or more whitespace characters with one space, lowercase;
 * for bodies, additionally replace `"  "` by `" "` and turn an empty result
 * into the sentinel `"Empty"`.
 */
module Cleaning {
  import opened Text

  /** Python's `str.isspace` (the class matched by `\s` in a `str` pattern). */
  predicate IsSpace(c: char)
  {
    || '\t' <= c <= '\r' || '\U{1C}' <= c <= ' '
    || c == '\U{85}' || c == '\U{A0}' || c == '\U{1680}'
    || '\U{2000}' <= c <= '\U{200A}' || c == '\U{2028}' || c == '\U{2029}'
    || c == '\U{202F}' || c == '\U{205F}' || c == '\U{3000}'
  }

  /** The 32 characters of Python's `string.punctuation`. */
  predicate IsPunctuation(c: char)
  {
    '!' <= c <= '/' || ':' <= c <= '@' || '[' <= c <= '`' || '{' <= c <= '~'
  }

  predicate IsSlash(c: char) { c == '/' }

  /** Digits, as matched by `\d` (ASCII only in this model). */
  predicate IsDigit(c: char) { '0' <= c <= '9' }

  predicate IsUpper(c: char) { 'A' <= c <= 'Z' }

  predicate IsLowerLetter(c: char) { 'a' <= c <= 'z' }

  /** No two adjacent whitespace characters. */
  predicate NoDoubleSpace(s: string)
  {
    forall i :: 0 <= i < |s| - 1 ==> !(IsSpace(s[i]) && IsSpace(s[i + 1]))
  }

  /** What the five common cleaning steps guarantee of their output. */
  predicate IsClean(s: string)
  {
    && (forall i :: 0 <= i < |s| ==> !IsPunctuation(s[i]) && !IsDigit(s[i]) && !IsUpper(s[i]))
    && NoDoubleSpace(s)
  }

  /** The length of the whitespace run `s` starts with: the part one match of `\s{2,}` consumes. */
  function RunEnd(s: string): (j: nat)
    ensures j <= |s|
    ensures j == |s| || !IsSpace(s[j])
    ensures forall k :: 0 <= k < j ==> IsSpace(s[k])
  {
    if s != [] && IsSpace(s[0]) then 1 + RunEnd(s[1..]) else 0
  }

  /**
   * `re.sub(r"\s{2,}", " ", s)`: scanning left to right, a maximal run of at
   * least two whitespace characters becomes one space; a lone whitespace
   * character is kept as it is.
   */
  function CollapseSpaces(s: string): (r: string)
    ensures |r| <= |s|
    ensures NoDoubleSpace(r)
    ensures s != [] ==> r != [] && (IsSpace(r[0]) <==> IsSpace(s[0]))
    decreases |s|
  {
    if |s| < 2 then s
    else if IsSpace(s[0]) && IsSpace(s[1]) then " " + CollapseSpaces(s[RunEnd(s)..])
    else [s[0]] + CollapseSpaces(s[1..])
  }

  /**
   * Every character of the collapsed string is a space or a character of the
   * input, so any property of the input's characters that a space also has
   * holds of the output's.
   */
  lemma {:induction false} CollapseSpacesKeeps(s: string, p: char -> bool)
    requires p(' ')
    requires forall i :: 0 <= i < |s| ==> p(s[i])
    ensures forall i :: 0 <= i < |CollapseSpaces(s)| ==> p(CollapseSpaces(s)[i])
    decreases |s|
  {
    if |s| >= 2 {
      if IsSpace(s[0]) && IsSpace(s[1]) {
        var rest := s[RunEnd(s)..];
        assert forall i :: 0 <= i < |rest| ==> rest[i] == s[i + RunEnd(s)];
        CollapseSpacesKeeps(rest, p);
      } else {
        CollapseSpacesKeeps(s[1..], p);
      }
    }
  }

  /** A lone character, whitespace or not, is kept as it is. */
  lemma CollapseSpacesLone(c: char)
    ensures CollapseSpaces([c]) == [c]
  {
  }

  /** A run of two or more whitespace characters, of any kind, becomes the one character `' '`. */
  lemma CollapseSpacesRun(w: string)
    requires |w| >= 2
    requires forall i :: 0 <= i < |w| ==> IsSpace(w[i])
    ensures CollapseSpaces(w) == " "
  {
    assert RunEnd(w) == |w|;
    assert w[RunEnd(w)..] == [];
  }

  /** Appending a tail that does not extend the string's last whitespace run leaves the run where it was. */
  lemma {:induction false} RunEndAppend(a: string, b: string)
    requires RunEnd(a) < |a| || b == [] || !IsSpace(b[0])
    ensures RunEnd(a + b) == RunEnd(a)
  {
    if a == [] {
      assert a + b == b;
    } else {
      assert (a + b)[0] == a[0] && (a + b)[1..] == a[1..] + b;
      if IsSpace(a[0]) {
        RunEndAppend(a[1..], b);
      }
    }
  }

  /** The collapse of a string that starts with a whitespace run: one space, then the rest collapsed. */
  lemma CollapseRunStep(s: string)
    requires |s| >= 2 && IsSpace(s[0]) && IsSpace(s[1])
    ensures CollapseSpaces(s) == " " + CollapseSpaces(s[RunEnd(s)..])
  {
  }

  /** The collapse of a string that does not start with a run: its first character, then the rest collapsed. */
  lemma CollapseCharStep(s: string)
    requires |s| >= 2 && !(IsSpace(s[0]) && IsSpace(s[1]))
    ensures CollapseSpaces(s) == [s[0]] + CollapseSpaces(s[1..])
  {
  }

  /**
   * The collapse works piece by piece: two strings that do not meet in the
   * middle of a whitespace run collapse to the two collapses, one after the
   * other. With `CollapseSpacesLone` and `CollapseSpacesRun` this pins the
   * collapse down on every input.
   */
  lemma {:induction false} CollapseSpacesAppend(a: string, b: string)
    requires a == [] || b == [] || !IsSpace(a[|a| - 1]) || !IsSpace(b[0])
    ensures CollapseSpaces(a + b) == CollapseSpaces(a) + CollapseSpaces(b)
    decreases |a|
  {
    if a == [] {
      assert a + b == b;
    } else if b == [] {
      assert a + b == a;
    } else if |a| == 1 {
      LoneHeadAppend(a, b);
    } else {
      var head, rest;
      if IsSpace(a[0]) && IsSpace(a[1]) {
        head := " ";
        rest := RunSplit(a, b);
      } else {
        head := [a[0]];
        rest := CharSplit(a, b);
      }
      CollapseSpacesAppend(rest, b);
      HeadGlue(head, CollapseSpaces(a + b), CollapseSpaces(a), CollapseSpaces(rest), CollapseSpaces(b), CollapseSpaces(rest + b));
    }
  }

  /** Putting a common head back in front of a concatenation. */
  lemma HeadGlue(head: string, whole: string, left: string, leftTail: string, right: string, tails: string)
    requires whole == head + tails && left == head + leftTail && tails == leftTail + right
    ensures whole == left + right
  {
  }

  /** `CollapseSpacesAppend` for a single character followed by a tail that does not extend a run with it. */
  lemma LoneHeadAppend(a: string, b: string)
    requires |a| == 1 && b != [] && (!IsSpace(a[0]) || !IsSpace(b[0]))
    ensures CollapseSpaces(a + b) == CollapseSpaces(a) + CollapseSpaces(b)
  {
    assert (a + b)[0] == a[0] && (a + b)[1] == b[0] && (a + b)[1..] == b;
    CollapseCharStep(a + b);
  }

  /**
   * Splitting the first character off `a` when `a` does not start with a run,
   * with a tail `b` appended that does not extend a run ending `a`.
   */
  lemma CharSplit(a: string, b: string) returns (rest: string)
    requires |a| >= 2 && !(IsSpace(a[0]) && IsSpace(a[1]))
    requires b == [] || !IsSpace(a[|a| - 1]) || !IsSpace(b[0])
    ensures |rest| < |a|
    ensures rest == [] || b == [] || !IsSpace(rest[|rest| - 1]) || !IsSpace(b[0])
    ensures CollapseSpaces(a) == [a[0]] + CollapseSpaces(rest)
    ensures CollapseSpaces(a + b) == [a[0]] + CollapseSpaces(rest + b)
  {
    rest := a[1..];
    assert (a + b)[0] == a[0] && (a + b)[1] == a[1] && (a + b)[1..] == rest + b;
    assert rest[|rest| - 1] == a[|a| - 1];
    CollapseCharStep(a);
    CollapseCharStep(a + b);
  }

  /**
   * Splitting the leading run off `a`, with a tail `b` appended that does not
   * extend a run ending `a`: both collapses start with one space followed by
   * the collapse of what comes after the run.
   */
  lemma RunSplit(a: string, b: string) returns (rest: string)
    requires |a| >= 2 && IsSpace(a[0]) && IsSpace(a[1])
    requires b == [] || !IsSpace(a[|a| - 1]) || !IsSpace(b[0])
    ensures |rest| < |a|
    ensures rest == [] || b == [] || !IsSpace(rest[|rest| - 1]) || !IsSpace(b[0])
    ensures CollapseSpaces(a) == " " + CollapseSpaces(rest)
    ensures CollapseSpaces(a + b) == " " + CollapseSpaces(rest + b)
  {
    rest := RunRest(a, b);
    assert (a + b)[0] == a[0] && (a + b)[1] == a[1];
    CollapseRunStep(a);
    CollapseRunStep(a + b);
  }

  /** What follows the leading run of `a`, alone and with the tail `b` after it. */
  lemma RunRest(a: string, b: string) returns (rest: string)
    requires |a| >= 2 && IsSpace(a[0]) && IsSpace(a[1])
    requires b == [] || !IsSpace(a[|a| - 1]) || !IsSpace(b[0])
    ensures rest == a[RunEnd(a)..] && |rest| < |a|
    ensures (a + b)[RunEnd(a + b)..] == rest + b
    ensures rest == [] || b == [] || !IsSpace(rest[|rest| - 1]) || !IsSpace(b[0])
  {
    RunEndAppend(a, b);
    rest := a[RunEnd(a)..];
    assert rest != [] ==> rest[|rest| - 1] == a[|a| - 1];
    assert (a + b)[RunEnd(a)..] == rest + b;
  }

  /** A string with no double whitespace is a fixpoint of the collapse. */
  lemma {:induction false} CollapseSpacesFixpoint(s: string)
    requires NoDoubleSpace(s)
    ensures CollapseSpaces(s) == s
  {
    if |s| >= 2 {
      CollapseSpacesFixpoint(s[1..]);
    }
  }

  /** The non-whitespace characters of `s`, in order. */
  function Words(s: string): string
  {
    DeleteWhere(s, IsSpace)
  }

  lemma {:induction false} WordsAfterRun(s: string)
    ensures Words(s[RunEnd(s)..]) == Words(s)
  {
    if s != [] && IsSpace(s[0]) {
      WordsAfterRun(s[1..]);
      assert s[1..][RunEnd(s[1..])..] == s[RunEnd(s)..];
    }
  }

  /** The collapse only touches whitespace: every other character survives, in order. */
  lemma {:induction false} CollapseSpacesKeepsWords(s: string)
    ensures Words(CollapseSpaces(s)) == Words(s)
    decreases |s|
  {
    if |s| >= 2 {
      if IsSpace(s[0]) && IsSpace(s[1]) {
        var rest := s[RunEnd(s)..];
        CollapseSpacesKeepsWords(rest);
        WordsAfterRun(s);
        assert CollapseSpaces(s) == [' '] + CollapseSpaces(rest);
      } else {
        CollapseSpacesKeepsWords(s[1..]);
        assert CollapseSpaces(s) == [s[0]] + CollapseSpaces(s[1..]);
        assert s == [s[0]] + s[1..];
      }
    }
  }

  /** ASCII `str.lower` on one character. */
  function LowerChar(c: char): (d: char)
    ensures IsUpper(c) ==> IsLowerLetter(d) && d as int == c as int + 32
    ensures !IsUpper(c) ==> d == c
  {
    if IsUpper(c) then (c as int + 32) as char else c
  }

  /** `str.lower`, ASCII letters only. */
  function Lower(s: string): (r: string)
    ensures |r| == |s|
    ensures forall i :: 0 <= i < |r| ==> !IsUpper(r[i])
    ensures forall i :: 0 <= i < |r| ==> r[i] == LowerChar(s[i])
  {
    if s == [] then [] else [LowerChar(s[0])] + Lower(s[1..])
  }

  lemma {:induction false} LowerAbsent(s: string)
    requires forall i :: 0 <= i < |s| ==> !IsUpper(s[i])
    ensures Lower(s) == s
  {
    if s != [] {
      LowerAbsent(s[1..]);
    }
  }

  /** Lowercasing a string that starts with `c` starts with `c` lowercased. */
  lemma LowerCons(c: char, s: string)
    ensures Lower([c] + s) == [LowerChar(c)] + Lower(s)
  {
    assert ([c] + s)[1..] == s;
  }

  /** Lowercasing keeps whitespace whitespace and everything else not whitespace. */
  lemma LowerCharSpace(c: char)
    ensures IsSpace(LowerChar(c)) == IsSpace(c)
  {
    if IsUpper(c) {
      LetterIsPlain(c);
      LetterIsPlain(LowerChar(c));
    }
  }

  /** Lowercasing keeps the leading whitespace run and commutes with dropping it. */
  lemma {:induction false} LowerRunEnd(s: string)
    ensures RunEnd(Lower(s)) == RunEnd(s)
    ensures Lower(s)[RunEnd(s)..] == Lower(s[RunEnd(s)..])
  {
    if s != [] {
      LowerCharSpace(s[0]);
      LowerRunEnd(s[1..]);
      assert Lower(s)[1..] == Lower(s[1..]);
      if IsSpace(s[0]) {
        assert s[1..][RunEnd(s[1..])..] == s[RunEnd(s)..];
        assert Lower(s)[1..][RunEnd(s[1..])..] == Lower(s)[RunEnd(s)..];
      }
    }
  }

  /**
   * An independent reading of whitespace: every maximal whitespace run,
   * a lone whitespace character included, becomes one `' '`.
   */
  function Squash(s: string): (r: string)
    ensures |r| <= |s|
    decreases |s|
  {
    if s == [] then []
    else if IsSpace(s[0]) then " " + Squash(s[RunEnd(s)..])
    else [s[0]] + Squash(s[1..])
  }

  /** A one-character whitespace run: the character is followed by nothing or by a non-whitespace character. */
  lemma LoneSpaceRun(c: char, s: string)
    requires IsSpace(c)
    requires s != [] ==> !IsSpace(s[0])
    ensures RunEnd([c] + s) == 1
  {
    assert ([c] + s)[1..] == s;
  }

  /** A lone whitespace character squashes to one space, like a longer run. */
  lemma SquashLoneSpace(c: char, s: string)
    requires IsSpace(c)
    requires s != [] ==> !IsSpace(s[0])
    ensures Squash([c] + s) == " " + Squash(s)
  {
    LoneSpaceRun(c, s);
    assert ([c] + s)[1..] == s;
  }

  /**
   * The collapse keeps every word and every gap between words: read with
   * each whitespace run as one space, its output is its input.
   */
  lemma {:induction false} SquashCollapseSpaces(s: string)
    ensures Squash(CollapseSpaces(s)) == Squash(s)
    decreases |s|
  {
    if |s| >= 2 {
      if IsSpace(s[0]) && IsSpace(s[1]) {
        var rest := s[RunEnd(s)..];
        SquashCollapseSpaces(rest);
        SquashLoneSpace(' ', CollapseSpaces(rest));
      } else if IsSpace(s[0]) {
        SquashCollapseSpaces(s[1..]);
        SquashLoneSpace(s[0], CollapseSpaces(s[1..]));
        SquashLoneSpace(s[0], s[1..]);
        assert s == [s[0]] + s[1..];
      } else {
        SquashCollapseSpaces(s[1..]);
        var t := [s[0]] + CollapseSpaces(s[1..]);
        assert t[0] == s[0] && t[1..] == CollapseSpaces(s[1..]);
      }
    }
  }

  /** Lowercasing commutes with squashing whitespace. */
  lemma {:induction false} SquashLower(s: string)
    ensures Squash(Lower(s)) == Lower(Squash(s))
    decreases |s|
  {
    if s != [] {
      LowerCharSpace(s[0]);
      if IsSpace(s[0]) {
        var rest := s[RunEnd(s)..];
        LowerRunEnd(s);
        SquashLower(rest);
        LowerCons(' ', Squash(rest));
      } else {
        SquashLower(s[1..]);
        assert Lower(s)[1..] == Lower(s[1..]);
        LowerCons(s[0], Squash(s[1..]));
      }
    }
  }

  /** The characters the cleaning deletes outright: punctuation (`/` included) and digits. */
  predicate IsStripped(c: char) { IsPunctuation(c) || IsDigit(c) }

  /**
   * The five steps applied to both titles and bodies, in their order:
   * delete `/`, delete punctuation, delete digit runs, collapse whitespace runs,
   * lowercase. Deleting every digit run deletes exactly the digits.
   */
  function CleanText(s: string): (r: string)
    ensures IsClean(r)
  {
    var noSlash := DeleteWhere(s, IsSlash);
    var noPunct := DeleteWhere(noSlash, IsPunctuation);
    var noDigit := DeleteWhere(noPunct, IsDigit);
    var collapsed := CollapseSpaces(noDigit);
    CollapsedIsClean(noPunct, noDigit, collapsed);
    LowerKeepsClean(collapsed);
    Lower(collapsed)
  }

  lemma CollapsedIsClean(noPunct: string, noDigit: string, collapsed: string)
    requires forall i :: 0 <= i < |noPunct| ==> !IsPunctuation(noPunct[i])
    requires forall i :: 0 <= i < |noDigit| ==> !IsDigit(noDigit[i]) && noDigit[i] in noPunct
    requires collapsed == CollapseSpaces(noDigit)
    ensures forall i :: 0 <= i < |collapsed| ==> !IsPunctuation(collapsed[i]) && !IsDigit(collapsed[i])
    ensures NoDoubleSpace(collapsed)
  {
    var plain := c => !IsPunctuation(c) && !IsDigit(c);
    forall i | 0 <= i < |noDigit| ensures plain(noDigit[i]) {
      var j :| 0 <= j < |noPunct| && noPunct[j] == noDigit[i];
    }
    CollapseSpacesKeeps(noDigit, plain);
  }

  /** A letter is neither whitespace, punctuation nor a digit. */
  lemma LetterIsPlain(c: char)
    requires IsUpper(c) || IsLowerLetter(c)
    ensures !IsSpace(c) && !IsPunctuation(c) && !IsDigit(c)
  {
  }

  /** Lowercasing only produces letters, so it keeps a string clean. */
  lemma LowerKeepsClean(t: string)
    requires forall i :: 0 <= i < |t| ==> !IsPunctuation(t[i]) && !IsDigit(t[i])
    requires NoDoubleSpace(t)
    ensures IsClean(Lower(t))
  {
    var r := Lower(t);
    forall i | 0 <= i < |r|
      ensures IsSpace(r[i]) == IsSpace(t[i]) && !IsPunctuation(r[i]) && !IsDigit(r[i])
    {
      if r[i] != t[i] {
        LetterIsPlain(r[i]);
        LetterIsPlain(t[i]);
      }
    }
  }

  /**
   * What cleaning keeps: read with each whitespace run as one space, the
   * cleaned text is the input without punctuation and digits, lowercased.
   * Every letter survives in order, and words stay apart.
   */
  lemma CleanTextContent(s: string)
    ensures Squash(CleanText(s)) == Lower(Squash(DeleteWhere(s, IsStripped)))
  {
    var stripped := DeleteWhere(s, IsStripped);
    SlashStepSubsumed(s);
    DeleteWhereUnion(s, IsPunctuation, IsDigit, IsStripped);
    SquashLower(CollapseSpaces(stripped));
    SquashCollapseSpaces(stripped);
  }

  /** Cleaning a clean string changes nothing. */
  lemma CleanTextFixpoint(s: string)
    requires IsClean(s)
    ensures CleanText(s) == s
  {
    DeleteWhereAbsent(s, IsSlash);
    DeleteWhereAbsent(s, IsPunctuation);
    DeleteWhereAbsent(s, IsDigit);
    CollapseSpacesFixpoint(s);
    LowerAbsent(s);
  }

  /** Cleaning is idempotent. */
  lemma CleanTextIdempotent(s: string)
    ensures CleanText(CleanText(s)) == CleanText(s)
  {
    CleanTextFixpoint(CleanText(s));
  }

  /** The first step is subsumed by the second: `/` is itself punctuation. */
  lemma SlashStepSubsumed(s: string)
    ensures DeleteWhere(DeleteWhere(s, IsSlash), IsPunctuation) == DeleteWhere(s, IsPunctuation)
  {
    DeleteWhereAbsorbed(s, IsSlash, IsPunctuation);
  }

  /** Python `s.replace('  ', ' ')`: non-overlapping double spaces, left to right. */
  function ReplaceDoubleSpace(s: string): (r: string)
    ensures |r| <= |s|
  {
    if |s| < 2 then s
    else if s[0] == ' ' && s[1] == ' ' then " " + ReplaceDoubleSpace(s[2..])
    else [s[0]] + ReplaceDoubleSpace(s[1..])
  }

  /** The body's extra `"  "` pass is a no-op after the whitespace collapse. */
  lemma {:induction false} ReplaceDoubleSpaceNoOp(s: string)
    requires NoDoubleSpace(s)
    ensures ReplaceDoubleSpace(s) == s
  {
    if |s| >= 2 {
      assert !(s[0] == ' ' && s[1] == ' ') by { assert !(IsSpace(s[0]) && IsSpace(s[1])); }
      ReplaceDoubleSpaceNoOp(s[1..]);
    }
  }

  const Sentinel: string := "Empty"

  /**
   * The `page_content` of an article: the cleaned body, after the extra
   * double-space pass, or `"Empty"` exactly when that is the empty string.
   */
  function CleanBody(body: string): (r: string)
    ensures r == Sentinel <==> CleanText(body) == ""
    ensures r != Sentinel ==> r == CleanText(body) && IsClean(r)
  {
    var cleaned := CleanText(body);
    ReplaceDoubleSpaceNoOp(cleaned);
    var passed := ReplaceDoubleSpace(cleaned);
    assert cleaned != Sentinel by { assert |cleaned| == 5 ==> IsUpper(Sentinel[0]); }
    if passed == "" then Sentinel else passed
  }

  /** Cleaning a page content again leaves it as it is, unless it is the sentinel. */
  lemma CleanBodyStable(body: string)
    requires CleanBody(body) != Sentinel
    ensures CleanBody(CleanBody(body)) == CleanBody(body)
  {
    CleanTextFixpoint(CleanBody(body));
  }

  /** A body that cleans to a single space is kept, not replaced by the sentinel. */
  lemma CleanedSpaceKept(body: string)
    requires CleanText(body) == " "
    ensures CleanBody(body) == " "
  {
  }

  /** A body made only of punctuation and digits cleans to nothing and becomes the sentinel. */
  lemma StrippedBodyIsEmpty(body: string)
    requires forall i :: 0 <= i < |body| ==> IsStripped(body[i])
    ensures CleanBody(body) == Sentinel
  {
    SlashStepSubsumed(body);
    DeleteWhereUnion(body, IsPunctuation, IsDigit, IsStripped);
  }

  /** Example: a tab and a newline clean to one space, which is kept. */
  lemma LoneSpaceBodyKept()
    ensures CleanBody("\t\n") == " "
  {
    var s := "\t\n";
    DeleteWhereAbsent(s, IsSlash);
    DeleteWhereAbsent(s, IsPunctuation);
    DeleteWhereAbsent(s, IsDigit);
    assert IsSpace(s[0]) && IsSpace(s[1]);
    assert RunEnd(s[1..]) == 1;
    assert CollapseSpaces(s) == " ";
    LowerAbsent(" ");
    assert CleanText(s) == " ";
  }

  /** Example: the body `"4.2"` becomes the sentinel. */
  lemma NumericBodyIsEmpty()
    ensures CleanBody("4.2") == Sentinel
  {
    var s := "4.2";
    DeleteWhereAbsent(s, IsSlash);
    assert DeleteWhere(s[2..], IsPunctuation) == "2";
    assert DeleteWhere(s[1..], IsPunctuation) == "2";
    assert DeleteWhere(s, IsPunctuation) == "42";
    var t := "42";
    assert DeleteWhere(t[1..], IsDigit) == "";
    assert DeleteWhere(t, IsDigit) == "";
    assert CleanText(s) == "";
  }
}

/** White space as the program's strings are trimmed of it. */
module Whitespace {

  predicate IsSpace(c: char) {
    || c == ' ' || '\t' <= c <= '\r' || c == '\U{00A0}' || c == '\U{1680}' || '\U{2000}' <= c <= '\U{200A}'
    || c == '\U{2028}' || c == '\U{2029}' || c == '\U{202F}' || c == '\U{205F}' || c == '\U{3000}' || c == '\U{FEFF}'
  }

  function Trim(s: string): string {
    if s == "" then ""
    else if IsSpace(s[0]) then Trim(s[1..])
    else if IsSpace(s[|s| - 1]) then Trim(s[..|s| - 1])
    else s
  }

  predicate IsBlank(s: string) {
    forall c <- s :: IsSpace(c)
  }

  /** Trimming takes white space off both ends and nothing else. */
  lemma {:induction false} TrimIsTheMiddle(s: string) returns (before: string, after: string)
    ensures s == before + Trim(s) + after && IsBlank(before) && IsBlank(after)
    ensures Trim(s) != "" ==> !IsSpace(Trim(s)[0]) && !IsSpace(Trim(s)[|Trim(s)| - 1])
  {
    before, after := "", "";
    if s != "" && IsSpace(s[0]) {
      assert s == [s[0]] + s[1..];
      before, after := TrimIsTheMiddle(s[1..]);
      before := OneMoreInFront(s[0], before, Trim(s), after);
    } else if s != "" && IsSpace(s[|s| - 1]) {
      assert s == s[..|s| - 1] + [s[|s| - 1]];
      before, after := TrimIsTheMiddle(s[..|s| - 1]);
      after := OneMoreBehind(s[|s| - 1], before, Trim(s), after);
    }
  }

  lemma OneMoreInFront(c: char, before: string, middle: string, after: string) returns (longer: string)
    requires IsSpace(c) && IsBlank(before)
    ensures [c] + (before + middle + after) == longer + middle + after && IsBlank(longer)
  {
    longer := [c] + before;
  }

  lemma OneMoreBehind(c: char, before: string, middle: string, after: string) returns (longer: string)
    requires IsSpace(c) && IsBlank(after)
    ensures (before + middle + after) + [c] == before + middle + longer && IsBlank(longer)
  {
    longer := after + [c];
    assert (before + middle + after) + [c] == before + middle + longer;
  }

  /** Trimming leaves nothing exactly of a blank string. */
  lemma {:induction false} TrimmedAway(s: string)
    ensures Trim(s) == "" <==> IsBlank(s)
  {
    if s != "" {
      if IsSpace(s[0]) {
        assert s == [s[0]] + s[1..];
        TrimmedAway(s[1..]);
      } else if IsSpace(s[|s| - 1]) {
        assert s == s[..|s| - 1] + [s[|s| - 1]];
        TrimmedAway(s[..|s| - 1]);
      } else {
        assert s[0] in s;
      }
    }
  }

  predicate IsTight(s: string) {
    s != "" ==> !IsSpace(s[0]) && !IsSpace(s[|s| - 1])
  }

  lemma BlankTogether(a: string, b: string)
    requires IsBlank(a) && IsBlank(b)
    ensures IsBlank(a + b)
  {
  }

  /** Something tight starts where the white space before it ends. */
  lemma StartsFirst(before: string, middle: string, after: string, k: nat)
    requires IsBlank(before) && IsTight(middle) && middle != "" && k < |before + middle + after|
    requires !IsSpace((before + middle + after)[k])
    ensures |before| <= k && !IsSpace((before + middle + after)[|before|])
  {
    var text := before + middle + after;
    assert text[|before|] == middle[0];
  }

  lemma EndsLast(before: string, middle: string, after: string, k: nat)
    requires IsBlank(after) && IsTight(middle) && middle != "" && k < |before + middle + after|
    requires !IsSpace((before + middle + after)[k])
    ensures k < |before| + |middle| && !IsSpace((before + middle + after)[|before| + |middle| - 1])
  {
    var text := before + middle + after;
    assert text[|before| + |middle| - 1] == middle[|middle| - 1];
  }

  /** A text has one tight middle between white space. */
  lemma OneMiddle(b: string, m: string, a: string, b': string, m': string, a': string)
    requires b + m + a == b' + m' + a' && IsBlank(b) && IsBlank(a) && IsBlank(b') && IsBlank(a')
    requires IsTight(m) && IsTight(m') && m != "" && m' != ""
    ensures m == m'
  {
    var text := b + m + a;
    assert text[|b|] == m[0] && text[|b'|] == m'[0];
    StartsFirst(b, m, a, |b'|);
    StartsFirst(b', m', a', |b|);
    assert text[|b| + |m| - 1] == m[|m| - 1] && text[|b'| + |m'| - 1] == m'[|m'| - 1];
    EndsLast(b, m, a, |b'| + |m'| - 1);
    EndsLast(b', m', a', |b| + |m| - 1);
    assert m == text[|b|..|b| + |m|];
  }

  lemma TrimDivides(s: string) returns (before: string, middle: string, after: string)
    ensures middle == Trim(s) && s == before + middle + after && IsBlank(before) && IsBlank(after) && IsTight(middle)
    ensures middle == "" <==> IsBlank(s)
  {
    before, after := TrimIsTheMiddle(s);
    middle := Trim(s);
    TrimmedAway(s);
  }

  /** What is tight between white space is what trimming leaves. */
  lemma TrimFinds(before: string, middle: string, after: string)
    requires IsBlank(before) && IsBlank(after) && IsTight(middle)
    ensures Trim(before + middle + after) == middle
  {
    var text := before + middle + after;
    var b, m, a := TrimDivides(text);
    if middle == "" {
      BlankTogether(before, after);
      assert text == before + after;
    } else {
      assert text[|before|] == middle[0] && text[|before|] in text;
      OneMiddle(before, middle, after, b, m, a);
    }
  }

  /** White space at either end makes no difference to what is left. */
  lemma TrimPads(before: string, s: string, after: string)
    requires IsBlank(before) && IsBlank(after)
    ensures Trim(before + s + after) == Trim(s)
  {
    var b, m, a := TrimDivides(s);
    BlankTogether(before, b);
    BlankTogether(a, after);
    TrimFinds(before + b, m, a + after);
    assert before + s + after == (before + b) + m + (a + after);
  }
}

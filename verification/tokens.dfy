/**
 * Whitespace splitting as Python's `str.split()` with no separator does it: runs of
 * whitespace separate tokens, leading and trailing whitespace is dropped, and no token
 * is empty. The PUT handler reads its state from the last token of this split.
 */
module Tokens {

  /** The characters `str.split()` treats as whitespace (those for which `str.isspace()` holds). */
  predicate IsSpace(c: char) {
    ('\t' <= c <= '\r') || ('\U{1C}' <= c <= ' ') || c == '\U{85}' || c == '\U{A0}'
    || c == '\U{1680}' || ('\U{2000}' <= c <= '\U{200A}') || c == '\U{2028}' || c == '\U{2029}'
    || c == '\U{202F}' || c == '\U{205F}' || c == '\U{3000}'
  }

  predicate AllSpace(s: string) {
    forall i :: 0 <= i < |s| ==> IsSpace(s[i])
  }

  /** A token: non-empty and free of whitespace. */
  predicate IsWord(t: string) {
    |t| > 0 && forall i :: 0 <= i < |t| ==> !IsSpace(t[i])
  }

  /** The length of the longest whitespace-free prefix of `s`. */
  function WordLength(s: string): (k: nat)
    ensures k <= |s|
  {
    if s == [] || IsSpace(s[0]) then 0 else 1 + WordLength(s[1..])
  }

  /** `WordLength` stops exactly at the first whitespace character, or at the end. */
  lemma {:induction false} WordLengthStops(s: string)
    ensures forall i :: 0 <= i < WordLength(s) ==> !IsSpace(s[i])
    ensures WordLength(s) == |s| || IsSpace(s[WordLength(s)])
    decreases |s|
  {
    if s != [] && !IsSpace(s[0]) {
      WordLengthStops(s[1..]);
      assert forall i :: 1 <= i < |s| ==> s[i] == s[1..][i - 1];
    }
  }

  /** `s.split()`: the whitespace-free runs of `s`, in order. */
  function Split(s: string): seq<string>
    decreases |s|
  {
    if s == [] then []
    else if IsSpace(s[0]) then Split(s[1..])
    else
      var k := WordLength(s);
      [s[..k]] + Split(s[k..])
  }

  /** Every piece of a split is a token, and there are none exactly when `s` is all whitespace. */
  lemma {:induction false} SplitWords(s: string)
    ensures forall i :: 0 <= i < |Split(s)| ==> IsWord(Split(s)[i])
    ensures Split(s) == [] <==> AllSpace(s)
    decreases |s|
  {
    if s == [] {
    } else if IsSpace(s[0]) {
      SplitWords(s[1..]);
      assert forall i :: 1 <= i < |s| ==> s[1..][i - 1] == s[i];
    } else {
      var k := WordLength(s);
      WordLengthStops(s);
      SplitWords(s[k..]);
    }
  }

  /** Tokens joined by single spaces, the inverse partner of `Split`. */
  function Join(ts: seq<string>): string {
    if ts == [] then ""
    else if |ts| == 1 then ts[0]
    else ts[0] + " " + Join(ts[1..])
  }

  lemma {:induction false} WordLengthAppend(a: string, b: string)
    requires WordLength(a) < |a| || b == [] || IsSpace(b[0])
    ensures WordLength(a + b) == WordLength(a)
    decreases |a|
  {
    if a != [] && !IsSpace(a[0]) {
      assert (a + b)[1..] == a[1..] + b;
      WordLengthAppend(a[1..], b);
    }
  }

  lemma AppendAssoc<T>(x: seq<T>, y: seq<T>, z: seq<T>)
    ensures x + (y + z) == (x + y) + z
  {
  }

  /** The boundary condition under which splitting distributes over `a + b`. */
  predicate SpaceBoundary(a: string, b: string) {
    a == [] || b == [] || IsSpace(a[|a| - 1]) || IsSpace(b[0])
  }

  lemma SplitAppendSpaceStep(a: string, b: string)
    requires a != [] && IsSpace(a[0])
    requires Split(a[1..] + b) == Split(a[1..]) + Split(b)
    ensures Split(a + b) == Split(a) + Split(b)
  {
    assert (a + b)[1..] == a[1..] + b;
  }

  lemma SplitAppendWordStep(a: string, b: string)
    requires a != [] && !IsSpace(a[0]) && WordLength(a + b) == WordLength(a)
    requires Split(a[WordLength(a)..] + b) == Split(a[WordLength(a)..]) + Split(b)
    ensures Split(a + b) == Split(a) + Split(b)
  {
    var k := WordLength(a);
    calc {
      Split(a + b);
    == { assert (a + b)[..k] == a[..k]; assert (a + b)[k..] == a[k..] + b; }
      [a[..k]] + Split(a[k..] + b);
    ==
      [a[..k]] + (Split(a[k..]) + Split(b));
    == { AppendAssoc([a[..k]], Split(a[k..]), Split(b)); }
      ([a[..k]] + Split(a[k..])) + Split(b);
    ==
      Split(a) + Split(b);
    }
  }

  /** Splitting distributes over concatenation at a whitespace boundary. */
  lemma {:induction false} SplitAppend(a: string, b: string)
    requires SpaceBoundary(a, b)
    ensures Split(a + b) == Split(a) + Split(b)
    decreases |a|
  {
    if a == [] {
      assert a + b == b;
    } else if IsSpace(a[0]) {
      var a' := a[1..];
      assert a' == [] || a'[|a'| - 1] == a[|a| - 1];
      SplitAppend(a', b);
      SplitAppendSpaceStep(a, b);
    } else {
      WordLengthStops(a);
      WordLengthAppend(a, b);
      var a' := a[WordLength(a)..];
      assert a' == [] || a'[|a'| - 1] == a[|a| - 1];
      SplitAppend(a', b);
      SplitAppendWordStep(a, b);
    }
  }

  lemma SplitWord(t: string)
    requires IsWord(t)
    ensures Split(t) == [t]
  {
    WordLengthStops(t);
    assert t[..|t|] == t;
    SplitWords(t[|t|..]);
  }

  /** Splitting undoes joining with single spaces. */
  lemma {:induction false} SplitJoin(ts: seq<string>)
    requires forall i :: 0 <= i < |ts| ==> IsWord(ts[i])
    ensures Split(Join(ts)) == ts
  {
    if |ts| == 1 {
      SplitWord(ts[0]);
    } else if |ts| > 1 {
      SplitJoin(ts[1..]);
      SplitWord(ts[0]);
      SplitAppend(ts[0] + " ", Join(ts[1..]));
      SplitAppend(ts[0], " ");
      assert ts[0] + " " + Join(ts[1..]) == (ts[0] + " ") + Join(ts[1..]);
      assert [ts[0]] + ts[1..] == ts;
    }
  }

  /**
   * Whatever precedes it, a token that follows whitespace and is followed only by
   * whitespace is the last piece of the split.
   */
  lemma LastToken(head: string, sep: string, t: string, tail: string)
    requires |sep| > 0 && AllSpace(sep) && IsWord(t) && AllSpace(tail)
    ensures var ts := Split(head + sep + t + tail); |ts| > 0 && ts[|ts| - 1] == t
  {
    var a := head + sep;
    assert IsSpace(a[|a| - 1]);
    assert head + sep + t + tail == a + (t + tail);
    SplitAppend(a, t + tail);
    SplitAppend(t, tail);
    SplitWord(t);
    SplitWords(tail);
  }
}

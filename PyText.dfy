/**
 * The ASCII slice of the Python string operations the element pipeline uses:
 * `str.isspace()`, `str.strip()`, `str.upper()` and `sep.join(parts)`.
 */
module PyText {

  /** Python's `str.isspace()` on ASCII: tab, line feed, vertical tab, form feed,
      carriage return, the separators 0x1C-0x1F, and space. */
  predicate IsSpace(c: char) {
    9 <= c as int <= 13 || 28 <= c as int <= 32
  }

  predicate AllSpace(s: string) {
    forall k :: 0 <= k < |s| ==> IsSpace(s[k])
  }

  /** Neither the first nor the last character is whitespace. */
  predicate IsStripped(s: string) {
    s == [] || (!IsSpace(s[0]) && !IsSpace(s[|s| - 1]))
  }

  /** What `s.strip()` promises: `r` is the slice of `s` left after cutting
      whitespace only off each end, and `r` has no whitespace left at either end. */
  ghost predicate StripsTo(s: string, r: string) {
    exists i, j :: 0 <= i <= j <= |s| && r == s[i..j] && AllSpace(s[..i]) && AllSpace(s[j..]) && IsStripped(r)
  }

  /** Drops leading whitespace. */
  function TrimStart(s: string): (r: string)
    ensures |r| <= |s| && r == s[|s| - |r|..]
    ensures AllSpace(s[..|s| - |r|])
    ensures r == [] || !IsSpace(r[0])
  {
    if s != [] && IsSpace(s[0]) then
      var r := TrimStart(s[1..]);
      assert s[..|s| - |r|] == [s[0]] + s[1..][..|s| - 1 - |r|];
      r
    else
      s
  }

  /** Drops trailing whitespace. */
  function TrimEnd(s: string): (r: string)
    ensures |r| <= |s| && r == s[..|r|]
    ensures AllSpace(s[|r|..])
    ensures r == [] || !IsSpace(r[|r| - 1])
  {
    if s != [] && IsSpace(s[|s| - 1]) then
      var r := TrimEnd(s[..|s| - 1]);
      assert s[|r|..] == s[..|s| - 1][|r|..] + [s[|s| - 1]];
      r
    else
      s
  }

  /** Python's `s.strip()` with no argument. */
  function Strip(s: string): (r: string)
    ensures StripsTo(s, r)
  {
    var t := TrimStart(s);
    var r := TrimEnd(t);
    TrimsCompose(s, t, r);
    r
  }

  /** Cutting whitespace off the front and then off the back of what is left
      is a strip. */
  lemma TrimsCompose(s: string, t: string, r: string)
    requires |t| <= |s| && t == s[|s| - |t|..] && AllSpace(s[..|s| - |t|])
    requires t == [] || !IsSpace(t[0])
    requires |r| <= |t| && r == t[..|r|] && AllSpace(t[|r|..])
    requires r == [] || !IsSpace(r[|r| - 1])
    ensures StripsTo(s, r)
  {
    var i := |s| - |t|;
    var j := i + |r|;
    assert r == s[i..j];
    assert s[j..] == t[|r|..];
    if r != [] {
      assert r[0] == t[0];
    }
    SpaceOutside(s, i, j);
    StripsToIntro(s, r, i, j);
  }

  /** `strip()` is determined by what it promises: no two results fit. */
  lemma StripsToUnique(s: string, r1: string, r2: string)
    requires StripsTo(s, r1) && StripsTo(s, r2)
    ensures r1 == r2
  {
    var i1, j1 := StripBounds(s, r1);
    var i2, j2 := StripBounds(s, r2);
    if r1 == [] {
      assert forall k :: 0 <= k < |s| ==> IsSpace(s[k]);
    } else {
      assert i1 == i2 && j1 == j2;
    }
  }

  /** The cut points behind `StripsTo(s, r)`: when `r` is not empty they are the
      first and one past the last non-whitespace positions of `s`. */
  lemma StripBounds(s: string, r: string) returns (i: int, j: int)
    requires StripsTo(s, r)
    ensures 0 <= i <= j <= |s| && r == s[i..j]
    ensures forall k :: 0 <= k < i ==> IsSpace(s[k])
    ensures forall k :: j <= k < |s| ==> IsSpace(s[k])
    ensures r == [] ==> i == j
    ensures r != [] ==> i < j && !IsSpace(s[i]) && !IsSpace(s[j - 1])
  {
    i, j :| 0 <= i <= j <= |s| && r == s[i..j] && AllSpace(s[..i]) && AllSpace(s[j..]) && IsStripped(r);
    SpaceOutside(s, i, j);
    StrippedEnds(s, r, i, j);
  }

  lemma StrippedEnds(s: string, r: string, i: int, j: int)
    requires 0 <= i <= j <= |s| && r == s[i..j] && IsStripped(r)
    ensures r == [] ==> i == j
    ensures r != [] ==> i < j && !IsSpace(s[i]) && !IsSpace(s[j - 1])
  {
    if r != [] {
      assert s[i] == r[0] && s[j - 1] == r[|r| - 1];
    }
  }

  lemma SpaceOutside(s: string, i: int, j: int)
    requires 0 <= i <= j <= |s| && AllSpace(s[..i]) && AllSpace(s[j..])
    ensures forall k :: 0 <= k < i ==> IsSpace(s[k])
    ensures forall k :: j <= k < |s| ==> IsSpace(s[k])
  {
    forall k | 0 <= k < i ensures IsSpace(s[k]) { assert s[..i][k] == s[k]; }
    forall k | j <= k < |s| ensures IsSpace(s[k]) { assert s[j..][k - j] == s[k]; }
  }

  /** A string with no whitespace at its ends is its own `strip()`; so `strip()` is idempotent. */
  lemma StripOfStripped(s: string)
    requires IsStripped(s)
    ensures Strip(s) == s
  {
    assert s == s[0..|s|];
    StripsToIntro(s, s, 0, |s|);
    StripsToUnique(s, Strip(s), s);
  }

  lemma StripIdempotent(s: string)
    ensures Strip(Strip(s)) == Strip(s)
  {
    StripStripped(s);
    StripOfStripped(Strip(s));
  }

  /** The result of `strip()` has no whitespace at either end. */
  lemma StripStripped(s: string)
    ensures IsStripped(Strip(s))
  {
    var r := Strip(s);
    var i, j :| 0 <= i <= j <= |s| && r == s[i..j] && AllSpace(s[..i]) && AllSpace(s[j..]) && IsStripped(r);
  }

  /** `strip()` never lengthens its input. */
  lemma StripShorter(s: string)
    ensures |Strip(s)| <= |s|
  {
    var i, j := StripBounds(s, Strip(s));
  }

  /** `strip()` yields the empty string exactly when the input is all whitespace. */
  lemma StripEmptyIff(s: string)
    ensures Strip(s) == [] <==> AllSpace(s)
  {
    var i, j := StripBounds(s, Strip(s));
  }

  /** Python's `str.upper()` on one ASCII character. */
  function UpperChar(c: char): char {
    if 'a' <= c <= 'z' then (c as int - 32) as char else c
  }

  /** Python's `s.upper()`, restricted to ASCII: exactly the letters a-z change. */
  function Upper(s: string): (r: string)
    ensures |r| == |s|
    ensures forall k :: 0 <= k < |s| ==> r[k] == UpperChar(s[k])
    ensures forall k :: 0 <= k < |r| ==> !('a' <= r[k] <= 'z')
  {
    if s == [] then [] else [UpperChar(s[0])] + Upper(s[1..])
  }

  /** `Upper` is determined by its character-wise contract. */
  lemma UpperOf(s: string, t: string)
    requires |s| == |t| && forall k :: 0 <= k < |s| ==> t[k] == UpperChar(s[k])
    ensures Upper(s) == t
  {
  }

  lemma UpperIdempotent(s: string)
    ensures Upper(Upper(s)) == Upper(s)
  {
  }

  /** Upper-casing maps whitespace to whitespace and nothing else to it, so a
      string without outer whitespace keeps that property. */
  lemma UpperKeepsStripped(s: string)
    requires IsStripped(s)
    ensures IsStripped(Upper(s))
  {
    if s != [] {
      var u := Upper(s);
      assert u[0] == UpperChar(s[0]);
      assert u[|u| - 1] == UpperChar(s[|s| - 1]);
    }
  }

  /** Two strings that differ only in the case of ASCII letters. */
  predicate EqualIgnoringCase(a: string, b: string) {
    |a| == |b| && forall k :: 0 <= k < |a| ==> UpperChar(a[k]) == UpperChar(b[k])
  }

  /** Upper-casing never creates or removes whitespace, so it commutes with `strip()`. */
  lemma StripUpperCommute(s: string)
    ensures Strip(Upper(s)) == Upper(Strip(s))
  {
    UpperKeepsStrip(s, Strip(s));
    StripsToUnique(Upper(s), Strip(Upper(s)), Upper(Strip(s)));
  }

  lemma UpperKeepsStrip(s: string, r: string)
    requires StripsTo(s, r)
    ensures StripsTo(Upper(s), Upper(r))
  {
    var i, j := StripBounds(s, r);
    var u := Upper(s);
    assert u[i..j] == Upper(r);
    StripsToIntro(u, Upper(r), i, j);
  }

  /** Position-wise facts that establish `StripsTo(s, r)`. */
  lemma StripsToIntro(s: string, r: string, i: int, j: int)
    requires 0 <= i <= j <= |s| && r == s[i..j]
    requires forall k :: 0 <= k < i ==> IsSpace(s[k])
    requires forall k :: j <= k < |s| ==> IsSpace(s[k])
    requires IsStripped(r)
    ensures StripsTo(s, r)
  {
    assert AllSpace(s[..i]) && AllSpace(s[j..]);
  }

  /** Total number of characters in `parts`. */
  function TotalLength(parts: seq<string>): nat {
    if parts == [] then 0 else |parts[0]| + TotalLength(parts[1..])
  }

  /** Python's `sep.join(parts)`: the parts in order with one `sep` between neighbours. */
  function Join(sep: string, parts: seq<string>): (r: string)
    ensures parts == [] ==> r == []
    ensures parts != [] ==> |r| == TotalLength(parts) + (|parts| - 1) * |sep|
    ensures parts != [] ==> r[..|parts[0]|] == parts[0]
  {
    if parts == [] then []
    else if |parts| == 1 then parts[0]
    else parts[0] + sep + Join(sep, parts[1..])
  }

  /** With a whitespace separator, the joined string is all whitespace exactly
      when every part is. */
  lemma {:induction false} JoinAllSpace(sep: string, parts: seq<string>)
    requires AllSpace(sep)
    ensures AllSpace(Join(sep, parts)) <==> forall p :: 0 <= p < |parts| ==> AllSpace(parts[p])
  {
    if |parts| > 1 {
      JoinAllSpace(sep, parts[1..]);
      var rest := Join(sep, parts[1..]);
      var r := Join(sep, parts);
      assert r == parts[0] + sep + rest;
      if AllSpace(r) {
        forall k | 0 <= k < |parts[0]| ensures IsSpace(parts[0][k]) { assert r[k] == parts[0][k]; }
        forall k | 0 <= k < |rest| ensures IsSpace(rest[k]) { assert r[|parts[0]| + |sep| + k] == rest[k]; }
        forall p | 0 <= p < |parts| ensures AllSpace(parts[p]) {
          if p > 0 { assert parts[p] == parts[1..][p - 1]; }
        }
      } else {
        var k :| 0 <= k < |r| && !IsSpace(r[k]);
        if k < |parts[0]| {
          assert r[k] == parts[0][k];
        } else if k >= |parts[0]| + |sep| {
          assert r[k] == rest[k - |parts[0]| - |sep|];
          assert !AllSpace(rest);
          var p :| 0 <= p < |parts[1..]| && !AllSpace(parts[1..][p]);
          assert parts[1..][p] == parts[p + 1];
        }
      }
    }
  }
}

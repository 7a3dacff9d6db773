/**
 The string primitives of Python that the client relies on, restricted to
 ASCII: character classes (`str.isalpha`, `str.isalnum`), `str.lower`,
 `str.rfind`, `in` on strings, `str.endswith` and `str.split` with an
 explicit one-character separator.
 */
module Text {

  import opened Errors

  predicate IsLetter(c: char) {
    ('A' <= c <= 'Z') || ('a' <= c <= 'z')
  }

  predicate IsDigit(c: char) {
    '0' <= c <= '9'
  }

  predicate IsAlnum(c: char) {
    IsLetter(c) || IsDigit(c)
  }

  predicate AllLetters(s: string) {
    forall i :: 0 <= i < |s| ==> IsLetter(s[i])
  }

  predicate AllDigits(s: string) {
    forall i :: 0 <= i < |s| ==> IsDigit(s[i])
  }

  function LowerChar(c: char): (r: char)
    ensures 'A' <= c <= 'Z' ==> IsLetter(r) && 'a' <= r <= 'z'
    ensures !('A' <= c <= 'Z') ==> r == c
  {
    if 'A' <= c <= 'Z' then (c as int - 'A' as int + 'a' as int) as char else c
  }

  /** `str.lower()` on ASCII text: every upper-case letter becomes lower case. */
  function Lower(s: string): (r: string)
    ensures |r| == |s|
    ensures forall i :: 0 <= i < |s| ==> r[i] == LowerChar(s[i])
    ensures forall i :: 0 <= i < |r| ==> !('A' <= r[i] <= 'Z')
  {
    if s == [] then [] else [LowerChar(s[0])] + Lower(s[1..])
  }

  /** `sub in s`: `sub` occurs in `s` at some position. */
  predicate Contains(s: string, sub: string)
    decreases |s|
  {
    sub <= s || (|s| > 0 && Contains(s[1..], sub))
  }

  /** `s.endswith(suffix)`. */
  predicate EndsWith(s: string, suffix: string) {
    |suffix| <= |s| && s[|s| - |suffix|..] == suffix
  }

  /** `s.rfind(c)`: the last position of `c`, or -1 when `c` does not occur. */
  function LastIndex(s: string, c: char): (i: int)
    ensures -1 <= i < |s|
    ensures i >= 0 ==> s[i] == c
    ensures i == -1 <==> c !in s
    ensures forall j :: i < j < |s| ==> s[j] != c
  {
    if |s| == 0 then -1
    else if s[|s| - 1] == c then |s| - 1
    else LastIndex(s[..|s| - 1], c)
  }

  /** The first position of `c` in `s`. */
  function FirstIndex(s: string, c: char): (i: nat)
    requires c in s
    ensures i < |s| && s[i] == c
    ensures c !in s[..i]
  {
    if s[0] == c then 0 else 1 + FirstIndex(s[1..], c)
  }

  /** `s.find(c)`: the first position of `c`, or -1 when `c` does not occur. */
  function Find(s: string, c: char): (i: int)
    ensures -1 <= i < |s|
    ensures i >= 0 ==> s[i] == c
    ensures forall j :: 0 <= j < |s| && (i < 0 || j < i) ==> s[j] != c
  {
    if |s| == 0 then -1
    else if s[0] == c then 0
    else
      var r := Find(s[1..], c);
      if r < 0 then -1 else r + 1
  }

  lemma FindIn(s: string, c: char)
    ensures Find(s, c) >= 0 <==> c in s
  {
  }

  /** `s.split(sep)` for a one-character separator: never an empty list. */
  function Split(s: string, sep: char): (parts: seq<string>)
    ensures |parts| >= 1
    decreases |s|
  {
    var i := Find(s, sep);
    if i < 0 then [s] else [s[..i]] + Split(s[i + 1..], sep)
  }

  /** `sep.join(parts)`. */
  function Join(parts: seq<string>, sep: char): string
    requires |parts| >= 1
  {
    if |parts| == 1 then parts[0] else parts[0] + [sep] + Join(parts[1..], sep)
  }

  /** `sep.join` of a list with at least two parts: the first part, the separator, then the rest joined. */
  lemma JoinCons(first: string, rest: seq<string>, sep: char)
    requires |rest| >= 1
    ensures Join([first] + rest, sep) == first + [sep] + Join(rest, sep)
  {
    assert ([first] + rest)[1..] == rest;
  }

  /** Splitting and joining again gives back the original text. */
  lemma {:induction false} JoinSplit(s: string, sep: char)
    ensures Join(Split(s, sep), sep) == s
    decreases |s|
  {
    var i := Find(s, sep);
    if i < 0 {
      assert Split(s, sep) == [s];
    } else {
      var tail := s[i + 1..];
      SplitAt(s, sep, i);
      JoinSplit(tail, sep);
      JoinCons(s[..i], Split(tail, sep), sep);
      assert s == s[..i] + [sep] + tail;
    }
  }

  /** `s` holds no `c`. */
  predicate Lacks(s: string, c: char) {
    forall j :: 0 <= j < |s| ==> s[j] != c
  }

  /** Splitting at the first separator, at position `k`. */
  lemma SplitAt(s: string, sep: char, k: nat)
    requires k < |s| && s[k] == sep && forall j :: 0 <= j < k ==> s[j] != sep
    ensures Split(s, sep) == [s[..k]] + Split(s[k + 1..], sep)
  {
    assert Find(s, sep) == k;
  }

  /** A text without separator splits into itself alone. */
  lemma SplitLacking(s: string, sep: char)
    requires Lacks(s, sep)
    ensures Split(s, sep) == [s]
  {
    assert Find(s, sep) < 0;
  }

  /** A first field without separator is split off whole. */
  lemma SplitCons(a: string, t: string, sep: char)
    requires Lacks(a, sep)
    ensures Split(a + [sep] + t, sep) == [a] + Split(t, sep)
  {
    var s := a + [sep] + t;
    assert forall j :: 0 <= j < |a| ==> s[j] == a[j];
    SplitAt(s, sep, |a|);
    assert s[..|a|] == a && s[|a| + 1..] == t;
  }

  /** Three separator-free fields joined by the separator split back into those fields. */
  lemma SplitThree(a: string, b: string, c: string, sep: char)
    requires Lacks(a, sep) && Lacks(b, sep) && Lacks(c, sep)
    ensures Split(a + [sep] + b + [sep] + c, sep) == [a, b, c]
  {
    var t := b + [sep] + c;
    assert a + [sep] + b + [sep] + c == a + [sep] + t;
    SplitLacking(c, sep);
    SplitCons(b, c, sep);
    assert Split(t, sep) == [b, c];
    SplitCons(a, t, sep);
    assert Split(a + [sep] + t, sep) == [a] + [b, c];
  }

  /** No field of a split holds the separator. */
  lemma {:induction false} SplitFieldsHaveNoSep(s: string, sep: char)
    ensures forall k :: 0 <= k < |Split(s, sep)| ==> sep !in Split(s, sep)[k]
    decreases |s|
  {
    var i := Find(s, sep);
    if i >= 0 {
      SplitFieldsHaveNoSep(s[i + 1..], sep);
      assert sep !in s[..i];
    }
  }

  /** The text before the first `sep`, i.e. `s.split(sep)[0]`. */
  function Before(s: string, sep: char): (r: string)
    ensures sep !in r
    ensures r <= s
    ensures r == s <==> sep !in s
  {
    if sep in s then s[..FirstIndex(s, sep)] else s
  }

  /** `s.split(sep)[1]`: present only when `sep` occurs in `s`. */
  function SecondField(s: string, sep: char): (r: Option<string>)
    ensures r.Some? <==> sep in s
    ensures r.Some? ==> sep !in r.value
  {
    FindIn(s, sep);
    SplitFieldsHaveNoSep(s, sep);
    var parts := Split(s, sep);
    if |parts| >= 2 then Some(parts[1]) else None
  }

  /** `s.split(sep)[-1]`: the last field. */
  function LastField(s: string, sep: char): string {
    var parts := Split(s, sep);
    parts[|parts| - 1]
  }

  /** `s.rfind(c)` is the only position of `c` with no `c` after it. */
  lemma LastIndexUnique(s: string, c: char, k: int)
    requires 0 <= k < |s| && s[k] == c
    requires forall j :: k < j < |s| ==> s[j] != c
    ensures LastIndex(s, c) == k
  {
  }

  /** The last field of a split is the text after the last separator. */
  lemma {:induction false} LastFieldAfterLastSep(s: string, sep: char)
    ensures LastField(s, sep) == s[LastIndex(s, sep) + 1..]
    decreases |s|
  {
    var i := Find(s, sep);
    if i >= 0 {
      var t := s[i + 1..];
      assert LastField(s, sep) == LastField(t, sep);
      LastFieldAfterLastSep(t, sep);
      LastIndexAfter(s, sep, i);
    } else {
      assert sep !in s;
    }
  }

  /** Past a separator at `i`, the last separator is found in the rest of the text, if there is one. */
  lemma LastIndexAfter(s: string, sep: char, i: nat)
    requires i < |s| && s[i] == sep
    ensures var j := LastIndex(s[i + 1..], sep);
            LastIndex(s, sep) == i + 1 + j && s[LastIndex(s, sep) + 1..] == s[i + 1..][j + 1..]
  {
    var t := s[i + 1..];
    var j := LastIndex(t, sep);
    forall k | i + 1 + j < k < |s|
      ensures s[k] != sep
    {
      assert s[k] == t[k - i - 1];
    }
    if j >= 0 {
      assert s[i + 1 + j] == t[j];
      LastIndexUnique(s, sep, i + 1 + j);
    } else {
      LastIndexUnique(s, sep, i);
    }
  }

  /** The value of a run of decimal digits. */
  function DigitsValue(s: string): (n: nat)
    requires AllDigits(s)
    ensures |s| == 0 ==> n == 0
  {
    if |s| == 0 then 0 else DigitsValue(s[..|s| - 1]) * 10 + (s[|s| - 1] as int - '0' as int)
  }
}

/** The parts of Python's `str` that the backend relies on: `isspace`,
    `strip()`, `split(sep)` and `sep.join(parts)`. */
module PyStr {

  /** Python's `str.isspace` for one character: the Unicode whitespace
      characters (the C0 separators 0x1C-0x1F included). */
  predicate IsSpace(c: char) {
    || c == ' '
    || '\U{0009}' <= c <= '\U{000D}'
    || '\U{001C}' <= c <= '\U{001F}'
    || c == '\U{0085}' || c == '\U{00A0}' || c == '\U{1680}'
    || '\U{2000}' <= c <= '\U{200A}'
    || c == '\U{2028}' || c == '\U{2029}' || c == '\U{202F}'
    || c == '\U{205F}' || c == '\U{3000}'
  }

  predicate AllSpace(s: string) {
    forall i :: 0 <= i < |s| ==> IsSpace(s[i])
  }

  /** Neither end of `s` is whitespace (vacuously true of ""). */
  predicate Trimmed(s: string) {
    s == [] || (!IsSpace(s[0]) && !IsSpace(s[|s| - 1]))
  }

  /** `s.lstrip()`: what is left is a suffix of `s`, everything cut off is
      whitespace, and what is left does not start with whitespace. */
  function TrimStart(s: string): (r: string)
    ensures |r| <= |s| && r == s[|s| - |r|..]
    ensures AllSpace(s[..|s| - |r|])
    ensures r == [] || !IsSpace(r[0])
    decreases |s|
  {
    if s != [] && IsSpace(s[0]) then
      var rest := s[1..];
      var r := TrimStart(rest);
      assert |rest| == |s| - 1;
      TrimStartStep(s, r);
      r
    else s
  }

  /** Cutting one more leading space keeps the contract of `TrimStart`. */
  lemma TrimStartStep(s: string, r: string)
    requires s != [] && IsSpace(s[0])
    requires |r| <= |s| - 1 && r == s[1..][|s| - 1 - |r|..]
    requires AllSpace(s[1..][..|s| - 1 - |r|])
    ensures r == s[|s| - |r|..] && AllSpace(s[..|s| - |r|])
  {
    var cut := s[1..][..|s| - 1 - |r|];
    assert s[..|s| - |r|] == [s[0]] + cut;
    assert s[|s| - |r|..] == s[1..][|s| - 1 - |r|..];
  }

  /** `s.rstrip()`: what is left is a prefix of `s`, everything cut off is
      whitespace, and what is left does not end with whitespace. */
  function TrimEnd(s: string): (r: string)
    ensures |r| <= |s| && r == s[..|r|]
    ensures AllSpace(s[|r|..])
    ensures r == [] || !IsSpace(r[|r| - 1])
    decreases |s|
  {
    if s != [] && IsSpace(s[|s| - 1]) then
      var r := TrimEnd(s[..|s| - 1]);
      TrimEndStep(s, r);
      r
    else s
  }

  /** Cutting one more trailing space keeps the contract of `TrimEnd`. */
  lemma TrimEndStep(s: string, r: string)
    requires s != [] && IsSpace(s[|s| - 1])
    requires |r| <= |s| - 1 && r == s[..|s| - 1][..|r|]
    requires AllSpace(s[..|s| - 1][|r|..])
    ensures r == s[..|r|] && AllSpace(s[|r|..])
  {
    var cut := s[..|s| - 1][|r|..];
    assert s[|r|..] == cut + [s[|s| - 1]];
    assert s[..|r|] == s[..|s| - 1][..|r|];
  }

  /** `s.strip()`: both ends trimmed, and the result is empty exactly when
      `s` is all whitespace. */
  function Strip(s: string): (r: string)
    ensures Trimmed(r)
    ensures |r| <= |s|
    ensures r == [] <==> AllSpace(s)
  {
    var t := TrimStart(s);
    var r := TrimEnd(t);
    assert r != [] ==> r[0] == t[0];
    BlankWhenTrimmedAway(s, t, r);
    r
  }

  /** The two trims leave nothing exactly when every character was
      whitespace. */
  lemma BlankWhenTrimmedAway(s: string, t: string, r: string)
    requires t == TrimStart(s) && r == TrimEnd(t)
    ensures r == [] <==> AllSpace(s)
  {
    if t == [] {
      assert s[..|s|] == s;
    } else {
      assert s[|s| - |t|] == t[0] && !IsSpace(t[0]);
    }
  }

  /** `Strip(s)` is the slice of `s` left when the whitespace at both ends
      is cut off: `s == lead + Strip(s) + trail` with `lead` and `trail`
      all whitespace. */
  lemma StripIsSlice(s: string) returns (i: nat, j: nat)
    ensures i <= j <= |s|
    ensures Strip(s) == s[i..j]
    ensures AllSpace(s[..i]) && AllSpace(s[j..])
  {
    i, j := TrimsAreSlice(s);
    assert Strip(s) == TrimEnd(TrimStart(s));
  }

  lemma TrimsAreSlice(s: string) returns (i: nat, j: nat)
    ensures i <= j <= |s|
    ensures TrimEnd(TrimStart(s)) == s[i..j]
    ensures AllSpace(s[..i]) && AllSpace(s[j..])
  {
    var t := TrimStart(s);
    var r := TrimEnd(t);
    i := |s| - |t|;
    j := i + |r|;
    SuffixSlices(s, i, |r|);
    assert t == s[i..];
    assert t[|r|..] == s[j..];
    assert r == s[i..j];
  }

  lemma SuffixSlices(s: string, i: nat, k: nat)
    requires i + k <= |s|
    ensures s[i..][..k] == s[i..i + k] && s[i..][k..] == s[i + k..]
  {
  }

  /** Stripping twice is stripping once. */
  lemma StripIdempotent(s: string)
    ensures Strip(Strip(s)) == Strip(s)
  {
    TrimmedIsFixed(Strip(s));
  }

  /** A string whose ends are not whitespace is left as it is by `strip()`. */
  lemma TrimmedIsFixed(s: string)
    requires Trimmed(s)
    ensures Strip(s) == s
  {
  }

  /** Stripping adds no character: one absent from `s` is absent from
      `Strip(s)`. */
  lemma StripAddsNothing(s: string, c: char)
    requires c !in s
    ensures c !in Strip(s)
  {
    var t := TrimStart(s);
    SliceKeepsOut(s, |s| - |t|, |s|, c);
    SliceKeepsOut(t, 0, |TrimEnd(t)|, c);
  }

  lemma SliceKeepsOut(s: string, i: nat, j: nat, c: char)
    requires i <= j <= |s| && c !in s
    ensures c !in s[i..j]
  {
    forall k | 0 <= k < j - i ensures s[i..j][k] != c {
      assert s[i..j][k] == s[i + k];
    }
  }

  /** Number of occurrences of `c` in `s`. */
  function Count(s: string, c: char): (n: nat) {
    if s == [] then 0 else (if s[0] == c then 1 else 0) + Count(s[1..], c)
  }

  lemma {:induction false} CountAppend(a: string, b: string, c: char)
    ensures Count(a + b, c) == Count(a, c) + Count(b, c)
    decreases |a|
  {
    if a != [] {
      assert (a + b)[1..] == a[1..] + b;
      CountAppend(a[1..], b, c);
    } else {
      assert a + b == b;
    }
  }

  lemma {:induction false} CountAbsent(s: string, c: char)
    requires c !in s
    ensures Count(s, c) == 0
    decreases |s|
  {
    if s != [] {
      assert c !in s[1..] by {
        forall k | 0 <= k < |s| - 1 ensures s[1..][k] != c {
          assert s[1..][k] == s[k + 1];
        }
      }
      CountAbsent(s[1..], c);
    }
  }

  /** The position of the first `c` in `s`, or `|s|` when there is none. */
  function FindIndex(s: string, c: char): (i: nat)
    ensures i <= |s|
    ensures i < |s| ==> s[i] == c
    decreases |s|
  {
    if s == [] || s[0] == c then 0 else FindIndex(s[1..], c) + 1
  }

  /** No character before `FindIndex(s, c)` is `c`: it is the first one. */
  lemma {:induction false} FindIndexFirst(s: string, c: char)
    ensures c !in s[..FindIndex(s, c)]
    decreases |s|
  {
    if s != [] && s[0] != c {
      FindIndexFirst(s[1..], c);
      assert s[..FindIndex(s, c)] == [s[0]] + s[1..][..FindIndex(s[1..], c)];
    }
  }

  /** `s.split(sep)` for a one-character separator: the text up to the
      first separator, then the split of the rest; one field when there is
      no separator. */
  function Split(s: string, sep: char): (r: seq<string>)
    ensures |r| >= 1
    decreases |s|
  {
    var i := FindIndex(s, sep);
    if i == |s| then [s] else [s[..i]] + Split(s[i + 1..], sep)
  }

  /** Text after the first separator does not move it. */
  lemma {:induction false} FindIndexAppend(a: string, b: string, sep: char)
    ensures FindIndex(a + [sep] + b, sep) == FindIndex(a, sep)
    decreases |a|
  {
    if a != [] && a[0] != sep {
      assert (a + [sep] + b)[1..] == a[1..] + [sep] + b;
      FindIndexAppend(a[1..], b, sep);
    }
  }

  /** A split has one more field than there are separators. */
  lemma {:induction false} SplitCount(s: string, sep: char)
    ensures |Split(s, sep)| == Count(s, sep) + 1
    decreases |s|
  {
    var i := FindIndex(s, sep);
    FindIndexFirst(s, sep);
    if i == |s| {
      assert s[..i] == s;
      CountAbsent(s, sep);
    } else {
      SplitCount(s[i + 1..], sep);
      assert s == s[..i] + ([sep] + s[i + 1..]);
      CountAppend(s[..i], [sep] + s[i + 1..], sep);
      CountAppend([sep], s[i + 1..], sep);
      CountAbsent(s[..i], sep);
    }
  }

  /** No field of a split holds the separator. */
  lemma {:induction false} SplitFieldsLackSeparator(s: string, sep: char)
    ensures forall k :: 0 <= k < |Split(s, sep)| ==> sep !in Split(s, sep)[k]
    decreases |s|
  {
    var i := FindIndex(s, sep);
    FindIndexFirst(s, sep);
    if i < |s| {
      SplitFieldsLackSeparator(s[i + 1..], sep);
    } else {
      assert s[..i] == s;
    }
  }

  /** `sep.join(parts)`. */
  function Join(parts: seq<string>, sep: string): (r: string) {
    if |parts| == 0 then ""
    else if |parts| == 1 then parts[0]
    else parts[0] + sep + Join(parts[1..], sep)
  }

  /** Adding a part at the end of a non-empty list adds the separator and
      the part at the end of the join. */
  lemma {:induction false} JoinAppend(parts: seq<string>, x: string, sep: string)
    requires parts != []
    ensures Join(parts + [x], sep) == Join(parts, sep) + sep + x
    decreases |parts|
  {
    if |parts| > 1 {
      assert (parts + [x])[1..] == parts[1..] + [x];
      JoinAppend(parts[1..], x, sep);
    }
  }

  /** Joining the fields of a split with the separator gives back the
      string that was split. */
  lemma {:induction false} JoinSplit(s: string, sep: char)
    ensures Join(Split(s, sep), [sep]) == s
    decreases |s|
  {
    var i := FindIndex(s, sep);
    if i < |s| {
      var rest := Split(s[i + 1..], sep);
      JoinSplit(s[i + 1..], sep);
      assert Split(s, sep) == [s[..i]] + rest;
      assert ([s[..i]] + rest)[1..] == rest;
      assert s == s[..i] + [sep] + s[i + 1..];
    }
  }

  /** Splitting at a separator splits the two sides independently. */
  lemma {:induction false} SplitAtSeparator(a: string, b: string, sep: char)
    ensures Split(a + [sep] + b, sep) == Split(a, sep) + Split(b, sep)
    decreases |a|
  {
    var s := a + [sep] + b;
    FindIndexAppend(a, b, sep);
    var i := FindIndex(a, sep);
    if i == |a| {
      assert s[..i] == a && s[i + 1..] == b;
      assert Split(s, sep) == [a] + Split(b, sep);
    } else {
      var a' := a[i + 1..];
      assert s[..i] == a[..i];
      assert s[i + 1..] == a' + [sep] + b;
      SplitAtSeparator(a', b, sep);
    }
  }

  /** A string without the separator is a single field. */
  lemma SplitWithoutSeparator(s: string, sep: char)
    requires sep !in s
    ensures Split(s, sep) == [s]
  {
    FindIndexFirst(s, sep);
    assert FindIndex(s, sep) == |s|;
  }

  /** A character other than the separator put in front of the text joins
      the first field. */
  lemma SplitPrepend(x: char, s: string, sep: char)
    requires x != sep
    ensures Split([x] + s, sep) == [[x] + Split(s, sep)[0]] + Split(s, sep)[1..]
  {
    var i := FindIndex(s, sep);
    assert ([x] + s)[1..] == s;
    assert FindIndex([x] + s, sep) == i + 1;
    if i < |s| {
      assert ([x] + s)[..i + 1] == [x] + s[..i];
      assert ([x] + s)[i + 2..] == s[i + 1..];
    }
  }

  /** Splitting the join of separator-free parts gives the parts back. */
  lemma {:induction false} SplitJoin(parts: seq<string>, sep: char)
    requires |parts| > 0
    requires forall k :: 0 <= k < |parts| ==> sep !in parts[k]
    ensures Split(Join(parts, [sep]), sep) == parts
    decreases |parts|
  {
    SplitWithoutSeparator(parts[0], sep);
    if |parts| > 1 {
      SplitJoin(parts[1..], sep);
      SplitAtSeparator(parts[0], Join(parts[1..], [sep]), sep);
    }
  }
}

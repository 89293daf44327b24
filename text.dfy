/** The Python string built-ins the title post-processing relies on:
    `str.isspace` on one character, `str.strip()` without arguments,
    `str.split(sep)` with a one-character separator, and its inverse
    `sep.join(parts)`. */
module Text {

  /** Python's `str.isspace` for a single character: the ASCII blanks
      (tab, line feed, vertical tab, form feed, carriage return, space),
      the four information separators 0x1C-0x1F, and the Unicode blanks. */
  predicate IsSpace(c: char) {
    || c == ' '
    || ('\t' <= c <= '\r')
    || ('\U{1C}' <= c <= '\U{1F}')
    || c == '\U{85}' || c == '\U{A0}' || c == '\U{1680}'
    || ('\U{2000}' <= c <= '\U{200A}')
    || c == '\U{2028}' || c == '\U{2029}' || c == '\U{202F}' || c == '\U{205F}'
    || c == '\U{3000}'
  }

  /** Every character of `s` is whitespace (the empty string included). */
  predicate AllSpace(s: string) {
    forall i :: 0 <= i < |s| ==> IsSpace(s[i])
  }

  /** `s` neither starts nor ends with whitespace, i.e. `s.strip() == s`. */
  predicate Stripped(s: string) {
    s == [] || (!IsSpace(s[0]) && !IsSpace(s[|s| - 1]))
  }

  /** `r` is `s` with some whitespace prefix and some whitespace suffix removed. */
  ghost predicate Trims(s: string, r: string) {
    exists i, j :: 0 <= i <= j <= |s| && r == s[i..j] && AllSpace(s[..i]) && AllSpace(s[j..])
  }

  /** Number of whitespace characters at the start of `s`. */
  function LeadingSpace(s: string): (n: nat)
    ensures n <= |s|
    ensures AllSpace(s[..n])
    ensures n < |s| ==> !IsSpace(s[n])
  {
    if s != [] && IsSpace(s[0]) then
      var m := LeadingSpace(s[1..]);
      assert s[..1 + m] == [s[0]] + s[1..][..m];
      1 + m
    else 0
  }

  /** Number of whitespace characters at the end of `s`. */
  function TrailingSpace(s: string): (n: nat)
    ensures n <= |s|
    ensures AllSpace(s[|s| - n..])
    ensures n < |s| ==> !IsSpace(s[|s| - 1 - n])
  {
    if s != [] && IsSpace(s[|s| - 1]) then
      var m := TrailingSpace(s[..|s| - 1]);
      assert s[|s| - (1 + m)..] == s[..|s| - 1][|s| - 1 - m..] + [s[|s| - 1]];
      1 + m
    else 0
  }

  /** Python's `s.strip()`: `s` without its leading and trailing whitespace.
      `StripTrims` says it only cuts whitespace at the two ends, and
      `StripUnique` that these properties determine it. */
  function Strip(s: string): (r: string)
    ensures Stripped(r)
    ensures r == [] <==> AllSpace(s)
  {
    var i := LeadingSpace(s);
    if i == |s| then []
    else
      var j := |s| - TrailingSpace(s);
      assert !IsSpace(s[i]);
      s[i..j]
  }

  /** Stripping removes whitespace at the two ends and nothing else. */
  lemma StripTrims(s: string)
    ensures Trims(s, Strip(s))
  {
    var i := LeadingSpace(s);
    if i == |s| {
      assert s[i..i] == [] && s[i..] == [];
    } else {
      var j := |s| - TrailingSpace(s);
      assert Strip(s) == s[i..j];
    }
  }

  /** Stripping introduces no character. */
  lemma StripKeepsOut(s: string, c: char)
    requires c !in s
    ensures c !in Strip(s)
  {
    var i := LeadingSpace(s);
    if i < |s| {
      var j := |s| - TrailingSpace(s);
      assert Strip(s) == s[i..j];
      assert forall k :: i <= k < j ==> s[i..j][k - i] == s[k];
    }
  }

  /** There is only one way to trim `s` down to a stripped string: `Trims` and
      `Stripped` characterise `Strip` completely. */
  lemma StripUnique(s: string, r: string)
    requires Trims(s, r) && Stripped(r)
    ensures r == Strip(s)
  {
    var i, j :| 0 <= i <= j <= |s| && r == s[i..j] && AllSpace(s[..i]) && AllSpace(s[j..]);
    if r == [] {
      BlankOnBothSides(s, i);
    } else {
      assert s[i] == r[0] && s[j - 1] == r[|r| - 1];
      StripBounds(s, i, j);
    }
  }

  /** Whitespace up to some point and whitespace from there on is whitespace. */
  lemma BlankOnBothSides(s: string, i: nat)
    requires i <= |s| && AllSpace(s[..i]) && AllSpace(s[i..])
    ensures AllSpace(s)
  {
    forall k | 0 <= k < |s| ensures IsSpace(s[k]) {
      if k < i { assert s[..i][k] == s[k]; } else { assert s[i..][k - i] == s[k]; }
    }
  }

  /** A non-space first and last character fix where stripping cuts. */
  lemma StripBounds(s: string, i: nat, j: nat)
    requires i < j <= |s| && AllSpace(s[..i]) && AllSpace(s[j..])
    requires !IsSpace(s[i]) && !IsSpace(s[j - 1])
    ensures Strip(s) == s[i..j]
  {
    LeadingSpaceAt(s, i);
    TrailingSpaceAt(s, |s| - j);
  }

  /** The whitespace prefix ends at the first non-space character. */
  lemma {:induction false} LeadingSpaceAt(s: string, i: nat)
    requires i < |s| && AllSpace(s[..i]) && !IsSpace(s[i])
    ensures LeadingSpace(s) == i
  {
    if i > 0 {
      assert IsSpace(s[..i][0]);
      assert s[1..][..i - 1] == s[..i][1..];
      LeadingSpaceAt(s[1..], i - 1);
    }
  }

  /** The whitespace suffix ends at the last non-space character. */
  lemma {:induction false} TrailingSpaceAt(s: string, n: nat)
    requires n < |s| && AllSpace(s[|s| - n..]) && !IsSpace(s[|s| - 1 - n])
    ensures TrailingSpace(s) == n
  {
    if n > 0 {
      assert IsSpace(s[|s| - n..][n - 1]);
      var t := s[..|s| - 1];
      var tail := t[|t| - (n - 1)..];
      assert AllSpace(tail) by {
        forall k | 0 <= k < n - 1 ensures IsSpace(tail[k]) {
          assert tail[k] == s[|s| - n..][k];
        }
      }
      TrailingSpaceAt(t, n - 1);
    }
  }

  /** Stripping ignores one more leading blank. */
  lemma StripIndent(p: string)
    ensures Strip([' '] + p) == Strip(p)
  {
    if AllSpace(p) { StripIndentBlank(p); } else { StripIndentText(p); }
  }

  lemma StripIndentBlank(p: string)
    requires AllSpace(p)
    ensures Strip([' '] + p) == []
  {
    var s := [' '] + p;
    assert AllSpace(s) by {
      forall k | 0 <= k < |s| ensures IsSpace(s[k]) {
        if k > 0 { assert s[k] == p[k - 1]; }
      }
    }
  }

  lemma StripIndentText(p: string)
    requires !AllSpace(p)
    ensures Strip([' '] + p) == Strip(p)
  {
    var s := [' '] + p;
    var i := LeadingSpace(p);
    var j := |p| - TrailingSpace(p);
    assert Strip(p) == p[i..j];
    assert s[i + 1..j + 1] == p[i..j] && s[j + 1..] == p[j..];
    BlankPrefixIndent(p, i);
    StripBounds(s, i + 1, j + 1);
  }

  lemma BlankPrefixIndent(p: string, i: nat)
    requires i <= |p| && AllSpace(p[..i])
    ensures AllSpace(([' '] + p)[..i + 1])
  {
    var t := ([' '] + p)[..i + 1];
    assert t == [' '] + p[..i];
    forall k | 0 <= k < |t| ensures IsSpace(t[k]) {
      if k > 0 { assert t[k] == p[..i][k - 1]; }
    }
  }

  /** Python's `s.split(sep)`: the maximal `sep`-free pieces of `s`, in order.
      Like Python it never returns an empty list, and it returns one piece
      more than `s` has separators. */
  function Split(s: string, sep: char): (parts: seq<string>)
    ensures |parts| >= 1
    ensures forall k :: 0 <= k < |parts| ==> sep !in parts[k]
  {
    if s == [] then [[]]
    else
      var rest := Split(s[1..], sep);
      if s[0] == sep then [[]] + rest
      else [[s[0]] + rest[0]] + rest[1..]
  }

  /** As in Python, `len(s.split(sep)) == s.count(sep) + 1`. */
  lemma {:induction false} SplitCount(s: string, sep: char)
    ensures |Split(s, sep)| == multiset(s)[sep] + 1
  {
    if s != [] {
      SplitCount(s[1..], sep);
      assert s == [s[0]] + s[1..];
    }
  }

  /** Python's `sep.join(parts)`. */
  function Join(parts: seq<string>, sep: char): string
  {
    if |parts| == 0 then []
    else if |parts| == 1 then parts[0]
    else parts[0] + [sep] + Join(parts[1..], sep)
  }

  /** Joining the pieces back with the separator restores the original text. */
  lemma {:induction false} JoinSplit(s: string, sep: char)
    ensures Join(Split(s, sep), sep) == s
  {
    if s != [] {
      var rest := Split(s[1..], sep);
      JoinSplit(s[1..], sep);
      if s[0] == sep {
        assert Split(s, sep) == [[]] + rest;
        assert ([[]] + rest)[1..] == rest;
      } else {
        assert Split(s, sep) == [[s[0]] + rest[0]] + rest[1..];
        if |rest| > 1 {
          assert Join(rest, sep) == rest[0] + [sep] + Join(rest[1..], sep);
          assert ([[s[0]] + rest[0]] + rest[1..])[1..] == rest[1..];
        }
      }
    }
  }

  /** Splitting a join of separator-free pieces gives the pieces back. */
  lemma {:induction false} SplitJoin(parts: seq<string>, sep: char)
    requires |parts| >= 1
    requires forall k :: 0 <= k < |parts| ==> sep !in parts[k]
    ensures Split(Join(parts, sep), sep) == parts
  {
    if |parts| == 1 {
      SplitFree(parts[0], sep);
    } else {
      SplitJoin(parts[1..], sep);
      SplitConcat(parts[0], Join(parts[1..], sep), sep);
      SplitFree(parts[0], sep);
      assert parts == [parts[0]] + parts[1..];
    }
  }

  /** A separator-free text is a single piece. */
  lemma {:induction false} SplitFree(s: string, sep: char)
    requires sep !in s
    ensures Split(s, sep) == [s]
  {
    if s != [] {
      SplitFree(s[1..], sep);
      assert s == [s[0]] + s[1..];
    }
  }

  /** Splitting distributes over a separator: `(a + sep + b).split(sep)` is
      `a.split(sep) + b.split(sep)`. */
  lemma {:induction false} SplitConcat(a: string, b: string, sep: char)
    ensures Split(a + [sep] + b, sep) == Split(a, sep) + Split(b, sep)
  {
    var s := a + [sep] + b;
    if a == [] {
      assert s[1..] == b;
    } else {
      assert s[1..] == a[1..] + [sep] + b;
      SplitConcat(a[1..], b, sep);
      var ra := Split(a[1..], sep);
      if a[0] != sep {
        assert ([[a[0]] + ra[0]] + ra[1..]) + Split(b, sep)
            == [[a[0]] + (ra + Split(b, sep))[0]] + (ra + Split(b, sep))[1..];
      }
    }
  }
}

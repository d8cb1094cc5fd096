/** The Foundation string operations that `SemVer(version:)` chains together:
    `replacingOccurrences(of:with:)` for one character, `split(separator:)` with
    its default of omitting empty pieces, and `trimmingCharacters(in:)` with the
    inverted set of decimal digits. Characters stand for Swift `Character`s and
    only the ASCII digits '0'...'9' are decimal digits. */
module StringOps {

  predicate IsDigit(c: char) {
    '0' <= c <= '9'
  }

  predicate AllDigits(s: string) {
    forall i :: 0 <= i < |s| ==> IsDigit(s[i])
  }

  predicate NoDigits(s: string) {
    forall i :: 0 <= i < |s| ==> !IsDigit(s[i])
  }

  // ---------------------------------------------------------------------------
  // replacingOccurrences(of:with:)

  /** `s` with every occurrence of `from` replaced by `to`. */
  function Replacing(s: string, from: char, to: char): (r: string)
    ensures |r| == |s|
  {
    if s == [] then []
    else [if s[0] == from then to else s[0]] + Replacing(s[1..], from, to)
  }

  /** Each character is replaced exactly when it is `from`, so no `from` is left. */
  lemma {:induction false} ReplacingAt(s: string, from: char, to: char)
    ensures forall i :: 0 <= i < |s| ==>
              Replacing(s, from, to)[i] == if s[i] == from then to else s[i]
    ensures from != to ==> from !in Replacing(s, from, to)
  {
    if s != [] {
      ReplacingAt(s[1..], from, to);
      var r := Replacing(s, from, to);
      assert forall i :: 1 <= i < |s| ==> r[i] == Replacing(s[1..], from, to)[i - 1];
    }
  }

  /** Replacing a character that does not occur changes nothing. */
  lemma {:induction false} ReplacingAbsent(s: string, from: char, to: char)
    requires from !in s
    ensures Replacing(s, from, to) == s
  {
    ReplacingAt(s, from, to);
  }

  // ---------------------------------------------------------------------------
  // split(separator:)

  /** `fs` glued back together with `sep` between neighbours. */
  function Join(fs: seq<string>, sep: char): string
    requires |fs| >= 1
  {
    if |fs| == 1 then fs[0] else fs[0] + [sep] + Join(fs[1..], sep)
  }

  /** All pieces of `s` between separators, empty pieces included
      (`split(separator:omittingEmptySubsequences: false)`). */
  function Fields(s: string, sep: char): (r: seq<string>)
    ensures |r| >= 1
  {
    if s == [] then [[]]
    else
      var rest := Fields(s[1..], sep);
      if s[0] == sep then [[]] + rest
      else [[s[0]] + rest[0]] + rest[1..]
  }

  /** No field contains the separator. */
  lemma {:induction false} FieldsAvoidSeparator(s: string, sep: char)
    ensures forall i :: 0 <= i < |Fields(s, sep)| ==> sep !in Fields(s, sep)[i]
  {
    if s != [] {
      FieldsAvoidSeparator(s[1..], sep);
    }
  }

  /** Splitting and joining again gives back the original string. */
  lemma {:induction false} JoinOfFields(s: string, sep: char)
    ensures Join(Fields(s, sep), sep) == s
  {
    if s != [] {
      var rest := Fields(s[1..], sep);
      JoinOfFields(s[1..], sep);
      if s[0] == sep {
        assert ([[]] + rest)[1..] == rest;
      } else {
        var r := [[s[0]] + rest[0]] + rest[1..];
        assert r[1..] == rest[1..];
        if |rest| > 1 {
          assert Join(rest, sep) == rest[0] + [sep] + Join(rest[1..], sep);
        }
      }
    }
  }

  /** A character other than the separator occurs in a join only if it occurs in a piece. */
  lemma {:induction false} JoinAvoids(fs: seq<string>, sep: char, c: char)
    requires |fs| >= 1 && c != sep
    requires forall i :: 0 <= i < |fs| ==> c !in fs[i]
    ensures c !in Join(fs, sep)
  {
    if |fs| > 1 {
      JoinAvoids(fs[1..], sep, c);
    }
  }

  /** Prepending a separator-free prefix to a string extends its first field. */
  lemma {:induction false} FieldsOfPrefix(x: string, y: string, sep: char)
    requires sep !in x
    ensures Fields(x + y, sep) == [x + Fields(y, sep)[0]] + Fields(y, sep)[1..]
  {
    if x != [] {
      FieldsOfPrefix(x[1..], y, sep);
      assert (x + y)[1..] == x[1..] + y;
      assert [x[0]] + (x[1..] + Fields(y, sep)[0]) == x + Fields(y, sep)[0];
    } else {
      var f := Fields(y, sep);
      assert x + y == y && x + f[0] == f[0];
      assert [f[0]] + f[1..] == f;
    }
  }

  /** Splitting a join of separator-free pieces gives back exactly those pieces. */
  lemma {:induction false} FieldsOfJoin(fs: seq<string>, sep: char)
    requires |fs| >= 1
    requires forall i :: 0 <= i < |fs| ==> sep !in fs[i]
    ensures Fields(Join(fs, sep), sep) == fs
  {
    if |fs| == 1 {
      FieldsOfPrefix(fs[0], [], sep);
      assert fs[0] + [] == fs[0];
    } else {
      var tail := Join(fs[1..], sep);
      FieldsOfJoin(fs[1..], sep);
      FieldsOfPrefix(fs[0], [sep] + tail, sep);
      assert fs[0] + [sep] + tail == fs[0] + ([sep] + tail);
      assert ([sep] + tail)[1..] == tail;
      assert Fields([sep] + tail, sep) == [[]] + fs[1..];
      assert fs[0] + [] == fs[0];
    }
  }

  /** Replacing works piecewise on a concatenation. */
  lemma {:induction false} ReplacingAppend(x: string, y: string, from: char, to: char)
    ensures Replacing(x + y, from, to) == Replacing(x, from, to) + Replacing(y, from, to)
  {
    var r := Replacing(x + y, from, to);
    ReplacingAt(x + y, from, to);
    ReplacingAt(x, from, to);
    ReplacingAt(y, from, to);
    assert forall i :: 0 <= i < |x| ==> r[i] == Replacing(x, from, to)[i];
    assert forall i :: |x| <= i < |r| ==> r[i] == Replacing(y, from, to)[i - |x|];
  }

  /** `fs` without its empty members, in order. */
  function OmittingEmpty(fs: seq<string>): (r: seq<string>)
    ensures |r| <= |fs|
  {
    if fs == [] then []
    else if fs[0] == [] then OmittingEmpty(fs[1..])
    else [fs[0]] + OmittingEmpty(fs[1..])
  }

  /** `split(separator: sep)`: the non-empty pieces of `s` between separators. */
  function Split(s: string, sep: char): (r: seq<string>)
    ensures s == [] ==> r == []
    ensures s != [] && sep !in s ==> r == [s]
  {
    if sep !in s then
      FieldsOfJoin([s], sep);
      OmittingEmpty(Fields(s, sep))
    else
      OmittingEmpty(Fields(s, sep))
  }

  /** Every member kept by `OmittingEmpty` is a non-empty member of the input. */
  lemma {:induction false} OmittingEmptyMembers(fs: seq<string>)
    ensures forall i :: 0 <= i < |OmittingEmpty(fs)| ==>
              OmittingEmpty(fs)[i] != [] && OmittingEmpty(fs)[i] in fs
  {
    if fs != [] {
      OmittingEmptyMembers(fs[1..]);
    }
  }

  /** The pieces of `split` are non-empty and contain no separator. */
  lemma {:induction false} SplitPieces(s: string, sep: char)
    ensures forall i :: 0 <= i < |Split(s, sep)| ==> Split(s, sep)[i] != [] && sep !in Split(s, sep)[i]
  {
    FieldsAvoidSeparator(s, sep);
    OmittingEmptyMembers(Fields(s, sep));
  }

  /** Splitting a string that starts with a separator-free piece and a separator. */
  lemma {:induction false} SplitOfLeading(x: string, r: string, sep: char)
    requires sep !in x
    ensures Split(x + [sep] + r, sep) == OmittingEmpty([x]) + Split(r, sep)
  {
    assert x + [sep] + r == x + ([sep] + r);
    FieldsOfPrefix(x, [sep] + r, sep);
    assert ([sep] + r)[1..] == r;
    var f := Fields(r, sep);
    assert Fields([sep] + r, sep) == [[]] + f;
    assert x + [] == x;
    assert Fields(x + ([sep] + r), sep) == [x] + f;
    assert ([x] + f)[1..] == f;
    assert [x][1..] == [];
  }

  /** Replacing in a string that starts with a piece free of the replaced character. */
  lemma {:induction false} ReplacingOfLeading(x: string, r: string, from: char, to: char, sep: char)
    requires from !in x && sep != from
    ensures Replacing(x + [sep] + r, from, to) == x + [sep] + Replacing(r, from, to)
  {
    ReplacingAppend(x + [sep], r, from, to);
    ReplacingAppend(x, [sep], from, to);
    ReplacingAbsent(x, from, to);
    assert Replacing([sep], from, to) == [sep];
  }

  // ---------------------------------------------------------------------------
  // trimmingCharacters(in: CharacterSet.decimalDigits.inverted)

  /** `s` without its leading non-digits: the longest suffix that is empty or starts with a digit. */
  function DropLeadingNonDigits(s: string): (r: string)
    ensures |r| <= |s|
    ensures r == [] || IsDigit(r[0])
    ensures NoDigits(s) ==> r == []
  {
    if s != [] && !IsDigit(s[0]) then DropLeadingNonDigits(s[1..]) else s
  }

  /** What `DropLeadingNonDigits` removes is a prefix made of non-digits only. */
  lemma {:induction false} DropLeadingRemovesNonDigitPrefix(s: string)
    ensures var r := DropLeadingNonDigits(s);
            r == s[|s| - |r|..] && NoDigits(s[..|s| - |r|])
  {
    if s != [] && !IsDigit(s[0]) {
      DropLeadingRemovesNonDigitPrefix(s[1..]);
      var r := DropLeadingNonDigits(s);
      assert s[1..][..|s| - 1 - |r|] == s[1..|s| - |r|];
      assert forall i :: 1 <= i < |s| - |r| ==> s[i] == s[1..][..|s| - 1 - |r|][i - 1];
    }
  }

  /** `s` without its trailing non-digits: the longest prefix that is empty or ends with a digit. */
  function DropTrailingNonDigits(s: string): (r: string)
    ensures |r| <= |s|
    ensures r == [] || IsDigit(r[|r| - 1])
    ensures r != [] ==> r[0] == s[0]
  {
    if s != [] && !IsDigit(s[|s| - 1]) then DropTrailingNonDigits(s[..|s| - 1]) else s
  }

  /** What `DropTrailingNonDigits` removes is a suffix made of non-digits only. */
  lemma {:induction false} DropTrailingRemovesNonDigitSuffix(s: string)
    ensures var r := DropTrailingNonDigits(s);
            r == s[..|r|] && NoDigits(s[|r|..])
  {
    if s != [] && !IsDigit(s[|s| - 1]) {
      DropTrailingRemovesNonDigitSuffix(s[..|s| - 1]);
      var r := DropTrailingNonDigits(s);
      assert forall i :: |r| <= i < |s| - 1 ==> s[i] == s[..|s| - 1][|r|..][i - |r|];
    }
  }

  /** Non-digits trimmed from both ends of `s`; non-digits inside are kept. */
  function TrimNonDigits(s: string): (r: string)
    ensures r == [] || (IsDigit(r[0]) && IsDigit(r[|r| - 1]))
    ensures AllDigits(s) ==> r == s
    ensures NoDigits(s) ==> r == []
  {
    DropTrailingNonDigits(DropLeadingNonDigits(s))
  }

  lemma {:induction false} DropLeadingOfPrefix(p: string, y: string)
    requires NoDigits(p)
    ensures DropLeadingNonDigits(p + y) == DropLeadingNonDigits(y)
  {
    if p != [] {
      assert (p + y)[1..] == p[1..] + y;
      DropLeadingOfPrefix(p[1..], y);
    } else {
      assert p + y == y;
    }
  }

  lemma {:induction false} DropTrailingOfSuffix(y: string, q: string)
    requires NoDigits(q)
    ensures DropTrailingNonDigits(y + q) == DropTrailingNonDigits(y)
  {
    if q != [] {
      assert (y + q)[..|y + q| - 1] == y + q[..|q| - 1];
      DropTrailingOfSuffix(y, q[..|q| - 1]);
    } else {
      assert y + q == y;
    }
  }

  lemma {:induction false} DropLeadingOfAppend(x: string, q: string)
    requires NoDigits(q)
    ensures DropLeadingNonDigits(x + q) ==
              if DropLeadingNonDigits(x) == [] then [] else DropLeadingNonDigits(x) + q
  {
    if x == [] {
      assert x + q == q;
      assert DropLeadingNonDigits(q) == [];
    } else if !IsDigit(x[0]) {
      assert (x + q)[1..] == x[1..] + q;
      DropLeadingOfAppend(x[1..], q);
    }
  }

  /** Non-digits added at either end of a piece make no difference to its trimmed form. */
  lemma {:induction false} TrimIgnoresEnds(p: string, x: string, q: string)
    requires NoDigits(p) && NoDigits(q)
    ensures TrimNonDigits(p + x + q) == TrimNonDigits(x)
  {
    assert p + x + q == p + (x + q);
    DropLeadingOfPrefix(p, x + q);
    DropLeadingOfAppend(x, q);
    if DropLeadingNonDigits(x) != [] {
      DropTrailingOfSuffix(DropLeadingNonDigits(x), q);
    }
  }

  /** A piece that is empty or begins and ends with a digit is left as it is,
      whatever it holds in between. */
  lemma {:induction false} TrimKeepsDigitBounded(x: string)
    requires x == [] || (IsDigit(x[0]) && IsDigit(x[|x| - 1]))
    ensures TrimNonDigits(x) == x
  {
  }
}

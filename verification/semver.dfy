/** The `SemVer` value type of Sources/MMMCommonCore/SemVer.swift: three integer
    components, a lenient parser, the `M.m.p` formatter and the `<` ordering. */
module SemanticVersion {
  import opened Wrappers
  import opened StringOps
  import opened IntText

  /** Swift's `SemVer`; the memberwise `init(major:minor:patch:)` accepts any `Int`. */
  datatype SemVer = SemVer(major: int, minor: int, patch: int)

  const Zero := SemVer(0, 0, 0)

  // ---------------------------------------------------------------------------
  // Parsing: `init(version:)`

  /** The number one piece of the version contributes, if any:
      `Int(piece.trimmingCharacters(in: onlyDigits))`. */
  function SegmentNumber(segment: string): (r: Option<int>)
    ensures r.Some? <==> TrimNonDigits(segment) != [] && AllDigits(TrimNonDigits(segment))
    ensures r.Some? ==> r.value >= 0
  {
    ParseInt(TrimNonDigits(segment))
  }

  /** Swift's `compactMap`: the values `f` gives for the elements of `xs`, in order,
      skipping the elements it maps to nil. */
  function CompactMap<A, B>(xs: seq<A>, f: A -> Option<B>): (ys: seq<B>)
    ensures |ys| <= |xs|
  {
    if xs == [] then []
    else
      var rest := CompactMap(xs[1..], f);
      match f(xs[0])
      case Some(y) => [y] + rest
      case None => rest
  }

  /** The `parts` array the parser pops its components from. */
  function Numbers(version: string): (ns: seq<int>)
    ensures forall i :: 0 <= i < |ns| ==> ns[i] >= 0
  {
    NumbersNonNegative(Split(Replacing(version, '_', '.'), '.'));
    CompactMap(Split(Replacing(version, '_', '.'), '.'), SegmentNumber)
  }

  /** The `i`-th parsed number, or 0 when there are not that many (`popFirst() ?? 0`). */
  function NumberOr(ns: seq<int>, i: nat): int {
    if i < |ns| then ns[i] else 0
  }

  /** What `SemVer(version:)` builds: the first three parsed numbers, each missing one 0. */
  function Parse(version: string): (v: SemVer)
    ensures v.major >= 0 && v.minor >= 0 && v.patch >= 0
  {
    var ns := Numbers(version);
    SemVer(NumberOr(ns, 0), NumberOr(ns, 1), NumberOr(ns, 2))
  }

  /** The fileprivate `Array.popFirst()`: removes and returns the first element, or
      returns nil and leaves the array alone when it is empty. The array is a local
      value, so the caller assigns `rest` back to it. */
  method PopFirst<T>(parts: seq<T>) returns (first: Option<T>, rest: seq<T>)
    ensures parts == [] ==> first == None && rest == parts
    ensures parts != [] ==> first == Some(parts[0]) && rest == parts[1..]
  {
    if |parts| == 0 {
      return None, parts;
    }
    first, rest := Some(parts[0]), parts[1..];
  }

  /** `SemVer(version:)`: three in-place pops from the parsed numbers. */
  method FromString(version: string) returns (v: SemVer)
    ensures v == Parse(version)
  {
    var parts := Numbers(version);
    var first: Option<int>;
    first, parts := PopFirst(parts);
    var major := first.GetOr(0);
    first, parts := PopFirst(parts);
    var minor := first.GetOr(0);
    first, parts := PopFirst(parts);
    var patch := first.GetOr(0);
    v := SemVer(major, minor, patch);
  }

  // ---------------------------------------------------------------------------
  // Formatting: `version`

  /** `"\(major).\(minor).\(patch)"`. */
  function Format(v: SemVer): (s: string)
    ensures Fields(s, '.') == [Description(v.major), Description(v.minor), Description(v.patch)]
    ensures '_' !in s
  {
    var parts := [Description(v.major), Description(v.minor), Description(v.patch)];
    assert Join(parts[2..], '.') == Description(v.patch);
    assert Join(parts, '.') == Description(v.major) + "." + Description(v.minor) + "." + Description(v.patch);
    FieldsOfJoin(parts, '.');
    JoinAvoids(parts, '.', '_');
    Description(v.major) + "." + Description(v.minor) + "." + Description(v.patch)
  }

  function Abs(i: int): nat {
    if i < 0 then -i else i
  }

  // ---------------------------------------------------------------------------
  // Ordering: `<` and the synthesized `==`

  /** The components in order of priority. */
  function Components(v: SemVer): seq<int> {
    [v.major, v.minor, v.patch]
  }

  /** Lexicographic order on equally long sequences: the first differing position decides. */
  predicate LexBefore(a: seq<int>, b: seq<int>)
    requires |a| == |b|
  {
    |a| > 0 && (a[0] < b[0] || (a[0] == b[0] && LexBefore(a[1..], b[1..])))
  }

  /** The lexicographic order on components, written out for three positions. */
  lemma {:induction false} LexBeforeOfComponents(a: SemVer, b: SemVer)
    ensures LexBefore(Components(a), Components(b)) <==>
              a.major < b.major || (a.major == b.major &&
                (a.minor < b.minor || (a.minor == b.minor && a.patch < b.patch)))
  {
    var x, y := Components(a), Components(b);
    assert x[1..] == [a.minor, a.patch] && y[1..] == [b.minor, b.patch];
    assert x[1..][1..] == [a.patch] && y[1..][1..] == [b.patch];
    assert x[1..][1..][1..] == [];
    assert !LexBefore([a.patch][1..], [b.patch][1..]);
    assert LexBefore([a.patch], [b.patch]) <==> a.patch < b.patch;
    assert LexBefore([a.minor, a.patch], [b.minor, b.patch]) <==>
             a.minor < b.minor || (a.minor == b.minor && a.patch < b.patch);
  }

  /** `lhs < rhs`. */
  function Less(lhs: SemVer, rhs: SemVer): (r: bool)
    ensures r <==> LexBefore(Components(lhs), Components(rhs))
  {
    LexBeforeOfComponents(lhs, rhs);
    if lhs.major < rhs.major then true
    else if lhs.major > rhs.major then false
    else if lhs.minor < rhs.minor then true
    else if lhs.minor > rhs.minor then false
    else if lhs.patch < rhs.patch then true
    else if lhs.patch > rhs.patch then false
    else false
  }

  // ---------------------------------------------------------------------------
  // Properties of the parser

  /** Every number the parser produces is non-negative. */
  lemma {:induction false} NumbersNonNegative(segments: seq<string>)
    ensures forall i :: 0 <= i < |CompactMap(segments, SegmentNumber)| ==>
              CompactMap(segments, SegmentNumber)[i] >= 0
  {
    if segments != [] {
      NumbersNonNegative(segments[1..]);
    }
  }

  /** Pieces that map to nil can be dropped beforehand without changing the result. */
  lemma {:induction false} CompactMapOmittingEmpty<B>(xs: seq<string>, f: string -> Option<B>)
    requires f([]) == None
    ensures CompactMap(OmittingEmpty(xs), f) == CompactMap(xs, f)
  {
    if xs != [] {
      CompactMapOmittingEmpty(xs[1..], f);
      if xs[0] != [] {
        assert ([xs[0]] + OmittingEmpty(xs[1..]))[1..] == OmittingEmpty(xs[1..]);
      }
    }
  }

  /** `compactMap` distributes over concatenation. */
  lemma {:induction false} CompactMapAppend<A, B>(xs: seq<A>, ys: seq<A>, f: A -> Option<B>)
    ensures CompactMap(xs + ys, f) == CompactMap(xs, f) + CompactMap(ys, f)
  {
    if xs != [] {
      assert (xs + ys)[0] == xs[0] && (xs + ys)[1..] == xs[1..] + ys;
      CompactMapAppend(xs[1..], ys, f);
    } else {
      assert xs + ys == ys;
    }
  }

  /** A version written as pieces joined by dots, none holding a separator, yields
      the numbers of those pieces in order. */
  lemma {:induction false} NumbersOfJoin(segments: seq<string>)
    requires |segments| >= 1
    requires forall i :: 0 <= i < |segments| ==> '.' !in segments[i] && '_' !in segments[i]
    ensures Numbers(Join(segments, '.')) == CompactMap(segments, SegmentNumber)
  {
    var s := Join(segments, '.');
    JoinAvoids(segments, '.', '_');
    ReplacingAbsent(s, '_', '.');
    FieldsOfJoin(segments, '.');
    CompactMapOmittingEmpty(segments, SegmentNumber);
  }

  /** The first piece of a version is read on its own, then the rest is read as a version. */
  lemma {:induction false} NumbersOfLeadingSegment(x: string, rest: string)
    requires '.' !in x && '_' !in x
    ensures Numbers(x + "." + rest) == CompactMap([x], SegmentNumber) + Numbers(rest)
  {
    var r := Replacing(rest, '_', '.');
    ReplacingOfLeading(x, rest, '_', '.', '.');
    SplitOfLeading(x, r, '.');
    CompactMapAppend(OmittingEmpty([x]), Split(r, '.'), SegmentNumber);
    CompactMapOmittingEmpty([x], SegmentNumber);
  }

  /** A last piece with no separator is read on its own. */
  lemma {:induction false} NumbersOfLastSegment(x: string)
    requires '.' !in x && '_' !in x
    ensures Numbers(x) == CompactMap([x], SegmentNumber)
  {
    NumbersOfJoin([x]);
  }

  /** `_` is read exactly like `.`. */
  lemma {:induction false} UnderscoreIsDot(version: string, i: nat)
    requires i < |version| && version[i] == '_'
    ensures Parse(version[i := '.']) == Parse(version)
  {
    var a, b := Replacing(version, '_', '.'), Replacing(version[i := '.'], '_', '.');
    ReplacingAt(version, '_', '.');
    ReplacingAt(version[i := '.'], '_', '.');
    assert forall j :: 0 <= j < |a| ==> a[j] == b[j];
    assert a == b;
  }

  /** A piece whose trimmed remainder is not a number contributes nothing: the numbers
      of the later pieces move up into its place. */
  lemma {:induction false} LaterSegmentsMoveUp(x: string, rest: string)
    requires '.' !in x && '_' !in x
    requires SegmentNumber(x) == None
    ensures Numbers(x + "." + rest) == Numbers(rest)
    ensures Parse(x + "." + rest) == Parse(rest)
  {
    NumbersOfLeadingSegment(x, rest);
  }

  /** A piece whose trimmed remainder is a number gives the next component. */
  lemma {:induction false} NumericSegmentComesFirst(x: string, rest: string)
    requires '.' !in x && '_' !in x
    requires SegmentNumber(x).Some?
    ensures Numbers(x + "." + rest) == [SegmentNumber(x).value] + Numbers(rest)
  {
    NumbersOfLeadingSegment(x, rest);
  }

  /** A piece that trims to nothing, or keeps a non-digit between digits, has no number. */
  lemma {:induction false} UnparsableSegments(x: string, p: string, q: string)
    requires NoDigits(x)
    requires |p| >= 1 && |q| >= 1 && IsDigit(p[0]) && IsDigit(q[|q| - 1])
    ensures SegmentNumber(x) == None
    ensures forall c :: !IsDigit(c) ==> SegmentNumber(p + [c] + q) == None
  {
    forall c | !IsDigit(c)
      ensures SegmentNumber(p + [c] + q) == None
    {
      var t := p + [c] + q;
      TrimKeepsDigitBounded(t);
      assert t[|p|] == c;
    }
  }

  /** Non-digits at either end of a piece are ignored. */
  lemma {:induction false} NonDigitEndsIgnored(p: string, x: string, q: string, rest: string)
    requires NoDigits(p) && NoDigits(q)
    requires '.' !in p && '_' !in p && '.' !in x && '_' !in x && '.' !in q && '_' !in q
    ensures Numbers(p + x + q + "." + rest) == Numbers(x + "." + rest)
    ensures Parse(p + x + q + "." + rest) == Parse(x + "." + rest)
  {
    var y := p + x + q;
    assert '.' !in y && '_' !in y;
    NumbersOfLeadingSegment(y, rest);
    NumbersOfLeadingSegment(x, rest);
    TrimIgnoresEnds(p, x, q);
  }

  /** `_` between two parts of a version reads exactly like `.`. */
  lemma {:induction false} UnderscoreBetween(x: string, y: string)
    ensures Parse(x + "_" + y) == Parse(x + "." + y)
  {
    var v := x + "_" + y;
    UnderscoreIsDot(v, |x|);
    assert v[|x| := '.'] == x + "." + y;
  }

  /** Components missing from the text are 0: a lone canonical number is the major
      version, and two dot-separated ones are the major and minor versions. */
  lemma {:induction false} MissingComponentsAreZero(a: string, b: string)
    requires Canonical(a) && Canonical(b)
    ensures Parse(a) == SemVer(DigitsValue(a), 0, 0)
    ensures Parse(a + "." + b) == SemVer(DigitsValue(a), DigitsValue(b), 0)
  {
    assert '.' !in a && '_' !in a && '.' !in b && '_' !in b;
    NumbersOfLastSegment(a);
    CanonicalSegment(a);
    NumbersOfLastSegment(b);
    CanonicalSegment(b);
    CanonicalLeadingSegment(a, b);
  }

  /** Zero is the least version the parser can produce. */
  lemma {:induction false} ZeroIsLeast(version: string)
    ensures !Less(Parse(version), Zero)
    ensures Parse(version) == Zero || Less(Zero, Parse(version))
  {
    LexBeforeOfComponents(Parse(version), Zero);
    LexBeforeOfComponents(Zero, Parse(version));
  }

  /** The empty string parses as `zero`. */
  lemma {:induction false} ParseEmpty()
    ensures Parse("") == Zero
  {
    assert Fields("", '.') == [[]];
  }

  // ---------------------------------------------------------------------------
  // Round trips between the parser and the formatter

  /** The description of any integer, read as a piece, gives its magnitude (a minus sign is trimmed). */
  lemma {:induction false} SegmentOfDescription(i: int)
    ensures SegmentNumber(Description(i)) == Some(Abs(i))
    ensures CompactMap([Description(i)], SegmentNumber) == [Abs(i)]
  {
    var d := NatDescription(Abs(i));
    ValueOfDescription(Abs(i));
    if i < 0 {
      assert Description(i) == "-" + d + [];
      TrimIgnoresEnds("-", d, []);
    }
    assert [Description(i)][1..] == [];
  }

  /** A version of three separator-free pieces yields the numbers of the three pieces. */
  lemma {:induction false} NumbersOfThree(a: string, b: string, c: string)
    requires '.' !in a && '_' !in a && '.' !in b && '_' !in b && '.' !in c && '_' !in c
    ensures Numbers(a + "." + b + "." + c) ==
              CompactMap([a], SegmentNumber) + CompactMap([b], SegmentNumber) + CompactMap([c], SegmentNumber)
  {
    assert a + "." + b + "." + c == a + "." + (b + "." + c);
    NumbersOfLeadingSegment(a, b + "." + c);
    NumbersOfLeadingSegment(b, c);
    NumbersOfLastSegment(c);
  }

  /** Parsing the formatted form of a version gives back its components' magnitudes. */
  lemma {:induction false} ParseFormat(v: SemVer)
    ensures Parse(Format(v)) == SemVer(Abs(v.major), Abs(v.minor), Abs(v.patch))
  {
    var a, b, c := Description(v.major), Description(v.minor), Description(v.patch);
    NumbersOfThree(a, b, c);
    SegmentOfDescription(v.major);
    SegmentOfDescription(v.minor);
    SegmentOfDescription(v.patch);
    var ns := Numbers(Format(v));
    assert ns == [Abs(v.major)] + [Abs(v.minor)] + [Abs(v.patch)];
    assert NumberOr(ns, 0) == Abs(v.major) && NumberOr(ns, 1) == Abs(v.minor) && NumberOr(ns, 2) == Abs(v.patch);
  }

  /** Parsing the formatted form of a version with non-negative components gives it back. */
  lemma {:induction false} ParseFormatRoundTrip(v: SemVer)
    requires v.major >= 0 && v.minor >= 0 && v.patch >= 0
    ensures Parse(Format(v)) == v
  {
    ParseFormat(v);
  }

  /** A canonical `M.m.p` string parses as its three numbers and is formatted back exactly. */
  lemma {:induction false} CanonicalRoundTrip(a: string, b: string, c: string)
    requires Canonical(a) && Canonical(b) && Canonical(c)
    ensures Parse(a + "." + b + "." + c) == SemVer(DigitsValue(a), DigitsValue(b), DigitsValue(c))
    ensures Format(Parse(a + "." + b + "." + c)) == a + "." + b + "." + c
  {
    DescriptionOfValue(a);
    DescriptionOfValue(b);
    DescriptionOfValue(c);
    ParseFormatRoundTrip(SemVer(DigitsValue(a), DigitsValue(b), DigitsValue(c)));
  }

  // ---------------------------------------------------------------------------
  // Properties of the ordering

  lemma {:induction false} LexIrreflexive(a: seq<int>)
    ensures !LexBefore(a, a)
  {
    if |a| > 0 {
      LexIrreflexive(a[1..]);
    }
  }

  lemma {:induction false} LexTransitive(a: seq<int>, b: seq<int>, c: seq<int>)
    requires |a| == |b| == |c|
    requires LexBefore(a, b) && LexBefore(b, c)
    ensures LexBefore(a, c)
  {
    if a[0] == b[0] == c[0] {
      LexTransitive(a[1..], b[1..], c[1..]);
    }
  }

  lemma {:induction false} LexTrichotomy(a: seq<int>, b: seq<int>)
    requires |a| == |b|
    ensures LexBefore(a, b) || a == b || LexBefore(b, a)
    ensures !(LexBefore(a, b) && LexBefore(b, a))
  {
    if |a| > 0 {
      LexTrichotomy(a[1..], b[1..]);
      if a[0] == b[0] && a[1..] == b[1..] {
        assert a == [a[0]] + a[1..] && b == [b[0]] + b[1..];
      }
    }
  }

  /** `<` is irreflexive. */
  lemma {:induction false} LessIrreflexive(v: SemVer)
    ensures !Less(v, v)
  {
    LexIrreflexive(Components(v));
  }

  /** `<` is transitive. */
  lemma {:induction false} LessTransitive(a: SemVer, b: SemVer, c: SemVer)
    requires Less(a, b) && Less(b, c)
    ensures Less(a, c)
  {
    LexTransitive(Components(a), Components(b), Components(c));
  }

  /** Exactly one of `a < b`, `a == b`, `b < a` holds, and `==` compares all three components. */
  lemma {:induction false} LessTrichotomy(a: SemVer, b: SemVer)
    ensures a == b <==> a.major == b.major && a.minor == b.minor && a.patch == b.patch
    ensures Less(a, b) || a == b || Less(b, a)
    ensures !(Less(a, b) && a == b) && !(Less(b, a) && a == b) && !(Less(a, b) && Less(b, a))
  {
    LexTrichotomy(Components(a), Components(b));
    LexIrreflexive(Components(a));
    if Components(a) == Components(b) {
      assert a.major == Components(a)[0] == Components(b)[0] == b.major;
      assert a.minor == Components(a)[1] == Components(b)[1] == b.minor;
      assert a.patch == Components(a)[2] == Components(b)[2] == b.patch;
    }
  }

  // ---------------------------------------------------------------------------
  // The cases of Tests/SemVerTestCase.swift

  /** A canonical piece contributes its value. */
  lemma {:induction false} CanonicalSegment(a: string)
    requires Canonical(a)
    ensures CompactMap([a], SegmentNumber) == [DigitsValue(a)]
  {
    assert [a][1..] == [];
  }

  /** A piece without a number contributes nothing. */
  lemma {:induction false} DeadSegment(x: string)
    requires SegmentNumber(x) == None
    ensures CompactMap([x], SegmentNumber) == []
  {
    assert [x][1..] == [];
  }

  /** A canonical first piece gives its value as the first number. */
  lemma {:induction false} CanonicalLeadingSegment(a: string, rest: string)
    requires Canonical(a)
    ensures Numbers(a + "." + rest) == [DigitsValue(a)] + Numbers(rest)
  {
    NumbersOfLeadingSegment(a, rest);
    CanonicalSegment(a);
  }

  /** Two canonical pieces in front give their two values as the first numbers. */
  lemma {:induction false} NumbersOfTwoCanonicalPieces(b: string, c: string, rest: string)
    requires Canonical(b) && Canonical(c)
    ensures Numbers(b + "." + (c + "." + rest)) == [DigitsValue(b), DigitsValue(c)] + Numbers(rest)
  {
    var r := c + "." + rest;
    CanonicalLeadingSegment(c, rest);
    CanonicalLeadingSegment(b, r);
    assert [DigitsValue(b)] + ([DigitsValue(c)] + Numbers(rest))
        == [DigitsValue(b), DigitsValue(c)] + Numbers(rest);
  }

  /** Three canonical pieces in front give their three values as the first numbers. */
  lemma {:induction false} NumbersOfCanonicalPieces(a: string, b: string, c: string, rest: string)
    requires Canonical(a) && Canonical(b) && Canonical(c)
    ensures Numbers(a + "." + (b + "." + (c + "." + rest))) ==
              [DigitsValue(a), DigitsValue(b), DigitsValue(c)] + Numbers(rest)
  {
    var r := b + "." + (c + "." + rest);
    NumbersOfTwoCanonicalPieces(b, c, rest);
    CanonicalLeadingSegment(a, r);
    assert [DigitsValue(a)] + ([DigitsValue(b), DigitsValue(c)] + Numbers(rest))
        == [DigitsValue(a), DigitsValue(b), DigitsValue(c)] + Numbers(rest);
  }

  /** Formatting the values of three canonical pieces gives them back, dot-separated. */
  lemma {:induction false} FormatOfCanonical(a: string, b: string, c: string)
    requires Canonical(a) && Canonical(b) && Canonical(c)
    ensures Format(SemVer(DigitsValue(a), DigitsValue(b), DigitsValue(c))) == a + "." + b + "." + c
  {
    DescriptionOfValue(a);
    DescriptionOfValue(b);
    DescriptionOfValue(c);
  }

  /** Pieces after the third number do not matter (testParser: `"1.2.3.4.5"` gives 1.2.3). */
  lemma {:induction false} ExtraComponentsIgnored(a: string, b: string, c: string, rest: string)
    requires Canonical(a) && Canonical(b) && Canonical(c)
    ensures Parse(a + "." + b + "." + c + "." + rest) == SemVer(DigitsValue(a), DigitsValue(b), DigitsValue(c))
    ensures Format(Parse(a + "." + b + "." + c + "." + rest)) == a + "." + b + "." + c
  {
    assert a + "." + b + "." + c + "." + rest == a + "." + (b + "." + (c + "." + rest));
    NumbersOfCanonicalPieces(a, b, c, rest);
    FormatOfCanonical(a, b, c);
  }

  /** A last piece joined with `_` is ignored once three numbers have been read
      (testParser: `"0.1.200_abc"` gives 0.1.200). */
  lemma {:induction false} UnderscoreSuffixIgnored(a: string, b: string, c: string, suffix: string)
    requires Canonical(a) && Canonical(b) && Canonical(c)
    ensures Parse(a + "." + b + "." + c + "_" + suffix) == SemVer(DigitsValue(a), DigitsValue(b), DigitsValue(c))
    ensures Format(Parse(a + "." + b + "." + c + "_" + suffix)) == a + "." + b + "." + c
  {
    UnderscoreBetween(a + "." + b + "." + c, suffix);
    ExtraComponentsIgnored(a, b, c, suffix);
  }

  /** Trimming the middle piece leaves the parsed numbers as if it had no suffix. */
  lemma {:induction false} TrimmedMiddleNumbers(a: string, b: string, q: string, c: string)
    requires Canonical(a) && Canonical(b) && Canonical(c)
    requires NoDigits(q) && '.' !in q && '_' !in q
    ensures Numbers(a + "." + b + q + "." + c) == Numbers(a + "." + b + "." + c)
  {
    assert a + "." + b + q + "." + c == a + "." + ([] + b + q + "." + c);
    CanonicalLeadingSegment(a, [] + b + q + "." + c);
    NonDigitEndsIgnored([], b, q, c);
    assert [] + b == b;
    CanonicalLeadingSegment(a, b + "." + c);
    assert a + "." + (b + "." + c) == a + "." + b + "." + c;
  }

  /** Non-digits at the end of the middle piece are trimmed
      (testParser: `"0.100-dev.200"` gives 0.100.200). */
  lemma {:induction false} TrimmedMiddleSuffix(a: string, b: string, q: string, c: string)
    requires Canonical(a) && Canonical(b) && Canonical(c)
    requires NoDigits(q) && '.' !in q && '_' !in q
    ensures Parse(a + "." + b + q + "." + c) == SemVer(DigitsValue(a), DigitsValue(b), DigitsValue(c))
    ensures Format(Parse(a + "." + b + q + "." + c)) == a + "." + b + "." + c
  {
    TrimmedMiddleNumbers(a, b, q, c);
    CanonicalRoundTrip(a, b, c);
  }

  /** testBasics and testEquateable: `"1.2.3"` has components 1, 2, 3, formats back to
      itself and equals `SemVer(major: 1, minor: 2, patch: 3)`. */
  lemma {:induction false} BasicsExample(version: string)
    requires version == "1.2.3"
    ensures Parse(version) == SemVer(1, 2, 3)
    ensures Format(Parse(version)) == version
  {
    var a, b, c := "1", "2", "3";
    assert version == a + "." + b + "." + c;
    CanonicalRoundTrip(a, b, c);
  }

  /** testCompareable, major component: 1.3.6 < 3.2.0 and 1.5.2 < 3.2.0. */
  lemma {:induction false} MajorOrderExample(major1: string, major2: string, minor1: string)
    requires major1 == "3.2.0" && major2 == "1.3.6" && minor1 == "1.5.2"
    ensures Less(Parse(major2), Parse(major1)) && Parse(major1) != Parse(major2)
    ensures Less(Parse(minor1), Parse(major1))
  {
    var d0, d1, d2, d3, d5, d6 := "0", "1", "2", "3", "5", "6";
    assert major1 == d3 + "." + d2 + "." + d0;
    assert major2 == d1 + "." + d3 + "." + d6;
    assert minor1 == d1 + "." + d5 + "." + d2;
    CanonicalRoundTrip(d3, d2, d0);
    CanonicalRoundTrip(d1, d3, d6);
    CanonicalRoundTrip(d1, d5, d2);
  }

  /** testCompareable, minor component: 1.2.6 < 1.5.2 and 0.3.2 < 1.5.2. */
  lemma {:induction false} MinorOrderExample(minor1: string, minor2: string, patch1: string)
    requires minor1 == "1.5.2" && minor2 == "1.2.6" && patch1 == "0.3.2"
    ensures Less(Parse(minor2), Parse(minor1)) && Parse(minor1) != Parse(minor2)
    ensures Less(Parse(patch1), Parse(minor1))
  {
    var d0, d1, d2, d3, d5, d6 := "0", "1", "2", "3", "5", "6";
    assert minor1 == d1 + "." + d5 + "." + d2;
    assert minor2 == d1 + "." + d2 + "." + d6;
    assert patch1 == d0 + "." + d3 + "." + d2;
    CanonicalRoundTrip(d1, d5, d2);
    CanonicalRoundTrip(d1, d2, d6);
    CanonicalRoundTrip(d0, d3, d2);
  }

  /** testCompareable, patch component: 0.3.0 < 0.3.2. */
  lemma {:induction false} PatchOrderExample(patch1: string, patch2: string)
    requires patch1 == "0.3.2" && patch2 == "0.3.0"
    ensures Less(Parse(patch2), Parse(patch1)) && Parse(patch1) != Parse(patch2)
  {
    var d0, d2, d3 := "0", "2", "3";
    assert patch1 == d0 + "." + d3 + "." + d2;
    assert patch2 == d0 + "." + d3 + "." + d0;
    CanonicalRoundTrip(d0, d3, d2);
    CanonicalRoundTrip(d0, d3, d0);
  }

  /** The digit text of the large major version in testParser. */
  lemma {:induction false} TwoMillion(s: string)
    requires s == "2000000"
    ensures Canonical(s) && DigitsValue(s) == 2000000
  {
    var t := "2";
    assert DigitsValue(t) == 2;
    DigitsValueAppend(t, '0');
    t := t + ['0'];
    DigitsValueAppend(t, '0');
    t := t + ['0'];
    DigitsValueAppend(t, '0');
    t := t + ['0'];
    DigitsValueAppend(t, '0');
    t := t + ['0'];
    DigitsValueAppend(t, '0');
    t := t + ['0'];
    DigitsValueAppend(t, '0');
    t := t + ['0'];
    assert t == s;
  }

  /** testParser: `"2000000.1.200"` is read as written and formats back exactly. */
  lemma {:induction false} LargeMajorExample(version: string)
    requires version == "2000000.1.200"
    ensures Parse(version) == SemVer(2000000, 1, 200)
    ensures Format(Parse(version)) == version
  {
    var a, b, c := "2000000", "1", "200";
    assert version == a + "." + b + "." + c;
    TwoMillion(a);
    CanonicalRoundTrip(a, b, c);
  }
}

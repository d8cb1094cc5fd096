# MMMCommonCore core, modelled in Dafny

This project models three pieces of the Swift package MMMCommonCore and proves
properties of them:

- **`SemVer`** (Sources/MMMCommonCore/SemVer.swift). A value with integer
  `major`, `minor` and `patch` components. `init(version:)` is a lenient parser:
  it replaces `_` by `.` and splits on `.`, dropping empty pieces. It trims
  non-digits from both ends of each piece and reads what is left with `Int(_:)`,
  skipping pieces that do not read. It then pops the first three numbers, using 0
  for each one missing. The `version` property formats `M.m.p`, and `<` compares
  the components lexicographically. Modules: `StringOps` (the Foundation string
  operations the parser chains), `IntText` (`Int(_:)` and `"\(n)"`) and
  `SemanticVersion`.
- **`ArrayBuilder`** and the `Array` extensions `build`, `building`,
  `append(builder:)` and `appending` (Sources/MMMCommonCore/ArrayBuilder.swift).
  Module `ArrayBuilder`. A builder closure is modelled by the array it evaluates
  to. Every `buildBlock` overload, `buildArray` and both `buildEither`s are
  proved equal to one reference definition, `Flatten`: the arguments' elements
  in argument order, a single element counting as a one-element array.
  `buildOptional` is specified directly: nil gives the empty array, and a
  present array gives itself. A Swift array variable is the class
  `ElementArray`, whose `elements` field the mutating extensions reassign.
- **`mmm_forEachPair`** and **`withParent`** (Sources/MMMCommonCore/CommonCore.swift).
  Module `CommonCore`. `ForEachPair` runs the source's guarded index loop and
  records each block invocation in its `calls` result.

The doc comment at Sources/MMMCommonCore/SemVer.swift:38 says the parser "strips
any non-numerical characters". The code only trims them from the two ends of
each piece, and a piece that still holds a non-digit between its digits
contributes no number (`SemanticVersion.UnparsableSegments`). The model follows
the code. The comment's own example, `0.9-dev.5`, comes out as `0.9.5` either way.

## Model

| member | source | states |
|---|---|---|
| StringOps.Replacing | Sources/MMMCommonCore/SemVer.swift:47 | replacing `_` by `.` keeps the length |
| StringOps.ReplacingAt | Sources/MMMCommonCore/SemVer.swift:47 | each character is replaced exactly when it is the replaced one, so none is left |
| StringOps.ReplacingAbsent | Sources/MMMCommonCore/SemVer.swift:45-47 | a version without `_` is left untouched |
| StringOps.ReplacingAppend | Sources/MMMCommonCore/SemVer.swift:47 | replacing works piecewise on a concatenation |
| StringOps.ReplacingOfLeading | Sources/MMMCommonCore/SemVer.swift:47 | a leading piece without `_`, and the separator after it, are kept as they are |
| StringOps.Fields | Sources/MMMCommonCore/SemVer.swift:48 | splitting without omitting empties gives at least one piece |
| StringOps.FieldsAvoidSeparator | Sources/MMMCommonCore/SemVer.swift:48 | no piece contains the separator |
| StringOps.JoinOfFields | Sources/MMMCommonCore/SemVer.swift:48 | joining the pieces with the separator gives back the string |
| StringOps.JoinAvoids | Sources/MMMCommonCore/SemVer.swift:48 | a non-separator character absent from every piece is absent from their join |
| StringOps.FieldsOfPrefix | Sources/MMMCommonCore/SemVer.swift:48 | a separator-free prefix extends the first piece only |
| StringOps.FieldsOfJoin | Sources/MMMCommonCore/SemVer.swift:48 | splitting a join of separator-free pieces gives back exactly those pieces |
| StringOps.OmittingEmpty | Sources/MMMCommonCore/SemVer.swift:48 | dropping empty pieces never lengthens the list |
| StringOps.OmittingEmptyMembers | Sources/MMMCommonCore/SemVer.swift:48 | every piece kept is non-empty and comes from the input |
| StringOps.Split | Sources/MMMCommonCore/SemVer.swift:48 | `split(separator:)` of the empty string is empty, and of non-empty text without the separator is that text alone |
| StringOps.SplitPieces | Sources/MMMCommonCore/SemVer.swift:48 | `split` yields non-empty pieces without the separator |
| StringOps.SplitOfLeading | Sources/MMMCommonCore/SemVer.swift:48 | a leading separator-free piece is split off on its own (and dropped when empty) |
| StringOps.DropLeadingNonDigits | Sources/MMMCommonCore/SemVer.swift:42-49 | the trimmed-at-front result is empty or starts with a digit, and is empty for digit-free input |
| StringOps.DropLeadingRemovesNonDigitPrefix | Sources/MMMCommonCore/SemVer.swift:42-49 | what is removed at the front is a prefix of non-digits only, the rest is a suffix of the input |
| StringOps.DropTrailingNonDigits | Sources/MMMCommonCore/SemVer.swift:42-49 | the trimmed-at-back result is empty or ends with a digit |
| StringOps.DropTrailingRemovesNonDigitSuffix | Sources/MMMCommonCore/SemVer.swift:42-49 | what is removed at the back is a suffix of non-digits only, the rest is a prefix of the input |
| StringOps.TrimNonDigits | Sources/MMMCommonCore/SemVer.swift:42-49 | the trimmed piece is empty or starts and ends with a digit; all-digit text is unchanged, digit-free text becomes empty |
| StringOps.DropLeadingOfPrefix | Sources/MMMCommonCore/SemVer.swift:49 | non-digits put in front make no difference to front trimming |
| StringOps.DropTrailingOfSuffix | Sources/MMMCommonCore/SemVer.swift:49 | non-digits put behind make no difference to back trimming |
| StringOps.DropLeadingOfAppend | Sources/MMMCommonCore/SemVer.swift:49 | front trimming of `x + q`, for digit-free `q`, is front trimming of `x` followed by `q` unless that is empty |
| StringOps.TrimIgnoresEnds | Sources/MMMCommonCore/SemVer.swift:49 | non-digits at either end of a piece do not change its trimmed form |
| StringOps.TrimKeepsDigitBounded | Sources/MMMCommonCore/SemVer.swift:49 | a piece beginning and ending with a digit is left as it is, inner non-digits included |
| IntText.DigitValue | Sources/MMMCommonCore/SemVer.swift:49 | a decimal digit's value is below 10 |
| IntText.DigitChar | Sources/MMMCommonCore/SemVer.swift:56 | the digit character for a value below 10 is a digit with that value |
| IntText.DigitsValueAppend | Sources/MMMCommonCore/SemVer.swift:49 | appending a digit multiplies the value by ten and adds the digit |
| IntText.NatDescription | Sources/MMMCommonCore/SemVer.swift:56 | `"\(n)"` of a natural number is canonical digit text (no leading zero) |
| IntText.Description | Sources/MMMCommonCore/SemVer.swift:56 | `"\(i)"` is non-empty, holds no `.` or `_`, and is canonical digit text exactly when `i >= 0` |
| IntText.ParseInt | Sources/MMMCommonCore/SemVer.swift:49 | `Int(s)` succeeds exactly for an optional sign followed by one or more digits; the value is non-negative unless the sign is `-` |
| IntText.ValueOfDescription | Sources/MMMCommonCore/SemVer.swift:56 | the digits of `"\(n)"` have the value `n` |
| IntText.DescriptionOfValue | Sources/MMMCommonCore/SemVer.swift:56 | canonical digit text is the description of its own value |
| IntText.LeadingDigitPositive | Sources/MMMCommonCore/SemVer.swift:49 | digit text whose first digit is not 0 has a positive value |
| IntText.ParseDigits | Sources/MMMCommonCore/SemVer.swift:49 | `Int(_:)` reads non-empty digit text as its value |
| IntText.ParseNegated | Sources/MMMCommonCore/SemVer.swift:49 | `Int(_:)` reads `-` followed by digits as the negated value |
| IntText.ParseDescription | Sources/MMMCommonCore/SemVer.swift:49-56 | `Int("\(i)") == i` for every integer |
| Wrappers.Option.GetOr | Sources/MMMCommonCore/SemVer.swift:51-53 | `x ?? d` is the wrapped value when present and `d` when nil |
| SemanticVersion.Zero | Sources/MMMCommonCore/SemVer.swift:20 | `zero` is the version (0, 0, 0); its properties are `ParseEmpty` and `ZeroIsLeast` |
| SemanticVersion.SegmentNumber | Sources/MMMCommonCore/SemVer.swift:49 | a piece gives a number exactly when its trimmed form is non-empty and all digits; that number is non-negative |
| SemanticVersion.CompactMap | Sources/MMMCommonCore/SemVer.swift:49 | `compactMap` never lengthens the list |
| SemanticVersion.CompactMapOmittingEmpty | Sources/MMMCommonCore/SemVer.swift:48-49 | dropping empty pieces first does not change the numbers, since an empty piece gives none |
| SemanticVersion.CompactMapAppend | Sources/MMMCommonCore/SemVer.swift:49 | `compactMap` distributes over concatenation |
| SemanticVersion.NumbersNonNegative | Sources/MMMCommonCore/SemVer.swift:49 | every parsed number is non-negative |
| SemanticVersion.NumbersOfJoin | Sources/MMMCommonCore/SemVer.swift:44-49 | a version made of separator-free pieces joined by `.` yields the numbers of those pieces, in order |
| SemanticVersion.NumbersOfLeadingSegment | Sources/MMMCommonCore/SemVer.swift:44-49 | the first piece is read on its own and the rest is read as a version |
| SemanticVersion.NumbersOfLastSegment | Sources/MMMCommonCore/SemVer.swift:44-49 | a version without separators is read as one piece |
| SemanticVersion.Numbers | Sources/MMMCommonCore/SemVer.swift:44-49 | the `parts` array holds only non-negative numbers |
| SemanticVersion.Parse | Sources/MMMCommonCore/SemVer.swift:40-54 | every parsed component is non-negative |
| SemanticVersion.PopFirst | Sources/MMMCommonCore/SemVer.swift:86-94 | an empty array gives nil and stays as it is; otherwise the first element is returned and removed |
| SemanticVersion.FromString | Sources/MMMCommonCore/SemVer.swift:40-54 | the three pops with `?? 0` build the version `Parse` describes |
| SemanticVersion.Format | Sources/MMMCommonCore/SemVer.swift:56 | `version` has no `_` and splits at `.` into exactly the descriptions of major, minor and patch; `ParseFormatRoundTrip` and `FormatOfCanonical` are its partners |
| SemanticVersion.LexBeforeOfComponents | Sources/MMMCommonCore/SemVer.swift:62-75 | lexicographic order on the components, written out per component |
| SemanticVersion.Less | Sources/MMMCommonCore/SemVer.swift:62-75 | `lhs < rhs` holds exactly when the components are lexicographically smaller |
| SemanticVersion.UnderscoreIsDot | Sources/MMMCommonCore/SemVer.swift:45-47 | turning any `_` into `.` does not change the parsed version |
| SemanticVersion.UnderscoreBetween | Sources/MMMCommonCore/SemVer.swift:45-47 | `x_y` and `x.y` parse alike |
| SemanticVersion.LaterSegmentsMoveUp | Sources/MMMCommonCore/SemVer.swift:49-53 | a piece without a number contributes nothing and later numbers move into its slot |
| SemanticVersion.NumericSegmentComesFirst | Sources/MMMCommonCore/SemVer.swift:49-53 | a piece with a number gives the next component |
| SemanticVersion.UnparsableSegments | Sources/MMMCommonCore/SemVer.swift:49 | a piece without digits, or with a non-digit between digits, gives no number |
| SemanticVersion.NonDigitEndsIgnored | Sources/MMMCommonCore/SemVer.swift:49 | non-digits at either end of the first piece change neither the numbers nor the version |
| SemanticVersion.MissingComponentsAreZero | Sources/MMMCommonCore/SemVer.swift:51-53 | a lone canonical number parses as (n, 0, 0) and `a.b` as (a, b, 0): each missing component is 0 |
| SemanticVersion.ZeroIsLeast | Sources/MMMCommonCore/SemVer.swift:20-75 | no parsed version is below `zero`; every parsed version is `zero` or above it |
| SemanticVersion.ParseEmpty | Sources/MMMCommonCore/SemVer.swift:51-53 | the empty string parses as `zero` |
| SemanticVersion.SegmentOfDescription | Sources/MMMCommonCore/SemVer.swift:49-56 | the description of any integer, read as a piece, gives its magnitude, because a minus sign is trimmed |
| SemanticVersion.NumbersOfThree | Sources/MMMCommonCore/SemVer.swift:44-49 | three separator-free pieces joined by `.` yield the numbers of the three pieces |
| SemanticVersion.ParseFormat | Sources/MMMCommonCore/SemVer.swift:40-56 | parsing the formatted version gives the magnitudes of its components |
| SemanticVersion.ParseFormatRoundTrip | Sources/MMMCommonCore/SemVer.swift:40-56 | parsing the formatted form of a version with non-negative components gives it back |
| SemanticVersion.CanonicalRoundTrip | Sources/MMMCommonCore/SemVer.swift:40-56 | canonical `M.m.p` text parses as its three numbers and formats back to the same text |
| SemanticVersion.LexIrreflexive | Sources/MMMCommonCore/SemVer.swift:62-75 | lexicographic order is irreflexive |
| SemanticVersion.LexTransitive | Sources/MMMCommonCore/SemVer.swift:62-75 | lexicographic order is transitive |
| SemanticVersion.LexTrichotomy | Sources/MMMCommonCore/SemVer.swift:62-75 | of two equally long sequences exactly one is smaller, or they are equal |
| SemanticVersion.LessIrreflexive | Sources/MMMCommonCore/SemVer.swift:62-75 | no version is below itself |
| SemanticVersion.LessTransitive | Sources/MMMCommonCore/SemVer.swift:62-75 | `<` is transitive |
| SemanticVersion.LessTrichotomy | Sources/MMMCommonCore/SemVer.swift:59-75 | `==` compares all three components, and exactly one of `a < b`, `a == b`, `b < a` holds |
| SemanticVersion.CanonicalSegment | Sources/MMMCommonCore/SemVer.swift:49 | a canonical piece contributes its value |
| SemanticVersion.CanonicalLeadingSegment | Sources/MMMCommonCore/SemVer.swift:44-49 | a canonical first piece gives its value as the first number |
| SemanticVersion.NumbersOfTwoCanonicalPieces | Sources/MMMCommonCore/SemVer.swift:44-49 | two canonical first pieces give their values as the first two numbers |
| SemanticVersion.NumbersOfCanonicalPieces | Sources/MMMCommonCore/SemVer.swift:44-49 | three canonical first pieces give their values as the first three numbers |
| SemanticVersion.FormatOfCanonical | Sources/MMMCommonCore/SemVer.swift:56 | formatting the values of canonical pieces gives the pieces back, dot-separated |
| SemanticVersion.ExtraComponentsIgnored | Tests/SemVerTestCase.swift:62 | pieces after the third number are ignored, as for `"1.2.3.4.5"` |
| SemanticVersion.UnderscoreSuffixIgnored | Tests/SemVerTestCase.swift:60 | a suffix after `_` is ignored once three numbers are read, as for `"0.1.200_abc"` |
| SemanticVersion.TrimmedMiddleNumbers | Sources/MMMCommonCore/SemVer.swift:49 | non-digits at the end of the middle piece leave the numbers unchanged |
| SemanticVersion.TrimmedMiddleSuffix | Tests/SemVerTestCase.swift:61 | `"0.100-dev.200"` style versions parse and format as if the suffix were absent |
| SemanticVersion.BasicsExample | Tests/SemVerTestCase.swift:11-29 | `"1.2.3"` has components 1, 2, 3 and formats back to itself |
| SemanticVersion.MajorOrderExample | Tests/SemVerTestCase.swift:31-42 | 1.3.6 < 3.2.0, they differ, and 1.5.2 < 3.2.0 |
| SemanticVersion.MinorOrderExample | Tests/SemVerTestCase.swift:39-50 | 1.2.6 < 1.5.2 and 0.3.2 < 1.5.2, the test's `>` assertions; the model also states that 1.2.6 and 1.5.2 differ, which the test does not check (its :45 compares the major pair again) |
| SemanticVersion.PatchOrderExample | Tests/SemVerTestCase.swift:47-53 | 0.3.0 < 0.3.2 and they differ |
| SemanticVersion.TwoMillion | Tests/SemVerTestCase.swift:59 | `"2000000"` is canonical digit text with value 2000000 |
| SemanticVersion.LargeMajorExample | Tests/SemVerTestCase.swift:59 | `"2000000.1.200"` parses as (2000000, 1, 200) and formats back exactly |
| ArrayBuilder.Singles | Sources/MMMCommonCore/ArrayBuilder.swift:68-70 | a variadic `T...` list is one single-element argument per element |
| ArrayBuilder.Arrays | Sources/MMMCommonCore/ArrayBuilder.swift:76-78 | a variadic `[T]...` list is one array argument per array |
| ArrayBuilder.FlattenAppend | Sources/MMMCommonCore/ArrayBuilder.swift:100-235 | building distributes over splitting the argument list |
| ArrayBuilder.FlattenLength | Sources/MMMCommonCore/ArrayBuilder.swift:100-235 | the result length is the sum of the argument lengths, a single element counting as 1 |
| ArrayBuilder.FlattenPosition | Sources/MMMCommonCore/ArrayBuilder.swift:100-235 | element `k` of argument `j` lands right after the elements of the earlier arguments |
| ArrayBuilder.FlattenSingles | Sources/MMMCommonCore/ArrayBuilder.swift:68-70 | single elements build the array of those elements |
| ArrayBuilder.FlattenWithTrailing | Sources/MMMCommonCore/ArrayBuilder.swift:100-235 | the `trailing: T...` elements come last, in order |
| ArrayBuilder.BuildBlockEmpty | Sources/MMMCommonCore/ArrayBuilder.swift:60-62 | an empty block builds the empty array, the flattening of no arguments |
| ArrayBuilder.BuildBlockItem | Sources/MMMCommonCore/ArrayBuilder.swift:64-66 | one element builds the array holding just it, the flattening of that one argument |
| ArrayBuilder.BuildBlockItems | Sources/MMMCommonCore/ArrayBuilder.swift:68-70 | elements build the array of those elements, in order |
| ArrayBuilder.BuildBlockArray | Sources/MMMCommonCore/ArrayBuilder.swift:72-74 | one array builds that array |
| ArrayBuilder.BuildBlockArrays | Sources/MMMCommonCore/ArrayBuilder.swift:76-78 | several arrays build their concatenation in order |
| ArrayBuilder.BuildArray | Sources/MMMCommonCore/ArrayBuilder.swift:80-82 | returns its argument unchanged |
| ArrayBuilder.BuildOptional | Sources/MMMCommonCore/ArrayBuilder.swift:86-88 | an `if` not taken contributes the empty array, a taken one its block |
| ArrayBuilder.BuildEitherFirst | Sources/MMMCommonCore/ArrayBuilder.swift:90-92 | the first branch's array is passed through |
| ArrayBuilder.BuildEitherSecond | Sources/MMMCommonCore/ArrayBuilder.swift:94-96 | the second branch's array is passed through |
| ArrayBuilder.BuildBlockAT | Sources/MMMCommonCore/ArrayBuilder.swift:100-105 | array, then trailing elements, in order; length is the sum |
| ArrayBuilder.BuildBlockIAT | Sources/MMMCommonCore/ArrayBuilder.swift:107-113 | element, array, trailing elements, in order; length is the sum |
| ArrayBuilder.BuildBlockIIAT | Sources/MMMCommonCore/ArrayBuilder.swift:115-122 | two elements, array, trailing elements, in order; length is the sum |
| ArrayBuilder.BuildBlockIIIAT | Sources/MMMCommonCore/ArrayBuilder.swift:124-132 | three elements, array, trailing elements, in order; length is the sum |
| ArrayBuilder.BuildBlockAAIT | Sources/MMMCommonCore/ArrayBuilder.swift:136-143 | two arrays, element, trailing elements, in order; length is the sum |
| ArrayBuilder.BuildBlockAIAT | Sources/MMMCommonCore/ArrayBuilder.swift:145-152 | array, element, array, trailing elements, in order; length is the sum |
| ArrayBuilder.BuildBlockIAAT | Sources/MMMCommonCore/ArrayBuilder.swift:154-161 | element, two arrays, trailing elements, in order; length is the sum |
| ArrayBuilder.BuildBlockAIIAT | Sources/MMMCommonCore/ArrayBuilder.swift:163-171 | array, two elements, array, trailing elements, in order; length is the sum |
| ArrayBuilder.BuildBlockIAIAT | Sources/MMMCommonCore/ArrayBuilder.swift:173-181 | element, array, element, array, trailing elements, in order; length is the sum |
| ArrayBuilder.BuildBlockIIAAT | Sources/MMMCommonCore/ArrayBuilder.swift:183-191 | two elements, two arrays, trailing elements, in order; length is the sum |
| ArrayBuilder.BuildBlockAIIIAT | Sources/MMMCommonCore/ArrayBuilder.swift:193-202 | array, three elements, array, trailing elements, in order; length is the sum |
| ArrayBuilder.BuildBlockIAIIAT | Sources/MMMCommonCore/ArrayBuilder.swift:204-213 | element, array, two elements, array, trailing elements, in order; length is the sum |
| ArrayBuilder.BuildBlockIIAIAT | Sources/MMMCommonCore/ArrayBuilder.swift:215-224 | two elements, array, element, array, trailing elements, in order; length is the sum |
| ArrayBuilder.BuildBlockIIIAAT | Sources/MMMCommonCore/ArrayBuilder.swift:226-235 | three elements, two arrays, trailing elements, in order; length is the sum |
| ArrayBuilder.OthersExample | Tests/ArrayBuilderTestCase.swift:52-60 | `"Foo"`, `"Bar"`, `["Bar", "Boo"]` build `["Foo", "Bar", "Bar", "Boo"]` |
| ArrayBuilder.ConditionalExample | Tests/ArrayBuilderTestCase.swift:34-50 | three elements and an `if` build 3 elements when the condition is false and 4 when it is true |
| ArrayBuilder.NestedExample | Tests/ArrayBuilderTestCase.swift:90-113 | the `.c` branch flattens to `["One", "Two", "Intermediate", "Array", "With", "Condition", "Three"]` |
| ArrayBuilder.ElementArray.Build | Sources/MMMCommonCore/ArrayBuilder.swift:241-243 | the array becomes the builder's result, dropping its old contents |
| ArrayBuilder.ElementArray.Building | Sources/MMMCommonCore/ArrayBuilder.swift:246-248 | the result is the builder's result, element for element, whatever the receiver holds |
| ArrayBuilder.ElementArray.Append | Sources/MMMCommonCore/ArrayBuilder.swift:251-253 | the array becomes its old contents followed by the builder's result |
| ArrayBuilder.ElementArray.Appending | Sources/MMMCommonCore/ArrayBuilder.swift:256-260 | the result is the receiver's contents followed by the builder's result; the receiver is not modified |
| ArrayBuilder.UpdateWidgets | Tests/ArrayBuilderTestCase.swift:19-29 | after `update()` the widgets are exactly `"A"`, `"B"`, `"C"` |
| CommonCore.AdjacentPairs | Sources/MMMCommonCore/CommonCore.swift:13-19 | the reference list of calls has one pair fewer than the array has elements, and none for an empty array |
| CommonCore.AdjacentPairsAt | Sources/MMMCommonCore/CommonCore.swift:13-19 | there is one pair fewer than elements (none for an empty array), and pair `i` is `(a[i], a[i + 1])` |
| CommonCore.PairsChain | Sources/MMMCommonCore/CommonCore.swift:17-19 | the second element of each call is the first element of the next call |
| CommonCore.ForEachPair | Sources/MMMCommonCore/CommonCore.swift:11-20 | the block is called `count - 1` times (never on an empty array), the `i`-th time with `(a[i], a[i + 1])` |
| CommonCore.WithParent | Sources/MMMCommonCore/CommonCore.swift:56-65 | with a parent present, the result is the block applied to it |

## Left out

- Only the ASCII digits `0`–`9` count as decimal digits. `CharacterSet.decimalDigits` also holds other scripts' digits, which `Int(_:)` then rejects. Characters model Swift `Character`s one for one, without grapheme clustering.
- IntText.ParseInt: does not model the 64-bit `Int` range. `Int(_:)` returns nil for text beyond it, while the model reads any length of digits. Likewise, `Description` and the components are unbounded integers.
- `init(from:)` (Codable), `Hashable` and `debugDescription`: decoder plumbing and derived conformances. `debugDescription` is `version`, which is `Format`.
- The `>`, `<=` and `>=` operators that Swift derives from `<` are not separate members. The tests' `a > b` is stated as `Less(b, a)`.
- The tests' parser strings `"0.1.200"`, `"1.2.3.4.5"`, `"0.1.200_abc"` and `"0.100-dev.200"` are covered by the general lemmas `CanonicalRoundTrip`, `ExtraComponentsIgnored`, `UnderscoreSuffixIgnored` and `TrimmedMiddleSuffix`. They are not stated for those literal strings.
- Overload resolution of the result builder is the Swift compiler's choice; the model names each overload explicitly (`I` element, `A` array, `T` trailing elements). The compiler's nesting of `buildEither` for a three-case `switch` is not modelled, since every `buildEither` passes its array through.
- Builder closures are modelled by the arrays they evaluate to, and the `forEachPair` block by the record of its arguments. Side effects inside closures are not modelled.
- `withParent`'s `function`, `file` and `line` parameters, and its `preconditionFailure` message. The nil-parent failure is the precondition `parent.Some?`.
- Array value semantics: `ElementArray` stands for one array variable. Copies are modelled as `seq` values, so copy-on-write is not modelled.
- `Error.mmm_description`, `String.mmm_stringBySubstitutingVariables` and `MMMLocalizedString` forward to Objective-C code and bundle lookups that are not part of this model. `MMMTimeSource`, `MMMNetworkConditioner`, the language matcher and the optional-unwrapping helpers are not part of this model either.

/** The `ArrayBuilder` result builder of Sources/MMMCommonCore/ArrayBuilder.swift and
    the `Array` extensions that use it.

    Every builder closure is modelled by the array it evaluates to, and every
    `build*` function by a function on `seq<T>`. The meaning of all of them is one
    reference definition, `Flatten`: the arguments' elements concatenated in
    argument order, a single element counting as a one-element array. */
module ArrayBuilder {
  import opened Wrappers

  /** One argument of a `buildBlock` overload: a single element or an array. */
  datatype Part<T> = Item(item: T) | Items(items: seq<T>)

  /** The elements an argument contributes. */
  function Elements<T>(p: Part<T>): seq<T> {
    match p
    case Item(x) => [x]
    case Items(xs) => xs
  }

  /** How many elements an argument contributes. */
  function Size<T>(p: Part<T>): nat {
    match p
    case Item(_) => 1
    case Items(xs) => |xs|
  }

  /** The sum of the argument sizes. */
  function TotalSize<T>(parts: seq<Part<T>>): nat {
    if parts == [] then 0 else Size(parts[0]) + TotalSize(parts[1..])
  }

  /** Reference meaning of every overload: the arguments' elements in argument order. */
  function Flatten<T>(parts: seq<Part<T>>): seq<T> {
    if parts == [] then [] else Elements(parts[0]) + Flatten(parts[1..])
  }

  /** A variadic `T...` argument list: one `Item` per element. */
  function Singles<T>(xs: seq<T>): (r: seq<Part<T>>)
    ensures |r| == |xs|
    ensures forall i :: 0 <= i < |xs| ==> r[i] == Item(xs[i])
  {
    seq(|xs|, i requires 0 <= i < |xs| => Item(xs[i]))
  }

  /** A variadic `[T]...` argument list: one `Items` per array. */
  function Arrays<T>(xss: seq<seq<T>>): (r: seq<Part<T>>)
    ensures |r| == |xss|
    ensures forall i :: 0 <= i < |xss| ==> r[i] == Items(xss[i])
  {
    seq(|xss|, i requires 0 <= i < |xss| => Items(xss[i]))
  }

  // ---------------------------------------------------------------------------
  // Properties of the reference definition

  /** Flattening distributes over concatenation of argument lists. */
  lemma {:induction false} FlattenAppend<T>(p: seq<Part<T>>, q: seq<Part<T>>)
    ensures Flatten(p + q) == Flatten(p) + Flatten(q)
    decreases |p|
  {
    if p == [] {
      assert p + q == q;
    } else {
      assert (p + q)[1..] == p[1..] + q;
      FlattenAppend(p[1..], q);
    }
  }

  /** The result length is the sum of the argument sizes, single items counting as 1. */
  lemma {:induction false} FlattenLength<T>(parts: seq<Part<T>>)
    ensures |Flatten(parts)| == TotalSize(parts)
    decreases |parts|
  {
    if parts != [] {
      FlattenLength(parts[1..]);
      assert |Elements(parts[0])| == Size(parts[0]);
    }
  }

  /** Element `k` of argument `j` lands at the sum of the earlier argument sizes plus `k`:
      no argument is reordered, dropped or interleaved with another. */
  lemma {:induction false} FlattenPosition<T>(parts: seq<Part<T>>, j: nat, k: nat)
    requires j < |parts| && k < Size(parts[j])
    ensures TotalSize(parts[..j]) + k < |Flatten(parts)|
    ensures Flatten(parts)[TotalSize(parts[..j]) + k] == Elements(parts[j])[k]
  {
    assert parts == parts[..j] + parts[j..];
    FlattenAppend(parts[..j], parts[j..]);
    FlattenLength(parts[..j]);
    FlattenLength(parts[j..]);
    assert parts[j..][1..] == parts[j + 1..];
    assert |Elements(parts[j])| == Size(parts[j]);
  }

  /** A variadic list of single elements flattens to those elements. */
  lemma {:induction false} FlattenSingles<T>(xs: seq<T>)
    ensures Flatten(Singles(xs)) == xs
    decreases |xs|
  {
    if xs != [] {
      assert Singles(xs)[1..] == Singles(xs[1..]);
      FlattenSingles(xs[1..]);
    }
  }

  /** Fixed arguments followed by a variadic tail of single elements. */
  lemma {:induction false} FlattenWithTrailing<T>(fixed: seq<Part<T>>, trailing: seq<T>)
    ensures Flatten(fixed + Singles(trailing)) == Flatten(fixed) + trailing
  {
    FlattenAppend(fixed, Singles(trailing));
    FlattenSingles(trailing);
  }

  lemma {:induction false} Flatten1<T>(a: Part<T>)
    ensures Flatten([a]) == Elements(a)
  {
    assert [a][1..] == [];
  }

  lemma {:induction false} Flatten2<T>(a: Part<T>, b: Part<T>)
    ensures Flatten([a, b]) == Elements(a) + Elements(b)
  {
    assert [a, b][1..] == [b];
    Flatten1(b);
  }

  lemma {:induction false} Flatten3<T>(a: Part<T>, b: Part<T>, c: Part<T>)
    ensures Flatten([a, b, c]) == Elements(a) + Elements(b) + Elements(c)
  {
    assert [a, b, c][1..] == [b, c];
    Flatten2(b, c);
  }

  lemma {:induction false} Flatten4<T>(a: Part<T>, b: Part<T>, c: Part<T>, d: Part<T>)
    ensures Flatten([a, b, c, d]) == Elements(a) + Elements(b) + Elements(c) + Elements(d)
  {
    assert [a, b, c, d][1..] == [b, c, d];
    Flatten3(b, c, d);
  }

  lemma {:induction false} Flatten5<T>(a: Part<T>, b: Part<T>, c: Part<T>, d: Part<T>, e: Part<T>)
    ensures Flatten([a, b, c, d, e])
         == Elements(a) + Elements(b) + Elements(c) + Elements(d) + Elements(e)
  {
    assert [a, b, c, d, e][1..] == [b, c, d, e];
    Flatten4(b, c, d, e);
  }

  // ---------------------------------------------------------------------------
  // The basic overloads (ArrayBuilder.swift:60-96)

  /** `buildBlock()`: an empty block builds the empty array. */
  function BuildBlockEmpty<T>(): (r: seq<T>)
    ensures r == Flatten<T>([])
    ensures |r| == 0
  {
    []
  }

  /** `buildBlock(_ component: T)`: one element builds a one-element array. */
  function BuildBlockItem<T>(component: T): (r: seq<T>)
    ensures r == Flatten([Item(component)])
    ensures |r| == 1 && r[0] == component
  {
    Flatten1(Item(component));
    [component]
  }

  /** `buildBlock(_ components: T...)`. */
  function BuildBlockItems<T>(components: seq<T>): (r: seq<T>)
    ensures r == Flatten(Singles(components))
    ensures |r| == |components|
  {
    FlattenSingles(components);
    components
  }

  /** `buildBlock(_ components: [T])`. */
  function BuildBlockArray<T>(components: seq<T>): (r: seq<T>)
    ensures r == Flatten([Items(components)])
    ensures |r| == |components|
  {
    Flatten1(Items(components));
    components
  }

  /** `buildBlock(_ components: [T]...)`: `components.flatMap { $0 }`. */
  function BuildBlockArrays<T>(components: seq<seq<T>>): (r: seq<T>)
    ensures r == Flatten(Arrays(components))
  {
    if components == [] then []
    else
      assert Arrays(components)[1..] == Arrays(components[1..]);
      components[0] + BuildBlockArrays(components[1..])
  }

  /** `buildArray`: returns its argument unchanged. */
  function BuildArray<T>(components: seq<T>): (r: seq<T>)
    ensures r == Flatten([Items(components)])
  {
    Flatten1(Items(components));
    components
  }

  /** `buildOptional`: an `if` without `else` contributes nothing when not taken. */
  function BuildOptional<T>(component: Option<seq<T>>): (r: seq<T>)
    ensures component.None? ==> r == []
    ensures component.Some? ==> r == component.value
  {
    component.GetOr([])
  }

  /** `buildEither(first:)`: the taken branch of an `if`/`else` or `switch`. */
  function BuildEitherFirst<T>(component: seq<T>): (r: seq<T>)
    ensures r == Flatten([Items(component)])
  {
    Flatten1(Items(component));
    component
  }

  /** `buildEither(second:)`. */
  function BuildEitherSecond<T>(component: seq<T>): (r: seq<T>)
    ensures r == Flatten([Items(component)])
  {
    Flatten1(Items(component));
    component
  }

  // ---------------------------------------------------------------------------
  // The mixed overloads (ArrayBuilder.swift:100-235)
  //
  // Named by their argument shape: `I` is a single element, `A` an array, and the
  // final `T` the variadic `trailing: T...`.

  /** `buildBlock` at ArrayBuilder.swift:100. */
  function BuildBlockAT<T>(components: seq<T>, trailing: seq<T>): (r: seq<T>)
    ensures r == Flatten([Items(components)] + Singles(trailing))
    ensures |r| == |components| + |trailing|
  {
    FlattenWithTrailing([Items(components)], trailing);
    Flatten1(Items(components));
    components + trailing
  }

  /** `buildBlock` at ArrayBuilder.swift:107. */
  function BuildBlockIAT<T>(component1: T, components: seq<T>, trailing: seq<T>): (r: seq<T>)
    ensures r == Flatten([Item(component1), Items(components)] + Singles(trailing))
    ensures |r| == 1 + |components| + |trailing|
  {
    FlattenWithTrailing([Item(component1), Items(components)], trailing);
    Flatten2(Item(component1), Items(components));
    [component1] + components + trailing
  }

  /** `buildBlock` at ArrayBuilder.swift:115. */
  function BuildBlockIIAT<T>(component1: T, component2: T, components: seq<T>, trailing: seq<T>): (r: seq<T>)
    ensures r == Flatten([Item(component1), Item(component2), Items(components)] + Singles(trailing))
    ensures |r| == 1 + 1 + |components| + |trailing|
  {
    FlattenWithTrailing([Item(component1), Item(component2), Items(components)], trailing);
    Flatten3(Item(component1), Item(component2), Items(components));
    [component1, component2] + components + trailing
  }

  /** `buildBlock` at ArrayBuilder.swift:124. */
  function BuildBlockIIIAT<T>(component1: T, component2: T, component3: T, components: seq<T>, trailing: seq<T>): (r: seq<T>)
    ensures r == Flatten([Item(component1), Item(component2), Item(component3), Items(components)] + Singles(trailing))
    ensures |r| == 1 + 1 + 1 + |components| + |trailing|
  {
    FlattenWithTrailing([Item(component1), Item(component2), Item(component3), Items(components)], trailing);
    Flatten4(Item(component1), Item(component2), Item(component3), Items(components));
    [component1, component2, component3] + components + trailing
  }

  /** `buildBlock` at ArrayBuilder.swift:136. */
  function BuildBlockAAIT<T>(items1: seq<T>, items2: seq<T>, component: T, trailing: seq<T>): (r: seq<T>)
    ensures r == Flatten([Items(items1), Items(items2), Item(component)] + Singles(trailing))
    ensures |r| == |items1| + |items2| + 1 + |trailing|
  {
    FlattenWithTrailing([Items(items1), Items(items2), Item(component)], trailing);
    Flatten3(Items(items1), Items(items2), Item(component));
    items1 + items2 + [component] + trailing
  }

  /** `buildBlock` at ArrayBuilder.swift:145. */
  function BuildBlockAIAT<T>(items1: seq<T>, component: T, items2: seq<T>, trailing: seq<T>): (r: seq<T>)
    ensures r == Flatten([Items(items1), Item(component), Items(items2)] + Singles(trailing))
    ensures |r| == |items1| + 1 + |items2| + |trailing|
  {
    FlattenWithTrailing([Items(items1), Item(component), Items(items2)], trailing);
    Flatten3(Items(items1), Item(component), Items(items2));
    items1 + [component] + items2 + trailing
  }

  /** `buildBlock` at ArrayBuilder.swift:154. */
  function BuildBlockIAAT<T>(component: T, items1: seq<T>, items2: seq<T>, trailing: seq<T>): (r: seq<T>)
    ensures r == Flatten([Item(component), Items(items1), Items(items2)] + Singles(trailing))
    ensures |r| == 1 + |items1| + |items2| + |trailing|
  {
    FlattenWithTrailing([Item(component), Items(items1), Items(items2)], trailing);
    Flatten3(Item(component), Items(items1), Items(items2));
    [component] + items1 + items2 + trailing
  }

  /** `buildBlock` at ArrayBuilder.swift:163. */
  function BuildBlockAIIAT<T>(items1: seq<T>, component1: T, component2: T, items2: seq<T>, trailing: seq<T>): (r: seq<T>)
    ensures r == Flatten([Items(items1), Item(component1), Item(component2), Items(items2)] + Singles(trailing))
    ensures |r| == |items1| + 1 + 1 + |items2| + |trailing|
  {
    FlattenWithTrailing([Items(items1), Item(component1), Item(component2), Items(items2)], trailing);
    Flatten4(Items(items1), Item(component1), Item(component2), Items(items2));
    items1 + [component1, component2] + items2 + trailing
  }

  /** `buildBlock` at ArrayBuilder.swift:173. */
  function BuildBlockIAIAT<T>(component1: T, items1: seq<T>, component2: T, items2: seq<T>, trailing: seq<T>): (r: seq<T>)
    ensures r == Flatten([Item(component1), Items(items1), Item(component2), Items(items2)] + Singles(trailing))
    ensures |r| == 1 + |items1| + 1 + |items2| + |trailing|
  {
    FlattenWithTrailing([Item(component1), Items(items1), Item(component2), Items(items2)], trailing);
    Flatten4(Item(component1), Items(items1), Item(component2), Items(items2));
    [component1] + items1 + [component2] + items2 + trailing
  }

  /** `buildBlock` at ArrayBuilder.swift:183. */
  function BuildBlockIIAAT<T>(component1: T, component2: T, items1: seq<T>, items2: seq<T>, trailing: seq<T>): (r: seq<T>)
    ensures r == Flatten([Item(component1), Item(component2), Items(items1), Items(items2)] + Singles(trailing))
    ensures |r| == 1 + 1 + |items1| + |items2| + |trailing|
  {
    FlattenWithTrailing([Item(component1), Item(component2), Items(items1), Items(items2)], trailing);
    Flatten4(Item(component1), Item(component2), Items(items1), Items(items2));
    [component1, component2] + items1 + items2 + trailing
  }

  /** `buildBlock` at ArrayBuilder.swift:193. */
  function BuildBlockAIIIAT<T>(items1: seq<T>, component1: T, component2: T, component3: T, items2: seq<T>, trailing: seq<T>): (r: seq<T>)
    ensures r == Flatten([Items(items1), Item(component1), Item(component2), Item(component3), Items(items2)] + Singles(trailing))
    ensures |r| == |items1| + 1 + 1 + 1 + |items2| + |trailing|
  {
    FlattenWithTrailing([Items(items1), Item(component1), Item(component2), Item(component3), Items(items2)], trailing);
    Flatten5(Items(items1), Item(component1), Item(component2), Item(component3), Items(items2));
    items1 + [component1, component2, component3] + items2 + trailing
  }

  /** `buildBlock` at ArrayBuilder.swift:204. */
  function BuildBlockIAIIAT<T>(component1: T, items1: seq<T>, component2: T, component3: T, items2: seq<T>, trailing: seq<T>): (r: seq<T>)
    ensures r == Flatten([Item(component1), Items(items1), Item(component2), Item(component3), Items(items2)] + Singles(trailing))
    ensures |r| == 1 + |items1| + 1 + 1 + |items2| + |trailing|
  {
    FlattenWithTrailing([Item(component1), Items(items1), Item(component2), Item(component3), Items(items2)], trailing);
    Flatten5(Item(component1), Items(items1), Item(component2), Item(component3), Items(items2));
    [component1] + items1 + [component2, component3] + items2 + trailing
  }

  /** `buildBlock` at ArrayBuilder.swift:215. */
  function BuildBlockIIAIAT<T>(component1: T, component2: T, items1: seq<T>, component3: T, items2: seq<T>, trailing: seq<T>): (r: seq<T>)
    ensures r == Flatten([Item(component1), Item(component2), Items(items1), Item(component3), Items(items2)] + Singles(trailing))
    ensures |r| == 1 + 1 + |items1| + 1 + |items2| + |trailing|
  {
    FlattenWithTrailing([Item(component1), Item(component2), Items(items1), Item(component3), Items(items2)], trailing);
    Flatten5(Item(component1), Item(component2), Items(items1), Item(component3), Items(items2));
    [component1, component2] + items1 + [component3] + items2 + trailing
  }

  /** `buildBlock` at ArrayBuilder.swift:226. */
  function BuildBlockIIIAAT<T>(component1: T, component2: T, component3: T, items1: seq<T>, items2: seq<T>, trailing: seq<T>): (r: seq<T>)
    ensures r == Flatten([Item(component1), Item(component2), Item(component3), Items(items1), Items(items2)] + Singles(trailing))
    ensures |r| == 1 + 1 + 1 + |items1| + |items2| + |trailing|
  {
    FlattenWithTrailing([Item(component1), Item(component2), Item(component3), Items(items1), Items(items2)], trailing);
    Flatten5(Item(component1), Item(component2), Item(component3), Items(items1), Items(items2));
    [component1, component2, component3] + items1 + items2 + trailing
  }

  // ---------------------------------------------------------------------------
  // Uses from the test case (Tests/ArrayBuilderTestCase.swift)

  /** Two elements followed by an array: `["Foo", "Bar", "Bar", "Boo"]`, four elements. */
  lemma {:induction false} OthersExample()
    ensures BuildBlockIIAT("Foo", "Bar", ["Bar", "Boo"], []) == ["Foo", "Bar", "Bar", "Boo"]
  {
  }

  /** Three elements and an `if`: three elements when the condition is false and four when it is true. */
  lemma {:induction false} ConditionalExample()
    ensures |BuildBlockIIIAT("Foo", "Bar", "Baz", BuildOptional(None), [])| == 3
    ensures |BuildBlockIIIAT("Foo", "Bar", "Baz", BuildOptional(Some(BuildBlockItem("Baz2"))), [])| == 4
  {
  }

  /** The `.c` branch of the nested `switch`: two elements, an intermediate array, an
      `if` holding an array and a final element flatten in source order. */
  lemma {:induction false} NestedExample()
    ensures BuildEitherSecond(BuildBlockIIAAT("One", "Two", ["Intermediate", "Array"],
              BuildOptional(Some(BuildBlockArray(["With", "Condition"]))), ["Three"]))
         == ["One", "Two", "Intermediate", "Array", "With", "Condition", "Three"]
  {
  }

  // ---------------------------------------------------------------------------
  // The `Array` extensions (ArrayBuilder.swift:238-261)

  /** A Swift array variable on which the builder extensions are called. */
  class ElementArray<T> {
    var elements: seq<T>

    constructor (elements: seq<T>)
      ensures this.elements == elements
    {
      this.elements := elements;
    }

    /** `build`: the array becomes the builder's result; its old contents are dropped. */
    method Build(items: seq<T>)
      modifies this
      ensures elements == items
    {
      elements := items;
    }

    /** `building`: the builder's result, whatever the receiver holds. */
    function Building(items: seq<T>): (r: seq<T>)
      ensures |r| == |items| && forall i :: 0 <= i < |items| ==> r[i] == items[i]
    {
      items
    }

    /** `append(builder:)`: the old contents stay as a prefix and the new items follow. */
    method Append(items: seq<T>)
      modifies this
      ensures elements == old(elements) + items
      ensures |elements| == |old(elements)| + |items|
      ensures elements[..|old(elements)|] == old(elements)
      ensures elements[|old(elements)|..] == items
    {
      elements := elements + items;
    }

    /** `appending`: a copy of the receiver with the items appended; the receiver is untouched. */
    method Appending(items: seq<T>) returns (result: seq<T>)
      ensures |result| == |elements| + |items|
      ensures result[..|elements|] == elements
      ensures result[|elements|..] == items
    {
      result := elements;
      result := result + items;
    }
  }

  /** `ViewModel.update` of the test case: rebuilds its widgets as `"A"`, `"B"`, `"C"`. */
  method UpdateWidgets(widgets: ElementArray<string>)
    modifies widgets
    ensures widgets.elements == ["A", "B", "C"]
  {
    widgets.Build(BuildBlockItems(["A", "B", "C"]));
  }
}

/**
 * The tolerant, path-tracked object parser. A parser wraps one value of an
 * untyped tree together with the stack of property names and array indices
 * that led to it; every shape problem becomes an `ErrorThing` carrying that
 * stack, and nothing ever fails.
 *
 * The source passes callbacks and an `onError` sink. Here each operation
 * instead returns what its callback would have been given (in the order it
 * would have been called) and the errors it would have sent to the sink; the
 * caller runs the callback's body itself and appends the errors to its own
 * error sequence.
 */
module ObjectParser {
  import opened Wrappers
  import opened Js

  /** An error found while parsing: where it was found and what is wrong. */
  datatype ErrorThing = ErrorThing(stack: seq<string>, message: string)

  const NotObjectMessage: string := "Property is not a non-array object."
  const NotArrayMessage: string := "Property is not an array."

  function NotFoundMessage(key: string): string {
    "Property \"" + key + "\" was not found."
  }

  /** Different keys give different "not found" messages. */
  lemma NotFoundMessageInjective(a: string, b: string)
    ensures NotFoundMessage(a) == NotFoundMessage(b) ==> a == b
  {
    if NotFoundMessage(a) == NotFoundMessage(b) {
      var m := NotFoundMessage(a);
      assert |a| == |b|;
      assert a == m[10..10 + |a|];
      assert b == NotFoundMessage(b)[10..10 + |b|];
    }
  }

  /** `ErrorThing.toString`: the message, then the pretty-printed stack. */
  function ErrorText(e: ErrorThing): (r: string)
    ensures e.message <= r
    ensures r[|e.message|..] == " (stack: \"" + StackToString(e.stack) + "\")"
  {
    e.message + " (stack: \"" + StackToString(e.stack) + "\")"
  }

  /**
   * Two errors at the same place have the same text exactly when they have
   * the same message: the text loses nothing of the message.
   */
  lemma ErrorTextKeepsMessage(stack: seq<string>, m1: string, m2: string)
    ensures ErrorText(ErrorThing(stack, m1)) == ErrorText(ErrorThing(stack, m2)) <==> m1 == m2
  {
    var t1, t2 := ErrorText(ErrorThing(stack, m1)), ErrorText(ErrorThing(stack, m2));
    if t1 == t2 {
      var suffix := " (stack: \"" + StackToString(stack) + "\")";
      assert t1 == m1 + suffix && t2 == m2 + suffix;
      assert |m1| == |m2|;
      assert m1 == t1[..|m1|];
      assert m2 == t2[..|m2|];
    }
  }

  /** An `ObjectParserProp`: the value being looked at and the path to it. */
  datatype Parser = Parser(property: Json, stack: seq<string>)

  /** The `ObjectParser` constructor: the root of the tree, with an empty path. */
  function NewParser(input: Json): (p: Parser)
    ensures p.property == input && p.stack == []
    ensures StackToString(p.stack) == ""
  {
    Parser(input, [])
  }

  /** `createStack`: a copy of `stack` with `segment` added at the end. */
  function CreateStack(stack: seq<string>, segment: string): (r: seq<string>)
    ensures |r| == |stack| + 1
    ensures r[..|stack|] == stack && r[|stack|] == segment
  {
    stack + [segment]
  }

  // ---- Pretty-printing a stack ----

  /**
   * The test `isArrayIndex` makes: `parseInt(index) + ''` gives `index`
   * back, and `index` is not `'NaN'`. (NaN prints as `'NaN'`.)
   */
  predicate ParseIntRoundTrips(index: string) {
    (match ParseInt(index)
     case None => "NaN"
     case Some(i) => IntToString(i)) == index
    && index != "NaN"
  }

  /** `isArrayIndex`: holds exactly of the canonical decimal forms of integers. */
  predicate IsArrayIndex(index: string)
    ensures IsArrayIndex(index) <==> IsCanonicalInt(index)
  {
    RoundTripIsCanonical(index);
    ParseIntRoundTrips(index)
  }

  /** How one segment after the first is printed. */
  function SegmentText(segment: string): string {
    if IsArrayIndex(segment) then "[" + segment + "]" else "." + segment
  }

  /** The callback of `stack.reduce`, folded from the left. */
  function ReduceSegments(acc: string, rest: seq<string>): string
    decreases |rest|
  {
    if |rest| == 0 then acc else ReduceSegments(acc + SegmentText(rest[0]), rest[1..])
  }

  /**
   * `stackToString`: `''` for an empty stack, else `reduce` without a seed.
   * A single segment prints as itself, and each later segment adds its own
   * text to the print of the segments before it.
   */
  function StackToString(stack: seq<string>): (r: string)
    ensures |stack| == 1 ==> r == stack[0]
    ensures |stack| > 1 ==> r == StackToString(stack[..|stack| - 1]) + SegmentText(stack[|stack| - 1])
    decreases |stack|
  {
    if |stack| == 0 then ""
    else
      assert |stack| > 1 ==>
        ReduceSegments(stack[0], stack[1..]) == StackToString(stack[..|stack| - 1]) + SegmentText(stack[|stack| - 1]) by {
        if |stack| > 1 {
          var init := stack[..|stack| - 1];
          assert init[0] == stack[0];
          assert stack[1..] == init[1..] + [stack[|stack| - 1]];
          ReduceSegmentsAppend(stack[0], init[1..], stack[|stack| - 1]);
        }
      }
      ReduceSegments(stack[0], stack[1..])
  }

  lemma {:induction false} ReduceSegmentsAppend(acc: string, rest: seq<string>, last: string)
    ensures ReduceSegments(acc, rest + [last]) == ReduceSegments(acc, rest) + SegmentText(last)
    decreases |rest|
  {
    if |rest| == 0 {
      assert rest + [last] == [last];
      assert ([last])[1..] == [];
    } else {
      assert (rest + [last])[0] == rest[0];
      assert (rest + [last])[1..] == rest[1..] + [last];
      ReduceSegmentsAppend(acc + SegmentText(rest[0]), rest[1..], last);
    }
  }

  /**
   * Printing a longer stack adds exactly the text of its last segment:
   * `[s]` for an array index, `.s` for anything else.
   */
  lemma StackToStringAppend(stack: seq<string>, segment: string)
    requires |stack| > 0
    ensures StackToString(stack + [segment]) == StackToString(stack) + SegmentText(segment)
  {
    assert (stack + [segment])[..|stack|] == stack;
  }

  lemma StackToStringExample()
    ensures StackToString(["games", "3", "title"]) == "games[3].title"
  {
    assert IsArrayIndex("3");
    assert !IsArrayIndex("title");
    assert StackToString(["games", "3", "title"]) == ReduceSegments("games", ["3", "title"]);
  }

  /** The round trip of `isArrayIndex` succeeds exactly on canonical integer numerals. */
  lemma RoundTripIsCanonical(s: string)
    ensures ParseIntRoundTrips(s) <==> IsCanonicalInt(s)
  {
    if ParseIntRoundTrips(s) {
      ArrayIndexIsCanonical(s);
    }
    if IsCanonicalNat(s) {
      CanonicalNatIsArrayIndex(s);
    } else if IsCanonicalInt(s) {
      CanonicalNegativeIsArrayIndex(s);
    }
  }

  lemma ArrayIndexIsCanonical(s: string)
    requires ParseIntRoundTrips(s)
    ensures IsCanonicalInt(s)
  {
    var i := ParseInt(s).value;
    assert IntToString(i) == s;
    if i < 0 {
      NatToStringIsCanonical(-i);
      assert s[1..] == NatToString(-i);
    } else {
      NatToStringIsCanonical(i);
    }
  }

  lemma CanonicalNatIsArrayIndex(s: string)
    requires IsCanonicalNat(s)
    ensures ParseIntRoundTrips(s)
  {
    assert TrimStart(s) == s;
    LeadingDigitsOfDigits(s);
    CanonicalNatRoundTrip(s);
    assert ParseInt(s) == Some(DigitsValue(s));
  }

  lemma CanonicalNegativeIsArrayIndex(s: string)
    requires |s| >= 2 && s[0] == '-' && IsCanonicalNat(s[1..]) && s[1..] != "0"
    ensures ParseIntRoundTrips(s)
  {
    var u := s[1..];
    assert TrimStart(s) == s;
    LeadingDigitsOfDigits(u);
    CanonicalNatRoundTrip(u);
    DigitsValuePositive(u);
    var v: int := DigitsValue(u);
    assert ParseInt(s) == Some(-v);
    assert IntToString(-v) == "-" + u;
    assert s == "-" + u;
  }

  lemma IsArrayIndexExamples()
    ensures IsArrayIndex("3") && IsArrayIndex("-1") && IsArrayIndex("0")
  {
  }

  lemma IsArrayIndexCounterexamples()
    ensures !IsArrayIndex("03") && !IsArrayIndex("3a") && !IsArrayIndex("-0")
    ensures !IsArrayIndex("NaN") && !IsArrayIndex("") && !IsArrayIndex(" 3")
  {
  }

  /** The path segment of array element `i` prints as an index. */
  lemma ElementSegmentIsIndex(i: nat)
    ensures IsArrayIndex(NatToString(i))
    ensures SegmentText(NatToString(i)) == "[" + NatToString(i) + "]"
  {
    NatToStringIsCanonical(i);
  }

  // ---- prop ----

  /**
   * What `prop(key, func, optional)` does: `found` is the value `func` is
   * called with (`None` when it is not called), `child` the returned parser,
   * `errors` what reaches the sink.
   */
  datatype PropResult = PropResult(found: Option<Json>, child: Parser, errors: seq<ErrorThing>)

  /** The receiver is neither null nor undefined and owns `key`. */
  predicate Owns(p: Parser, key: string) {
    p.property != JNull && p.property != JUndefined && HasOwnProperty(p.property, key)
  }

  /** `this._property && this._property[key]` */
  function ChildValue(v: Json, key: string): Json {
    if Truthy(v) then Member(v, key) else v
  }

  function Prop(p: Parser, key: string, optional: bool): (r: PropResult)
    ensures r.found.Some? <==> Owns(p, key)
    ensures r.found.Some? ==> r.found.value == Member(p.property, key) && r.errors == []
    ensures r.found.None? && optional ==> r.errors == []
    ensures r.found.None? && !optional ==> r.errors == [ErrorThing(p.stack, NotFoundMessage(key))]
    ensures r.child.stack == p.stack + [key]
    ensures r.child.property == ChildValue(p.property, key)
  {
    var owns := Owns(p, key);
    var errors := if !owns && !optional then [ErrorThing(p.stack, NotFoundMessage(key))] else [];
    var child := Parser(ChildValue(p.property, key), CreateStack(p.stack, key));
    PropResult(if owns then Some(Member(p.property, key)) else None, child, errors)
  }

  /** A null or undefined receiver has no properties at all. */
  lemma PropOnNullish(p: Parser, key: string, optional: bool)
    requires p.property == JNull || p.property == JUndefined
    ensures Prop(p, key, optional).found.None?
    ensures |Prop(p, key, optional).errors| == (if optional then 0 else 1)
    ensures Prop(p, key, optional).child.property == p.property
  {
  }

  /** A field of an object (its first occurrence) is found with its own value. */
  lemma PropOfField(fs: seq<(string, Json)>, k: nat, stack: seq<string>, optional: bool)
    requires k < |fs|
    requires forall i :: 0 <= i < k ==> fs[i].0 != fs[k].0
    ensures Prop(Parser(JObj(fs), stack), fs[k].0, optional).found == Some(fs[k].1)
    ensures Prop(Parser(JObj(fs), stack), fs[k].0, optional).errors == []
    ensures Prop(Parser(JObj(fs), stack), fs[k].0, optional).child == Parser(fs[k].1, stack + [fs[k].0])
  {
    OwnFieldIsMember(fs, k);
  }

  // ---- map, mapRaw, array, arrayRaw ----

  /** The one error `array`/`arrayRaw` report on a value that is not an array. */
  function ArrayErrors(p: Parser): seq<ErrorThing> {
    if p.property.JArr? then [] else [ErrorThing(p.stack, NotArrayMessage)]
  }

  /** The one error `map`/`mapRaw` report on null, an array or a scalar. */
  function MapErrors(p: Parser): seq<ErrorThing> {
    if p.property.JObj? then [] else [ErrorThing(p.stack, NotObjectMessage)]
  }

  /** The parsers `array` hands to its callback, index 0 first. */
  function ElementParsers(p: Parser): seq<Parser> {
    match p.property
    case JArr(xs) => seq(|xs|, i requires 0 <= i < |xs| => Parser(xs[i], CreateStack(p.stack, NatToString(i))))
    case _ => []
  }

  /**
   * What a callback passed to `array` leaves behind when it is run on each
   * element parser in turn and yields one value per element: the values in
   * order, and the errors it reported, in order.
   */
  function Collect<T>(items: seq<Parser>, f: Parser -> (T, seq<ErrorThing>)): (seq<T>, seq<ErrorThing>)
    decreases |items|
  {
    if |items| == 0 then ([], [])
    else
      var init := Collect(items[..|items| - 1], f);
      var last := f(items[|items| - 1]);
      (init.0 + [last.0], init.1 + last.1)
  }

  /** One value per element parser, each the callback's value for that element. */
  lemma {:induction false} CollectInOrder<T>(items: seq<Parser>, f: Parser -> (T, seq<ErrorThing>))
    ensures |Collect(items, f).0| == |items|
    ensures forall i :: 0 <= i < |items| ==> Collect(items, f).0[i] == f(items[i]).0
    decreases |items|
  {
    if |items| > 0 {
      CollectInOrder(items[..|items| - 1], f);
    }
  }

  /** The errors collected are exactly those the callback reported for some element. */
  lemma {:induction false} CollectErrors<T>(items: seq<Parser>, f: Parser -> (T, seq<ErrorThing>), e: ErrorThing)
    ensures e in Collect(items, f).1 <==> exists i :: 0 <= i < |items| && e in f(items[i]).1
    decreases |items|
  {
    if |items| > 0 {
      var init := items[..|items| - 1];
      CollectErrors(init, f, e);
      if e in Collect(init, f).1 {
        var i :| 0 <= i < |init| && e in f(init[i]).1;
        assert items[i] == init[i];
      }
      if exists i :: 0 <= i < |items| && e in f(items[i]).1 {
        var i :| 0 <= i < |items| && e in f(items[i]).1;
        if i < |init| {
          assert items[i] == init[i];
        }
      }
    }
  }

  /** `array(func)`: one child parser per element, in index order. */
  method Array(p: Parser) returns (items: seq<Parser>, errors: seq<ErrorThing>)
    ensures items == ElementParsers(p) && errors == ArrayErrors(p)
    ensures p.property.JArr? ==> errors == [] && |items| == |p.property.items|
    ensures p.property.JArr? ==> forall i :: 0 <= i < |items| ==>
      items[i].property == p.property.items[i] && items[i].stack == p.stack + [NatToString(i)]
    ensures !p.property.JArr? ==> items == [] && errors == [ErrorThing(p.stack, NotArrayMessage)]
  {
    items := [];
    errors := [];
    if p.property.JArr? {
      var xs := p.property.items;
      var i := 0;
      while i < |xs|
        invariant 0 <= i <= |xs|
        invariant |items| == i
        invariant forall k :: 0 <= k < i ==> items[k] == Parser(xs[k], p.stack + [NatToString(k)])
      {
        items := items + [Parser(xs[i], CreateStack(p.stack, NatToString(i)))];
        i := i + 1;
      }
    } else {
      errors := errors + [ErrorThing(p.stack, NotArrayMessage)];
    }
  }

  /** The raw values `arrayRaw` hands to its callback, index 0 first. */
  function RawElements(p: Parser): seq<Json> {
    match p.property
    case JArr(xs) => xs
    case _ => []
  }

  /** `arrayRaw(func)`: the raw elements, in index order. */
  method ArrayRaw(p: Parser) returns (items: seq<Json>, errors: seq<ErrorThing>)
    ensures items == RawElements(p) && errors == ArrayErrors(p)
    ensures p.property.JArr? ==> items == p.property.items
    ensures !p.property.JArr? ==> items == [] && errors == [ErrorThing(p.stack, NotArrayMessage)]
  {
    items := [];
    errors := [];
    if p.property.JArr? {
      var xs := p.property.items;
      var i := 0;
      while i < |xs|
        invariant 0 <= i <= |xs|
        invariant items == xs[..i]
      {
        items := items + [xs[i]];
        i := i + 1;
      }
      assert xs[..|xs|] == xs;
    } else {
      errors := errors + [ErrorThing(p.stack, NotArrayMessage)];
    }
  }

  /** `map(func)`: each property name with a child parser, in `for...in` order. */
  method Map(p: Parser) returns (items: seq<(string, Parser)>, errors: seq<ErrorThing>)
    ensures errors == MapErrors(p)
    ensures p.property.JObj? ==> |items| == |p.property.fields| && forall i :: 0 <= i < |items| ==>
      items[i].0 == p.property.fields[i].0
      && items[i].1 == Parser(p.property.fields[i].1, p.stack + [p.property.fields[i].0])
    ensures !p.property.JObj? ==> items == [] && errors == [ErrorThing(p.stack, NotObjectMessage)]
  {
    items := [];
    errors := [];
    if p.property.JObj? {
      var fs := p.property.fields;
      var i := 0;
      while i < |fs|
        invariant 0 <= i <= |fs|
        invariant |items| == i
        invariant forall k :: 0 <= k < i ==> items[k] == (fs[k].0, Parser(fs[k].1, p.stack + [fs[k].0]))
      {
        var key := fs[i].0;
        items := items + [(key, Parser(fs[i].1, CreateStack(p.stack, key)))];
        i := i + 1;
      }
    } else {
      errors := errors + [ErrorThing(p.stack, NotObjectMessage)];
    }
  }

  /** `mapRaw(func)`: each property value with its name, in `for...in` order. */
  method MapRaw(p: Parser) returns (items: seq<(Json, string)>, errors: seq<ErrorThing>)
    ensures errors == MapErrors(p)
    ensures p.property.JObj? ==> |items| == |p.property.fields| && forall i :: 0 <= i < |items| ==>
      items[i] == (p.property.fields[i].1, p.property.fields[i].0)
    ensures !p.property.JObj? ==> items == [] && errors == [ErrorThing(p.stack, NotObjectMessage)]
  {
    items := [];
    errors := [];
    if p.property.JObj? {
      var fs := p.property.fields;
      var i := 0;
      while i < |fs|
        invariant 0 <= i <= |fs|
        invariant |items| == i
        invariant forall k :: 0 <= k < i ==> items[k] == (fs[k].1, fs[k].0)
      {
        items := items + [(fs[i].1, fs[i].0)];
        i := i + 1;
      }
    } else {
      errors := errors + [ErrorThing(p.stack, NotObjectMessage)];
    }
  }
}

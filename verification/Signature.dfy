/**
  JNI type and method descriptors (src/signature.rs): a cursor parser, a recursive printer, and the
  proof that each undoes the other.  Descriptors are byte sequences, one `char` per byte; the grammar
  is that of sections 4.3.2 and 4.3.3 of the Java Virtual Machine Specification.
*/
module Signature {
  import opened Wrappers

  datatype JavaType =
    | Boolean | Byte | Char | Short | Int | Long | Float | Double | Void
    | Object(name: string)
    | Array(element: JavaType)
  {
    predicate IsReference() { Object? || Array? }
  }

  datatype MethodSignature = MethodSignature(arguments: seq<JavaType>, returnType: JavaType)

  datatype Message =
    | ExpectedType | VoidNotValid | VoidArrayElement | UnknownType
    | MissingClassName | MissingSemicolon | UnexpectedCharacter | MissingParenthesis | Trailing

  datatype SignatureError = InvalidSignature(offset: nat, message: Message)

  /** An answer and where it left the cursor. */
  datatype Step<+T> = Step(result: Result<T, SignatureError>, offset: nat)

  // ---------------------------------------------------------------------------
  // The printer

  function Descriptor(t: JavaType): string {
    match t
    case Boolean => "Z"
    case Byte => "B"
    case Char => "C"
    case Short => "S"
    case Int => "I"
    case Long => "J"
    case Float => "F"
    case Double => "D"
    case Void => "V"
    case Object(name) => "L" + name + ";"
    case Array(element) => "[" + Descriptor(element)
  }

  function Descriptors(ts: seq<JavaType>): string {
    if ts == [] then "" else Descriptor(ts[0]) + Descriptors(ts[1..])
  }

  function SignatureDescriptor(m: MethodSignature): string {
    "(" + Descriptors(m.arguments) + ")" + Descriptor(m.returnType)
  }

  /** The types that have a descriptor of their own; `void` only where a return type may stand. */
  predicate WellFormed(t: JavaType, allowVoid: bool) {
    match t
    case Void => allowVoid
    case Object(name) => name != "" && ';' !in name
    case Array(element) => WellFormed(element, false)
    case _ => true
  }

  predicate WellFormedSignature(m: MethodSignature) {
    (forall t <- m.arguments :: WellFormed(t, false)) && WellFormed(m.returnType, true)
  }

  // ---------------------------------------------------------------------------
  // What the cursor parser computes

  function Primitive(c: char): Option<JavaType> {
    match c
    case 'Z' => Some(Boolean)
    case 'B' => Some(Byte)
    case 'C' => Some(Char)
    case 'S' => Some(Short)
    case 'I' => Some(Int)
    case 'J' => Some(Long)
    case 'F' => Some(Float)
    case 'D' => Some(Double)
    case _ => None
  }

  function ObjectAt(s: string, start: nat, offset: nat): (r: Step<JavaType>)
    requires start <= offset <= |s|
    ensures offset <= r.offset <= |s|
    decreases |s| - offset
  {
    if offset == |s| then Step(Err(InvalidSignature(offset, MissingSemicolon)), offset)
    else if s[offset] == ';' then
      if offset == start then Step(Err(InvalidSignature(offset + 1, MissingClassName)), offset + 1)
      else Step(Ok(Object(s[start..offset])), offset + 1)
    else ObjectAt(s, start, offset + 1)
  }

  /** One type read from `offset`; the cursor never passes the end of the text. */
  function TypeAt(s: string, offset: nat, allowVoid: bool): (r: Step<JavaType>)
    requires offset <= |s|
    ensures offset <= r.offset <= |s|
    ensures r.result.Ok? ==> offset < r.offset
    decreases |s| - offset
  {
    if offset == |s| then Step(Err(InvalidSignature(offset, ExpectedType)), offset) else
    var c := s[offset];
    if Primitive(c).Some? then Step(Ok(Primitive(c).value), offset + 1)
    else if c == 'V' then
      if allowVoid then Step(Ok(Void), offset + 1)
      else Step(Err(InvalidSignature(offset + 1, VoidNotValid)), offset + 1)
    else if c == 'L' then ObjectAt(s, offset + 1, offset + 1)
    else if c == '[' then
      var inner := TypeAt(s, offset + 1, false);
      if inner.result.Err? then inner
      else if inner.result.value.Void? then Step(Err(InvalidSignature(inner.offset, VoidArrayElement)), inner.offset)
      else Step(Ok(Array(inner.result.value)), inner.offset)
    else Step(Err(InvalidSignature(offset + 1, UnknownType)), offset + 1)
  }

  function ParseType(s: string): Result<JavaType, SignatureError> {
    var step := TypeAt(s, 0, false);
    if step.result.Err? || step.offset == |s| then step.result
    else Err(InvalidSignature(step.offset, Trailing))
  }

  function ArgumentsAt(s: string, offset: nat): (r: Step<seq<JavaType>>)
    requires offset <= |s|
    ensures offset <= r.offset <= |s|
    ensures r.result.Ok? ==> r.offset < |s| && s[r.offset] == ')'
    decreases |s| - offset
  {
    if offset == |s| then Step(Err(InvalidSignature(offset, MissingParenthesis)), offset)
    else if s[offset] == ')' then Step(Ok([]), offset)
    else
      var first := TypeAt(s, offset, false);
      if first.result.Err? then Step(Err(first.result.error), first.offset) else
      var rest := ArgumentsAt(s, first.offset);
      if rest.result.Err? then rest
      else Step(Ok([first.result.value] + rest.result.value), rest.offset)
  }

  function ParseSignature(s: string): Result<MethodSignature, SignatureError> {
    if s == "" then Err(InvalidSignature(0, UnexpectedCharacter))
    else if s[0] != '(' then Err(InvalidSignature(1, UnexpectedCharacter))
    else
      var args := ArgumentsAt(s, 1);
      if args.result.Err? then Err(args.result.error) else
      var ret := TypeAt(s, args.offset + 1, true);
      if ret.result.Err? then Err(ret.result.error)
      else if ret.offset != |s| then Err(InvalidSignature(ret.offset, Trailing))
      else Ok(MethodSignature(args.result.value, ret.result.value))
  }

  // ---------------------------------------------------------------------------
  // The cursor parser

  class Parser {
    const descriptor: string
    var offset: nat

    ghost predicate Valid()
      reads this
    {
      offset <= |descriptor|
    }

    constructor (descriptor: string)
      ensures Valid() && this.descriptor == descriptor && offset == 0
    {
      this.descriptor := descriptor;
      offset := 0;
    }

    predicate IsFinished()
      reads this
    {
      offset == |descriptor|
    }

    function Peek(): Option<char>
      reads this
      requires Valid()
    {
      if offset < |descriptor| then Some(descriptor[offset]) else None
    }

    method Next() returns (c: Option<char>)
      requires Valid()
      modifies this
      ensures Valid() && c == old(Peek())
      ensures offset == old(offset) + (if c.Some? then 1 else 0)
    {
      c := Peek();
      if c.Some? {
        offset := offset + 1;
      }
    }

    method Expect(expected: char) returns (r: Result<(), SignatureError>)
      requires Valid()
      modifies this
      ensures Valid() && offset == old(offset) + (if old(IsFinished()) then 0 else 1)
      ensures r == if old(Peek()) == Some(expected) then Ok(()) else Err(InvalidSignature(offset, UnexpectedCharacter))
    {
      var c := Next();
      if c == Some(expected) {
        return Ok(());
      }
      return Err(InvalidSignature(offset, UnexpectedCharacter));
    }

    method ParseObject() returns (r: Result<JavaType, SignatureError>)
      requires Valid()
      modifies this
      ensures Valid() && Step(r, offset) == ObjectAt(descriptor, old(offset), old(offset))
    {
      var start := offset;
      while offset < |descriptor|
        invariant start <= offset && Valid()
        invariant ObjectAt(descriptor, start, offset) == ObjectAt(descriptor, start, start)
        decreases |descriptor| - offset
      {
        if descriptor[offset] == ';' {
          var name := descriptor[start..offset];
          offset := offset + 1;
          if name == "" {
            return Err(InvalidSignature(offset, MissingClassName));
          }
          return Ok(Object(name));
        }
        offset := offset + 1;
      }
      return Err(InvalidSignature(offset, MissingSemicolon));
    }

    method ParseTypeStep(allowVoid: bool) returns (r: Result<JavaType, SignatureError>)
      requires Valid()
      modifies this
      ensures Valid() && Step(r, offset) == TypeAt(descriptor, old(offset), allowVoid)
      decreases |descriptor| - offset
    {
      var c := Next();
      if c.None? {
        return Err(InvalidSignature(offset, ExpectedType));
      }
      if Primitive(c.value).Some? {
        return Ok(Primitive(c.value).value);
      }
      match c.value
      case 'V' =>
        if allowVoid {
          return Ok(Void);
        }
        return Err(InvalidSignature(offset, VoidNotValid));
      case 'L' =>
        r := ParseObject();
      case '[' =>
        r := ParseTypeStep(false);
        if r.Ok? {
          if r.value.Void? {
            return Err(InvalidSignature(offset, VoidArrayElement));
          }
          return Ok(Array(r.value));
        }
      case _ =>
        return Err(InvalidSignature(offset, UnknownType));
    }
  }

  method ParseJavaType(descriptor: string) returns (r: Result<JavaType, SignatureError>)
    ensures r == ParseType(descriptor)
    ensures forall t :: r == Ok(t) <==> WellFormed(t, false) && descriptor == Descriptor(t)
  {
    forall t ensures ParseType(descriptor) == Ok(t) <==> WellFormed(t, false) && descriptor == Descriptor(t) {
      ParseTypeExact(descriptor, t);
    }
    var parser := new Parser(descriptor);
    r := parser.ParseTypeStep(false);
    if r.Ok? && !parser.IsFinished() {
      return Err(InvalidSignature(parser.offset, Trailing));
    }
  }

  method ParseMethodSignature(descriptor: string) returns (r: Result<MethodSignature, SignatureError>)
    ensures r == ParseSignature(descriptor)
    ensures forall m :: r == Ok(m) <==> WellFormedSignature(m) && descriptor == SignatureDescriptor(m)
  {
    hide TypeAt, SignatureDescriptor, WellFormedSignature;
    forall m
      ensures ParseSignature(descriptor) == Ok(m) <==> WellFormedSignature(m) && descriptor == SignatureDescriptor(m)
    {
      ParseSignatureExact(descriptor, m);
    }
    var parser := new Parser(descriptor);
    var open := parser.Expect('(');
    if open.Err? {
      return Err(open.error);
    }
    var arguments := [];
    ghost var all := ArgumentsAt(descriptor, 1);
    assert all == Prepend([], all) by {
      assert all.result.Ok? ==> [] + all.result.value == all.result.value;
    }
    while parser.Peek() != Some(')')
      invariant parser.Valid() && parser.descriptor == descriptor && 1 <= parser.offset
      invariant all == Prepend(arguments, ArgumentsAt(descriptor, parser.offset))
      decreases |descriptor| - parser.offset
    {
      if parser.IsFinished() {
        return Err(InvalidSignature(parser.offset, MissingParenthesis));
      }
      var argument := parser.ParseTypeStep(false);
      if argument.Err? {
        return Err(argument.error);
      }
      PrependStep(arguments, argument.value, ArgumentsAt(descriptor, parser.offset));
      arguments := arguments + [argument.value];
    }
    assert arguments + [] == arguments;
    assert all == Step(Ok(arguments), parser.offset);
    var closed := parser.Expect(')');
    assert closed.Ok?;
    var returnType := parser.ParseTypeStep(true);
    if returnType.Err? {
      return Err(returnType.error);
    }
    if !parser.IsFinished() {
      return Err(InvalidSignature(parser.offset, Trailing));
    }
    return Ok(MethodSignature(arguments, returnType.value));
  }

  ghost function Prepend(done: seq<JavaType>, rest: Step<seq<JavaType>>): Step<seq<JavaType>> {
    if rest.result.Err? then rest else Step(Ok(done + rest.result.value), rest.offset)
  }

  lemma PrependStep(done: seq<JavaType>, t: JavaType, rest: Step<seq<JavaType>>)
    ensures rest.result.Ok? ==>
              Prepend(done, Step(Ok([t] + rest.result.value), rest.offset)) == Prepend(done + [t], rest)
  {
    assert rest.result.Ok? ==> done + ([t] + rest.result.value) == done + [t] + rest.result.value;
  }

  // ---------------------------------------------------------------------------
  // Printing then parsing: whatever suffix follows, the printed type is read back and no more

  lemma {:induction false} ObjectPrinted(s: string, start: nat, offset: nat, name: string)
    requires start <= offset && name != "" && ';' !in name
    requires start + |name| < |s| && s[start..start + |name|] == name && s[start + |name|] == ';'
    requires offset <= start + |name|
    ensures ObjectAt(s, start, offset) == Step(Ok(Object(name)), start + |name| + 1)
    decreases |s| - offset
  {
    if offset < start + |name| {
      assert s[offset] == name[offset - start];
      ObjectPrinted(s, start, offset + 1, name);
    }
  }

  lemma PrimitivePrinted(s: string, offset: nat, t: JavaType, allowVoid: bool)
    requires WellFormed(t, allowVoid) && !t.IsReference()
    requires offset < |s| && s[offset] == Descriptor(t)[0]
    ensures |Descriptor(t)| == 1 && TypeAt(s, offset, allowVoid) == Step(Ok(t), offset + 1)
  {}

  lemma ObjectTypePrinted(s: string, offset: nat, name: string, allowVoid: bool)
    requires name != "" && ';' !in name
    requires offset <= |s| && "L" + name + ";" <= s[offset..]
    ensures offset + |name| + 2 <= |s| && TypeAt(s, offset, allowVoid) == Step(Ok(Object(name)), offset + |name| + 2)
  {
    var d := "L" + name + ";";
    assert s[offset] == s[offset..][0] == d[0];
    assert s[offset..][1..1 + |name|] == d[1..1 + |name|] == name;
    assert s[offset + 1..offset + 1 + |name|] == name;
    assert s[offset + 1 + |name|] == s[offset..][1 + |name|] == d[1 + |name|] == ';';
    ObjectPrinted(s, offset + 1, offset + 1, name);
  }

  lemma ArrayTypePrinted(s: string, offset: nat, element: JavaType, end: nat, allowVoid: bool)
    requires offset < |s| && s[offset] == '[' && !element.Void?
    requires TypeAt(s, offset + 1, false) == Step(Ok(element), end)
    ensures TypeAt(s, offset, allowVoid) == Step(Ok(Array(element)), end)
  {}

  lemma {:induction false} TypePrinted(s: string, offset: nat, t: JavaType, allowVoid: bool)
    requires WellFormed(t, allowVoid)
    requires offset <= |s| && Descriptor(t) <= s[offset..]
    ensures offset + |Descriptor(t)| <= |s|
    ensures TypeAt(s, offset, allowVoid) == Step(Ok(t), offset + |Descriptor(t)|)
    decreases t
  {
    hide TypeAt;
    var d := Descriptor(t);
    assert d[0] == s[offset..][0] == s[offset];
    match t
    case Object(name) => ObjectTypePrinted(s, offset, name, allowVoid);
    case Array(element) =>
      assert Descriptor(element) <= s[offset + 1..] by {
        assert d[1..] == Descriptor(element);
        assert s[offset + 1..] == s[offset..][1..];
      }
      TypePrinted(s, offset + 1, element, false);
      ArrayTypePrinted(s, offset, element, offset + |d|, allowVoid);
    case _ => PrimitivePrinted(s, offset, t, allowVoid);
  }

  lemma {:induction false} ArgumentsPrinted(s: string, offset: nat, ts: seq<JavaType>)
    requires forall t <- ts :: WellFormed(t, false)
    requires offset <= |s| && Descriptors(ts) + ")" <= s[offset..]
    ensures ArgumentsAt(s, offset) == Step(Ok(ts), offset + |Descriptors(ts)|)
    decreases |ts|
  {
    if ts == [] {
      assert s[offset] == s[offset..][0] == ')';
    } else {
      var d := Descriptor(ts[0]);
      assert Descriptors(ts) + ")" == d + (Descriptors(ts[1..]) + ")");
      SplitPrefix(s, offset, d, Descriptors(ts[1..]) + ")");
      var next := offset + |d|;
      TypePrinted(s, offset, ts[0], false);
      ArgumentsPrinted(s, next, ts[1..]);
      assert s[offset] == s[offset..][0] == d[0];
      assert ArgumentsAt(s, next).result == Ok(ts[1..]);
      ArgumentsStep(s, offset, ts[0], next, ts[1..]);
      assert ts == [ts[0]] + ts[1..];
    }
  }

  lemma ArgumentsStep(s: string, offset: nat, t: JavaType, next: nat, rest: seq<JavaType>)
    requires offset < next <= |s| && s[offset] == Descriptor(t)[0]
    requires TypeAt(s, offset, false) == Step(Ok(t), next)
    requires ArgumentsAt(s, next).result == Ok(rest)
    ensures ArgumentsAt(s, offset) == Step(Ok([t] + rest), ArgumentsAt(s, next).offset)
  {}

  lemma SplitPrefix(s: string, offset: nat, head: string, tail: string)
    requires offset <= |s| && head + tail <= s[offset..]
    ensures head <= s[offset..] && offset + |head| <= |s| && tail <= s[offset + |head|..]
  {}

  // ---------------------------------------------------------------------------
  // Parsing then printing: an accepted stretch of text is its own printed form

  lemma {:induction false} ObjectAccepted(s: string, start: nat, offset: nat)
    requires start <= offset <= |s| && ';' !in s[start..offset]
    ensures var r := ObjectAt(s, start, offset);
            r.result.Ok? ==> WellFormed(r.result.value, false) && r.result.value.Object? &&
                             s[start..r.offset] == r.result.value.name + ";"
    decreases |s| - offset
  {
    if offset < |s| && s[offset] != ';' {
      assert s[start..offset + 1] == s[start..offset] + [s[offset]];
      ObjectAccepted(s, start, offset + 1);
    }
  }

  lemma {:induction false} TypeAccepted(s: string, offset: nat, allowVoid: bool)
    requires offset <= |s|
    ensures var r := TypeAt(s, offset, allowVoid);
            r.result.Ok? ==> WellFormed(r.result.value, allowVoid) && s[offset..r.offset] == Descriptor(r.result.value)
    decreases |s| - offset
  {
    var r := TypeAt(s, offset, allowVoid);
    if r.result.Ok? {
      assert s[offset..r.offset] == [s[offset]] + s[offset + 1..r.offset];
      if s[offset] == 'L' {
        ObjectAccepted(s, offset + 1, offset + 1);
      } else if s[offset] == '[' {
        TypeAccepted(s, offset + 1, false);
      }
    }
  }

  lemma {:induction false} ArgumentsAccepted(s: string, offset: nat)
    requires offset <= |s|
    ensures var r := ArgumentsAt(s, offset);
            r.result.Ok? ==> (forall t <- r.result.value :: WellFormed(t, false)) &&
                             s[offset..r.offset] == Descriptors(r.result.value)
    decreases |s| - offset
  {
    hide TypeAt, WellFormed;
    var r := ArgumentsAt(s, offset);
    if r.result.Ok? && s[offset] != ')' {
      var first := TypeAt(s, offset, false);
      TypeAccepted(s, offset, false);
      ArgumentsAccepted(s, first.offset);
      assert s[offset..r.offset] == s[offset..first.offset] + s[first.offset..r.offset];
      assert r.result.value[1..] == ArgumentsAt(s, first.offset).result.value;
    }
  }

  // ---------------------------------------------------------------------------
  // Main results

  /** The type parser accepts exactly the printed forms, each as the type it was printed from. */
  lemma ParseTypeExact(s: string, t: JavaType)
    ensures ParseType(s) == Ok(t) <==> WellFormed(t, false) && s == Descriptor(t)
  {
    assert s[0..] == s && s[0..|s|] == s;
    TypeAccepted(s, 0, false);
    if WellFormed(t, false) && s == Descriptor(t) {
      TypePrinted(s, 0, t, false);
    }
  }

  lemma SignaturePrinted(m: MethodSignature)
    requires WellFormedSignature(m)
    ensures ParseSignature(SignatureDescriptor(m)) == Ok(m)
  {
    var s := SignatureDescriptor(m);
    var body := Descriptors(m.arguments) + ")";
    var ret := Descriptor(m.returnType);
    assert s[1..] == body + ret;
    ArgumentsPrinted(s, 1, m.arguments);
    assert s[1 + |body|..] == ret;
    TypePrinted(s, 1 + |body|, m.returnType, true);
  }

  lemma SignatureAccepted(s: string)
    requires ParseSignature(s).Ok?
    ensures WellFormedSignature(ParseSignature(s).value) && s == SignatureDescriptor(ParseSignature(s).value)
  {
    hide TypeAt, WellFormed, Descriptor;
    var args := ArgumentsAt(s, 1);
    ArgumentsAccepted(s, 1);
    TypeAccepted(s, args.offset + 1, true);
    assert s == [s[0]] + s[1..args.offset] + [s[args.offset]] + s[args.offset + 1..|s|];
  }

  /** The same for method signatures of any arity. */
  lemma ParseSignatureExact(s: string, m: MethodSignature)
    ensures ParseSignature(s) == Ok(m) <==> WellFormedSignature(m) && s == SignatureDescriptor(m)
  {
    if WellFormedSignature(m) {
      SignaturePrinted(m);
    }
    if ParseSignature(s).Ok? {
      SignatureAccepted(s);
    }
  }

  /** No descriptor is a proper prefix of another, so a run of descriptors splits in one way only. */
  lemma DescriptorsPrefixFree(t: JavaType, u: JavaType)
    requires WellFormed(t, true) && WellFormed(u, true)
    requires Descriptor(t) <= Descriptor(u)
    ensures t == u
  {
    var s := Descriptor(u);
    assert s[0..] == s;
    TypePrinted(s, 0, u, true);
    TypePrinted(s, 0, t, true);
  }

  lemma SignaturesDecodeUniquely(m: MethodSignature, n: MethodSignature)
    requires WellFormedSignature(m) && WellFormedSignature(n)
    requires SignatureDescriptor(m) == SignatureDescriptor(n)
    ensures m == n
  {
    ParseSignatureExact(SignatureDescriptor(m), m);
    ParseSignatureExact(SignatureDescriptor(n), n);
  }
}

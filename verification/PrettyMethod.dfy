/**
  Reading back ART's `PrettyMethod` text: source-style type names (src/signature.rs) and the method
  metadata parser (src/art/enumeration.rs).
*/
module PrettyMethod {
  import opened MethodKinds
  import opened Signature
  import opened Text
  import opened Wrappers

  // ---------------------------------------------------------------------------
  // Source-style type names

  predicate IsKeyword(name: string) {
    || name == "boolean" || name == "byte" || name == "char" || name == "short" || name == "int"
    || name == "long" || name == "float" || name == "double" || name == "void"
  }

  /** Splits off every trailing `[]`, with the blanks before it, counting them. */
  function StripDimensions(name: string): (string, nat)
    decreases |name|
  {
    match StripSuffix(name, "[]")
    case None => (name, 0)
    case Some(stripped) =>
      var (element, dimensions) := StripDimensions(TrimEnd(stripped));
      (element, dimensions + 1)
  }

  function ElementType(element: string): JavaType {
    if element == "boolean" then Boolean
    else if element == "byte" then Byte
    else if element == "char" then Char
    else if element == "short" then Short
    else if element == "int" then Int
    else if element == "long" then Long
    else if element == "float" then Float
    else if element == "double" then Double
    else if element == "void" then Void
    else Object(Replace(element, '.', '/'))
  }

  function ArrayOf(t: JavaType, dimensions: nat): JavaType {
    if dimensions == 0 then t else Array(ArrayOf(t, dimensions - 1))
  }

  function ParsePrettyName(name: string): Result<JavaType, SignatureError> {
    var (element, dimensions) := StripDimensions(Trim(name));
    if element == "void" && dimensions != 0 then Err(InvalidSignature(0, VoidArrayElement))
    else if element == "" then Err(InvalidSignature(0, ExpectedType))
    else Ok(ArrayOf(ElementType(element), dimensions))
  }

  method FromPrettyName(name: string) returns (r: Result<JavaType, SignatureError>)
    ensures r == ParsePrettyName(name)
  {
    var element := Trim(name);
    var dimensions: nat := 0;
    while StripSuffix(element, "[]").Some?
      invariant StripDimensions(Trim(name)) ==
                (StripDimensions(element).0, dimensions + StripDimensions(element).1)
      decreases |element|
    {
      element := TrimEnd(StripSuffix(element, "[]").value);
      dimensions := dimensions + 1;
    }
    if element == "void" && dimensions != 0 {
      return Err(InvalidSignature(0, VoidArrayElement));
    }
    if element == "" {
      return Err(InvalidSignature(0, ExpectedType));
    }
    var ty := ElementType(element);
    for d := 0 to dimensions
      invariant ty == ArrayOf(ElementType(element), d)
    {
      ty := Array(ty);
    }
    return Ok(ty);
  }

  // ---------------------------------------------------------------------------
  // Signatures and methods

  function ParsePrettyArguments(arguments: string): Result<seq<JavaType>, SignatureError>
    decreases |arguments|
  {
    SplitOnceParts(arguments, ',');
    match SplitOnce(arguments, ',')
    case None =>
      var only := ParsePrettyName(Trim(arguments));
      if only.Err? then Err(only.error) else Ok([only.value])
    case Some((head, tail)) =>
      var first := ParsePrettyName(Trim(head));
      if first.Err? then Err(first.error) else
      var rest := ParsePrettyArguments(tail);
      if rest.Err? then rest else Ok([first.value] + rest.value)
  }

  function FromPrettyTypes(returnType: string, arguments: string): Result<MethodSignature, SignatureError> {
    var parsed := if Trim(arguments) == "" then Ok([]) else ParsePrettyArguments(arguments);
    if parsed.Err? then Err(parsed.error) else
    var ret := ParsePrettyName(Trim(returnType));
    if ret.Err? then Err(ret.error) else Ok(MethodSignature(parsed.value, ret.value))
  }

  datatype MethodMetadata = MethodMetadata(name: string, kind: MethodKind, signature: MethodSignature, modifiers: bv32)

  datatype MetadataError =
    | NoReturnType | WrongClass | NoArguments | NoClosingParenthesis | BadSignature(error: SignatureError)

  const K_ACC_STATIC: bv32 := 0x0008
  const K_ACC_CONSTRUCTOR: bv32 := 0x0001_0000

  function KindOf(accessFlags: bv32): MethodKind {
    if accessFlags & K_ACC_CONSTRUCTOR != 0 then Constructor
    else if accessFlags & K_ACC_STATIC != 0 then Static
    else Instance
  }

  function ArtMethodMetadata(className: string, accessFlags: bv32, pretty: string)
    : Result<Option<MethodMetadata>, MetadataError>
  {
    match SplitOnce(pretty, ' ')
    case None => Err(NoReturnType)
    case Some((returnType, rest)) =>
      match StripPrefix(rest, className + ".")
      case None => Err(WrongClass)
      case Some(nameAndArguments) =>
        match SplitOnce(nameAndArguments, '(')
        case None => Err(NoArguments)
        case Some((name, open)) =>
          if StripSuffix(nameAndArguments, ")").None? then Err(NoClosingParenthesis)
          else if name == "<clinit>" then Ok(None)
          else
            var arguments := StripSuffix(open, ")");
            assert arguments.Some? by { ClosingAfterOpening(nameAndArguments); }
            var kind := KindOf(accessFlags);
            match FromPrettyTypes(returnType, arguments.value)
            case Err(error) => Err(BadSignature(error))
            case Ok(signature) =>
              Ok(Some(MethodMetadata(
                        if kind.Constructor? then "<init>" else name, kind, signature, accessFlags & 0xffff)))
  }

  lemma ClosingAfterOpening(s: string)
    requires SplitOnce(s, '(').Some? && StripSuffix(s, ")").Some?
    ensures StripSuffix(SplitOnce(s, '(').value.1, ")").Some?
  {}

  // ---------------------------------------------------------------------------
  // The printed forms

  function Pretty(t: JavaType): string {
    match t
    case Boolean => "boolean"
    case Byte => "byte"
    case Char => "char"
    case Short => "short"
    case Int => "int"
    case Long => "long"
    case Float => "float"
    case Double => "double"
    case Void => "void"
    case Object(name) => Replace(name, '/', '.')
    case Array(element) => Pretty(element) + "[]"
  }

  function PrettyArguments(ts: seq<JavaType>): string {
    if ts == [] then ""
    else if |ts| == 1 then Pretty(ts[0])
    else Pretty(ts[0]) + "," + (" " + PrettyArguments(ts[1..]))
  }

  function Render(className: string, name: string, m: MethodSignature): string {
    Pretty(m.returnType) + " " + (className + "." + (name + "(" + (PrettyArguments(m.arguments) + ")")))
  }

  predicate NameCharacter(c: char) {
    !IsSpace(c) && c != '.' && c != ',' && c != '(' && c != ')'
  }

  predicate PrettyPrintable(t: JavaType, allowVoid: bool) {
    match t
    case Void => allowVoid
    case Object(name) =>
      && name != "" && (forall c <- name :: NameCharacter(c))
      && !IsKeyword(name) && StripSuffix(name, "[]").None?
    case Array(element) => PrettyPrintable(element, false)
    case _ => true
  }

  // ---------------------------------------------------------------------------
  // Round trips

  lemma {:induction false} TrimNoSpace(s: string)
    requires NoSpace(s)
    ensures TrimEnd(s) == TrimStart(s) == Trim(s) == Trim(" " + s) == s
  {}

  lemma ObjectCharacters(name: string)
    requires PrettyPrintable(Object(name), true)
    ensures var p := Replace(name, '/', '.');
            p != "" && NoSpace(p) && ',' !in p && '(' !in p && ')' !in p
  {
    forall k | 0 <= k < |name|
      ensures NameCharacter(name[k])
    {
      assert name[k] in name;
    }
  }

  lemma ArrayCharacters(p: string)
    requires NoSpace(p) && ',' !in p && '(' !in p && ')' !in p
    ensures NoSpace(p + "[]") && ',' !in p + "[]" && '(' !in p + "[]" && ')' !in p + "[]"
  {}

  /** A printed type name holds no blank and no separator. */
  lemma {:induction false} PrettyCharacters(t: JavaType)
    requires PrettyPrintable(t, true)
    ensures Pretty(t) != "" && NoSpace(Pretty(t)) && ',' !in Pretty(t) && '(' !in Pretty(t) && ')' !in Pretty(t)
  {
    match t
    case Object(name) => ObjectCharacters(name);
    case Array(element) =>
      hide NoSpace;
      PrettyCharacters(element);
      ArrayCharacters(Pretty(element));
    case _ =>
  }

  lemma ReplaceBack(name: string)
    requires '.' !in name
    ensures Replace(Replace(name, '/', '.'), '.', '/') == name
  {}

  lemma ObjectIsNoKeyword(name: string)
    requires '.' !in name && !IsKeyword(name)
    ensures !IsKeyword(Replace(name, '/', '.'))
  {}

  lemma NoDimensionSuffix(name: string)
    requires StripSuffix(name, "[]").None?
    ensures StripSuffix(Replace(name, '/', '.'), "[]").None?
  {}

  lemma ObjectElement(name: string)
    requires PrettyPrintable(Object(name), true)
    ensures ElementType(Pretty(Object(name))) == Object(name)
    ensures Pretty(Object(name)) != "void" && StripSuffix(Pretty(Object(name)), "[]").None?
  {
    ReplaceBack(name);
    ObjectIsNoKeyword(name);
    NoDimensionSuffix(name);
  }

  lemma {:induction false} PrettyDimensions(t: JavaType, allowVoid: bool)
    requires PrettyPrintable(t, allowVoid)
    ensures var (element, dimensions) := StripDimensions(Pretty(t));
            && ArrayOf(ElementType(element), dimensions) == t
            && element != "" && (element == "void" ==> dimensions == 0 && t.Void?)
  {
    match t
    case Object(name) => ObjectElement(name);
    case Array(element) =>
      PrettyCharacters(element);
      StripOneDimension(Pretty(element));
      PrettyDimensions(element, false);
    case _ => PlainName(t);
  }

  lemma PlainName(t: JavaType)
    requires !t.IsReference()
    ensures StripDimensions(Pretty(t)) == (Pretty(t), 0) && ElementType(Pretty(t)) == t
    ensures Pretty(t) != "" && (Pretty(t) == "void" ==> t.Void?)
  {}

  lemma StripOneDimension(name: string)
    requires NoSpace(name)
    ensures StripDimensions(name + "[]") == (StripDimensions(name).0, StripDimensions(name).1 + 1)
  {
    assert (name + "[]")[|name|..] == "[]" && (name + "[]")[..|name|] == name;
    assert StripSuffix(name + "[]", "[]") == Some(name);
    TrimNoSpace(name);
  }

  /** A printed source-style name is read back as the type it names, to any array depth. */
  lemma PrettyNameRoundTrip(t: JavaType)
    requires PrettyPrintable(t, true)
    ensures ParsePrettyName(Pretty(t)) == Ok(t)
  {
    PrettyCharacters(t);
    TrimNoSpace(Pretty(t));
    PrettyDimensions(t, true);
  }

  lemma {:induction false} PrettyArgumentsRoundTrip(blank: string, ts: seq<JavaType>)
    requires blank == "" || blank == " "
    requires ts != [] && forall t <- ts :: PrettyPrintable(t, false)
    ensures ParsePrettyArguments(blank + PrettyArguments(ts)) == Ok(ts)
    decreases |ts|
  {
    var head := blank + Pretty(ts[0]);
    FirstArgument(blank, ts[0]);
    if |ts| == 1 {
      LastArgument(head, ts[0]);
      assert ts == [ts[0]];
    } else {
      PrettyArgumentsRoundTrip(" ", ts[1..]);
      NextArgument(head, " " + PrettyArguments(ts[1..]), ts[0], ts[1..]);
      PrettyArgumentsUnfold(blank, ts);
    }
  }

  lemma PrettyArgumentsUnfold(blank: string, ts: seq<JavaType>)
    requires 2 <= |ts|
    ensures blank + PrettyArguments(ts) == blank + Pretty(ts[0]) + "," + (" " + PrettyArguments(ts[1..]))
    ensures ts == [ts[0]] + ts[1..]
  {
    Regroup(blank, Pretty(ts[0]), ",", " " + PrettyArguments(ts[1..]));
  }

  lemma Regroup(a: string, b: string, c: string, d: string)
    ensures a + (b + c + d) == a + b + c + d
  {}

  lemma LastArgument(text: string, t: JavaType)
    requires ',' !in text && ParsePrettyName(Trim(text)) == Ok(t)
    ensures ParsePrettyArguments(text) == Ok([t])
  {
    SplitOnceParts(text, ',');
  }

  lemma NextArgument(head: string, tail: string, t: JavaType, rest: seq<JavaType>)
    requires ',' !in head && ParsePrettyName(Trim(head)) == Ok(t)
    requires ParsePrettyArguments(tail) == Ok(rest)
    ensures ParsePrettyArguments(head + "," + tail) == Ok([t] + rest)
  {
    SplitOnceAt(head, ',', tail);
  }

  lemma FirstArgument(blank: string, t: JavaType)
    requires blank == "" || blank == " "
    requires PrettyPrintable(t, false)
    ensures ',' !in blank + Pretty(t)
    ensures ParsePrettyName(Trim(blank + Pretty(t))) == Ok(t)
  {
    PrintableAnywhere(t);
    PrettyCharacters(t);
    TrimNoSpace(Pretty(t));
    assert blank == "" ==> blank + Pretty(t) == Pretty(t);
    PrettyNameRoundTrip(t);
  }

  lemma {:induction false} PrintableAnywhere(t: JavaType)
    requires PrettyPrintable(t, false)
    ensures PrettyPrintable(t, true)
  {}

  lemma PrettyTypesRoundTrip(m: MethodSignature)
    requires forall t <- m.arguments :: PrettyPrintable(t, false)
    requires PrettyPrintable(m.returnType, true)
    ensures FromPrettyTypes(Pretty(m.returnType), PrettyArguments(m.arguments)) == Ok(m)
  {
    PrettyCharacters(m.returnType);
    TrimNoSpace(Pretty(m.returnType));
    PrettyNameRoundTrip(m.returnType);
    if m.arguments != [] {
      var text := PrettyArguments(m.arguments);
      assert "" + text == text;
      PrettyArgumentsRoundTrip("", m.arguments);
      var first := Pretty(m.arguments[0]);
      PrintableAnywhere(m.arguments[0]);
      PrettyCharacters(m.arguments[0]);
      assert text[0] == first[0];
      NotBlank(text);
    }
  }

  lemma NotBlank(s: string)
    requires s != "" && !IsSpace(s[0])
    ensures Trim(s) != ""
  {
    TrimEndKeepsHead(s);
  }

  lemma {:induction false} TrimEndKeepsHead(s: string)
    requires s != "" && !IsSpace(s[0])
    ensures TrimEnd(s) != ""
  {
    if IsSpace(s[|s| - 1]) {
      TrimEndKeepsHead(s[..|s| - 1]);
    }
  }

  /** A method printed in the PrettyMethod format is read back with its name, kind and whole signature. */
  lemma PrettyMethodRoundTrip(className: string, name: string, m: MethodSignature, accessFlags: bv32)
    requires '(' !in name
    requires forall t <- m.arguments :: PrettyPrintable(t, false)
    requires PrettyPrintable(m.returnType, true)
    ensures ArtMethodMetadata(className, accessFlags, Render(className, name, m)) ==
            if name == "<clinit>" then Ok(None)
            else Ok(Some(MethodMetadata(
                           if KindOf(accessFlags) == Constructor then "<init>" else name,
                           KindOf(accessFlags), m, accessFlags & 0xffff)))
  {
    var open := PrettyArguments(m.arguments) + ")";
    var nameAndArguments := name + "(" + open;
    var rest := className + "." + nameAndArguments;
    PrettyCharacters(m.returnType);
    assert ' ' !in Pretty(m.returnType) by {
      assert IsSpace(' ');
    }
    SplitOnceAt(Pretty(m.returnType), ' ', rest);
    assert rest[|className + "."|..] == nameAndArguments;
    SplitOnceAt(name, '(', open);
    assert nameAndArguments[|nameAndArguments| - 1..] == ")";
    assert open[|open| - 1..] == ")" && open[..|open| - 1] == PrettyArguments(m.arguments);
    PrettyTypesRoundTrip(m);
  }
}

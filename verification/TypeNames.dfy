/** Overload argument types named by descriptor or in source style (src/signature.rs, `JavaType::from_name`). */
module TypeNames {
  import opened PrettyMethod
  import opened Signature
  import opened Text
  import opened Wrappers

  predicate LooksLikeDescriptor(name: string) {
    name != "" && (Primitive(name[0]).Some? || name[0] == 'V' || name[0] == 'L' || name[0] == '[')
  }

  function RejectVoid(t: JavaType): Result<JavaType, SignatureError> {
    if t.Void? then Err(InvalidSignature(0, VoidNotValid)) else Ok(t)
  }

  function NormalizeObjectType(t: JavaType): JavaType {
    match t
    case Object(name) => Object(Replace(name, '.', '/'))
    case Array(element) => Array(NormalizeObjectType(element))
    case _ => t
  }

  function FromName(name: string): Result<JavaType, SignatureError> {
    match ParseType(name)
    case Ok(t) => RejectVoid(NormalizeObjectType(t))
    case Err(error) =>
      if LooksLikeDescriptor(name) then Err(error) else
      match ParsePrettyName(name)
      case Ok(t) => RejectVoid(t)
      case Err(_) => Err(error)
  }

  /** Whatever is accepted, by either reading, names an argument type whose class names are in internal form. */
  ghost predicate InternalForm(t: JavaType) {
    match t
    case Void => false
    case Object(name) => '.' !in name && name != ""
    case Array(element) => InternalForm(element)
    case _ => true
  }

  lemma {:induction false} NormalizedIsInternal(t: JavaType)
    requires WellFormed(t, false)
    ensures InternalForm(NormalizeObjectType(t))
  {
    match t
    case Array(element) => NormalizedIsInternal(element);
    case _ =>
  }

  lemma {:induction false} ArrayIsInternal(t: JavaType, dimensions: nat)
    requires InternalForm(t)
    ensures InternalForm(ArrayOf(t, dimensions))
  {
    if dimensions != 0 {
      ArrayIsInternal(t, dimensions - 1);
    }
  }

  lemma FromNameInternal(name: string)
    ensures FromName(name).Ok? ==> InternalForm(FromName(name).value)
  {
    match ParseType(name)
    case Ok(t) =>
      ParseTypeExact(name, t);
      NormalizedIsInternal(t);
    case Err(_) =>
      var (element, dimensions) := StripDimensions(Trim(name));
      if element != "" && element != "void" {
        ArrayIsInternal(ElementType(element), dimensions);
      }
  }

  lemma {:induction false} InternalIsNormal(t: JavaType)
    requires InternalForm(t)
    ensures NormalizeObjectType(t) == t
  {
    match t
    case Object(name) => assert Replace(name, '.', '/') == name;
    case Array(element) => InternalIsNormal(element);
    case _ =>
  }

  /** The descriptor of a type always names it. */
  lemma FromNameDescriptor(t: JavaType)
    requires WellFormed(t, false) && InternalForm(t)
    ensures FromName(Descriptor(t)) == Ok(t)
  {
    ParseTypeExact(Descriptor(t), t);
    InternalIsNormal(t);
  }

  lemma {:induction false} DescriptorEnd(t: JavaType)
    ensures Descriptor(t) != "" && Descriptor(t)[|Descriptor(t)| - 1] != ']'
  {
    match t
    case Array(element) => DescriptorEnd(element);
    case _ =>
  }

  /** A source-style spelling is never at the same time the descriptor of the type it spells. */
  lemma SpellingIsNotDescriptor(t: JavaType, u: JavaType)
    requires NormalizeObjectType(u) == t
    ensures Pretty(t) != Descriptor(u)
  {
    DescriptorEnd(u);
    match t
    case Object(name) => assert u.Object? && |u.name| == |name| == |Pretty(t)|;
    case Array(element) => assert Pretty(t)[|Pretty(t)| - 1] == ']';
    case _ =>
  }

  lemma DescriptorLooksLikeOne(t: JavaType)
    ensures LooksLikeDescriptor(Descriptor(t))
  {}

  /** Its source-style spelling names it exactly when that spelling does not start like a descriptor. */
  lemma FromNameSpellingExact(t: JavaType)
    requires PrettyPrintable(t, false)
    ensures FromName(Pretty(t)) == Ok(t) <==> !LooksLikeDescriptor(Pretty(t))
  {
    hide ParseType, ParsePrettyName, Pretty, PrettyPrintable, NormalizeObjectType, LooksLikeDescriptor, Descriptor;
    var name := Pretty(t);
    match ParseType(name)
    case Ok(u) =>
      ParseTypeExact(name, u);
      DescriptorLooksLikeOne(u);
      if NormalizeObjectType(u) == t {
        SpellingIsNotDescriptor(t, u);
      }
    case Err(_) =>
      PrintableAnywhere(t);
      PrettyNameRoundTrip(t);
      PrintableIsNotVoid(t);
  }

  lemma PrintableIsNotVoid(t: JavaType)
    requires PrettyPrintable(t, false)
    ensures !t.Void?
  {}

  /**
    A name of more than one byte that starts with a primitive's letter is read as that primitive with something
    trailing.
  */
  lemma PrimitiveLetterRefused(name: string)
    requires 1 < |name| && Primitive(name[0]).Some?
    ensures FromName(name) == Err(InvalidSignature(1, Trailing))
  {
    hide ParsePrettyName;
  }

  /** So a class of the default package may have no source-style name: `Foo` starts like a float. */
  lemma DefaultPackageClassRefused()
    ensures PrettyPrintable(Object("Foo"), false) && Pretty(Object("Foo")) == "Foo"
    ensures FromName("Foo") == Err(InvalidSignature(1, Trailing))
  {
    hide FromName;
    PrimitiveLetterRefused("Foo");
  }
}

/**
  Class-name spellings and the caches keyed by them: src/java/lookup.rs, the class cache of
  src/java/handle.rs, and the method and field ID caches of src/java/class.rs.
*/
module ClassLookup {
  import opened MethodKinds
  import opened Signature
  import opened Text
  import opened Wrappers

  datatype LookupName = LookupName(findClassName: string, loaderName: string, isArrayDescriptor: bool)

  predicate IsArraySpelling(name: string) {
    name != "" && name[0] == '['
  }

  predicate IsObjectDescriptor(name: string) {
    name != "" && name[0] == 'L' && name[|name| - 1] == ';'
  }

  function Stripped(name: string): string {
    if IsObjectDescriptor(name) then name[1..|name| - 1] else name
  }

  /** Whether a byte is inside a class name once `c` was read. */
  function InsideAfter(inObject: bool, c: char): bool {
    if inObject then c != ';' else c == 'L'
  }

  function ArrayLoaderName(name: string, inObject: bool): (r: string)
    ensures |r| == |name|
  {
    if name == "" then ""
    else [if inObject && name[0] == '/' then '.' else name[0]]
         + ArrayLoaderName(name[1..], InsideAfter(inObject, name[0]))
  }

  /** The loop of `normalize_array_descriptor_for_loader`. */
  method NormalizeArrayDescriptorForLoader(name: string) returns (result: string)
    ensures result == ArrayLoaderName(name, false)
  {
    result := "";
    var inObject := false;
    for k := 0 to |name|
      invariant result + ArrayLoaderName(name[k..], inObject) == ArrayLoaderName(name, false)
    {
      var c := name[k];
      ghost var rest := ArrayLoaderName(name[k + 1..], InsideAfter(inObject, c));
      assert name[k..][1..] == name[k + 1..];
      var c' := if inObject && c == '/' then '.' else c;
      assert result + ([c'] + rest) == result + [c'] + rest;
      result := result + [c'];
      inObject := InsideAfter(inObject, c);
    }
  }

  function Lookup(name: string): LookupName {
    var stripped := if IsArraySpelling(name) then name else Stripped(name);
    LookupName(
      Replace(stripped, '.', '/'),
      if IsArraySpelling(name) then ArrayLoaderName(name, false) else Replace(stripped, '/', '.'),
      IsArraySpelling(name))
  }

  // ---------------------------------------------------------------------------
  // When two spellings with one cache key are one class

  /** The spellings hold the same bytes wherever they are not inside an `L...;` class name. */
  predicate SameOutside(a: string, b: string, inObject: bool) {
    |a| == |b| &&
    (a != "" ==> (inObject || a[0] == b[0]) && SameOutside(a[1..], b[1..], InsideAfter(inObject, a[0])))
  }

  lemma {:induction false} ArrayNamesAgree(a: string, b: string, inObject: bool)
    requires Replace(a, '.', '/') == Replace(b, '.', '/')
    ensures ArrayLoaderName(a, inObject) == ArrayLoaderName(b, inObject) <==> SameOutside(a, b, inObject)
    decreases |a|
  {
    assert |a| == |Replace(a, '.', '/')| == |b|;
    if a != "" {
      assert Replace(a, '.', '/')[0] == Replace(b, '.', '/')[0];
      assert Replace(a[1..], '.', '/') == Replace(a, '.', '/')[1..];
      assert Replace(b[1..], '.', '/') == Replace(b, '.', '/')[1..];
      assert InsideAfter(inObject, a[0]) == InsideAfter(inObject, b[0]);
      var inside := InsideAfter(inObject, a[0]);
      ArrayNamesAgree(a[1..], b[1..], inside);
      var na, nb := ArrayLoaderName(a, inObject), ArrayLoaderName(b, inObject);
      assert na[1..] == ArrayLoaderName(a[1..], inside) && nb[1..] == ArrayLoaderName(b[1..], inside);
      if na[0] == nb[0] && na[1..] == nb[1..] {
        assert na == [na[0]] + na[1..] && nb == [nb[0]] + nb[1..];
      }
    }
  }

  lemma PlainLoaderName(a: string, b: string)
    requires Replace(a, '.', '/') == Replace(b, '.', '/')
    ensures Replace(a, '/', '.') == Replace(b, '/', '.')
  {
    var k := Replace(a, '.', '/');
    assert |a| == |k| == |b|;
    forall i | 0 <= i < |a|
      ensures Replace(a, '/', '.')[i] == Replace(b, '/', '.')[i]
    {
      assert k[i] == Replace(b, '.', '/')[i];
    }
  }

  /** Two spellings that share a cache key are looked up alike exactly under this condition. */
  lemma SameKeyExact(a: string, b: string)
    requires Lookup(a).findClassName == Lookup(b).findClassName
    ensures Lookup(a) == Lookup(b) <==>
            IsArraySpelling(a) == IsArraySpelling(b) && (IsArraySpelling(a) ==> SameOutside(a, b, false))
  {
    if IsArraySpelling(a) && IsArraySpelling(b) {
      ArrayNamesAgree(a, b, false);
    } else if !IsArraySpelling(a) && !IsArraySpelling(b) {
      PlainLoaderName(Stripped(a), Stripped(b));
    }
  }

  /** A malformed spelling can share a key with a different class: `L[I;` and `[I`. */
  lemma SameKeyDifferentClass()
    ensures Lookup("L[I;").findClassName == Lookup("[I").findClassName
    ensures Lookup("L[I;") != Lookup("[I")
  {}

  /** Dotted or slashed class names, `L...;` forms of them, and array descriptors of any depth. */
  predicate WellFormedSpelling(name: string) {
    if IsArraySpelling(name) then ParseType(name).Ok? && ParseType(name).value.Array?
    else Stripped(name) != "" && '[' !in Stripped(name) && ';' !in Stripped(name)
  }

  lemma {:induction false} SameOutsideObject(a: string, b: string, n: nat)
    requires |a| == |b| && Replace(a, '.', '/') == Replace(b, '.', '/')
    requires n < |a| && a[n] == ';' && ';' !in a[..n] && n + 1 == |a|
    ensures SameOutside(a, b, true)
    decreases n
  {
    assert Replace(a, '.', '/')[0] == Replace(b, '.', '/')[0];
    assert Replace(a[1..], '.', '/') == Replace(a, '.', '/')[1..];
    assert Replace(b[1..], '.', '/') == Replace(b, '.', '/')[1..];
    if n == 0 {
      assert a[1..] == "" == b[1..];
    } else {
      assert a[0] == a[..n][0] && a[1..][..n - 1] == a[..n][1..];
      SameOutsideObject(a[1..], b[1..], n - 1);
    }
  }

  lemma {:induction false} SameOutsideDescriptor(t: JavaType, b: string)
    requires WellFormed(t, false)
    requires Replace(Descriptor(t), '.', '/') == Replace(b, '.', '/')
    ensures SameOutside(Descriptor(t), b, false)
    decreases t
  {
    var a := Descriptor(t);
    assert |a| == |Replace(a, '.', '/')| == |b|;
    assert Replace(a, '.', '/')[0] == Replace(b, '.', '/')[0];
    assert Replace(a[1..], '.', '/') == Replace(a, '.', '/')[1..];
    assert Replace(b[1..], '.', '/') == Replace(b, '.', '/')[1..];
    assert |a| == 1 ==> a[1..] == "" == b[1..];
    match t
    case Object(name) =>
      assert a[1..][..|name|] == name;
      SameOutsideObject(a[1..], b[1..], |name|);
    case Array(element) =>
      assert a[1..] == Descriptor(element);
      SameOutsideDescriptor(element, b[1..]);
    case _ =>
  }

  lemma KeyShowsArray(name: string)
    requires WellFormedSpelling(name)
    ensures IsArraySpelling(Lookup(name).findClassName) == IsArraySpelling(name)
  {}

  /** Well-formed spellings with one cache key are one lookup: same loader name, same array flag. */
  lemma WellFormedKeysAgree(a: string, b: string)
    requires WellFormedSpelling(a) && WellFormedSpelling(b)
    requires Lookup(a).findClassName == Lookup(b).findClassName
    ensures Lookup(a) == Lookup(b)
  {
    SameKeyExact(a, b);
    KeyShowsArray(a);
    KeyShowsArray(b);
    if IsArraySpelling(a) && IsArraySpelling(b) {
      ParseTypeExact(a, ParseType(a).value);
      SameOutsideDescriptor(ParseType(a).value, b);
    }
  }

  // ---------------------------------------------------------------------------
  // Agreement with the rest of the crate's naming

  function ClassNameFromDescriptor(descriptor: string): string {
    if IsObjectDescriptor(descriptor) then Replace(descriptor[1..|descriptor| - 1], '/', '.')
    else Replace(descriptor, '/', '.')
  }

  lemma {:induction false} LoaderNameInObject(a: string)
    requires a != "" && a[|a| - 1] == ';' && ';' !in a[..|a| - 1]
    ensures ArrayLoaderName(a, true) == Replace(a, '/', '.')
    decreases |a|
  {
    var r := Replace(a, '/', '.');
    if |a| == 1 {
      assert a[1..] == "" && r == ";";
    } else {
      assert a[0] == a[..|a| - 1][0];
      assert a[1..][..|a| - 2] == a[..|a| - 1][1..];
      LoaderNameInObject(a[1..]);
      assert Replace(a[1..], '/', '.') == r[1..];
      assert r == [r[0]] + r[1..];
    }
  }

  lemma {:induction false} LoaderNameOfDescriptor(t: JavaType)
    requires WellFormed(t, false)
    ensures ArrayLoaderName(Descriptor(t), false) == Replace(Descriptor(t), '/', '.')
    decreases t
  {
    var a := Descriptor(t);
    var r := Replace(a, '/', '.');
    assert r == [r[0]] + r[1..];
    assert Replace(a[1..], '/', '.') == r[1..];
    assert |a| == 1 ==> a[1..] == "";
    match t
    case Object(name) =>
      assert a[1..][..|name|] == name;
      LoaderNameInObject(a[1..]);
    case Array(element) =>
      assert a[1..] == Descriptor(element);
      LoaderNameOfDescriptor(element);
    case _ =>
  }

  /** For every reference descriptor, the loader is asked for the very name the metadata layer reports. */
  lemma LoaderNameIsClassName(t: JavaType)
    requires WellFormed(t, false) && t.IsReference()
    ensures Lookup(Descriptor(t)).loaderName == ClassNameFromDescriptor(Descriptor(t))
    ensures Lookup(Descriptor(t)).isArrayDescriptor == t.Array?
  {
    if t.Array? {
      LoaderNameOfDescriptor(t);
      assert Descriptor(t)[0] == '[';
    } else {
      assert Descriptor(t)[0] == 'L' && Descriptor(t)[|Descriptor(t)| - 1] == ';';
    }
  }

  /** The dotted, slashed and `L...;` spellings of a class all reach the same lookup. */
  lemma SpellingsOfOneClass(name: string)
    requires name != "" && '.' !in name && '[' !in name && ';' !in name
    ensures Lookup(name) == Lookup(Replace(name, '/', '.')) == Lookup("L" + name + ";")
    ensures Lookup(name) == LookupName(name, Replace(name, '/', '.'), false)
  {}

  // ---------------------------------------------------------------------------
  // The class cache of one `Java` handle

  datatype ClassError = ClassError(code: nat)

  datatype RawClass = RawClass(name: string, reference: nat)

  /** What the handle's loader (or `FindClass`) answers for a normalised name. */
  type Resolver = LookupName -> Result<nat, ClassError>

  function FreshLookup(resolve: Resolver, name: string): Result<RawClass, ClassError> {
    match resolve(Lookup(name))
    case Ok(reference) => Ok(RawClass(Lookup(name).loaderName, reference))
    case Err(error) => Err(error)
  }

  class JavaHandle {
    const resolve: Resolver
    var classes: map<string, RawClass>
    ghost var spellings: map<string, string>  // the spelling each entry was looked up under

    ghost predicate Valid()
      reads this
    {
      && spellings.Keys == classes.Keys
      && forall key <- classes.Keys ::
           Lookup(spellings[key]).findClassName == key && FreshLookup(resolve, spellings[key]) == Ok(classes[key])
    }

    constructor (resolve: Resolver)
      ensures Valid() && classes == map[] && this.resolve == resolve
    {
      this.resolve := resolve;
      classes := map[];
      spellings := map[];
    }

    method FindClass(name: string) returns (r: Result<RawClass, ClassError>)
      requires Valid()
      modifies this
      ensures Valid()
      ensures var key := Lookup(name).findClassName;
              if key in old(classes)
              then r == Ok(old(classes)[key]) && classes == old(classes) && spellings == old(spellings)
              else && r == FreshLookup(resolve, name)
                   && classes == (if r.Ok? then old(classes)[key := r.value] else old(classes))
                   && spellings == (if r.Ok? then old(spellings)[key := name] else old(spellings))
      ensures WellFormedSpelling(name) && (forall key <- old(spellings).Keys :: WellFormedSpelling(old(spellings)[key]))
              ==> r == FreshLookup(resolve, name)
    {
      var lookup := Lookup(name);
      if lookup.findClassName in classes {
        ghost var earlier := spellings[lookup.findClassName];
        if WellFormedSpelling(name) && WellFormedSpelling(earlier) {
          WellFormedKeysAgree(earlier, name);
        }
        return Ok(classes[lookup.findClassName]);
      }
      var found := resolve(lookup);
      if found.Err? {
        return Err(found.error);
      }
      var class_ := RawClass(lookup.loaderName, found.value);
      classes := classes[lookup.findClassName := class_];
      spellings := spellings[lookup.findClassName := name];
      return Ok(class_);
    }
  }

  // ---------------------------------------------------------------------------
  // The ID caches of one class

  datatype FieldKind = StaticField | InstanceField

  datatype MethodKey = MethodKey(kind: MethodKind, name: string, signature: string)
  datatype FieldKey = FieldKey(kind: FieldKind, name: string, ty: string)

  datatype MemberError = BadDescriptor(error: SignatureError) | NotFound

  /** The JNI lookups, as functions of what they are asked for. */
  datatype MemberResolver = MemberResolver(
    constructorId: string -> Option<nat>,
    methodId: (MethodKind, string, string) -> Option<nat>,
    fieldId: (FieldKind, string, string) -> Option<nat>)
  {
    function LookupMethod(kind: MethodKind, name: string, signature: string): Option<nat> {
      if kind == Constructor then constructorId(signature) else methodId(kind, name, signature)
    }

    /** A method looked up with no cache and with the descriptor text exactly as given. */
    function UncachedMethod(kind: MethodKind, name: string, signature: string): Result<nat, MemberError> {
      match ParseSignature(signature)
      case Err(error) => Err(BadDescriptor(error))
      case Ok(_) => OrNotFound(LookupMethod(kind, name, signature))
    }

    function UncachedField(kind: FieldKind, name: string, ty: string): Result<nat, MemberError> {
      match ParseType(ty)
      case Err(error) => Err(BadDescriptor(error))
      case Ok(_) => OrNotFound(fieldId(kind, name, ty))
    }
  }

  function OrNotFound(id: Option<nat>): Result<nat, MemberError> {
    if id.Some? then Ok(id.value) else Err(NotFound)
  }

  class RawClassMembers {
    const resolver: MemberResolver
    var methods: map<MethodKey, nat>
    var fields: map<FieldKey, nat>

    ghost predicate Valid()
      reads this
    {
      && (forall k <- methods.Keys :: resolver.LookupMethod(k.kind, k.name, k.signature) == Some(methods[k]))
      && (forall k <- fields.Keys :: resolver.fieldId(k.kind, k.name, k.ty) == Some(fields[k]))
    }

    constructor (resolver: MemberResolver)
      ensures Valid() && methods == map[] && fields == map[] && this.resolver == resolver
    {
      this.resolver := resolver;
      methods := map[];
      fields := map[];
    }

    method CachedMethod(kind: MethodKind, name: string, signature: string) returns (r: Result<nat, MemberError>)
      requires Valid()
      modifies this`methods
      ensures Valid()
      ensures r == resolver.UncachedMethod(kind, name, signature)
      ensures methods == if r.Ok? then old(methods)[MethodKey(kind, name, signature) := r.value] else old(methods)
    {
      var parsed := ParseMethodSignature(signature);
      if parsed.Err? {
        return Err(BadDescriptor(parsed.error));
      }
      var key := MethodKey(kind, name, SignatureDescriptor(parsed.value));
      if key in methods {
        return Ok(methods[key]);
      }
      var id := resolver.LookupMethod(kind, name, key.signature);
      if id.None? {
        return Err(NotFound);
      }
      methods := methods[key := id.value];
      return Ok(id.value);
    }

    method CachedField(kind: FieldKind, name: string, ty: string) returns (r: Result<nat, MemberError>)
      requires Valid()
      modifies this`fields
      ensures Valid()
      ensures r == resolver.UncachedField(kind, name, ty)
      ensures fields == if r.Ok? then old(fields)[FieldKey(kind, name, ty) := r.value] else old(fields)
    {
      var parsed := ParseJavaType(ty);
      if parsed.Err? {
        return Err(BadDescriptor(parsed.error));
      }
      var key := FieldKey(kind, name, Descriptor(parsed.value));
      if key in fields {
        return Ok(fields[key]);
      }
      var id := resolver.fieldId(kind, name, key.ty);
      if id.None? {
        return Err(NotFound);
      }
      fields := fields[key := id.value];
      return Ok(id.value);
    }
  }
}

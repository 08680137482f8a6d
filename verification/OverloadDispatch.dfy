/**
  Choosing an overload from argument values, and converting the arguments for the choice
  (src/java/members.rs, src/coercion.rs, src/java/conversion.rs, src/value.rs).
*/
module OverloadDispatch {
  import opened MethodKinds
  import opened Signature
  import opened Wrappers

  // ---------------------------------------------------------------------------
  // Values

  type Int8 = x: int | -0x80 <= x < 0x80
  type UInt16 = x: int | 0 <= x < 0x1_0000
  type Int16 = x: int | -0x8000 <= x < 0x8000
  type Int32 = x: int | -0x8000_0000 <= x < 0x8000_0000
  type Int64 = x: int | -0x8000_0000_0000_0000 <= x < 0x8000_0000_0000_0000

  /** Floating-point values are opaque; what matters is which double narrows to which float. */
  datatype Float32 = Float32(bits: nat)
  datatype Float64 = Float64(bits: nat)

  type Reference = nat

  datatype JavaValue =
    | VoidValue | BooleanValue(z: bool) | ByteValue(b: Int8) | CharValue(c: UInt16) | ShortValue(s: Int16)
    | IntValue(i: Int32) | LongValue(j: Int64) | FloatValue(f: Float32) | DoubleValue(d: Float64)
    | ObjectValue(object_: Option<Reference>)

  predicate MatchesType(v: JavaValue, t: JavaType) {
    match v
    case BooleanValue(_) => t.Boolean?
    case ByteValue(_) => t.Byte?
    case CharValue(_) => t.Char?
    case ShortValue(_) => t.Short?
    case IntValue(_) => t.Int?
    case LongValue(_) => t.Long?
    case FloatValue(_) => t.Float?
    case DoubleValue(_) => t.Double?
    case ObjectValue(_) => t.IsReference()
    case VoidValue => t.Void?
  }

  // ---------------------------------------------------------------------------
  // Coercion

  datatype CoercionError = WrongType | OutOfRange

  /** Widening is total; a double narrows when it is finite and within the range of a float. */
  datatype FloatUnit = FloatUnit(widen: Float32 -> Float64, narrow: Float64 -> Option<Float32>)

  function Coerce(fpu: FloatUnit, v: JavaValue, t: JavaType): Result<JavaValue, CoercionError> {
    if MatchesType(v, t) then Ok(v)
    else if v.IntValue? && t.Byte? then (if -0x80 <= v.i < 0x80 then Ok(ByteValue(v.i)) else Err(OutOfRange))
    else if v.IntValue? && t.Char? then (if 0 <= v.i < 0x1_0000 then Ok(CharValue(v.i)) else Err(OutOfRange))
    else if v.IntValue? && t.Short? then (if -0x8000 <= v.i < 0x8000 then Ok(ShortValue(v.i)) else Err(OutOfRange))
    else if v.IntValue? && t.Long? then Ok(LongValue(v.i))
    else if v.FloatValue? && t.Double? then Ok(DoubleValue(fpu.widen(v.f)))
    else if v.DoubleValue? && t.Float? then
      (if fpu.narrow(v.d).Some? then Ok(FloatValue(fpu.narrow(v.d).value)) else Err(OutOfRange))
    else Err(WrongType)
  }

  function IntegerOf(v: JavaValue): Option<int> {
    match v
    case ByteValue(x) => Some(x)
    case CharValue(x) => Some(x)
    case ShortValue(x) => Some(x)
    case IntValue(x) => Some(x)
    case LongValue(x) => Some(x)
    case _ => None
  }

  /** A coerced value has the expected type; an integer keeps its value, and an object or boolean is itself. */
  lemma CoercionPreserves(fpu: FloatUnit, v: JavaValue, t: JavaType)
    requires Coerce(fpu, v, t).Ok?
    ensures MatchesType(Coerce(fpu, v, t).value, t)
    ensures IntegerOf(Coerce(fpu, v, t).value) == IntegerOf(v)
    ensures MatchesType(v, t) || v.BooleanValue? || v.ObjectValue? ==> Coerce(fpu, v, t).value == v
  {}

  // ---------------------------------------------------------------------------
  // Arguments and their preparation for a call

  datatype OverloadArg = RustString(text: string) | Value(value: JavaValue)

  datatype PrepareError = InvalidArguments(expected: nat, actual: nat)
                        | InvalidArgumentType(index: nat) | InvalidArgumentValue(index: nat)
                        | StringNotCreated

  predicate AcceptsRustString(t: JavaType) {
    t == Object("java/lang/String") || t == Object("java/lang/Object") || t == Object("java/lang/CharSequence")
  }

  /** The runtime as dispatch sees it: any JNI call may fail. */
  datatype JniError = JniError(code: nat)

  datatype Runtime = Runtime(
    fpu: FloatUnit,
    newString: string -> Option<Reference>,
    classDescriptor: Reference -> Result<string, JniError>,
    isInstance: (Reference, JavaType) -> Result<bool, JniError>)

  function Prepare(rt: Runtime, arg: OverloadArg, t: JavaType, index: nat): Result<JavaValue, PrepareError> {
    match arg
    case Value(v) =>
      (match Coerce(rt.fpu, v, t)
       case Ok(coerced) => Ok(coerced)
       case Err(WrongType) => Err(InvalidArgumentType(index))
       case Err(OutOfRange) => Err(InvalidArgumentValue(index)))
    case RustString(text) =>
      if !AcceptsRustString(t) then Err(InvalidArgumentType(index))
      else if rt.newString(text).None? then Err(StringNotCreated)
      else Ok(ObjectValue(rt.newString(text)))
  }

  /** `prepare_call_args`: the first argument that cannot be prepared fails the call. */
  method PrepareCallArguments(rt: Runtime, args: seq<OverloadArg>, expected: seq<JavaType>)
    returns (r: Result<seq<JavaValue>, PrepareError>)
    ensures r.Ok? <==> |args| == |expected| && forall k :: 0 <= k < |args| ==> Prepare(rt, args[k], expected[k], k).Ok?
    ensures r.Ok? ==> |r.value| == |args|
    ensures r.Ok? ==> forall k :: 0 <= k < |args| ==> Ok(r.value[k]) == Prepare(rt, args[k], expected[k], k)
    ensures |args| != |expected| ==> r == Err(InvalidArguments(|expected|, |args|))
    ensures |args| == |expected| && r.Err? ==>
              exists k :: 0 <= k < |args| && Prepare(rt, args[k], expected[k], k) == Err(r.error)
                          && forall j :: 0 <= j < k ==> Prepare(rt, args[j], expected[j], j).Ok?
  {
    if |args| != |expected| {
      return Err(InvalidArguments(|expected|, |args|));
    }
    var values: seq<JavaValue> := [];
    for k := 0 to |args|
      invariant |values| == k
      invariant forall j :: 0 <= j < k ==> Ok(values[j]) == Prepare(rt, args[j], expected[j], j)
    {
      var prepared := Prepare(rt, args[k], expected[k], k);
      if prepared.Err? {
        return Err(prepared.error);
      }
      values := values + [prepared.value];
    }
    return Ok(values);
  }

  /** `MethodSignature::validate_arguments`. */
  function ValidateArguments(expected: seq<JavaType>, values: seq<JavaValue>): Result<(), PrepareError> {
    if |expected| != |values| then Err(InvalidArguments(|expected|, |values|))
    else FirstMismatch(expected, values, 0)
  }

  function FirstMismatch(expected: seq<JavaType>, values: seq<JavaValue>, k: nat): Result<(), PrepareError>
    requires |expected| == |values| && k <= |values|
    decreases |values| - k
  {
    if k == |values| then Ok(())
    else if !MatchesType(values[k], expected[k]) then Err(InvalidArgumentType(k))
    else FirstMismatch(expected, values, k + 1)
  }

  lemma {:induction false} AllMatch(expected: seq<JavaType>, values: seq<JavaValue>, k: nat)
    requires |expected| == |values| && k <= |values|
    ensures FirstMismatch(expected, values, k).Ok? <==>
            forall j :: k <= j < |values| ==> MatchesType(values[j], expected[j])
    decreases |values| - k
  {
    if k < |values| {
      AllMatch(expected, values, k + 1);
    }
  }

  // ---------------------------------------------------------------------------
  // Scores

  function RustStringScore(t: JavaType): Option<nat> {
    if t == Object("java/lang/String") then Some(0)
    else if t == Object("java/lang/CharSequence") then Some(1)
    else if t == Object("java/lang/Object") then Some(2)
    else None
  }

  function DescriptorScore(actual: string, t: JavaType): Option<nat> {
    if actual == Descriptor(t) then Some(0)
    else if t == Object("java/lang/Object") && actual != "" && (actual[0] == 'L' || actual[0] == '[') then Some(30)
    else None
  }

  function ReferenceScore(rt: Runtime, object_: Reference, t: JavaType): Result<Option<nat>, JniError> {
    if !t.IsReference() then Ok(None) else
    match rt.classDescriptor(object_)
    case Err(error) => Err(error)
    case Ok(actual) =>
      if DescriptorScore(actual, t).Some? then Ok(DescriptorScore(actual, t)) else
      match rt.isInstance(object_, t)
      case Err(error) => Err(error)
      case Ok(false) => Ok(None)
      case Ok(true) => Ok(Some(if t.Array? then 1 else if t == Object("java/lang/Object") then 30 else 10))
  }

  function ArgScore(rt: Runtime, arg: OverloadArg, t: JavaType): Result<Option<nat>, JniError> {
    match arg
    case RustString(_) => Ok(RustStringScore(t))
    case Value(ObjectValue(None)) => Ok(if t.IsReference() then Some(50) else None)
    case Value(ObjectValue(Some(object_))) => ReferenceScore(rt, object_, t)
    case Value(v) =>
      if MatchesType(v, t) && !v.VoidValue? then Ok(Some(0))
      else if Coerce(rt.fpu, v, t).Ok? then Ok(Some(10))
      else Ok(None)
  }

  /** The sum of the argument scores from argument `k` on; the first incompatible argument ends it. */
  function ScoreFrom(rt: Runtime, args: seq<OverloadArg>, expected: seq<JavaType>, k: nat)
    : Result<Option<nat>, JniError>
    requires |args| == |expected| && k <= |args|
    decreases |args| - k
  {
    if k == |args| then Ok(Some(0)) else
    match ArgScore(rt, args[k], expected[k])
    case Err(error) => Err(error)
    case Ok(None) => Ok(None)
    case Ok(Some(score)) =>
      match ScoreFrom(rt, args, expected, k + 1)
      case Err(error) => Err(error)
      case Ok(None) => Ok(None)
      case Ok(Some(rest)) => Ok(Some(score + rest))
  }

  function Score(rt: Runtime, args: seq<OverloadArg>, expected: seq<JavaType>): Result<Option<nat>, JniError> {
    if |args| != |expected| then Ok(None) else ScoreFrom(rt, args, expected, 0)
  }

  method DispatchScore(rt: Runtime, args: seq<OverloadArg>, expected: seq<JavaType>)
    returns (r: Result<Option<nat>, JniError>)
    ensures r == Score(rt, args, expected)
  {
    if |args| != |expected| {
      return Ok(None);
    }
    var score: nat := 0;
    var k: nat := 0;
    while k < |args|
      invariant k <= |args|
      invariant Score(rt, args, expected) == Plus(score, ScoreFrom(rt, args, expected, k))
    {
      var argScore := ArgScore(rt, args[k], expected[k]);
      if argScore.Err? {
        return Err(argScore.error);
      }
      if argScore.value.None? {
        return Ok(None);
      }
      score := score + argScore.value.value;
      k := k + 1;
    }
    return Ok(Some(score));
  }

  function Plus(score: nat, rest: Result<Option<nat>, JniError>): Result<Option<nat>, JniError> {
    if rest.Ok? && rest.value.Some? then Ok(Some(score + rest.value.value)) else rest
  }

  /** A compatible argument converts: dispatch accepts an argument only where preparation accepts it. */
  lemma CompatibleConverts(rt: Runtime, arg: OverloadArg, t: JavaType, index: nat)
    requires ArgScore(rt, arg, t).Ok? && ArgScore(rt, arg, t).value.Some?
    requires arg.RustString? ==> rt.newString(arg.text).Some?
    ensures Prepare(rt, arg, t, index).Ok? && MatchesType(Prepare(rt, arg, t, index).value, t)
    ensures arg.Value? ==> IntegerOf(Prepare(rt, arg, t, index).value) == IntegerOf(arg.value)
  {}

  /** For everything but a live object, whose class decides, dispatch accepts an argument exactly when it converts. */
  lemma CompatibleExactly(rt: Runtime, arg: OverloadArg, t: JavaType, index: nat)
    requires arg.RustString? ==> rt.newString(arg.text).Some?
    requires !(arg.Value? && arg.value.ObjectValue? && arg.value.object_.Some?)
    ensures ArgScore(rt, arg, t).Ok?
    ensures ArgScore(rt, arg, t).value.Some? <==> Prepare(rt, arg, t, index).Ok?
  {}

  lemma {:induction false} CompatibleAll(rt: Runtime, args: seq<OverloadArg>, expected: seq<JavaType>, k: nat)
    requires |args| == |expected| && k <= |args|
    requires ScoreFrom(rt, args, expected, k).Ok? && ScoreFrom(rt, args, expected, k).value.Some?
    ensures forall j :: k <= j < |args| ==>
              ArgScore(rt, args[j], expected[j]).Ok? && ArgScore(rt, args[j], expected[j]).value.Some?
    decreases |args| - k
  {
    if k < |args| {
      CompatibleAll(rt, args, expected, k + 1);
    }
  }

  // ---------------------------------------------------------------------------
  // Selection

  datatype Target = ConstructorTarget | StaticTarget | BoundTarget

  datatype Candidate = Candidate(name: string, kind: MethodKind, signature: MethodSignature)

  predicate TargetAccepts(target: Target, name: string, m: Candidate) {
    match target
    case ConstructorTarget => m.kind == Constructor
    case StaticTarget => m.kind == Static && m.name == name
    case BoundTarget => m.kind != Constructor && m.name == name
  }

  datatype SelectError = Jni(error: JniError) | NoCompatibleOverload(candidates: seq<Candidate>)

  datatype Call = Call(rt: Runtime, target: Target, name: string, args: seq<OverloadArg>, methods: seq<Candidate>)
  {
    predicate Accepted(k: nat)
      requires k < |methods|
    {
      TargetAccepts(target, name, methods[k])
    }

    function ScoreOf(k: nat): Result<Option<nat>, JniError>
      requires k < |methods|
    {
      Score(rt, args, methods[k].signature.arguments)
    }

    /** The k-th method is of the asked kind and name and every argument is compatible with it. */
    predicate Compatible(k: nat)
      requires k < |methods|
    {
      Accepted(k) && ScoreOf(k).Ok? && ScoreOf(k).value.Some?
    }

    /** Among the first `n`, the k-th is compatible, no other scores less, and none before it as little. */
    ghost predicate Best(k: nat, n: nat)
      requires n <= |methods|
    {
      && k < n && Compatible(k)
      && forall j: nat :: j < n && Compatible(j) ==>
           if j < k then ScoreOf(k).value.value < ScoreOf(j).value.value
           else ScoreOf(k).value.value <= ScoreOf(j).value.value
    }

    function AcceptedOnly(n: nat): seq<Candidate>
      requires n <= |methods|
    {
      if n == 0 then [] else AcceptedOnly(n - 1) + if Accepted(n - 1) then [methods[n - 1]] else []
    }

    /** The next method takes the lead: it is the first compatible one, or scores less than the best so far. */
    lemma Overtakes(best: Option<(nat, nat)>, k: nat)
      requires k < |methods| && Compatible(k)
      requires best.None? ==> forall j: nat :: j < k ==> !Compatible(j)
      requires best.Some? ==> Best(best.value.1, k) && ScoreOf(k).value.value < ScoreOf(best.value.1).value.value
      ensures Best(k, k + 1)
    {}

    /** The best so far stays in the lead: the next method is not compatible or scores no less. */
    lemma StaysBest(best: nat, k: nat)
      requires k < |methods| && Best(best, k)
      requires Compatible(k) ==> ScoreOf(best).value.value <= ScoreOf(k).value.value
      ensures Best(best, k + 1)
    {}
  }

  method SelectMethod(c: Call) returns (r: Result<Candidate, SelectError>, ghost winner: nat)
    ensures r.Ok? ==> c.Best(winner, |c.methods|) && r.value == c.methods[winner]
    ensures r.Err? && r.error.Jni? ==>
              winner < |c.methods| && c.Accepted(winner) && c.ScoreOf(winner) == Err(r.error.error)
    ensures r.Err? && !r.error.Jni? ==>
              && (forall k: nat :: k < |c.methods| ==> !c.Compatible(k))
              && r.error.candidates == c.AcceptedOnly(|c.methods|)
    ensures r.Err? && r.error.Jni? <==> exists k: nat :: k < |c.methods| && c.Accepted(k) && c.ScoreOf(k).Err?
  {
    hide c.Best, Score;
    var candidates: seq<Candidate> := [];
    var best: Option<(nat, nat)> := None;  // the score and index of the best so far
    var k: nat := 0;
    winner := 0;
    while k < |c.methods|
      invariant k <= |c.methods|
      invariant candidates == c.AcceptedOnly(k)
      invariant forall j: nat :: j < k && c.Accepted(j) ==> c.ScoreOf(j).Ok?
      invariant best.None? ==> forall j: nat :: j < k ==> !c.Compatible(j)
      invariant best.Some? ==> best.value.1 < k && c.Compatible(best.value.1) && c.Best(best.value.1, k)
      invariant best.Some? ==> best.value.0 == c.ScoreOf(best.value.1).value.value
    {
      if c.Accepted(k) {
        candidates := candidates + [c.methods[k]];
        var score := DispatchScore(c.rt, c.args, c.methods[k].signature.arguments);
        if score.Err? {
          winner := k;
          return Err(Jni(score.error)), winner;
        }
        if score.value.Some? {
          if best.None? || score.value.value < best.value.0
             || (score.value.value == best.value.0 && k < best.value.1) {
            c.Overtakes(best, k);
            best := Some((score.value.value, k));
          } else {
            c.StaysBest(best.value.1, k);
          }
        } else if best.Some? {
          c.StaysBest(best.value.1, k);
        }
      } else if best.Some? {
        c.StaysBest(best.value.1, k);
      }
      k := k + 1;
    }
    if best.None? {
      return Err(NoCompatibleOverload(candidates)), winner;
    }
    winner := best.value.1;
    return Ok(c.methods[best.value.1]), winner;
  }

  datatype DispatchError = Selection(error: SelectError) | Preparation(prepareError: PrepareError)

  /** Some Rust string argument cannot be made into a Java string. */
  ghost predicate StringsMissing(c: Call) {
    exists arg <- c.args :: arg.RustString? && c.rt.newString(arg.text).None?
  }

  lemma PreparesUnlessStringMissing(c: Call, expected: seq<JavaType>, k: nat)
    requires k < |c.args| == |expected|
    requires ScoreFrom(c.rt, c.args, expected, 0).Ok? && ScoreFrom(c.rt, c.args, expected, 0).value.Some?
    ensures var r := Prepare(c.rt, c.args[k], expected[k], k);
            if r.Err? then r == Err(StringNotCreated) && StringsMissing(c)
            else && MatchesType(r.value, expected[k])
                 && (c.args[k].Value? ==> IntegerOf(r.value) == IntegerOf(c.args[k].value))
  {
    CompatibleAll(c.rt, c.args, expected, 0);
    if c.args[k].RustString? && c.rt.newString(c.args[k].text).None? {
      assert c.args[k] in c.args;
    } else {
      CompatibleConverts(c.rt, c.args[k], expected[k], k);
    }
  }

  /**
    Select, prepare, validate. A dispatched call never fails value conversion: once an overload was selected, the
    one thing left to fail is the creation of a Java string, and every integer argument keeps its value.
  */
  method DispatchCall(c: Call) returns (r: Result<(Candidate, seq<JavaValue>), DispatchError>)
    ensures r.Ok? ==>
              && (exists k: nat :: c.Best(k, |c.methods|) && r.value.0 == c.methods[k])
              && ValidateArguments(r.value.0.signature.arguments, r.value.1).Ok?
              && |r.value.1| == |c.args|
              && forall k :: 0 <= k < |c.args| && c.args[k].Value? ==>
                               IntegerOf(r.value.1[k]) == IntegerOf(c.args[k].value)
    ensures r.Err? && r.error.Preparation? ==> r.error.prepareError == StringNotCreated && StringsMissing(c)
    ensures r.Err? && r.error.Selection? && !r.error.error.Jni? ==>
              forall k: nat :: k < |c.methods| ==> !c.Compatible(k)
  {
    var selected, winner := SelectMethod(c);
    if selected.Err? {
      return Err(Selection(selected.error));
    }
    var expected := selected.value.signature.arguments;
    forall k: nat | k < |c.args|
      ensures var r := Prepare(c.rt, c.args[k], expected[k], k);
              if r.Err? then r == Err(StringNotCreated) && StringsMissing(c)
              else MatchesType(r.value, expected[k])
                   && (c.args[k].Value? ==> IntegerOf(r.value) == IntegerOf(c.args[k].value))
    {
      PreparesUnlessStringMissing(c, expected, k);
    }
    var prepared := PrepareCallArguments(c.rt, c.args, expected);
    if prepared.Err? {
      return Err(Preparation(prepared.error));
    }
    AllMatch(expected, prepared.value, 0);
    return Ok((selected.value, prepared.value));
  }
}

/**
  Turning batches of raw global references into owning wrappers, and delivering heap instances to a
  callback (src/java/handle.rs): who deletes which reference on every path.
*/
module GlobalReferences {
  import opened Wrappers

  type Ref = nat

  const NULL: Ref := 0

  /** What an observer of the reference table sees. */
  datatype Event = Deleted(raw: Ref) | Delivered(raw: Ref)

  datatype RefError = NullReturn | Invalid(at: nat) | NotAttached | Callback(at: nat)

  /** An owning wrapper; dropping it deletes the reference. */
  datatype GlobalRef = GlobalRef(raw: Ref)

  function Raws(refs: seq<GlobalRef>): (r: seq<Ref>)
    ensures |r| == |refs| && forall k :: 0 <= k < |r| ==> r[k] == refs[k].raw
  {
    seq(|refs|, k requires 0 <= k < |refs| => refs[k].raw)
  }

  function NonNullOne(raw: Ref): seq<Ref> {
    if raw == NULL then [] else [raw]
  }

  function NonNull(raws: seq<Ref>): seq<Ref> {
    if raws == [] then [] else NonNullOne(raws[0]) + NonNull(raws[1..])
  }

  /** Deleting null is a no-op in JNI, so only the other references leave an event. */
  function Deletion(raw: Ref): seq<Event> {
    if raw == NULL then [] else [Deleted(raw)]
  }

  function Deletions(raws: seq<Ref>): seq<Event> {
    if raws == [] then [] else Deletion(raws[0]) + Deletions(raws[1..])
  }

  function DeletedBy(e: Event): seq<Ref> {
    if e.Deleted? then [e.raw] else []
  }

  function DeletedIn(log: seq<Event>): seq<Ref> {
    if log == [] then [] else DeletedBy(log[0]) + DeletedIn(log[1..])
  }

  function DeliveredBy(e: Event): seq<Ref> {
    if e.Delivered? then [e.raw] else []
  }

  function DeliveredIn(log: seq<Event>): seq<Ref> {
    if log == [] then [] else DeliveredBy(log[0]) + DeliveredIn(log[1..])
  }

  function Reversed<T>(s: seq<T>): (r: seq<T>)
    ensures |r| == |s| && forall k :: 0 <= k < |s| ==> r[k] == s[|s| - 1 - k]
  {
    seq(|s|, k requires 0 <= k < |s| => s[|s| - 1 - k])
  }

  // ---------------------------------------------------------------------------
  // Sequences

  lemma Associates<T>(a: seq<T>, b: seq<T>, c: seq<T>)
    ensures a + b + c == a + (b + c)
  {}

  lemma {:induction false} NonNullConcat(a: seq<Ref>, b: seq<Ref>)
    ensures NonNull(a + b) == NonNull(a) + NonNull(b)
    decreases |a|
  {
    if a == [] {
      assert a + b == b;
    } else {
      NonNullConcat(a[1..], b);
      assert (a + b)[1..] == a[1..] + b;
      Associates(NonNullOne(a[0]), NonNull(a[1..]), NonNull(b));
    }
  }

  lemma {:induction false} DeletionsConcat(a: seq<Ref>, b: seq<Ref>)
    ensures Deletions(a + b) == Deletions(a) + Deletions(b)
    decreases |a|
  {
    if a == [] {
      assert a + b == b;
    } else {
      DeletionsConcat(a[1..], b);
      assert (a + b)[1..] == a[1..] + b;
      Associates(Deletion(a[0]), Deletions(a[1..]), Deletions(b));
    }
  }

  lemma {:induction false} DeletedInConcat(a: seq<Event>, b: seq<Event>)
    ensures DeletedIn(a + b) == DeletedIn(a) + DeletedIn(b)
    decreases |a|
  {
    if a == [] {
      assert a + b == b;
    } else {
      DeletedInConcat(a[1..], b);
      assert (a + b)[1..] == a[1..] + b;
      Associates(DeletedBy(a[0]), DeletedIn(a[1..]), DeletedIn(b));
    }
  }

  lemma {:induction false} DeliveredInConcat(a: seq<Event>, b: seq<Event>)
    ensures DeliveredIn(a + b) == DeliveredIn(a) + DeliveredIn(b)
    decreases |a|
  {
    if a == [] {
      assert a + b == b;
    } else {
      DeliveredInConcat(a[1..], b);
      assert (a + b)[1..] == a[1..] + b;
      Associates(DeliveredBy(a[0]), DeliveredIn(a[1..]), DeliveredIn(b));
    }
  }

  lemma {:induction false} DeletionsDelete(raws: seq<Ref>)
    ensures DeletedIn(Deletions(raws)) == NonNull(raws) && DeliveredIn(Deletions(raws)) == []
    decreases |raws|
  {
    if raws != [] {
      DeletionsDelete(raws[1..]);
      DeletedInConcat(Deletion(raws[0]), Deletions(raws[1..]));
      DeliveredInConcat(Deletion(raws[0]), Deletions(raws[1..]));
    }
  }

  lemma ReversedCons<T>(s: seq<T>)
    requires s != []
    ensures Reversed(s) == Reversed(s[1..]) + [s[0]]
  {}

  lemma SplitsAt<T>(s: seq<T>, n: nat)
    requires n <= |s|
    ensures s == s[..n] + s[n..]
  {}

  lemma SplitsAround<T>(s: seq<T>, n: nat)
    requires n < |s|
    ensures s == s[..n] + [s[n]] + s[n + 1..]
  {}

  lemma TakesOneMore<T>(s: seq<T>, n: nat)
    requires n < |s|
    ensures s[..n + 1] == s[..n] + [s[n]]
  {}

  lemma {:induction false} NonNullReversed(raws: seq<Ref>)
    ensures multiset(NonNull(Reversed(raws))) == multiset(NonNull(raws))
    decreases |raws|
  {
    if raws != [] {
      NonNullReversed(raws[1..]);
      ReversedCons(raws);
      NonNullConcat(Reversed(raws[1..]), [raws[0]]);
    }
  }

  lemma {:induction false} NonNullAll(raws: seq<Ref>)
    requires NULL !in raws
    ensures NonNull(raws) == raws
    decreases |raws|
  {
    if raws != [] {
      NonNullAll(raws[1..]);
    }
  }

  // ---------------------------------------------------------------------------
  // The reference table

  class Env {
    var log: seq<Event>

    constructor ()
      ensures log == []
    {
      log := [];
    }

    method DeleteGlobalRef(raw: Ref)
      modifies this
      ensures log == old(log) + Deletions([raw])
    {
      if raw != NULL {
        log := log + [Deleted(raw)];
      }
    }

    method DeleteAll(raws: seq<Ref>)
      modifies this
      ensures log == old(log) + Deletions(raws)
    {
      for k := 0 to |raws|
        invariant log == old(log) + Deletions(raws[..k])
      {
        DeleteGlobalRef(raws[k]);
        assert raws[..k + 1] == raws[..k] + [raws[k]];
        DeletionsConcat(raws[..k], [raws[k]]);
      }
      assert raws[..|raws|] == raws;
    }

    /** Dropping a vector of wrappers drops them in order. */
    method DropAll(refs: seq<GlobalRef>)
      modifies this
      ensures log == old(log) + Deletions(Raws(refs))
    {
      DeleteAll(Raws(refs));
    }

    /** GlobalRef::from_raw, then the validation; a wrapper that fails it is dropped. */
    method FromGlobalRaw(raw: Ref, valid: bool, at: nat) returns (r: Result<GlobalRef, RefError>)
      modifies this
      ensures r.Ok? <==> raw != NULL && valid
      ensures r.Ok? ==> r.value.raw == raw && log == old(log)
      ensures r.Err? ==> r.error == if raw == NULL then NullReturn else Invalid(at)
      ensures r.Err? ==> log == old(log) + Deletions([raw])
    {
      if raw == NULL {
        return Err(NullReturn);
      }
      if !valid {
        DeleteGlobalRef(raw);
        return Err(Invalid(at));
      }
      return Ok(GlobalRef(raw));
    }
  }

  // ---------------------------------------------------------------------------
  // Batch conversion

  /** The first element that cannot be wrapped, or the length. */
  function FirstBad(raws: seq<Ref>, valid: nat -> bool, from: nat): (n: nat)
    requires from <= |raws|
    ensures from <= n <= |raws|
    ensures forall k :: from <= k < n ==> raws[k] != NULL && valid(k)
    ensures n < |raws| ==> raws[n] == NULL || !valid(n)
    decreases |raws| - from
  {
    if from == |raws| || raws[from] == NULL || !valid(from) then from else FirstBad(raws, valid, from + 1)
  }

  /** What is deleted when element n fails: it, the unconverted rest, then the wrappers already made. */
  function FailureTrace(raws: seq<Ref>, n: nat, rest: seq<Ref>): seq<Event>
    requires n < |raws|
  {
    Deletions([raws[n]]) + Deletions(rest) + Deletions(raws[..n])
  }

  lemma NonNullParts(raws: seq<Ref>, n: nat)
    requires n < |raws|
    ensures NonNull(raws) == NonNull(raws[..n]) + NonNull([raws[n]]) + NonNull(raws[n + 1..])
  {
    SplitsAround(raws, n);
    NonNullConcat(raws[..n] + [raws[n]], raws[n + 1..]);
    NonNullConcat(raws[..n], [raws[n]]);
  }

  lemma DeletionsOfThree(a: seq<Ref>, b: seq<Ref>, c: seq<Ref>)
    ensures DeletedIn(Deletions(a) + Deletions(b) + Deletions(c)) == NonNull(a) + NonNull(b) + NonNull(c)
  {
    DeletedInConcat(Deletions(a) + Deletions(b), Deletions(c));
    DeliveredInConcat(Deletions(a) + Deletions(b), Deletions(c));
    DeletedInConcat(Deletions(a), Deletions(b));
    DeliveredInConcat(Deletions(a), Deletions(b));
    DeletionsDelete(a);
    DeletionsDelete(b);
    DeletionsDelete(c);
  }

  /**
    Every non-null reference is deleted exactly once on a failure, wherever it happened and in whatever order
    the rest goes.
  */
  lemma FailureDeletesEachOnce(raws: seq<Ref>, n: nat, rest: seq<Ref>)
    requires n < |raws| && multiset(NonNull(rest)) == multiset(NonNull(raws[n + 1..]))
    ensures multiset(DeletedIn(FailureTrace(raws, n, rest))) == multiset(NonNull(raws))
  {
    DeletionsOfThree([raws[n]], rest, raws[..n]);
    NonNullParts(raws, n);
  }

  /** The multiset a conversion must conserve: references in returned wrappers, and references deleted. */
  function Accounted(owned: seq<GlobalRef>, trace: seq<Event>): multiset<Ref> {
    multiset(Raws(owned)) + multiset(DeletedIn(trace))
  }

  lemma FailureAccounts(raws: seq<Ref>, n: nat, rest: seq<Ref>)
    requires n < |raws| && multiset(NonNull(rest)) == multiset(NonNull(raws[n + 1..]))
    ensures Accounted([], FailureTrace(raws, n, rest)) == multiset(NonNull(raws))
  {
    FailureDeletesEachOnce(raws, n, rest);
  }

  lemma SuccessAccounts(raws: seq<Ref>, owned: seq<GlobalRef>)
    requires Raws(owned) == raws && NULL !in raws
    ensures Accounted(owned, []) == multiset(NonNull(raws))
  {
    NonNullAll(raws);
  }

  function OwnedBy(r: Result<seq<GlobalRef>, RefError>): seq<GlobalRef> {
    if r.Ok? then r.value else []
  }

  lemma SplitAround<T>(a: seq<T>, x: T, b: seq<T>)
    ensures var s := a + [x] + b;
            |a| < |s| && s[..|a|] == a && s[|a|] == x && s[|a| + 1..] == b
  {}

  /**
    After an element failed (and, if it was not null, was deleted): delete the unconverted rest, then drop the
    wrappers already made. The rest may go in another order than the batch's.
  */
  method Unwind(env: Env, rest: seq<Ref>, refs: seq<GlobalRef>, raw: Ref,
                ghost after: seq<Ref>, ghost before: seq<Event>)
    returns (ghost trace: seq<Event>)
    requires multiset(NonNull(rest)) == multiset(NonNull(after))
    requires env.log == before + Deletions([raw])
    modifies env
    ensures env.log == before + trace
    ensures Accounted([], trace) == multiset(NonNull(Raws(refs) + [raw] + after))
  {
    env.DeleteAll(rest);
    env.DropAll(refs);
    trace := Deletions([raw]) + Deletions(rest) + Deletions(Raws(refs));
    Associates(before, Deletions([raw]), Deletions(rest));
    Associates(before, Deletions([raw]) + Deletions(rest), Deletions(Raws(refs)));
    SplitAround(Raws(refs), raw, after);
    FailureAccounts(Raws(refs) + [raw] + after, |refs|, rest);
  }

  /**
    class_loader_refs_from_art_handles, and raw_classes_from_art_handles where every element is valid: reverse
    the batch, pop until it is empty or an element fails. Each non-null reference ends either in exactly one
    returned wrapper or deleted exactly once, and the wrappers are in the order of the batch.
  */
  method RefsFromArtHandles(env: Env, handles: seq<Ref>, valid: nat -> bool)
    returns (r: Result<seq<GlobalRef>, RefError>, ghost trace: seq<Event>)
    modifies env
    ensures r.Ok? <==> FirstBad(handles, valid, 0) == |handles|
    ensures r.Ok? ==> Raws(r.value) == handles
    ensures r.Err? ==>
              var bad := FirstBad(handles, valid, 0);
              r.error == if handles[bad] == NULL then NullReturn else Invalid(bad)
    ensures env.log == old(env.log) + trace
    ensures Accounted(OwnedBy(r), trace) == multiset(NonNull(handles))
  {
    hide NonNull, Deletions, Accounted, DeletedIn, Reversed, FirstBad, Raws;
    var raws := Reversed(handles);
    var refs: seq<GlobalRef> := [];
    while raws != []
      invariant |refs| + |raws| == |handles|
      invariant raws == Reversed(handles[|refs|..])
      invariant Raws(refs) == handles[..|refs|] && NULL !in handles[..|refs|]
      invariant FirstBad(handles, valid, 0) == FirstBad(handles, valid, |refs|)
      invariant env.log == old(env.log)
      decreases |raws|
    {
      var n := |refs|;
      var raw := raws[|raws| - 1];
      raws := raws[..|raws| - 1];
      ReversedPops(handles, n);
      var wrapped := env.FromGlobalRaw(raw, valid(n), n);
      if wrapped.Err? {
        NonNullReversed(handles[n + 1..]);
        SplitsAround(handles, n);
        trace := Unwind(env, raws, refs, raw, handles[n + 1..], old(env.log));
        return Err(wrapped.error), trace;
      }
      refs := refs + [wrapped.value];
      TakesOneMore(handles, n);
    }
    assert handles[..|handles|] == handles;
    SuccessAccounts(handles, refs);
    return Ok(refs), [];
  }

  /** Popping the reversed rest of a batch takes its next element. */
  lemma ReversedPops<T>(s: seq<T>, n: nat)
    requires n < |s|
    ensures var r := Reversed(s[n..]);
            r[|r| - 1] == s[n] && r[..|r| - 1] == Reversed(s[n + 1..])
  {}

  // ---------------------------------------------------------------------------
  // Method-query groups

  datatype ArtGroup<C> = ArtGroup(loader: Option<Ref>, classes: C)

  datatype QueryGroup<C> = QueryGroup(loader: Option<GlobalRef>, classes: C)

  function LoaderOf<C>(g: ArtGroup<C>): seq<Ref> {
    if g.loader.Some? then [g.loader.value] else []
  }

  function Loaders<C>(groups: seq<ArtGroup<C>>): seq<Ref> {
    if groups == [] then [] else LoaderOf(groups[0]) + Loaders(groups[1..])
  }

  function WrapperOf<C>(g: QueryGroup<C>): seq<GlobalRef> {
    if g.loader.Some? then [g.loader.value] else []
  }

  function Wrapped<C>(groups: seq<QueryGroup<C>>): seq<GlobalRef> {
    if groups == [] then [] else WrapperOf(groups[0]) + Wrapped(groups[1..])
  }

  lemma {:induction false} LoadersConcat<C>(a: seq<ArtGroup<C>>, b: seq<ArtGroup<C>>)
    ensures Loaders(a + b) == Loaders(a) + Loaders(b)
    decreases |a|
  {
    if a == [] {
      assert a + b == b;
    } else {
      LoadersConcat(a[1..], b);
      assert (a + b)[1..] == a[1..] + b;
      Associates(LoaderOf(a[0]), Loaders(a[1..]), Loaders(b));
    }
  }

  lemma {:induction false} WrappedConcat<C>(a: seq<QueryGroup<C>>, b: seq<QueryGroup<C>>)
    ensures Wrapped(a + b) == Wrapped(a) + Wrapped(b)
    decreases |a|
  {
    if a == [] {
      assert a + b == b;
    } else {
      WrappedConcat(a[1..], b);
      assert (a + b)[1..] == a[1..] + b;
      Associates(WrapperOf(a[0]), Wrapped(a[1..]), Wrapped(b));
    }
  }

  lemma LoadersSplit<C>(groups: seq<ArtGroup<C>>, k: nat)
    requires k < |groups|
    ensures Loaders(groups[k..]) == LoaderOf(groups[k]) + Loaders(groups[k + 1..])
    ensures Loaders(groups[..k + 1]) == Loaders(groups[..k]) + LoaderOf(groups[k])
  {
    assert groups[k..][1..] == groups[k + 1..];
    assert groups[..k + 1] == groups[..k] + [groups[k]];
    LoadersConcat(groups[..k], [groups[k]]);
  }

  lemma LoadersAround<C>(groups: seq<ArtGroup<C>>, k: nat)
    requires k < |groups|
    ensures Loaders(groups) == Loaders(groups[..k]) + LoaderOf(groups[k]) + Loaders(groups[k + 1..])
  {
    LoadersSplit(groups, k);
    assert groups == groups[..k + 1] + groups[k + 1..];
    LoadersConcat(groups[..k + 1], groups[k + 1..]);
  }

  /** The first position holding the value, as in `iter().position`. */
  function Position(raws: seq<Ref>, raw: Ref): (index: Option<nat>)
    ensures index.Some? ==> index.value < |raws| && raws[index.value] == raw && raw !in raws[..index.value]
    ensures index.None? ==> raw !in raws
  {
    if raws == [] then None
    else if raws[0] == raw then Some(0)
    else
      var later := Position(raws[1..], raw);
      if later.None? then None
      else assert raws[..later.value + 1] == [raws[0]] + raws[1..][..later.value]; Some(later.value + 1)
  }

  /** Removing a group's loader from the loaders of the groups still to come takes the head, repeated or not. */
  function RemoveFirst(raws: seq<Ref>, raw: Ref): seq<Ref> {
    var index := Position(raws, raw);
    if index.Some? then raws[..index.value] + raws[index.value + 1..] else raws
  }

  lemma RemoveFirstTakesHead(raw: Ref, rest: seq<Ref>)
    ensures RemoveFirst([raw] + rest, raw) == rest
  {}

  ghost predicate Converted<C>(a: ArtGroup<C>, g: QueryGroup<C>) {
    && g.classes == a.classes
    && (g.loader.Some? <==> a.loader.Some?)
    && (g.loader.Some? ==> g.loader.value.raw == a.loader.value)
  }

  predicate LoaderUsable<C>(g: ArtGroup<C>, valid: bool) {
    g.loader.None? || (g.loader.value != NULL && valid)
  }

  predicate AllUsable<C>(groups: seq<ArtGroup<C>>, valid: nat -> bool, n: nat)
    requires n <= |groups|
  {
    forall k: nat :: k < n ==> LoaderUsable(groups[k], valid(k))
  }

  ghost predicate AllConverted<C>(groups: seq<ArtGroup<C>>, public: seq<QueryGroup<C>>) {
    |public| <= |groups| && forall k :: 0 <= k < |public| ==> Converted(groups[k], public[k])
  }

  /** What the source's loop has done before group |public|. */
  ghost predicate ConvertedSoFar<C>(groups: seq<ArtGroup<C>>, public: seq<QueryGroup<C>>, remaining: seq<Ref>) {
    && AllConverted(groups, public)
    && remaining == Loaders(groups[|public|..])
    && Raws(Wrapped(public)) == Loaders(groups[..|public|])
    && NULL !in Loaders(groups[..|public|])
  }

  lemma WrappedOneMore<C>(public: seq<QueryGroup<C>>, g: QueryGroup<C>)
    ensures Raws(Wrapped(public + [g])) == Raws(Wrapped(public)) + if g.loader.Some? then [g.loader.value.raw] else []
  {
    WrappedConcat(public, [g]);
    assert Wrapped([g]) == if g.loader.Some? then [g.loader.value] else [];
  }

  lemma ConvertedOneMore<C>(groups: seq<ArtGroup<C>>, public: seq<QueryGroup<C>>, remaining: seq<Ref>, g: QueryGroup<C>)
    requires |public| < |groups| && ConvertedSoFar(groups, public, remaining) && Converted(groups[|public|], g)
    requires NULL !in LoaderOf(groups[|public|])
    ensures ConvertedSoFar(groups, public + [g],
                           if g.loader.Some? then RemoveFirst(remaining, g.loader.value.raw) else remaining)
  {
    var k := |public|;
    LoadersSplit(groups, k);
    WrappedOneMore(public, g);
    assert Raws(Wrapped(public + [g])) == Loaders(groups[..k + 1]);
    if g.loader.Some? {
      RemoveFirstTakesHead(g.loader.value.raw, Loaders(groups[k + 1..]));
    }
  }

  method ConvertGroups<C>(env: Env, groups: seq<ArtGroup<C>>, valid: nat -> bool)
    returns (r: Result<seq<QueryGroup<C>>, RefError>, ghost trace: seq<Event>)
    modifies env
    ensures r.Ok? <==> AllUsable(groups, valid, |groups|)
    ensures r.Ok? ==> |r.value| == |groups| && AllConverted(groups, r.value)
    ensures env.log == old(env.log) + trace
    ensures Accounted(if r.Ok? then Wrapped(r.value) else [], trace) == multiset(NonNull(Loaders(groups)))
  {
    hide NonNull, Deletions, Accounted, DeletedIn, RemoveFirst;
    var public: seq<QueryGroup<C>> := [];
    var remaining := Loaders(groups);
    assert groups[0..] == groups;
    for k := 0 to |groups|
      invariant |public| == k && ConvertedSoFar(groups, public, remaining)
      invariant AllUsable(groups, valid, k)
      invariant env.log == old(env.log)
    {
      var loader: Option<GlobalRef> := None;
      ghost var before := remaining;
      if groups[k].loader.Some? {
        var raw := groups[k].loader.value;
        remaining := RemoveFirst(remaining, raw);
        var wrapped := env.FromGlobalRaw(raw, valid(k), k);
        if wrapped.Err? {
          LoadersSplit(groups, k);
          RemoveFirstTakesHead(raw, Loaders(groups[k + 1..]));
          LoadersAround(groups, k);
          trace := Unwind(env, remaining, Wrapped(public), raw, remaining, old(env.log));
          assert !LoaderUsable(groups[k], valid(k));
          return Err(wrapped.error), trace;
        }
        loader := Some(wrapped.value);
      }
      ConvertedOneMore(groups, public, before, QueryGroup(loader, groups[k].classes));
      public := public + [QueryGroup(loader, groups[k].classes)];
    }
    assert groups[..|groups|] == groups;
    SuccessAccounts(Loaders(groups), Wrapped(public));
    return Ok(public), [];
  }

  /**
    method_query_groups_from_art_groups. Every loader reference is accounted for exactly when the thread could
    be attached: the source attaches before it looks at the groups, and a failure there drops them unreleased.
  */
  method QueryGroupsFromArtGroups<C>(env: Env, attached: bool, groups: seq<ArtGroup<C>>, valid: nat -> bool)
    returns (r: Result<seq<QueryGroup<C>>, RefError>, ghost trace: seq<Event>)
    modifies env
    ensures r.Ok? <==> attached && AllUsable(groups, valid, |groups|)
    ensures r.Ok? ==> |r.value| == |groups| && AllConverted(groups, r.value)
    ensures env.log == old(env.log) + trace
    ensures Accounted(if r.Ok? then Wrapped(r.value) else [], trace) == multiset(NonNull(Loaders(groups))) <==>
            attached || NonNull(Loaders(groups)) == []
  {
    if !attached {
      return Err(NotAttached), [];
    }
    r, trace := ConvertGroups(env, groups, valid);
  }

  // ---------------------------------------------------------------------------
  // Delivery

  datatype Control = Continue | Stop | Fail

  /** How many instances the callback sees. */
  function Reached(handles: seq<Ref>, control: nat -> Control, from: nat): (n: nat)
    requires from <= |handles|
    ensures from <= n <= |handles|
    decreases |handles| - from
  {
    if from == |handles| || handles[from] == NULL then from
    else if control(from) != Continue then from + 1
    else Reached(handles, control, from + 1)
  }

  function DeliveryOf(raw: Ref): seq<Event> {
    [Delivered(raw), Deleted(raw)]
  }

  /** Each delivered instance is deleted as soon as its callback returns. */
  function DeliveryTrace(raws: seq<Ref>): seq<Event> {
    if raws == [] then [] else DeliveryOf(raws[0]) + DeliveryTrace(raws[1..])
  }

  lemma {:induction false} DeliveryTraceConcat(a: seq<Ref>, b: seq<Ref>)
    ensures DeliveryTrace(a + b) == DeliveryTrace(a) + DeliveryTrace(b)
    decreases |a|
  {
    if a == [] {
      assert a + b == b;
    } else {
      DeliveryTraceConcat(a[1..], b);
      assert (a + b)[1..] == a[1..] + b;
      Associates(DeliveryOf(a[0]), DeliveryTrace(a[1..]), DeliveryTrace(b));
    }
  }

  lemma {:induction false} DeliveryTraceMeans(raws: seq<Ref>)
    ensures DeliveredIn(DeliveryTrace(raws)) == raws && DeletedIn(DeliveryTrace(raws)) == raws
    decreases |raws|
  {
    if raws != [] {
      DeliveryTraceMeans(raws[1..]);
      DeletedInConcat(DeliveryOf(raws[0]), DeliveryTrace(raws[1..]));
      DeliveredInConcat(DeliveryOf(raws[0]), DeliveryTrace(raws[1..]));
      assert DeletedIn(DeliveryOf(raws[0])) == [raws[0]];
    }
  }

  /** A delivery that ends after n callbacks: each of them in order, then the rest, last first. */
  function Delivery(handles: seq<Ref>, n: nat): seq<Event>
    requires n <= |handles|
  {
    DeliveryTrace(handles[..n]) + Deletions(Reversed(handles[n..]))
  }

  lemma DeliveryEvents(delivered: seq<Ref>, rest: seq<Ref>)
    ensures DeliveredIn(DeliveryTrace(delivered) + Deletions(rest)) == delivered
    ensures DeletedIn(DeliveryTrace(delivered) + Deletions(rest)) == delivered + NonNull(rest)
  {
    DeletedInConcat(DeliveryTrace(delivered), Deletions(rest));
    DeliveredInConcat(DeliveryTrace(delivered), Deletions(rest));
    DeliveryTraceMeans(delivered);
    DeletionsDelete(rest);
  }

  lemma NonNullSplit(raws: seq<Ref>, n: nat)
    requires n <= |raws| && NULL !in raws[..n]
    ensures NonNull(raws) == raws[..n] + NonNull(raws[n..])
  {
    SplitsAt(raws, n);
    NonNullConcat(raws[..n], raws[n..]);
    NonNullAll(raws[..n]);
  }

  /**
    Whatever the callback answers, the instances it sees are a prefix of the batch in order, and every non-null
    reference of the batch is deleted exactly once.
  */
  lemma DeliveryConserves(handles: seq<Ref>, control: nat -> Control)
    ensures var n := Reached(handles, control, 0);
            DeliveredIn(Delivery(handles, n)) == handles[..n]
            && multiset(DeletedIn(Delivery(handles, n))) == multiset(NonNull(handles))
  {
    var n := Reached(handles, control, 0);
    ReachedNonNull(handles, control, 0);
    DeliveryEvents(handles[..n], Reversed(handles[n..]));
    NonNullReversed(handles[n..]);
    NonNullSplit(handles, n);
  }

  lemma {:induction false} ReachedNonNull(handles: seq<Ref>, control: nat -> Control, from: nat)
    requires from <= |handles|
    ensures forall k :: from <= k < Reached(handles, control, from) ==> handles[k] != NULL
    decreases |handles| - from
  {
    if from < |handles| && handles[from] != NULL && control(from) == Continue {
      ReachedNonNull(handles, control, from + 1);
    }
  }

  lemma NoneDelivered(handles: seq<Ref>)
    ensures DeliveryTrace(handles[..0]) == []
  {}

  lemma AllDelivered(handles: seq<Ref>)
    ensures Delivery(handles, |handles|) == DeliveryTrace(handles[..|handles|])
  {
    assert Reversed(handles[|handles|..]) == [];
  }

  /** A null element at the stopping point leaves no event of its own. */
  lemma NullEndsDelivery(handles: seq<Ref>, n: nat)
    requires n < |handles| && handles[n] == NULL
    ensures Delivery(handles, n) == DeliveryTrace(handles[..n]) + Deletions(Reversed(handles[n + 1..]))
  {
    ReversedPops(handles, n);
    assert Reversed(handles[n..]) == Reversed(handles[n + 1..]) + [handles[n]];
    DeletionsConcat(Reversed(handles[n + 1..]), [handles[n]]);
  }

  lemma OneMoreDelivered(handles: seq<Ref>, n: nat)
    requires n < |handles| && handles[n] != NULL
    ensures DeliveryTrace(handles[..n]) + DeliveryOf(handles[n]) == DeliveryTrace(handles[..n + 1])
  {
    TakesOneMore(handles, n);
    DeliveryTraceConcat(handles[..n], [handles[n]]);
  }

  /** The error that ends a delivery, if one does. */
  function DeliveryError(handles: seq<Ref>, control: nat -> Control): Option<RefError> {
    var n := Reached(handles, control, 0);
    if n > 0 && control(n - 1) == Fail then Some(Callback(n - 1))
    else if n < |handles| && (n == 0 || control(n - 1) == Continue) then Some(NullReturn)
    else None
  }

  lemma {:induction false} ReachedContinues(handles: seq<Ref>, control: nat -> Control, k: nat)
    requires k <= |handles| && forall j: nat :: j < k ==> handles[j] != NULL && control(j) == Continue
    ensures Reached(handles, control, 0) == Reached(handles, control, k)
  {
    if k > 0 {
      ReachedContinues(handles, control, k - 1);
    }
  }

  /** The callback's answer for one instance, whose wrapper is dropped as soon as it returns. */
  method DeliverOne(env: Env, raw: Ref, control: nat -> Control, k: nat) returns (answer: Control)
    requires raw != NULL
    modifies env
    ensures answer == control(k)
    ensures env.log == old(env.log) + DeliveryOf(raw)
  {
    env.log := env.log + [Delivered(raw)];
    answer := control(k);
    env.DeleteGlobalRef(raw);
  }

  /** deliver_heap_instance_handles: each object is dropped once its callback returned, the rest deleted on a stop. */
  method DeliverHeapInstanceHandles(env: Env, handles: seq<Ref>, control: nat -> Control)
    returns (error: Option<RefError>)
    modifies env
    ensures error == DeliveryError(handles, control)
    ensures env.log == old(env.log) + Delivery(handles, Reached(handles, control, 0))
  {
    hide Deletions, DeliveryOf, DeliveryTrace;
    NoneDelivered(handles);
    var raws := Reversed(handles);
    var k: nat := 0;
    ghost var trace := [];
    while raws != []
      invariant k + |raws| == |handles|
      invariant raws == Reversed(handles[k..])
      invariant forall j: nat :: j < k ==> handles[j] != NULL && control(j) == Continue
      invariant trace == DeliveryTrace(handles[..k])
      invariant env.log == old(env.log) + trace
      decreases |raws|
    {
      ReachedContinues(handles, control, k);
      ReversedPops(handles, k);
      var raw := raws[|raws| - 1];
      raws := raws[..|raws| - 1];
      if raw == NULL {
        env.DeleteAll(raws);
        NullEndsDelivery(handles, k);
        Associates(old(env.log), trace, Deletions(raws));
        return Some(NullReturn);
      }
      var answer := DeliverOne(env, raw, control, k);
      OneMoreDelivered(handles, k);
      Associates(old(env.log), trace, DeliveryOf(raw));
      trace := trace + DeliveryOf(raw);
      if answer != Continue {
        env.DeleteAll(raws);
        Associates(old(env.log), trace, Deletions(raws));
        return if answer == Stop then None else Some(Callback(k));
      }
      k := k + 1;
    }
    ReachedContinues(handles, control, k);
    AllDelivered(handles);
    return None;
  }
}

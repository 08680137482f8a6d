/**
  Answering a method query while ART enumerates its classes (src/art/enumeration.rs): filter,
  de-duplicate, and group by class loader.
*/
module MethodEnumeration {
  import opened ClassLookup
  import opened MethodKinds
  import opened MethodQuery
  import opened PrettyMethod
  import opened Signature
  import opened Wrappers

  type ClassPointer = nat
  type LoaderKey = nat
  type GlobalRef = nat

  datatype EnumerationError =
    | BadDescriptorText | PrettyMethodFailed | BadMetadata(error: MetadataError) | AddGlobalRefFailed

  /** What ART says of one method: its access flags and its PrettyMethod text, if that call works. */
  datatype ArtMethod = ArtMethod(accessFlags: bv32, pretty: Option<string>)

  /** What ART says of one class; `methods` are the copied-count-many methods, if the array is readable. */
  datatype ArtClass = ArtClass(loaderKey: LoaderKey, descriptor: Option<string>, methods: Option<seq<ArtMethod>>)

  datatype QueryClass = QueryClass(name: string, methods: seq<MethodMetadata>)

  datatype Group = Group(loaderKey: LoaderKey, loader: Option<GlobalRef>, classes: seq<QueryClass>)

  /** A matching class, with the key of its loader. */
  datatype Entry = Entry(loaderKey: LoaderKey, class_: QueryClass)

  const METHOD_COUNT_LIMIT: nat := 10_000

  predicate IsPlatformClass(name: string) {
    "java." <= name || "javax." <= name || "android." <= name || "androidx." <= name
    || "dalvik." <= name || "com.android." <= name
  }

  function QueryMethodName(m: MethodMetadata, includeSignature: bool): string {
    var name := if m.kind == Constructor then "$init" else m.name;
    if includeSignature then name + SignatureDescriptor(m.signature) else name
  }

  predicate MethodMatches(q: Query, m: MethodMetadata) {
    GlobAccepts(q.methodPattern, NormalizeCase(QueryMethodName(m, q.includeSignature), q.ignoreCase))
  }

  // ---------------------------------------------------------------------------
  // The methods of one class

  function Metadata(className: string, m: ArtMethod): Result<Option<MethodMetadata>, EnumerationError> {
    if m.pretty.None? then Err(PrettyMethodFailed) else
    match ArtMethodMetadata(className, m.accessFlags, m.pretty.value)
    case Err(error) => Err(BadMetadata(error))
    case Ok(metadata) => Ok(metadata)
  }

  /** The metadata of all methods but class initialisers; the first failure fails the class. */
  function AllMetadata(className: string, methods: seq<ArtMethod>): Result<seq<MethodMetadata>, EnumerationError>
    decreases |methods|
  {
    if methods == [] then Ok([]) else
    var front := AllMetadata(className, methods[..|methods| - 1]);
    if front.Err? then front else
    match Metadata(className, methods[|methods| - 1])
    case Err(error) => Err(error)
    case Ok(None) => front
    case Ok(Some(m)) => Ok(front.value + [m])
  }

  function Names(ms: seq<MethodMetadata>, includeSignature: bool): set<string> {
    set m <- ms :: QueryMethodName(m, includeSignature)
  }

  /** Keeps the first method of each display name. */
  function FirstOfEachName(ms: seq<MethodMetadata>, includeSignature: bool): seq<MethodMetadata> {
    if ms == [] then [] else
    var front := ms[..|ms| - 1];
    FirstOfEachName(front, includeSignature)
    + if QueryMethodName(ms[|ms| - 1], includeSignature) in Names(front, includeSignature) then [] else [ms[|ms| - 1]]
  }

  function OnlyMatching(q: Query, ms: seq<MethodMetadata>): seq<MethodMetadata> {
    if ms == [] then []
    else OnlyMatching(q, ms[..|ms| - 1]) + if MethodMatches(q, ms[|ms| - 1]) then [ms[|ms| - 1]] else []
  }

  /** What the query wants of a class: without signatures, one method a name; then those that match. */
  function Wanted(q: Query, ms: seq<MethodMetadata>): seq<MethodMetadata> {
    OnlyMatching(q, if q.includeSignature then ms else FirstOfEachName(ms, false))
  }

  lemma NamesSnoc(ms: seq<MethodMetadata>, m: MethodMetadata, includeSignature: bool)
    ensures Names(ms + [m], includeSignature) == Names(ms, includeSignature) + {QueryMethodName(m, includeSignature)}
  {}

  lemma WantedSnoc(q: Query, ms: seq<MethodMetadata>, m: MethodMetadata)
    ensures Wanted(q, ms + [m]) == Wanted(q, ms)
      + if (q.includeSignature || QueryMethodName(m, false) !in Names(ms, false)) && MethodMatches(q, m)
        then [m] else []
  {
    assert (ms + [m])[..|ms|] == ms;
    var kept := FirstOfEachName(ms, false);
    assert (kept + [m])[..|kept|] == kept;
    assert kept + [] == kept;
  }

  /** The loop of `collect_class` over the methods, with its set of names already seen. */
  method CollectMethods(q: Query, className: string, methods: seq<ArtMethod>)
    returns (r: Result<seq<MethodMetadata>, EnumerationError>)
    ensures match AllMetadata(className, methods)
            case Err(error) => r == Err(error)
            case Ok(all) => r == Ok(Wanted(q, all))
  {
    hide MethodMatches, Metadata, QueryMethodName;
    var seen: set<string> := {};
    var wanted: seq<MethodMetadata> := [];
    ghost var all: seq<MethodMetadata> := [];
    for k := 0 to |methods|
      invariant AllMetadata(className, methods[..k]) == Ok(all)
      invariant wanted == Wanted(q, all)
      invariant !q.includeSignature ==> seen == Names(all, false)
    {
      assert methods[..k + 1][..k] == methods[..k];
      var metadata := Metadata(className, methods[k]);
      if metadata.Err? {
        AllMetadataFails(className, methods, k + 1);
        return Err(metadata.error);
      }
      if metadata.value.None? {
        continue;
      }
      var m := metadata.value.value;
      WantedSnoc(q, all, m);
      NamesSnoc(all, m, false);
      all := all + [m];
      var display := QueryMethodName(m, q.includeSignature);
      if !q.includeSignature {
        if display in seen {
          continue;
        }
        seen := seen + {display};
      }
      if MethodMatches(q, m) {
        wanted := wanted + [m];
      }
    }
    assert methods[..|methods|] == methods;
    return Ok(wanted);
  }

  lemma {:induction false} AllMetadataFails(className: string, methods: seq<ArtMethod>, k: nat)
    requires k <= |methods| && AllMetadata(className, methods[..k]).Err?
    ensures AllMetadata(className, methods) == AllMetadata(className, methods[..k])
    decreases |methods|
  {
    if k == |methods| {
      assert methods[..k] == methods;
    } else {
      assert methods[..|methods| - 1][..k] == methods[..k];
      AllMetadataFails(className, methods[..|methods| - 1], k);
    }
  }

  lemma {:induction false} MatchingMembers(q: Query, ms: seq<MethodMetadata>)
    ensures forall m :: m in OnlyMatching(q, ms) <==> m in ms && MethodMatches(q, m)
    decreases |ms|
  {
    if ms != [] {
      MatchingMembers(q, ms[..|ms| - 1]);
      assert ms == ms[..|ms| - 1] + [ms[|ms| - 1]];
    }
  }

  /** Matching depends on the display name only. */
  lemma NameAmongMatching(q: Query, ms: seq<MethodMetadata>, m: MethodMetadata)
    requires MethodMatches(q, m)
    ensures var name := QueryMethodName(m, q.includeSignature);
            name in Names(ms, q.includeSignature) <==> name in Names(OnlyMatching(q, ms), q.includeSignature)
  {}

  lemma LastOf(q: Query, ms: seq<MethodMetadata>, m: MethodMetadata)
    ensures OnlyMatching(q, ms + [m]) == if MethodMatches(q, m) then OnlyMatching(q, ms) + [m] else OnlyMatching(q, ms)
    ensures FirstOfEachName(ms + [m], q.includeSignature) ==
            if QueryMethodName(m, q.includeSignature) in Names(ms, q.includeSignature)
            then FirstOfEachName(ms, q.includeSignature) else FirstOfEachName(ms, q.includeSignature) + [m]
  {
    assert (ms + [m])[..|ms|] == ms;
  }

  /** De-duplicating display names before matching them is matching them before de-duplicating. */
  lemma {:induction false} DeduplicationCommutes(q: Query, ms: seq<MethodMetadata>)
    ensures OnlyMatching(q, FirstOfEachName(ms, q.includeSignature))
            == FirstOfEachName(OnlyMatching(q, ms), q.includeSignature)
    decreases |ms|
  {
    if ms != [] {
      var front, m := ms[..|ms| - 1], ms[|ms| - 1];
      assert ms == front + [m];
      DeduplicationCommutes(q, front);
      hide OnlyMatching, FirstOfEachName, MethodMatches, Names;
      LastOf(q, front, m);
      LastOf(q, FirstOfEachName(front, q.includeSignature), m);
      LastOf(q, OnlyMatching(q, front), m);
      if MethodMatches(q, m) {
        NameAmongMatching(q, front, m);
      }
    }
  }

  // ---------------------------------------------------------------------------
  // One class

  /** What a class contributes: nothing, or an entry under its loader key. */
  function Contribution(q: Query, c: ArtClass): Result<Option<Entry>, EnumerationError> {
    if q.skipSystemClasses && c.loaderKey == 0 then Ok(None)
    else if c.descriptor.None? then Err(BadDescriptorText)
    else if !("L" <= c.descriptor.value) then Ok(None)
    else
      var name := ClassNameFromDescriptor(c.descriptor.value);
      if q.skipSystemClasses && IsPlatformClass(name) then Ok(None)
      else if !GlobAccepts(q.classPattern, NormalizeCase(name, q.ignoreCase)) then Ok(None)
      else if c.methods.None? || |c.methods.value| == 0 || |c.methods.value| > METHOD_COUNT_LIMIT then Ok(None)
      else match AllMetadata(name, c.methods.value)
        case Err(error) => Err(error)
        case Ok(all) =>
          if Wanted(q, all) == [] then Ok(None) else Ok(Some(Entry(c.loaderKey, QueryClass(name, Wanted(q, all)))))
  }

  // ---------------------------------------------------------------------------
  // What grouping means

  function Select(entries: seq<Entry>, key: LoaderKey): seq<QueryClass> {
    if entries == [] then []
    else Select(entries[..|entries| - 1], key)
         + if entries[|entries| - 1].loaderKey == key then [entries[|entries| - 1].class_] else []
  }

  /** The loader keys in order of first appearance. */
  function KeysInOrder(entries: seq<Entry>): seq<LoaderKey> {
    if entries == [] then [] else
    var front := KeysInOrder(entries[..|entries| - 1]);
    if entries[|entries| - 1].loaderKey in front then front else front + [entries[|entries| - 1].loaderKey]
  }

  /** One group a loader key, in order of first appearance, holding that key's classes in order. */
  ghost predicate IsGroupBy(groups: seq<Group>, entries: seq<Entry>) {
    && |groups| == |KeysInOrder(entries)|
    && forall k :: 0 <= k < |groups| ==>
         && groups[k].loaderKey == KeysInOrder(entries)[k]
         && groups[k].classes == Select(entries, groups[k].loaderKey)
         && (groups[k].loader.None? <==> groups[k].loaderKey == 0)
  }

  lemma {:induction false} KeysDistinct(entries: seq<Entry>)
    ensures forall i, j :: 0 <= i < j < |KeysInOrder(entries)| ==> KeysInOrder(entries)[i] != KeysInOrder(entries)[j]
    ensures forall key :: key in KeysInOrder(entries) <==> Select(entries, key) != []
    decreases |entries|
  {
    if entries != [] {
      KeysDistinct(entries[..|entries| - 1]);
    }
  }

  /** So keys are pairwise distinct, no group is empty, and a key has a group exactly when a class matched under it. */
  lemma GroupByMeans(groups: seq<Group>, entries: seq<Entry>)
    requires IsGroupBy(groups, entries)
    ensures forall i, j :: 0 <= i < j < |groups| ==> groups[i].loaderKey != groups[j].loaderKey
    ensures forall g <- groups :: g.classes != []
    ensures forall key :: (exists g <- groups :: g.loaderKey == key) <==> Select(entries, key) != []
  {
    KeysDistinct(entries);
    forall key
      ensures (exists g <- groups :: g.loaderKey == key) <==> Select(entries, key) != []
    {
      if Select(entries, key) != [] {
        var k :| 0 <= k < |KeysInOrder(entries)| && KeysInOrder(entries)[k] == key;
        assert groups[k].loaderKey == key;
      }
    }
  }

  // ---------------------------------------------------------------------------
  // The processor

  /** What the enumeration of a process answers. */
  datatype World = World(classOf: ClassPointer -> ArtClass, addGlobalRef: LoaderKey -> Option<GlobalRef>)

  /** The entries of a visiting order, each class counted once. */
  function EntriesOf(w: World, q: Query, visited: seq<ClassPointer>): seq<Entry> {
    if visited == [] then [] else
    var front, c := visited[..|visited| - 1], visited[|visited| - 1];
    EntriesOf(w, q, front)
    + if c in front then [] else
      match Contribution(q, w.classOf(c))
      case Ok(Some(entry)) => [entry]
      case _ => []
  }

  class ArtMethodQueryProcessor {
    const world: World
    const query: Query
    var seenClasses: set<ClassPointer>
    var groups: seq<Group>
    var error: Option<EnumerationError>
    ghost var entries: seq<Entry>

    ghost predicate Valid()
      reads this
    {
      IsGroupBy(groups, entries)
    }

    constructor (world: World, query: Query)
      ensures Valid() && this.world == world && this.query == query
      ensures seenClasses == {} && groups == [] && error == None && entries == []
    {
      this.world, this.query := world, query;
      seenClasses, groups, error, entries := {}, [], None, [];
    }

    /** `collect_class` up to the point where the class's methods are known. */
    method Collect(c: ArtClass) returns (r: Result<Option<Entry>, EnumerationError>)
      ensures r == Contribution(query, c)
    {
      if query.skipSystemClasses && c.loaderKey == 0 {
        return Ok(None);
      }
      if c.descriptor.None? {
        return Err(BadDescriptorText);
      }
      if !("L" <= c.descriptor.value) {
        return Ok(None);
      }
      var name := ClassNameFromDescriptor(c.descriptor.value);
      if query.skipSystemClasses && IsPlatformClass(name) {
        return Ok(None);
      }
      var matches := GlobMatches(query.classPattern, NormalizeCase(name, query.ignoreCase));
      if !matches || c.methods.None? || |c.methods.value| == 0 || |c.methods.value| > METHOD_COUNT_LIMIT {
        return Ok(None);
      }
      var methods := CollectMethods(query, name, c.methods.value);
      if methods.Err? {
        return Err(methods.error);
      }
      return Ok(if methods.value == [] then None else Some(Entry(c.loaderKey, QueryClass(name, methods.value))));
    }

    method FindOrAddGroup(key: LoaderKey) returns (index: Option<nat>)
      requires Valid()
      modifies this`groups
      ensures index.None? <==> key !in KeysInOrder(entries) && key != 0 && world.addGlobalRef(key).None?
      ensures index.None? ==> groups == old(groups)
      ensures index.Some? ==>
                && index.value < |groups| && groups[index.value].loaderKey == key
                && (key !in KeysInOrder(entries) ==> index.value == |old(groups)|)
                && groups == (if key in KeysInOrder(entries) then old(groups)
                              else old(groups) + [Group(key, if key == 0 then None else world.addGlobalRef(key), [])])
    {
      KeysDistinct(entries);
      var k: nat := 0;
      while k < |groups|
        invariant k <= |groups| && groups == old(groups)
        invariant forall j :: 0 <= j < k ==> groups[j].loaderKey != key
      {
        if groups[k].loaderKey == key {
          assert KeysInOrder(entries)[k] == key;
          return Some(k);
        }
        k := k + 1;
      }
      assert key !in KeysInOrder(entries);
      var loader := if key == 0 then None else world.addGlobalRef(key);
      if key != 0 && loader.None? {
        return None;
      }
      groups := groups + [Group(key, loader, [])];
      return Some(|groups| - 1);
    }

    /** Returns whether the enumeration should go on. */
    method Visit(c: ClassPointer) returns (more: bool)
      requires Valid()
      modifies this
      ensures Valid() && seenClasses == old(seenClasses) + {c}
      ensures more <==> c in old(seenClasses) || !Fails(world, query, old(entries), c)
      ensures !more ==> error == Some(FailureOf(world, query, old(entries), c))
      ensures if more then error == old(error) &&
                           entries == old(entries) + (if c in old(seenClasses) then [] else Added(world, query, c))
              else error.Some? && groups == old(groups) && entries == old(entries)
      ensures c in old(seenClasses) ==> groups == old(groups)
    {
      assert entries + [] == entries;
      if c in seenClasses {
        return true;
      }
      seenClasses := seenClasses + {c};
      var collected := Collect(world.classOf(c));
      if collected.Err? {
        error := Some(collected.error);
        return false;
      }
      if collected.value.None? {
        return true;
      }
      more := AddEntry(collected.value.value);
      if !more {
        error := Some(AddGlobalRefFailed);
      }
    }

    method AddEntry(entry: Entry) returns (added: bool)
      requires Valid()
      modifies this`groups, this`entries
      ensures Valid()
      ensures added <==> !NoLoader(world, old(entries), entry)
      ensures if added then entries == old(entries) + [entry] else groups == old(groups) && entries == old(entries)
    {
      var index := FindOrAddGroup(entry.loaderKey);
      if index.None? {
        return false;
      }
      var group := groups[index.value];
      groups := groups[index.value := group.(classes := group.classes + [entry.class_])];
      assert [] + [entry.class_] == [entry.class_];
      assert entry.loaderKey !in KeysInOrder(entries) ==>
          groups == old(groups) + [Group(entry.loaderKey, group.loader, [entry.class_])];
      GroupAdded(old(groups), old(entries), entry, groups, index.value);
      entries := entries + [entry];
      return true;
    }
  }

  /** A new group is needed and ART gives no global reference to its loader. */
  predicate NoLoader(w: World, entries: seq<Entry>, entry: Entry) {
    entry.loaderKey !in KeysInOrder(entries) && entry.loaderKey != 0 && w.addGlobalRef(entry.loaderKey).None?
  }

  predicate Fails(w: World, q: Query, entries: seq<Entry>, c: ClassPointer) {
    match Contribution(q, w.classOf(c))
    case Err(_) => true
    case Ok(None) => false
    case Ok(Some(entry)) => NoLoader(w, entries, entry)
  }

  /** The error of a class that fails. */
  function FailureOf(w: World, q: Query, entries: seq<Entry>, c: ClassPointer): EnumerationError
    requires Fails(w, q, entries, c)
  {
    match Contribution(q, w.classOf(c))
    case Err(error) => error
    case Ok(_) => AddGlobalRefFailed
  }

  function Added(w: World, q: Query, c: ClassPointer): seq<Entry> {
    match Contribution(q, w.classOf(c))
    case Ok(Some(entry)) => [entry]
    case _ => []
  }

  /** Appending a class to its loader's group, new or old, is grouping one more entry. */
  lemma GroupAdded(groups: seq<Group>, entries: seq<Entry>, entry: Entry, after: seq<Group>, index: nat)
    requires IsGroupBy(groups, entries)
    requires index < |after| && after[index].loaderKey == entry.loaderKey
    requires if entry.loaderKey in KeysInOrder(entries)
             then |after| == |groups|
                  && after == groups[index := groups[index].(classes := groups[index].classes + [entry.class_])]
             else index == |groups| && (after[index].loader.None? <==> entry.loaderKey == 0)
                  && after == groups + [Group(entry.loaderKey, after[index].loader, [entry.class_])]
    ensures IsGroupBy(after, entries + [entry])
  {
    var more := entries + [entry];
    assert more[..|entries|] == entries;
    KeysDistinct(entries);
    KeysDistinct(more);
    forall k | 0 <= k < |after|
      ensures after[k].loaderKey == KeysInOrder(more)[k]
      ensures after[k].classes == Select(more, after[k].loaderKey)
      ensures after[k].loader.None? <==> after[k].loaderKey == 0
    {
      if k != index {
        assert after[k] == groups[k];
        assert KeysInOrder(more)[k] != KeysInOrder(more)[index];
      }
    }
  }

  /** Every loader named by an entry is the boot loader or has a global reference. */
  ghost predicate LoadersKnown(w: World, entries: seq<Entry>) {
    forall entry <- entries :: entry.loaderKey == 0 || w.addGlobalRef(entry.loaderKey).Some?
  }

  lemma {:induction false} EntriesOfPrefix(w: World, q: Query, classes: seq<ClassPointer>, k: nat)
    requires k <= |classes|
    ensures EntriesOf(w, q, classes[..k]) <= EntriesOf(w, q, classes)
    decreases |classes|
  {
    if k == |classes| {
      assert classes[..k] == classes;
    } else {
      assert classes[..|classes| - 1][..k] == classes[..k];
      EntriesOfPrefix(w, q, classes[..|classes| - 1], k);
    }
  }

  lemma EntriesOfSnoc(w: World, q: Query, classes: seq<ClassPointer>, k: nat)
    requires k < |classes|
    ensures EntriesOf(w, q, classes[..k + 1]) ==
            EntriesOf(w, q, classes[..k]) + if classes[k] in classes[..k] then [] else Added(w, q, classes[k])
    ensures forall c :: c in classes[..k + 1] <==> c in classes[..k] || c == classes[k]
  {
    assert classes[..k + 1][..k] == classes[..k];
    assert classes[..k + 1] == classes[..k] + [classes[k]];
  }

  lemma {:induction false} KeysAreEntryKeys(entries: seq<Entry>, key: LoaderKey)
    requires key in KeysInOrder(entries)
    ensures exists entry <- entries :: entry.loaderKey == key
    decreases |entries|
  {
    var last := entries[|entries| - 1];
    if last.loaderKey != key {
      KeysAreEntryKeys(entries[..|entries| - 1], key);
    }
  }

  /** A failing visit is a class that cannot be described, or an entry whose loader cannot be referenced. */
  lemma FailureExplained(w: World, q: Query, classes: seq<ClassPointer>, k: nat)
    requires k < |classes| && classes[k] !in classes[..k]
    requires LoadersKnown(w, EntriesOf(w, q, classes[..k]))
    ensures var before := EntriesOf(w, q, classes[..k]);
            if Fails(w, q, before, classes[k])
            then Contribution(q, w.classOf(classes[k])).Err? || !LoadersKnown(w, EntriesOf(w, q, classes))
            else !Contribution(q, w.classOf(classes[k])).Err? && LoadersKnown(w, before + Added(w, q, classes[k]))
  {
    var before := EntriesOf(w, q, classes[..k]);
    EntriesOfSnoc(w, q, classes, k);
    match Contribution(q, w.classOf(classes[k]))
    case Err(_) =>
    case Ok(None) => assert before + [] == before;
    case Ok(Some(entry)) =>
      if NoLoader(w, before, entry) {
        EntriesOfPrefix(w, q, classes, k + 1);
        assert EntriesOf(w, q, classes)[|before|] == entry;
      } else if entry.loaderKey in KeysInOrder(before) {
        KeysAreEntryKeys(before, entry.loaderKey);
      }
  }

  /** What k successful visits have done. */
  ghost predicate VisitedSoFar(w: World, q: Query, classes: seq<ClassPointer>, k: nat,
                               seen: set<ClassPointer>, entries: seq<Entry>)
  {
    && k <= |classes|
    && seen == (set c <- classes[..k])
    && entries == EntriesOf(w, q, classes[..k])
    && (forall c <- classes[..k] :: !Contribution(q, w.classOf(c)).Err?)
    && LoadersKnown(w, entries)
  }

  /** The whole enumeration can succeed: every class is describable and every loader met can be referenced. */
  ghost predicate AllVisitable(w: World, q: Query, classes: seq<ClassPointer>) {
    (forall c <- classes :: !Contribution(q, w.classOf(c)).Err?) && LoadersKnown(w, EntriesOf(w, q, classes))
  }

  lemma OneMoreVisited(w: World, q: Query, classes: seq<ClassPointer>, k: nat,
                       seen: set<ClassPointer>, entries: seq<Entry>)
    requires k < |classes| && VisitedSoFar(w, q, classes, k, seen, entries)
    ensures (classes[k] in seen || !Fails(w, q, entries, classes[k])) ==>
              VisitedSoFar(w, q, classes, k + 1, seen + {classes[k]},
                           entries + if classes[k] in seen then [] else Added(w, q, classes[k]))
    ensures classes[k] !in seen && Fails(w, q, entries, classes[k]) ==> !AllVisitable(w, q, classes)
  {
    hide Contribution, Added, Fails;
    EntriesOfSnoc(w, q, classes, k);
    if classes[k] in seen {
      assert entries + [] == entries;
    } else {
      FailureExplained(w, q, classes, k);
    }
  }

  /** The k-th visit is the first that fails. */
  ghost predicate FailsFirst(w: World, q: Query, classes: seq<ClassPointer>, k: nat)
    requires k < |classes|
  {
    && classes[k] !in classes[..k]
    && AllVisitable(w, q, classes[..k])
    && Fails(w, q, EntriesOf(w, q, classes[..k]), classes[k])
  }

  /**
    Visiting classes in any order, with repeats, groups exactly the matching ones, each once and in visit order; or
    stops at the first that fails, with its error.
  */
  method VisitAll(world: World, query: Query, classes: seq<ClassPointer>)
    returns (r: Result<seq<Group>, EnumerationError>)
    ensures r.Ok? ==> IsGroupBy(r.value, EntriesOf(world, query, classes))
    ensures r.Ok? <==> AllVisitable(world, query, classes)
    ensures r.Err? ==> exists k: nat :: k < |classes| && FailsFirst(world, query, classes, k)
                         && r.error == FailureOf(world, query, EntriesOf(world, query, classes[..k]), classes[k])
  {
    var processor := new ArtMethodQueryProcessor(world, query);
    for k: nat := 0 to |classes|
      invariant fresh(processor) && processor.Valid() && processor.error == None
      invariant processor.world == world && processor.query == query
      invariant VisitedSoFar(world, query, classes, k, processor.seenClasses, processor.entries)
    {
      OneMoreVisited(world, query, classes, k, processor.seenClasses, processor.entries);
      var more := processor.Visit(classes[k]);
      if !more {
        assert FailsFirst(world, query, classes, k);
        return Err(processor.error.value);
      }
    }
    assert classes[..|classes|] == classes;
    return Ok(processor.groups);
  }

  /** The classes in order of their first visit. */
  function FirstVisits(visited: seq<ClassPointer>): seq<ClassPointer> {
    if visited == [] then [] else
    var front, c := visited[..|visited| - 1], visited[|visited| - 1];
    FirstVisits(front) + if c in front then [] else [c]
  }

  lemma {:induction false} FirstVisitsMembers(visited: seq<ClassPointer>)
    ensures forall c :: c in FirstVisits(visited) <==> c in visited
    decreases |visited|
  {
    if visited != [] {
      var front, c := visited[..|visited| - 1], visited[|visited| - 1];
      FirstVisitsMembers(front);
      assert visited == front + [c];
    }
  }

  /** The entries depend only on the order of first visits: two runs that agree on it give the same groups. */
  lemma {:induction false} OnlyFirstVisitsMatter(w: World, q: Query, visited: seq<ClassPointer>)
    ensures EntriesOf(w, q, FirstVisits(visited)) == EntriesOf(w, q, visited)
    decreases |visited|
  {
    if visited != [] {
      var front, c := visited[..|visited| - 1], visited[|visited| - 1];
      OnlyFirstVisitsMatter(w, q, front);
      FirstVisitsMembers(front);
      var kept := FirstVisits(front);
      if c in front {
        assert kept + [] == kept && EntriesOf(w, q, front) + [] == EntriesOf(w, q, front);
      } else {
        assert (kept + [c])[..|kept|] == kept;
      }
    }
  }
}

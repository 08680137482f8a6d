# Verification of the Frida Java bridge's decision logic

A Dafny model of what this crate decides, with ART and JNI behind oracles: memory is a set of readable ranges and
the loads it answers, a JNI call returns what the environment likes. Each module follows one part of the crate.

- `Wrappers`, `Text`, `MethodKinds`: result shapes, the string operations the parsers use, the kinds of a method.
- `MethodQuery`: the glob matcher and the query parser. `MethodEnumeration`: the processor that filters, de-duplicates
  and groups ART's classes by loader.
- `Signature`, `TypeNames`, `PrettyMethod`: descriptors (sections 4.3.2 and 4.3.3 of the Java Virtual Machine
  Specification), type names and the PrettyMethod format. `ClassLookup`: class-name normalisation and the caches.
- `AppPerform`, `AppPerformSafety`: the deferred-callback protocol as a state machine over critical sections, and what
  holds in every interleaving. `MainThread`: the main-thread scheduler.
- `ArtMemory`, `ArtLayout`, `Trampolines`, `ClassLayout`, `RuntimeLayoutScan`: the scans of untrusted memory, each
  proved to find what a search stated over all offsets finds.
- `OverloadDispatch`: scoring, selecting and converting for an overloaded call.
- `ArtMethodImage`, `MethodReplacement`, `MethodReplacementRuns`: patching a method, the life of a replacement, and any
  number of them over any run. `ReplacementLayout`: which detected layouts a method can be cloned under.
- `GlobalReferences`, `PendingExceptions`: who deletes which global reference, and what is left pending.

Where the crate works step by step, the model is a class or a method with loops, proved against a function; lemmas
then say what that function means.

## Modelling choices

- Strings are sequences of bytes, one `char` per byte; trimming knows the ASCII blanks only.
- The target is 64-bit arm64: pointers are eight bytes, the top byte is a tag, pointer arithmetic wraps at 2^64. Loads
  of different widths at one address are independent answers, which allows more than bytes can hold; a memory given as
  an example is made of bytes.
- An activity of the perform protocol stands for a thread, or for a call made from within a callback of another: each
  has its own place in the protocol, which allows every interleaving of both.
- Dispatch scores are unbounded integers; floating-point values are opaque, with an oracle for which double narrows.
- In a method's image, 32-bit words are the unit, as in the layout scan. Writes to a method take effect; the read that
  verifies a write may report anything. An install, revert or drop is one step. ART may write to its methods at any
  time, but not to the replaced fields of a replaced method. mmap returns unused memory, and a JNI method ID never
  denotes a clone.
- A JNI call that raises returns null. Dropping a wrapper deletes its reference; the crate skips the deletion when the
  thread cannot be attached, and the reference is then lost.

## What the proofs found

- `*` in a value: the matcher compares bytes before it looks for a star, so `a*` refuses `a*b`. `ExactForValue` and
  `ExactForPattern` give the exact conditions.
- A malformed spelling such as `L[I;` shares its cache key with another class (`SameKeyDifferentClass`).
- A late signal that arrives during a drain is ignored, so if that drain fails, LoadedApk may begin all the same
  (`LateSignalLost`).
- `perform` checks for a loader and enqueues in two critical sections; a callback can be left in the queue for good
  (`LeftBehindPossible`), and `LeftBehindExactly` says which.
- Two error reasons cannot be reported: the entry point outside libandroid_runtime.so (`OutsideRuntimeNeverReported`)
  and the unresolved target of a given kind (`UnresolvedExactly`).
- The layout scan does not ask whether the access flags lie within the size it derives. Such a layout can be detected
  (`FlagsOutsideDetected`) and every replacement under it fails at the clone (`FlagsOutsideNeverInstall`);
  `DetectedCloneable` gives the exact condition.
- The declaring class is copied to word 0 of a clone whatever the detected layout has there. `AlwaysLeadsExactly` and
  `MethodLeadsExactly` say when the clone then still leads to its replacement.
- A class of the default package may start like a descriptor: `Foo` is refused (`DefaultPackageClassRefused`).
  `FromNameSpellingExact` gives the exact condition.
- `detect_art_method_entrypoints` never reports an interpreter entry point (`DetectEntrypoints`).
- `method_query_groups_from_art_groups` attaches the thread before it owns the references, so a failure to attach loses
  them all (`QueryGroupsFromArtGroups`).

## Model

| member | source | states |
|---|---|---|
| MethodQuery.GlobMatches | src/method_query.rs:90-118 | the loop with its last-star backtracking terminates and, for every pattern and value, answers true only if the recursive `*`/`?` meaning holds; when the pattern or the value has no `*` byte it answers true exactly then |
| MethodQuery.ScanSound | src/method_query.rs:96-115 | from any loop state, acceptance implies that the rest of the pattern, or the pattern from the remembered star, matches |
| MethodQuery.ScanComplete | src/method_query.rs:96-115 | giving up every star but the last loses no match: a loop state whose current or remembered position still matches is accepted |
| MethodQuery.ExactForValue | src/method_query.rs:98-100 | the matcher decides the glob language for a value under every pattern if and only if the value has no `*`; the source tests literal equality before the star |
| MethodQuery.ExactForPattern | src/method_query.rs:98-100 | the matcher decides a pattern on every value if and only if the pattern has no `*` |
| MethodQuery.RefusedPattern | src/method_query.rs:98-100 | for every value holding a `*`, a pattern that matches it and is refused |
| MethodQuery.RefusedValue | src/method_query.rs:98-100 | for every pattern holding a `*`, a value that it matches and refuses |
| MethodQuery.ParseFlagged | src/method_query.rs:15-53 | a query rendered as class, `!`, method, `/`, flags reads back as its parts, whatever the method pattern holds; an empty part is refused |
| MethodQuery.ParseUnflagged | src/method_query.rs:15-53 | without a recognised flag suffix, everything after the first `!` is the method pattern, verbatim, and every switch is off |
| MethodQuery.ParseNoSeparator | src/method_query.rs:15-53 | a query is refused for its separator exactly when it has no `!` |
| MethodQuery.LowerCasingIsIgnoringCase | src/method_query.rs:73-79 | matching the lower-cased name against the lower-cased pattern is matching with letters compared without case |
| MethodQuery.IgnoringCaseFilterExact | src/method_query.rs:73-118 | with the ignore-case flag, the glob loop on the normalised texts decides the case-insensitive glob meaning for names without `*` |
| Signature.Parser.Next | src/signature.rs:393-397 | takes one byte and advances by one, or stays at the end |
| Signature.Parser.Expect | src/signature.rs:386-391 | succeeds exactly on the expected byte; the cursor moves past what it looked at and never past the end |
| Signature.Parser.ParseObject | src/signature.rs:369-384 | the loop computes the object type and the cursor of the recursive reading, errors and their offsets included |
| Signature.Parser.ParseTypeStep | src/signature.rs:341-367 | the cursor parser computes the recursive reading of one type, its result, error offset and final cursor |
| Signature.ParseJavaType | src/signature.rs:40-48 | accepts a text as a type exactly when the type is well formed and the text is its printed descriptor |
| Signature.ParseMethodSignature | src/signature.rs:142-164 | accepts a text as a signature exactly when the signature is well formed and the text is its printed descriptor |
| Signature.TypeAt | src/signature.rs:341-367 | reading a type consumes at least one byte on success and never passes the end of the text |
| Signature.TypePrinted | src/signature.rs:88-102 | a printed well-formed type is read back whatever text follows it, and the cursor stops right after it |
| Signature.TypeAccepted | src/signature.rs:341-367 | whatever is accepted prints back to the very bytes consumed |
| Signature.ParseTypeExact | src/signature.rs:40-48 | parser and printer of types are inverses both ways, at any nesting depth |
| Signature.ParseSignatureExact | src/signature.rs:142-185 | parser and printer of signatures are inverses both ways, for any number of arguments |
| Signature.DescriptorsPrefixFree | src/signature.rs:88-102 | no well-formed descriptor is a proper prefix of another |
| Signature.SignaturesDecodeUniquely | src/signature.rs:177-185 | two well-formed signatures with one descriptor are equal |
| TypeNames.FromNameInternal | src/signature.rs:55-69 | whatever is accepted, as a descriptor or as source text, is an argument type (never `void`) whose class names are non-empty and slashed |
| TypeNames.FromNameDescriptor | src/signature.rs:55-69 | the descriptor of a type in internal form, given as a name, is read as that type |
| TypeNames.FromNameSpellingExact | src/signature.rs:55-69 | the source-style spelling of a type names it exactly when that spelling does not start like a descriptor |
| TypeNames.PrimitiveLetterRefused | src/signature.rs:55-69 | a longer name that starts with a primitive's letter is always refused, with the offset of what trails the letter |
| TypeNames.DefaultPackageClassRefused | src/signature.rs:105-110 | a class of the default package may have no accepted source-style name: `Foo` |
| TypeNames.SpellingIsNotDescriptor | src/signature.rs:105-110 | a source-style spelling is never at the same time the descriptor of the type it spells |
| PrettyMethod.FromPrettyName | src/signature.rs:278-325 | the loop that strips `[]` and rebuilds the array computes the recursive reading of a source-style name |
| PrettyMethod.PrettyNameRoundTrip | src/signature.rs:278-325 | a printed source-style type name is read back as its type, to any array depth |
| PrettyMethod.PrettyTypesRoundTrip | src/signature.rs:195-209 | a printed return type and argument list, of any length, are read back as the signature |
| PrettyMethod.PrettyMethodRoundTrip | src/art/enumeration.rs:1469-1533 | a method rendered in the PrettyMethod format is read back with its name, kind, modifiers and whole signature; class initialisers are skipped |
| ClassLookup.NormalizeArrayDescriptorForLoader | src/java/lookup.rs:119-137 | the loop turns slashes into dots exactly inside `L...;` names |
| ClassLookup.SameKeyExact | src/java/lookup.rs:99-117 | two spellings with one cache key are looked up alike if and only if both or neither are array spellings and they agree byte for byte outside class names |
| ClassLookup.SameKeyDifferentClass | src/java/lookup.rs:99-117 | a malformed spelling shares its cache key with a different class: `L[I;` and `[I` |
| ClassLookup.WellFormedKeysAgree | src/java/lookup.rs:99-137 | well-formed spellings (dotted, slashed, `L...;`, array descriptors of any depth) with one cache key have one loader name and array flag |
| ClassLookup.LoaderNameIsClassName | src/signature.rs:132-138 | the loader name of every reference descriptor is class_name_from_descriptor of it |
| ClassLookup.SpellingsOfOneClass | src/java/lookup.rs:99-117 | the dotted, slashed and `L...;` spellings of a class reach the same lookup |
| ClassLookup.JavaHandle.FindClass | src/java/handle.rs:767-795 | a hit returns the entry and changes nothing, a miss stores what the fresh lookup gave; while only well-formed spellings are used, every answer is what a fresh lookup gives |
| ClassLookup.RawClassMembers.CachedMethod | src/java/class.rs:268-310 | every answer is that of an uncached lookup with the descriptor as given; only successes are stored, under the normalised descriptor |
| ClassLookup.RawClassMembers.CachedField | src/java/class.rs:312-349 | the same for fields |
| AppPerform.AppPerformState.PublishAppLoader | src/java/perform.rs:363-382 | fails without change when the thread cannot be attached or the loader cannot be compared with the default; otherwise sets the default loader and nothing else, keeping the old object when it is the same loader |
| AppPerform.AppPerformState.BeginStartupDrain | src/java/perform.rs:150-161 | begins exactly from Waiting, and not for LoadedApk once the hook point is Late |
| AppPerform.AppPerformState.FinishStartupDrain | src/java/perform.rs:163-173 | ends a drain as Initialized with its source, or back in Waiting with its hook point |
| AppPerform.AppPerformState.RequireLateStartupDrain | src/java/perform.rs:137-148 | moves the hook point from Early to Late only while Waiting |
| AppPerform.AppPerformState.Enqueue | src/java/perform.rs:433-436 | appends one operation |
| AppPerform.AppPerformState.TakePending | src/java/perform.rs:499-503 | swaps the whole queue out |
| AppPerform.AppPerformState.EnsureHook | src/java/perform.rs:438-480 | of the three hooks, one of the two that drain is enough; what is once installed stays |
| AppPerformSafety.RunKeepsInv | src/java/perform.rs:327-576 | every interleaving of any number of performs, hooks, drains, late signals and waits keeps the protocol invariant |
| AppPerformSafety.DrainingMeansOneDrainer | src/java/perform.rs:130-174 | the state is Draining exactly while one activity is between its begin and its finish, for that source; two activities are never both there; at most one drain ever swaps the queue |
| AppPerformSafety.OneFate | src/java/perform.rs:433-509 | each operation is in exactly one of queue, batch, running, settling, finished, refused or discarded; its callback runs at most once, its status is set at most once and is not Pending exactly then; Completed means the result slot holds Ok or was taken |
| AppPerformSafety.DrainedInOrder | src/java/perform.rs:499-509 | what drains finished is a prefix of what was enqueued, in order |
| AppPerformSafety.CallbacksAfterPublish | src/java/perform.rs:482-509 | no callback runs before a default loader is published |
| AppPerformSafety.Forever | src/java/perform.rs:163-173 | over any continuation, Initialized and its source are permanent, the default never becomes None again, a settled status never changes |
| AppPerformSafety.LoadedApkBeginsExactly | src/java/perform.rs:150-161 | a LoadedApk drain begins if and only if the state is Waiting and no late signal ever came while it was Waiting |
| AppPerformSafety.LateSignalLost | src/java/perform.rs:137-148 | a run with every hook installed in which a late signal arrives while a perform's own drain looks for the application, that drain fails, and LoadedApk begins all the same |
| AppPerformSafety.LeftBehindExactly | src/java/perform.rs:499-509 | once Initialized, the callbacks never drained are exactly those enqueued after the swap |
| AppPerformSafety.AtomicLeavesNobody | src/java/handle.rs:379-422 | with check and enqueue atomic, Initialized means an empty queue and everything enqueued was drained in order |
| AppPerformSafety.LeftBehindPossible | src/java/handle.rs:392-417 | without it, a run in which a perform that checked before the publish is left in the queue of an Initialized state |
| MainThread.MainThreadState.Schedule | src/java/main_thread.rs:228-248 | enqueues a Pending task, or one already Failed when the wake fails; changes nothing when the hook is missing |
| MainThread.MainThreadState.DrainIfMainThread | src/java/main_thread.rs:341-367 | the swap-and-pop loop computes the batch semantics and terminates although callbacks schedule more; other threads change nothing |
| MainThread.ExecutedExactly | src/java/main_thread.rs:341-367 | over any run, what ran is exactly the drained tasks whose wake succeeded, in enqueue order, and drained followed by queued is everything ever enqueued |
| MainThread.OnceEach | src/java/main_thread.rs:228-248 | each task runs at most once; it ran exactly when drained with a successful wake; a wake-failed task is Failed and never runs |
| MainThread.ScheduledTasksWait | src/java/main_thread.rs:341-367 | a drain takes exactly what was queued when it began; what its callbacks schedule waits for the next |
| ArtMemory.NormalizeOffset | src/art/layout.rs:758-766 | adding to a tagged address and clearing the tag commute while no bit reaches the tag, without overflow |
| ArtMemory.BlockCoversFields | src/art/memory.rs:131-141 | one successful range check covers every field of the block, whatever the tag |
| ArtMemory.BlockFieldsRead | src/art/layout.rs:724-746 | so every checked read inside a checked block answers |
| ArtMemory.PermissionsImplyReadable | src/art/memory.rs:143-165 | the executable and writable checks each imply the readable one |
| ArtLayout.FirstIsLowest | src/art/layout.rs:497-528 | the search function used as specification returns the lowest hit, or None exactly when there is none |
| ArtLayout.ScanWords | src/art/layout.rs:494-530 | the one interleaved pass with its early break equals independent searches: lowest access flags, lowest runtime entry point, else (with the fallback) lowest executable one |
| ArtLayout.TryCandidate | src/art/layout.rs:488-558 | one candidate yields its derived layout exactly when both offsets exist and the layout fits in readable memory |
| ArtLayout.DetectReplacementLayout | src/art/layout.rs:475-564 | the result is that of the first candidate that yields a layout, and otherwise the reason is that of the evidence over all candidates |
| ArtLayout.YieldedLayoutReads | src/art/layout.rs:545-557 | every field of a yielded layout can be read from its method |
| ArtLayout.OutsideRuntimeNeverReported | src/art/layout.rs:592-604 | the reason that blames an entry point outside the runtime module is unreachable |
| ArtLayout.DetectEntrypoints | src/art/layout.rs:664-698 | the first adjacent pair of executable words, with no unreadable word up to it, and otherwise none; the interpreter entry point it reports is always None |
| Trampolines.DerivationsAgree | src/art/layout.rs:303-338 | the anchor and predicate derivations of the four offsets agree if and only if the API level is at least 23 |
| Trampolines.ReadTrampolinesExact | src/art/layout.rs:340-398 | reading succeeds exactly when the four slots are readable, non-null and executable, and returns their contents |
| Trampolines.UniqueSequence | src/art/layout.rs:240-290 | the loop with its remembered candidate computes the recursive scan, first error included |
| Trampolines.ScanFromExact | src/art/layout.rs:240-290 | that scan succeeds exactly when one offset hits and its slots read, and returns them |
| Trampolines.DetectByPredicate | src/art/layout.rs:221-301 | without predicates it is refused, otherwise it is the scan |
| Trampolines.DetectTrampolines | src/art/layout.rs:188-219 | the first anchor decides; only without one are the predicates asked |
| Trampolines.DetectedWithoutAnchor | src/art/layout.rs:221-301 | with no anchor, detection succeeds if and only if exactly one offset of the window matches and its four slots are good |
| Trampolines.DetectedAreConsecutive | src/art/layout.rs:188-338 | from API 23 on, both paths return the contents of four consecutive words, all executable addresses |
| ClassLayout.DetectThreadClassMethodLayout | src/art/layout.rs:146-186 | the first offset whose array holds all known methods, with the copied-methods offset found after it |
| ClassLayout.DetectCopiedMethodsOffset | src/art/layout.rs:413-429 | the first slot from there that holds the count, unless an unreadable one comes before it |
| ClassLayout.MethodSlotsReadable | src/art/layout.rs:156-175 | every method slot of a fitting array lies in readable memory |
| ClassLayout.DetectedFits | src/art/layout.rs:146-186 | a detected layout is the lowest offset that fits, and its copied-methods field, at or after it, holds the array's length |
| ClassLayout.CopiedHoldsCount | src/art/layout.rs:413-429 | the copied-methods offset of a detected layout holds the array's length |
| RuntimeLayoutScan.NoGuessDropped | src/art/runtime_layout.rs:161-181 | from API 26 on, no offset subtraction underflows, no guess is dropped, and the fields lie in ART's order below the JavaVM pointer |
| RuntimeLayoutScan.ScanTable | src/art/runtime_layout.rs:183-235 | the nested loop accepts or aborts at the lexicographically first guess that decides, and Exhausted means every guess was passed over, with the first rejection recorded |
| RuntimeLayoutScan.ScanCandidates | src/art/runtime_layout.rs:183-235 | the same for the process: API level and null runtime are refused first |
| RuntimeLayoutScan.JudgedLayoutIsReadable | src/art/runtime_layout.rs:237-300 | whatever is judged was read from readable words and has its pointers set and readable |
| RuntimeLayoutScan.AcceptedLayout | src/art/runtime_layout.rs:93-144 | an accepted layout yields its trampolines |
| RuntimeLayoutScan.DetectRuntimeLayoutAndTrampolines | src/art/runtime_layout.rs:93-144 | every outcome exactly: success if and only if some guess is accepted before any other decides, with its layout and trampolines; no JavaVM pointer, nothing but skips, the first rejection, and unsupported (old API, null runtime, an aborting guess), each if and only if |
| MethodEnumeration.CollectMethods | src/art/enumeration.rs:635-668 | the loop with its set of seen names keeps exactly the wanted methods, in order, and reports the first failure |
| MethodEnumeration.DeduplicationCommutes | src/art/enumeration.rs:648-664 | de-duplicating display names before matching equals matching before de-duplicating |
| MethodEnumeration.ArtMethodQueryProcessor.Collect | src/art/enumeration.rs:597-672 | one class contributes nothing, one entry or an error, decided in the source's order |
| MethodEnumeration.ArtMethodQueryProcessor.FindOrAddGroup | src/art/enumeration.rs:680-714 | the group with the key, or a new last one whose loader is None exactly for key 0; a refused reference changes nothing |
| MethodEnumeration.ArtMethodQueryProcessor.Visit | src/art/enumeration.rs:575-587 | a class seen before changes nothing; a new one adds its entry and keeps the groups the group-by of the entries |
| MethodEnumeration.GroupAdded | src/art/enumeration.rs:668-714 | adding a class to its loader's group, new or old, is the group-by of one more entry |
| MethodEnumeration.GroupByMeans | src/art/enumeration.rs:680-714 | in a group-by, keys are pairwise distinct, no group is empty, and a key has a group exactly when a class matched under it |
| MethodEnumeration.VisitAll | src/art/enumeration.rs:575-714 | visiting any sequence of classes succeeds exactly when every class can be described and every loader met can be referenced, and then gives exactly the group-by of the matching classes in visit order; otherwise it returns the error of the first class that fails |
| MethodEnumeration.OnlyFirstVisitsMatter | src/art/enumeration.rs:575-582 | what is collected depends only on the order of first visits, however often and whenever classes come again |
| OverloadDispatch.CoercionPreserves | src/coercion.rs:9-58 | a coerced value has the expected type and an integer keeps its value |
| OverloadDispatch.PrepareCallArguments | src/java/args/call.rs:312-334 | succeeds exactly when every argument converts, in order; otherwise the first failure is reported |
| OverloadDispatch.AllMatch | src/signature.rs:211-230 | validation succeeds exactly when every value matches its type |
| OverloadDispatch.DispatchScore | src/java/members.rs:860-877 | the loop computes the sum of the argument scores, ending at the first incompatible argument or error |
| OverloadDispatch.CompatibleConverts | src/java/members.rs:879-898 | whatever dispatch accepts for a type, preparation converts to a value of that type, integers unchanged |
| OverloadDispatch.CompatibleExactly | src/java/members.rs:879-921 | for everything but a live object, dispatch accepts an argument exactly when it converts |
| OverloadDispatch.SelectMethod | src/java/members.rs:786-827 | the winner is the earliest accepted candidate of least total score; failure names the accepted candidates and means none is compatible; a JNI error is that of an accepted candidate's score |
| OverloadDispatch.DispatchCall | src/java/conversion.rs:33-70 | a dispatched call passes signature validation with every integer unchanged; after selection only the creation of a Java string can fail |
| ArtMethodImage.RestoreIsExact | src/art/replacement/method.rs:299-343 | writing back a snapshot restores every word, whatever was written to the fields in between and however they overlap |
| ArtMethodImage.PatchReadsBackExactly | src/art/replacement/method.rs:110-158 | a written snapshot reads back for every value if and only if the layout's fields do not overlap |
| ArtMethodImage.FailedPatchLeavesNoTrace | src/art/replacement/method.rs:242-266 | a verified write that fails, for whatever reason its read-back gives, leaves every word as it was |
| ReplacementLayout.CloneableExactly | src/art/replacement/method.rs:268-297 | with the code fields inside the method, some request can be cloned if and only if the access flags lie within the method's size |
| ReplacementLayout.AlwaysCloneableExactly | src/art/replacement/method.rs:268-297 | every request can be cloned if and only if the flags also share no word with the code fields |
| ReplacementLayout.DetectedCloneable | src/art/layout.rs:530-557 | for a layout that the scan yields, cloning is possible if and only if the four bytes of the flags end within the derived size |
| ReplacementLayout.FlagsOutsideNeverInstall | src/art/replacement.rs:89-103 | with flags at or past the size no install succeeds, and one that finds its method fails at the clone |
| ReplacementLayout.FlagsOutsideDetected | src/art/layout.rs:488-558 | a memory, given byte by byte, whose scan yields such a layout: sixteen bytes, flags at byte 32 |
| ReplacementLayout.MethodLeadsExactly | src/art/replacement/controller.rs:260-284 | under a layout with its fields inside the method and apart, every clone of one method still leads to its replacement after synchronisation if and only if the JNI code is not at word 0, nor the flags unless the method is native |
| ReplacementLayout.AlwaysLeadsExactly | src/art/replacement/controller.rs:260-284 | for every method and every request, if and only if word 0 is not a field |
| MethodReplacement.ArtReplacementController.Register | src/art/replacement/controller.rs:139-188 | refuses null, overflow, a target or a replacement already registered, in that order and without change; otherwise adds both map entries |
| MethodReplacement.ArtReplacementController.Unregister | src/art/replacement/controller.rs:190-198 | removes the record and its reverse entry, or nothing |
| MethodReplacement.ArtBackend.SynchronizeReplacementMethods | src/art/replacement/controller.rs:260-284 | in whatever order the records are visited, every registered clone ends with its method's declaring class and nothing else changes |
| MethodReplacement.ArtBackend.CloneMethod | src/art/replacement/method.rs:268-297 | maps a verified, patched copy, or leaves no mapping behind |
| MethodReplacement.ArtBackend.RegisterAndPatch | src/art/replacement.rs:114-138 | registers before it patches, and takes the registration back when the patch does not verify |
| MethodReplacement.ArtBackend.PrepareCandidate | src/art/replacement.rs:89-113 | clone, thunk, suspension, in that order: on a failure everything mapped on the way is unmapped, on success exactly the clone and the thunk are new |
| MethodReplacement.ArtBackend.ReplaceCandidate | src/art/replacement.rs:89-155 | the steps after a candidate matched, in the source's order, do what the install function says, unmapping what was made on every failure |
| MethodReplacement.ArtBackend.ReplaceMethod | src/art/replacement.rs:52-190 | the candidate loop acts on the first readable candidate of the right kind and reports the right error when there is none |
| MethodReplacement.ArtBackend.RestoreMethod | src/art/replacement.rs:192-205 | writes the snapshot unless it could not begin, and succeeds only if it reads back |
| MethodReplacement.ArtMethodReplacementGuard.Revert | src/art/replacement/guard.rs:31-40 | restores, then unregisters, then marks the guard; a failed restore leaves it active |
| MethodReplacement.ArtMethodReplacementGuard.Drop | src/art/replacement/guard.rs:88-97 | reverts if that was not done; unmaps the clone and the thunk unless the revert failed |
| MethodReplacementRuns.FailedInstallLeavesNoTrace | src/art/replacement.rs:80-138 | a failed install, wherever it failed, leaves registry, memory and every word of every method unchanged |
| MethodReplacementRuns.UnresolvedExactly | src/art/replacement.rs:158-183 | an install is refused as unresolvable exactly when no candidate is readable and of the right kind; the "unable to resolve a ... target" reasons are unreachable |
| MethodReplacementRuns.InstalledMethodLeadsToReplacement | src/art/replacement.rs:89-155 | after an install whose patch reads back, the method's quick code is the thunk with JNI code and interpreter code intact, no other method changed, and the synchronised clone's JNI code is the replacement behind the JNI trampoline if and only if the declaring-class word it was given is harmless |
| MethodReplacementRuns.SynchronizedCloneReads | src/art/replacement/controller.rs:260-284 | taking word 0 of the patched method leaves the clone's fields if and only if word 0 is no flags field of a non-native method and no code field whose first word differs between method and clone |
| MethodReplacementRuns.InstallThenDropUndoes | src/art/replacement/guard.rs:88-97 | dropping a fresh guard, when the restore can be carried out, gives back the methods, the registry and the mapped memory of before the install |
| MethodReplacementRuns.RevertIsIdempotent | src/art/replacement/guard.rs:31-40 | after a successful revert, another succeeds and changes nothing |
| MethodReplacementRuns.StepKeepsInv | src/art/replacement.rs:52-205 | every install, revert, drop, synchronisation and write by ART, with failures anywhere, keeps the invariant |
| MethodReplacementRuns.PatchedMethodsStayBacked | src/art/replacement.rs:113-138 | over any run, a method that differs from what ART alone would have left is registered and its clone and thunk are mapped |
| MethodReplacementRuns.SnapshotsArePristine | src/art/replacement.rs:81-83 | over any run, an unreverted guard's snapshot is what the method would hold had the crate done nothing |
| MethodReplacementRuns.OneGuardPerMethod | src/art/replacement/controller.rs:163-168 | at any time at most one guard holds a method |
| MethodReplacementRuns.HeldMethodsRefuseInstall | src/art/replacement/controller.rs:163-168 | a method that a guard holds, leaked or not, refuses another install, which changes nothing |
| MethodReplacementRuns.AllRevertedRestoresEverything | src/art/replacement/guard.rs:31-40 | once no guard holds a method, in whatever order they were reverted, every word of every method is what ART alone would have left and the registry is empty |
| MethodReplacementRuns.OnlyFailedRevertsLeak | src/art/replacement/guard.rs:88-97 | once every guard was dropped, the clones and thunks still mapped are exactly those of guards whose revert failed |
| GlobalReferences.Env.FromGlobalRaw | src/loader.rs:54-67 | null is refused with nothing to delete; a loader that fails validation is deleted once by its wrapper |
| GlobalReferences.FailureDeletesEachOnce | src/java/handle.rs:689-694 | wherever a conversion fails, the failed element, the rest in any order and the wrappers already made together delete every non-null reference once |
| GlobalReferences.RefsFromArtHandles | src/java/handle.rs:667-725 | the reverse-and-pop loop: each non-null reference ends in exactly one returned wrapper or deleted exactly once, wrappers in input order, failing exactly at the first bad element |
| GlobalReferences.ConvertGroups | src/java/handle.rs:611-658 | the same conservation for method-query groups, whose order, classes and missing loaders are kept |
| GlobalReferences.QueryGroupsFromArtGroups | src/java/handle.rs:600-659 | every loader reference is accounted for if and only if the thread could be attached or there was none to account for |
| GlobalReferences.DeliverHeapInstanceHandles | src/java/handle.rs:961-999 | the callbacks see a prefix of the batch in order, each object dropped when its callback returns, the rest deleted on a stop, an error or a null |
| GlobalReferences.DeliveryConserves | src/java/handle.rs:961-999 | whatever the callback answers, every non-null reference of the batch is deleted exactly once |
| PendingExceptions.Jni.Throw | src/env/exceptions.rs:186-194 | JNI's contract: forbidden while something is pending, and success leaves the thrown object pending |
| PendingExceptions.TakeDetailException | src/env/exceptions.rs:285-292 | clears what a detail call raised and says whether it did |
| PendingExceptions.JavaStringToLossyString | src/env/exceptions.rs:251-283 | nothing left pending and every character buffer released, wherever the calls raise |
| PendingExceptions.ThrowableToString | src/env/exceptions.rs:197-249 | no call forbidden while an exception is pending; nothing left pending and every local reference made is deleted, wherever the calls raise |
| PendingExceptions.GlobalThrowableFromLocal | src/env/exceptions.rs:152-170 | adds one global reference to the throwable and returns it, or adds none |
| PendingExceptions.TakePendingException | src/env/exceptions.rs:64-86 | exits with none pending and the local references of before; only the returned global reference was added |
| PendingExceptions.CheckPendingException | src/env/exceptions.rs:88-119 | an error exactly when something was pending, and none pending afterwards |
| PendingExceptions.Take | src/env/exceptions.rs:172-184 | moves the pending throwable into a local reference |
| PendingExceptions.ThrowTaken | src/env/exceptions.rs:186-194 | rethrows it and deletes the local reference |
| PendingExceptions.CheckPendingExceptionPreserve | src/env/exceptions.rs:121-150 | exits with the same throwable pending unless Throw itself failed, and with the references of before |

## Left out

- AppPerformSafety.RunKeepsInv: is about safety; that a drain is ever begun, or a queued callback ever run, is not claimed.
- AppPerform.AppPerformState.EnsureHook: which of the three hooks can be installed is an answer of the environment; the installation and the method that its callback wraps are not modelled.
- AppPerform.AppPerformState.PublishAppLoader: the empty class cache that comes with a new default loader is not modelled.
- MainThread.MainThreadState.Schedule: is one step, so the race between a failing wake and a drain is not modelled; neither are nested polls nor the drop of the scheduler.
- MethodReplacement.ArtBackend.ReplaceMethod: is one step; the snapshot is taken before all threads are suspended, and what ART does between the two is not modelled.
- MethodReplacement.ArtReplacementController.Register: the thunk's end and the layout kept with a record are not part of the record, so the thunk range query is not modelled.
- MethodReplacement.ArtBackend.SynchronizeReplacementMethods: the rewrite of an nterp quick-code entry point is left out; every registration passes none (src/art/replacement.rs:122).
- GlobalReferences.Env.DropAll: always deletes; the deletion that is skipped when the thread cannot be attached (src/vm.rs:143-147) is not modelled.
- OverloadDispatch.DispatchCall: the later check that an object argument is assignable to the parameter type, which asks JNI again, is not modelled.
- PendingExceptions.JavaStringToLossyString: the UTF-16 code units are kept as they are; their decoding is the standard library's.
- MethodEnumeration.ArtMethodQueryProcessor.Collect: a class's methods come with it; the reads behind them are those of the layout modules.
- Waiting for the loader and for tasks with a timeout: real time is not modelled.
- The reflection fallback of the method query, which compares raw handles instead of loader identity.
- The clean-up of the class and class-loader enumerations on an error: they have none.
- Mutex poisoning and panics other than those of a callback: taken as impossible.
- Thunk machine code, interceptor hooks, `/proc` reading, symbol resolution, JDWP, the JNI function tables: foreign calls with no decision logic.
- Frame inspection during dispatch (replacement_frame_is_active), deoptimisation, fields and arrays: not part of this model.
- Error texts, Debug and Display output, capability reports, examples and fixtures.

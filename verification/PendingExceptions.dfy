/**
  Reading, clearing and restoring pending Java exceptions (src/env/exceptions.rs).

  Jni is one thread's JNI environment. Its methods answer as they like (`*`), within what the JNI
  specification promises: a function that raises returns null, and only the functions listed in the
  specification's chapter 2, section "Exception Handling", may be called while an exception is pending.
  The others demand that none is; every helper below is proved to respect that wherever calls raise.
*/
module PendingExceptions {
  import opened Wrappers

  type Handle = nat
  type Object = nat

  const NULL: Handle := 0
  const JNI_OK := 0

  class Jni {
    var pending: Option<Object>
    var locals: map<Handle, Object>   // the local reference table
    var globals: map<Handle, Object>  // the global reference table
    var pinned: nat                   // character buffers handed out and not released
    var next: Handle                  // the next unused handle

    constructor ()
      ensures Valid() && pending.None? && locals == map[] && globals == map[] && pinned == 0
    {
      pending, locals, globals, pinned, next := None, map[], map[], 0, 1;
    }

    ghost predicate Valid()
      reads this
    {
      && next != NULL
      && (forall h <- locals :: h != NULL && h < next)
      && (forall h <- globals :: h != NULL && h < next)
    }

    // --- allowed while an exception is pending

    method ExceptionCheck() returns (raised: bool)
      ensures raised == pending.Some?
    {
      raised := pending.Some?;
    }

    method ExceptionOccurred() returns (h: Handle)
      requires Valid()
      modifies this`locals, this`next
      ensures Valid()
      ensures pending.None? ==> h == NULL && locals == old(locals)
      ensures pending.Some? ==> h != NULL && h !in old(locals) && locals == old(locals)[h := pending.value]
    {
      h := NULL;
      if pending.Some? {
        h := next;
        locals, next := locals[h := pending.value], next + 1;
      }
    }

    method ExceptionClear()
      modifies this`pending
      ensures pending.None?
    {
      pending := None;
    }

    method DeleteLocalRef(h: Handle)
      requires Valid() && h in locals
      modifies this`locals
      ensures Valid() && locals == old(locals) - {h}
    {
      locals := locals - {h};
    }

    method ReleaseStringChars(text: Handle)
      requires text in locals && pinned > 0
      modifies this`pinned
      ensures pinned == old(pinned) - 1
    {
      pinned := pinned - 1;
    }

    // --- forbidden while an exception is pending

    /** A call that may raise any exception instead of succeeding, or fail without one. */
    method Attempt() returns (ok: bool)
      requires pending.None?
      modifies this`pending
      ensures ok ==> pending.None?
    {
      pending := *;
      var fails: bool := *;
      ok := pending.None? && !fails;
    }

    /** A call returning a new local reference, or null, then possibly with an exception raised. */
    method NewLocal() returns (h: Handle)
      requires Valid() && pending.None?
      modifies this`pending, this`locals, this`next
      ensures Valid()
      ensures h == NULL ==> locals == old(locals)
      ensures h != NULL ==> pending.None? && h !in old(locals) && h in locals && locals == old(locals)[h := locals[h]]
    {
      h := NULL;
      var ok := Attempt();
      if ok {
        var o: Object := *;
        h := next;
        locals, next := locals[h := o], next + 1;
      }
    }

    method GetObjectClass(instance: Handle) returns (h: Handle)
      requires Valid() && pending.None? && instance in locals
      modifies this`pending, this`locals, this`next
      ensures Valid()
      ensures h == NULL ==> locals == old(locals)
      ensures h != NULL ==> pending.None? && h !in old(locals) && h in locals && locals == old(locals)[h := locals[h]]
    {
      h := NewLocal();
    }

    method GetMethodId(class_: Handle) returns (id: nat)
      requires pending.None? && class_ in locals
      modifies this`pending
      ensures id != 0 ==> pending.None?
    {
      var ok := Attempt();
      id := if ok then 1 else 0;
    }

    method CallObjectMethod(instance: Handle, id: nat) returns (h: Handle)
      requires Valid() && pending.None? && instance in locals && id != 0
      modifies this`pending, this`locals, this`next
      ensures Valid()
      ensures h == NULL ==> locals == old(locals)
      ensures h != NULL ==> pending.None? && h !in old(locals) && h in locals && locals == old(locals)[h := locals[h]]
    {
      h := NewLocal();
    }

    method GetStringLength(text: Handle) returns (length: nat)
      requires pending.None? && text in locals
      modifies this`pending
    {
      pending := *;
      length := *;
    }

    /** The characters, or None for a null buffer; a buffer stays pinned until it is released. */
    method GetStringChars(text: Handle, length: nat) returns (chars: Option<seq<bv16>>)
      requires pending.None? && text in locals
      modifies this`pending, this`pinned
      ensures chars.Some? ==> pending.None? && |chars.value| == length && pinned == old(pinned) + 1
      ensures chars.None? ==> pinned == old(pinned)
    {
      var ok := Attempt();
      if ok {
        pinned := pinned + 1;
        var unit: bv16 := *;
        return Some(seq(length, _ => unit));
      }
      return None;
    }

    method NewGlobalRef(h: Handle) returns (g: Handle)
      requires Valid() && pending.None? && h in locals
      modifies this`pending, this`globals, this`next
      ensures Valid()
      ensures g == NULL ==> globals == old(globals)
      ensures g != NULL ==> pending.None? && g !in old(globals) && globals == old(globals)[g := locals[h]]
    {
      g := NULL;
      var ok := Attempt();
      if ok {
        g := next;
        globals, next := globals[g := locals[h]], next + 1;
      }
    }

    /** On failure nothing is known about what is pending. */
    method Throw(h: Handle) returns (code: int)
      requires Valid() && pending.None? && h in locals
      modifies this`pending
      ensures code == JNI_OK ==> pending == Some(locals[h])
    {
      code := *;
      pending := *;
      if code == JNI_OK {
        pending := Some(locals[h]);
      }
    }
  }

  // ---------------------------------------------------------------------------
  // The helpers

  /** The source's three fixed texts, or the text Throwable.toString() returned. */
  datatype Summary = Unknown | DetailUnavailable | DetailRaised | Text(units: seq<bv16>)

  /** A JavaException error; restoreFailed marks the text "failed to restore pending Java exception". */
  datatype JavaError = JavaError(summary: Summary, throwable: Option<Handle>, restoreFailed: bool)

  /** Clears what a detail call raised, and says whether it raised. */
  method TakeDetailException(jni: Jni) returns (summary: Option<Summary>)
    modifies jni`pending
    ensures jni.pending.None?
    ensures summary == if old(jni.pending).Some? then Some(DetailRaised) else None
  {
    var raised := jni.ExceptionCheck();
    if raised {
      jni.ExceptionClear();
      return Some(DetailRaised);
    }
    return None;
  }

  method JavaStringToLossyString(jni: Jni, text: Handle) returns (summary: Option<Summary>)
    requires jni.Valid() && jni.pending.None? && text in jni.locals
    modifies jni`pending, jni`pinned
    ensures jni.pending.None? && jni.pinned == old(jni.pinned)
    ensures summary.Some? ==> summary.value.Text?
  {
    var length := jni.GetStringLength(text);
    var raised := TakeDetailException(jni);
    if raised.Some? {
      return None;
    }
    var chars := jni.GetStringChars(text, length);
    raised := TakeDetailException(jni);
    if raised.Some? || chars.None? {
      return None;
    }
    jni.ReleaseStringChars(text);
    return Some(Text(chars.value));
  }

  /** Wherever the three calls raise: nothing is left pending and every local reference made is deleted. */
  method ThrowableToString(jni: Jni, exception: Handle) returns (summary: Option<Summary>)
    requires jni.Valid() && jni.pending.None? && exception in jni.locals
    modifies jni`pending, jni`locals, jni`next, jni`pinned
    ensures jni.Valid() && jni.pending.None? && jni.pinned == old(jni.pinned)
    ensures jni.locals == old(jni.locals)
    ensures summary.Some? ==> summary.value.DetailRaised? || summary.value.Text?
  {
    var class_ := jni.GetObjectClass(exception);
    var raised := TakeDetailException(jni);
    if raised.Some? {
      return raised;
    }
    if class_ == NULL {
      return None;
    }
    var toString := jni.GetMethodId(class_);
    jni.DeleteLocalRef(class_);
    assert jni.locals == old(jni.locals);
    raised := TakeDetailException(jni);
    if raised.Some? {
      return raised;
    }
    if toString == 0 {
      return None;
    }
    var text := jni.CallObjectMethod(exception, toString);
    raised := TakeDetailException(jni);
    if raised.Some? {
      return raised;
    }
    if text == NULL {
      return None;
    }
    summary := JavaStringToLossyString(jni, text);
    jni.DeleteLocalRef(text);
    assert jni.locals == old(jni.locals);
  }

  method GlobalThrowableFromLocal(jni: Jni, vm: bool, exception: Handle) returns (global: Option<Handle>)
    requires jni.Valid() && jni.pending.None? && exception in jni.locals
    modifies jni`pending, jni`globals, jni`next
    ensures jni.Valid() && jni.pending.None?
    ensures global.None? ==> jni.globals == old(jni.globals)
    ensures global.Some? ==> vm && global.value !in old(jni.globals)
                             && jni.globals == old(jni.globals)[global.value := jni.locals[exception]]
  {
    if !vm {
      return None;
    }
    var g := jni.NewGlobalRef(exception);
    var raised := jni.ExceptionCheck();
    if raised {
      jni.ExceptionClear();
      return None;
    }
    return if g == NULL then None else Some(g);
  }

  /** Takes whatever is pending: afterwards nothing is, and only the returned global reference was added. */
  method TakePendingException(jni: Jni, vm: bool) returns (summary: Summary, throwable: Option<Handle>)
    requires jni.Valid()
    modifies jni
    ensures jni.Valid() && jni.pending.None? && jni.locals == old(jni.locals) && jni.pinned == old(jni.pinned)
    ensures summary == Unknown <==> old(jni.pending).None?
    ensures throwable.None? ==> jni.globals == old(jni.globals)
    ensures throwable.Some? ==>
              && vm && old(jni.pending).Some? && throwable.value !in old(jni.globals)
              && jni.globals == old(jni.globals)[throwable.value := old(jni.pending).value]
  {
    var exception := jni.ExceptionOccurred();
    jni.ExceptionClear();
    if exception == NULL {
      return Unknown, None;
    }
    throwable := GlobalThrowableFromLocal(jni, vm, exception);
    var detail := ThrowableToString(jni, exception);
    summary := if detail.Some? then detail.value else DetailUnavailable;
    jni.DeleteLocalRef(exception);
    assert jni.locals == old(jni.locals);
  }

  /** check_pending_exception, and check_pending_exception_raw when no VM is at hand. */
  method CheckPendingException(jni: Jni, vm: bool) returns (error: Option<JavaError>)
    requires jni.Valid()
    modifies jni
    ensures jni.Valid() && jni.pending.None? && jni.locals == old(jni.locals) && jni.pinned == old(jni.pinned)
    ensures error.Some? <==> old(jni.pending).Some?
    ensures error.Some? ==> error.value.summary != Unknown && !error.value.restoreFailed
    ensures error.None? || error.value.throwable.None? ==> jni.globals == old(jni.globals)
    ensures error.Some? && error.value.throwable.Some? ==>
              && vm && error.value.throwable.value !in old(jni.globals)
              && jni.globals == old(jni.globals)[error.value.throwable.value := old(jni.pending).value]
  {
    var raised := jni.ExceptionCheck();
    if !raised {
      return None;
    }
    var summary, throwable := TakePendingException(jni, vm);
    return Some(JavaError(summary, throwable, false));
  }

  /** PendingJavaException::take. */
  method Take(jni: Jni) returns (throwable: Option<Handle>)
    requires jni.Valid()
    modifies jni`pending, jni`locals, jni`next
    ensures jni.Valid() && jni.pending.None?
    ensures old(jni.pending).None? ==> throwable.None? && jni.locals == old(jni.locals)
    ensures old(jni.pending).Some? ==>
              && throwable.Some? && throwable.value !in old(jni.locals)
              && jni.locals == old(jni.locals)[throwable.value := old(jni.pending).value]
  {
    var raised := jni.ExceptionCheck();
    if !raised {
      return None;
    }
    var h := jni.ExceptionOccurred();
    jni.ExceptionClear();
    return if h == NULL then None else Some(h);
  }

  /** PendingJavaException::throw. */
  method ThrowTaken(jni: Jni, throwable: Handle) returns (ok: bool)
    requires jni.Valid() && jni.pending.None? && throwable in jni.locals
    modifies jni`pending, jni`locals
    ensures jni.Valid() && jni.locals == old(jni.locals) - {throwable}
    ensures ok ==> jni.pending == Some(old(jni.locals)[throwable])
  {
    var code := jni.Throw(throwable);
    jni.DeleteLocalRef(throwable);
    return code == JNI_OK;
  }

  /** Reports what is pending and leaves the same throwable pending, unless Throw itself failed. */
  method CheckPendingExceptionPreserve(jni: Jni) returns (error: Option<JavaError>)
    requires jni.Valid()
    modifies jni
    ensures jni.Valid()
    ensures jni.locals == old(jni.locals) && jni.globals == old(jni.globals) && jni.pinned == old(jni.pinned)
    ensures error.Some? <==> old(jni.pending).Some?
    ensures error.None? || !error.value.restoreFailed ==> jni.pending == old(jni.pending)
    ensures error.Some? ==> error.value.throwable.None? && error.value.summary != Unknown
  {
    var raised := jni.ExceptionCheck();
    if !raised {
      return None;
    }
    var taken := Take(jni);
    var summary := DetailUnavailable;
    if taken.Some? {
      var detail := ThrowableToString(jni, taken.value);
      if detail.Some? {
        summary := detail.value;
      }
      var ok := ThrowTaken(jni, taken.value);
      assert jni.locals == old(jni.locals);
      if !ok {
        return Some(JavaError(summary, None, true));
      }
    }
    return Some(JavaError(summary, None, false));
  }
}

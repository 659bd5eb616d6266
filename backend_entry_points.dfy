/**
 * The static callbacks native code invokes through the table.  Each one
 * finds the managed backend through the handle stored in the native
 * structure, calls it, and turns what happened into a native return code,
 * recording a Reference-category error when the backend threw.
 *
 * The managed backend is given as a Target: either the handle's target is not
 * a backend (the cast yields null), or it is one and `call` is what its
 * method did when the callback invoked it.
 */
module BackendEntryPoints {
  import opened Git
  import opened Refdb

  datatype Target<+T> = NotABackend | Backend(call: Outcome<T>)

  /** The error a caught backend exception leaves behind. */
  function ReferenceError(message: string): (e: GitError)
    ensures e.category == ReferenceCategory && e.message == message
  {
    GitError(ReferenceCategory, message)
  }

  /**
   * Exists: `found` (the source's out-parameter `exists`) is 0 on entry;
   * whenever the backend returned, 0 is returned, with `found` 1 exactly when
   * the backend said true; otherwise Error, with an error recorded when the
   * backend threw.
   */
  method Exists(target: Target<bool>) returns (code: ReturnCode, found: int, raised: Option<GitError>)
    ensures code == Ok <==> target.Backend? && target.call.Returned?
    ensures code != Ok ==> code == Error
    ensures found == 1 <==> target == Backend(Returned(true))
    ensures found != 1 ==> found == 0
    ensures raised.Some? <==> target.Backend? && target.call.Threw?
    ensures raised.Some? ==> raised.value == ReferenceError(target.call.message)
  {
    found := 0;
    raised := None;
    if target.Backend? {
      match target.call {
        case Returned(answer) =>
          if answer {
            found := 1;
          }
          code := Ok;
          return;
        case Threw(message) =>
          raised := Some(ReferenceError(message));
      }
    }
    code := Error;
  }

  /** The request Lookup makes of git_reference__alloc. */
  datatype AllocRequest = AllocRequest(name: string, oid: Option<ObjectId>, symbolic: Option<string>)

  /**
   * Lookup: the backend is dereferenced before its null check, so a handle
   * that is not a backend makes the callback itself throw.  Otherwise a null
   * record gives NotFound; a record is allocated natively with only its
   * symbolic target or only its oid (with neither, for a record built from
   * null), and a non-zero pointer gives 0; a zero
   * pointer gives Error, and so does an exception, which is recorded.
   */
  method Lookup(target: Target<Option<RefdbReference>>, name: string, allocate: AllocRequest -> Outcome<int>)
    returns (exit: Outcome<ReturnCode>, referencePtr: int, request: Option<AllocRequest>, raised: Option<GitError>)
    ensures exit.Threw? <==> target.NotABackend?
    ensures exit.Threw? ==> exit.message == NullReferenceMessage && request == None && raised == None
    ensures exit == Returned(NotFound) <==> target == Backend(Returned(None))
    ensures target == Backend(Returned(None)) ==> referencePtr == 0 && request == None && raised == None
    ensures target.Backend? && target.call.Threw? ==> exit == Returned(Error) && referencePtr == 0
    ensures request.Some? <==> target.Backend? && target.call.Returned? && target.call.value.Some?
    ensures request.Some? ==>
      var r := target.call.value.value;
      request.value == AllocRequest(name, r.Oid(), r.Symbolic())
    ensures request.Some? && !BuiltFromNonNull(target.call.value.value) ==>
      request.value == AllocRequest(name, None, None)
    ensures exit == Returned(Ok) <==>
      request.Some? && allocate(request.value).Returned? && allocate(request.value).value != 0
    ensures exit == Returned(Ok) ==> referencePtr == allocate(request.value).value && raised == None
    ensures exit.Returned? && exit != Returned(Ok) ==> referencePtr == 0
    ensures raised.Some? <==>
      target.Backend? && (target.call.Threw? || (request.Some? && allocate(request.value).Threw?))
    ensures raised.Some? && target.call.Threw? ==> raised.value == ReferenceError(target.call.message)
    ensures raised.Some? && request.Some? ==> raised.value == ReferenceError(allocate(request.value).message)
  {
    request := None;
    raised := None;
    referencePtr := 0;
    if target.NotABackend? {
      exit := Threw(NullReferenceMessage);
      return;
    }
    match target.call {
      case Threw(message) =>
        raised := Some(ReferenceError(message));
      case Returned(reference) =>
        if reference.None? {
          exit := Returned(NotFound);
          return;
        }
        var record := reference.value;
        if record.Type() == SymbolicType {
          request := Some(AllocRequest(name, None, record.Symbolic()));
        } else {
          request := Some(AllocRequest(name, record.Oid(), None));
        }
        match allocate(request.value) {
          case Threw(message) =>
            raised := Some(ReferenceError(message));
          case Returned(pointer) =>
            referencePtr := pointer;
            if referencePtr != 0 {
              exit := Returned(Ok);
              return;
            }
        }
    }
    exit := Returned(Error);
  }

  /** Foreach is a stub: it fails without calling the backend. */
  method Foreach(listFlags: nat) returns (code: ReturnCode)
    ensures code == Error
  {
    code := Error;
  }

  /** ForeachGlob is a stub: it fails without calling the backend. */
  method ForeachGlob(glob: string, listFlags: nat) returns (code: ReturnCode)
    ensures code == Error
  {
    code := Error;
  }

  /**
   * Write and Delete share one shape: the backend is dereferenced (to build
   * the managed Reference) before its null check; then 0 exactly when the
   * backend's call returned, Error with a recorded error when it threw.
   */
  method Write(target: Target<()>) returns (exit: Outcome<ReturnCode>, raised: Option<GitError>)
    ensures exit.Threw? <==> target.NotABackend?
    ensures exit.Threw? ==> exit.message == NullReferenceMessage && raised == None
    ensures exit == Returned(Ok) <==> target.Backend? && target.call.Returned?
    ensures exit.Returned? && exit != Returned(Ok) ==> exit == Returned(Error)
    ensures raised.Some? <==> target.Backend? && target.call.Threw?
    ensures raised.Some? ==> raised.value == ReferenceError(target.call.message)
  {
    raised := None;
    if target.NotABackend? {
      exit := Threw(NullReferenceMessage);
      return;
    }
    match target.call {
      case Returned(_) =>
        exit := Returned(Ok);
        return;
      case Threw(message) =>
        raised := Some(ReferenceError(message));
    }
    exit := Returned(Error);
  }

  method Delete(target: Target<()>) returns (exit: Outcome<ReturnCode>, raised: Option<GitError>)
    ensures exit.Threw? <==> target.NotABackend?
    ensures exit.Threw? ==> exit.message == NullReferenceMessage && raised == None
    ensures exit == Returned(Ok) <==> target.Backend? && target.call.Returned?
    ensures exit.Returned? && exit != Returned(Ok) ==> exit == Returned(Error)
    ensures raised.Some? <==> target.Backend? && target.call.Threw?
    ensures raised.Some? ==> raised.value == ReferenceError(target.call.message)
  {
    raised := None;
    if target.NotABackend? {
      exit := Threw(NullReferenceMessage);
      return;
    }
    match target.call {
      case Returned(_) =>
        exit := Returned(Ok);
        return;
      case Threw(message) =>
        raised := Some(ReferenceError(message));
    }
    exit := Returned(Error);
  }

  /**
   * Compress reports Error on every path, also when the backend's Compress
   * returned normally; an exception is recorded as well.
   */
  method Compress(target: Target<()>) returns (code: ReturnCode, raised: Option<GitError>)
    ensures code == Error
    ensures raised.Some? <==> target.Backend? && target.call.Threw?
    ensures raised.Some? ==> raised.value == ReferenceError(target.call.message)
  {
    raised := None;
    if target.Backend? {
      match target.call {
        case Returned(_) =>
        case Threw(message) =>
          raised := Some(ReferenceError(message));
      }
    }
    code := Error;
  }

  /**
   * Free has no try: a handle that is not a backend, or a backend whose Free
   * throws, lets the exception escape into native code.
   */
  method Free(target: Target<()>) returns (exit: Outcome<()>)
    ensures exit.Returned? <==> target.Backend? && target.call.Returned?
    ensures target.NotABackend? ==> exit == Threw(NullReferenceMessage)
    ensures target.Backend? && target.call.Threw? ==> exit == Threw(target.call.message)
  {
    if target.NotABackend? {
      exit := Threw(NullReferenceMessage);
    } else {
      exit := target.call;
    }
  }
}

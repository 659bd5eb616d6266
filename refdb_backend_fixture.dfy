/**
 * The dictionary-backed backend of the reference-database tests, the way
 * its answers travel through the callbacks to native code, and the test that
 * reads HEAD through it.
 */
module RefdbBackendFixture {
  import opened Git
  import opened Refdb
  import Bridge = BackendEntryPoints

  /** The messages of the dictionary's exceptions: missing key, duplicate key. */
  const KeyNotFoundMessage: string := "The given key was not present in the dictionary."
  const DuplicateKeyMessage: string := "An item with the same key has already been added."

  /** The test backend declares both optional operations. */
  const MockSupportedOperations: RefdbBackendOperations := CompressFlag | ForEachGlobFlag

  /** Both optional callbacks, Compress and ForeachGlob, are installed for it. */
  lemma MockInstallsOptionalCallbacks()
    ensures CallbackTable(MockSupportedOperations).compressFn == Some(CompressCallback)
    ensures CallbackTable(MockSupportedOperations).foreachGlobFn == Some(ForeachGlobCallback)
  {
  }

  /**
   * The record Write stores: a symbolic reference as a symbolic record of its
   * target identifier, a direct one as an oid record of its target's id.
   */
  function StorageFor(reference: Reference): (s: RefdbReference)
    ensures reference.SymbolicReference? ==>
      s.Type() == SymbolicType && s.Symbolic() == Some(reference.targetIdentifier)
    ensures reference.DirectReference? ==>
      s.Type() == OidType && s.Oid() == Some(reference.targetId)
  {
    match reference
    case SymbolicReference(_, targetIdentifier) => FromSymbolic(Some(targetIdentifier))
    case DirectReference(_, targetId) => FromOid(Some(targetId))
  }

  class MockRefdbBackend {
    /** The dictionary from canonical names to stored records. */
    var references: map<string, RefdbReference>

    /** The managed base: declared operations and the cached native table. */
    const base: RefdbBackend

    constructor ()
      ensures references == map[]
      ensures fresh(base) && base.Valid() && base.nativeBackendPointer == 0
      ensures base.supportedOperations == MockSupportedOperations
    {
      references := map[];
      base := new RefdbBackend(MockSupportedOperations);
    }

    /** Exists is key membership. */
    method Exists(referenceName: string) returns (b: bool)
      ensures b <==> referenceName in references
    {
      b := referenceName in references;
    }

    /** Lookup is the dictionary indexer: the stored record, or a throw for a missing key. */
    method Lookup(referenceName: string) returns (r: Outcome<RefdbReference>)
      ensures referenceName in references ==> r == Returned(references[referenceName])
      ensures referenceName !in references ==> r == Threw(KeyNotFoundMessage)
    {
      if referenceName in references {
        r := Returned(references[referenceName]);
      } else {
        r := Threw(KeyNotFoundMessage);
      }
    }

    /** Write inserts under the canonical name, and throws, changing nothing, if it is taken. */
    method Write(reference: Reference) returns (r: Outcome<()>)
      modifies this
      ensures r.Returned? <==> reference.canonicalName !in old(references)
      ensures r.Returned? ==>
        references == old(references)[reference.canonicalName := StorageFor(reference)]
      ensures r.Threw? ==> r.message == DuplicateKeyMessage && references == old(references)
    {
      var storage := StorageFor(reference);
      if reference.canonicalName in references {
        r := Threw(DuplicateKeyMessage);
        return;
      }
      references := references[reference.canonicalName := storage];
      r := Returned(());
    }

    /** Delete removes the canonical name, if present, and nothing else. */
    method Delete(reference: Reference) returns (r: Outcome<()>)
      modifies this
      ensures r.Returned?
      ensures references == old(references) - {reference.canonicalName}
      ensures reference.canonicalName !in old(references) ==> references == old(references)
    {
      references := references - {reference.canonicalName};
      r := Returned(());
    }

    /** Compress does nothing, and returns. */
    method Compress() returns (r: Outcome<()>)
      ensures r.Returned?
    {
      r := Returned(());
    }

    /** Free clears the dictionary. */
    method Free() returns (r: Outcome<()>)
      modifies this
      ensures r.Returned? && references == map[]
    {
      references := map[];
      r := Returned(());
    }
  }

  /** After a successful Write, the name exists and Lookup returns the stored record. */
  method WriteThenLookup(store: MockRefdbBackend, reference: Reference)
    returns (written: Outcome<()>, found: bool, looked: Outcome<RefdbReference>)
    modifies store
    ensures written.Returned? <==> reference.canonicalName !in old(store.references)
    ensures written.Returned? ==> found && looked == Returned(StorageFor(reference))
  {
    written := store.Write(reference);
    found := store.Exists(reference.canonicalName);
    looked := store.Lookup(reference.canonicalName);
  }

  // The store's answers as the callbacks hand them to native code.

  /** Exists returns 0 with `found` 1 exactly for a stored name. */
  method ExistsThroughBridge(store: MockRefdbBackend, name: string) returns (code: ReturnCode, found: int)
    ensures code == Ok
    ensures found == if name in store.references then 1 else 0
  {
    var answer := store.Exists(name);
    var raised;
    code, found, raised := Bridge.Exists(Bridge.Backend(Returned(answer)));
  }

  /**
   * Lookup never reports NotFound for this store: a missing name throws in
   * the dictionary and so reaches native code as Error, with the dictionary's
   * message recorded.  A stored name is allocated from its record.
   */
  method LookupThroughBridge(store: MockRefdbBackend, name: string, allocate: Bridge.AllocRequest -> Outcome<int>)
    returns (exit: Outcome<ReturnCode>, referencePtr: int, request: Option<Bridge.AllocRequest>, raised: Option<GitError>)
    ensures exit != Returned(NotFound) && exit.Returned?
    ensures name !in store.references ==>
      exit == Returned(Error) && request == None && raised == Some(Bridge.ReferenceError(KeyNotFoundMessage))
    ensures name in store.references ==>
      var r := store.references[name];
      && request == Some(Bridge.AllocRequest(name, r.Oid(), r.Symbolic()))
      && (exit == Returned(Ok) <==> allocate(request.value).Returned? && allocate(request.value).value != 0)
  {
    var answer := store.Lookup(name);
    var target: Bridge.Target<Option<RefdbReference>>;
    match answer {
      case Returned(record) => target := Bridge.Backend(Returned(Some(record)));
      case Threw(message) => target := Bridge.Backend(Threw(message));
    }
    exit, referencePtr, request, raised := Bridge.Lookup(target, name, allocate);
  }

  /** Write reaches native code as 0 exactly when the name was free, and as Error otherwise. */
  method WriteThroughBridge(store: MockRefdbBackend, reference: Reference)
    returns (exit: Outcome<ReturnCode>, raised: Option<GitError>)
    modifies store
    ensures exit == Returned(Ok) <==> reference.canonicalName !in old(store.references)
    ensures exit == Returned(Ok) ==>
      store.references == old(store.references)[reference.canonicalName := StorageFor(reference)]
    ensures exit != Returned(Ok) ==>
      exit == Returned(Error) && raised == Some(Bridge.ReferenceError(DuplicateKeyMessage)) &&
      store.references == old(store.references)
  {
    var answer := store.Write(reference);
    exit, raised := Bridge.Write(Bridge.Backend(answer));
  }

  /** Delete always reaches native code as 0. */
  method DeleteThroughBridge(store: MockRefdbBackend, reference: Reference) returns (exit: Outcome<ReturnCode>)
    modifies store
    ensures exit == Returned(Ok)
    ensures store.references == old(store.references) - {reference.canonicalName}
  {
    var answer := store.Delete(reference);
    var raised;
    exit, raised := Bridge.Delete(Bridge.Backend(answer));
  }

  /** Compress leaves the store alone and still reaches native code as Error. */
  method CompressThroughBridge(store: MockRefdbBackend) returns (code: ReturnCode, raised: Option<GitError>)
    ensures code == Error && raised == None
  {
    var answer := store.Compress();
    code, raised := Bridge.Compress(Bridge.Backend(answer));
  }

  /** Free empties the store and returns normally to native code. */
  method FreeThroughBridge(store: MockRefdbBackend) returns (exit: Outcome<()>)
    modifies store
    ensures exit.Returned? && store.references == map[]
  {
    var answer := store.Free();
    exit := Bridge.Free(Bridge.Backend(answer));
  }

  const TestRef: string := "refs/heads/testref"
  const TestRefId: ObjectId := ObjectId("d828f118b334a9396ca129f2c733bae8ce6faa8d")

  /**
   * CanReadFromRefdbBackend: with HEAD stored as a symbolic record of
   * refs/heads/testref and that name stored as an oid record, the callbacks
   * give native code HEAD's target, and that target's object id.  The table
   * registered for the store has both optional callbacks.  Both lookups
   * succeed exactly when native allocation gives a nonzero pointer.
   */
  method CanReadFromRefdbBackend(address: int, allocate: Bridge.AllocRequest -> Outcome<int>)
    returns (table: GitRefdbBackend, headExit: Outcome<ReturnCode>, headTarget: Option<string>,
             targetExit: Outcome<ReturnCode>, resolved: Option<ObjectId>)
    requires address != 0
    ensures table == CallbackTable(MockSupportedOperations)
    ensures table.compressFn.Some? && table.foreachGlobFn.Some?
    ensures headTarget == Some(TestRef)
    ensures resolved == Some(TestRefId)
    ensures headExit == Returned(Ok) <==>
      allocate(Bridge.AllocRequest("HEAD", None, Some(TestRef))).Returned? &&
      allocate(Bridge.AllocRequest("HEAD", None, Some(TestRef))).value != 0
    ensures targetExit == Returned(Ok) <==>
      allocate(Bridge.AllocRequest(TestRef, Some(TestRefId), None)).Returned? &&
      allocate(Bridge.AllocRequest(TestRef, Some(TestRefId), None)).value != 0
    ensures (forall q :: allocate(q).Returned? && allocate(q).value != 0) ==>
      headExit == Returned(Ok) && targetExit == Returned(Ok)
  {
    var backend := new MockRefdbBackend();
    var pointer := backend.base.GitRefdbBackendPointer(address);
    table := backend.base.nativeBackend;

    backend.references := backend.references["HEAD" := FromSymbolic(Some(TestRef))];
    backend.references := backend.references[TestRef := FromOid(Some(TestRefId))];

    var referencePtr, request, raised;
    headExit, referencePtr, request, raised := LookupThroughBridge(backend, "HEAD", allocate);
    headTarget := request.value.symbolic;
    var referencePtr', request', raised';
    targetExit, referencePtr', request', raised' := LookupThroughBridge(backend, headTarget.value, allocate);
    resolved := request'.value.oid;
  }
}

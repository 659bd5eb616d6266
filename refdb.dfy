/**
 * The managed side of a pluggable reference database: the record a backend
 * stores per reference, the flags by which a backend declares its optional
 * operations, and the lazily built table of callbacks native code calls.
 */
module Refdb {
  import opened Git

  /**
   * A stored reference: built either from a symbolic target (another
   * reference's name) or from an object id.  The two constructors of the
   * source class become the two cases.  Neither constructor rejects a null
   * argument, so each case carries an optional payload: `None` is the null
   * the record was built from.  Being a value, a record cannot change once
   * built.
   */
  datatype RefdbReference = FromSymbolic(target: Option<string>) | FromOid(id: Option<ObjectId>) {

    /** The kind tag: Symbolic for a record built from a name, Oid otherwise. */
    function Type(): (t: GitReferenceType)
      ensures t == SymbolicType <==> FromSymbolic?
    {
      if FromSymbolic? then SymbolicType else OidType
    }

    /** The object id: the one the record was built from, and none for a symbolic record. */
    function Oid(): (o: Option<ObjectId>)
      ensures o.Some? ==> Type() == OidType
      ensures FromOid? ==> o == id
    {
      if FromOid? then id else None
    }

    /** The symbolic target: the one the record was built from, and none for an oid record. */
    function Symbolic(): (s: Option<string>)
      ensures s.Some? ==> Type() == SymbolicType
      ensures FromSymbolic? ==> s == target
    {
      if FromSymbolic? then target else None
    }
  }

  /** Whether the record was built from a non-null argument. */
  predicate BuiltFromNonNull(r: RefdbReference) {
    match r
    case FromSymbolic(target) => target.Some?
    case FromOid(id) => id.Some?
  }

  /**
   * At most one of the two payloads is populated, and the kind says which.
   * Exactly one is populated when the record was built from a non-null
   * argument; a record built from null has its kind and neither payload.
   */
  lemma PayloadMatchesKind(r: RefdbReference)
    ensures !(r.Oid().Some? && r.Symbolic().Some?)
    ensures r.Type() == OidType ==> r.Symbolic() == None
    ensures r.Type() == SymbolicType ==> r.Oid() == None
    ensures r.Oid().Some? || r.Symbolic().Some? <==> BuiltFromNonNull(r)
  {
  }

  /** A record built from a null target name or a null id is of its kind but has no payload. */
  lemma NullArgumentLeavesNoPayload()
    ensures FromSymbolic(None).Type() == SymbolicType
    ensures FromSymbolic(None).Oid() == None && FromSymbolic(None).Symbolic() == None
    ensures FromOid(None).Type() == OidType
    ensures FromOid(None).Oid() == None && FromOid(None).Symbolic() == None
  {
  }

  /** RefdbBackendOperations: the flags of the optional operations. */
  type RefdbBackendOperations = bv32
  const CompressFlag: RefdbBackendOperations := 1
  const ForEachGlobFlag: RefdbBackendOperations := 2

  /** The managed entry points that can be placed in the native table. */
  datatype EntryPoint =
    | ExistsCallback | LookupCallback | ForeachCallback | ForeachGlobCallback
    | WriteCallback | DeleteCallback | CompressCallback | FreeCallback

  /**
   * The native backend structure: a version and one slot per operation,
   * each holding an entry point or nothing (a null function pointer).
   */
  datatype GitRefdbBackend = GitRefdbBackend(
    version: int,
    existsFn: Option<EntryPoint>,
    lookupFn: Option<EntryPoint>,
    foreachFn: Option<EntryPoint>,
    foreachGlobFn: Option<EntryPoint>,
    writeFn: Option<EntryPoint>,
    deleteFn: Option<EntryPoint>,
    compressFn: Option<EntryPoint>,
    freeFn: Option<EntryPoint>)

  /** A freshly created structure: version 0 and every slot empty. */
  const ZeroedTable: GitRefdbBackend :=
    GitRefdbBackend(0, None, None, None, None, None, None, None, None)

  /** The operations a table provides, as the set of installed entry points. */
  function Installed(t: GitRefdbBackend): set<EntryPoint> {
    (if t.existsFn.Some? then {t.existsFn.value} else {}) +
    (if t.lookupFn.Some? then {t.lookupFn.value} else {}) +
    (if t.foreachFn.Some? then {t.foreachFn.value} else {}) +
    (if t.foreachGlobFn.Some? then {t.foreachGlobFn.value} else {}) +
    (if t.writeFn.Some? then {t.writeFn.value} else {}) +
    (if t.deleteFn.Some? then {t.deleteFn.value} else {}) +
    (if t.compressFn.Some? then {t.compressFn.value} else {}) +
    (if t.freeFn.Some? then {t.freeFn.value} else {})
  }

  /**
   * The table built for a backend declaring `ops`.  Exists, Write, Lookup and
   * Free are always installed; Compress and ForeachGlob only when their flag
   * is declared; Foreach and Delete never.
   */
  function CallbackTable(ops: RefdbBackendOperations): (t: GitRefdbBackend)
    ensures t.version == 1
    ensures t.existsFn == Some(ExistsCallback) && t.writeFn == Some(WriteCallback)
    ensures t.lookupFn == Some(LookupCallback) && t.freeFn == Some(FreeCallback)
    ensures t.compressFn.Some? <==> ops & CompressFlag != 0
    ensures t.foreachGlobFn.Some? <==> ops & ForEachGlobFlag != 0
    ensures t.compressFn.Some? ==> t.compressFn.value == CompressCallback
    ensures t.foreachGlobFn.Some? ==> t.foreachGlobFn.value == ForeachGlobCallback
    ensures t.foreachFn == None && t.deleteFn == None
  {
    ZeroedTable.(
      version := 1,
      existsFn := Some(ExistsCallback),
      writeFn := Some(WriteCallback),
      lookupFn := Some(LookupCallback),
      freeFn := Some(FreeCallback),
      compressFn := if ops & CompressFlag != 0 then Some(CompressCallback) else None,
      foreachGlobFn := if ops & ForEachGlobFlag != 0 then Some(ForeachGlobCallback) else None)
  }

  /** The installed operations, as a set: the four mandatory ones plus the declared optional ones. */
  lemma InstalledOperations(ops: RefdbBackendOperations)
    ensures Installed(CallbackTable(ops)) ==
      {ExistsCallback, WriteCallback, LookupCallback, FreeCallback} +
      (if ops & CompressFlag != 0 then {CompressCallback} else {}) +
      (if ops & ForEachGlobFlag != 0 then {ForeachGlobCallback} else {})
    ensures ForeachCallback !in Installed(CallbackTable(ops))
    ensures DeleteCallback !in Installed(CallbackTable(ops))
  {
    var t := CallbackTable(ops);
    assert t.foreachFn == None && t.deleteFn == None;
  }

  /**
   * The managed base of every custom backend: the operations it declares and
   * the cached pointer to the native structure built from them.
   */
  class RefdbBackend {
    const supportedOperations: RefdbBackendOperations

    /** The cached native pointer; 0 stands for IntPtr.Zero. */
    var nativeBackendPointer: int

    /** The structure that was marshalled to nativeBackendPointer. */
    var nativeBackend: GitRefdbBackend

    /** How many times the structure was built. */
    ghost var builds: nat

    ghost predicate Valid()
      reads this
    {
      && (nativeBackendPointer == 0 <==> builds == 0)
      && builds <= 1
      && (nativeBackendPointer != 0 ==> nativeBackend == CallbackTable(supportedOperations))
    }

    constructor (ops: RefdbBackendOperations)
      ensures Valid()
      ensures supportedOperations == ops
      ensures nativeBackendPointer == 0 && builds == 0
    {
      supportedOperations := ops;
      nativeBackendPointer := 0;
      nativeBackend := ZeroedTable;
      builds := 0;
    }

    /**
     * GitRefdbBackendPointer: builds the structure, slot by slot, the first
     * time it is read, and returns the cached pointer ever after.
     * `freshAddress` is what native allocation returns (never zero).
     */
    method GitRefdbBackendPointer(freshAddress: int) returns (p: int)
      requires Valid()
      requires freshAddress != 0
      modifies this
      ensures Valid()
      ensures p != 0 && p == nativeBackendPointer
      ensures nativeBackend == CallbackTable(supportedOperations)
      ensures old(nativeBackendPointer) != 0 ==>
        p == old(nativeBackendPointer) && unchanged(this)
      ensures old(nativeBackendPointer) == 0 ==>
        p == freshAddress && builds == old(builds) + 1
    {
      if nativeBackendPointer == 0 {
        var table := ZeroedTable;
        table := table.(version := 1);
        table := table.(existsFn := Some(ExistsCallback));
        table := table.(writeFn := Some(WriteCallback));
        table := table.(lookupFn := Some(LookupCallback));
        table := table.(freeFn := Some(FreeCallback));
        var ops := supportedOperations;
        if ops & CompressFlag != 0 {
          table := table.(compressFn := Some(CompressCallback));
        }
        if ops & ForEachGlobFlag != 0 {
          table := table.(foreachGlobFn := Some(ForeachGlobCallback));
        }
        nativeBackendPointer := freshAddress;
        nativeBackend := table;
        builds := builds + 1;
      }
      p := nativeBackendPointer;
    }
  }

  /** Reading the pointer twice yields one pointer and one build. */
  method ReadPointerTwice(backend: RefdbBackend, first: int, second: int) returns (p1: int, p2: int)
    requires backend.Valid() && backend.nativeBackendPointer == 0
    requires first != 0 && second != 0
    modifies backend
    ensures p1 == p2 == first
    ensures backend.builds == 1
    ensures backend.nativeBackend == CallbackTable(backend.supportedOperations)
  {
    p1 := backend.GitRefdbBackendPointer(first);
    p2 := backend.GitRefdbBackendPointer(second);
  }
}

# libgit2sharp: pluggable reference database, merge dispatcher, checkout options

This project models four parts of libgit2sharp in Dafny and proves properties of the model.

- **The managed half of a pluggable reference database.** `RefdbBackend` is the base class of a custom backend. A backend declares its optional operations as flags. The class lazily builds, once, the table of callbacks that native libgit2 calls. Most static callbacks find the managed backend, call it, and turn what happened into a native return code (0, `Error` or `NotFound`). An exception caught on the way becomes a Reference-category error. Foreach and ForeachGlob are exceptions: they never call the backend. Free is another: it returns nothing, and it catches nothing.
- **The dictionary-backed test backend, `MockRefdbBackend`.** This store is modelled as a class with a `map` field. Its answers are composed with the callbacks, and the `CanReadFromRefdbBackend` scenario is modelled on top of that.
- **The merge dispatcher and its tests' helpers.** The dispatcher builds one merge head per branch, in order, then makes one native merge call. The helpers are `AreEquivalent`, `Merge`, `MergeFastForward` and `MergeNoFastForward`.
- **The checkout options.** The `CheckoutStrategy` flags, and the properties of `CheckoutOptions` that read and write single fields of the native options structure.

Calls into a managed backend are modelled as `Outcome<T>`, which is either `Returned(value)` or `Threw(message)`. The same datatype describes how a callback leaves managed code towards native code. A callback finds its backend through a GC handle. That lookup is modelled as `Target<T>`:

- `NotABackend` means the handle's target cast to `RefdbBackend` is null;
- `Backend(call)` carries the outcome of the backend's method.

Some native functions are parameters of the model, because their behaviour lies outside these files:

- native allocation (`Marshal.AllocHGlobal`);
- `git_reference__alloc`;
- `git_reference_lookup`;
- `git_merge_head_from_ref`, which creates a merge head from a reference and can fail;
- `git_merge`.

The merge dispatcher records the native calls it makes as a sequence of events: lookups, head creations, handle releases and the merge. Its loop is proved against a specification function, `MergeSpec`, of the branches.

Modules:

| module | file | models |
|---|---|---|
| `Git` | git.dfy | shared value types |
| `Refdb` | refdb.dfy | `RefdbReference`, `RefdbBackendOperations`, the callback table and class `RefdbBackend` |
| `BackendEntryPoints` | backend_entry_points.dfy | the eight static callbacks |
| `RefdbBackendFixture` | refdb_backend_fixture.dfy | `MockRefdbBackend` and the `CanReadFromRefdbBackend` scenario |
| `MergeDispatcher` | merge_dispatcher.dfy | `Merge.GitMerge` (both overloads) and `RetrieveReferencePtr` |
| `MergeFixture` | merge_fixture.dfy | `AreEquivalent` and the `Merge` helpers of the merge tests |
| `Checkout` | checkout_options.dfy | `CheckoutStrategy` and `CheckoutOptions` |

Where the code and the intended design differ, the model follows the code:

- The test store's Write is insert-only (`Dictionary.Add`). Writing a taken name throws, and the callback then reports `Error`.
- The test store's Lookup uses the dictionary indexer, so a missing name throws. Through the Lookup callback, a missing name therefore reaches native code as `Error`, never as `NotFound`.
- The Lookup, Write and Delete callbacks dereference the backend (`refdbBackend.Repository`) before their null check. A handle whose target is not a backend therefore makes these callbacks themselves throw, instead of returning `Error`.
- Compress reports `Error` even when the backend's Compress succeeds.
- Foreach and ForeachGlob are stubs that always fail.
- Delete and Foreach are never installed in the table.
- `GitMerge` disposes each looked-up reference handle at the end of its iteration. It never disposes the merge heads it creates.
- `GitMerge` accepts any number of branches, none included. It raises no error of its own for several sources.
- The Free callback has no `try`. An exception from the backend's Free, or a handle that is not a backend, escapes into native code instead of being reported as an error.

## Model

| member | source | states |
|---|---|---|
| Refdb.RefdbReference.Type | LibGit2Sharp/RefdbBackend.cs:41-57 | the kind is Symbolic exactly for a record built from a target name, and Oid exactly for one built from an object id |
| Refdb.RefdbReference.Oid | LibGit2Sharp/RefdbBackend.cs:47-63 | an object id is present only when the kind is Oid, and it is the id the record was built from, none when that was null |
| Refdb.RefdbReference.Symbolic | LibGit2Sharp/RefdbBackend.cs:41-45 | a symbolic target is present only when the kind is Symbolic, and it is the name the record was built from, none when that was null |
| Refdb.PayloadMatchesKind | LibGit2Sharp/RefdbBackend.cs:39-70 | a record never has both payloads, and a payload that is present is the one its kind names. It has exactly one exactly when its constructor argument was non-null |
| Refdb.NullArgumentLeavesNoPayload | LibGit2Sharp/RefdbBackend.cs:41-51 | a record built from a null name or a null id keeps its kind but has neither payload |
| Refdb.RefdbBackend.constructor | LibGit2Sharp/RefdbBackend.cs:22-25 | a backend starts with the operations it declares and a zero cached pointer (field at line 72), with no table built |
| Refdb.CallbackTable | LibGit2Sharp/RefdbBackend.cs:80-99 | the table has version 1 and always holds Exists, Write, Lookup and Free. It holds Compress iff the Compress flag is declared, and ForeachGlob iff the ForEachGlob flag is declared. Foreach and Delete stay empty |
| Refdb.InstalledOperations | LibGit2Sharp/RefdbBackend.cs:80-99 | the set of installed entry points is exactly the four mandatory ones plus the declared optional ones. It never contains Foreach or Delete |
| Refdb.RefdbBackend.GitRefdbBackendPointer | LibGit2Sharp/RefdbBackend.cs:72-107 | the first read builds the table field by field and caches a nonzero pointer to it. Every later read returns the cached pointer and changes nothing, so the table is built at most once |
| Refdb.ReadPointerTwice | LibGit2Sharp/RefdbBackend.cs:74-107 | two reads give the same pointer, with one build of the table |
| BackendEntryPoints.ReferenceError | LibGit2Sharp/RefdbBackend.cs:145-148 | a caught exception is recorded as a Reference-category error with the exception's message |
| BackendEntryPoints.Exists | LibGit2Sharp/RefdbBackend.cs:125-152 | the result is 0 iff the backend returned; `exists` is 1 iff the backend said true, and 0 on every other path. Otherwise the result is Error, and an error is recorded iff the backend threw |
| BackendEntryPoints.Lookup | LibGit2Sharp/RefdbBackend.cs:154-195 | a handle that is not a backend makes the callback throw. A backend's null record gives NotFound, and nothing else does. The allocation request carries only the symbolic target for a Symbolic record, and only the oid for an Oid record. A record built from null gives a request with neither. The result is 0 iff the allocation returned a nonzero pointer. A zero pointer or any exception gives Error, and an exception is recorded |
| BackendEntryPoints.Foreach | LibGit2Sharp/RefdbBackend.cs:197-204 | always Error, without calling the backend |
| BackendEntryPoints.ForeachGlob | LibGit2Sharp/RefdbBackend.cs:206-214 | always Error, without calling the backend |
| BackendEntryPoints.Write | LibGit2Sharp/RefdbBackend.cs:216-238 | a handle that is not a backend makes the callback throw. Otherwise the result is 0 iff the backend's Write returned; an exception gives Error with a recorded Reference error |
| BackendEntryPoints.Delete | LibGit2Sharp/RefdbBackend.cs:240-262 | a handle that is not a backend makes the callback throw. Otherwise the result is 0 iff the backend's Delete returned; an exception gives Error with a recorded Reference error |
| BackendEntryPoints.Compress | LibGit2Sharp/RefdbBackend.cs:264-281 | always Error, also when the backend's Compress succeeded. An error is recorded iff the backend threw |
| BackendEntryPoints.Free | LibGit2Sharp/RefdbBackend.cs:283-287 | returns iff the backend's Free returned. A null backend or an exception from Free escapes into native code |
| RefdbBackendFixture.MockInstallsOptionalCallbacks | LibGit2Sharp.Tests/RefdbBackendFixture.cs:66-72 | the test store declares Compress and ForEachGlob, so both callbacks are installed for it |
| RefdbBackendFixture.StorageFor | LibGit2Sharp.Tests/RefdbBackendFixture.cs:86-95 | a symbolic reference is stored as a Symbolic record of its target identifier, and a direct one as an Oid record of its target's id |
| RefdbBackendFixture.MockRefdbBackend.constructor | LibGit2Sharp.Tests/RefdbBackendFixture.cs:42-48 | a new test store is empty, and its base declares Compress \| ForEachGlob (lines 66-72) with a zero cached pointer |
| RefdbBackendFixture.MockRefdbBackend.Exists | LibGit2Sharp.Tests/RefdbBackendFixture.cs:74-77 | true iff the name is a key of the store |
| RefdbBackendFixture.MockRefdbBackend.Lookup | LibGit2Sharp.Tests/RefdbBackendFixture.cs:79-82 | the stored record for a present name; it throws for a missing name |
| RefdbBackendFixture.MockRefdbBackend.Write | LibGit2Sharp.Tests/RefdbBackendFixture.cs:84-98 | succeeds iff the canonical name was free, and then adds exactly that entry. A taken name throws the duplicate-key exception and leaves the store unchanged |
| RefdbBackendFixture.MockRefdbBackend.Delete | LibGit2Sharp.Tests/RefdbBackendFixture.cs:100-103 | removes exactly the canonical name and keeps every other entry; deleting an absent name changes nothing |
| RefdbBackendFixture.MockRefdbBackend.Compress | LibGit2Sharp.Tests/RefdbBackendFixture.cs:105-107 | returns, and changes nothing |
| RefdbBackendFixture.MockRefdbBackend.Free | LibGit2Sharp.Tests/RefdbBackendFixture.cs:109-112 | empties the store |
| RefdbBackendFixture.WriteThenLookup | LibGit2Sharp.Tests/RefdbBackendFixture.cs:74-98 | after a successful Write, the name exists and Lookup returns the record Write built |
| RefdbBackendFixture.ExistsThroughBridge | LibGit2Sharp.Tests/RefdbBackendFixture.cs:74-77 | through the callback, the result is 0, and `exists` is 1 exactly for a stored name |
| RefdbBackendFixture.LookupThroughBridge | LibGit2Sharp.Tests/RefdbBackendFixture.cs:79-82 | through the callback, a missing name gives Error with the missing-key error recorded, never NotFound. A stored name is allocated from its record, and the callback returns 0 exactly when that allocation gives a nonzero pointer |
| RefdbBackendFixture.WriteThroughBridge | LibGit2Sharp.Tests/RefdbBackendFixture.cs:84-98 | through the callback, the result is 0 iff the name was free. A taken name gives Error with the duplicate-key error recorded, and leaves the store unchanged |
| RefdbBackendFixture.DeleteThroughBridge | LibGit2Sharp.Tests/RefdbBackendFixture.cs:100-103 | through the callback, the result is always 0, and exactly the name is removed |
| RefdbBackendFixture.CompressThroughBridge | LibGit2Sharp.Tests/RefdbBackendFixture.cs:105-107 | through the callback the result is Error, with no error recorded |
| RefdbBackendFixture.FreeThroughBridge | LibGit2Sharp.Tests/RefdbBackendFixture.cs:109-112 | through the callback, Free returns and empties the store |
| RefdbBackendFixture.CanReadFromRefdbBackend | LibGit2Sharp.Tests/RefdbBackendFixture.cs:13-33 | for the store with HEAD as Symbolic("refs/heads/testref") and that name as an Oid record: the table has both optional callbacks; HEAD's target is "refs/heads/testref", and that name resolves to d828f118b334a9396ca129f2c733bae8ce6faa8d. Each of the two lookups returns 0 exactly when its allocation gives a nonzero pointer, so both succeed whenever native allocation does |
| MergeDispatcher.RetrieveReferencePtr | LibGit2Sharp/Merge.cs:66-69 | a found reference gives its handle. A missing one throws, unless the caller asked for a null handle; any other failure throws |
| MergeDispatcher.BuildHeads | LibGit2Sharp/Merge.cs:51-59 | when the loop completes, there is one head per branch, with three calls per branch, and the native merge is never among them |
| MergeDispatcher.FailureIsFinal | LibGit2Sharp/Merge.cs:52-58 | once the loop throws on a prefix of the branches, it throws on all of them with the same calls: no later branch is looked up |
| MergeDispatcher.ResolvableBranchesBuildHeadsInOrder | LibGit2Sharp/Merge.cs:51-59 | when every branch resolves and yields a merge head, head `i` is the one made from the reference found for `branches[i]`'s canonical name. For branch `i`, the calls are, in order, its lookup, its head's creation and the release of its reference handle |
| MergeDispatcher.FirstUnresolvableBranchAborts | LibGit2Sharp/Merge.cs:52-61 | the first branch that is null, is not found or yields no merge head ends the merge with that exception: for a null branch the null-dereference message, before any lookup; for a failed lookup the lookup's message, right after it; for a failed head creation its message, once the found reference handle is released. Later branches are not looked up and the native merge is not called |
| MergeDispatcher.BuildHeadsReleasesFoundReferences | LibGit2Sharp/Merge.cs:54-58 | on every path of the loop, including an exception from the head's creation, each reference handle a lookup found is released right after its use |
| MergeDispatcher.MergeReleasesFoundReferences | LibGit2Sharp/Merge.cs:49-64 | the whole dispatch releases every reference handle it found, whether or not the native merge is reached |
| MergeDispatcher.NativeMergeIsLastAndOnly | LibGit2Sharp/Merge.cs:61-63 | the native merge is called once, as the last call, over exactly the heads built, and only when all were built. Its result is returned unchanged |
| MergeDispatcher.GitMerge | LibGit2Sharp/Merge.cs:49-64 | the array overload returns the result and makes the calls that `MergeSpec` gives for its branches |
| MergeDispatcher.GitMergeBranch | LibGit2Sharp/Merge.cs:38-41 | the single-branch overload behaves as the array overload given the one-element array |
| MergeFixture.AreEquivalent | LibGit2Sharp.Tests/MergeFixture.cs:228-242 | true iff every element of `actual` is expected and the element count, duplicates included, equals the number of expected names. It stops right after the first element that is not expected |
| MergeFixture.EquivalentIsSetEqualityWithoutDuplicates | LibGit2Sharp.Tests/MergeFixture.cs:228-242 | for a list without duplicates, AreEquivalent holds iff the list's elements are exactly the expected names |
| MergeFixture.EmptyIsEquivalentToEmptyOnly | LibGit2Sharp.Tests/MergeFixture.cs:228-242 | an empty list is equivalent only to the empty set |
| MergeFixture.DuplicatesCanStandInForMissingNames | LibGit2Sharp.Tests/MergeFixture.cs:230-241 | because duplicates are counted, ["b11.txt", "b11.txt"] is equivalent to {"b11.txt", "m1.txt"}, whose elements it does not cover |
| MergeFixture.BranchesFor | LibGit2Sharp.Tests/MergeFixture.cs:180-184 | the branch array has the names' length and order, with entry `i` being the branch named `branchNames[i]` |
| MergeFixture.Merge | LibGit2Sharp.Tests/MergeFixture.cs:178-187 | the helper dispatches exactly the branch array built from the names |
| MergeFixture.MergeFastForward | LibGit2Sharp.Tests/MergeFixture.cs:161-165 | the assertion passes iff the normal merge of the one branch returns and reports fast-forward |
| MergeFixture.MergeNoFastForwardBranch | LibGit2Sharp.Tests/MergeFixture.cs:167-170 | one name behaves as the one-element array of names |
| MergeFixture.MergeNoFastForward | LibGit2Sharp.Tests/MergeFixture.cs:172-176 | the assertion passes iff the no-fast-forward merge returns and does not report fast-forward |
| MergeFixture.NoFastForwardNeverReportsFastForward | LibGit2Sharp.Tests/MergeFixture.cs:172-176 | if the native merge honours GIT_MERGE_NO_FASTFORWARD, a no-fast-forward merge that returns never reports fast-forward |
| MergeFixture.FastForwardMergePasses | LibGit2Sharp.Tests/MergeFixture.cs:26-39 | if the native merge fast-forwards heads that are only ahead, a known branch whose head is only ahead passes MergeFastForward |
| Checkout.AsUInt32 | LibGit2Sharp/CheckoutOptions.cs:53 | the (uint) cast keeps the 32 bits, and is the identity on non-negative values |
| Checkout.AsInt32 | LibGit2Sharp/CheckoutOptions.cs:52 | the cast back to the int-based enumeration keeps the 32 bits, and is the identity below 2^31 |
| Checkout.CastsRoundTrip | LibGit2Sharp/CheckoutOptions.cs:50-54 | the two casts are inverse to each other in both directions, so any strategy value survives the uint field |
| Checkout.Or | LibGit2Sharp/CheckoutOptions.cs:42-44 | combining flags is the bitwise or of their bits |
| Checkout.StrategyFlagsAreDistinctBits | LibGit2Sharp/CheckoutOptions.cs:13-28 | Default, OverwriteModified, CreateMissing and RemoveUntracked are the single bits 1, 2, 4 and 8, pairwise disjoint |
| Checkout.DefaultStrategyIsFive | LibGit2Sharp/CheckoutOptions.cs:42-44 | Default \| CreateMissing is 5 |
| Checkout.EncodeBool | LibGit2Sharp/CheckoutOptions.cs:62 | a boolean is stored as 1 or 0, nonzero exactly for true |
| Checkout.BoolRoundTrip | LibGit2Sharp/CheckoutOptions.cs:59-63 | a stored boolean reads back as itself. Any nonzero field reads as true |
| Checkout.CheckoutOptions.constructor | LibGit2Sharp/CheckoutOptions.cs:39-45 | a fresh object holds a zeroed structure with strategy 5 (Default \| CreateMissing) |
| Checkout.CheckoutOptions.CheckoutStrategy | LibGit2Sharp/CheckoutOptions.cs:52 | the strategy read is the value whose (uint) cast is in the field |
| Checkout.CheckoutOptions.SetCheckoutStrategy | LibGit2Sharp/CheckoutOptions.cs:53 | writes only the strategy field, with the (uint) cast; the getter then returns the value set |
| Checkout.CheckoutOptions.DisableFilters | LibGit2Sharp/CheckoutOptions.cs:61 | filters read as disabled exactly when the field is nonzero; a field of 0 or 1 is the encoding of the value read |
| Checkout.CheckoutOptions.SetDisableFilters | LibGit2Sharp/CheckoutOptions.cs:59-63 | writes only DisableFilters, as 1 or 0; the getter then returns the value set |
| Checkout.CheckoutOptions.DirectoryMode | LibGit2Sharp/CheckoutOptions.cs:70 | the directory mode is DirMode, passed through unchanged |
| Checkout.CheckoutOptions.SetDirectoryMode | LibGit2Sharp/CheckoutOptions.cs:68-72 | writes only DirMode, unchanged; the getter then returns the value set |
| Checkout.CheckoutOptions.FileMode | LibGit2Sharp/CheckoutOptions.cs:79 | the file mode is FileMode, passed through unchanged |
| Checkout.CheckoutOptions.SetFileMode | LibGit2Sharp/CheckoutOptions.cs:77-81 | writes only FileMode, unchanged; the getter then returns the value set |
| Checkout.CheckoutOptions.FileOpenFlags | LibGit2Sharp/CheckoutOptions.cs:88 | the open flags are FileOpenFlags, passed through unchanged |
| Checkout.CheckoutOptions.SetFileOpenFlags | LibGit2Sharp/CheckoutOptions.cs:86-90 | writes only FileOpenFlags, unchanged; the getter then returns the value set |
| Checkout.SetStrategyKeepsOthers | LibGit2Sharp/CheckoutOptions.cs:50-90 | setting the strategy leaves the other four properties reading as before |

## Left out

- Native interop is not modelled: GC handles, `Marshal.ReadIntPtr`, `AllocHGlobal` and `StructureToPtr`, UTF-8 name marshalling and `Reference.BuildFromPtr`. The address that native allocation returns is a nonzero parameter. What `git_reference__alloc` returns is a parameter function. The managed `Reference` that Write and Delete receive is given directly.
- The table's GC handle slot and the native structure's memory layout are not modelled.
- The numeric values of `GitErrorCode` are not part of the modelled files, so the return codes are a datatype.
- The thread-local native error that `giterr_set_str` sets is returned as a value (`raised`), not stored globally.
- The repository (`refdbBackend.Repository`) and its reference-database handle are not modelled. Only the null dereference that reading it causes is modelled.
- RefdbBackendFixture.MockRefdbBackend: the C# dictionary can hold null values, and the indexer can be assigned null; the model stores only records, so the `NotFound` path of Lookup is not reachable through the test store.
- RefdbBackendFixture.CanReadFromRefdbBackend: the native side of `repository.Refs["HEAD"]`, `ResolveToDirectReference` and `repository.Head` is not modelled. The scenario is modelled as the two lookups native code makes through the Lookup callback.
- `SetBackend` and disposal of the repository are not modelled.
- Symbolic-chain resolution and fast-forward detection happen inside libgit2. The merge helpers state them only as assumed contracts of the native merge (`HonoursNoFastForward`, `FastForwardsWhenOnlyAhead`). `FastForwardsWhenOnlyAhead` leaves the "only ahead" relation abstract.
- Merge results other than `isFastForward` and the oid, and the content of the merge, are not modelled.
- MergeDispatcher.GitMerge: handle lifetimes are recorded as events, not as native resources. Finalisation of the merge heads, which the code never disposes, is not modelled.
- MergeDispatcher.GitMerge: the branches are a sequence, so a null array cannot be passed. In the source, a null `branches` array makes `branches.Length` throw a null-reference exception before any lookup. The same holds for the names array of `MergeFixture.Merge`.
- The repository setup of the merge tests is test scaffolding over repository and disk I/O, and is not modelled: file creation, staging, commits, checkout, `VerifyIndex`, `RetrieveStatus` and the console dumps.
- Checkout.CheckoutOptions: the native callback, payload and path fields of `GitCheckoutOptions` are not modelled. In the source `GitCheckoutOptions` is a class, so the options object holds a reference to it, and other code takes that reference out and hands it to native clone; the model holds the structure as a value, so it does not capture that a write through one holder of the reference is visible to every other holder.

/**
 * Value types shared by the reference-database bridge, its dictionary-backed
 * test store and the merge dispatcher.
 */
module Git {

  datatype Option<+T> = None | Some(value: T)

  /**
   * What a managed call did: it returned a value, or it threw an exception
   * carrying a message.  Used both for calls into a backend and for the way
   * a callback leaves managed code towards native code.
   */
  datatype Outcome<+T> = Returned(value: T) | Threw(message: string)

  /** An object id, kept as its hexadecimal text (what TargetIdentifier shows). */
  datatype ObjectId = ObjectId(sha: string)

  /** The kind tag the native side uses for a reference. */
  datatype GitReferenceType = OidType | SymbolicType

  /**
   * The managed Reference handed to a backend's Write and Delete: a symbolic
   * reference names another reference, a direct one names an object.
   */
  datatype Reference =
    | SymbolicReference(canonicalName: string, targetIdentifier: string)
    | DirectReference(canonicalName: string, targetId: ObjectId)

  /** The three return codes a refdb callback hands back to native code. */
  datatype ReturnCode = Ok | Error | NotFound

  /** Error categories; the bridge only ever reports the Reference one. */
  datatype ErrorCategory = ReferenceCategory

  /** What giterr_set_str records as the thread's last native error. */
  datatype GitError = GitError(category: ErrorCategory, message: string)

  /** The message of the exception .NET raises on a null dereference. */
  const NullReferenceMessage: string := "Object reference not set to an instance of an object."
}

/**
 * The merge dispatcher: one merge head per branch, built in order while
 * each looked-up reference handle is released again, then one native merge
 * call over all of them.  The native reference lookup, the creation of a merge
 * head from a reference and the native merge are abstract functions; what the
 * dispatcher does with them is recorded as a sequence of events.
 */
module MergeDispatcher {
  import opened Git

  datatype Branch = Branch(canonicalName: string)

  datatype ReferenceHandle = ReferenceHandle(pointer: int)
  datatype MergeHeadHandle = MergeHeadHandle(pointer: int)

  /** GitMergeOptionFlags. */
  type GitMergeOptionFlags = bv32
  const GitMergeNormal: GitMergeOptionFlags := 0
  const GitMergeNoFastForward: GitMergeOptionFlags := 1

  datatype MergeResult = MergeResult(isFastForward: bool, oid: ObjectId)

  /** What the native reference lookup answers for a name. */
  datatype NativeLookup = Found(handle: ReferenceHandle) | Missing(message: string) | Failed(message: string)

  /** The calls the dispatcher makes, in the order it makes them. */
  datatype Event =
    | LookedUp(name: string)
    | HeadCreated(reference: ReferenceHandle, head: MergeHeadHandle)
    | Released(reference: ReferenceHandle)
    | Merged(heads: seq<MergeHeadHandle>, flags: GitMergeOptionFlags)

  type Lookup = string -> NativeLookup
  type NewHead = ReferenceHandle -> Outcome<MergeHeadHandle>
  type NativeMerge = (seq<MergeHeadHandle>, GitMergeOptionFlags) -> Outcome<MergeResult>

  /**
   * RetrieveReferencePtr: the handle of a found reference; a missing one
   * throws unless the caller asked for a null handle instead; any other
   * native failure throws.
   */
  function RetrieveReferencePtr(referenceName: string, shouldThrowIfNotFound: bool, lookup: Lookup)
    : (r: Outcome<Option<ReferenceHandle>>)
    ensures r.Returned? && r.value.Some? <==> lookup(referenceName).Found?
    ensures lookup(referenceName).Found? ==> r.value == Some(lookup(referenceName).handle)
    ensures r == Returned(None) <==> lookup(referenceName).Missing? && !shouldThrowIfNotFound
    ensures r.Threw? ==> r.message == lookup(referenceName).message
  {
    match lookup(referenceName)
    case Found(handle) => Returned(Some(handle))
    case Missing(message) => if shouldThrowIfNotFound then Threw(message) else Returned(None)
    case Failed(message) => Threw(message)
  }

  /** Whether the dispatcher can build a head for this branch: not null, found, and a head made from it. */
  predicate Resolvable(branch: Option<Branch>, lookup: Lookup, newHead: NewHead) {
    && branch.Some?
    && lookup(branch.value.canonicalName).Found?
    && newHead(lookup(branch.value.canonicalName).handle).Returned?
  }

  /** The exception the dispatcher ends with at a branch it cannot build a head for. */
  function AbortMessage(branch: Option<Branch>, lookup: Lookup, newHead: NewHead): string
    requires !Resolvable(branch, lookup, newHead)
  {
    if branch.None? then NullReferenceMessage
    else if !lookup(branch.value.canonicalName).Found? then lookup(branch.value.canonicalName).message
    else newHead(lookup(branch.value.canonicalName).handle).message
  }

  /**
   * If the event at `k` is a lookup that found a reference, that handle is
   * released right after it was used: immediately when no head could be made
   * from it, or right after the head's creation.
   */
  ghost predicate ReleasedAfter(events: seq<Event>, k: nat, lookup: Lookup)
    requires k < |events|
  {
    events[k].LookedUp? && lookup(events[k].name).Found? ==>
      var reference := lookup(events[k].name).handle;
      || (k + 1 < |events| && events[k + 1] == Released(reference))
      || (k + 2 < |events| && events[k + 1].HeadCreated? && events[k + 1].reference == reference
          && events[k + 2] == Released(reference))
  }

  /** Every reference handle that a lookup found is released. */
  ghost predicate FoundReferencesReleased(events: seq<Event>, lookup: Lookup) {
    forall k :: 0 <= k < |events| ==> ReleasedAfter(events, k, lookup)
  }

  /**
   * The heads and events the loop produces for `branches`, defined on the
   * last branch so that it follows the loop's prefixes; the first branch that
   * is null, fails to resolve or yields no merge head ends it with an
   * exception, after the found reference handle, if any, is released.
   */
  function BuildHeads(branches: seq<Option<Branch>>, lookup: Lookup, newHead: NewHead)
    : (r: (Outcome<seq<MergeHeadHandle>>, seq<Event>))
    ensures r.0.Returned? ==> |r.0.value| == |branches| && |r.1| == 3 * |branches|
    ensures forall k :: 0 <= k < |r.1| ==> !r.1[k].Merged?
    decreases |branches|
  {
    if branches == [] then (Returned([]), [])
    else
      var n := |branches| - 1;
      var prev := BuildHeads(branches[..n], lookup, newHead);
      var heads := prev.0;
      var events := prev.1;
      if heads.Threw? then (heads, events)
      else if branches[n].None? then (Threw(NullReferenceMessage), events)
      else
        var name := branches[n].value.canonicalName;
        var handle := RetrieveReferencePtr(name, true, lookup);
        if handle.Threw? then (Threw(handle.message), events + [LookedUp(name)])
        else
          var reference := handle.value.value;
          var head := newHead(reference);
          if head.Threw? then (Threw(head.message), events + [LookedUp(name), Released(reference)])
          else
            (Returned(heads.value + [head.value]),
             events + [LookedUp(name), HeadCreated(reference, head.value), Released(reference)])
  }

  /** What GitMerge returns and the calls it makes. */
  function MergeSpec(branches: seq<Option<Branch>>, flags: GitMergeOptionFlags,
                     lookup: Lookup, newHead: NewHead, gitMerge: NativeMerge)
    : (r: (Outcome<MergeResult>, seq<Event>))
    ensures BuildHeads(branches, lookup, newHead).0.Threw? ==> r.0.Threw?
  {
    var built := BuildHeads(branches, lookup, newHead);
    var heads := built.0;
    var events := built.1;
    if heads.Threw? then (Threw(heads.message), events)
    else (gitMerge(heads.value, flags), events + [Merged(heads.value, flags)])
  }

  /** Once the loop has thrown on a prefix it has thrown on the whole sequence, with the same events. */
  lemma {:induction false} FailureIsFinal(branches: seq<Option<Branch>>, j: nat, lookup: Lookup, newHead: NewHead)
    requires j <= |branches|
    requires BuildHeads(branches[..j], lookup, newHead).0.Threw?
    ensures BuildHeads(branches, lookup, newHead) == BuildHeads(branches[..j], lookup, newHead)
    decreases |branches| - j
  {
    if j < |branches| {
      var n := |branches| - 1;
      assert branches[..n][..j] == branches[..j];
      FailureIsFinal(branches[..n], j, lookup, newHead);
    } else {
      assert branches[..j] == branches;
    }
  }

  /**
   * When every branch resolves, there is one head per branch, in order, each
   * built from the reference found for that branch's canonical name, and the
   * events are, per branch in order: its lookup, the head created from the
   * reference, and the release of that reference.
   */
  lemma {:induction false} ResolvableBranchesBuildHeadsInOrder(branches: seq<Option<Branch>>, lookup: Lookup, newHead: NewHead)
    requires forall i :: 0 <= i < |branches| ==> Resolvable(branches[i], lookup, newHead)
    ensures var (heads, events) := BuildHeads(branches, lookup, newHead);
      && heads.Returned? && |heads.value| == |branches| && |events| == 3 * |branches|
      && forall i :: 0 <= i < |branches| && Resolvable(branches[i], lookup, newHead) ==>
        var reference := lookup(branches[i].value.canonicalName).handle;
        && heads.value[i] == newHead(reference).value
        && events[3 * i] == LookedUp(branches[i].value.canonicalName)
        && events[3 * i + 1] == HeadCreated(reference, newHead(reference).value)
        && events[3 * i + 2] == Released(reference)
  {
    if branches != [] {
      var n := |branches| - 1;
      ResolvableBranchesBuildHeadsInOrder(branches[..n], lookup, newHead);
    }
  }

  /**
   * The first branch that is null, does not resolve or yields no merge head
   * ends the merge with that exception: a null branch before any lookup, a
   * failed lookup right after it, and a failed head creation once the found
   * reference handle is released.  The branches after it are never looked
   * up, and the native merge is never called.
   */
  lemma FirstUnresolvableBranchAborts(branches: seq<Option<Branch>>, i: nat, flags: GitMergeOptionFlags,
                                      lookup: Lookup, newHead: NewHead, gitMerge: NativeMerge)
    requires i < |branches|
    requires forall k :: 0 <= k < i ==> Resolvable(branches[k], lookup, newHead)
    requires !Resolvable(branches[i], lookup, newHead)
    ensures var (result, events) := MergeSpec(branches, flags, lookup, newHead, gitMerge);
      && result == Threw(AbortMessage(branches[i], lookup, newHead))
      && events == BuildHeads(branches[..i], lookup, newHead).1 +
                   (if branches[i].None? then []
                    else if !lookup(branches[i].value.canonicalName).Found? then
                      [LookedUp(branches[i].value.canonicalName)]
                    else
                      [LookedUp(branches[i].value.canonicalName),
                       Released(lookup(branches[i].value.canonicalName).handle)])
      && (forall k :: 0 <= k < |events| ==> !events[k].Merged?)
  {
    var prefix := branches[..i];
    ResolvableBranchesBuildHeadsInOrder(prefix, lookup, newHead);
    assert branches[..i + 1][..i] == prefix;
    FailureIsFinal(branches, i + 1, lookup, newHead);
  }

  /**
   * The native merge is called at most once, as the very last call, over
   * exactly the heads built, and only when every head was built; its result
   * is returned unchanged.
   */
  lemma NativeMergeIsLastAndOnly(branches: seq<Option<Branch>>, flags: GitMergeOptionFlags,
                                 lookup: Lookup, newHead: NewHead, gitMerge: NativeMerge)
    ensures var (heads, _) := BuildHeads(branches, lookup, newHead);
      var (result, events) := MergeSpec(branches, flags, lookup, newHead, gitMerge);
      && (heads.Returned? ==>
            && events[|events| - 1] == Merged(heads.value, flags)
            && result == gitMerge(heads.value, flags)
            && forall k :: 0 <= k < |events| - 1 ==> !events[k].Merged?)
      && (heads.Threw? ==> result.Threw? && forall k :: 0 <= k < |events| ==> !events[k].Merged?)
  {
  }

  /** On every path of the loop, each reference handle found is released. */
  lemma {:induction false} BuildHeadsReleasesFoundReferences(branches: seq<Option<Branch>>, lookup: Lookup, newHead: NewHead)
    ensures FoundReferencesReleased(BuildHeads(branches, lookup, newHead).1, lookup)
    decreases |branches|
  {
    if branches != [] {
      var n := |branches| - 1;
      var prev := BuildHeads(branches[..n], lookup, newHead).1;
      BuildHeadsReleasesFoundReferences(branches[..n], lookup, newHead);
      var events := BuildHeads(branches, lookup, newHead).1;
      assert events[..|prev|] == prev;
      ReleasedInPrefix(prev, events, lookup);
    }
  }

  /** What a prefix shows of the releases stays true once events are appended. */
  lemma ReleasedInPrefix(prev: seq<Event>, events: seq<Event>, lookup: Lookup)
    requires FoundReferencesReleased(prev, lookup)
    requires |prev| <= |events| && events[..|prev|] == prev
    requires forall k :: |prev| <= k < |events| ==> ReleasedAfter(events, k, lookup)
    ensures FoundReferencesReleased(events, lookup)
  {
    forall k | 0 <= k < |prev|
      ensures ReleasedAfter(events, k, lookup)
    {
      assert ReleasedAfter(prev, k, lookup);
      assert prev[k] == events[k];
      if k + 1 < |prev| { assert prev[k + 1] == events[k + 1]; }
      if k + 2 < |prev| { assert prev[k + 2] == events[k + 2]; }
    }
  }

  /** The whole dispatch, with or without the native merge at the end, releases every reference handle found. */
  lemma MergeReleasesFoundReferences(branches: seq<Option<Branch>>, flags: GitMergeOptionFlags,
                                     lookup: Lookup, newHead: NewHead, gitMerge: NativeMerge)
    ensures FoundReferencesReleased(MergeSpec(branches, flags, lookup, newHead, gitMerge).1, lookup)
  {
    var built := BuildHeads(branches, lookup, newHead).1;
    BuildHeadsReleasesFoundReferences(branches, lookup, newHead);
    var events := MergeSpec(branches, flags, lookup, newHead, gitMerge).1;
    assert events[..|built|] == built;
    ReleasedInPrefix(built, events, lookup);
  }

  /** GitMerge over an array of branches. */
  method GitMerge(branches: seq<Option<Branch>>, flags: GitMergeOptionFlags,
                  lookup: Lookup, newHead: NewHead, gitMerge: NativeMerge)
    returns (result: Outcome<MergeResult>, events: seq<Event>)
    ensures (result, events) == MergeSpec(branches, flags, lookup, newHead, gitMerge)
  {
    var mergeHeadHandles := new MergeHeadHandle[|branches|];
    events := [];
    for i := 0 to |branches|
      invariant BuildHeads(branches[..i], lookup, newHead) == (Returned(mergeHeadHandles[..i]), events)
    {
      assert branches[..i + 1][..i] == branches[..i];
      ghost var before := events;
      if branches[i].None? {
        result := Threw(NullReferenceMessage);
        FailureIsFinal(branches, i + 1, lookup, newHead);
        return;
      }
      var name := branches[i].value.canonicalName;
      var handle := RetrieveReferencePtr(name, true, lookup);
      events := events + [LookedUp(name)];
      if handle.Threw? {
        result := Threw(handle.message);
        FailureIsFinal(branches, i + 1, lookup, newHead);
        return;
      }
      // the reference handle is live only for this block
      var reference := handle.value.value;
      var created := newHead(reference);
      if created.Threw? {
        events := events + [Released(reference)];
        assert events == before + [LookedUp(name), Released(reference)];
        result := Threw(created.message);
        FailureIsFinal(branches, i + 1, lookup, newHead);
        return;
      }
      var mergeHead := created.value;
      events := events + [HeadCreated(reference, mergeHead)];
      ghost var built := mergeHeadHandles[..i];
      mergeHeadHandles[i] := mergeHead;
      assert mergeHeadHandles[..i + 1] == built + [mergeHead];
      events := events + [Released(reference)];
      assert events == before + [LookedUp(name), HeadCreated(reference, mergeHead), Released(reference)];
    }
    assert branches[..|branches|] == branches;
    assert mergeHeadHandles[..] == mergeHeadHandles[..|branches|];
    result := gitMerge(mergeHeadHandles[..], flags);
    events := events + [Merged(mergeHeadHandles[..], flags)];
  }

  /** GitMerge of one branch: the array overload given a one-element array. */
  method GitMergeBranch(branch: Option<Branch>, flags: GitMergeOptionFlags,
                        lookup: Lookup, newHead: NewHead, gitMerge: NativeMerge)
    returns (result: Outcome<MergeResult>, events: seq<Event>)
    ensures (result, events) == MergeSpec([branch], flags, lookup, newHead, gitMerge)
  {
    result, events := GitMerge([branch], flags, lookup, newHead, gitMerge);
  }
}

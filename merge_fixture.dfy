/**
 * The merge tests' helpers: the comparison of a status list with an expected
 * set of file names, and the helpers that look branches up by name and
 * dispatch a merge with or without fast-forward.
 */
module MergeFixture {
  import opened Git
  import opened MergeDispatcher

  // ---------------------------------------------------------------------------
  // AreEquivalent

  /**
   * What AreEquivalent computes: every element of `actual` is expected, and
   * `actual` has as many elements, duplicates included, as `expected` has.
   */
  predicate Equivalent(expected: set<string>, actual: seq<string>) {
    (forall i :: 0 <= i < |actual| ==> actual[i] in expected) && |actual| == |expected|
  }

  /**
   * AreEquivalent walks `actual` once, counting; it stops at the first element
   * that is not expected.  The ghost `consumed` is how many elements it drew.
   */
  method AreEquivalent(expected: set<string>, actual: seq<string>) returns (r: bool, ghost consumed: nat)
    ensures r == Equivalent(expected, actual)
    ensures consumed <= |actual|
    ensures forall i :: 0 <= i < consumed - 1 ==> actual[i] in expected
    ensures (forall i :: 0 <= i < |actual| ==> actual[i] in expected) ==> consumed == |actual|
    ensures (exists i :: 0 <= i < |actual| && actual[i] !in expected) ==>
      0 < consumed && actual[consumed - 1] !in expected && !r
  {
    var actualCount := 0;
    while actualCount < |actual|
      invariant 0 <= actualCount <= |actual|
      invariant forall i :: 0 <= i < actualCount ==> actual[i] in expected
    {
      var s := actual[actualCount];
      actualCount := actualCount + 1;
      if s !in expected {
        return false, actualCount;
      }
    }
    r := actualCount == |expected|;
    consumed := actualCount;
  }

  /** The number of distinct elements of a duplicate-free sequence is its length. */
  lemma {:induction false} DistinctCardinality(s: seq<string>)
    requires forall i, j :: 0 <= i < j < |s| ==> s[i] != s[j]
    ensures |set x | x in s| == |s|
  {
    if s != [] {
      var tail := s[1..];
      DistinctCardinality(tail);
      assert s[0] !in tail;
      assert (set x | x in s) == (set x | x in tail) + {s[0]};
    }
  }

  /**
   * On a list without duplicates, AreEquivalent is set equality between the
   * elements of `actual` and `expected`.
   */
  lemma EquivalentIsSetEqualityWithoutDuplicates(expected: set<string>, actual: seq<string>)
    requires forall i, j :: 0 <= i < j < |actual| ==> actual[i] != actual[j]
    ensures Equivalent(expected, actual) <==> (set x | x in actual) == expected
  {
    var elements := set x | x in actual;
    DistinctCardinality(actual);
    if Equivalent(expected, actual) {
      assert elements <= expected;
      assert |elements| == |expected|;
      SubsetOfEqualSize(elements, expected);
    }
    if elements == expected {
      forall i | 0 <= i < |actual| ensures actual[i] in expected {
        assert actual[i] in elements;
      }
    }
  }

  /** A subset as large as its superset is the superset. */
  lemma {:induction false} SubsetOfEqualSize(a: set<string>, b: set<string>)
    requires a <= b && |a| == |b|
    ensures a == b
    decreases a
  {
    if a != {} {
      var y :| y in a;
      SubsetOfEqualSize(a - {y}, b - {y});
    }
  }

  /** An empty list is equivalent to the empty set only. */
  lemma EmptyIsEquivalentToEmptyOnly(expected: set<string>)
    ensures Equivalent(expected, []) <==> expected == {}
  {
  }

  /**
   * Duplicates are counted: a list repeating one expected name as often as
   * there are expected names passes, although it misses the others.
   */
  lemma DuplicatesCanStandInForMissingNames()
    ensures Equivalent({"b11.txt", "m1.txt"}, ["b11.txt", "b11.txt"])
    ensures (set x | x in ["b11.txt", "b11.txt"]) != {"b11.txt", "m1.txt"}
  {
    var expected: set<string> := {"b11.txt", "m1.txt"};
    assert "b11.txt" != "m1.txt";
    assert |expected| == 2;
    assert "m1.txt" !in (set x | x in ["b11.txt", "b11.txt"]);
  }

  // ---------------------------------------------------------------------------
  // Merge helpers

  /** The branch array the Merge helper builds: one entry per name, in order. */
  function BranchesFor(branchNames: seq<string>, branchOf: string -> Option<Branch>)
    : (branches: seq<Option<Branch>>)
    ensures |branches| == |branchNames|
    ensures forall i :: 0 <= i < |branchNames| ==> branches[i] == branchOf(branchNames[i])
  {
    if branchNames == [] then []
    else BranchesFor(branchNames[..|branchNames| - 1], branchOf) + [branchOf(branchNames[|branchNames| - 1])]
  }

  /**
   * Merge: fills the branch array from the names (the branch collection may
   * yield null for an unknown name), then dispatches it.
   */
  method Merge(branchNames: seq<string>, flags: GitMergeOptionFlags, branchOf: string -> Option<Branch>,
               lookup: Lookup, newHead: NewHead, gitMerge: NativeMerge)
    returns (result: Outcome<MergeResult>, events: seq<Event>)
    ensures (result, events) == MergeSpec(BranchesFor(branchNames, branchOf), flags, lookup, newHead, gitMerge)
  {
    var branches := new Option<Branch>[|branchNames|];
    for i := 0 to |branchNames|
      invariant forall k :: 0 <= k < i ==> branches[k] == branchOf(branchNames[k])
    {
      branches[i] := branchOf(branchNames[i]);
    }
    assert branches[..] == BranchesFor(branchNames, branchOf);
    result, events := GitMerge(branches[..], flags, lookup, newHead, gitMerge);
  }

  /** The test's assertion: a merge that returned, reporting fast-forward or not as asked. */
  predicate Reports(result: Outcome<MergeResult>, fastForward: bool) {
    result.Returned? && result.value.isFastForward == fastForward
  }

  /** MergeFastForward: merges one branch normally and asserts fast-forward. */
  method MergeFastForward(branchName: string, branchOf: string -> Option<Branch>,
                          lookup: Lookup, newHead: NewHead, gitMerge: NativeMerge)
    returns (passed: bool)
    ensures passed <==>
      Reports(MergeSpec(BranchesFor([branchName], branchOf), GitMergeNormal, lookup, newHead, gitMerge).0, true)
  {
    var result, events := Merge([branchName], GitMergeNormal, branchOf, lookup, newHead, gitMerge);
    passed := Reports(result, true);
  }

  /** MergeNoFastForward of one name: the same as for a one-element array. */
  method MergeNoFastForwardBranch(branchName: string, branchOf: string -> Option<Branch>,
                                  lookup: Lookup, newHead: NewHead, gitMerge: NativeMerge)
    returns (passed: bool)
    ensures passed <==>
      Reports(MergeSpec(BranchesFor([branchName], branchOf), GitMergeNoFastForward, lookup, newHead, gitMerge).0, false)
  {
    passed := MergeNoFastForward([branchName], branchOf, lookup, newHead, gitMerge);
  }

  /** MergeNoFastForward: merges the branches without fast-forward and asserts it was not one. */
  method MergeNoFastForward(branchNames: seq<string>, branchOf: string -> Option<Branch>,
                            lookup: Lookup, newHead: NewHead, gitMerge: NativeMerge)
    returns (passed: bool)
    ensures passed <==>
      Reports(MergeSpec(BranchesFor(branchNames, branchOf), GitMergeNoFastForward, lookup, newHead, gitMerge).0, false)
  {
    var result, events := Merge(branchNames, GitMergeNoFastForward, branchOf, lookup, newHead, gitMerge);
    passed := Reports(result, false);
  }

  // The tests' observations, as what native merge is assumed to promise.

  /** Assumed of the native merge: with GIT_MERGE_NO_FASTFORWARD it never reports fast-forward. */
  ghost predicate HonoursNoFastForward(gitMerge: NativeMerge) {
    forall heads :: gitMerge(heads, GitMergeNoFastForward).Returned? ==>
      !gitMerge(heads, GitMergeNoFastForward).value.isFastForward
  }

  /**
   * Assumed of the native merge: with GIT_MERGE_NORMAL, heads whose history
   * is only ahead of the current branch are fast-forwarded.  `onlyAhead`
   * stands for that ancestry relation, which lies outside this model.
   */
  ghost predicate FastForwardsWhenOnlyAhead(gitMerge: NativeMerge, onlyAhead: seq<MergeHeadHandle> -> bool) {
    forall heads :: onlyAhead(heads) ==>
      gitMerge(heads, GitMergeNormal).Returned? && gitMerge(heads, GitMergeNormal).value.isFastForward
  }

  /** Under that promise, a no-fast-forward merge that returns never reports fast-forward. */
  lemma NoFastForwardNeverReportsFastForward(branchNames: seq<string>, branchOf: string -> Option<Branch>,
                                             lookup: Lookup, newHead: NewHead, gitMerge: NativeMerge)
    requires HonoursNoFastForward(gitMerge)
    ensures var result := MergeSpec(BranchesFor(branchNames, branchOf), GitMergeNoFastForward, lookup, newHead, gitMerge).0;
      result.Returned? ==> !result.value.isFastForward
  {
  }

  /**
   * MergeWithFastForwardResult: a known branch whose head is only ahead
   * passes MergeFastForward.
   */
  lemma FastForwardMergePasses(branchName: string, branchOf: string -> Option<Branch>,
                               lookup: Lookup, newHead: NewHead, gitMerge: NativeMerge,
                               onlyAhead: seq<MergeHeadHandle> -> bool)
    requires FastForwardsWhenOnlyAhead(gitMerge, onlyAhead)
    requires Resolvable(branchOf(branchName), lookup, newHead)
    requires onlyAhead([newHead(lookup(branchOf(branchName).value.canonicalName).handle).value])
    ensures Reports(MergeSpec(BranchesFor([branchName], branchOf), GitMergeNormal, lookup, newHead, gitMerge).0, true)
  {
    var branches := BranchesFor([branchName], branchOf);
    ResolvableBranchesBuildHeadsInOrder(branches, lookup, newHead);
    var heads := BuildHeads(branches, lookup, newHead).0.value;
    assert heads == [newHead(lookup(branchOf(branchName).value.canonicalName).handle).value];
  }
}

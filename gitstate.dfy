/**
 * Working-tree and operation state in git-prompt.c: which in-progress
 * operation (rebase, merge, cherry-pick, revert) the marker files in the
 * git directory announce, whether the index holds conflicts or changes, the
 * colour of the branch name, and when the index is loaded at all.
 *
 * The git directory is modelled as the set of file names present in it,
 * and the index as its list of entries, each reduced to what the prompt
 * looks at.
 */
module GitState {
  import opened Wrappers

  /** One cache entry of the index: its merge stage (0 when merged), whether
      it is a submodule (gitlink), and whether its stat data matched the
      working tree after the refresh. */
  datatype IndexEntry = IndexEntry(stage: nat, isGitlink: bool, upToDate: bool)

  const ColorClean := "32"
  const ColorUntracked := "36"
  const ColorStaged := "33"
  const ColorModified := "31"
  const ColorLargeRepo := "37"
  const ColorMerge := "36"
  const ColorConflict := "31"

  /** LARGE_REPO_INDEX_SIZE, the default index size above which a repository is large. */
  const LargeRepoIndexSize := 5000000

  /**
   * is_large_repo: large exactly when the index file can be stat'ed and is
   * strictly bigger than the limit; an index of exactly the limit is small.
   */
  function IsLargeRepo(indexSize: Option<int>, limit: int): (large: bool)
    ensures large ==> indexSize.Some? && indexSize.value > limit
    ensures indexSize.Some? && indexSize.value > limit ==> large
    ensures indexSize == Some(limit) ==> !large
  {
    indexSize.Some? && indexSize.value > limit
  }

  // ----- markers of an operation in progress -----

  datatype Marker = RebaseMerge | RebaseApply | MergeHead | CherryPickHead | RevertHead

  /** The order in which the markers are looked for; the first present wins. */
  const StateMarkers: seq<Marker> := [RebaseMerge, RebaseApply, MergeHead, CherryPickHead, RevertHead]

  function FileName(m: Marker): string
  {
    match m
    case RebaseMerge => "rebase-merge"
    case RebaseApply => "rebase-apply"
    case MergeHead => "MERGE_HEAD"
    case CherryPickHead => "CHERRY_PICK_HEAD"
    case RevertHead => "REVERT_HEAD"
  }

  function ConflictName(m: Marker): string
  {
    match m
    case RebaseMerge => "rebase:conflict"
    case RebaseApply => "rebase:conflict"
    case MergeHead => "merge:conflict"
    case CherryPickHead => "cherrypick:conflict"
    case RevertHead => "revert:conflict"
  }

  function NormalName(m: Marker): string
  {
    match m
    case RebaseMerge => "rebase:continue"
    case RebaseApply => "rebase:continue"
    case MergeHead => "merge:commit"
    case CherryPickHead => "cherrypick:commit"
    case RevertHead => "revert:commit"
  }

  /** struct git_state: no name and no colour when nothing is in progress. */
  datatype GitStateInfo = GitStateInfo(hasState: bool, hasConflicts: bool,
                                       stateName: Option<string>, stateColor: Option<string>)

  const NoState := GitStateInfo(false, false, None, None)

  /** The index has an entry at a non-zero stage. */
  predicate Unmerged(index: seq<IndexEntry>)
  {
    exists i :: 0 <= i < |index| && index[i].stage != 0
  }

  /** The state a present marker announces. */
  function StateFor(m: Marker, conflicts: bool): GitStateInfo
  {
    GitStateInfo(true, conflicts,
                 Some(if conflicts then ConflictName(m) else NormalName(m)),
                 Some(if conflicts then ColorConflict else ColorMerge))
  }

  /** The first marker of `ms` whose file is present. */
  function FirstMarker(files: set<string>, ms: seq<Marker>): Option<Marker>
    decreases |ms|
  {
    if |ms| == 0 then None
    else if FileName(ms[0]) in files then Some(ms[0])
    else FirstMarker(files, ms[1..])
  }

  /** What get_git_state reports, given whether the index shows conflicts. */
  function ExpectedState(files: set<string>, conflicts: bool): GitStateInfo
  {
    match FirstMarker(files, StateMarkers)
    case None => NoState
    case Some(m) => StateFor(m, conflicts)
  }

  /**
   * has_unmerged_files: scans the index and stops at the first entry with a
   * non-zero stage.
   */
  method HasUnmergedFiles(index: seq<IndexEntry>) returns (found: bool)
    ensures found <==> Unmerged(index)
  {
    for i := 0 to |index|
      invariant forall j :: 0 <= j < i ==> index[j].stage == 0
    {
      if index[i].stage != 0 {
        return true;
      }
    }
    return false;
  }

  /**
   * check_git_state_file: when the marker's file is present, the state
   * becomes that operation, in conflict exactly when the index is loaded and
   * has an unmerged entry; otherwise the state is left as it was.
   */
  method CheckGitStateFile(files: set<string>, m: Marker, state: GitStateInfo,
                           indexLoaded: bool, index: seq<IndexEntry>)
    returns (found: bool, state': GitStateInfo)
    ensures found <==> FileName(m) in files
    ensures found ==> state' == StateFor(m, indexLoaded && Unmerged(index))
    ensures !found ==> state' == state
  {
    state' := state;
    found := false;
    if FileName(m) in files {
      var conflicts := false;
      if indexLoaded {
        conflicts := HasUnmergedFiles(index);
      }
      state' := StateFor(m, conflicts);
      found := true;
    }
  }

  /**
   * get_git_state: the markers are tried in the order of StateMarkers and
   * the first present one decides; with none present the state is empty.
   */
  method GetGitState(files: set<string>, indexLoaded: bool, index: seq<IndexEntry>)
    returns (state: GitStateInfo)
    ensures state == ExpectedState(files, indexLoaded && Unmerged(index))
  {
    state := NoState;
    var found;
    found, state := CheckGitStateFile(files, RebaseMerge, state, indexLoaded, index);
    if found {
      return;
    }
    found, state := CheckGitStateFile(files, RebaseApply, state, indexLoaded, index);
    if found {
      return;
    }
    found, state := CheckGitStateFile(files, MergeHead, state, indexLoaded, index);
    if found {
      return;
    }
    found, state := CheckGitStateFile(files, CherryPickHead, state, indexLoaded, index);
    if found {
      return;
    }
    found, state := CheckGitStateFile(files, RevertHead, state, indexLoaded, index);
  }

  /** Some marker file is present. */
  predicate AnyMarker(files: set<string>)
  {
    exists i :: 0 <= i < |StateMarkers| && FileName(StateMarkers[i]) in files
  }

  /**
   * has_git_state_files: looks for the same five files in the same order and
   * stops at the first one present.
   */
  method HasGitStateFiles(files: set<string>) returns (found: bool)
    ensures found <==> AnyMarker(files)
  {
    found := false;
    var i := 0;
    while i < |StateMarkers|
      invariant 0 <= i <= |StateMarkers|
      invariant forall j :: 0 <= j < i ==> FileName(StateMarkers[j]) !in files
    {
      if FileName(StateMarkers[i]) in files {
        found := true;
        break;
      }
      i := i + 1;
    }
  }

  /** A present marker with every earlier marker absent is the one found. */
  lemma {:induction false} FirstMarkerIsFirst(files: set<string>, ms: seq<Marker>, k: nat)
    requires k < |ms| && FileName(ms[k]) in files
    requires forall j :: 0 <= j < k ==> FileName(ms[j]) !in files
    ensures FirstMarker(files, ms) == Some(ms[k])
    decreases k
  {
    if k > 0 {
      assert FileName(ms[0]) !in files;
      assert ms[1..][k - 1] == ms[k];
      FirstMarkerIsFirst(files, ms[1..], k - 1);
    }
  }

  /** A marker is found exactly when some marker file is present. */
  lemma {:induction false} FirstMarkerFound(files: set<string>, ms: seq<Marker>)
    ensures FirstMarker(files, ms).Some? <==> exists i :: 0 <= i < |ms| && FileName(ms[i]) in files
    ensures FirstMarker(files, ms).Some? ==> FileName(FirstMarker(files, ms).value) in files
    decreases |ms|
  {
    if |ms| > 0 && FileName(ms[0]) !in files {
      FirstMarkerFound(files, ms[1..]);
      if exists i :: 0 <= i < |ms| && FileName(ms[i]) in files {
        var i :| 0 <= i < |ms| && FileName(ms[i]) in files;
        assert FileName(ms[1..][i - 1]) in files;
      }
    }
  }

  /**
   * The state reported: an operation is in progress exactly when a marker
   * file is present, and then the label and colour belong to the first
   * present marker in StateMarkers order, "31" with conflicts and "36"
   * without. Conflicts are reported only with an operation in progress.
   */
  lemma ExpectedStateShape(files: set<string>, conflicts: bool)
    ensures ExpectedState(files, conflicts).hasState <==> AnyMarker(files)
    ensures !AnyMarker(files) ==> ExpectedState(files, conflicts) == NoState
    ensures ExpectedState(files, conflicts).hasConflicts <==> AnyMarker(files) && conflicts
    ensures forall k :: 0 <= k < |StateMarkers| && FileName(StateMarkers[k]) in files
                        && (forall j :: 0 <= j < k ==> FileName(StateMarkers[j]) !in files) ==>
              ExpectedState(files, conflicts) == StateFor(StateMarkers[k], conflicts)
    ensures AnyMarker(files) ==>
              ExpectedState(files, conflicts).stateColor == Some(if conflicts then "31" else "36")
  {
    FirstMarkerFound(files, StateMarkers);
    forall k | 0 <= k < |StateMarkers| && FileName(StateMarkers[k]) in files
               && (forall j :: 0 <= j < k ==> FileName(StateMarkers[j]) !in files)
      ensures ExpectedState(files, conflicts) == StateFor(StateMarkers[k], conflicts)
    {
      FirstMarkerIsFirst(files, StateMarkers, k);
    }
  }

  /**
   * The index-load decision of main: a small repository always tries to
   * read the index; a large one only while an operation is in progress, so
   * that conflicts are still detected. Loading succeeds when the index is
   * readable.
   */
  function IndexLoaded(largeRepo: bool, stateFilesPresent: bool, indexReadable: bool): (loaded: bool)
    ensures loaded ==> indexReadable
    ensures !largeRepo ==> (loaded <==> indexReadable)
    ensures largeRepo ==> (loaded <==> stateFilesPresent && indexReadable)
  {
    if !largeRepo then indexReadable
    else if stateFilesPresent then indexReadable
    else false
  }

  /** An entry the worktree scan reports: merged, not a submodule, stale. */
  predicate IsUnstaged(e: IndexEntry)
  {
    e.stage == 0 && !e.isGitlink && !e.upToDate
  }

  /**
   * has_worktree_changes: an unreadable index counts as clean; otherwise the
   * (already refreshed) entries are scanned, skipping unmerged entries and
   * submodules, until one is not up to date.
   */
  method HasWorktreeChanges(indexReadable: bool, index: seq<IndexEntry>) returns (changed: bool)
    ensures changed <==> indexReadable && exists i :: 0 <= i < |index| && IsUnstaged(index[i])
  {
    if !indexReadable {
      return false;
    }
    changed := false;
    var i := 0;
    while i < |index|
      invariant 0 <= i <= |index|
      invariant !changed
      invariant forall j :: 0 <= j < i ==> !IsUnstaged(index[j])
    {
      var e := index[i];
      i := i + 1;
      if e.stage != 0 {
        continue;
      }
      if e.isGitlink {
        continue;
      }
      if !e.upToDate {
        changed := true;
        break;
      }
    }
  }

  /**
   * has_staged_changes, with its early exits in order: an unreadable index
   * reports no changes; conflicts report changes before any tree is
   * compared; a HEAD without a tree, or a cache-tree that cannot be
   * rebuilt, reports none; otherwise the rebuilt tree differs from HEAD's.
   */
  function HasStagedChanges(indexReadable: bool, hasConflicts: bool,
                            headTree: Option<nat>, cacheTree: Option<nat>): (staged: bool)
    ensures staged ==> indexReadable
    ensures indexReadable && hasConflicts ==> staged
    ensures !hasConflicts && (headTree.None? || cacheTree.None?) ==> !staged
    ensures indexReadable && !hasConflicts && headTree.Some? && cacheTree.Some? ==>
              (staged <==> cacheTree.value != headTree.value)
  {
    if !indexReadable then false
    else if hasConflicts then true
    else if headTree.None? then false
    else if cacheTree.None? then false
    else cacheTree.value != headTree.value
  }

  /**
   * The colour of the branch name in get_branch_name_and_color. The
   * unstaged, staged and untracked results are only consulted in the last
   * branch, where the source computes them. Gray marks a large repository
   * and cyan untracked files, and nothing else.
   */
  function BranchColor(indexLoaded: bool, state: GitStateInfo, largeRepo: bool,
                       unstaged: bool, staged: bool, untracked: bool): (c: string)
    ensures c == "31" || c == "32" || c == "33" || c == "36" || c == "37"
    ensures c == "37" <==> !(indexLoaded && state.hasConflicts) && !state.hasState && largeRepo
    ensures c == "36" <==> indexLoaded && !state.hasConflicts && !state.hasState && !largeRepo
                           && !unstaged && !staged && untracked
  {
    if indexLoaded && state.hasConflicts then ColorModified
    else if state.hasState then ColorStaged
    else if largeRepo then ColorLargeRepo
    else if !indexLoaded then ColorClean
    else if unstaged then ColorModified
    else if staged then ColorStaged
    else if untracked then ColorUntracked
    else ColorClean
  }

  /**
   * The worktree results decide nothing unless the index is loaded and
   * shows no conflicts, no operation is in progress and the repository is
   * small: any two sets of them give the same colour.
   */
  lemma WorktreeFlagsOnlyWhenQuiet(indexLoaded: bool, state: GitStateInfo, largeRepo: bool,
                                   unstaged: bool, staged: bool, untracked: bool,
                                   unstaged': bool, staged': bool, untracked': bool)
    requires !(indexLoaded && !state.hasConflicts && !state.hasState && !largeRepo)
    ensures BranchColor(indexLoaded, state, largeRepo, unstaged, staged, untracked)
            == BranchColor(indexLoaded, state, largeRepo, unstaged', staged', untracked')
  {
  }

  /**
   * Without an operation in progress, a large repository is gray whatever
   * its index and worktree.
   */
  lemma LargeRepoShowsGray(indexLoaded: bool, state: GitStateInfo,
                           unstaged: bool, staged: bool, untracked: bool)
    requires !state.hasState && !state.hasConflicts
    ensures BranchColor(indexLoaded, state, true, unstaged, staged, untracked) == "37"
  {
  }

  /**
   * Without an operation in progress, a small repository whose index did
   * not load is green, treated as clean.
   */
  lemma UnloadedIndexShowsGreen(state: GitStateInfo, unstaged: bool, staged: bool, untracked: bool)
    requires !state.hasState
    ensures BranchColor(false, state, false, unstaged, staged, untracked) == "32"
  {
  }

  /**
   * With the index loaded, no operation and a small repository, the
   * worktree decides: unstaged changes red, else staged changes yellow,
   * else untracked files cyan, else clean green.
   */
  lemma WorktreeColors(state: GitStateInfo, unstaged: bool, staged: bool, untracked: bool)
    requires !state.hasState && !state.hasConflicts
    ensures unstaged ==> BranchColor(true, state, false, unstaged, staged, untracked) == "31"
    ensures !unstaged && staged ==> BranchColor(true, state, false, unstaged, staged, untracked) == "33"
    ensures !unstaged && !staged && untracked ==>
              BranchColor(true, state, false, unstaged, staged, untracked) == "36"
    ensures !unstaged && !staged && !untracked ==>
              BranchColor(true, state, false, unstaged, staged, untracked) == "32"
  {
  }

  /**
   * In a large repository without a marker file the index is never loaded
   * and no state is found, so the branch is gray.
   */
  lemma QuietLargeRepoShowsGray(files: set<string>, indexReadable: bool, index: seq<IndexEntry>,
                                unstaged: bool, staged: bool, untracked: bool)
    requires !AnyMarker(files)
    ensures var loaded := IndexLoaded(true, AnyMarker(files), indexReadable);
            BranchColor(loaded, ExpectedState(files, loaded && Unmerged(index)), true,
                        unstaged, staged, untracked) == "37"
  {
    ExpectedStateShape(files, false);
  }

  /**
   * A loaded index with conflicts under a marker makes the branch red, in a
   * large repository too: the index is loaded there while a marker exists,
   * and conflicts outrank every other rung.
   */
  lemma ConflictsShowRed(largeRepo: bool, files: set<string>, indexReadable: bool,
                         index: seq<IndexEntry>, unstaged: bool, staged: bool, untracked: bool)
    requires AnyMarker(files) && indexReadable && Unmerged(index)
    ensures var loaded := IndexLoaded(largeRepo, AnyMarker(files), indexReadable);
            BranchColor(loaded, ExpectedState(files, loaded && Unmerged(index)), largeRepo,
                        unstaged, staged, untracked) == "31"
  {
    ExpectedStateShape(files, true);
  }

  /**
   * With a marker present and no conflicts the branch is yellow, whatever
   * the worktree, the size of the repository or the index holds.
   */
  lemma OperationShowsYellow(largeRepo: bool, files: set<string>, indexReadable: bool,
                             index: seq<IndexEntry>, unstaged: bool, staged: bool, untracked: bool)
    requires AnyMarker(files) && !(indexReadable && Unmerged(index))
    ensures var loaded := IndexLoaded(largeRepo, AnyMarker(files), indexReadable);
            BranchColor(loaded, ExpectedState(files, loaded && Unmerged(index)), largeRepo,
                        unstaged, staged, untracked) == "33"
  {
    ExpectedStateShape(files, false);
  }
}

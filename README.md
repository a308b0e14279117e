# git-prompt core, modelled in Dafny

git-prompt is a small C program built against libgit. It prints a shell prompt
fragment: the branch name, coloured by the state of the worktree, followed by
indicators for the following:

- an operation in progress (merge, rebase, cherry-pick, revert), and conflicts;
- how far HEAD has diverged from the remote's default branch and from the
  upstream branch.

The divergence comes from an interleaved, bidirectional breadth-first search
over the commit graph with a per-side step budget. Its result is cached in a
one-line file keyed by the commit ids involved.

Two Python build tools come with it:

- `tools/apply-patches.py` comments out or blanks lines of git's sources that
  match configured patterns, and stops at the first pattern that does not
  match;
- `tools/analyze-vtable-impact.py` finds `&function` references in the sources
  and the sizes of symbols reported by `nm`. It computes the call-graph closure
  of each function pointer. It then ranks the pointers by the bytes they keep
  alive.

The project has one module per concern:

- `divergence.dfy` (`Divergence`):
  - `bfs_find_divergence` as imperative code, including `get_or_create_entry`;
  - the ring-buffer queue of each side as the class `BfsQueue`, over an
    `array`;
  - the shared distance map as a `map` that the methods thread through;
  - the same search on values (`Search`, `DivergenceOf`), one function per
    step of the loop. Every method is proved to follow it step for step.
- `cache.dfy` (`DivergenceCache`): the cache key, the exact text of the cache
  line, `strbuf_getline`, the `sscanf("%d,%d,%d,%d")` parse, and the
  write threshold.
- `gitstate.dfy` (`GitState`):
  - the operation markers and their scans;
  - the index scans;
  - the early exits of the staged-changes check;
  - the branch-colour ladder;
  - the large-repository test and the index-load decision of `main`.
- `tracking.dfy` (`Tracking`): the decision part of `get_tracking_indicators`
  (cache, then searches, then what is shown).
- `patches.dfy` (`ApplyPatches`):
  - `find_and_patch_line` rewriting an `array<string>` in place;
  - `apply_patches` over a file system given as a map from path to text.
- `vtable.dfy` (`VtableImpact`):
  - the reachability walk;
  - the parsing of `nm`, `grep` and `objdump` output lines;
  - the callee filter;
  - the impact filter and its stable sort.
- `pytext.dfy` (`PyText`): Python's `str.isspace`, shared by the two tools.
- `wrappers.dfy` (`Wrappers`): `Option`.

## Model

| member | source | states |
|---|---|---|
| `Divergence.GetOrCreateEntry` | git-prompt.c:587-601 | afterwards the map has an entry for the id and no other key is added; the flag is set exactly when the entry is new; existing entries are untouched; a new entry is unreached (-1) from both sides |
| `Divergence.BfsQueue.constructor` | git-prompt.c:631-633 | an empty ring buffer of 2048 slots holding the full budget |
| `Divergence.BfsQueue.Enqueue` | git-prompt.c:770-777 | writes at tail and advances it modulo 2048; the node is added at the back of the contents; the ring-buffer invariant and the budget are kept |
| `Divergence.BfsQueue.Dequeue` | git-prompt.c:691-694 | returns the oldest node and drops it from the contents (first in, first out), the head advancing modulo 2048; the invariant and the budget are kept |
| `Divergence.BfsQueue.SpendStep` | git-prompt.c:778 | the budget drops by one; the contents are unchanged |
| `Divergence.ParentStepSpec` | git-prompt.c:720-782 | one parent: one already reached on this side changes nothing; otherwise its distance on this side is set and the other kept; Met exactly when the other side had reached it; Overflow exactly when not met, budget left and the buffer full; else queued at the back paying a step, or, with no budget, only recorded |
| `Divergence.ParentsStepShape` | git-prompt.c:715-784 | the parent loop never idles, keeps queued nodes plus budget constant, only appends to the queue, appends only the node's parents at the given distance, and gives up only on a full buffer |
| `Divergence.TurnShape` | git-prompt.c:682-785 | a turn idles exactly when the queue is empty or the budget spent, and then changes nothing; otherwise the oldest node leaves, only its parents at its distance plus one are added, and queued nodes plus budget drop by one |
| `Divergence.SearchStops` | git-prompt.c:677-792 | an unanswered search is (-1,-1) and stopped because an enqueue met a full buffer with budget left, or because a whole round found both sides with empty queue or spent budget |
| `Divergence.ParentsMeetTarget` | git-prompt.c:715-760 | on the start side, a parent list that reaches the target before the buffer fills meets at the target, at the given distance and the target's own |
| `Divergence.ParentIsOneAhead` | git-prompt.c:677-792 | when the target is a parent of start (with fewer than 2048 parents) and the budget is at least one, the answer is one ahead, none behind, one visit |
| `Divergence.PushParent` | git-prompt.c:767-779 | gives up (Overflow) exactly when the buffer already holds 2047 nodes, and then changes nothing; otherwise the parent is appended to the contents at its distance, one step is spent and it joins the enqueued commits; the side's invariant holds either way |
| `Divergence.VisitParent` | git-prompt.c:720-782 | the outcome, the new distance map and the new queue are one parent step of the reference search; the side's invariant and sound distances are kept; only this side's unset distances are written; Met is a commit with both distances set |
| `Divergence.VisitParents` | git-prompt.c:715-784 | the outcome, map and queue are those of the parent loop of the reference search over the node's parents at its distance plus one; never Idle; invariants and sound distances are kept |
| `Divergence.ExpandSide` | git-prompt.c:682-785 | the outcome, map and queue are one turn of the reference search: Idle exactly when the queue is empty or the budget spent, changing nothing; otherwise the oldest node is dequeued and expanded; invariants and sound distances are kept |
| `Divergence.ExpandNode` | git-prompt.c:697-785 | a dequeued node is the meeting point when both distances are set, otherwise its parents are visited at its distance plus one, as in the reference expansion; never Idle; invariants and sound distances are kept |
| `Divergence.TakeTurn` | git-prompt.c:682-785 | the moving side follows the reference turn; the other side's queue and budget are unchanged and its invariant holds over the new map |
| `Divergence.PlaySide` | git-prompt.c:682-785 | a turn of side 0 or 1 follows the reference turn, leaves the other side's queue and budget as they were, keeps both invariants, and counts one dequeue exactly when the side was not idle |
| `Divergence.PlayTurn` | git-prompt.c:682-785 | a turn advances the reference search by one step: a meeting or a full buffer is where the search ends, any other outcome leaves the rest of the search from the next side; one visit is counted exactly when the side moved |
| `Divergence.PlayRound` | git-prompt.c:679-786 | a round of both sides either ends the reference search, with its answer, stop reason and state, or reaches the end of the round with the same search still to come |
| `Divergence.SeedRoot` | git-prompt.c:659-674 | the empty queue then holds exactly the root at distance 0 with the budget unspent, and the root's distance is 0 on its side and -1 on the other |
| `Divergence.SeedRoots` | git-prompt.c:654-675 | each queue holds exactly its root at distance 0 with the full budget; the map is exactly start at (0,-1) and target at (-1,0); the invariants and sound distances hold |
| `Divergence.Interleave` | git-prompt.c:677-786 | the result, why it stopped, the final map and both final queues are exactly those of the reference search from the seeded state; a meeting gives two non-negative distances; invariants and sound distances are kept; the visit count is the number of dequeues |
| `Divergence.Conclude` | git-prompt.c:788-792 | from the state the search stops in: the distances returned are path lengths to a common commit; each side enqueued at most 1 + budget distinct commits, its root first and all ancestors of its root; the visit count is at most twice the budget |
| `Divergence.FindDivergence` | git-prompt.c:622-811 | equals the reference answer DivergenceOf; start == target gives {0,0,0}; ahead and behind are both -1 or both non-negative, and then some commit lies `ahead` links from start and `behind` from target; a -1 answer means a buffer was full with budget left or both sides stalled; a target that is a parent of start (with fewer than 2048 parents) gives {1,0,1}; 0 <= commits_visited <= 2*max_steps |
| `DivergenceCache.BuildCacheKey` | git-prompt.c:981-994 | the key `head,remote,tracking` is made only of hex digits and commas |
| `DivergenceCache.BuildCacheKeyInjective` | git-prompt.c:981-994 | equal keys mean the same head, the same remote (present or absent) and the same tracking ref |
| `DivergenceCache.FirstLine` | git-prompt.c:1018 | the first line is a newline-free prefix of the file; there is none exactly when the file is empty |
| `DivergenceCache.ReadCache` | git-prompt.c:1003-1055 | a hit exactly when the file exists, its first line is the key followed by '=' and four comma-separated `%d` values follow; the hit carries those four values in order; anything else is the miss value (not cached, four -1) |
| `DivergenceCache.ScanDecimal` | git-prompt.c:1028 | one `%d` conversion reads back an integer printed by `%d`, negative ones included, and leaves the rest of the text |
| `DivergenceCache.ScanJoined` | git-prompt.c:1028 | `%d,%d,...` reads back a comma-separated list of printed integers |
| `DivergenceCache.FormattedFirstLine` | git-prompt.c:1094-1095 | the first line of a written cache file is `key=ma,mb,ua,ub` without its newline |
| `DivergenceCache.ReadFormatted` | git-prompt.c:1023-1036 | round trip: a line written under a key reads back under that key as a hit with the same four values |
| `DivergenceCache.WriteThenRead` | git-prompt.c:1064-1110 | below a cost of 10 visits the file is left as it was; otherwise, when writable, it reads back as a hit with the data written |
| `DivergenceCache.KeyMatchIsKey` | git-prompt.c:1023 | keys hold no '=', so the only key a written line matches is the key it was written with |
| `DivergenceCache.OtherKeyMisses` | git-prompt.c:1023-1026 | a line written under one key is a miss under any other key |
| `GitState.IsLargeRepo` | git-prompt.c:231-245 | large exactly when the index can be stat'ed and its size is strictly above the limit; an index of exactly the limit is small |
| `GitState.HasUnmergedFiles` | git-prompt.c:267-279 | true exactly when some index entry has a non-zero stage |
| `GitState.CheckGitStateFile` | git-prompt.c:428-452 | found exactly when the marker file exists; then the state is that operation, in conflict exactly when the index is loaded and unmerged, with colour 31 in conflict and 36 otherwise; otherwise the state is unchanged |
| `GitState.GetGitState` | git-prompt.c:500-533 | the state of the first present marker in the order rebase-merge, rebase-apply, MERGE_HEAD, CHERRY_PICK_HEAD, REVERT_HEAD; no state when none is present |
| `GitState.HasGitStateFiles` | git-prompt.c:464-487 | true exactly when one of the same five marker files exists |
| `GitState.FirstMarkerIsFirst` | git-prompt.c:506-530 | a present marker with every earlier marker absent is the one chosen |
| `GitState.FirstMarkerFound` | git-prompt.c:506-530 | a marker is chosen exactly when some marker file is present, and the chosen one is present |
| `GitState.ExpectedStateShape` | git-prompt.c:500-533 | an operation is reported exactly when a marker exists; it is in conflict exactly when a marker exists and the index shows conflicts; its label and colour are those of the first present marker |
| `GitState.IndexLoaded` | git-prompt.c:1484-1501 | a small repository loads the index whenever it is readable; a large one only while a marker file exists; nothing unreadable is ever loaded |
| `GitState.HasWorktreeChanges` | git-prompt.c:379-418 | true exactly when the index is readable and some entry is merged, is not a submodule and is not up to date |
| `GitState.HasStagedChanges` | git-prompt.c:296-365 | an unreadable index gives no changes; conflicts give changes before any tree is compared; a missing HEAD tree or a failed cache-tree rebuild gives none; otherwise changes exactly when the two trees differ |
| `GitState.BranchColor` | git-prompt.c:873-959 | the colour is always one of 31, 32, 33, 36, 37; gray (37) exactly for a large repository with no operation and no conflicts shown; cyan (36) exactly for untracked files alone in a small repository with a loaded index, no operation and no conflicts |
| `GitState.WorktreeFlagsOnlyWhenQuiet` | git-prompt.c:873-959 | unless the index is loaded without conflicts, no operation is in progress and the repository is small, the unstaged, staged and untracked results never change the colour |
| `GitState.LargeRepoShowsGray` | git-prompt.c:886-891 | with no operation and no conflicts a large repository is gray, whatever its index and worktree |
| `GitState.UnloadedIndexShowsGreen` | git-prompt.c:892-894 | with no operation, a small repository whose index did not load is green |
| `GitState.WorktreeColors` | git-prompt.c:911-956 | with the index loaded, no operation and a small repository: unstaged red, else staged yellow, else untracked cyan, else green |
| `GitState.QuietLargeRepoShowsGray` | git-prompt.c:886-891 | in a large repository without a marker file the index is not loaded, no state is found and the branch is gray |
| `GitState.ConflictsShowRed` | git-prompt.c:875 | conflicts under a marker with a readable index make the branch red, in a large repository too |
| `GitState.OperationShowsYellow` | git-prompt.c:882 | a marker without conflicts makes the branch yellow, whatever the worktree or the repository size |
| `Tracking.TrackingKey` | git-prompt.c:1250-1251 | the key of the call is a cache key: hex digits and commas |
| `Tracking.GetTrackingIndicators` | git-prompt.c:1125-1367 | detached shows nothing and touches no cache; a cache hit shows the cached values and writes nothing; a miss gives main's counts and cost from the reference search when its commit resolves (else -1 and no cost), and the upstream's likewise when it exists and is not main's commit; the file is written exactly when the total cost is at least 10 and it is writable, and then reads back as a hit; main's indicator is shown before the upstream's |
| `Tracking.ClassifyRecoversCounts` | git-prompt.c:1318-1338 | a known pair is shown without loss; only a pair with a negative value is "unknown" |
| `Tracking.RenderColors` | git-prompt.c:1318-1364 | both counts positive: red; ahead only: blue; behind only: yellow; both zero: nothing; unknown: a red double arrow |
| `Tracking.SearchIndicator` | git-prompt.c:1318-1338 | for a search result the indicator is unknown exactly when the search gave up, and otherwise carries the distances to the meeting point |
| `Tracking.UnresolvedMainShowsUnknown` | git-prompt.c:1318-1338 | a default branch whose commit does not resolve is shown as the double arrow, since its counts keep the miss value -1 |
| `Tracking.UpstreamIsMainShowsOnce` | git-prompt.c:1342 | an upstream that is main's commit is never shown separately |
| `ApplyPatches.LeadingWs` | tools/apply-patches.py:45 | the length of the leading run of `str.isspace` characters |
| `ApplyPatches.FindAndPatchLine` | tools/apply-patches.py:27-54 | the array afterwards and the result pair are those of `PatchLines` on the old contents |
| `ApplyPatches.FirstMatchFromIsLowest` | tools/apply-patches.py:41-42 | the line found is the lowest matching index, and none is found only when no line matches |
| `ApplyPatches.PatchLinesSpec` | tools/apply-patches.py:27-54 | success exactly when some line matches and the action is known; then the 1-based number is that of the first matching line, only that line is rewritten, and the count of lines is kept; on failure (-1) nothing changes |
| `ApplyPatches.RemoveBlanks` | tools/apply-patches.py:48-49 | `remove` blanks the first matching line and keeps every other line |
| `ApplyPatches.CommentKeepsCode` | tools/apply-patches.py:43-47 | a commented line starts with `//` once stripped; it keeps the stripped code behind `// `, or unchanged if it was already a comment; its indentation is the same width as spaces, one wider for an old comment |
| `ApplyPatches.CommentAgain` | tools/apply-patches.py:46-47 | a line already starting with `//` gets one more space of indentation and no new `//` |
| `ApplyPatches.CommentFresh` | tools/apply-patches.py:46-47 | any other line gets `// ` before its code, after the same indentation in spaces |
| `ApplyPatches.SplitConcat` | tools/apply-patches.py:75-76 | `readlines` then `writelines` gives the text back |
| `ApplyPatches.PatchFile` | tools/apply-patches.py:82-96 | the patches of one file applied in order to the list of lines; the file fails at the first pattern that fails |
| `ApplyPatches.PatchAbortSticks` | tools/apply-patches.py:92-96 | once a patch of a file fails, the later patches cannot rescue it |
| `ApplyPatches.ApplyFileTo` | tools/apply-patches.py:65-104 | one configuration entry: -1 for a missing file or a failed pattern; otherwise the file is rewritten when at least one patch applied |
| `ApplyPatches.ApplyPatchesTo` | tools/apply-patches.py:56-106 | the count and the files afterwards are those of processing the entries in order, stopping at the first failure with the files written so far kept |
| `ApplyPatches.AbortSticks` | tools/apply-patches.py:73 | after a failure the later entries change neither the count nor the files |
| `ApplyPatches.ApplyAllCount` | tools/apply-patches.py:62-106 | the count is -1 or the total number of patch entries; no file is created or deleted; files the configuration does not name are untouched |
| `ApplyPatches.SuccessMeansAllFound` | tools/apply-patches.py:71-73 | a non-negative count means every configured file existed |
| `VtableImpact.CalculateReachableFrom` | tools/analyze-vtable-impact.py:114-132 | the result holds exactly the functions reachable from the root through call-graph edges, the root included; it is closed under callees |
| `VtableImpact.ClosedHoldsReachable` | tools/analyze-vtable-impact.py:114-132 | a set that holds the root and is closed under callees holds everything reachable |
| `VtableImpact.ClosedIsReachableSet` | tools/analyze-vtable-impact.py:114-132 | a closed set of reachable functions is exactly the reachable set |
| `VtableImpact.ReachableInUniverse` | tools/analyze-vtable-impact.py:122-130 | what is reachable is the root or a callee named in the graph, which bounds the walk |
| `VtableImpact.EnqueueCallees` | tools/analyze-vtable-impact.py:128-130 | every callee not yet visited is queued; the queue only grows and holds only reachable functions |
| `VtableImpact.VisitNext` | tools/analyze-vtable-impact.py:123-130 | one pop keeps the walk's invariant; it either shrinks the queue or visits one more function |
| `VtableImpact.SplitWs` | tools/analyze-vtable-impact.py:63 | `str.split()` gives non-empty fields without whitespace |
| `VtableImpact.SplitJoin` | tools/analyze-vtable-impact.py:63 | fields joined by single spaces split back into the same fields |
| `VtableImpact.GetAllSymbols` | tools/analyze-vtable-impact.py:56-80 | the table is that of the `nm` lines taken in order, a later line overwriting an earlier name |
| `VtableImpact.NmSizedLine` | tools/analyze-vtable-impact.py:68-72 | `address size T name` gives the name with the size parsed as hex |
| `VtableImpact.ParseHexDigits` | tools/analyze-vtable-impact.py:71 | plain hex digits parse to their value |
| `VtableImpact.NmUnsizedLine` | tools/analyze-vtable-impact.py:76-78 | `address T name` gives the name with size 1 |
| `VtableImpact.NmDataLine` | tools/analyze-vtable-impact.py:68-78 | a symbol whose type is not T or t is ignored, in either line shape |
| `VtableImpact.SymbolsOfNames` | tools/analyze-vtable-impact.py:61-78 | a name is in the table exactly when some line gives it |
| `VtableImpact.SymbolsOfLast` | tools/analyze-vtable-impact.py:72 | a name's size is the one given by the last line that names it |
| `VtableImpact.IndexOf` | tools/analyze-vtable-impact.py:40 | the position of the first occurrence, or none when there is none |
| `VtableImpact.GrepLineSplit` | tools/analyze-vtable-impact.py:40-44 | `split(':', 2)` of `file:line:content` gives the three parts, content colons included |
| `VtableImpact.AmpNames` | tools/analyze-vtable-impact.py:47 | every name found has at least two identifier characters and starts with a letter or underscore |
| `VtableImpact.AmpNamesJoin` | tools/analyze-vtable-impact.py:47-48 | the names of `&a ... &b` separated by non-identifier text are found in order |
| `VtableImpact.AmpHead` | tools/analyze-vtable-impact.py:47 | a match takes the whole identifier run after `&`, and the scan resumes after it |
| `VtableImpact.ScanLine` | tools/analyze-vtable-impact.py:35-52 | one grep line adds its non-all-caps names with the file and line number, or fails when the line number is not an integer |
| `VtableImpact.FindFunctionPointers` | tools/analyze-vtable-impact.py:21-54 | the reference table of the grep lines in order, or failure (the ValueError) when a line number does not convert |
| `VtableImpact.PointerRefsSticks` | tools/analyze-vtable-impact.py:52 | a failed conversion aborts the whole scan |
| `VtableImpact.AddRefLookup` | tools/analyze-vtable-impact.py:52 | `append` adds the reference at the end of that name's list and leaves other names alone |
| `VtableImpact.AddRefNames` | tools/analyze-vtable-impact.py:52 | the names of the table gain the name appended to |
| `VtableImpact.AddRefWellFormed` | tools/analyze-vtable-impact.py:27 | the table keeps one entry per name, each with at least one reference |
| `VtableImpact.PointerRefsOk` | tools/analyze-vtable-impact.py:47-52 | every name in the table is a pointer name that is not all caps, with its own non-empty list |
| `VtableImpact.GetCallsFromFunction` | tools/analyze-vtable-impact.py:82-97 | a callee is kept exactly when some line's call target names it, it is a known symbol, and it is not the function itself |
| `VtableImpact.CallLine` | tools/analyze-vtable-impact.py:92 | `call` or `callq`, an address and `<name>` or `<name@plt>` give the name |
| `VtableImpact.OperandPart` | tools/analyze-vtable-impact.py:92 | whitespace, lower-case hex and whitespace before `<` are required, and the target is read after them |
| `VtableImpact.TargetPart` | tools/analyze-vtable-impact.py:92 | the target stops at `@` or `>` |
| `VtableImpact.SumSizes` | tools/analyze-vtable-impact.py:174 | the sum of sizes over the reachable set, 0 for names without a symbol |
| `VtableImpact.SortByBytesSorted` | tools/analyze-vtable-impact.py:183 | the ranking is non-increasing in bytes |
| `VtableImpact.SortByBytesPerm` | tools/analyze-vtable-impact.py:183 | the ranking is a permutation of the list |
| `VtableImpact.SortByBytesStable` | tools/analyze-vtable-impact.py:183 | entries with equal bytes keep their original order (Python's sort is stable under `reverse=True`) |
| `VtableImpact.SortByBytesSpec` | tools/analyze-vtable-impact.py:183 | the three properties together |
| `VtableImpact.InsertSorted` | tools/analyze-vtable-impact.py:183 | inserting after the entries of at least the same bytes keeps the order |
| `VtableImpact.InsertWithBytes` | tools/analyze-vtable-impact.py:183 | the inserted entry comes after the entries with the same bytes |
| `VtableImpact.AnalyzeImpact` | tools/analyze-vtable-impact.py:167-183 | the impacts list is the stable ranking of one entry per scored pointer, in the order of the reference table |
| `VtableImpact.UnrankedSpec` | tools/analyze-vtable-impact.py:169-180 | an entry is listed exactly for a pointer in the binary that main does not reach; it carries the size of its reachable set, the bytes of that set and its references |
| `VtableImpact.RankingSpec` | tools/analyze-vtable-impact.py:167-183 | the ranking is sorted, a permutation of the scored entries, and each entry reaches at least itself and is unreachable from main |

## Left out

- File, process and terminal I/O are parameters: the set of marker files present, the index entries after `refresh_index`, the cache file's contents and whether it can be written, the configured files' texts, and the lines printed by `grep`, `nm` and `objdump`. Nothing here performs I/O.
- Printing is left out: the prompt output (`color_printf` and SGR colour sequences), `get_misc_indicators`, the tools' progress messages and the top-30 and top-5 tables.
- `get_branch_name_and_color`'s branch and tag naming is left out; only its colour decision is modelled. The `fill_directory` untracked scan is a boolean input.
- The object store, `oidmap` internals and commit parsing are left out. A commit that cannot be looked up or parsed is absent from the graph and so has no parents. Object ids are opaque naturals; their hex form is a function parameter.
- `repo_read_index`, `cache_tree_update` and the HEAD tree lookup are their outcomes, given as inputs.
- Divergence.FindDivergence: the distances are proved to be path lengths, not shortest ones. Breadth-first minimality is not claimed. Completeness is proved only for a target that is a direct parent of start; beyond that the answer is characterised by the reference search DivergenceOf.
- The `& (BFS_QUEUE_SIZE - 1)` mask is written as `% 2048`, which agrees on the non-negative indices used. Overflow of `int` counters and of `%d` values is not modelled.
- The atomic write through a temporary file and `rename` is one step: the file either becomes the formatted line or stays as it was. A line containing a NUL byte is not modelled.
- `sscanf`'s `%d` on values beyond `int` range (undefined behaviour in C) is not modelled.
- `load_patches` (YAML parsing) and `main` of both tools are left out: the configuration is a list of entries, each with a file and its patches. Descriptions and reasons are only printed, so they are dropped.
- Text-mode newline translation is left out; files are read as text with '\n' line ends.
- Python's `int()` is modelled as an optional sign followed by ASCII digits, and `int(s, 16)` as an optional sign, an optional `0x` and hex digits. Surrounding whitespace, underscores and non-ASCII digits are not accepted by the model.
- `Path.relative_to` is left out; a reference keeps the path exactly as grep printed it.
- `build_call_graph` and the call graph's construction are left out: the graph is an input. So is the `objdump` time-out and failure path, which yields an empty set.
- VtableImpact.AnalyzeImpact works on the parsed inputs; it does not re-run `find_function_pointers` or `get_all_symbols`.
- `get_tracking_indicators` takes the remote's default branch (`mainBranch`, `mainOid`) and the upstream (`upstreamOid`) as resolved inputs, so remote and ref resolution is left out.
- The `--no-color`, `--debug`, `--local` and `--max-traversal` options are left out; the limits are parameters.

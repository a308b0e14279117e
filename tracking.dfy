/**
 * The tracking indicators of get_tracking_indicators in git-prompt.c: the
 * divergence of HEAD from the remote's default branch ("main") and from the
 * upstream branch, read from the divergence cache or computed by the
 * bidirectional search and written back, then shown as arrows.
 */
module Tracking {
  import opened Wrappers
  import opened DivergenceCache
  import opened Divergence

  const ColorAhead := "34"
  const ColorBehind := "33"
  const ColorDiverged := "31"

  /** What one pair of counts shows. */
  datatype Indicator = Unknown | InSync | Ahead(ahead: nat) | Behind(behind: nat)
                     | Diverged(ahead: nat, behind: nat)

  /** One coloured piece of the indicator text. */
  datatype Shown = Shown(text: string, color: string)

  /** The decision for one (ahead, behind) pair; -1 means the search gave up. */
  function Classify(ahead: int, behind: int): Indicator
  {
    if ahead >= 0 && behind >= 0 then
      if ahead > 0 && behind > 0 then Diverged(ahead, behind)
      else if ahead > 0 then Ahead(ahead)
      else if behind > 0 then Behind(behind)
      else InSync
    else Unknown
  }

  /** The counts an indicator stands for: (-1, -1) when unknown. */
  function CountsOf(ind: Indicator): (int, int)
  {
    match ind
    case Unknown => (-1 as int, -1 as int)
    case InSync => (0 as int, 0 as int)
    case Ahead(a) => (a as int, 0 as int)
    case Behind(b) => (0 as int, b as int)
    case Diverged(a, b) => (a as int, b as int)
  }

  /** The text shown, wrapped in parentheses for the upstream; nothing in sync. */
  function Render(ind: Indicator, upstream: bool): seq<Shown>
  {
    var wrap := (t: string) => if upstream then "(" + t + ")" else t;
    match ind
    case InSync => []
    case Unknown => [Shown(wrap("\U{2195}"), ColorDiverged)]
    case Ahead(a) => [Shown(wrap("\U{2191}" + Decimal(a)), ColorAhead)]
    case Behind(b) => [Shown(wrap("\U{2193}" + Decimal(b)), ColorBehind)]
    case Diverged(a, b) => [Shown(wrap("\U{2191}" + Decimal(a) + "\U{2193}" + Decimal(b)), ColorDiverged)]
  }

  /** The upstream resolves to the same commit as main. */
  predicate UpstreamIsMain(mainOid: Option<CommitId>, upstreamOid: Option<CommitId>)
  {
    upstreamOid.Some? && mainOid.Some? && upstreamOid.value == mainOid.value
  }

  /** The upstream is searched and shown only when it exists and is not main. */
  predicate UpstreamShown(mainOid: Option<CommitId>, upstreamOid: Option<CommitId>)
  {
    upstreamOid.Some? && !UpstreamIsMain(mainOid, upstreamOid)
  }

  /**
   * The indicators shown for the divergence data: main's first, when a
   * default branch is configured, then the upstream's in parentheses.
   */
  function Display(mainBranch: bool, upstreamShown: bool, data: DivergenceData): seq<Shown>
  {
    (if mainBranch then Render(Classify(data.mainAhead, data.mainBehind), false) else [])
    + (if upstreamShown then Render(Classify(data.upstreamAhead, data.upstreamBehind), true) else [])
  }

  /** The cache key of the call: a missing main or upstream leaves its field empty. */
  function TrackingKey(head: CommitId, mainOid: Option<CommitId>, upstreamOid: Option<CommitId>,
                       hexOf: CommitId -> HexId): (key: string)
    ensures IsCacheKey(key)
  {
    BuildCacheKey(hexOf(head),
                  if mainOid.Some? then Some(hexOf(mainOid.value)) else None,
                  if upstreamOid.Some? then Some(hexOf(upstreamOid.value)) else None)
  }

  /** The search left a pair unset, or found a merge base at those distances. */
  ghost predicate SearchOutcome(graph: CommitGraph, head: CommitId, other: CommitId, ahead: int, behind: int)
  {
    (ahead == -1 && behind == -1)
    || (ahead >= 0 && behind >= 0 && exists c :: HasPath(graph, head, c, ahead) && HasPath(graph, other, c, behind))
  }

  /**
   * get_tracking_indicators. A detached HEAD shows nothing and touches no
   * cache. Otherwise the cache is read under the key of (HEAD, main,
   * upstream); on a hit its values are shown. On a miss main is searched
   * when its commit resolves and the upstream when it exists and differs
   * from main; pairs not searched stay -1 and cost nothing. The result is
   * written to the cache exactly when the two searches together visited at
   * least MinCachedCost commits and the file is writable, and then an
   * identical call afterwards hits with the same values.
   * `mainBranch` says whether the remote's HEAD names a default branch and
   * `mainOid` whether that branch resolves to a commit.
   */
  method GetTrackingIndicators(graph: CommitGraph, head: CommitId, detached: bool,
                               mainBranch: bool, mainOid: Option<CommitId>, upstreamOid: Option<CommitId>,
                               hexOf: CommitId -> HexId, maxTraversal: int,
                               cacheFile: Option<string>, writable: bool)
    returns (shown: seq<Shown>, data: DivergenceData, file': Option<string>,
             ghost mainCost: int, ghost upstreamCost: int)
    requires mainOid.Some? ==> mainBranch
    ensures detached ==> shown == [] && file' == cacheFile
    ensures !detached ==> shown == Display(mainBranch, UpstreamShown(mainOid, upstreamOid), data)
    ensures !detached && ReadCache(cacheFile, TrackingKey(head, mainOid, upstreamOid, hexOf)).cached ==>
              data == ReadCache(cacheFile, TrackingKey(head, mainOid, upstreamOid, hexOf)) && file' == cacheFile
    ensures !detached && !ReadCache(cacheFile, TrackingKey(head, mainOid, upstreamOid, hexOf)).cached ==>
              && !data.cached
              && (mainOid.None? ==> data.mainAhead == -1 && data.mainBehind == -1)
              && (mainOid.Some? ==> SearchOutcome(graph, head, mainOid.value, data.mainAhead, data.mainBehind))
              && (!UpstreamShown(mainOid, upstreamOid) ==> data.upstreamAhead == -1 && data.upstreamBehind == -1)
              && (UpstreamShown(mainOid, upstreamOid) ==>
                    SearchOutcome(graph, head, upstreamOid.value, data.upstreamAhead, data.upstreamBehind))
              && (mainOid.None? ==> mainCost == 0)
              && (mainOid.Some? ==>
                    DivergenceOf(graph, head, mainOid.value, maxTraversal)
                    == DivergenceResult(data.mainAhead, data.mainBehind, mainCost))
              && (!UpstreamShown(mainOid, upstreamOid) ==> upstreamCost == 0)
              && (UpstreamShown(mainOid, upstreamOid) ==>
                    DivergenceOf(graph, head, upstreamOid.value, maxTraversal)
                    == DivergenceResult(data.upstreamAhead, data.upstreamBehind, upstreamCost))
              && file' == WriteCache(cacheFile, TrackingKey(head, mainOid, upstreamOid, hexOf), data,
                                     mainCost + upstreamCost, writable)
              && (mainCost + upstreamCost < MinCachedCost || !writable ==> file' == cacheFile)
              && (mainCost + upstreamCost >= MinCachedCost && writable ==>
                    ReadCache(file', TrackingKey(head, mainOid, upstreamOid, hexOf)) == data.(cached := true))
  {
    data := Miss;
    file' := cacheFile;
    mainCost, upstreamCost := 0, 0;
    if detached {
      return [], data, file', mainCost, upstreamCost;
    }
    var key := TrackingKey(head, mainOid, upstreamOid, hexOf);
    data := ReadCache(cacheFile, key);
    if !data.cached {
      var mainVisited := 0;
      var upstreamVisited := 0;
      if mainOid.Some? {
        var r, _, _ := FindDivergence(graph, head, mainOid.value, maxTraversal);
        data := data.(mainAhead := r.ahead, mainBehind := r.behind);
        mainVisited := r.commitsVisited;
      }
      if UpstreamShown(mainOid, upstreamOid) {
        var r, _, _ := FindDivergence(graph, head, upstreamOid.value, maxTraversal);
        data := data.(upstreamAhead := r.ahead, upstreamBehind := r.behind);
        upstreamVisited := r.commitsVisited;
      }
      mainCost, upstreamCost := mainVisited, upstreamVisited;
      file' := WriteCache(cacheFile, key, data, mainVisited + upstreamVisited, writable);
      WriteThenRead(cacheFile, key, data, mainVisited + upstreamVisited, writable);
    }
    shown := Display(mainBranch, UpstreamShown(mainOid, upstreamOid), data);
  }

  // ----- properties -----

  /**
   * A known pair is shown without loss: the indicator gives back the counts,
   * and only an unknown pair classifies as Unknown.
   */
  lemma ClassifyRecoversCounts(ahead: int, behind: int)
    ensures ahead >= 0 && behind >= 0 ==> CountsOf(Classify(ahead, behind)) == (ahead, behind)
    ensures Classify(ahead, behind) == Unknown <==> ahead < 0 || behind < 0
  {
  }

  /**
   * Which arrow is shown: both counts positive diverged in red, only ahead
   * in blue, only behind in yellow, neither nothing at all, and an unknown
   * pair a red double arrow.
   */
  lemma RenderColors(ahead: int, behind: int, upstream: bool)
    ensures var s := Render(Classify(ahead, behind), upstream);
            && (s == [] <==> ahead == 0 && behind == 0)
            && (ahead > 0 && behind > 0 ==> s[0].color == "31")
            && (ahead > 0 && behind == 0 ==> s[0].color == "34")
            && (ahead == 0 && behind > 0 ==> s[0].color == "33")
            && (ahead < 0 || behind < 0 ==> s[0].color == "31")
  {
  }

  /**
   * For an outcome of the search the indicator is Unknown exactly when the
   * search gave up, and otherwise carries the distances to the merge base.
   */
  lemma SearchIndicator(graph: CommitGraph, head: CommitId, other: CommitId, ahead: int, behind: int)
    requires SearchOutcome(graph, head, other, ahead, behind)
    ensures Classify(ahead, behind) == Unknown <==> ahead == -1
    ensures ahead != -1 ==> CountsOf(Classify(ahead, behind)) == (ahead, behind)
  {
    ClassifyRecoversCounts(ahead, behind);
  }

  /**
   * A default branch whose commit does not resolve is shown as "↕" after a
   * cache miss, as if the search had given up, since its counts keep the
   * miss value -1.
   */
  lemma UnresolvedMainShowsUnknown(upstreamShown: bool, data: DivergenceData)
    requires data.mainAhead == -1 && data.mainBehind == -1
    ensures Display(true, upstreamShown, data)[0] == Shown("\U{2195}", ColorDiverged)
  {
  }

  /**
   * An upstream that is main is never shown separately: at most main's
   * indicator appears, and without a default branch nothing does.
   */
  lemma UpstreamIsMainShowsOnce(mainBranch: bool, mainOid: Option<CommitId>, upstreamOid: Option<CommitId>,
                                data: DivergenceData)
    requires UpstreamIsMain(mainOid, upstreamOid)
    ensures Display(mainBranch, UpstreamShown(mainOid, upstreamOid), data)
            == Display(mainBranch, false, data)
    ensures |Display(mainBranch, UpstreamShown(mainOid, upstreamOid), data)| <= 1
    ensures !mainBranch ==> Display(mainBranch, UpstreamShown(mainOid, upstreamOid), data) == []
  {
  }
}

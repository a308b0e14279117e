/**
 * The interleaved bidirectional breadth-first search that finds where the
 * histories of two commits meet, and from that the ahead/behind pair shown
 * in the prompt (git-prompt.c, bfs_find_divergence and its helpers).
 *
 * Two searches run at once, one from `start` (side 0) and one from `target`
 * (side 1). Each side owns a fixed-size ring buffer and a step budget; a
 * shared map records, per commit, how far it is from each side, with -1 for
 * "not reached yet".
 */
module Divergence {

  /** An object id. The object store is not part of this model. */
  type CommitId = nat

  /** The parent lists of the commit graph. A commit that cannot be looked
      up or parsed is simply absent and so has no parents. */
  type CommitGraph = map<CommitId, seq<CommitId>>

  function Parents(graph: CommitGraph, c: CommitId): seq<CommitId>
  {
    if c in graph then graph[c] else []
  }

  /** `to` is reached from `from` by following exactly `n` parent links:
      the reference meaning of a recorded distance. */
  ghost predicate HasPath(graph: CommitGraph, from: CommitId, to: CommitId, n: nat)
    decreases n
  {
    if n == 0 then from == to
    else exists mid :: HasPath(graph, from, mid, n - 1) && to in Parents(graph, mid)
  }

  /** `c` is an ancestor of `root` (or root itself). */
  ghost predicate Reaches(graph: CommitGraph, root: CommitId, c: CommitId)
  {
    exists n: nat :: HasPath(graph, root, c, n)
  }

  /** The root of `side`'s search: `start` for side 0, `target` for side 1. */
  function Root(start: CommitId, target: CommitId, side: Side): CommitId
  {
    if side == 0 then start else target
  }

  /** BFS_QUEUE_SIZE: slots in each side's ring buffer. */
  const QueueSize: int := 2048

  /** The distance of a commit that a side has not reached. */
  const Unreached: int := -1

  /** 0 for the side searching from `start`, 1 for the side from `target`. */
  type Side = s: nat | s < 2

  function Other(side: Side): Side
  {
    1 - side
  }

  /** One ring-buffer slot (struct bfs_node). */
  datatype BfsNode = BfsNode(oid: CommitId, distance: int)

  /** One distance-map entry (struct bfs_distance_entry). */
  datatype Distances = Distances(fromStart: int, fromTarget: int)
  {
    function Get(side: Side): int
    {
      if side == 0 then fromStart else fromTarget
    }

    function Set(side: Side, d: int): Distances
    {
      if side == 0 then Distances(d, fromTarget) else Distances(fromStart, d)
    }
  }

  type DistanceMap = map<CommitId, Distances>

  /** struct bfs_divergence_result: ahead/behind are -1 when not found. */
  datatype DivergenceResult = DivergenceResult(ahead: int, behind: int, commitsVisited: int)

  function Max0(n: int): nat
  {
    if n > 0 then n else 0
  }

  ghost predicate Distinct(s: seq<CommitId>)
  {
    forall k, l :: 0 <= k < l < |s| ==> s[k] != s[l]
  }

  /**
   * get_or_create_entry: the entry for `oid` afterwards exists; an existing
   * entry is returned untouched (the source signals that case by returning
   * NULL), and a new one starts unreached from both sides.
   */
  function GetOrCreateEntry(dist: DistanceMap, oid: CommitId): (r: (DistanceMap, bool))
    ensures oid in r.0 && r.0.Keys == dist.Keys + {oid}
    ensures r.1 <==> oid !in dist
    ensures forall c :: c in dist ==> r.0[c] == dist[c]
    ensures r.1 ==> r.0[oid] == Distances(Unreached, Unreached)
  {
    if oid in dist then (dist, false)
    else (dist[oid := Distances(Unreached, Unreached)], true)
  }

  /** Advancing a ring index by one and then by `i` is advancing it by `i + 1`. */
  lemma ModShift(h: nat, i: nat)
    ensures ((h + 1) % QueueSize + i) % QueueSize == (h + 1 + i) % QueueSize
  {
    var q := (h + 1) / QueueSize;
    assert h + 1 == q * QueueSize + (h + 1) % QueueSize;
    assert h + 1 + i == q * QueueSize + ((h + 1) % QueueSize + i);
  }

  /** One side's queue as a value: the contents, oldest first, and the budget. */
  datatype QueueState = QueueState(contents: seq<BfsNode>, steps: int)

  /**
   * The search state of one side (struct bfs_state): a ring buffer of
   * QueueSize slots with head, tail and size, and the remaining step budget.
   * Contents is the queue as a sequence, oldest first.
   */
  class BfsQueue {
    const queue: array<BfsNode>
    var head: int
    var tail: int
    var size: int
    var stepsRemaining: int
    ghost var Contents: seq<BfsNode>

    ghost predicate Valid()
      reads this, queue
    {
      && queue.Length == QueueSize
      && 0 <= head < QueueSize
      && 0 <= size <= QueueSize - 1
      && tail == (head + size) % QueueSize
      && |Contents| == size
      && forall i :: 0 <= i < size ==> Contents[i] == queue[(head + i) % QueueSize]
    }

    constructor (maxSteps: int)
      ensures Valid() && fresh(queue)
      ensures Contents == [] && stepsRemaining == maxSteps
    {
      queue := new BfsNode[QueueSize];
      head, tail, size := 0, 0, 0;
      stepsRemaining := maxSteps;
      Contents := [];
    }

    /** Write at tail and advance it; the source masks with QueueSize - 1,
        which on these non-negative indices is the same as `% QueueSize`. */
    method Enqueue(n: BfsNode)
      requires Valid() && size < QueueSize - 1
      modifies this, queue
      ensures Valid()
      ensures Contents == old(Contents) + [n]
      ensures stepsRemaining == old(stepsRemaining)
    {
      queue[tail] := n;
      tail := (tail + 1) % QueueSize;
      size := size + 1;
      Contents := Contents + [n];
    }

    /** Read at head and advance it: first in, first out. */
    method Dequeue() returns (n: BfsNode)
      requires Valid() && size > 0
      modifies this
      ensures Valid()
      ensures n == old(Contents)[0] && Contents == old(Contents)[1..]
      ensures stepsRemaining == old(stepsRemaining)
    {
      assert (head + 0) % QueueSize == head;
      n := queue[head];
      ghost var oldHead, oldContents := head, Contents;
      head := (head + 1) % QueueSize;
      size := size - 1;
      Contents := Contents[1..];
      forall i | 0 <= i < size
        ensures Contents[i] == queue[(head + i) % QueueSize]
      {
        assert Contents[i] == oldContents[i + 1] == queue[(oldHead + (i + 1)) % QueueSize];
        ModShift(oldHead, i);
      }
      ModShift(oldHead, size);
    }

    /** The queue's contents and budget as a value. */
    ghost function State(): QueueState
      reads this
    {
      QueueState(Contents, stepsRemaining)
    }

    /** Pay one step of the budget. */
    method SpendStep()
      requires Valid()
      modifies this
      ensures Valid()
      ensures Contents == old(Contents) && stepsRemaining == old(stepsRemaining) - 1
    {
      stepsRemaining := stepsRemaining - 1;
    }
  }

  /** Every distance recorded on either side is the length of a parent path
      from that side's root; unset distances are exactly -1. */
  ghost predicate DistancesSound(graph: CommitGraph, start: CommitId, target: CommitId, dist: DistanceMap)
  {
    forall c :: c in dist ==>
      && dist[c].fromStart >= Unreached && dist[c].fromTarget >= Unreached
      && (dist[c].fromStart >= 0 ==> HasPath(graph, start, c, dist[c].fromStart))
      && (dist[c].fromTarget >= 0 ==> HasPath(graph, target, c, dist[c].fromTarget))
  }

  /** From `dist` to `dist'` only `side`'s distances were written, only where
      they were unset, and new entries are unreached from the other side. */
  ghost predicate OnlySideWritten(dist: DistanceMap, dist': DistanceMap, side: Side)
  {
    && (forall c :: c in dist ==>
          && c in dist'
          && dist'[c].Get(Other(side)) == dist[c].Get(Other(side))
          && (dist[c].Get(side) >= 0 ==> dist'[c].Get(side) == dist[c].Get(side)))
    && (forall c :: c in dist' && c !in dist ==> dist'[c].Get(Other(side)) == Unreached)
  }

  /**
   * What holds of one side between steps, over the queue's contents and
   * budget. `enqueued` lists every commit ever put in this side's queue (the
   * root first) and `dequeued` counts the commits taken out.
   */
  ghost predicate SideState(root: CommitId, side: Side, contents: seq<BfsNode>, steps: int,
                            dist: DistanceMap, maxSteps: int, dequeued: nat, enqueued: seq<CommitId>)
  {
    // a queued node carries the distance recorded for it on this side
    && (forall i :: 0 <= i < |contents| ==>
          && contents[i].oid in dist
          && contents[i].distance >= 0
          && dist[contents[i].oid].Get(side) == contents[i].distance)
    // every commit ever queued has its distance set, and none is queued twice
    && |enqueued| >= 1 && enqueued[0] == root
    && (forall k :: 0 <= k < |enqueued| ==> enqueued[k] in dist && dist[enqueued[k]].Get(side) >= 0)
    && Distinct(enqueued)
    // the root is free; every later enqueue spends one step of the budget
    && steps == maxSteps - (|enqueued| - 1)
    && (steps >= 0 || steps == maxSteps)
    && dequeued + |contents| == |enqueued|
    && dequeued <= Max0(maxSteps)
  }

  ghost predicate SideInv(root: CommitId, side: Side, q: BfsQueue, dist: DistanceMap,
                          maxSteps: int, dequeued: nat, enqueued: seq<CommitId>)
    reads q, q.queue
  {
    q.Valid() && SideState(root, side, q.Contents, q.stepsRemaining, dist, maxSteps, dequeued, enqueued)
  }

  /** Writes to the other side's distances leave this side's state intact. */
  lemma SideStateFrame(root: CommitId, side: Side, contents: seq<BfsNode>, steps: int,
                       dist: DistanceMap, dist': DistanceMap, maxSteps: int, dequeued: nat, enqueued: seq<CommitId>)
    requires SideState(root, side, contents, steps, dist, maxSteps, dequeued, enqueued)
    requires OnlySideWritten(dist, dist', Other(side))
    ensures SideState(root, side, contents, steps, dist', maxSteps, dequeued, enqueued)
  {
    forall i | 0 <= i < |contents|
      ensures dist'[contents[i].oid].Get(side) == contents[i].distance
    {
      assert contents[i].oid in dist;
    }
    forall k | 0 <= k < |enqueued|
      ensures enqueued[k] in dist' && dist'[enqueued[k]].Get(side) >= 0
    {
      assert enqueued[k] in dist;
    }
  }

  lemma SideInvFrame(root: CommitId, side: Side, q: BfsQueue, dist: DistanceMap, dist': DistanceMap,
                     maxSteps: int, dequeued: nat, enqueued: seq<CommitId>)
    requires SideInv(root, side, q, dist, maxSteps, dequeued, enqueued)
    requires OnlySideWritten(dist, dist', Other(side))
    ensures SideInv(root, side, q, dist', maxSteps, dequeued, enqueued)
  {
    SideStateFrame(root, side, q.Contents, q.stepsRemaining, dist, dist', maxSteps, dequeued, enqueued);
  }

  /** Recording a distance where this side had none keeps the side's state,
      and shows that the commit was never queued on this side. */
  lemma RecordKeepsSideState(root: CommitId, side: Side, contents: seq<BfsNode>, steps: int,
                             dist: DistanceMap, maxSteps: int, dequeued: nat, enqueued: seq<CommitId>,
                             p: CommitId, d: nat)
    requires SideState(root, side, contents, steps, dist, maxSteps, dequeued, enqueued)
    requires p in dist && dist[p].Get(side) < 0
    ensures p !in enqueued
    ensures SideState(root, side, contents, steps, dist[p := dist[p].Set(side, d)],
                      maxSteps, dequeued, enqueued)
  {
    var dist' := dist[p := dist[p].Set(side, d)];
    forall i | 0 <= i < |contents|
      ensures contents[i].oid in dist' && dist'[contents[i].oid].Get(side) == contents[i].distance
    {
      assert contents[i].oid != p;
    }
    forall k | 0 <= k < |enqueued|
      ensures enqueued[k] in dist' && dist'[enqueued[k]].Get(side) >= 0
    {
      assert enqueued[k] != p;
    }
  }

  /** Recording a distance that is a path length keeps every distance sound. */
  lemma RecordKeepsSound(graph: CommitGraph, start: CommitId, target: CommitId, dist: DistanceMap,
                         side: Side, p: CommitId, d: nat)
    requires DistancesSound(graph, start, target, dist)
    requires p in dist
    requires HasPath(graph, Root(start, target, side), p, d)
    ensures DistancesSound(graph, start, target, dist[p := dist[p].Set(side, d)])
  {
  }

  /** Creating an entry writes no distance on either side. */
  lemma CreateWritesNothing(dist: DistanceMap, p: CommitId, side: Side)
    ensures OnlySideWritten(dist, GetOrCreateEntry(dist, p).0, side)
  {
  }

  /** Setting this side's distance where it was unset writes only this side. */
  lemma RecordWritesOneSide(dist: DistanceMap, dist': DistanceMap, side: Side, p: CommitId, d: nat)
    requires OnlySideWritten(dist, dist', side)
    requires p in dist' && dist'[p].Get(side) < 0
    ensures OnlySideWritten(dist, dist'[p := dist'[p].Set(side, d)], side)
  {
    var dist'' := dist'[p := dist'[p].Set(side, d)];
    forall c | c in dist
      ensures c in dist'' && dist''[c].Get(Other(side)) == dist[c].Get(Other(side))
      ensures dist[c].Get(side) >= 0 ==> dist''[c].Get(side) == dist[c].Get(side)
    {
      if c == p {
        assert dist[c].Get(side) < 0;
      }
    }
  }

  /** Queueing a freshly reached commit, paid from the budget. */
  lemma PushKeepsSideState(root: CommitId, side: Side, contents: seq<BfsNode>, steps: int,
                           dist: DistanceMap, maxSteps: int, dequeued: nat, enqueued: seq<CommitId>,
                           p: CommitId, d: nat)
    requires SideState(root, side, contents, steps, dist, maxSteps, dequeued, enqueued)
    requires steps > 0 && p !in enqueued
    requires p in dist && dist[p].Get(side) == d
    ensures SideState(root, side, contents + [BfsNode(p, d)], steps - 1, dist,
                      maxSteps, dequeued, enqueued + [p])
  {
  }

  datatype StepOutcome =
    | Idle                                              // side skipped this round
    | Expanded                                          // one node dequeued and expanded
    | Met(meet: CommitId, ahead: int, behind: int)      // a commit reached from both sides
    | Overflow                                          // enqueue attempted on a full queue

  lemma OnlySideWrittenTrans(d0: DistanceMap, d1: DistanceMap, d2: DistanceMap, side: Side)
    requires OnlySideWritten(d0, d1, side) && OnlySideWritten(d1, d2, side)
    ensures OnlySideWritten(d0, d2, side)
  {
    forall c | c in d2 && c !in d0 ensures d2[c].Get(Other(side)) == Unreached
    {
      if c in d1 {
        assert d1[c].Get(Other(side)) == Unreached;
      }
    }
  }

  // ----- the search on values: the reference the methods are proved against -----

  /** The state after one step of the search, and how that step ended. */
  datatype TurnResult = TurnResult(outcome: StepOutcome, dist: DistanceMap, queue: QueueState)

  /**
   * One parent `p` of a node dequeued on `side`, at distance `d`: the body of
   * the source's parent loop. A parent this side has reached already changes
   * nothing. Otherwise `d` is recorded for it; the search meets if the other
   * side had reached it; else, while the budget lasts, it is queued at the
   * back, or the search gives up if the ring buffer is full.
   */
  function ParentStep(side: Side, dist: DistanceMap, q: QueueState, p: CommitId, d: int): TurnResult
  {
    var m := GetOrCreateEntry(dist, p).0;
    if m[p].Get(side) >= 0 then TurnResult(Expanded, m, q)
    else
      var e := m[p].Set(side, d);
      if e.Get(Other(side)) >= 0 then TurnResult(Met(p, e.fromStart, e.fromTarget), m[p := e], q)
      else if q.steps <= 0 then TurnResult(Expanded, m[p := e], q)
      else if |q.contents| >= QueueSize - 1 then TurnResult(Overflow, m[p := e], q)
      else TurnResult(Expanded, m[p := e], QueueState(q.contents + [BfsNode(p, d)], q.steps - 1))
  }

  /** The parent loop: the parents in order, until one of them ends the search. */
  function ParentsStep(side: Side, dist: DistanceMap, q: QueueState, parents: seq<CommitId>, d: int): TurnResult
    decreases |parents|
  {
    if |parents| == 0 then TurnResult(Expanded, dist, q)
    else
      var t := ParentStep(side, dist, q, parents[0], d);
      if t.outcome.Expanded? then ParentsStep(side, t.dist, t.queue, parents[1..], d) else t
  }

  /** A side with an empty queue or a spent budget sits the round out. */
  predicate Stalled(q: QueueState)
  {
    |q.contents| == 0 || q.steps <= 0
  }

  /** An enqueue would be attempted on a full ring buffer. */
  predicate Full(q: QueueState)
  {
    |q.contents| >= QueueSize - 1 && q.steps > 0
  }

  /**
   * The expansion of a dequeued node `current`, with `q` the queue left
   * behind: it is the meeting point if both sides have reached it,
   * otherwise its parents are visited at its distance plus one.
   */
  function Expansion(graph: CommitGraph, side: Side, dist: DistanceMap, q: QueueState, current: BfsNode): TurnResult
  {
    if current.oid in dist && dist[current.oid].fromStart >= 0 && dist[current.oid].fromTarget >= 0 then
      TurnResult(Met(current.oid, dist[current.oid].fromStart, dist[current.oid].fromTarget), dist, q)
    else ParentsStep(side, dist, q, Parents(graph, current.oid), current.distance + 1)
  }

  /** One side's turn: a stalled side idles; otherwise the oldest node is dequeued and expanded. */
  function Turn(graph: CommitGraph, side: Side, dist: DistanceMap, q: QueueState): TurnResult
  {
    if Stalled(q) then TurnResult(Idle, dist, q)
    else Expansion(graph, side, dist, QueueState(q.contents[1..], q.steps), q.contents[0])
  }

  /** Queued nodes plus the budget still to spend: what bounds the search. */
  function Budget(q: QueueState): nat
  {
    |q.contents| + Max0(q.steps)
  }

  /** Why the search stopped. */
  datatype Stop = Meeting | QueueFull | Exhausted

  /** The search's answer together with the state it stops in. */
  datatype SearchEnd = SearchEnd(result: DivergenceResult, stop: Stop, dist: DistanceMap,
                                 q0: QueueState, q1: QueueState)

  /** Orders the points within a round so that a turn without progress still moves on. */
  function Phase(side: nat, progress: bool): nat
  {
    if side == 0 then (if progress then 5 else 2)
    else if side == 1 then (if progress then 4 else 1)
    else (if progress then 3 else 0)
  }

  /**
   * The interleaved rounds from the point where `side` is next to move
   * (side 2: the round is over) with `visited` nodes dequeued so far and
   * `progress` telling whether this round dequeued anything.
   */
  ghost function Search(graph: CommitGraph, dist: DistanceMap, q0: QueueState, q1: QueueState,
                        visited: int, side: nat, progress: bool): SearchEnd
    requires side <= 2
    decreases Budget(q0) + Budget(q1), Phase(side, progress)
  {
    if side == 2 then
      if progress then Search(graph, dist, q0, q1, visited, 0, false)
      else SearchEnd(DivergenceResult(-1, -1, visited), Exhausted, dist, q0, q1)
    else
      var t := Turn(graph, side, dist, if side == 0 then q0 else q1);
      var visited' := if t.outcome.Idle? then visited else visited + 1;
      var q0' := if side == 0 then t.queue else q0;
      var q1' := if side == 1 then t.queue else q1;
      if t.outcome.Met? then
        SearchEnd(DivergenceResult(t.outcome.ahead, t.outcome.behind, visited'), Meeting, t.dist, q0', q1')
      else if t.outcome.Overflow? then
        SearchEnd(DivergenceResult(-1, -1, visited'), QueueFull, t.dist, q0', q1')
      else
        TurnShape(graph, side, dist, if side == 0 then q0 else q1);
        Search(graph, t.dist, q0', q1', visited', side + 1, progress || !t.outcome.Idle?)
  }

  /** One turn of the search, taken from the point where `side` moves. */
  lemma SearchAfterTurn(graph: CommitGraph, dist: DistanceMap, q0: QueueState, q1: QueueState,
                        visited: int, side: nat, progress: bool, t: TurnResult)
    requires side < 2 && t == Turn(graph, side, dist, if side == 0 then q0 else q1)
    ensures var visited' := if t.outcome.Idle? then visited else visited + 1;
            var q0' := if side == 0 then t.queue else q0;
            var q1' := if side == 1 then t.queue else q1;
            var e := Search(graph, dist, q0, q1, visited, side, progress);
            && (t.outcome.Met? ==>
                  e == SearchEnd(DivergenceResult(t.outcome.ahead, t.outcome.behind, visited'), Meeting,
                                 t.dist, q0', q1'))
            && (t.outcome.Overflow? ==> e == SearchEnd(DivergenceResult(-1, -1, visited'), QueueFull, t.dist, q0', q1'))
            && (!t.outcome.Met? && !t.outcome.Overflow? ==>
                  e == Search(graph, t.dist, q0', q1', visited', side + 1, progress || !t.outcome.Idle?))
  {
  }

  /** The distance map right after both roots are seeded. */
  function SeedMap(start: CommitId, target: CommitId): DistanceMap
  {
    map[start := Distances(0, Unreached), target := Distances(Unreached, 0)]
  }

  /** The search from freshly seeded roots, each queue holding its root at distance 0. */
  ghost function SearchFrom(graph: CommitGraph, start: CommitId, target: CommitId, maxSteps: int): SearchEnd
  {
    Search(graph, SeedMap(start, target), QueueState([BfsNode(start, 0)], maxSteps),
           QueueState([BfsNode(target, 0)], maxSteps), 0, 0, false)
  }

  /** bfs_find_divergence's answer. */
  ghost function DivergenceOf(graph: CommitGraph, start: CommitId, target: CommitId, maxSteps: int): DivergenceResult
  {
    if start == target then DivergenceResult(0, 0, 0) else SearchFrom(graph, start, target, maxSteps).result
  }

  /**
   * One parent, case by case: a parent already reached on this side changes
   * nothing; otherwise its distance on this side becomes `d`, its other
   * distance is kept, and the search meets exactly when that other distance
   * is set, gives up exactly when the budget remains and the buffer is full,
   * and queues the parent exactly when the budget remains and there is room.
   */
  lemma ParentStepSpec(side: Side, dist: DistanceMap, q: QueueState, p: CommitId, d: int)
    ensures var t := ParentStep(side, dist, q, p, d);
            && (p in dist && dist[p].Get(side) >= 0 ==> t == TurnResult(Expanded, dist, q))
            && (p !in dist || dist[p].Get(side) < 0 ==>
                  var before := if p in dist then dist[p] else Distances(Unreached, Unreached);
                  && t.dist == dist[p := before.Set(side, d)]
                  && t.dist[p].Get(side) == d && t.dist[p].Get(Other(side)) == before.Get(Other(side))
                  && (t.outcome.Met? <==> before.Get(Other(side)) >= 0)
                  && (t.outcome.Met? ==> t.outcome.meet == p && t.queue == q)
                  && (t.outcome.Overflow? <==> before.Get(Other(side)) < 0 && Full(q))
                  && (t.outcome.Overflow? ==> t.queue == q)
                  && (before.Get(Other(side)) < 0 && q.steps > 0 && !Full(q) ==>
                        t.outcome == Expanded
                        && t.queue == QueueState(q.contents + [BfsNode(p, d)], q.steps - 1))
                  && (before.Get(Other(side)) < 0 && q.steps <= 0 ==> t.outcome == Expanded && t.queue == q))
  {
  }

  /**
   * The parent loop keeps the budget measure, only appends to the queue,
   * appends only parents at distance `d`, never idles, and gives up only on
   * a full buffer.
   */
  lemma {:induction false} ParentsStepShape(side: Side, dist: DistanceMap, q: QueueState,
                                            parents: seq<CommitId>, d: int)
    ensures var t := ParentsStep(side, dist, q, parents, d);
            && !t.outcome.Idle?
            && Budget(t.queue) == Budget(q)
            && q.contents <= t.queue.contents
            && (forall i :: |q.contents| <= i < |t.queue.contents| ==>
                  t.queue.contents[i].oid in parents && t.queue.contents[i].distance == d)
            && (t.outcome.Overflow? ==> Full(t.queue))
    decreases |parents|
  {
    if |parents| > 0 {
      var t := ParentStep(side, dist, q, parents[0], d);
      if t.outcome.Expanded? {
        ParentsStepShape(side, t.dist, t.queue, parents[1..], d);
        var u := ParentsStep(side, t.dist, t.queue, parents[1..], d);
        forall i | |q.contents| <= i < |u.queue.contents|
          ensures u.queue.contents[i].oid in parents && u.queue.contents[i].distance == d
        {
          if i >= |t.queue.contents| {
            assert u.queue.contents[i].oid in parents[1..];
          } else {
            assert t.queue.contents[i] == u.queue.contents[i];
          }
        }
      }
    }
  }

  /**
   * A turn idles exactly on a stalled side, and then changes nothing.
   * Otherwise the oldest node leaves the queue, what is added behind the
   * rest are parents of that node at its distance plus one, the budget
   * measure drops by one, and a give-up leaves a full buffer.
   */
  lemma TurnShape(graph: CommitGraph, side: Side, dist: DistanceMap, q: QueueState)
    ensures var t := Turn(graph, side, dist, q);
            && (t.outcome.Idle? <==> Stalled(q))
            && (t.outcome.Idle? ==> t == TurnResult(Idle, dist, q))
            && (!t.outcome.Idle? ==>
                  && q.contents[1..] <= t.queue.contents
                  && Budget(t.queue) + 1 == Budget(q)
                  && (forall i :: |q.contents| - 1 <= i < |t.queue.contents| ==>
                        t.queue.contents[i].oid in Parents(graph, q.contents[0].oid)
                        && t.queue.contents[i].distance == q.contents[0].distance + 1))
            && (t.outcome.Overflow? ==> Full(t.queue))
  {
    if !Stalled(q) {
      var current := q.contents[0];
      ParentsStepShape(side, dist, QueueState(q.contents[1..], q.steps), Parents(graph, current.oid),
                       current.distance + 1);
    }
  }

  /**
   * Why a search gives up: an unanswered search ended because an enqueue
   * found its ring buffer full with budget left, or because a whole round
   * found both sides stalled (empty queue or spent budget). `progress` false
   * part-way through a round means the sides that moved so far stalled.
   */
  lemma {:induction false} SearchStops(graph: CommitGraph, dist: DistanceMap, q0: QueueState, q1: QueueState,
                                       visited: int, side: nat, progress: bool)
    requires side <= 2
    requires !progress && side >= 1 ==> Stalled(q0)
    requires !progress && side == 2 ==> Stalled(q1)
    ensures var e := Search(graph, dist, q0, q1, visited, side, progress);
            && (e.stop != Meeting ==> e.result.ahead == -1 && e.result.behind == -1)
            && (e.stop == QueueFull ==> Full(e.q0) || Full(e.q1))
            && (e.stop == Exhausted ==> Stalled(e.q0) && Stalled(e.q1))
    decreases Budget(q0) + Budget(q1), Phase(side, progress)
  {
    if side == 2 {
      if progress {
        SearchStops(graph, dist, q0, q1, visited, 0, false);
      }
    } else {
      var q := if side == 0 then q0 else q1;
      var t := Turn(graph, side, dist, q);
      TurnShape(graph, side, dist, q);
      if !t.outcome.Met? && !t.outcome.Overflow? {
        var visited' := if t.outcome.Idle? then visited else visited + 1;
        var q0' := if side == 0 then t.queue else q0;
        var q1' := if side == 1 then t.queue else q1;
        SearchStops(graph, t.dist, q0', q1', visited', side + 1, progress || !t.outcome.Idle?);
      }
    }
  }

  function FirstIndex(s: seq<CommitId>, x: CommitId): (k: nat)
    requires x in s
    ensures k < |s| && s[k] == x && forall j :: 0 <= j < k ==> s[j] != x
  {
    if s[0] == x then 0 else 1 + FirstIndex(s[1..], x)
  }

  /**
   * On side 0, a parent list whose first occurrence of `target` comes after
   * fewer parents than the buffer has room for meets at `target`, provided
   * only `target` has been reached from the target side and side 0 has not
   * reached it.
   */
  lemma {:induction false} ParentsMeetTarget(dist: DistanceMap, q: QueueState, parents: seq<CommitId>,
                                             target: CommitId, k: nat, d: int)
    requires k < |parents| && parents[k] == target && forall j :: 0 <= j < k ==> parents[j] != target
    requires target in dist && dist[target].fromStart < 0 && dist[target].fromTarget >= 0
    requires forall c :: c in dist && c != target ==> dist[c].fromTarget < 0
    requires |q.contents| + k < QueueSize - 1
    ensures ParentsStep(0, dist, q, parents, d).outcome == Met(target, d, dist[target].fromTarget)
    decreases k
  {
    var t := ParentStep(0, dist, q, parents[0], d);
    ParentStepSpec(0, dist, q, parents[0], d);
    if k > 0 {
      assert t.outcome.Expanded?;
      assert parents[1..][k - 1] == target;
      ParentsMeetTarget(t.dist, t.queue, parents[1..], target, k - 1, d);
    }
  }

  /**
   * Completeness on the simplest case: when `target` is a parent of `start`
   * (of a commit with fewer parents than the buffer holds) and the budget is
   * at least one, the search answers one ahead, none behind, after one
   * visit.
   */
  lemma ParentIsOneAhead(graph: CommitGraph, start: CommitId, target: CommitId, maxSteps: int)
    requires start != target && maxSteps >= 1
    requires target in Parents(graph, start) && |Parents(graph, start)| < QueueSize
    ensures DivergenceOf(graph, start, target, maxSteps) == DivergenceResult(1, 0, 1)
  {
    var parents := Parents(graph, start);
    var dist := SeedMap(start, target);
    ParentsMeetTarget(dist, QueueState([], maxSteps), parents, target, FirstIndex(parents, target), 1);
    var t := Turn(graph, 0, dist, QueueState([BfsNode(start, 0)], maxSteps));
    assert [BfsNode(start, 0)][1..] == [];
    assert t.outcome == Met(target, 1, 0);
  }

  /**
   * Queue a freshly reached parent on `side`, paying one step: the search
   * gives up with Overflow when the ring buffer is already full.
   */
  method PushParent(ghost root: CommitId, side: Side, q: BfsQueue, dist: DistanceMap, maxSteps: int,
                    ghost dequeued: nat, ghost enqueued: seq<CommitId>, p: CommitId, d: nat)
    returns (outcome: StepOutcome, ghost enqueued': seq<CommitId>)
    requires SideInv(root, side, q, dist, maxSteps, dequeued, enqueued)
    requires q.stepsRemaining > 0 && p !in enqueued && p in dist && dist[p].Get(side) == d
    modifies q, q.queue
    ensures outcome == Expanded || outcome == Overflow
    ensures outcome == Overflow <==> old(q.size) >= QueueSize - 1
    ensures outcome == Expanded ==>
              && q.State() == QueueState(old(q.Contents) + [BfsNode(p, d)], old(q.stepsRemaining) - 1)
              && enqueued' == enqueued + [p]
    ensures outcome == Overflow ==> q.State() == old(q.State()) && enqueued' == enqueued
    ensures SideInv(root, side, q, dist, maxSteps, dequeued, enqueued')
  {
    if q.size >= QueueSize - 1 {
      return Overflow, enqueued;
    }
    PushKeepsSideState(root, side, q.Contents, q.stepsRemaining, dist, maxSteps, dequeued, enqueued, p, d);
    q.Enqueue(BfsNode(p, d));
    q.SpendStep();
    return Expanded, enqueued + [p];
  }

  /**
   * The treatment of one parent `p` of a node dequeued on `side` at distance
   * parentDist - 1 (the body of the source's parent loop): if this side has
   * not reached p, record parentDist; stop with the meeting point if the
   * other side had reached p; otherwise enqueue p while the budget is
   * positive, or stop with Overflow if the queue is full.
   */
  method VisitParent(graph: CommitGraph, start: CommitId, target: CommitId, maxSteps: int,
                     side: Side, q: BfsQueue, dist: DistanceMap, p: CommitId, parentDist: nat,
                     ghost dequeued: nat, ghost enqueued: seq<CommitId>)
    returns (outcome: StepOutcome, dist': DistanceMap, ghost enqueued': seq<CommitId>)
    requires SideInv(Root(start, target, side), side, q, dist, maxSteps, dequeued, enqueued)
    requires DistancesSound(graph, start, target, dist)
    requires HasPath(graph, Root(start, target, side), p, parentDist)
    modifies q, q.queue
    ensures TurnResult(outcome, dist', q.State()) == ParentStep(side, dist, old(q.State()), p, parentDist)
    ensures outcome.Expanded? || outcome.Met? || outcome.Overflow?
    ensures SideInv(Root(start, target, side), side, q, dist', maxSteps, dequeued, enqueued')
    ensures DistancesSound(graph, start, target, dist')
    ensures OnlySideWritten(dist, dist', side)
    ensures outcome.Met? ==>
              && outcome.meet in dist' && outcome.ahead >= 0 && outcome.behind >= 0
              && dist'[outcome.meet] == Distances(outcome.ahead, outcome.behind)
  {
    ghost var root := Root(start, target, side);
    // get_or_create_entry is only reached when the lookup failed, so here
    // it always yields the entry for p.
    var created := GetOrCreateEntry(dist, p);
    dist', enqueued' := created.0, enqueued;
    CreateWritesNothing(dist, p, side);
    CreateWritesNothing(dist, p, Other(side));
    SideStateFrame(root, side, q.Contents, q.stepsRemaining, dist, dist', maxSteps, dequeued, enqueued);
    var entry := dist'[p];
    outcome := Expanded;
    if entry.Get(side) < 0 {
      RecordKeepsSideState(root, side, q.Contents, q.stepsRemaining, dist', maxSteps, dequeued, enqueued,
                           p, parentDist);
      RecordKeepsSound(graph, start, target, dist', side, p, parentDist);
      RecordWritesOneSide(dist, dist', side, p, parentDist);
      entry := entry.Set(side, parentDist);
      dist' := dist'[p := entry];
      if entry.Get(Other(side)) >= 0 {
        // Fast path: the other side reached this parent already.
        outcome := Met(p, entry.fromStart, entry.fromTarget);
      } else if q.stepsRemaining > 0 {
        outcome, enqueued' := PushParent(root, side, q, dist', maxSteps, dequeued, enqueued, p, parentDist);
      }
    }
  }

  /**
   * One side's turn in a round (the body of the `for (side ...)` loop):
   * dequeue one node if the queue is non-empty and the budget is positive,
   * stop if it was already reached from both sides, otherwise visit its
   * parents in order until one of them ends the search.
   */
  method ExpandSide(graph: CommitGraph, start: CommitId, target: CommitId, maxSteps: int,
                    side: Side, q: BfsQueue, dist: DistanceMap,
                    ghost dequeued: nat, ghost enqueued: seq<CommitId>)
    returns (outcome: StepOutcome, dist': DistanceMap, ghost enqueued': seq<CommitId>)
    requires SideInv(Root(start, target, side), side, q, dist, maxSteps, dequeued, enqueued)
    requires DistancesSound(graph, start, target, dist)
    modifies q, q.queue
    ensures TurnResult(outcome, dist', q.State()) == Turn(graph, side, dist, old(q.State()))
    ensures outcome.Idle? <==> old(q.size) <= 0 || old(q.stepsRemaining) <= 0
    ensures outcome.Idle? ==> dist' == dist && enqueued' == enqueued
    ensures SideInv(Root(start, target, side), side, q, dist', maxSteps,
                    if outcome.Idle? then dequeued else dequeued + 1, enqueued')
    ensures DistancesSound(graph, start, target, dist')
    ensures OnlySideWritten(dist, dist', side)
    ensures outcome.Met? ==>
              && outcome.meet in dist' && outcome.ahead >= 0 && outcome.behind >= 0
              && dist'[outcome.meet] == Distances(outcome.ahead, outcome.behind)
  {
    ghost var root := Root(start, target, side);
    ghost var s := q.State();
    dist', enqueued' := dist, enqueued;
    if q.size <= 0 || q.stepsRemaining <= 0 {
      assert Stalled(s);
      return Idle, dist', enqueued';
    }

    var current := q.Dequeue();
    assert current == s.contents[0] && q.State() == QueueState(s.contents[1..], s.steps);
    assert current.oid in dist && dist[current.oid].Get(side) == current.distance >= 0;
    assert HasPath(graph, root, current.oid, current.distance);
    outcome, dist', enqueued' :=
      ExpandNode(graph, start, target, maxSteps, side, q, dist, current, dequeued + 1, enqueued);
  }

  /**
   * The expansion of the node just dequeued on `side`: reached from both
   * sides already, it is the meeting point; otherwise its parents are
   * visited.
   */
  method ExpandNode(graph: CommitGraph, start: CommitId, target: CommitId, maxSteps: int,
                    side: Side, q: BfsQueue, dist: DistanceMap, current: BfsNode,
                    ghost dequeued: nat, ghost enqueued: seq<CommitId>)
    returns (outcome: StepOutcome, dist': DistanceMap, ghost enqueued': seq<CommitId>)
    requires SideInv(Root(start, target, side), side, q, dist, maxSteps, dequeued, enqueued)
    requires DistancesSound(graph, start, target, dist)
    requires current.distance >= 0 && HasPath(graph, Root(start, target, side), current.oid, current.distance)
    modifies q, q.queue
    ensures TurnResult(outcome, dist', q.State()) == Expansion(graph, side, dist, old(q.State()), current)
    ensures !outcome.Idle?
    ensures SideInv(Root(start, target, side), side, q, dist', maxSteps, dequeued, enqueued')
    ensures DistancesSound(graph, start, target, dist')
    ensures OnlySideWritten(dist, dist', side)
    ensures outcome.Met? ==>
              && outcome.meet in dist' && outcome.ahead >= 0 && outcome.behind >= 0
              && dist'[outcome.meet] == Distances(outcome.ahead, outcome.behind)
  {
    if current.oid in dist && dist[current.oid].fromStart >= 0 && dist[current.oid].fromTarget >= 0 {
      var e := dist[current.oid];
      return Met(current.oid, e.fromStart, e.fromTarget), dist, enqueued;
    }
    assert Expansion(graph, side, dist, q.State(), current)
           == ParentsStep(side, dist, q.State(), Parents(graph, current.oid), current.distance + 1);
    outcome, dist', enqueued' :=
      VisitParents(graph, start, target, maxSteps, side, q, dist, current, dequeued, enqueued);
  }

  /**
   * The parent loop of the expansion: each parent of the dequeued commit is
   * visited in order until one meets the other side or overflows the queue.
   */
  method VisitParents(graph: CommitGraph, start: CommitId, target: CommitId, maxSteps: int,
                      side: Side, q: BfsQueue, dist: DistanceMap, current: BfsNode,
                      ghost dequeued: nat, ghost enqueued: seq<CommitId>)
    returns (outcome: StepOutcome, dist': DistanceMap, ghost enqueued': seq<CommitId>)
    requires SideInv(Root(start, target, side), side, q, dist, maxSteps, dequeued, enqueued)
    requires DistancesSound(graph, start, target, dist)
    requires current.distance >= 0 && HasPath(graph, Root(start, target, side), current.oid, current.distance)
    modifies q, q.queue
    ensures TurnResult(outcome, dist', q.State())
            == ParentsStep(side, dist, old(q.State()), Parents(graph, current.oid), current.distance + 1)
    ensures !outcome.Idle?
    ensures SideInv(Root(start, target, side), side, q, dist', maxSteps, dequeued, enqueued')
    ensures DistancesSound(graph, start, target, dist')
    ensures OnlySideWritten(dist, dist', side)
    ensures outcome.Met? ==>
              && outcome.meet in dist' && outcome.ahead >= 0 && outcome.behind >= 0
              && dist'[outcome.meet] == Distances(outcome.ahead, outcome.behind)
  {
    ghost var root := Root(start, target, side);
    dist', enqueued' := dist, enqueued;
    var parents := Parents(graph, current.oid);
    var parentDist := current.distance + 1;
    for j := 0 to |parents|
      invariant SideInv(root, side, q, dist', maxSteps, dequeued, enqueued')
      invariant DistancesSound(graph, start, target, dist')
      invariant OnlySideWritten(dist, dist', side)
      invariant ParentsStep(side, dist', q.State(), parents[j..], parentDist)
                == ParentsStep(side, dist, old(q.State()), parents, parentDist)
    {
      assert parents[j..][0] == parents[j] && parents[j..][1..] == parents[j + 1..];
      assert HasPath(graph, root, parents[j], parentDist);
      ghost var before := dist';
      outcome, dist', enqueued' :=
        VisitParent(graph, start, target, maxSteps, side, q, dist', parents[j], parentDist,
                    dequeued, enqueued');
      OnlySideWrittenTrans(dist, before, dist', side);
      if !outcome.Expanded? {
        return;
      }
    }
    assert parents[|parents|..] == [];
    return Expanded, dist', enqueued';
  }

  /**
   * One side's turn, seen from the whole search: the other side's queue is
   * untouched and its state survives the distances this side wrote.
   */
  method TakeTurn(graph: CommitGraph, start: CommitId, target: CommitId, maxSteps: int,
                  side: Side, q: BfsQueue, other: BfsQueue, dist: DistanceMap,
                  ghost dequeued: nat, ghost enqueued: seq<CommitId>,
                  ghost otherDequeued: nat, ghost otherEnqueued: seq<CommitId>)
    returns (outcome: StepOutcome, dist': DistanceMap, ghost enqueued': seq<CommitId>)
    requires q != other && q.queue != other.queue
    requires SideInv(Root(start, target, side), side, q, dist, maxSteps, dequeued, enqueued)
    requires SideInv(Root(start, target, Other(side)), Other(side), other, dist, maxSteps,
                     otherDequeued, otherEnqueued)
    requires DistancesSound(graph, start, target, dist)
    modifies q, q.queue
    ensures TurnResult(outcome, dist', q.State()) == Turn(graph, side, dist, old(q.State()))
    ensures other.State() == old(other.State())
    ensures outcome.Idle? ==> dist' == dist && enqueued' == enqueued
    ensures SideInv(Root(start, target, side), side, q, dist', maxSteps,
                    if outcome.Idle? then dequeued else dequeued + 1, enqueued')
    ensures SideInv(Root(start, target, Other(side)), Other(side), other, dist', maxSteps,
                    otherDequeued, otherEnqueued)
    ensures DistancesSound(graph, start, target, dist')
    ensures outcome.Met? ==>
              && outcome.meet in dist' && outcome.ahead >= 0 && outcome.behind >= 0
              && dist'[outcome.meet] == Distances(outcome.ahead, outcome.behind)
  {
    outcome, dist', enqueued' := ExpandSide(graph, start, target, maxSteps, side, q, dist, dequeued, enqueued);
    SideInvFrame(Root(start, target, Other(side)), Other(side), other, dist, dist', maxSteps,
                 otherDequeued, otherEnqueued);
  }

  /**
   * What the search reports, derived from the state it stops in: a meeting
   * point's two distances are path lengths from start and from target, and
   * the visit count and enqueued lists obey the budget.
   */
  lemma Conclude(graph: CommitGraph, start: CommitId, target: CommitId, maxSteps: int,
                 q0: BfsQueue, q1: BfsQueue, dist: DistanceMap,
                 deq0: nat, deq1: nat, enq0: seq<CommitId>, enq1: seq<CommitId>, r: DivergenceResult)
    requires SideInv(start, 0, q0, dist, maxSteps, deq0, enq0)
    requires SideInv(target, 1, q1, dist, maxSteps, deq1, enq1)
    requires DistancesSound(graph, start, target, dist)
    requires r.commitsVisited == deq0 + deq1
    requires (r.ahead == -1 && r.behind == -1)
          || (r.ahead >= 0 && r.behind >= 0 && r.commitsVisited >= 1 &&
              exists c :: c in dist && dist[c] == Distances(r.ahead, r.behind))
    ensures r.ahead >= 0 && r.behind >= 0 ==>
              exists c :: HasPath(graph, start, c, r.ahead) && HasPath(graph, target, c, r.behind)
    ensures 0 <= r.commitsVisited <= 2 * Max0(maxSteps)
    ensures |enq0| >= 1 && enq0[0] == start && |enq1| >= 1 && enq1[0] == target
    ensures |enq0| <= 1 + Max0(maxSteps) && |enq1| <= 1 + Max0(maxSteps)
    ensures Distinct(enq0) && Distinct(enq1)
    ensures r.commitsVisited <= |enq0| + |enq1|
    ensures forall c :: c in enq0 ==> Reaches(graph, start, c)
    ensures forall c :: c in enq1 ==> Reaches(graph, target, c)
  {
    if r.ahead >= 0 {
      var c :| c in dist && dist[c] == Distances(r.ahead, r.behind);
      assert HasPath(graph, start, c, r.ahead) && HasPath(graph, target, c, r.behind);
    }
    forall c | c in enq0 ensures Reaches(graph, start, c)
    {
      var k :| 0 <= k < |enq0| && enq0[k] == c;
      var n: nat := dist[c].fromStart;
      assert HasPath(graph, start, c, n);
    }
    forall c | c in enq1 ensures Reaches(graph, target, c)
    {
      var k :| 0 <= k < |enq1| && enq1[k] == c;
      var n: nat := dist[c].fromTarget;
      assert HasPath(graph, target, c, n);
    }
  }

  /** The turn of `side` within a round, with both sides' states tracked. */
  method PlaySide(graph: CommitGraph, start: CommitId, target: CommitId, maxSteps: int, side: Side,
                  states0: BfsQueue, states1: BfsQueue, dist: DistanceMap,
                  ghost deq0: nat, ghost deq1: nat, ghost enq0: seq<CommitId>, ghost enq1: seq<CommitId>)
    returns (outcome: StepOutcome, dist': DistanceMap, ghost deq0': nat, ghost deq1': nat,
             ghost enq0': seq<CommitId>, ghost enq1': seq<CommitId>)
    requires states0 != states1 && states0.queue != states1.queue
    requires SideInv(start, 0, states0, dist, maxSteps, deq0, enq0)
    requires SideInv(target, 1, states1, dist, maxSteps, deq1, enq1)
    requires DistancesSound(graph, start, target, dist)
    modifies states0, states0.queue, states1, states1.queue
    ensures SideInv(start, 0, states0, dist', maxSteps, deq0', enq0')
    ensures SideInv(target, 1, states1, dist', maxSteps, deq1', enq1')
    ensures DistancesSound(graph, start, target, dist')
    ensures TurnResult(outcome, dist', if side == 0 then states0.State() else states1.State())
            == Turn(graph, side, dist, if side == 0 then old(states0.State()) else old(states1.State()))
    ensures side == 0 ==> states1.State() == old(states1.State())
    ensures side == 1 ==> states0.State() == old(states0.State())
    ensures deq0' + deq1' == deq0 + deq1 + (if outcome.Idle? then 0 else 1)
    ensures outcome.Met? ==>
              && outcome.meet in dist' && outcome.ahead >= 0 && outcome.behind >= 0
              && dist'[outcome.meet] == Distances(outcome.ahead, outcome.behind)
  {
    deq0', deq1', enq0', enq1' := deq0, deq1, enq0, enq1;
    if side == 0 {
      outcome, dist', enq0' :=
        TakeTurn(graph, start, target, maxSteps, 0, states0, states1, dist, deq0, enq0, deq1, enq1);
      if !outcome.Idle? {
        deq0' := deq0 + 1;
      }
    } else {
      outcome, dist', enq1' :=
        TakeTurn(graph, start, target, maxSteps, 1, states1, states0, dist, deq1, enq1, deq0, enq0);
      if !outcome.Idle? {
        deq1' := deq1 + 1;
      }
    }
  }

  /**
   * One turn inside a round, with the visit count and the round's progress
   * flag: the search continues from the next side, or ends here.
   */
  method PlayTurn(graph: CommitGraph, start: CommitId, target: CommitId, maxSteps: int, side: Side,
                  states0: BfsQueue, states1: BfsQueue, dist: DistanceMap, visited: int, progress: bool,
                  ghost deq0: nat, ghost deq1: nat, ghost enq0: seq<CommitId>, ghost enq1: seq<CommitId>)
    returns (outcome: StepOutcome, dist': DistanceMap, visited': int, progress': bool,
             ghost deq0': nat, ghost deq1': nat, ghost enq0': seq<CommitId>, ghost enq1': seq<CommitId>)
    requires states0 != states1 && states0.queue != states1.queue
    requires SideInv(start, 0, states0, dist, maxSteps, deq0, enq0)
    requires SideInv(target, 1, states1, dist, maxSteps, deq1, enq1)
    requires DistancesSound(graph, start, target, dist)
    requires visited == deq0 + deq1
    modifies states0, states0.queue, states1, states1.queue
    ensures SideInv(start, 0, states0, dist', maxSteps, deq0', enq0')
    ensures SideInv(target, 1, states1, dist', maxSteps, deq1', enq1')
    ensures DistancesSound(graph, start, target, dist')
    ensures visited' == deq0' + deq1' == visited + (if outcome.Idle? then 0 else 1)
    ensures progress' == (progress || !outcome.Idle?)
    ensures outcome.Met? ==>
              && Search(graph, dist, old(states0.State()), old(states1.State()), visited, side, progress)
                 == SearchEnd(DivergenceResult(outcome.ahead, outcome.behind, visited'), Meeting,
                              dist', states0.State(), states1.State())
              && outcome.meet in dist' && outcome.ahead >= 0 && outcome.behind >= 0
              && dist'[outcome.meet] == Distances(outcome.ahead, outcome.behind)
    ensures outcome.Overflow? ==>
              Search(graph, dist, old(states0.State()), old(states1.State()), visited, side, progress)
              == SearchEnd(DivergenceResult(-1, -1, visited'), QueueFull, dist', states0.State(), states1.State())
    ensures !outcome.Met? && !outcome.Overflow? ==>
              Search(graph, dist, old(states0.State()), old(states1.State()), visited, side, progress)
              == Search(graph, dist', states0.State(), states1.State(), visited', side + 1, progress')
  {
    ghost var before0, before1 := states0.State(), states1.State();
    outcome, dist', deq0', deq1', enq0', enq1' :=
      PlaySide(graph, start, target, maxSteps, side, states0, states1, dist, deq0, deq1, enq0, enq1);
    SearchAfterTurn(graph, dist, before0, before1, visited, side, progress,
                    TurnResult(outcome, dist', if side == 0 then states0.State() else states1.State()));
    visited', progress' := visited, progress;
    if !outcome.Idle? {
      visited', progress' := visited + 1, true;
    }
  }

  /**
   * One round of bfs_find_divergence (the `for (side ...)` loop): side 0 and
   * then side 1 take a turn, unless one of them meets the other side or
   * overflows its queue, which ends the search. Otherwise the round reports
   * whether it dequeued anything.
   */
  method PlayRound(graph: CommitGraph, start: CommitId, target: CommitId, maxSteps: int,
                   states0: BfsQueue, states1: BfsQueue, dist0: DistanceMap, visited: int,
                   ghost deq0: nat, ghost deq1: nat, ghost enq0: seq<CommitId>, ghost enq1: seq<CommitId>)
    returns (done: bool, r: DivergenceResult, dist: DistanceMap, ghost stop: Stop,
             progress: bool, visited': int, ghost deq0': nat, ghost deq1': nat,
             ghost enq0': seq<CommitId>, ghost enq1': seq<CommitId>)
    requires states0 != states1 && states0.queue != states1.queue
    requires SideInv(start, 0, states0, dist0, maxSteps, deq0, enq0)
    requires SideInv(target, 1, states1, dist0, maxSteps, deq1, enq1)
    requires DistancesSound(graph, start, target, dist0)
    requires visited == deq0 + deq1
    modifies states0, states0.queue, states1, states1.queue
    ensures SideInv(start, 0, states0, dist, maxSteps, deq0', enq0')
    ensures SideInv(target, 1, states1, dist, maxSteps, deq1', enq1')
    ensures DistancesSound(graph, start, target, dist)
    ensures visited' == deq0' + deq1' && visited' >= visited
    ensures done ==>
              && SearchEnd(r, stop, dist, states0.State(), states1.State())
                 == Search(graph, dist0, old(states0.State()), old(states1.State()), visited, 0, false)
              && r.commitsVisited == visited'
              && ((stop == QueueFull && r.ahead == -1 && r.behind == -1)
                  || (stop == Meeting && r.ahead >= 0 && r.behind >= 0 && r.commitsVisited >= 1 &&
                      exists c :: c in dist && dist[c] == Distances(r.ahead, r.behind)))
    ensures !done ==>
              && Search(graph, dist, states0.State(), states1.State(), visited', 2, progress)
                 == Search(graph, dist0, old(states0.State()), old(states1.State()), visited, 0, false)
              && (progress <==> visited' > visited)
  {
    dist, deq0', deq1', enq0', enq1' := dist0, deq0, deq1, enq0, enq1;
    ghost var target' := Search(graph, dist0, states0.State(), states1.State(), visited, 0, false);
    visited', progress := visited, false;
    for side := 0 to 2
      invariant SideInv(start, 0, states0, dist, maxSteps, deq0', enq0')
      invariant SideInv(target, 1, states1, dist, maxSteps, deq1', enq1')
      invariant DistancesSound(graph, start, target, dist)
      invariant visited' == deq0' + deq1' && visited' >= visited
      invariant progress <==> visited' > visited
      invariant Search(graph, dist, states0.State(), states1.State(), visited', side, progress) == target'
    {
      var outcome;
      outcome, dist, visited', progress, deq0', deq1', enq0', enq1' :=
        PlayTurn(graph, start, target, maxSteps, side, states0, states1, dist, visited', progress,
                 deq0', deq1', enq0', enq1');
      if outcome.Met? {
        return true, DivergenceResult(outcome.ahead, outcome.behind, visited'), dist, Meeting,
               progress, visited', deq0', deq1', enq0', enq1';
      }
      if outcome.Overflow? {
        return true, DivergenceResult(-1, -1, visited'), dist, QueueFull,
               progress, visited', deq0', deq1', enq0', enq1';
      }
    }
    done, r, stop := false, DivergenceResult(-1, -1, visited'), Exhausted;
  }

  /**
   * The interleaved rounds of bfs_find_divergence after seeding: rounds are
   * played while the last one dequeued something; the search stops at a
   * meeting point or an overflow, or when a round makes no progress. The
   * result carries the visit count in every case.
   */
  method Interleave(graph: CommitGraph, start: CommitId, target: CommitId, maxSteps: int,
                    states0: BfsQueue, states1: BfsQueue, dist0: DistanceMap,
                    ghost enq0: seq<CommitId>, ghost enq1: seq<CommitId>)
    returns (r: DivergenceResult, dist: DistanceMap, ghost stop: Stop, ghost deq0: nat, ghost deq1: nat,
             ghost enqueuedFromStart: seq<CommitId>, ghost enqueuedFromTarget: seq<CommitId>)
    requires states0 != states1 && states0.queue != states1.queue
    requires SideInv(start, 0, states0, dist0, maxSteps, 0, enq0)
    requires SideInv(target, 1, states1, dist0, maxSteps, 0, enq1)
    requires DistancesSound(graph, start, target, dist0)
    modifies states0, states0.queue, states1, states1.queue
    ensures SearchEnd(r, stop, dist, states0.State(), states1.State())
            == Search(graph, dist0, old(states0.State()), old(states1.State()), 0, 0, false)
    ensures stop == Meeting ==> r.ahead >= 0 && r.behind >= 0
    ensures SideInv(start, 0, states0, dist, maxSteps, deq0, enqueuedFromStart)
    ensures SideInv(target, 1, states1, dist, maxSteps, deq1, enqueuedFromTarget)
    ensures DistancesSound(graph, start, target, dist)
    ensures r.commitsVisited == deq0 + deq1
    ensures (r.ahead == -1 && r.behind == -1)
         || (r.ahead >= 0 && r.behind >= 0 && r.commitsVisited >= 1 &&
             exists c :: c in dist && dist[c] == Distances(r.ahead, r.behind))
  {
    dist, deq0, deq1, enqueuedFromStart, enqueuedFromTarget := dist0, 0, 0, enq0, enq1;
    ghost var target' := Search(graph, dist0, states0.State(), states1.State(), 0, 0, false);
    var commitsVisited := 0;
    var madeProgress := true;
    while madeProgress
      invariant Search(graph, dist, states0.State(), states1.State(), commitsVisited, 2, madeProgress) == target'
      invariant SideInv(start, 0, states0, dist, maxSteps, deq0, enqueuedFromStart)
      invariant SideInv(target, 1, states1, dist, maxSteps, deq1, enqueuedFromTarget)
      invariant DistancesSound(graph, start, target, dist)
      invariant commitsVisited == deq0 + deq1 <= 2 * Max0(maxSteps)
      decreases (if madeProgress then 1 else 0) + 2 * Max0(maxSteps) - commitsVisited
    {
      var done;
      done, r, dist, stop, madeProgress, commitsVisited, deq0, deq1, enqueuedFromStart, enqueuedFromTarget :=
        PlayRound(graph, start, target, maxSteps, states0, states1, dist, commitsVisited,
                  deq0, deq1, enqueuedFromStart, enqueuedFromTarget);
      if done {
        return;
      }
    }
    r, stop := DivergenceResult(-1, -1, commitsVisited), Exhausted;
  }

  /**
   * Seeding one side: the root gets a fresh entry with distance 0 on this
   * side and is queued. The source guards this on the entry being new,
   * which always holds here: the map starts empty and the roots differ.
   */
  method SeedRoot(q: BfsQueue, dist: DistanceMap, side: Side, root: CommitId) returns (dist': DistanceMap)
    requires q.Valid() && q.Contents == [] && root !in dist
    modifies q, q.queue
    ensures q.Valid() && q.State() == QueueState([BfsNode(root, 0)], old(q.stepsRemaining))
    ensures dist' == dist[root := Distances(Unreached, Unreached).Set(side, 0)]
  {
    var created := GetOrCreateEntry(dist, root);
    assert created.1;
    dist' := created.0[root := created.0[root].Set(side, 0)];
    q.Enqueue(BfsNode(root, 0));
  }

  /** Both roots seeded at distance 0 on their own side; seeding costs no budget. */
  method SeedRoots(graph: CommitGraph, start: CommitId, target: CommitId, maxSteps: int)
    returns (states0: BfsQueue, states1: BfsQueue, dist: DistanceMap)
    requires start != target
    ensures fresh(states0) && fresh(states0.queue) && fresh(states1) && fresh(states1.queue)
    ensures states0 != states1 && states0.queue != states1.queue
    ensures states0.State() == QueueState([BfsNode(start, 0)], maxSteps)
    ensures states1.State() == QueueState([BfsNode(target, 0)], maxSteps)
    ensures dist == SeedMap(start, target)
    ensures SideInv(start, 0, states0, dist, maxSteps, 0, [start])
    ensures SideInv(target, 1, states1, dist, maxSteps, 0, [target])
    ensures DistancesSound(graph, start, target, dist)
  {
    states0 := new BfsQueue(maxSteps);
    states1 := new BfsQueue(maxSteps);
    dist := SeedRoot(states0, map[], 0, start);
    dist := SeedRoot(states1, dist, 1, target);
    assert HasPath(graph, start, start, 0) && HasPath(graph, target, target, 0);
  }

  /**
   * bfs_find_divergence. When start == target the answer is {0, 0, 0} with
   * no search. Otherwise ahead and behind are -1 together (no meeting point
   * within budget, or a queue overflowed) or both non-negative, and then
   * they are the distances of one commit from start and from target along
   * parent links. The visit count is reported in every case and is bounded
   * by twice the per-side budget. The ghost outputs list each side's
   * enqueued commits: at most 1 + budget, no commit twice, all ancestors of
   * that side's root.
   */
  method FindDivergence(graph: CommitGraph, start: CommitId, target: CommitId, maxSteps: int)
    returns (r: DivergenceResult, ghost enqueuedFromStart: seq<CommitId>, ghost enqueuedFromTarget: seq<CommitId>)
    ensures start == target ==> r == DivergenceResult(0, 0, 0)
    ensures (r.ahead == -1 && r.behind == -1) || (r.ahead >= 0 && r.behind >= 0)
    ensures r.ahead >= 0 && r.behind >= 0 ==>
              exists c :: HasPath(graph, start, c, r.ahead) && HasPath(graph, target, c, r.behind)
    ensures 0 <= r.commitsVisited <= 2 * Max0(maxSteps)
    ensures start != target && r.ahead >= 0 ==> r.commitsVisited >= 1
    ensures start != target ==>
              && |enqueuedFromStart| >= 1 && enqueuedFromStart[0] == start
              && |enqueuedFromTarget| >= 1 && enqueuedFromTarget[0] == target
    ensures |enqueuedFromStart| <= 1 + Max0(maxSteps) && |enqueuedFromTarget| <= 1 + Max0(maxSteps)
    ensures Distinct(enqueuedFromStart) && Distinct(enqueuedFromTarget)
    ensures r.commitsVisited <= |enqueuedFromStart| + |enqueuedFromTarget|
    ensures forall c :: c in enqueuedFromStart ==> Reaches(graph, start, c)
    ensures forall c :: c in enqueuedFromTarget ==> Reaches(graph, target, c)
    ensures r == DivergenceOf(graph, start, target, maxSteps)
    ensures start != target && r.ahead == -1 ==>
              var e := SearchFrom(graph, start, target, maxSteps);
              (e.stop == QueueFull && (Full(e.q0) || Full(e.q1)))
              || (e.stop == Exhausted && Stalled(e.q0) && Stalled(e.q1))
    ensures (start != target && maxSteps >= 1 && target in Parents(graph, start)
             && |Parents(graph, start)| < QueueSize) ==> r == DivergenceResult(1, 0, 1)
  {
    if start == target {
      assert HasPath(graph, start, start, 0);
      return DivergenceResult(0, 0, 0), [], [];
    }

    var states0, states1, dist := SeedRoots(graph, start, target, maxSteps);
    var finalDist;
    ghost var stop, deq0, deq1;
    r, finalDist, stop, deq0, deq1, enqueuedFromStart, enqueuedFromTarget :=
      Interleave(graph, start, target, maxSteps, states0, states1, dist, [start], [target]);
    SearchStops(graph, SeedMap(start, target), QueueState([BfsNode(start, 0)], maxSteps),
                QueueState([BfsNode(target, 0)], maxSteps), 0, 0, false);
    if maxSteps >= 1 && target in Parents(graph, start) && |Parents(graph, start)| < QueueSize {
      ParentIsOneAhead(graph, start, target, maxSteps);
    }
    Conclude(graph, start, target, maxSteps, states0, states1, finalDist, deq0, deq1,
             enqueuedFromStart, enqueuedFromTarget, r);
  }
}

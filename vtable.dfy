/**
 * tools/analyze-vtable-impact.py: finds the functions whose address is
 * taken in the C sources (`&name`), the text symbols of the binary with
 * their sizes, the call graph, and for every such function that `main`
 * does not already reach, how many functions and bytes hang off it alone,
 * ranked by bytes.
 *
 * The outputs of grep, nm and objdump are inputs, given as their lines.
 */
module VtableImpact {
  import opened Wrappers
  import opened PyText

  // ----- call graph and reachability -----

  /** function -> the functions it calls. */
  type CallGraph = map<string, set<string>>

  /** call_graph.get(f, set()): a function absent from the graph calls nothing. */
  function Callees(graph: CallGraph, f: string): set<string>
  {
    if f in graph then graph[f] else {}
  }

  /** A chain of calls starting at `root`. */
  ghost predicate IsCallChain(graph: CallGraph, root: string, chain: seq<string>)
  {
    |chain| > 0 && chain[0] == root
    && forall i :: 0 <= i < |chain| - 1 ==> chain[i + 1] in Callees(graph, chain[i])
  }

  ghost predicate Reaches(graph: CallGraph, root: string, f: string)
  {
    exists chain :: IsCallChain(graph, root, chain) && chain[|chain| - 1] == f
  }

  /** Every function that can be reached at all: the root and every callee in the graph. */
  function Universe(graph: CallGraph, root: string): set<string>
  {
    {root} + (set k, c | k in graph && c in graph[k] :: c)
  }

  /** The functions reachable from `root`, as a set. */
  ghost function ReachableSet(graph: CallGraph, root: string): set<string>
  {
    set f | f in Universe(graph, root) && Reaches(graph, root, f)
  }

  /** A set that holds the root and every callee of its members. */
  ghost predicate ClosedFrom(graph: CallGraph, root: string, s: set<string>)
  {
    root in s && forall f, c :: f in s && c in Callees(graph, f) ==> c in s
  }

  lemma ReachesRoot(graph: CallGraph, root: string)
    ensures Reaches(graph, root, root)
  {
    assert IsCallChain(graph, root, [root]);
  }

  lemma ReachesStep(graph: CallGraph, root: string, f: string, c: string)
    requires Reaches(graph, root, f) && c in Callees(graph, f)
    ensures Reaches(graph, root, c)
  {
    var chain :| IsCallChain(graph, root, chain) && chain[|chain| - 1] == f;
    assert IsCallChain(graph, root, chain + [c]);
  }

  /** A set closed under calls from the root holds every function the root reaches. */
  lemma {:induction false} ClosedHoldsReachable(graph: CallGraph, root: string, s: set<string>, f: string)
    requires ClosedFrom(graph, root, s) && Reaches(graph, root, f)
    ensures f in s
  {
    var chain :| IsCallChain(graph, root, chain) && chain[|chain| - 1] == f;
    var i := 0;
    while i < |chain| - 1
      invariant 0 <= i <= |chain| - 1
      invariant chain[i] in s
    {
      assert chain[i + 1] in Callees(graph, chain[i]);
      i := i + 1;
    }
  }

  lemma ReachableInUniverse(graph: CallGraph, root: string, f: string)
    requires Reaches(graph, root, f)
    ensures f in Universe(graph, root)
  {
    var chain :| IsCallChain(graph, root, chain) && chain[|chain| - 1] == f;
    if |chain| > 1 {
      var k := chain[|chain| - 2];
      assert f in Callees(graph, k);
      assert k in graph;
    }
  }

  /** Every queued function is reachable from the root. */
  ghost predicate QueueReachable(graph: CallGraph, root: string, queue: seq<string>)
  {
    forall q :: q in queue ==> q in Universe(graph, root) && Reaches(graph, root, q)
  }

  /** Every visited function is reachable from the root. */
  ghost predicate AllReach(graph: CallGraph, root: string, s: set<string>)
  {
    forall f :: f in s ==> Reaches(graph, root, f)
  }

  /** Callees of a visited function are visited or still queued. */
  ghost predicate Frontier(graph: CallGraph, reachable: set<string>, queue: seq<string>)
  {
    forall f, c :: f in reachable && c in Callees(graph, f) ==> c in reachable || c in queue
  }

  /** Popping a function already visited keeps the frontier. */
  lemma FrontierSkip(graph: CallGraph, reachable: set<string>, queue: seq<string>)
    requires |queue| > 0 && queue[0] in reachable && Frontier(graph, reachable, queue)
    ensures Frontier(graph, reachable, queue[1..])
  {
    forall f, c | f in reachable && c in Callees(graph, f)
      ensures c in reachable || c in queue[1..]
    {
      if c !in reachable {
        assert c in queue && c != queue[0];
      }
    }
  }

  /** Visiting the popped function and queueing its callees keeps the frontier. */
  lemma FrontierVisit(graph: CallGraph, reachable: set<string>, queue: seq<string>, queue': seq<string>)
    requires |queue| > 0 && Frontier(graph, reachable, queue)
    requires forall q :: q in queue[1..] ==> q in queue'
    requires forall c :: c in Callees(graph, queue[0]) ==> c in reachable + {queue[0]} || c in queue'
    ensures Frontier(graph, reachable + {queue[0]}, queue')
  {
    forall f, c | f in reachable + {queue[0]} && c in Callees(graph, f)
      ensures c in reachable + {queue[0]} || c in queue'
    {
      if f != queue[0] && c !in reachable && c != queue[0] {
        assert c in queue[1..];
      }
    }
  }

  /**
   * The inner loop of calculate_reachable_from: every callee of `current`
   * not yet visited is appended to the queue, in the set's order.
   */
  method EnqueueCallees(graph: CallGraph, ghost root: string, current: string,
                        reachable: set<string>, queue: seq<string>)
    returns (queue': seq<string>)
    requires Reaches(graph, root, current) && QueueReachable(graph, root, queue)
    ensures QueueReachable(graph, root, queue')
    ensures forall q :: q in queue ==> q in queue'
    ensures forall c :: c in Callees(graph, current) ==> c in reachable || c in queue'
  {
    queue' := queue;
    var rest := Callees(graph, current);
    while rest != {}
      invariant rest <= Callees(graph, current)
      invariant QueueReachable(graph, root, queue')
      invariant forall q :: q in queue ==> q in queue'
      invariant forall c :: c in Callees(graph, current) ==> c in reachable || c in queue' || c in rest
      decreases |rest|
    {
      var called :| called in rest;
      if called !in reachable {
        ReachesStep(graph, root, current, called);
        ReachableInUniverse(graph, root, called);
        queue' := queue' + [called];
      }
      rest := rest - {called};
    }
  }

  /** What the walk keeps between two pops of the queue. */
  ghost predicate WalkInv(graph: CallGraph, root: string, reachable: set<string>, queue: seq<string>)
  {
    && reachable <= Universe(graph, root)
    && QueueReachable(graph, root, queue)
    && AllReach(graph, root, reachable)
    && (root in reachable || root in queue)
    && Frontier(graph, reachable, queue)
  }

  /** One pass of the walk's loop: pop, skip if visited, else visit and queue the callees. */
  method VisitNext(graph: CallGraph, ghost root: string, reachable: set<string>, queue: seq<string>)
    returns (reachable': set<string>, queue': seq<string>)
    requires |queue| > 0 && WalkInv(graph, root, reachable, queue)
    ensures WalkInv(graph, root, reachable', queue')
    ensures (reachable' == reachable && |queue'| < |queue|)
            || |Universe(graph, root) - reachable'| < |Universe(graph, root) - reachable|
  {
    var current := queue[0];
    if current in reachable {
      FrontierSkip(graph, reachable, queue);
      return reachable, queue[1..];
    }
    ghost var universe := Universe(graph, root);
    assert universe - (reachable + {current}) < universe - reachable;
    queue' := EnqueueCallees(graph, root, current, reachable + {current}, queue[1..]);
    FrontierVisit(graph, reachable, queue, queue');
    reachable' := reachable + {current};
  }

  /**
   * calculate_reachable_from: a breadth-first walk from `root` with a queue
   * that may hold a function twice and a set of functions already visited.
   * The result is exactly the set of functions reachable from the root by
   * calls, root included, and is closed under calls.
   */
  method CalculateReachableFrom(root: string, graph: CallGraph) returns (reachable: set<string>)
    ensures forall f :: f in reachable <==> Reaches(graph, root, f)
    ensures ClosedFrom(graph, root, reachable)
  {
    reachable := {};
    var queue := [root];
    ReachesRoot(graph, root);
    while |queue| > 0
      invariant WalkInv(graph, root, reachable, queue)
      decreases |Universe(graph, root) - reachable|, |queue|
    {
      reachable, queue := VisitNext(graph, root, reachable, queue);
    }
    assert ClosedFrom(graph, root, reachable);
    ClosedIsReachableSet(graph, root, reachable);
  }

  /** A closed set of reachable functions is the set of all reachable functions. */
  lemma ClosedIsReachableSet(graph: CallGraph, root: string, s: set<string>)
    requires ClosedFrom(graph, root, s)
    requires AllReach(graph, root, s)
    ensures forall f :: f in s <==> Reaches(graph, root, f)
  {
    forall f | Reaches(graph, root, f)
      ensures f in s
    {
      ClosedHoldsReachable(graph, root, s, f);
    }
  }

  // ----- nm: text symbols and their sizes -----

  /** The length of the run of non-whitespace at the head of `s`. */
  function TokenLength(s: string): (n: nat)
    ensures n <= |s|
    ensures forall j :: 0 <= j < n ==> !IsSpace(s[j])
    ensures n == |s| || IsSpace(s[n])
  {
    if |s| > 0 && !IsSpace(s[0]) then 1 + TokenLength(s[1..]) else 0
  }

  /** str.split() with no separator: the maximal runs of non-whitespace. */
  function SplitWs(s: string): (parts: seq<string>)
    ensures forall i :: 0 <= i < |parts| ==> |parts[i]| > 0
    ensures forall i, j :: 0 <= i < |parts| && 0 <= j < |parts[i]| ==> !IsSpace(parts[i][j])
    decreases |s|
  {
    if |s| == 0 then []
    else if IsSpace(s[0]) then SplitWs(s[1..])
    else [s[..TokenLength(s)]] + SplitWs(s[TokenLength(s)..])
  }

  /** The fields joined by single spaces. */
  function JoinSpaced(parts: seq<string>): string
  {
    if |parts| == 0 then "" else if |parts| == 1 then parts[0] else parts[0] + " " + JoinSpaced(parts[1..])
  }

  predicate IsHexDigit(c: char)
  {
    '0' <= c <= '9' || 'a' <= c <= 'f' || 'A' <= c <= 'F'
  }

  function HexValue(c: char): (v: nat)
    requires IsHexDigit(c)
    ensures v < 16
  {
    if '0' <= c <= '9' then c as int - '0' as int
    else if 'a' <= c <= 'f' then c as int - 'a' as int + 10
    else c as int - 'A' as int + 10
  }

  /** The value of a run of hex digits, most significant first. */
  function HexDigitsValue(s: string): nat
    requires forall i :: 0 <= i < |s| ==> IsHexDigit(s[i])
  {
    if |s| == 0 then 0 else 16 * HexDigitsValue(s[..|s| - 1]) + HexValue(s[|s| - 1])
  }

  /** int(s, 16): an optional sign, an optional 0x or 0X, then hex digits. */
  function ParseHex(s: string): Option<int>
  {
    var neg := |s| > 0 && s[0] == '-';
    var t := if |s| > 0 && (s[0] == '-' || s[0] == '+') then s[1..] else s;
    var u := if |t| >= 2 && t[0] == '0' && (t[1] == 'x' || t[1] == 'X') then t[2..] else t;
    if |u| > 0 && forall i :: 0 <= i < |u| ==> IsHexDigit(u[i]) then
      Some(if neg then -(HexDigitsValue(u) as int) else HexDigitsValue(u) as int)
    else None
  }

  predicate IsTextType(t: string)
  {
    t == "T" || t == "t"
  }

  /**
   * One line of `nm -S --defined-only`: "address size type name" with a
   * text type gives the name and the parsed size (nothing when the size
   * does not parse); "address type name" with a text type gives size 1;
   * anything else is ignored.
   */
  function NmSymbol(line: string): Option<(string, int)>
  {
    NmFields(SplitWs(line))
  }

  /** The decision on the whitespace-separated fields of one line. */
  function NmFields(parts: seq<string>): Option<(string, int)>
  {
    if |parts| >= 4 && IsTextType(parts[2]) then
      match ParseHex(parts[1])
      case None => None
      case Some(size) => Some((parts[3], size))
    else if |parts| == 3 && IsTextType(parts[1]) then Some((parts[2], 1))
    else None
  }

  /** The symbol table after the first `n` lines: a later line overwrites an earlier name. */
  function SymbolsOf(lines: seq<string>): map<string, int>
  {
    if |lines| == 0 then map[]
    else match NmSymbol(lines[|lines| - 1])
      case None => SymbolsOf(lines[..|lines| - 1])
      case Some(sym) => SymbolsOf(lines[..|lines| - 1])[sym.0 := sym.1]
  }

  /** get_all_symbols: fills the table line by line. */
  method GetAllSymbols(lines: seq<string>) returns (symbols: map<string, int>)
    ensures symbols == SymbolsOf(lines)
  {
    symbols := map[];
    for i := 0 to |lines|
      invariant symbols == SymbolsOf(lines[..i])
    {
      assert lines[..i + 1][..i] == lines[..i];
      var parts := SplitWs(lines[i]);
      if |parts| >= 4 && (parts[2] == "T" || parts[2] == "t") {
        var size := ParseHex(parts[1]);
        if size.Some? {
          symbols := symbols[parts[3] := size.value];
        }
      } else if |parts| == 3 && (parts[1] == "T" || parts[1] == "t") {
        symbols := symbols[parts[2] := 1];
      }
    }
    assert lines[..|lines|] == lines;
  }

  /** A field of nm's output: non-empty, no whitespace. */
  predicate IsField(p: string)
  {
    |p| > 0 && forall j :: 0 <= j < |p| ==> !IsSpace(p[j])
  }

  lemma {:induction false} TokenOf(p: string, x: string)
    requires IsField(p) && (|x| == 0 || IsSpace(x[0]))
    ensures TokenLength(p + x) == |p|
    decreases |p|
  {
    if |p| > 1 {
      assert (p + x)[1..] == p[1..] + x;
      TokenOf(p[1..], x);
    } else {
      assert (p + x)[1..] == x;
    }
  }

  /** Splitting fields joined by spaces gives back the fields. */
  lemma {:induction false} SplitJoin(parts: seq<string>)
    requires forall i :: 0 <= i < |parts| ==> IsField(parts[i])
    ensures SplitWs(JoinSpaced(parts)) == parts
  {
    if |parts| == 1 {
      TokenOf(parts[0], "");
      assert parts[0] + "" == parts[0];
      assert parts[0][|parts[0]|..] == "";
    } else if |parts| > 1 {
      var s := JoinSpaced(parts);
      var tail := " " + JoinSpaced(parts[1..]);
      assert s == parts[0] + tail;
      TokenOf(parts[0], tail);
      assert s[..|parts[0]|] == parts[0];
      assert s[|parts[0]|..] == tail;
      assert tail[1..] == JoinSpaced(parts[1..]);
      SplitJoin(parts[1..]);
    }
  }

  /** A sized text symbol line gives its name and its size in hex. */
  lemma NmSizedLine(address: string, size: string, kind: string, name: string, value: int)
    requires IsField(address) && IsField(size) && IsField(name) && IsTextType(kind)
    requires ParseHex(size) == Some(value)
    ensures NmSymbol(JoinSpaced([address, size, kind, name])) == Some((name, value))
  {
    SplitJoin([address, size, kind, name]);
  }

  /** Plain hex digits parse to their value. */
  lemma ParseHexDigits(size: string)
    requires |size| > 0 && forall i :: 0 <= i < |size| ==> IsHexDigit(size[i])
    ensures ParseHex(size) == Some(HexDigitsValue(size) as int)
  {
  }

  /** A text symbol line without a size gives its name with size 1. */
  lemma NmUnsizedLine(address: string, kind: string, name: string)
    requires IsField(address) && IsField(name) && IsTextType(kind)
    ensures NmSymbol(JoinSpaced([address, kind, name])) == Some((name, 1))
  {
    SplitJoin([address, kind, name]);
  }

  /** A data symbol, of either shape, is ignored. */
  lemma NmDataLine(address: string, size: string, kind: string, name: string)
    requires IsField(address) && IsField(size) && IsField(name) && IsField(kind) && !IsTextType(kind)
    ensures NmSymbol(JoinSpaced([address, size, kind, name])) == None
    ensures NmSymbol(JoinSpaced([address, kind, name])) == None
  {
    SplitJoin([address, size, kind, name]);
    SplitJoin([address, kind, name]);
  }

  /** Some line gives `name`. */
  predicate Gives(lines: seq<string>, name: string)
  {
    exists i :: 0 <= i < |lines| && NmSymbol(lines[i]).Some? && NmSymbol(lines[i]).value.0 == name
  }

  /** Line `i` gives `name` with `size`, and no later line gives `name`. */
  predicate LastGives(lines: seq<string>, i: int, name: string, size: int)
  {
    0 <= i < |lines| && NmSymbol(lines[i]) == Some((name, size))
    && forall j :: i < j < |lines| && NmSymbol(lines[j]).Some? ==> NmSymbol(lines[j]).value.0 != name
  }

  lemma GivesInit(lines: seq<string>, name: string)
    requires |lines| > 0
    ensures Gives(lines, name) <==>
            Gives(lines[..|lines| - 1], name)
            || (NmSymbol(lines[|lines| - 1]).Some? && NmSymbol(lines[|lines| - 1]).value.0 == name)
  {
    var init := lines[..|lines| - 1];
    if Gives(init, name) {
      var i :| 0 <= i < |init| && NmSymbol(init[i]).Some? && NmSymbol(init[i]).value.0 == name;
      assert lines[i] == init[i];
    }
    if Gives(lines, name) {
      var i :| 0 <= i < |lines| && NmSymbol(lines[i]).Some? && NmSymbol(lines[i]).value.0 == name;
      if i < |lines| - 1 {
        assert init[i] == lines[i];
      }
    }
  }

  /** The symbol table holds exactly the names some line gives. */
  lemma {:induction false} SymbolsOfNames(lines: seq<string>, name: string)
    ensures name in SymbolsOf(lines) <==> Gives(lines, name)
  {
    if |lines| > 0 {
      SymbolsOfNames(lines[..|lines| - 1], name);
      GivesInit(lines, name);
    }
  }

  /** Each name carries the size from the last line that gives it: a later duplicate wins. */
  lemma {:induction false} SymbolsOfLast(lines: seq<string>, name: string)
    requires name in SymbolsOf(lines)
    ensures exists i :: LastGives(lines, i, name, SymbolsOf(lines)[name])
  {
    var last := |lines| - 1;
    var init := lines[..last];
    if NmSymbol(lines[last]).Some? && NmSymbol(lines[last]).value.0 == name {
      assert LastGives(lines, last, name, SymbolsOf(lines)[name]);
    } else {
      SymbolsOfLast(init, name);
      var i :| LastGives(init, i, name, SymbolsOf(init)[name]);
      assert lines[i] == init[i];
      forall j | i < j < |lines| && NmSymbol(lines[j]).Some?
        ensures NmSymbol(lines[j]).value.0 != name
      {
        if j < last {
          assert lines[j] == init[j];
        }
      }
      assert LastGives(lines, i, name, SymbolsOf(lines)[name]);
    }
  }

  // ----- grep: functions whose address is taken -----

  /** The first index of `c` in `s`. */
  function IndexOf(s: string, c: char): (r: Option<nat>)
    ensures r.Some? ==> r.value < |s| && s[r.value] == c && forall j :: 0 <= j < r.value ==> s[j] != c
    ensures r.None? ==> forall j :: 0 <= j < |s| ==> s[j] != c
  {
    if |s| == 0 then None
    else if s[0] == c then Some(0)
    else match IndexOf(s[1..], c)
      case None => None
      case Some(i) => Some(i + 1)
  }

  /** line.split(':', 2): cut at the first two colons only. */
  function SplitColons2(line: string): seq<string>
  {
    match IndexOf(line, ':')
    case None => [line]
    case Some(i) =>
      match IndexOf(line[i + 1..], ':')
      case None => [line[..i], line[i + 1..]]
      case Some(j) => [line[..i], line[i + 1..i + 1 + j], line[i + 2 + j..]]
  }

  predicate IsIdentStart(c: char)
  {
    'a' <= c <= 'z' || 'A' <= c <= 'Z' || c == '_'
  }

  predicate IsIdentChar(c: char)
  {
    IsIdentStart(c) || '0' <= c <= '9'
  }

  /** What the group `[a-zA-Z_][a-zA-Z0-9_]+` captures: two characters or more. */
  predicate IsPointerName(name: string)
  {
    |name| >= 2 && IsIdentStart(name[0]) && forall j :: 0 <= j < |name| ==> IsIdentChar(name[j])
  }

  /** The length of the run of identifier characters at the head of `s`. */
  function IdentRun(s: string): (n: nat)
    ensures n <= |s|
    ensures forall j :: 0 <= j < n ==> IsIdentChar(s[j])
    ensures n == |s| || !IsIdentChar(s[n])
  {
    if |s| > 0 && IsIdentChar(s[0]) then 1 + IdentRun(s[1..]) else 0
  }

  /**
   * re.finditer(r'&([a-zA-Z_][a-zA-Z0-9_]+)', content): the names after
   * '&', each as long as it runs, scanning on after each match.
   */
  function AmpNames(s: string): (names: seq<string>)
    ensures forall i :: 0 <= i < |names| ==> IsPointerName(names[i])
    decreases |s|
  {
    if |s| < 3 then []
    else if s[0] == '&' && IsIdentStart(s[1]) && IsIdentChar(s[2]) then
      var n := 1 + IdentRun(s[1..]);
      [s[1..n]] + AmpNames(s[n..])
    else AmpNames(s[1..])
  }

  /** str.isupper() on an identifier: some capital letter and no small one. */
  predicate IsUpper(name: string)
  {
    (exists j :: 0 <= j < |name| && 'A' <= name[j] <= 'Z')
    && !(exists j :: 0 <= j < |name| && 'a' <= name[j] <= 'z')
  }

  predicate IsDigit(c: char)
  {
    '0' <= c <= '9'
  }

  function DigitsValue(s: string): nat
    requires forall i :: 0 <= i < |s| ==> IsDigit(s[i])
  {
    if |s| == 0 then 0 else 10 * DigitsValue(s[..|s| - 1]) + DigitValue(s[|s| - 1])
  }

  function DigitValue(c: char): (v: nat)
    requires IsDigit(c)
    ensures v < 10
  {
    c as int - '0' as int
  }

  /** int(s): an optional sign and decimal digits; anything else raises. */
  function ParseInt(s: string): Option<int>
  {
    var neg := |s| > 0 && s[0] == '-';
    var t := if |s| > 0 && (s[0] == '-' || s[0] == '+') then s[1..] else s;
    if |t| > 0 && forall i :: 0 <= i < |t| ==> IsDigit(t[i]) then
      Some(if neg then -(DigitsValue(t) as int) else DigitsValue(t) as int)
    else None
  }

  /** One reference: the file grep names and the line number. */
  datatype Ref = Ref(file: string, line: int)

  /** One entry of function_refs, a dict that keeps the order names first appear in. */
  datatype RefEntry = RefEntry(name: string, refs: seq<Ref>)

  /** function_refs[name].append(r) on a defaultdict(list). */
  function AddRef(entries: seq<RefEntry>, name: string, r: Ref): seq<RefEntry>
  {
    if |entries| == 0 then [RefEntry(name, [r])]
    else if entries[0].name == name then [entries[0].(refs := entries[0].refs + [r])] + entries[1..]
    else [entries[0]] + AddRef(entries[1..], name, r)
  }

  /**
   * The names of one grep line processed in order: a name that is all
   * capitals is skipped, any other is recorded with the file and the line
   * number, whose int() conversion raises (None) if it is not a number.
   */
  function AddNames(entries: seq<RefEntry>, names: seq<string>, file: string, lineNum: string): Option<seq<RefEntry>>
  {
    if |names| == 0 then Some(entries)
    else match AddNames(entries, names[..|names| - 1], file, lineNum)
      case None => None
      case Some(es) =>
        var name := names[|names| - 1];
        if IsUpper(name) then Some(es)
        else match ParseInt(lineNum)
          case None => None
          case Some(n) => Some(AddRef(es, name, Ref(file, n)))
  }

  /** One line of grep's "file:line:content" output; other lines are skipped. */
  function LineRefs(entries: seq<RefEntry>, line: string): Option<seq<RefEntry>>
  {
    if |line| == 0 then Some(entries)
    else
      var parts := SplitColons2(line);
      if |parts| < 3 then Some(entries)
      else AddNames(entries, AmpNames(parts[2]), parts[0], parts[1])
  }

  /** function_refs after the grep lines, or None if a line number did not convert. */
  function PointerRefs(lines: seq<string>): Option<seq<RefEntry>>
  {
    if |lines| == 0 then Some([])
    else match PointerRefs(lines[..|lines| - 1])
      case None => None
      case Some(es) => LineRefs(es, lines[|lines| - 1])
  }

  /** The names of one grep line, added in order (the inner loop of find_function_pointers). */
  method ScanLine(entries: seq<RefEntry>, line: string) returns (r: Option<seq<RefEntry>>)
    ensures r == LineRefs(entries, line)
  {
    if |line| == 0 {
      return Some(entries);
    }
    var parts := SplitColons2(line);
    if |parts| < 3 {
      return Some(entries);
    }
    var file, lineNum, content := parts[0], parts[1], parts[2];
    var names := AmpNames(content);
    var functionRefs := entries;
    for k := 0 to |names|
      invariant AddNames(entries, names[..k], file, lineNum) == Some(functionRefs)
    {
      assert names[..k + 1][..k] == names[..k];
      var funcName := names[k];
      if !IsUpper(funcName) {
        var n := ParseInt(lineNum);
        if n.None? {
          AddNamesSticks(entries, names, file, lineNum, k + 1);
          return None;
        }
        functionRefs := AddRef(functionRefs, funcName, Ref(file, n.value));
      }
    }
    assert names[..|names|] == names;
    return Some(functionRefs);
  }

  /**
   * find_function_pointers: every `&name` of every grep line, in order,
   * recorded under its name with its file and line number; None where a
   * line number does not convert and int() raises.
   */
  method FindFunctionPointers(lines: seq<string>) returns (refs: Option<seq<RefEntry>>)
    ensures refs == PointerRefs(lines)
  {
    var functionRefs := [];
    for i := 0 to |lines|
      invariant PointerRefs(lines[..i]) == Some(functionRefs)
    {
      assert lines[..i + 1][..i] == lines[..i];
      var r := ScanLine(functionRefs, lines[i]);
      if r.None? {
        PointerRefsSticks(lines, i + 1);
        return None;
      }
      functionRefs := r.value;
    }
    assert lines[..|lines|] == lines;
    return Some(functionRefs);
  }

  lemma {:induction false} AddNamesSticks(entries: seq<RefEntry>, names: seq<string>, file: string,
                                          lineNum: string, k: nat)
    requires k <= |names| && AddNames(entries, names[..k], file, lineNum).None?
    ensures AddNames(entries, names, file, lineNum).None?
    decreases |names| - k
  {
    if k < |names| {
      assert names[..k + 1][..k] == names[..k];
      AddNamesSticks(entries, names, file, lineNum, k + 1);
    } else {
      assert names[..k] == names;
    }
  }

  lemma {:induction false} PointerRefsSticks(lines: seq<string>, k: nat)
    requires k <= |lines| && PointerRefs(lines[..k]).None?
    ensures PointerRefs(lines).None?
    decreases |lines| - k
  {
    if k < |lines| {
      assert lines[..k + 1][..k] == lines[..k];
      PointerRefsSticks(lines, k + 1);
    } else {
      assert lines[..k] == lines;
    }
  }

  /** function_refs.get(name) */
  function Lookup(entries: seq<RefEntry>, name: string): Option<seq<Ref>>
  {
    if |entries| == 0 then None
    else if entries[0].name == name then Some(entries[0].refs)
    else Lookup(entries[1..], name)
  }

  /** The shape of function_refs: one entry per name, each recorded with a reference. */
  predicate WellFormed(entries: seq<RefEntry>)
  {
    && (forall i, j :: 0 <= i < j < |entries| ==> entries[i].name != entries[j].name)
    && (forall i :: 0 <= i < |entries| ==> |entries[i].refs| > 0)
  }

  /** The names with an entry. */
  function Names(entries: seq<RefEntry>): set<string>
  {
    set i | 0 <= i < |entries| :: entries[i].name
  }

  lemma NamesCons(e: RefEntry, tail: seq<RefEntry>)
    ensures Names([e] + tail) == {e.name} + Names(tail)
  {
    var l := [e] + tail;
    forall x | x in Names(l) ensures x in {e.name} + Names(tail) {
      var i :| 0 <= i < |l| && l[i].name == x;
      if i > 0 { assert tail[i - 1].name == x; }
    }
    forall x | x in Names(tail) ensures x in Names(l) {
      var i :| 0 <= i < |tail| && tail[i].name == x;
      assert l[i + 1].name == x;
    }
    assert l[0].name == e.name;
  }

  /** Appending a reference adds the name, and only it. */
  lemma {:induction false} AddRefNames(entries: seq<RefEntry>, name: string, r: Ref)
    ensures Names(AddRef(entries, name, r)) == Names(entries) + {name}
  {
    if |entries| == 0 {
      NamesCons(RefEntry(name, [r]), []);
    } else if entries[0].name == name {
      assert entries == [entries[0]] + entries[1..];
      NamesCons(entries[0], entries[1..]);
      NamesCons(entries[0].(refs := entries[0].refs + [r]), entries[1..]);
    } else {
      AddRefNames(entries[1..], name, r);
      assert entries == [entries[0]] + entries[1..];
      NamesCons(entries[0], entries[1..]);
      NamesCons(entries[0], AddRef(entries[1..], name, r));
    }
  }

  /**
   * Appending a reference: the name's list grows by exactly that
   * reference (a new name gets a list of one) and every other name's list
   * is unchanged.
   */
  lemma {:induction false} AddRefLookup(entries: seq<RefEntry>, name: string, r: Ref, other: string)
    ensures Lookup(AddRef(entries, name, r), name)
            == Some((if Lookup(entries, name).Some? then Lookup(entries, name).value else []) + [r])
    ensures other != name ==> Lookup(AddRef(entries, name, r), other) == Lookup(entries, other)
  {
    if |entries| > 0 && entries[0].name == name {
      assert ([entries[0].(refs := entries[0].refs + [r])] + entries[1..])[1..] == entries[1..];
    } else if |entries| > 0 {
      AddRefLookup(entries[1..], name, r, other);
      var added := AddRef(entries, name, r);
      assert added[1..] == AddRef(entries[1..], name, r);
      assert Lookup(added, name) == Lookup(added[1..], name);
    } else {
      assert [] + [r] == [r];
    }
  }

  /** Appending a reference keeps one non-empty entry per name. */
  lemma {:induction false} AddRefWellFormed(entries: seq<RefEntry>, name: string, r: Ref)
    requires WellFormed(entries)
    ensures WellFormed(AddRef(entries, name, r))
  {
    if |entries| > 0 && entries[0].name != name {
      var tail := entries[1..];
      AddRefWellFormed(tail, name, r);
      AddRefNames(tail, name, r);
      var rest := AddRef(tail, name, r);
      var added := [entries[0]] + rest;
      forall j | 0 <= j < |tail|
        ensures tail[j].name != entries[0].name
      {
        assert tail[j] == entries[j + 1];
      }
      assert entries[0].name !in Names(tail);
      forall i, j | 0 <= i < j < |added|
        ensures added[i].name != added[j].name
      {
        if i == 0 {
          assert added[j].name == rest[j - 1].name;
          assert rest[j - 1].name in Names(rest);
        } else {
          assert added[i] == rest[i - 1] && added[j] == rest[j - 1];
        }
      }
      forall i | 0 <= i < |added|
        ensures |added[i].refs| > 0
      {
        if i > 0 {
          assert added[i] == rest[i - 1];
        }
      }
    }
  }

  /** One entry per name, each an identifier that is not all capitals, each with a reference. */
  predicate TableOk(entries: seq<RefEntry>)
  {
    WellFormed(entries) && forall n :: n in Names(entries) ==> IsPointerName(n) && !IsUpper(n)
  }

  lemma {:induction false} AddNamesOk(entries: seq<RefEntry>, names: seq<string>, file: string, lineNum: string)
    requires TableOk(entries) && forall i :: 0 <= i < |names| ==> IsPointerName(names[i])
    ensures AddNames(entries, names, file, lineNum).Some? ==> TableOk(AddNames(entries, names, file, lineNum).value)
    decreases |names|
  {
    if |names| > 0 {
      var init := names[..|names| - 1];
      AddNamesOk(entries, init, file, lineNum);
      var prev := AddNames(entries, init, file, lineNum);
      var name := names[|names| - 1];
      if prev.Some? && !IsUpper(name) && ParseInt(lineNum).Some? {
        AddRefWellFormed(prev.value, name, Ref(file, ParseInt(lineNum).value));
        AddRefNames(prev.value, name, Ref(file, ParseInt(lineNum).value));
      }
    }
  }

  /**
   * find_function_pointers yields a table with one entry per name, each
   * name an identifier of two characters or more that is not all capitals,
   * each with at least one reference.
   */
  lemma {:induction false} PointerRefsOk(lines: seq<string>)
    ensures PointerRefs(lines).Some? ==> TableOk(PointerRefs(lines).value)
  {
    if |lines| > 0 {
      PointerRefsOk(lines[..|lines| - 1]);
      var prev := PointerRefs(lines[..|lines| - 1]);
      var line := lines[|lines| - 1];
      if prev.Some? && |line| > 0 && |SplitColons2(line)| >= 3 {
        var parts := SplitColons2(line);
        AddNamesOk(prev.value, AmpNames(parts[2]), parts[0], parts[1]);
      }
    }
  }

  /** Names written as "&name " one after the other. */
  function JoinAmp(names: seq<string>): string
  {
    if |names| == 0 then "" else "&" + names[0] + " " + JoinAmp(names[1..])
  }

  lemma {:induction false} IdentRunOf(n: string, x: string)
    requires forall j :: 0 <= j < |n| ==> IsIdentChar(n[j])
    requires |x| == 0 || !IsIdentChar(x[0])
    ensures IdentRun(n + x) == |n|
    decreases |n|
  {
    if |n| > 0 {
      assert (n + x)[1..] == n[1..] + x;
      IdentRunOf(n[1..], x);
    } else {
      assert n + x == x;
    }
  }

  /** A name after '&' is captured whole, and the scan goes on right after it. */
  lemma AmpHead(n: string, tail: string)
    requires IsPointerName(n) && (|tail| == 0 || !IsIdentChar(tail[0]))
    ensures AmpNames("&" + n + tail) == [n] + AmpNames(tail)
  {
    var s := "&" + n + tail;
    assert s[1..] == n + tail;
    IdentRunOf(n, tail);
    assert s[1..1 + |n|] == n;
    assert s[1 + |n|..] == tail;
  }

  /** A character that is not '&' is stepped over. */
  lemma AmpSkip(c: char, rest: string)
    requires c != '&'
    ensures AmpNames([c] + rest) == AmpNames(rest)
  {
    if |[c] + rest| >= 3 {
      assert ([c] + rest)[1..] == rest;
    }
  }

  /** The `&name` references are found again, in order, in a line that holds them. */
  lemma {:induction false} AmpNamesJoin(names: seq<string>)
    requires forall i :: 0 <= i < |names| ==> IsPointerName(names[i])
    ensures AmpNames(JoinAmp(names)) == names
  {
    if |names| > 0 {
      var rest := JoinAmp(names[1..]);
      assert JoinAmp(names) == "&" + names[0] + (" " + rest);
      AmpHead(names[0], " " + rest);
      AmpSkip(' ', rest);
      assert " " + rest == [' '] + rest;
      AmpNamesJoin(names[1..]);
    }
  }

  /** A grep line splits into file, line number and the content, colons and all. */
  lemma GrepLineSplit(file: string, lineNum: string, content: string)
    requires forall j :: 0 <= j < |file| ==> file[j] != ':'
    requires forall j :: 0 <= j < |lineNum| ==> lineNum[j] != ':'
    ensures SplitColons2(file + ":" + lineNum + ":" + content) == [file, lineNum, content]
  {
    var line := file + ":" + lineNum + ":" + content;
    assert line[|file|] == ':';
    assert forall j :: 0 <= j < |file| ==> line[j] == file[j];
    var after := line[|file| + 1..];
    assert after == lineNum + ":" + content;
    assert after[|lineNum|] == ':';
    assert forall j :: 0 <= j < |lineNum| ==> after[j] == lineNum[j];
    assert line[..|file|] == file;
    assert after[..|lineNum|] == lineNum;
    assert line[|file| + 1..|file| + 1 + |lineNum|] == lineNum;
    assert line[|file| + 2 + |lineNum|..] == content;
  }

  // ----- objdump: the callees of one function -----

  function SpaceRun(s: string): (n: nat)
    ensures n <= |s| && (forall j :: 0 <= j < n ==> IsSpace(s[j])) && (n == |s| || !IsSpace(s[n]))
  {
    if |s| > 0 && IsSpace(s[0]) then 1 + SpaceRun(s[1..]) else 0
  }

  predicate IsLowerHex(c: char)
  {
    '0' <= c <= '9' || 'a' <= c <= 'f'
  }

  function LowerHexRun(s: string): (n: nat)
    ensures n <= |s| && (forall j :: 0 <= j < n ==> IsLowerHex(s[j])) && (n == |s| || !IsLowerHex(s[n]))
  {
    if |s| > 0 && IsLowerHex(s[0]) then 1 + LowerHexRun(s[1..]) else 0
  }

  predicate IsTargetChar(c: char)
  {
    c != '@' && c != '>'
  }

  function TargetRun(s: string): (n: nat)
    ensures n <= |s| && (forall j :: 0 <= j < n ==> IsTargetChar(s[j])) && (n == |s| || !IsTargetChar(s[n]))
  {
    if |s| > 0 && IsTargetChar(s[0]) then 1 + TargetRun(s[1..]) else 0
  }

  /**
   * r'callq?\s+[0-9a-f]+\s+<([^@>]+)' matched at the head of `s`: "call",
   * an optional "q", whitespace, a lower-case hex address, whitespace, '<'
   * and the callee, which runs up to '@', '>' or the end.
   */
  function MatchCallAt(s: string): Option<string>
  {
    if !("call" <= s) then None
    else
      var t := s[4..];
      MatchOperand(if |t| > 0 && t[0] == 'q' then t[1..] else t)
  }

  /** `\s+[0-9a-f]+` and what follows. */
  function MatchOperand(t: string): Option<string>
  {
    var w := SpaceRun(t);
    if w == 0 then None
    else
      var h := LowerHexRun(t[w..]);
      if h == 0 then None else MatchTarget(t[w..][h..])
  }

  /** `\s+<([^@>]+)` */
  function MatchTarget(t: string): Option<string>
  {
    var w := SpaceRun(t);
    if w == 0 || w == |t| || t[w] != '<' then None
    else
      var n := TargetRun(t[w + 1..]);
      if n == 0 then None else Some(t[w + 1..][..n])
  }

  /** re.search: the match at the leftmost position where there is one. */
  function CallTarget(line: string): Option<string>
    decreases |line|
  {
    if |line| == 0 then None
    else if MatchCallAt(line).Some? then MatchCallAt(line)
    else CallTarget(line[1..])
  }

  /**
   * The loop of get_calls_from_function over objdump's output: the callee
   * of every call line, kept when it is a known symbol and not the
   * function itself.
   */
  method GetCallsFromFunction(funcName: string, output: seq<string>, symbols: set<string>)
    returns (calls: set<string>)
    ensures forall c :: c in calls <==>
              c in symbols && c != funcName && exists i :: 0 <= i < |output| && CallTarget(output[i]) == Some(c)
  {
    calls := {};
    for i := 0 to |output|
      invariant forall c :: c in calls <==>
                  c in symbols && c != funcName && exists k :: 0 <= k < i && CallTarget(output[k]) == Some(c)
    {
      var m := CallTarget(output[i]);
      if m.Some? {
        var called := m.value;
        if called in symbols && called != funcName {
          calls := calls + {called};
        }
      }
    }
  }

  /** A hex address: lower-case hex digits only. */
  predicate IsAddress(a: string)
  {
    |a| > 0 && forall j :: 0 <= j < |a| ==> IsLowerHex(a[j])
  }

  /** A callee name as the capture group takes it: no '@' and no '>'. */
  predicate IsTarget(name: string)
  {
    |name| > 0 && forall j :: 0 <= j < |name| ==> IsTargetChar(name[j])
  }

  lemma TargetPart(name: string, suffix: string)
    requires IsTarget(name) && (suffix == ">" || suffix == "@plt>")
    ensures MatchTarget(" <" + name + suffix) == Some(name)
  {
    var t := " <" + name + suffix;
    assert SpaceRun(t) == 1;
    assert t[2..] == name + suffix;
    TargetRunOf(name, suffix);
    assert t[2..][..|name|] == name;
  }

  lemma OperandPart(address: string, name: string, suffix: string)
    requires IsAddress(address) && IsTarget(name) && (suffix == ">" || suffix == "@plt>")
    ensures MatchOperand(" " + address + " <" + name + suffix) == Some(name)
  {
    var t := " " + address + " <" + name + suffix;
    assert SpaceRun(t) == 1;
    assert t[1..] == address + (" <" + name + suffix);
    LowerHexRunOf(address, " <" + name + suffix);
    assert t[1..][|address|..] == " <" + name + suffix;
    TargetPart(name, suffix);
  }

  /**
   * A call instruction as objdump prints it gives its callee, whether the
   * mnemonic is "call" or "callq", and a suffix such as "@plt" is cut off.
   */
  lemma CallLine(q: bool, address: string, name: string, suffix: string)
    requires IsAddress(address) && IsTarget(name)
    requires suffix == ">" || suffix == "@plt>"
    ensures MatchCallAt("call" + (if q then "q" else "") + " " + address + " <" + name + suffix) == Some(name)
  {
    var rest := " " + address + " <" + name + suffix;
    var s := "call" + (if q then "q" else "") + " " + address + " <" + name + suffix;
    assert s == "call" + (if q then "q" else "") + rest;
    assert "call" <= s;
    assert (if q then s[5..] else s[4..]) == rest;
    OperandPart(address, name, suffix);
  }

  lemma {:induction false} LowerHexRunOf(a: string, x: string)
    requires forall j :: 0 <= j < |a| ==> IsLowerHex(a[j])
    requires |x| == 0 || !IsLowerHex(x[0])
    ensures LowerHexRun(a + x) == |a|
    decreases |a|
  {
    if |a| > 0 {
      assert (a + x)[1..] == a[1..] + x;
      LowerHexRunOf(a[1..], x);
    } else {
      assert a + x == x;
    }
  }

  lemma {:induction false} TargetRunOf(n: string, x: string)
    requires forall j :: 0 <= j < |n| ==> IsTargetChar(n[j])
    requires |x| == 0 || !IsTargetChar(x[0])
    ensures TargetRun(n + x) == |n|
    decreases |n|
  {
    if |n| > 0 {
      assert (n + x)[1..] == n[1..] + x;
      TargetRunOf(n[1..], x);
    } else {
      assert n + x == x;
    }
  }

  // ----- impact of each function pointer -----

  /** symbols_with_size.get(f, 0) */
  function SizeOf(sizes: map<string, int>, f: string): int
  {
    if f in sizes then sizes[f] else 0
  }

  /** The sum of the sizes of a set of functions, in no particular order. */
  ghost function SetSum(s: set<string>, sizes: map<string, int>): int
  {
    if s == {} then 0 else var f :| f in s; SizeOf(sizes, f) + SetSum(s - {f}, sizes)
  }

  /** Any member can be taken out first: the sum does not depend on the order. */
  lemma {:induction false} SetSumRemove(s: set<string>, f: string, sizes: map<string, int>)
    requires f in s
    ensures SetSum(s, sizes) == SizeOf(sizes, f) + SetSum(s - {f}, sizes)
    decreases |s|
  {
    var g :| g in s && SetSum(s, sizes) == SizeOf(sizes, g) + SetSum(s - {g}, sizes);
    if g != f {
      SetSumRemove(s - {g}, f, sizes);
      SetSumRemove(s - {f}, g, sizes);
      assert s - {g} - {f} == s - {f} - {g};
    }
  }

  /** sum(symbols_with_size.get(f, 0) for f in reachable) */
  method SumSizes(s: set<string>, sizes: map<string, int>) returns (total: int)
    ensures total == SetSum(s, sizes)
  {
    total := 0;
    var rest := s;
    while rest != {}
      invariant rest <= s
      invariant total + SetSum(rest, sizes) == SetSum(s, sizes)
      decreases |rest|
    {
      var f :| f in rest;
      SetSumRemove(rest, f, sizes);
      total := total + SizeOf(sizes, f);
      rest := rest - {f};
    }
  }

  /** One entry of the ranking. */
  datatype Impact = Impact(pointer: string, reachableCount: nat, totalBytes: int, references: seq<Ref>)

  predicate SortedByBytes(l: seq<Impact>)
  {
    forall i, j :: 0 <= i < j < |l| ==> l[i].totalBytes >= l[j].totalBytes
  }

  /** Insert after every entry of at least as many bytes. */
  function Insert(sorted: seq<Impact>, x: Impact): seq<Impact>
  {
    if |sorted| == 0 then [x]
    else if sorted[0].totalBytes >= x.totalBytes then [sorted[0]] + Insert(sorted[1..], x)
    else [x] + sorted
  }

  /**
   * impacts.sort(key=total_bytes, reverse=True): Python's sort is stable and
   * keeps that stability when reversing, so this is the stable sort by
   * non-increasing bytes.
   */
  function SortByBytes(l: seq<Impact>): seq<Impact>
  {
    if |l| == 0 then [] else Insert(SortByBytes(l[..|l| - 1]), l[|l| - 1])
  }

  /** The entries of exactly `bytes` bytes, in order. */
  function WithBytes(l: seq<Impact>, bytes: int): seq<Impact>
  {
    if |l| == 0 then []
    else (if l[0].totalBytes == bytes then [l[0]] else []) + WithBytes(l[1..], bytes)
  }

  lemma {:induction false} WithBytesAppend(a: seq<Impact>, b: seq<Impact>, bytes: int)
    ensures WithBytes(a + b, bytes) == WithBytes(a, bytes) + WithBytes(b, bytes)
  {
    if |a| > 0 {
      assert (a + b)[1..] == a[1..] + b;
      WithBytesAppend(a[1..], b, bytes);
    } else {
      assert a + b == b;
    }
  }

  lemma {:induction false} WithBytesNone(l: seq<Impact>, bytes: int)
    requires forall i :: 0 <= i < |l| ==> l[i].totalBytes < bytes
    ensures WithBytes(l, bytes) == []
  {
    if |l| > 0 {
      WithBytesNone(l[1..], bytes);
    }
  }

  lemma {:induction false} InsertPerm(sorted: seq<Impact>, x: Impact)
    ensures multiset(Insert(sorted, x)) == multiset(sorted) + multiset{x}
  {
    if |sorted| > 0 && sorted[0].totalBytes >= x.totalBytes {
      InsertPerm(sorted[1..], x);
      assert sorted == [sorted[0]] + sorted[1..];
    }
  }

  lemma {:induction false} InsertBounded(sorted: seq<Impact>, x: Impact, bound: int)
    requires x.totalBytes <= bound && forall i :: 0 <= i < |sorted| ==> sorted[i].totalBytes <= bound
    ensures forall i :: 0 <= i < |Insert(sorted, x)| ==> Insert(sorted, x)[i].totalBytes <= bound
  {
    if |sorted| > 0 && sorted[0].totalBytes >= x.totalBytes {
      InsertBounded(sorted[1..], x, bound);
      assert forall i :: 0 < i < |Insert(sorted, x)| ==> Insert(sorted, x)[i] == Insert(sorted[1..], x)[i - 1];
    }
  }

  lemma {:induction false} InsertSorted(sorted: seq<Impact>, x: Impact)
    requires SortedByBytes(sorted)
    ensures SortedByBytes(Insert(sorted, x))
  {
    if |sorted| > 0 && sorted[0].totalBytes >= x.totalBytes {
      var rest := Insert(sorted[1..], x);
      InsertSorted(sorted[1..], x);
      InsertBounded(sorted[1..], x, sorted[0].totalBytes);
      var l := [sorted[0]] + rest;
      forall i, j | 0 <= i < j < |l|
        ensures l[i].totalBytes >= l[j].totalBytes
      {
        if i > 0 {
          assert l[i] == rest[i - 1] && l[j] == rest[j - 1];
        }
      }
    } else if |sorted| > 0 {
      var l := [x] + sorted;
      forall i, j | 0 <= i < j < |l|
        ensures l[i].totalBytes >= l[j].totalBytes
      {
        if i > 0 {
          assert l[i] == sorted[i - 1] && l[j] == sorted[j - 1];
        } else {
          assert l[j] == sorted[j - 1];
        }
      }
    }
  }

  lemma {:induction false} InsertWithBytes(sorted: seq<Impact>, x: Impact, bytes: int)
    requires SortedByBytes(sorted)
    ensures WithBytes(Insert(sorted, x), bytes) == WithBytes(sorted, bytes) + (if x.totalBytes == bytes then [x] else [])
  {
    if |sorted| == 0 {
    } else if sorted[0].totalBytes >= x.totalBytes {
      var rest := Insert(sorted[1..], x);
      InsertWithBytes(sorted[1..], x, bytes);
      assert ([sorted[0]] + rest)[1..] == rest;
    } else {
      assert ([x] + sorted)[1..] == sorted;
      if x.totalBytes == bytes {
        WithBytesNone(sorted, bytes);
      }
    }
  }

  /**
   * The ranking is sorted by non-increasing bytes, is a permutation of the
   * list it ranks, and keeps entries of equal bytes in their original order.
   */
  lemma {:induction false} SortByBytesSorted(l: seq<Impact>)
    ensures SortedByBytes(SortByBytes(l))
  {
    if |l| > 0 {
      SortByBytesSorted(l[..|l| - 1]);
      InsertSorted(SortByBytes(l[..|l| - 1]), l[|l| - 1]);
    }
  }

  lemma {:induction false} SortByBytesPerm(l: seq<Impact>)
    ensures multiset(SortByBytes(l)) == multiset(l)
  {
    if |l| > 0 {
      var init := l[..|l| - 1];
      SortByBytesPerm(init);
      InsertPerm(SortByBytes(init), l[|l| - 1]);
      assert l == init + [l[|l| - 1]];
    }
  }

  lemma {:induction false} SortByBytesStable(l: seq<Impact>, bytes: int)
    ensures WithBytes(SortByBytes(l), bytes) == WithBytes(l, bytes)
  {
    if |l| > 0 {
      var init := l[..|l| - 1];
      SortByBytesStable(init, bytes);
      SortByBytesSorted(init);
      InsertWithBytes(SortByBytes(init), l[|l| - 1], bytes);
      assert l == init + [l[|l| - 1]];
      WithBytesAppend(init, [l[|l| - 1]], bytes);
    }
  }

  lemma SortByBytesSpec(l: seq<Impact>, bytes: int)
    ensures SortedByBytes(SortByBytes(l))
    ensures multiset(SortByBytes(l)) == multiset(l)
    ensures WithBytes(SortByBytes(l), bytes) == WithBytes(l, bytes)
  {
    SortByBytesSorted(l);
    SortByBytesPerm(l);
    SortByBytesStable(l, bytes);
  }

  /** The entry analyze_impact appends for a pointer that qualifies. */
  ghost function ImpactOf(e: RefEntry, sizes: map<string, int>, graph: CallGraph): Impact
  {
    var reach := ReachableSet(graph, e.name);
    Impact(e.name, |reach|, SetSum(reach, sizes), e.refs)
  }

  /** A pointer is scored when the binary has it and main does not reach it. */
  ghost predicate Scored(name: string, sizes: map<string, int>, graph: CallGraph)
  {
    name in sizes && !Reaches(graph, "main", name)
  }

  /** The impacts list before sorting, in the order of function_refs. */
  ghost function Unranked(entries: seq<RefEntry>, sizes: map<string, int>, graph: CallGraph): seq<Impact>
  {
    if |entries| == 0 then []
    else
      var e := entries[|entries| - 1];
      Unranked(entries[..|entries| - 1], sizes, graph)
      + (if Scored(e.name, sizes, graph) then [ImpactOf(e, sizes, graph)] else [])
  }

  lemma ReachableSetIs(graph: CallGraph, root: string, s: set<string>)
    requires forall f :: f in s <==> Reaches(graph, root, f)
    ensures s == ReachableSet(graph, root)
  {
    forall f | f in s
      ensures f in ReachableSet(graph, root)
    {
      ReachableInUniverse(graph, root, f);
    }
  }

  /**
   * The analysis part of analyze_impact: what main reaches, then for every
   * pointer name the binary has and main does not reach, the functions it
   * reaches and their total size, ranked by bytes.
   */
  method AnalyzeImpact(funcRefs: seq<RefEntry>, sizes: map<string, int>, graph: CallGraph)
    returns (impacts: seq<Impact>)
    ensures impacts == SortByBytes(Unranked(funcRefs, sizes, graph))
  {
    var reachableFromMain := CalculateReachableFrom("main", graph);
    impacts := [];
    for i := 0 to |funcRefs|
      invariant impacts == Unranked(funcRefs[..i], sizes, graph)
    {
      assert funcRefs[..i + 1][..i] == funcRefs[..i];
      var e := funcRefs[i];
      if e.name in sizes && e.name !in reachableFromMain {
        var reachable := CalculateReachableFrom(e.name, graph);
        ReachableSetIs(graph, e.name, reachable);
        var totalSize := SumSizes(reachable, sizes);
        impacts := impacts + [Impact(e.name, |reachable|, totalSize, e.refs)];
      }
    }
    assert funcRefs[..|funcRefs|] == funcRefs;
    impacts := SortByBytes(impacts);
  }

  /**
   * Exactly the pointers the binary has and main does not reach are
   * scored, once per entry of function_refs, each with the number and the
   * total size of the functions it reaches, itself included.
   */
  lemma {:induction false} UnrankedSpec(entries: seq<RefEntry>, sizes: map<string, int>, graph: CallGraph)
    ensures forall x :: x in Unranked(entries, sizes, graph) <==>
              exists e :: e in entries && Scored(e.name, sizes, graph) && x == ImpactOf(e, sizes, graph)
    ensures forall x :: x in Unranked(entries, sizes, graph) ==>
              x.reachableCount >= 1 && x.pointer in ReachableSet(graph, x.pointer)
  {
    if |entries| > 0 {
      var init := entries[..|entries| - 1];
      var e := entries[|entries| - 1];
      UnrankedSpec(init, sizes, graph);
      assert entries == init + [e];
      ReachesRoot(graph, e.name);
      ReachableInUniverse(graph, e.name, e.name);
      assert e.name in ReachableSet(graph, e.name);
    }
  }

  /**
   * The ranking analyze_impact prints: sorted by non-increasing total
   * bytes, holding exactly one entry per scored entry of function_refs
   * (the binary has the pointer and main does not reach it), each counting
   * the pointer itself among the functions it reaches.
   */
  lemma RankingSpec(funcRefs: seq<RefEntry>, sizes: map<string, int>, graph: CallGraph)
    ensures var ranking := SortByBytes(Unranked(funcRefs, sizes, graph));
            && SortedByBytes(ranking)
            && multiset(ranking) == multiset(Unranked(funcRefs, sizes, graph))
            && (forall x :: x in ranking <==>
                  exists e :: e in funcRefs && Scored(e.name, sizes, graph) && x == ImpactOf(e, sizes, graph))
            && (forall x :: x in ranking ==> x.reachableCount >= 1 && !Reaches(graph, "main", x.pointer))
  {
    var unranked := Unranked(funcRefs, sizes, graph);
    SortByBytesSpec(unranked, 0);
    UnrankedSpec(funcRefs, sizes, graph);
    var ranking := SortByBytes(unranked);
    forall x
      ensures x in ranking <==> x in unranked
    {
      assert x in ranking <==> x in multiset(ranking);
      assert x in unranked <==> x in multiset(unranked);
    }
  }

}

/** The two trace dialects and the inflow evidence they are normalised to
    (src/scan_tool/application/task_012_trace.py:88-187). */
module TraceEvidence {
  import opened Basics

  datatype Result<T> = Ok(value: T) | InvalidValue | EntryNotAnObject | NotACallFrame | NotAnArray

  /** An address up to letter case. */
  type Address = nat

  const SUBJECT: Address := 0xa406bc6e319cbe7ab2822cc55fa8376e9c3a7fdf

  /** A call type up to letter case. */
  datatype Kind = Call | CallCode | DelegateCall | StaticCall | Create | Create2 | SelfDestruct

  /** The fields of one call that the evidence depends on; an absent or ill-typed field is `None`. */
  datatype Record = Record(
    kind: Option<Kind>, sender: Option<Address>, recipient: Option<Address>, value: Option<string>, error: Option<string>)

  /** A callTracer frame; an element of `calls` that is not an object is skipped but keeps its index. */
  datatype Node = Frame(record: Record, calls: seq<Node>) | NotAFrame

  datatype Action = Action(callType: Option<Kind>, sender: Option<Address>, to: Option<Address>, value: Option<string>)

  /** An element of a trace_transaction array. */
  datatype Item = Entry(address: Option<seq<nat>>, action: Option<Action>, kind: Option<Kind>, error: Option<string>) | NotAnObject

  datatype Inflow = Inflow(
    path: seq<nat>, kind: Option<Kind>, sender: Option<Address>, recipient: Address, hex: string, wei: nat, error: Option<string>)

  // ---------------------------------------------------------------- one call

  function Digit(c: char): Option<nat>
  {
    if '0' <= c <= '9' then Some((c - '0') as nat)
    else if 'a' <= c <= 'f' then Some((c - 'a') as nat + 10)
    else if 'A' <= c <= 'F' then Some((c - 'A') as nat + 10)
    else None
  }

  function Digits(s: string): Option<nat>
  {
    if s == "" then Some(0)
    else
      var high, low := Digits(s[..|s| - 1]), Digit(s[|s| - 1]);
      if high.Some? && low.Some? then Some(16 * high.value + low.value) else None
  }

  /** A hexadecimal number with or without prefix; anything else raises. */
  function Wei(s: string): Option<nat>
  {
    var digits := if |s| >= 2 && s[0] == '0' && (s[1] == 'x' || s[1] == 'X') then s[2..] else s;
    if digits == "" then None else Digits(digits)
  }

  predicate Failed(r: Record)
  {
    r.error.Some? && r.error.value != ""
  }

  datatype Verdict = Skip | Bad | Take(wei: nat)

  function Classify(r: Record): Verdict
  {
    if r.recipient != Some(SUBJECT) then Skip
    else if r.value.None? || r.value.value == "0x" || r.value.value == "0x0" || r.value.value == "0x00" || Failed(r) then Skip
    else
      var wei := Wei(r.value.value);
      if wei.None? then Bad else if wei.value == 0 then Skip else Take(wei.value)
  }

  function ToInflow(path: seq<nat>, r: Record): Inflow
    requires Classify(r).Take?
  {
    Inflow(path, r.kind, r.sender, SUBJECT, r.value.value, Classify(r).wei, r.error)
  }

  // ---------------------------------------------------------------- the calls of a tree

  /** One call of the tree, its path, and whether no enclosing call failed. */
  datatype Visit = Visit(path: seq<nat>, call: Record, live: bool)

  /** The calls of a tree in pre-order. */
  function Visits(node: Node, path: seq<nat>, live: bool): seq<Visit>
    decreases node, 0
  {
    if node.NotAFrame? then []
    else [Visit(path, node.record, live)] + VisitsOf(node.calls, path, live && !Failed(node.record))
  }

  function VisitsOf(calls: seq<Node>, path: seq<nat>, live: bool): seq<Visit>
    decreases calls, 1
  {
    if calls == [] then []
    else
      var n := |calls| - 1;
      VisitsOf(calls[..n], path, live) + Visits(calls[n], path + [n], live)
  }

  /** The evidence of a list of calls; a value that is no number raises. */
  function Gather(visits: seq<Visit>): Option<seq<Inflow>>
  {
    if visits == [] then Some([])
    else
      var n := |visits| - 1;
      var before, v := Gather(visits[..n]), visits[n];
      if before.None? || Classify(v.call).Bad? then None
      else if Classify(v.call).Take? then Some(before.value + [ToInflow(v.path, v.call)])
      else before
  }

  lemma {:induction false} GatherAppend(a: seq<Visit>, b: seq<Visit>)
    ensures Gather(a + b) ==
      if Gather(a).Some? && Gather(b).Some? then Some(Gather(a).value + Gather(b).value) else None
  {
    if b == [] {
      assert a + b == a;
      assert Gather(a).Some? ==> Gather(a).value + [] == Gather(a).value;
    } else {
      var n := |b| - 1;
      assert (a + b)[..|a + b| - 1] == a + b[..n];
      assert (a + b)[|a + b| - 1] == b[n];
      GatherAppend(a, b[..n]);
      if Gather(a).Some? && Gather(b[..n]).Some? && Classify(b[n].call).Take? {
        var last := [ToInflow(b[n].path, b[n].call)];
        assert Gather(a).value + Gather(b[..n]).value + last == Gather(a).value + (Gather(b[..n]).value + last);
      }
    }
  }

  // ---------------------------------------------------------------- pre-order, independently

  /** The call found by following a path of child indices. */
  function RecordAt(node: Node, path: seq<nat>): Option<Record>
  {
    if node.NotAFrame? then None
    else if path == [] then Some(node.record)
    else if path[0] < |node.calls| then RecordAt(node.calls[path[0]], path[1..])
    else None
  }

  predicate LexLess(a: seq<nat>, b: seq<nat>)
  {
    if b == [] then false
    else if a == [] then true
    else if a[0] != b[0] then a[0] < b[0]
    else LexLess(a[1..], b[1..])
  }

  ghost predicate LexAscending(visits: seq<Visit>)
  {
    forall i, k :: 0 <= i < k < |visits| ==> LexLess(visits[i].path, visits[k].path)
  }

  /** A visit below `path` whose first step is under `bound`. */
  ghost predicate Below(v: Visit, calls: seq<Node>, path: seq<nat>)
  {
    && path < v.path && v.path[|path|] < |calls|
    && RecordAt(calls[v.path[|path|]], v.path[|path| + 1..]) == Some(v.call)
  }

  lemma {:induction false} LexPrefix(p: seq<nat>, a: seq<nat>, b: seq<nat>)
    ensures LexLess(p + a, p + b) == LexLess(a, b)
  {
    if p == [] {
      assert p + a == a && p + b == b;
    } else {
      assert (p + a)[1..] == p[1..] + a && (p + b)[1..] == p[1..] + b;
      LexPrefix(p[1..], a, b);
    }
  }

  ghost predicate At(v: Visit, node: Node, path: seq<nat>)
  {
    path <= v.path && RecordAt(node, v.path[|path|..]) == Some(v.call)
  }

  lemma {:induction false} VisitsAreAddressed(node: Node, path: seq<nat>, live: bool)
    ensures forall v :: v in Visits(node, path, live) ==> At(v, node, path)
    decreases node, 0
  {
    if node.Frame? {
      VisitsOfAreAddressed(node.calls, path, live && !Failed(node.record));
      forall v | v in Visits(node, path, live) ensures At(v, node, path) {
        if v != Visit(path, node.record, live) {
          assert Below(v, node.calls, path);
          assert v.path[|path|..][1..] == v.path[|path| + 1..];
        }
      }
    }
  }

  lemma {:induction false} VisitsOfAreAddressed(calls: seq<Node>, path: seq<nat>, live: bool)
    ensures forall v :: v in VisitsOf(calls, path, live) ==> Below(v, calls, path)
    decreases calls, 1
  {
    if calls != [] {
      var n := |calls| - 1;
      VisitsOfAreAddressed(calls[..n], path, live);
      VisitsAreAddressed(calls[n], path + [n], live);
      forall v | v in VisitsOf(calls, path, live) ensures Below(v, calls, path) {
        if v in VisitsOf(calls[..n], path, live) {
          assert Below(v, calls[..n], path);
        } else {
          assert At(v, calls[n], path + [n]);
          assert v.path[|path|] == (path + [n])[|path|];
        }
      }
    }
  }

  lemma {:induction false} AddressesAreVisited(node: Node, path: seq<nat>, live: bool, q: seq<nat>)
    requires RecordAt(node, q).Some?
    ensures exists v :: v in Visits(node, path, live) && v.path == path + q && v.call == RecordAt(node, q).value
    decreases node, 0
  {
    if q == [] {
      assert Visits(node, path, live)[0].path == path + q;
    } else {
      var inner := live && !Failed(node.record);
      AddressesOfAreVisited(node.calls, path, inner, q[0], q[1..]);
      assert [q[0]] + q[1..] == q;
    }
  }

  lemma {:induction false} AddressesOfAreVisited(calls: seq<Node>, path: seq<nat>, live: bool, i: nat, q: seq<nat>)
    requires i < |calls| && RecordAt(calls[i], q).Some?
    ensures exists v :: v in VisitsOf(calls, path, live) && v.path == path + ([i] + q) && v.call == RecordAt(calls[i], q).value
    decreases calls, 1
  {
    var n := |calls| - 1;
    if i == n {
      AddressesAreVisited(calls[n], path + [n], live, q);
      assert path + [n] + q == path + ([i] + q);
    } else {
      AddressesOfAreVisited(calls[..n], path, live, i, q);
    }
  }

  lemma {:induction false} VisitsAscend(node: Node, path: seq<nat>, live: bool)
    ensures LexAscending(Visits(node, path, live))
    decreases node, 0
  {
    if node.Frame? {
      var inner := live && !Failed(node.record);
      var rest := VisitsOf(node.calls, path, inner);
      VisitsOfAscend(node.calls, path, inner);
      VisitsOfAreAddressed(node.calls, path, inner);
      forall k | 0 <= k < |rest| ensures LexLess(path, rest[k].path) {
        assert Below(rest[k], node.calls, path);
        assert path + [] == path && path + rest[k].path[|path|..] == rest[k].path;
        LexPrefix(path, [], rest[k].path[|path|..]);
      }
    }
  }

  lemma {:induction false} VisitsOfAscend(calls: seq<Node>, path: seq<nat>, live: bool)
    ensures LexAscending(VisitsOf(calls, path, live))
    decreases calls, 1
  {
    if calls != [] {
      var n := |calls| - 1;
      var a, b := VisitsOf(calls[..n], path, live), Visits(calls[n], path + [n], live);
      VisitsOfAscend(calls[..n], path, live);
      VisitsAscend(calls[n], path + [n], live);
      VisitsOfAreAddressed(calls[..n], path, live);
      VisitsAreAddressed(calls[n], path + [n], live);
      forall i, k | 0 <= i < |a| && 0 <= k < |b| ensures LexLess(a[i].path, b[k].path) {
        assert Below(a[i], calls[..n], path) && At(b[k], calls[n], path + [n]);
        EarlierChildFirst(path, a[i].path, b[k].path, n);
      }
    }
  }

  lemma EarlierChildFirst(path: seq<nat>, a: seq<nat>, b: seq<nat>, n: nat)
    requires path < a && a[|path|] < n && path + [n] <= b
    ensures LexLess(a, b)
  {
    assert b[|path|] == (path + [n])[|path|];
    assert path + a[|path|..] == a && path + b[|path|..] == b;
    LexPrefix(path, a[|path|..], b[|path|..]);
  }

  /** The calls visited are exactly the calls of the tree, each once, in the order of their
      addresses. */
  lemma VisitsAreThePreOrder(root: Node)
    ensures forall v :: v in Visits(root, [], true) ==> RecordAt(root, v.path) == Some(v.call)
    ensures forall q :: RecordAt(root, q).Some? ==> exists v :: v in Visits(root, [], true) && v.path == q
    ensures LexAscending(Visits(root, [], true))
  {
    VisitsAreAddressed(root, [], true);
    VisitsAscend(root, [], true);
    forall v | v in Visits(root, [], true) ensures RecordAt(root, v.path) == Some(v.call) {
      assert At(v, root, []);
      assert v.path[0..] == v.path;
    }
    forall q | RecordAt(root, q).Some? ensures exists v :: v in Visits(root, [], true) && v.path == q {
      AddressesAreVisited(root, [], true, q);
      assert [] + q == q;
    }
  }

  // ---------------------------------------------------------------- the flat dialect

  /** A call as a trace_transaction entry: creations and self-destructs carry no `to` in their
      action, and a self-destruct no value. */
  function ToEntry(v: Visit): Item
  {
    var r := v.call;
    if r.kind == Some(Create) || r.kind == Some(Create2) then
      Entry(Some(v.path), Some(Action(None, r.sender, None, r.value)), r.kind, r.error)
    else if r.kind == Some(SelfDestruct) then
      Entry(Some(v.path), Some(Action(None, None, None, None)), r.kind, r.error)
    else
      Entry(Some(v.path), Some(Action(r.kind, r.sender, r.recipient, r.value)), None, r.error)
  }

  function Flatten(visits: seq<Visit>): seq<Item>
  {
    seq(|visits|, i requires 0 <= i < |visits| => ToEntry(visits[i]))
  }

  predicate PlainCall(r: Record)
  {
    r.kind != Some(Create) && r.kind != Some(Create2) && r.kind != Some(SelfDestruct)
  }

  function EntryRecord(e: Item): Record
    requires e.Entry? && e.action.Some?
  {
    var a := e.action.value;
    Record(if a.callType.Some? then a.callType else e.kind, a.sender, a.to, a.value, e.error)
  }

  function EntryPath(e: Item): seq<nat>
    requires e.Entry?
  {
    if e.address.Some? then e.address.value else []
  }

  /** What scanning a flat trace collects. */
  function Scan(items: seq<Item>): Result<seq<Inflow>>
  {
    if items == [] then Ok([])
    else
      var n := |items| - 1;
      var before, e := Scan(items[..n]), items[n];
      if !before.Ok? then before
      else if e.NotAnObject? then EntryNotAnObject
      else if e.action.None? then before
      else
        match Classify(EntryRecord(e))
        case Skip => before
        case Bad => InvalidValue
        case Take(_) => Ok(before.value + [ToInflow(EntryPath(e), EntryRecord(e))])
  }

  /** No creation and no self-destruct is evidence. */
  ghost predicate OnlyCallsCount(visits: seq<Visit>)
  {
    forall v :: v in visits ==> Counted(v) ==> PlainCall(v.call)
  }

  predicate Counted(v: Visit)
  {
    !Classify(v.call).Skip?
  }

  function AsResult(g: Option<seq<Inflow>>): Result<seq<Inflow>>
  {
    if g.None? then InvalidValue else Ok(g.value)
  }

  lemma FlattenLast(visits: seq<Visit>)
    requires visits != []
    ensures Flatten(visits)[..|visits| - 1] == Flatten(visits[..|visits| - 1])
    ensures Flatten(visits)[|visits| - 1] == ToEntry(visits[|visits| - 1])
  {
  }

  /** The plain calls of a list. */
  function Plain(visits: seq<Visit>): seq<Visit>
  {
    if visits == [] then []
    else
      var n := |visits| - 1;
      Plain(visits[..n]) + if PlainCall(visits[n].call) then [visits[n]] else []
  }

  lemma GatherLast(front: seq<Visit>, v: Visit)
    ensures Gather(front + [v]) ==
      if Gather(front).None? || Classify(v.call).Bad? then None
      else if Classify(v.call).Take? then Some(Gather(front).value + [ToInflow(v.path, v.call)])
      else Gather(front)
  {
    assert (front + [v])[..|front|] == front && (front + [v])[|front|] == v;
  }

  /** Whatever the tree, the flat form gives the evidence of its plain calls, raising when theirs raises. */
  lemma {:induction false} FlatEvidence(visits: seq<Visit>)
    ensures Scan(Flatten(visits)) == AsResult(Gather(Plain(visits)))
  {
    if visits != [] {
      var n := |visits| - 1;
      var v := visits[n];
      FlatEvidence(visits[..n]);
      FlattenLast(visits);
      assert PlainCall(v.call) ==> EntryRecord(ToEntry(v)) == v.call;
      assert !PlainCall(v.call) ==> Classify(EntryRecord(ToEntry(v))).Skip?;
      GatherLast(Plain(visits[..n]), v);
      assert !PlainCall(v.call) ==> Plain(visits) == Plain(visits[..n]);
    }
  }

  lemma {:induction false} GatherRaisesIff(visits: seq<Visit>)
    ensures Gather(visits).None? <==> exists v :: v in visits && Classify(v.call).Bad?
  {
    if visits != [] {
      GatherRaisesIff(visits[..|visits| - 1]);
      assert visits == visits[..|visits| - 1] + [visits[|visits| - 1]];
    }
  }

  lemma {:induction false} PlainMembers(visits: seq<Visit>)
    ensures forall v :: v in Plain(visits) <==> v in visits && PlainCall(v.call)
  {
    if visits != [] {
      PlainMembers(visits[..|visits| - 1]);
      assert visits == visits[..|visits| - 1] + [visits[|visits| - 1]];
    }
  }

  /** Leaving calls out leaves the evidence as it is exactly when none of them counts. */
  lemma {:induction false} PlainIsAllIff(visits: seq<Visit>)
    requires Gather(visits).Some?
    ensures Gather(Plain(visits)).Some? && |Gather(Plain(visits)).value| <= |Gather(visits).value|
    ensures Gather(Plain(visits)) == Gather(visits) <==> OnlyCallsCount(visits)
    ensures |Gather(Plain(visits)).value| == |Gather(visits).value| ==> OnlyCallsCount(visits)
  {
    if visits != [] {
      var n := |visits| - 1;
      var v := visits[n];
      PlainIsAllIff(visits[..n]);
      assert visits == visits[..n] + [v];
      GatherLast(visits[..n], v);
      PlainLast(visits[..n], v);
      CountsLast(visits[..n], v);
      hide Gather, Plain, Classify, PlainCall, OnlyCallsCount;
    }
  }

  lemma PlainLast(front: seq<Visit>, v: Visit)
    ensures Gather(Plain(front + [v])) ==
      if Gather(Plain(front)).None? || (PlainCall(v.call) && Classify(v.call).Bad?) then None
      else if PlainCall(v.call) && Classify(v.call).Take? then Some(Gather(Plain(front)).value + [ToInflow(v.path, v.call)])
      else Gather(Plain(front))
  {
    assert (front + [v])[..|front|] == front && (front + [v])[|front|] == v;
    GatherLast(Plain(front), v);
    assert Plain(front) + [] == Plain(front);
  }

  lemma CountsLast(front: seq<Visit>, v: Visit)
    ensures OnlyCallsCount(front + [v]) <==> OnlyCallsCount(front) && (!Classify(v.call).Skip? ==> PlainCall(v.call))
  {
    hide Classify, PlainCall;
    assert forall x :: x in front + [v] <==> x in front || x == v;
    assert Counted(v) <==> !Classify(v.call).Skip?;
  }

  /** A plain call's value is no number. */
  ghost predicate PlainCallRaises(visits: seq<Visit>)
  {
    exists v :: v in visits && PlainCall(v.call) && Classify(v.call).Bad?
  }

  /** For every call tree, the two dialects give the same result - the same evidence, in order and
      with the same paths and amounts, or the same error - exactly when: if the nested form decodes,
      only plain calls are evidence; if it raises, a plain call makes it raise. */
  lemma DialectsAgreeIff(root: Node)
    ensures var visits := Visits(root, [], true);
      (Scan(Flatten(visits)) == AsResult(Gather(visits))) <==>
      (if Gather(visits).Some? then OnlyCallsCount(visits) else PlainCallRaises(visits))
  {
    var visits := Visits(root, [], true);
    hide Visits;
    FlatEvidence(visits);
    GatherRaisesIff(Plain(visits));
    PlainMembers(visits);
    if Gather(visits).Some? {
      PlainIsAllIff(visits);
    }
    hide Scan, Gather, Plain, Flatten, Classify, PlainCall;
  }

  // ---------------------------------------------------------------- collectors

  datatype Dialect = DebugCallTracer | ParityTraceTransaction
  datatype Body = Mapping(frame: Node) | List(items: seq<Item>, wrapped: Option<Node>) | OtherBody

  class Collector {
    var matches: seq<Inflow>

    constructor ()
      ensures matches == []
    {
      matches := [];
    }

    method AppendInflow(path: seq<nat>, r: Record) returns (ok: bool)
      modifies this
      ensures ok <==> !Classify(r).Bad?
      ensures matches == old(matches) + if Classify(r).Take? then [ToInflow(path, r)] else []
    {
      if r.recipient.None? || r.recipient.value != SUBJECT {
        return true;
      }
      if r.value.None? || r.value.value == "0x" || r.value.value == "0x0" || r.value.value == "0x00" || Failed(r) {
        return true;
      }
      var wei := Wei(r.value.value);
      if wei.None? {
        return false;
      }
      if wei.value == 0 {
        return true;
      }
      matches := matches + [Inflow(path, r.kind, r.sender, r.recipient.value, r.value.value, wei.value, r.error)];
      return true;
    }

    /** The recursive walk of a call frame. */
    method CollectDebug(node: Node, path: seq<nat>, ghost live: bool) returns (ok: bool)
      requires node.Frame?
      modifies this
      ensures ok <==> Gather(Visits(node, path, live)).Some?
      ensures ok ==> Adds(old(matches), matches, Gather(Visits(node, path, live)))
      decreases node
    {
      hide Gather, Classify, Visits, VisitsOf, ToInflow, Adds;
      ghost var inner := live && !Failed(node.record);
      ok := AppendInflow(path, node.record);
      FrameEvidence(node, path, live, old(matches), matches);
      if !ok {
        return;
      }
      ghost var top := matches;
      NoChildren(node.calls, path, inner, top);
      var i := 0;
      while i < |node.calls|
        invariant 0 <= i <= |node.calls|
        invariant Adds(top, matches, Gather(VisitsOf(node.calls[..i], path, inner)))
      {
        ghost var was := matches;
        if node.calls[i].Frame? {
          ok := CollectDebug(node.calls[i], path + [i], inner);
          if !ok {
            ChildFails(node.calls, i, path, inner);
            return;
          }
        }
        NextChild(node.calls, i, path, inner, top, was, matches);
        i := i + 1;
      }
      assert node.calls[..i] == node.calls;
      FrameComplete(node, path, live, old(matches), top, matches);
    }

    method ScanParity(items: seq<Item>) returns (r: Result<()>)
      requires matches == []
      modifies this
      ensures r == match Scan(items) case Ok(_) => Ok(()) case InvalidValue => InvalidValue case _ => EntryNotAnObject
      ensures r.Ok? ==> Ok(matches) == Scan(items)
    {
      for i := 0 to |items|
        invariant Scan(items[..i]) == Ok(matches)
      {
        assert items[..i + 1][..i] == items[..i] && items[..i + 1][i] == items[i];
        assert matches + [] == matches;
        var e := items[i];
        if e.NotAnObject? {
          ScanStops(items, i + 1);
          return EntryNotAnObject;
        }
        if e.action.Some? {
          var ok := AppendInflow(EntryPath(e), EntryRecord(e));
          if !ok {
            ScanStops(items, i + 1);
            return InvalidValue;
          }
        }
      }
      assert items[..|items|] == items;
      return Ok(());
    }
  }

  lemma GatherOne(v: Visit)
    ensures Gather([v]) ==
      if Classify(v.call).Bad? then None else Some(if Classify(v.call).Take? then [ToInflow(v.path, v.call)] else [])
    ensures Gather([]) == Some([])
  {
    assert [v][..0] == [];
    if Classify(v.call).Take? {
      assert [] + [ToInflow(v.path, v.call)] == [ToInflow(v.path, v.call)];
    }
  }

  /** The list grew by exactly this evidence. */
  ghost predicate Adds(before: seq<Inflow>, after: seq<Inflow>, g: Option<seq<Inflow>>)
  {
    g.Some? && after == before + g.value
  }

  /** A frame's evidence is its own and then its children's. */
  lemma FrameEvidence(node: Node, path: seq<nat>, live: bool, before: seq<Inflow>, top: seq<Inflow>)
    requires node.Frame?
    requires top == before + if Classify(node.record).Take? then [ToInflow(path, node.record)] else []
    ensures Gather(Visits(node, path, live)).Some?
      <==> !Classify(node.record).Bad? && Gather(VisitsOf(node.calls, path, live && !Failed(node.record))).Some?
  {
    GatherAppend([Visit(path, node.record, live)], VisitsOf(node.calls, path, live && !Failed(node.record)));
    GatherOne(Visit(path, node.record, live));
  }

  lemma FrameComplete(node: Node, path: seq<nat>, live: bool, before: seq<Inflow>, top: seq<Inflow>, after: seq<Inflow>)
    requires node.Frame? && !Classify(node.record).Bad?
    requires top == before + if Classify(node.record).Take? then [ToInflow(path, node.record)] else []
    requires Adds(top, after, Gather(VisitsOf(node.calls, path, live && !Failed(node.record))))
    ensures Adds(before, after, Gather(Visits(node, path, live)))
  {
    GatherAppend([Visit(path, node.record, live)], VisitsOf(node.calls, path, live && !Failed(node.record)));
    GatherOne(Visit(path, node.record, live));
  }

  lemma NoChildren(calls: seq<Node>, path: seq<nat>, live: bool, top: seq<Inflow>)
    ensures Adds(top, top, Gather(VisitsOf(calls[..0], path, live)))
  {
  }

  lemma NextChild(calls: seq<Node>, i: nat, path: seq<nat>, live: bool, top: seq<Inflow>, was: seq<Inflow>, now: seq<Inflow>)
    requires i < |calls| && Adds(top, was, Gather(VisitsOf(calls[..i], path, live)))
    requires if calls[i].Frame? then Adds(was, now, Gather(Visits(calls[i], path + [i], live))) else now == was
    ensures Adds(top, now, Gather(VisitsOf(calls[..i + 1], path, live)))
  {
    assert calls[..i + 1][..i] == calls[..i];
    GatherAppend(VisitsOf(calls[..i], path, live), Visits(calls[i], path + [i], live));
  }

  lemma {:induction false} ChildFails(calls: seq<Node>, i: nat, path: seq<nat>, live: bool)
    requires i < |calls| && Gather(Visits(calls[i], path + [i], live)).None?
    ensures Gather(VisitsOf(calls, path, live)).None?
  {
    var n := |calls| - 1;
    GatherAppend(VisitsOf(calls[..n], path, live), Visits(calls[n], path + [n], live));
    if i < n {
      ChildFails(calls[..n], i, path, live);
    }
  }

  /** A scan that has raised has raised. */
  lemma {:induction false} ScanStops(items: seq<Item>, i: nat)
    requires i <= |items| && !Scan(items[..i]).Ok?
    ensures Scan(items) == Scan(items[..i])
  {
    if i < |items| {
      var n := |items| - 1;
      assert items[..n][..i] == items[..i];
      ScanStops(items[..n], i);
    } else {
      assert items[..i] == items;
    }
  }

  lemma {:induction false} ScanErrors(items: seq<Item>)
    ensures Scan(items).Ok? || Scan(items).InvalidValue? || Scan(items).EntryNotAnObject?
  {
    if items != [] {
      ScanErrors(items[..|items| - 1]);
    }
  }

  /** Decoding one result in one dialect. */
  method Decode(dialect: Dialect, body: Body) returns (r: Result<seq<Inflow>>)
    requires body.Mapping? ==> body.frame.Frame?
    ensures r == Evidence(dialect, body)
  {
    var collector := new Collector();
    if dialect == DebugCallTracer {
      var unwrapped := Unwrap(body);
      if unwrapped.None? {
        return NotACallFrame;
      }
      var root := unwrapped.value;
      var ok := collector.CollectDebug(root, [], true);
      if !ok {
        return InvalidValue;
      }
      ghost var all := Gather(Visits(root, [], true)).value;
      assert [] + all == all;
      return Ok(collector.matches);
    }
    if !body.List? {
      return NotAnArray;
    }
    ScanErrors(body.items);
    var scanned := collector.ScanParity(body.items);
    match scanned {
      case Ok(_) => return Ok(collector.matches);
      case InvalidValue => return InvalidValue;
      case _ => return EntryNotAnObject;
    }
  }

  /** The frame a nested result stands for: itself, or the `value` field of a one-element list. */
  function Unwrap(body: Body): Option<Node>
  {
    if body.Mapping? then Some(body.frame)
    else if body.List? && |body.items| == 1 && body.wrapped.Some? && body.wrapped.value.Frame? then body.wrapped
    else None
  }

  /** The evidence of a result. */
  function Evidence(dialect: Dialect, body: Body): Result<seq<Inflow>>
  {
    if dialect == DebugCallTracer then
      if Unwrap(body).None? then NotACallFrame else AsResult(Gather(Visits(Unwrap(body).value, [], true)))
    else if body.List? then Scan(body.items)
    else NotAnArray
  }
}

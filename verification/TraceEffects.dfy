/** Which evidence took effect: a call does when no call it is made from failed
    (src/scan_tool/application/task_012_trace.py:138-187). */
module TraceEffects {
  import opened Basics
  import opened TraceEvidence

  // ---------------------------------------------------------------- failed callers, by address

  /** Some call on the way to this address, short of the address itself, failed. */
  ghost predicate FailedAbove(node: Node, q: seq<nat>)
  {
    exists n :: 0 <= n < |q| && FailedAt(node, q[..n])
  }

  predicate FailedAt(node: Node, q: seq<nat>)
  {
    RecordAt(node, q).Some? && Failed(RecordAt(node, q).value)
  }

  lemma FailedAboveStep(node: Node, q: seq<nat>)
    requires node.Frame? && q != [] && q[0] < |node.calls|
    ensures FailedAbove(node, q) <==> Failed(node.record) || FailedAbove(node.calls[q[0]], q[1..])
  {
    var child, rest := node.calls[q[0]], q[1..];
    assert q[..0] == [];
    forall n | 0 < n < |q| ensures FailedAt(node, q[..n]) <==> FailedAt(child, rest[..n - 1]) {
      assert q[..n][1..] == rest[..n - 1];
    }
    if Failed(node.record) {
      assert FailedAt(node, q[..0]);
    }
    if n :| 0 <= n < |rest| && FailedAt(child, rest[..n]) {
      assert FailedAt(node, q[..n + 1]);
    }
  }

  ghost predicate LiveAt(v: Visit, node: Node, path: seq<nat>, live: bool)
  {
    path <= v.path && (v.live <==> live && !FailedAbove(node, v.path[|path|..]))
  }

  ghost predicate LiveBelow(v: Visit, calls: seq<Node>, path: seq<nat>, live: bool)
  {
    && path < v.path && v.path[|path|] < |calls|
    && (v.live <==> live && !FailedAbove(calls[v.path[|path|]], v.path[|path| + 1..]))
  }

  /** The flag that the walk hands down says exactly whether some call above failed. */
  lemma {:induction false} LiveIsAddressed(node: Node, path: seq<nat>, live: bool)
    ensures forall v :: v in Visits(node, path, live) ==> LiveAt(v, node, path, live)
    decreases node, 0
  {
    if node.Frame? {
      var inner := live && !Failed(node.record);
      LiveOfAreAddressed(node.calls, path, inner);
      forall v | v in Visits(node, path, live) ensures LiveAt(v, node, path, live) {
        if v != Visit(path, node.record, live) {
          assert LiveBelow(v, node.calls, path, inner);
          var q := v.path[|path|..];
          assert q[1..] == v.path[|path| + 1..];
          FailedAboveStep(node, q);
        }
      }
    }
  }

  lemma {:induction false} LiveOfAreAddressed(calls: seq<Node>, path: seq<nat>, live: bool)
    ensures forall v :: v in VisitsOf(calls, path, live) ==> LiveBelow(v, calls, path, live)
    decreases calls, 1
  {
    if calls != [] {
      var n := |calls| - 1;
      LiveOfAreAddressed(calls[..n], path, live);
      LiveIsAddressed(calls[n], path + [n], live);
      forall v | v in VisitsOf(calls, path, live) ensures LiveBelow(v, calls, path, live) {
        if v in VisitsOf(calls[..n], path, live) {
          assert LiveBelow(v, calls[..n], path, live);
        } else {
          assert LiveAt(v, calls[n], path + [n], live);
          assert v.path[|path|] == (path + [n])[|path|];
        }
      }
    }
  }

  // ---------------------------------------------------------------- evidence, by address

  /** The call at this address is a successful transfer to the subject, reported as `f`. */
  predicate Reports(root: Node, q: seq<nat>, f: Inflow)
  {
    RecordAt(root, q).Some? && Classify(RecordAt(root, q).value).Take? && f == ToInflow(q, RecordAt(root, q).value)
  }

  predicate CountsAt(root: Node, q: seq<nat>)
  {
    RecordAt(root, q).Some? && !Classify(RecordAt(root, q).value).Skip?
  }

  /** The evidence of the calls that the walk found live. */
  function Committed(visits: seq<Visit>): Option<seq<Inflow>>
  {
    if visits == [] then Some([])
    else
      var n := |visits| - 1;
      var before, v := Committed(visits[..n]), visits[n];
      if before.None? || Classify(v.call).Bad? then None
      else if v.live && Classify(v.call).Take? then Some(before.value + [ToInflow(v.path, v.call)])
      else before
  }

  lemma {:induction false} GatheredFrom(visits: seq<Visit>, f: Inflow)
    requires Gather(visits).Some?
    ensures f in Gather(visits).value <==> exists v :: v in visits && Classify(v.call).Take? && f == ToInflow(v.path, v.call)
  {
    if visits != [] {
      GatheredFrom(visits[..|visits| - 1], f);
      assert visits == visits[..|visits| - 1] + [visits[|visits| - 1]];
    }
  }

  lemma {:induction false} CommittedFrom(visits: seq<Visit>, f: Inflow)
    requires Committed(visits).Some?
    ensures f in Committed(visits).value
      <==> exists v :: v in visits && v.live && Classify(v.call).Take? && f == ToInflow(v.path, v.call)
  {
    if visits != [] {
      CommittedFrom(visits[..|visits| - 1], f);
      assert visits == visits[..|visits| - 1] + [visits[|visits| - 1]];
    }
  }

  /** The evidence is that of all addresses whose call is a successful transfer to the subject, and
      the committed evidence that of those with no failed call above. */
  lemma EvidenceByAddress(root: Node, f: Inflow)
    requires Gather(Visits(root, [], true)).Some? && Committed(Visits(root, [], true)).Some?
    ensures f in Gather(Visits(root, [], true)).value <==> exists q :: Reports(root, q, f)
    ensures f in Committed(Visits(root, [], true)).value <==> exists q :: Reports(root, q, f) && !FailedAbove(root, q)
  {
    var visits := Visits(root, [], true);
    VisitsAreThePreOrder(root);
    LiveIsAddressed(root, [], true);
    GatheredFrom(visits, f);
    CommittedFrom(visits, f);
    hide Gather, Committed, Classify, Visits, FailedAbove;
    forall v | v in visits && Classify(v.call).Take? && f == ToInflow(v.path, v.call)
      ensures Reports(root, v.path, f) && (v.live <==> !FailedAbove(root, v.path))
    {
      assert LiveAt(v, root, [], true);
      assert v.path[0..] == v.path;
    }
    forall q | Reports(root, q, f)
      ensures exists v :: v in visits && v.path == q && Classify(v.call).Take? && f == ToInflow(v.path, v.call)
    {
      var v :| v in visits && v.path == q;
    }
  }

  lemma {:induction false} CommittedIsLess(visits: seq<Visit>)
    requires Gather(visits).Some?
    ensures Committed(visits).Some? && |Committed(visits).value| <= |Gather(visits).value|
    ensures Committed(visits) == Gather(visits) <==> forall v :: v in visits && Counted(v) ==> v.live
    ensures |Committed(visits).value| == |Gather(visits).value| ==> Committed(visits) == Gather(visits)
  {
    if visits != [] {
      var n := |visits| - 1;
      var v := visits[n];
      CommittedIsLess(visits[..n]);
      assert visits == visits[..n] + [v];
      assert Committed(visits[..n]) == Gather(visits[..n]) && (Counted(v) ==> v.live) ==> Committed(visits) == Gather(visits);
    }
  }

  /** A call is checked for its own error only: the collected evidence is the evidence of the calls
      that took effect exactly when no address that counts has a failed call above it. */
  lemma EvidenceTookEffectIff(root: Node)
    requires Gather(Visits(root, [], true)).Some?
    ensures Committed(Visits(root, [], true)) == Gather(Visits(root, [], true))
      <==> forall q :: CountsAt(root, q) ==> !FailedAbove(root, q)
  {
    var visits := Visits(root, [], true);
    VisitsAreThePreOrder(root);
    LiveIsAddressed(root, [], true);
    CommittedIsLess(visits);
    hide Gather, Committed, Classify, Visits, FailedAbove;
    forall v | v in visits ensures (v.live <==> !FailedAbove(root, v.path)) && (Counted(v) <==> CountsAt(root, v.path)) {
      assert LiveAt(v, root, [], true);
      assert v.path[0..] == v.path;
    }
    if forall v :: v in visits && Counted(v) ==> v.live {
      forall q | CountsAt(root, q) ensures !FailedAbove(root, q) {
        var v :| v in visits && v.path == q;
      }
    }
  }

  // ---------------------------------------------------------------- witnesses

  lemma OneUnit()
    ensures Wei("0x1") == Some(1)
  {
    assert "0x1"[2..] == "1" && "1"[..0] == "";
  }

  /** A call that makes one other call. */
  function Pair(a: Record, b: Record): Node { Frame(a, [Frame(b, [])]) }

  lemma PairVisits(a: Record, b: Record)
    ensures Visits(Pair(a, b), [], true) == [Visit([], a, true), Visit([0], b, !Failed(a))]
  {
    var child := Frame(b, []);
    assert [child][..0] == [] && [] + [0] == [0 as nat];
    assert Visits(child, [0], !Failed(a)) == [Visit([0], b, !Failed(a))];
    assert VisitsOf([child], [], !Failed(a)) == [Visit([0], b, !Failed(a))];
  }

  lemma PairEvidence(x: Visit, y: Visit)
    requires Classify(x.call).Skip? && Classify(y.call).Take?
    ensures Gather([x, y]) == Some([ToInflow(y.path, y.call)])
    ensures Committed([x, y]) == Some(if y.live then [ToInflow(y.path, y.call)] else [])
  {
    hide Classify;
    assert [x, y][..1] == [x] && [x][..0] == [];
    assert Gather([x]) == Some([]) && Committed([x]) == Some([]);
    assert [] + [ToInflow(y.path, y.call)] == [ToInflow(y.path, y.call)];
  }

  const REVERTED := Record(Some(Call), None, None, None, Some("reverted"))
  const PAYMENT := Record(Some(Call), None, Some(SUBJECT), Some("0x1"), None)
  const CALLER := Record(Some(Call), None, None, None, None)
  const DESTRUCT := Record(Some(SelfDestruct), None, Some(SUBJECT), Some("0x1"), None)

  /** A transfer inside a reverted call is reported as a successful inflow. */
  lemma RevertedCallersAreReported()
    ensures Gather(Visits(Pair(REVERTED, PAYMENT), [], true)) == Some([Inflow([0], Some(Call), None, SUBJECT, "0x1", 1, None)])
    ensures Committed(Visits(Pair(REVERTED, PAYMENT), [], true)) == Some([])
  {
    OneUnit();
    PairVisits(REVERTED, PAYMENT);
    PairEvidence(Visit([], REVERTED, true), Visit([0], PAYMENT, false));
  }

  /** A self-destruct that pays the subject is evidence in the nested form and not in the flat one. */
  lemma SelfDestructSplitsDialects()
    ensures Gather(Visits(Pair(CALLER, DESTRUCT), [], true)) == Some([Inflow([0], Some(SelfDestruct), None, SUBJECT, "0x1", 1, None)])
    ensures Scan(Flatten(Visits(Pair(CALLER, DESTRUCT), [], true))) == Ok([])
  {
    OneUnit();
    PairVisits(CALLER, DESTRUCT);
    var x, y := Visit([], CALLER, true), Visit([0], DESTRUCT, true);
    PairEvidence(x, y);
    FlatEvidence([x, y]);
    assert [x, y][..1] == [x] && [x][..0] == [];
    assert Plain([x]) == [x] && Plain([x, y]) == [x];
    GatherOne(x);
  }
}

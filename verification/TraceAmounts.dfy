/** What a hexadecimal amount says, and what a decoded result therefore lists, in terms of the calls'
    own fields (src/scan_tool/application/task_012_trace.py:88-187). */
module TraceAmounts {
  import opened Basics
  import opened TraceEvidence
  import opened TraceEffects

  // ---------------------------------------------------------------- printing

  /** The sixteen digits, the last six as small or capital letters. */
  function HexChar(d: nat, capital: bool): char
    requires d < 16
  {
    match d
    case 0 => '0' case 1 => '1' case 2 => '2' case 3 => '3' case 4 => '4'
    case 5 => '5' case 6 => '6' case 7 => '7' case 8 => '8' case 9 => '9'
    case 10 => if capital then 'A' else 'a'
    case 11 => if capital then 'B' else 'b'
    case 12 => if capital then 'C' else 'c'
    case 13 => if capital then 'D' else 'd'
    case 14 => if capital then 'E' else 'e'
    case 15 => if capital then 'F' else 'f'
  }

  /** A number in base sixteen, by division. */
  function Hex(n: nat, capital: bool): (s: string)
    ensures s != ""
  {
    if n < 16 then [HexChar(n, capital)] else Hex(n / 16, capital) + [HexChar(n % 16, capital)]
  }

  lemma DigitOfChar(d: nat, capital: bool)
    requires d < 16
    ensures Digit(HexChar(d, capital)) == Some(d)
  {
  }

  lemma DigitsMore(s: string, c: char)
    ensures Digits(s + [c]) == if Digits(s).Some? && Digit(c).Some? then Some(16 * Digits(s).value + Digit(c).value) else None
  {
    hide Digit;
    assert (s + [c])[..|s|] == s;
  }

  lemma NoDigits()
    ensures Digits("") == Some(0)
  {
  }

  lemma {:induction false} DigitsOfHex(n: nat, capital: bool)
    ensures Digits(Hex(n, capital)) == Some(n)
  {
    hide Digit, Digits, HexChar;
    if n < 16 {
      DigitOfChar(n, capital);
      DigitsMore("", HexChar(n, capital));
      NoDigits();
      assert "" + [HexChar(n, capital)] == [HexChar(n, capital)];
    } else {
      DigitsOfHex(n / 16, capital);
      DigitOfChar(n % 16, capital);
      DigitsMore(Hex(n / 16, capital), HexChar(n % 16, capital));
      assert 16 * (n / 16) + n % 16 == n;
    }
  }

  /** The text begins with 0x or 0X. */
  predicate Prefixed(s: string)
  {
    |s| >= 2 && s[0] == '0' && (s[1] == 'x' || s[1] == 'X')
  }

  /** What is left of the text when a prefix is taken off. */
  function Unprefixed(s: string): string
  {
    if Prefixed(s) then s[2..] else s
  }

  lemma WeiUnprefixed(s: string)
    ensures Wei(s) == if Unprefixed(s) == "" then None else Digits(Unprefixed(s))
  {
    hide Digits;
  }

  lemma {:induction false} HexIsDigits(n: nat, capital: bool)
    ensures !Prefixed(Hex(n, capital))
    ensures Hex(n, capital)[|Hex(n, capital)| - 1] != 'x' && Hex(n, capital)[|Hex(n, capital)| - 1] != 'X'
  {
    if n >= 16 {
      HexIsDigits(n / 16, capital);
    }
  }

  /** Reading undoes printing, in small or capital letters, with either prefix or none. */
  lemma ReadsWhatIsPrinted(n: nat, capital: bool)
    ensures Wei("0x" + Hex(n, capital)) == Some(n) && Wei("0X" + Hex(n, capital)) == Some(n) && Wei(Hex(n, capital)) == Some(n)
  {
    hide Wei, Digits, Hex;
    var s := Hex(n, capital);
    DigitsOfHex(n, capital);
    HexIsDigits(n, capital);
    WeiUnprefixed("0x" + s);
    WeiUnprefixed("0X" + s);
    WeiUnprefixed(s);
    assert ("0x" + s)[2..] == s && ("0X" + s)[2..] == s;
  }

  // ---------------------------------------------------------------- reading

  function Zeros(n: nat): string
  {
    if n == 0 then "" else Zeros(n - 1) + "0"
  }

  /** A digit with its letter made small. */
  function Small(c: char): char
  {
    if c == 'A' then 'a' else if c == 'B' then 'b' else if c == 'C' then 'c'
    else if c == 'D' then 'd' else if c == 'E' then 'e' else if c == 'F' then 'f' else c
  }

  function SmallLetters(s: string): string
  {
    if s == "" then "" else SmallLetters(s[..|s| - 1]) + [Small(s[|s| - 1])]
  }

  lemma SmallDigit(c: char)
    requires Digit(c).Some?
    ensures Digit(c).value < 16 && Small(c) == HexChar(Digit(c).value, false)
  {
  }

  /** The digits read are those of the number, after leading zeros and up to letter case. */
  lemma {:induction false} PrintsWhatIsRead(s: string, n: nat)
    requires Digits(s) == Some(n) && s != ""
    ensures |Hex(n, false)| <= |s| && SmallLetters(s) == Zeros(|s| - |Hex(n, false)|) + Hex(n, false)
  {
    hide Digit, Small, HexChar, Hex, Zeros;
    var m := |s| - 1;
    var high, low := Digits(s[..m]).value, Digit(s[m]).value;
    SmallDigit(s[m]);
    if m == 0 {
      assert s[..m] == "" && SmallLetters("") == "";
      OneDigit(n);
    } else {
      PrintsWhatIsRead(s[..m], high);
      HexMore(high, low, n);
      if high == 0 {
        LoneZero();
        FirstDigit(SmallLetters(s[..m]), m, HexChar(low, false));
      } else {
        LaterDigit(SmallLetters(s[..m]), m, Hex(high, false), HexChar(low, false));
      }
    }
  }

  /** One digit more behind a number's digits, or in place of a lone zero. */
  lemma LaterDigit(f: string, m: nat, h: string, c: char)
    requires |h| <= m && f == Zeros(m - |h|) + h
    ensures f + [c] == Zeros(m + 1 - |h + [c]|) + (h + [c])
  {
    hide Zeros;
    assert m + 1 - |h + [c]| == m - |h|;
    Regroup(Zeros(m - |h|), h, c);
  }

  lemma FirstDigit(f: string, m: nat, c: char)
    requires m > 0 && f == Zeros(m - 1) + "0"
    ensures f + [c] == Zeros(m) + [c]
  {
  }

  lemma Regroup(z: string, h: string, c: char)
    ensures z + h + [c] == z + (h + [c])
  {
  }

  lemma HexMore(high: nat, low: nat, n: nat)
    requires low < 16 && n == 16 * high + low
    ensures high == 0 ==> Hex(n, false) == [HexChar(low, false)]
    ensures high > 0 ==> Hex(n, false) == Hex(high, false) + [HexChar(low, false)] && |Hex(n, false)| == |Hex(high, false)| + 1
  {
    hide HexChar;
    assert n / 16 == high && n % 16 == low;
  }

  lemma OneDigit(n: nat)
    requires n < 16
    ensures Hex(n, false) == [HexChar(n, false)] && Zeros(0) + Hex(n, false) == [HexChar(n, false)]
  {
  }

  lemma LoneZero()
    ensures Hex(0, false) == "0"
  {
  }

  ghost predicate IsDigit(c: char)
  {
    exists d: nat, capital :: d < 16 && HexChar(d, capital) == c
  }

  lemma DigitIff(c: char)
    ensures IsDigit(c) <==> Digit(c).Some?
  {
    if Digit(c).Some? {
      SmallDigit(c);
      var d := Digit(c).value;
      assert HexChar(d, false) == c || HexChar(d, true) == c;
    }
    if d: nat, capital :| d < 16 && HexChar(d, capital) == c {
      DigitOfChar(d, capital);
    }
  }

  lemma {:induction false} ReadableDigits(s: string)
    ensures Digits(s).Some? <==> forall i :: 0 <= i < |s| ==> IsDigit(s[i])
  {
    hide IsDigit, Digit;
    if s != "" {
      var n := |s| - 1;
      ReadableDigits(s[..n]);
      DigitIff(s[n]);
      assert forall i :: 0 <= i < n ==> s[..n][i] == s[i];
    }
  }

  /** Text is refused exactly when no digits remain or some character is none; what is read is the
      number whose digits stand there. */
  lemma WeiReads(s: string)
    ensures Wei(s).Some? <==> Unprefixed(s) != "" && forall i :: 0 <= i < |Unprefixed(s)| ==> IsDigit(Unprefixed(s)[i])
    ensures Wei(s).Some? ==> var h := Hex(Wei(s).value, false);
      |h| <= |Unprefixed(s)| && SmallLetters(Unprefixed(s)) == Zeros(|Unprefixed(s)| - |h|) + h
  {
    hide Wei, Digits, Hex, SmallLetters, Zeros, IsDigit;
    WeiUnprefixed(s);
    ReadableDigits(Unprefixed(s));
    if Wei(s).Some? {
      PrintsWhatIsRead(Unprefixed(s), Wei(s).value);
    }
  }

  // ---------------------------------------------------------------- one call

  /** The call goes to the subject, reports no error, and sends this many wei, more than none. */
  predicate Pays(r: Record, wei: nat)
  {
    && r.recipient == Some(SUBJECT) && (r.error == None || r.error == Some(""))
    && r.value.Some? && Wei(r.value.value) == Some(wei) && wei > 0
  }

  predicate PaysSome(r: Record)
  {
    r.value.Some? && Wei(r.value.value).Some? && Pays(r, Wei(r.value.value).value)
  }

  /** The call would be listed, but its value is no number. */
  predicate Unreadable(r: Record)
  {
    && r.recipient == Some(SUBJECT) && (r.error == None || r.error == Some(""))
    && r.value.Some? && r.value.value != "0x" && Wei(r.value.value) == None
  }

  lemma ZeroTexts()
    ensures Wei("0x") == None && Wei("0x0") == Some(0) && Wei("0x00") == Some(0)
  {
    assert "0x0"[2..] == "0" && "0x00"[2..] == "00";
    assert "00"[..1] == "0" && "0"[..0] == "";
    assert Digits("0") == Some(0);
  }

  lemma ClassifyMeans(r: Record)
    ensures Classify(r).Take? <==> PaysSome(r)
    ensures Classify(r).Take? ==> Wei(r.value.value) == Some(Classify(r).wei)
    ensures Classify(r).Bad? <==> Unreadable(r)
  {
    ZeroTexts();
  }

  /** The entry of the list for a call at this path. */
  predicate Lists(f: Inflow, path: seq<nat>, r: Record)
  {
    && f.path == path && f.kind == r.kind && f.sender == r.sender && f.recipient == SUBJECT && f.error == r.error
    && r.value == Some(f.hex) && Wei(f.hex) == Some(f.wei)
  }

  // ---------------------------------------------------------------- the nested dialect

  /** The visits that are listed, in order. */
  ghost function Listed(visits: seq<Visit>): seq<Visit>
  {
    if visits == [] then []
    else Listed(visits[..|visits| - 1]) + if PaysSome(visits[|visits| - 1].call) then [visits[|visits| - 1]] else []
  }

  lemma {:induction false} ListedMembers(visits: seq<Visit>)
    ensures forall v :: v in Listed(visits) <==> v in visits && PaysSome(v.call)
  {
    hide PaysSome;
    if visits != [] {
      ListedMembers(visits[..|visits| - 1]);
      assert visits == visits[..|visits| - 1] + [visits[|visits| - 1]];
    }
  }

  lemma {:induction false} ListedAscend(visits: seq<Visit>)
    requires LexAscending(visits)
    ensures LexAscending(Listed(visits))
  {
    hide PaysSome;
    if visits != [] {
      var n := |visits| - 1;
      assert forall i :: 0 <= i < n ==> visits[..n][i] == visits[i];
      ListedAscend(visits[..n]);
      ListedMembers(visits[..n]);
      var front := Listed(visits[..n]);
      forall i | 0 <= i < |front| ensures LexLess(front[i].path, visits[n].path) {
        assert front[i] in front;
        var k :| 0 <= k < n && visits[..n][k] == front[i];
        assert LexLess(visits[k].path, visits[n].path);
      }
    }
  }

  lemma {:induction false} GatherLists(visits: seq<Visit>)
    ensures Gather(visits).None? <==> exists v :: v in visits && Unreadable(v.call)
    ensures Gather(visits).Some? ==> var list, at := Gather(visits).value, Listed(visits);
      |list| == |at| && forall i :: 0 <= i < |list| ==> Lists(list[i], at[i].path, at[i].call)
  {
    if visits != [] {
      var n := |visits| - 1;
      GatherLists(visits[..n]);
      ClassifyMeans(visits[n].call);
      assert visits == visits[..n] + [visits[n]];
      hide Unreadable, PaysSome, Classify, Wei;
    }
  }

  /** The call at an address of the tree is one that pays. */
  predicate PaysAt(root: Node, q: seq<nat>)
  {
    RecordAt(root, q).Some? && PaysSome(RecordAt(root, q).value)
  }

  predicate UnreadableAt(root: Node, q: seq<nat>)
  {
    RecordAt(root, q).Some? && Unreadable(RecordAt(root, q).value)
  }

  predicate ListsAt(root: Node, f: Inflow, q: seq<nat>)
  {
    RecordAt(root, q).Some? && Lists(f, q, RecordAt(root, q).value)
  }

  /** A nested result is refused exactly when the value of some call that would be listed is no number;
      otherwise it lists exactly the calls that pay the subject, by ascending address, with their own
      fields and the number their value stands for. */
  lemma NestedLists(root: Node) returns (at: seq<seq<nat>>)
    ensures Evidence(DebugCallTracer, Mapping(root)).Ok? || Evidence(DebugCallTracer, Mapping(root)).InvalidValue?
    ensures Evidence(DebugCallTracer, Mapping(root)).InvalidValue? <==> exists q :: UnreadableAt(root, q)
    ensures (forall q :: q in at <==> PaysAt(root, q)) && forall i, k :: 0 <= i < k < |at| ==> LexLess(at[i], at[k])
    ensures Evidence(DebugCallTracer, Mapping(root)).Ok? ==> var list := Evidence(DebugCallTracer, Mapping(root)).value;
      |list| == |at| && forall i :: 0 <= i < |at| ==> ListsAt(root, list[i], at[i])
  {
    hide Gather, Visits, PaysSome, Unreadable, LexAscending, Lists, RecordAt, PaysAt, UnreadableAt, Listed;
    var visits := Visits(root, [], true);
    VisitsAreThePreOrder(root);
    GatherLists(visits);
    ListedMembers(visits);
    ListedAscend(visits);
    var listed := Listed(visits);
    at := seq(|listed|, i requires 0 <= i < |listed| => listed[i].path);
    RefusedAt(root, visits);
    PaidAt(root, visits, listed, at);
    ListedPaths(listed, at);
    ListedRecords(root, visits, listed, at);
  }

  lemma ListedRecords(root: Node, visits: seq<Visit>, listed: seq<Visit>, at: seq<seq<nat>>)
    requires (forall v :: v in visits ==> RecordAt(root, v.path) == Some(v.call)) && forall v :: v in listed ==> v in visits
    requires |at| == |listed| && forall i :: 0 <= i < |at| ==> at[i] == listed[i].path
    ensures forall i :: 0 <= i < |at| ==> RecordAt(root, at[i]) == Some(listed[i].call)
  {
    hide RecordAt;
    forall i | 0 <= i < |at| ensures RecordAt(root, at[i]) == Some(listed[i].call) {
      assert listed[i] in listed;
    }
  }

  lemma PaidAt(root: Node, visits: seq<Visit>, listed: seq<Visit>, at: seq<seq<nat>>)
    requires forall v :: v in visits ==> RecordAt(root, v.path) == Some(v.call)
    requires forall q :: RecordAt(root, q).Some? ==> exists v :: v in visits && v.path == q
    requires forall v :: v in listed <==> v in visits && PaysSome(v.call)
    requires |at| == |listed| && forall i :: 0 <= i < |at| ==> at[i] == listed[i].path
    ensures forall q :: q in at <==> PaysAt(root, q)
  {
    hide RecordAt, PaysSome;
    forall q ensures q in at <==> PaysAt(root, q) {
      if PaysAt(root, q) {
        var v :| v in visits && v.path == q;
        var i :| 0 <= i < |listed| && listed[i] == v;
        assert at[i] == q;
      }
      if q in at {
        var i :| 0 <= i < |at| && at[i] == q;
        assert listed[i] in listed;
      }
    }
  }

  lemma RefusedAt(root: Node, visits: seq<Visit>)
    requires forall v :: v in visits ==> RecordAt(root, v.path) == Some(v.call)
    requires forall q :: RecordAt(root, q).Some? ==> exists v :: v in visits && v.path == q
    ensures (exists v :: v in visits && Unreadable(v.call)) <==> exists q :: UnreadableAt(root, q)
  {
    hide RecordAt, Unreadable;
    forall v | v in visits && Unreadable(v.call) ensures UnreadableAt(root, v.path) {
    }
    forall q | UnreadableAt(root, q) ensures exists v :: v in visits && Unreadable(v.call) {
      var v :| v in visits && v.path == q;
    }
  }

  lemma ListedPaths(listed: seq<Visit>, at: seq<seq<nat>>)
    requires LexAscending(listed) && |at| == |listed| && forall i :: 0 <= i < |at| ==> at[i] == listed[i].path
    ensures forall i, k :: 0 <= i < k < |at| ==> LexLess(at[i], at[k])
  {
  }

  // ---------------------------------------------------------------- the flat dialect

  /** The call an entry stands for: its action's fields, the entry's own type where the action has no
      call type, and the entry's error. */
  predicate EntryIs(e: Item, path: seq<nat>, r: Record)
  {
    && e.Entry? && e.action.Some?
    && path == (if e.address.Some? then e.address.value else [])
    && r.kind == (if e.action.value.callType.Some? then e.action.value.callType else e.kind)
    && r.sender == e.action.value.sender && r.recipient == e.action.value.to && r.value == e.action.value.value && r.error == e.error
  }

  ghost predicate EntryPays(e: Item)
  {
    exists path, r :: EntryIs(e, path, r) && PaysSome(r)
  }

  ghost predicate EntryUnreadable(e: Item)
  {
    exists path, r :: EntryIs(e, path, r) && Unreadable(r)
  }

  lemma EntryMeans(e: Item)
    requires e.Entry? && e.action.Some?
    ensures EntryPays(e) <==> Classify(EntryRecord(e)).Take?
    ensures EntryUnreadable(e) <==> Classify(EntryRecord(e)).Bad?
    ensures EntryIs(e, EntryPath(e), EntryRecord(e))
  {
    var r := EntryRecord(e);
    ClassifyMeans(r);
    assert EntryIs(e, EntryPath(e), r);
    forall path, s | EntryIs(e, path, s) ensures s == r {
    }
    hide Classify, PaysSome, Unreadable;
  }

  ghost predicate ListsEntry(f: Inflow, e: Item)
  {
    exists path, r :: EntryIs(e, path, r) && Lists(f, path, r)
  }

  ghost predicate Stops(e: Item)
  {
    e.NotAnObject? || EntryUnreadable(e)
  }

  /** The first element that stops the scan decides the error. */
  ghost predicate StoppedAt(items: seq<Item>, i: nat, r: Result<seq<Inflow>>)
  {
    && i < |items| && Stops(items[i]) && (forall k :: 0 <= k < i ==> !Stops(items[k]))
    && r == if items[i].NotAnObject? then EntryNotAnObject else InvalidValue
  }

  /** The listed entries are these elements. */
  ghost predicate Picked(items: seq<Item>, at: seq<nat>)
  {
    && (forall i, k :: 0 <= i < k < |at| ==> at[i] < at[k])
    && (forall i :: 0 <= i < |at| ==> at[i] < |items| && EntryPays(items[at[i]]))
    && (forall k :: 0 <= k < |items| && EntryPays(items[k]) ==> exists i :: 0 <= i < |at| && at[i] == k)
  }

  ghost predicate ListsEntries(items: seq<Item>, at: seq<nat>, list: seq<Inflow>)
  {
    |list| == |at| && forall i :: 0 <= i < |at| ==> at[i] < |items| && ListsEntry(list[i], items[at[i]])
  }

  /** A flat result is refused at its first element that is no object or whose value is no number;
      otherwise it lists exactly the entries that pay the subject, in their order. */
  lemma {:induction false} FlatLists(items: seq<Item>) returns (at: seq<nat>)
    ensures Scan(items).Ok? <==> forall i :: 0 <= i < |items| ==> !Stops(items[i])
    ensures !Scan(items).Ok? ==> exists i :: StoppedAt(items, i, Scan(items))
    ensures Picked(items, at) && (Scan(items).Ok? ==> ListsEntries(items, at, Scan(items).value))
  {
    hide Scan, EntryPays, ListsEntry, Stops, Picked, ListsEntries, StoppedAt;
    if items == [] {
      at := [];
      NothingFlat();
    } else {
      var n := |items| - 1;
      var front := FlatLists(items[..n]);
      at := if EntryPays(items[n]) then front + [n] else front;
      PickedNext(items, front, at);
      ScanNext(items, front, at);
      assert forall i :: 0 <= i < n ==> items[..n][i] == items[i];
    }
  }

  lemma NothingFlat()
    ensures Scan([]) == Ok([]) && Picked([], []) && ListsEntries([], [], [])
  {
  }

  lemma StoppedMore(items: seq<Item>, i: nat, r: Result<seq<Inflow>>)
    requires items != [] && StoppedAt(items[..|items| - 1], i, r)
    ensures StoppedAt(items, i, r)
  {
    hide Stops;
    var n := |items| - 1;
    assert forall k :: 0 <= k < n ==> items[..n][k] == items[k];
  }

  lemma StopsLast(items: seq<Item>)
    requires items != [] && Stops(items[|items| - 1]) && forall k :: 0 <= k < |items| - 1 ==> !Stops(items[k])
    ensures StoppedAt(items, |items| - 1, if items[|items| - 1].NotAnObject? then EntryNotAnObject else InvalidValue)
  {
    hide Stops;
  }

  lemma ScanNext(items: seq<Item>, front: seq<nat>, at: seq<nat>)
    requires items != [] && at == if EntryPays(items[|items| - 1]) then front + [|items| - 1] else front
    requires var was, less := Scan(items[..|items| - 1]), items[..|items| - 1];
      && (was.Ok? <==> forall i :: 0 <= i < |less| ==> !Stops(less[i]))
      && (!was.Ok? ==> exists i :: StoppedAt(less, i, was)) && (was.Ok? ==> ListsEntries(less, front, was.value))
    ensures Scan(items).Ok? <==> Scan(items[..|items| - 1]).Ok? && !Stops(items[|items| - 1])
    ensures !Scan(items).Ok? ==> exists i :: StoppedAt(items, i, Scan(items))
    ensures Scan(items).Ok? ==> ListsEntries(items, at, Scan(items).value)
  {
    hide Scan, EntryPays, ListsEntry, Stops, ListsEntries, StoppedAt;
    var n := |items| - 1;
    FlatStep(items, items[n]);
    assert forall i :: 0 <= i < n ==> items[..n][i] == items[i];
    if !Scan(items[..n]).Ok? {
      var i :| StoppedAt(items[..n], i, Scan(items[..n]));
      StoppedMore(items, i, Scan(items[..n]));
    } else if Stops(items[n]) {
      StopsLast(items);
    } else {
      ListsNext(items, front, at, Scan(items[..n]).value, Scan(items).value);
    }
  }

  lemma PickedNext(items: seq<Item>, front: seq<nat>, at: seq<nat>)
    requires items != [] && Picked(items[..|items| - 1], front)
    requires at == if EntryPays(items[|items| - 1]) then front + [|items| - 1] else front
    ensures Picked(items, at)
  {
    hide EntryPays;
    var n := |items| - 1;
    forall k | 0 <= k < |items| && EntryPays(items[k]) ensures exists i :: 0 <= i < |at| && at[i] == k {
      if k < n {
        assert items[..n][k] == items[k];
        var i :| 0 <= i < |front| && front[i] == k;
        assert at[i] == k;
      } else {
        assert at[|front|] == k;
      }
    }
  }

  lemma ListsNext(items: seq<Item>, front: seq<nat>, at: seq<nat>, was: seq<Inflow>, now: seq<Inflow>)
    requires items != [] && ListsEntries(items[..|items| - 1], front, was)
    requires Grows(was, now, items[|items| - 1])
    requires at == if EntryPays(items[|items| - 1]) then front + [|items| - 1] else front
    ensures ListsEntries(items, at, now)
  {
    hide EntryPays, ListsEntry;
  }

  ghost predicate Grows(was: seq<Inflow>, now: seq<Inflow>, e: Item)
  {
    if EntryPays(e) then |now| == |was| + 1 && now[..|was|] == was && ListsEntry(now[|was|], e) else now == was
  }

  lemma FlatStep(items: seq<Item>, e: Item)
    requires items != [] && items[|items| - 1] == e
    ensures var before := Scan(items[..|items| - 1]);
      && (!before.Ok? ==> Scan(items) == before)
      && (before.Ok? && Stops(e) ==> Scan(items) == if e.NotAnObject? then EntryNotAnObject else InvalidValue)
      && (before.Ok? && !Stops(e) ==> Scan(items).Ok? && Grows(before.value, Scan(items).value, e))
  {
    if e.Entry? && e.action.Some? {
      EntryMeans(e);
      ClassifyMeans(EntryRecord(e));
    }
    hide Classify, PaysSome, Unreadable, Wei;
  }

  // ---------------------------------------------------------------- what is paid is listed

  /** A call to the subject that reports no error and whose value prints a number of wei. */
  predicate Sends(r: Record, wei: nat, capital: bool)
  {
    && r.recipient == Some(SUBJECT) && (r.error == None || r.error == Some(""))
    && (r.value == Some("0x" + Hex(wei, capital)) || r.value == Some("0X" + Hex(wei, capital)) || r.value == Some(Hex(wei, capital)))
  }

  lemma SendsPays(r: Record, wei: nat, capital: bool)
    requires Sends(r, wei, capital)
    ensures r.value.Some? && Wei(r.value.value) == Some(wei) && (PaysSome(r) <==> wei > 0)
  {
    ReadsWhatIsPrinted(wei, capital);
    hide Wei, Hex;
  }

  /** A call of the tree that sends the subject some wei is listed under its address with that number. */
  lemma PaidIsListed(root: Node, q: seq<nat>, wei: nat, capital: bool) returns (f: Inflow)
    requires RecordAt(root, q).Some? && Sends(RecordAt(root, q).value, wei, capital) && wei > 0
    requires Evidence(DebugCallTracer, Mapping(root)).Ok?
    ensures f in Evidence(DebugCallTracer, Mapping(root)).value && f.path == q && f.wei == wei
  {
    hide Evidence, Sends, Wei, PaysSome, RecordAt;
    SendsPays(RecordAt(root, q).value, wei, capital);
    var at := NestedLists(root);
    assert PaysAt(root, q);
    var i :| 0 <= i < |at| && at[i] == q;
    f := Evidence(DebugCallTracer, Mapping(root)).value[i];
    assert ListsAt(root, f, at[i]);
  }

  /** So is an entry of a flat result. */
  lemma PaidEntryIsListed(items: seq<Item>, k: nat, path: seq<nat>, r: Record, wei: nat, capital: bool) returns (f: Inflow)
    requires k < |items| && EntryIs(items[k], path, r) && Sends(r, wei, capital) && wei > 0 && Scan(items).Ok?
    ensures f in Scan(items).value && f.path == path && f.wei == wei
  {
    hide Scan, Sends, Wei, PaysSome;
    SendsPays(r, wei, capital);
    var at := FlatLists(items);
    assert EntryPays(items[k]);
    var i :| 0 <= i < |at| && at[i] == k;
    f := Scan(items).value[i];
    assert ListsEntry(f, items[at[i]]);
    var p, s :| EntryIs(items[k], p, s) && Lists(f, p, s);
    assert p == path && s == r;
  }

  // ---------------------------------------------------------------- shapes

  /** Which bodies a dialect decodes at all: a frame, or a list of one object whose `value` is a frame,
      and that like the frame itself; or an array. */
  lemma Shapes(body: Body)
    ensures Evidence(DebugCallTracer, body).NotACallFrame?
      <==> !body.Mapping? && !(body.List? && |body.items| == 1 && body.wrapped.Some? && body.wrapped.value.Frame?)
    ensures body.List? && |body.items| == 1 && body.wrapped.Some? && body.wrapped.value.Frame?
      ==> Evidence(DebugCallTracer, body) == Evidence(DebugCallTracer, Mapping(body.wrapped.value))
    ensures Evidence(ParityTraceTransaction, body).NotAnArray? <==> !body.List?
    ensures body.List? ==> Evidence(ParityTraceTransaction, body) == Scan(body.items)
  {
    if body.List? {
      ScanErrors(body.items);
    }
  }
}

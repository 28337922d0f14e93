/**
Choosing, validating and replacing a compaction span (compactionbasic/region.go).
 */
module Region {
  import opened SessionLog
  import opened Surface
  import opened ToolPairing

  /** One token-priced surface node. */
  datatype PricedNode = PricedNode(seqNo: nat, tokens: int, heuristicTokens: int)

  datatype RegionError = MeterMismatch | StartMissing | EndMissing | Reversed | StartUnbalanced | EndUnbalanced | Pairing(error: PairingError)

  function Tokens(nodes: seq<PricedNode>): int {
    if nodes == [] then 0 else nodes[0].tokens + Tokens(nodes[1..])
  }

  function Seqs(nodes: seq<PricedNode>): (r: seq<nat>)
    ensures |r| == |nodes| && forall i :: 0 <= i < |nodes| ==> r[i] == nodes[i].seqNo
  {
    seq(|nodes|, i requires 0 <= i < |nodes| => nodes[i].seqNo)
  }

  // ----- Selection -----

  /** Cutting before position k keeps a non-empty tail worth at least `retain` and splits no pair. */
  ghost predicate Cut(log: Log, nodes: seq<PricedNode>, retain: int, k: int)
    requires Located(log, Seqs(nodes))
  {
    0 < k < |nodes| && Tokens(nodes[k..]) >= retain && Count(log, Seqs(nodes)[..k]) == 0
  }

  lemma {:induction false} LongerTailsCostMore(nodes: seq<PricedNode>, j: nat, k: nat)
    requires j <= k <= |nodes| && forall i :: 0 <= i < |nodes| ==> nodes[i].tokens >= 0
    ensures Tokens(nodes[k..]) <= Tokens(nodes[j..])
    decreases k - j
  {
    if j < k {
      LongerTailsCostMore(nodes, j + 1, k);
      assert nodes[j..][1..] == nodes[j + 1..];
    }
  }

  /** The next head-anchored range: everything before the largest position that is a `Cut`. */
  method SelectCompactableRange(balance: ToolPairingBalance, sess: Session, nodes: seq<PricedNode>, retain: int)
    returns (r: Result<Option<(nat, nat)>, RegionError>)
    requires balance.Follows(sess) && forall i :: 0 <= i < |nodes| ==> nodes[i].tokens >= 0
    modifies balance
    ensures balance.Follows(sess) && Located(sess.log, Nodes(sess.log))
    ensures r == Err(MeterMismatch) <==> nodes != [] && Seqs(nodes) != Nodes(sess.log)
    ensures r.Err? ==> r.error == MeterMismatch || (r.error == Pairing(Unmatched) && !Matched(sess.log, Nodes(sess.log)))
    ensures r.Ok? && r.value.None? ==> nodes == [] || forall k :: !Cut(sess.log, nodes, retain, k)
    // Whatever is returned passes validation.
    ensures r.Ok? && r.value.Some? ==> Replaceable(sess.log, r.value.value.0, r.value.value.1)
    ensures r.Ok? && r.value.Some? ==>
      exists k {:trigger Cut(sess.log, nodes, retain, k)} ::
        && Cut(sess.log, nodes, retain, k)
        && r.value.value == (nodes[0].seqNo, nodes[k - 1].seqNo)
        && forall j :: j > k ==> !Cut(sess.log, nodes, retain, j)
  {
    NodesAreSurfaceEvents(sess.log);
    if nodes == [] { return Ok(None); }
    if Seqs(nodes) != Nodes(sess.log) { return Err(MeterMismatch); }
    hide Fold, Count, Matched, Describes, Replaceable;
    var reach := CheapestTail(nodes, retain);
    var walked := WalkToBalance(balance, sess, Nodes(sess.log), reach);
    match walked
    case Err(e) => return Err(Pairing(e));
    case Ok(keepFrom) =>
    forall j | keepFrom < j ensures !Cut(sess.log, nodes, retain, j) {}
    if keepFrom == 0 { return Ok(None); }
    LongerTailsCostMore(nodes, keepFrom, reach);
    assert Cut(sess.log, nodes, retain, keepFrom);
    SelectedRangeIsReplaceable(sess.log, nodes, retain, keepFrom);
    return Ok(Some((nodes[0].seqNo, nodes[keepFrom - 1].seqNo)));
  }

  /** The largest balanced cut at or below `from`; cut 0 is always balanced. */
  method WalkToBalance(balance: ToolPairingBalance, sess: Session, surface: seq<nat>, from: nat) returns (r: Result<nat, PairingError>)
    requires balance.Follows(sess) && surface == Nodes(sess.log) && Located(sess.log, surface) && from < |surface|
    modifies balance
    ensures balance.Follows(sess)
    ensures r.Err? ==> r.error == Unmatched && !Matched(sess.log, surface)
    ensures r.Ok? ==> r.value <= from && (r.value > 0 ==> Matched(sess.log, surface) && Count(sess.log, surface[..r.value]) == 0)
    ensures r.Ok? ==> forall j :: r.value < j <= from ==> Count(sess.log, surface[..j]) != 0
  {
    hide Fold, Count, FromScratch, Matched, Describes;
    var keepFrom := from;
    while keepFrom > 0
      invariant 0 <= keepFrom <= from && balance.Follows(sess)
      invariant forall j :: keepFrom < j <= from ==> Count(sess.log, surface[..j]) != 0
    {
      var balanced := balance.BalancedBefore(sess, surface[keepFrom]);
      AnswerAt(sess.log, keepFrom, 0);
      match balanced
      case Err(e) => return Err(e);
      case Ok(b) =>
      if b { return Ok(keepFrom); }
      keepFrom := keepFrom - 1;
    }
    return Ok(0);
  }

  lemma AnswerAt(log: Log, k: nat, offset: nat)
    requires ValidLog(log) && Located(log, Nodes(log)) && k < |Nodes(log)| && offset <= 1
    ensures FromScratch(log, Nodes(log)[k], offset) ==
            if Matched(log, Nodes(log)) then Ok(Count(log, Nodes(log)[..k + offset]) == 0) else Err(Unmatched)
  {
    NodesAreSurfaceEvents(log);
    assert IndexOf(Nodes(log), Nodes(log)[k]) == k;
  }

  lemma TailOneMore(nodes: seq<PricedNode>, k: nat)
    requires k < |nodes|
    ensures Tokens(nodes[k..]) == nodes[k].tokens + Tokens(nodes[k + 1..])
  {
    assert nodes[k..][1..] == nodes[k + 1..];
  }

  /** The largest position whose tail reaches `retain`, or 0 when only the whole list or nothing does. */
  method CheapestTail(nodes: seq<PricedNode>, retain: int) returns (keepFrom: nat)
    requires nodes != [] && forall i :: 0 <= i < |nodes| ==> nodes[i].tokens >= 0
    ensures keepFrom < |nodes| && (keepFrom > 0 ==> Tokens(nodes[keepFrom..]) >= retain)
    ensures forall j :: keepFrom < j < |nodes| ==> Tokens(nodes[j..]) < retain
  {
    var accumulated, index := 0, |nodes| - 1;
    keepFrom := |nodes|;
    assert nodes[|nodes|..] == [] && Tokens([]) == 0;
    hide Tokens;
    while index >= 0
      invariant -1 <= index < |nodes| && keepFrom == index + 1
      invariant accumulated == Tokens(nodes[keepFrom..])
      invariant forall j :: keepFrom <= j < |nodes| ==> Tokens(nodes[j..]) < retain
    {
      TailOneMore(nodes, index);
      accumulated := accumulated + nodes[index].tokens;
      keepFrom := index;
      if accumulated >= retain { break; }
      index := index - 1;
    }
  }

  // ----- Validation -----

  /** The span from start to end is on the surface, in order, and splits no tool-call/result pair. */
  ghost predicate Replaceable(log: Log, start: nat, end: nat)
    requires ValidLog(log) && Located(log, Nodes(log))
  {
    var nodes := Nodes(log);
    && Matched(log, nodes)
    && start in nodes && end in nodes && IndexOf(nodes, start) <= IndexOf(nodes, end)
    && Count(log, nodes[..IndexOf(nodes, start)]) == 0
    && Count(log, nodes[..IndexOf(nodes, end) + 1]) == 0
  }

  datatype Selection = Selection(start: nat, end: nat, startIdx: nat, endIdx: nat, shadowed: seq<nat>)

  /** The surface before the cut holds more calls than results, or more results than calls. */
  ghost predicate UnevenAt(log: Log, k: nat) {
    ValidLog(log) && Located(log, Nodes(log)) && k <= |Nodes(log)| && Count(log, Nodes(log)[..k]) != 0
  }

  /** Each refusal of a region by its cause. */
  ghost predicate RefusedFor(log: Log, start: nat, end: nat, e: RegionError)
    requires ValidLog(log) && Located(log, Nodes(log))
  {
    var nodes := Nodes(log);
    match e
    case StartMissing => start !in nodes
    case EndMissing => start in nodes && end !in nodes
    case Reversed => start in nodes && end in nodes && IndexOf(nodes, start) > IndexOf(nodes, end)
    case Pairing(cause) => cause == Unmatched && !Matched(log, nodes)
    case StartUnbalanced => UnevenAt(log, IndexOf(nodes, start))
    case EndUnbalanced => UnevenAt(log, IndexOf(nodes, end) + 1)
    case MeterMismatch => false
  }

  method ValidateSurfaceRegion(balance: ToolPairingBalance, sess: Session, start: nat, end: nat) returns (r: Result<Selection, RegionError>)
    requires balance.Follows(sess)
    modifies balance
    ensures balance.Follows(sess) && Located(sess.log, Nodes(sess.log))
    ensures r.Ok? <==> Replaceable(sess.log, start, end)
    ensures r.Ok? ==>
      var nodes := Nodes(sess.log);
      var i, j := IndexOf(nodes, start), IndexOf(nodes, end);
      r.value == Selection(start, end, i, j, nodes[i..j + 1])
    ensures r.Err? ==> RefusedFor(sess.log, start, end, r.error)
  {
    LocatedNodes(sess.log);
    hide Fold, Count, Matched, Describes, IndexOf, Located, Replaceable, RefusedFor, UnevenAt;
    var nodes := Nodes(sess.log);
    var i, j := IndexOf(nodes, start), IndexOf(nodes, end);
    Misplaced(sess.log, start, end);
    if i == |nodes| { return Err(StartMissing); }
    if j == |nodes| { return Err(EndMissing); }
    if i > j { return Err(Reversed); }
    var uneven := CheckCuts(balance, sess, i, j);
    Placed(sess.log, start, end, uneven);
    match uneven
    case Some(e) => return Err(e);
    case None => return Ok(Selection(start, end, i, j, nodes[i..j + 1]));
  }

  lemma Misplaced(log: Log, start: nat, end: nat)
    requires ValidLog(log) && Located(log, Nodes(log))
    ensures var nodes := Nodes(log);
            var i, j := IndexOf(nodes, start), IndexOf(nodes, end);
            && (Replaceable(log, start, end) ==> i <= j < |nodes|)
            && (i == |nodes| ==> RefusedFor(log, start, end, StartMissing))
            && (i < |nodes| == j ==> RefusedFor(log, start, end, EndMissing))
            && (j < i < |nodes| ==> RefusedFor(log, start, end, Reversed))
  {
    hide Fold, Count, Matched;
  }

  lemma Placed(log: Log, start: nat, end: nat, uneven: Option<RegionError>)
    requires ValidLog(log) && Located(log, Nodes(log)) && IndexOf(Nodes(log), start) <= IndexOf(Nodes(log), end) < |Nodes(log)|
    requires uneven == Uneven(log, IndexOf(Nodes(log), start), IndexOf(Nodes(log), end))
    ensures uneven.None? <==> Replaceable(log, start, end)
    ensures uneven.Some? ==> RefusedFor(log, start, end, uneven.value)
  {
    hide Fold, Count, Matched;
  }

  ghost function Uneven(log: Log, i: nat, j: nat): Option<RegionError>
    requires ValidLog(log) && Located(log, Nodes(log))
  {
    if !Matched(log, Nodes(log)) then Some(Pairing(Unmatched))
    else if UnevenAt(log, i) then Some(StartUnbalanced)
    else if UnevenAt(log, j + 1) then Some(EndUnbalanced) else None
  }

  /** Whether the cuts before node i and after node j of the surface are balanced. */
  method CheckCuts(balance: ToolPairingBalance, sess: Session, i: nat, j: nat) returns (r: Option<RegionError>)
    requires balance.Follows(sess) && i < |Nodes(sess.log)| && j < |Nodes(sess.log)|
    modifies balance
    ensures balance.Follows(sess) && Located(sess.log, Nodes(sess.log))
    ensures r == Uneven(sess.log, i, j)
  {
    LocatedNodes(sess.log);
    hide Fold, Count, Matched, Describes, FromScratch, Located, Uneven;
    var nodes := Nodes(sess.log);
    Answers(sess.log, i, j);
    var before := balance.BalancedBefore(sess, nodes[i]);
    if before.Err? { return Some(Pairing(before.error)); }
    if !before.value { return Some(StartUnbalanced); }
    var after := balance.BalancedAfter(sess, nodes[j]);
    match after
    case Err(e) => return Some(Pairing(e));
    case Ok(balanced) => return if balanced then None else Some(EndUnbalanced);
  }

  lemma Answers(log: Log, i: nat, j: nat)
    requires ValidLog(log) && Located(log, Nodes(log)) && i < |Nodes(log)| && j < |Nodes(log)|
    ensures var before, after := FromScratch(log, Nodes(log)[i], 0), FromScratch(log, Nodes(log)[j], 1);
            Uneven(log, i, j) == if before.Err? then Some(Pairing(before.error)) else if !before.value then Some(StartUnbalanced)
                                 else if after.Err? then Some(Pairing(after.error)) else if !after.value then Some(EndUnbalanced) else None
  {
    hide Fold, Count, Matched, FromScratch;
    AnswerAt(log, i, 0);
    AnswerAt(log, j, 1);
  }

  /** A balanced cut of a matched surface ends a replaceable range. */
  lemma SelectedRangeIsReplaceable(log: Log, nodes: seq<PricedNode>, retain: int, k: int)
    requires ValidLog(log) && Located(log, Nodes(log)) && Matched(log, Nodes(log)) && Seqs(nodes) == Nodes(log)
    requires Cut(log, nodes, retain, k)
    ensures Replaceable(log, nodes[0].seqNo, nodes[k - 1].seqNo)
  {
    NodesAreSurfaceEvents(log);
    var surface := Nodes(log);
    assert surface[0] == nodes[0].seqNo && surface[k - 1] == nodes[k - 1].seqNo;
    assert IndexOf(surface, surface[k - 1]) == k - 1;
  }

  /** A replaceable span holds as many results as calls, every assistant message in it is followed
      inside it by a result for each of its calls, and no result in it runs ahead of the calls in it. */
  lemma ReplaceableSpanPairs(log: Log, start: nat, end: nat)
    requires ValidLog(log) && Located(log, Nodes(log)) && Replaceable(log, start, end)
    ensures var span := Span(Nodes(log), start, end);
            && Located(log, span) && Calls(log, span) == Results(log, span)
            && (forall m :: 0 <= m <= |span| ==> Results(log, span[..m]) <= Calls(log, span[..m]))
            && (forall a :: 0 <= a < |span| && log[span[a]].AssistantMessage? ==> Results(log, span[a + 1..]) >= log[span[a]].toolCalls)
  {
    hide Count, Calls, Results, Matched, Located, IndexOf;
    var nodes, span := Nodes(log), Span(Nodes(log), start, end);
    var i, j := IndexOf(nodes, start), IndexOf(nodes, end) + 1;
    CutsPair(log, nodes, i, j);
  }

  lemma CutsPair(log: Log, nodes: seq<nat>, i: nat, j: nat)
    requires Located(log, nodes) && Matched(log, nodes) && i <= j <= |nodes|
    requires Count(log, nodes[..i]) == 0 && Count(log, nodes[..j]) == 0
    ensures var span := nodes[i..j];
            && Located(log, span) && Calls(log, span) == Results(log, span)
            && (forall m :: 0 <= m <= |span| ==> Results(log, span[..m]) <= Calls(log, span[..m]))
            && (forall a :: 0 <= a < |span| && log[span[a]].AssistantMessage? ==> Results(log, span[a + 1..]) >= log[span[a]].toolCalls)
  {
    hide Count, Calls, Results, Matched;
    var span := nodes[i..j];
    CountBetween(log, nodes, i, j);
    forall m | 0 <= m <= |span| ensures Results(log, span[..m]) <= Calls(log, span[..m]) {
      BalancedCutKeepsCalls(log, nodes, i, i + m);
      assert nodes[i..i + m] == span[..m];
    }
    forall a | 0 <= a < |span| && log[span[a]].AssistantMessage? ensures Results(log, span[a + 1..]) >= log[span[a]].toolCalls {
      BalancedCutKeepsAnswers(log, nodes, i + a, j);
      assert nodes[i + a + 1..j] == span[a + 1..];
    }
  }

  /** What a selection keeps and what it gives away: a tail cut off at a `Cut` answers none of the
      calls before it, and leaves none of them unanswered. */
  lemma CutSplitsNoPair(log: Log, nodes: seq<PricedNode>, retain: int, k: int, a: nat)
    requires Located(log, Seqs(nodes)) && Matched(log, Seqs(nodes)) && Cut(log, nodes, retain, k)
    requires a < k && log[nodes[a].seqNo].AssistantMessage?
    ensures Results(log, Seqs(nodes)[a + 1..k]) >= log[nodes[a].seqNo].toolCalls
    ensures forall m :: k <= m <= |nodes| ==> Results(log, Seqs(nodes)[k..m]) <= Calls(log, Seqs(nodes)[k..m])
  {
    hide Count, Calls, Results, Matched;
    BalancedCutKeepsAnswers(log, Seqs(nodes), a, k);
    forall m | k <= m <= |nodes| ensures Results(log, Seqs(nodes)[k..m]) <= Calls(log, Seqs(nodes)[k..m]) {
      BalancedCutKeepsCalls(log, Seqs(nodes), k, m);
    }
  }

  // ----- Replacement -----

  /** Every cut before i and every cut from j on has the same count on the later surface, where
      the nodes i..j became one node. */
  ghost predicate OutsideCountsKept(log: Log, nodes: seq<nat>, later: Log, after: seq<nat>, i: nat, j: nat)
    requires Located(log, nodes) && Located(later, after) && i <= j <= |nodes| && |after| == |nodes| - j + i + 1
  {
    && (forall k :: 0 <= k <= i ==> Count(later, after[..k]) == Count(log, nodes[..k]))
    && (forall k :: i < k <= |after| ==> Count(later, after[..k]) == Count(log, nodes[..k - i - 1 + j]))
  }

  /** Replacing a span by one event that opens and answers as many calls as the span did, none for a
      message and one answer for a rewritten result, leaves the count of every cut outside the span as it was, so prefix counts stay non-negative. */
  lemma SplicePreservesCounts(log: Log, e: Event, nodes: seq<nat>, i: nat, j: nat)
    requires Located(log, nodes) && i <= j <= |nodes| && Count(log, nodes[i..j]) == Delta(e)
    ensures var later, after := log + [e], Spliced(nodes, i, j, |log|);
            && Located(later, after)
            && OutsideCountsKept(log, nodes, later, after, i, j)
            && (Matched(log, nodes) ==> Matched(later, after))
  {
    hide Count, Delta, Spliced;
    var later, after := log + [e], Spliced(nodes, i, j, |log|);
    SplicedTail(log, e, nodes, i, j, |nodes|);
    forall k | 0 <= k <= i ensures Count(later, after[..k]) == Count(log, nodes[..k]) {
      SplicedHead(log, e, nodes, i, j, k);
    }
    forall k | i < k <= |after| ensures Count(later, after[..k]) == Count(log, nodes[..k - i - 1 + j]) {
      SplicedTail(log, e, nodes, i, j, k - i - 1 + j);
    }
    OutsideKeepsMatched(log, nodes, later, after, i, j);
  }

  lemma SplicedHead(log: Log, e: Event, nodes: seq<nat>, i: nat, j: nat, k: nat)
    requires Located(log, nodes) && k <= i <= j <= |nodes|
    ensures var after := Spliced(nodes, i, j, |log|);
            Located(log + [e], after) && Count(log + [e], after[..k]) == Count(log, nodes[..k])
  {
    hide Count;
    assert Spliced(nodes, i, j, |log|)[..k] == nodes[..k];
    CountIsStable(log, log + [e], nodes[..k]);
  }

  lemma OutsideKeepsMatched(log: Log, nodes: seq<nat>, later: Log, after: seq<nat>, i: nat, j: nat)
    requires Located(log, nodes) && Located(later, after) && i <= j <= |nodes| && |after| == |nodes| - j + i + 1
    requires OutsideCountsKept(log, nodes, later, after, i, j)
    ensures Matched(log, nodes) ==> Matched(later, after)
  {
    hide Count;
  }

  lemma CountThree(log: Log, a: seq<nat>, b: seq<nat>, c: seq<nat>)
    requires Located(log, a) && Located(log, b) && Located(log, c)
    ensures Located(log, a + b + c) && Count(log, a + b + c) == Count(log, a) + Count(log, b) + Count(log, c)
  {
    hide Count;
    CountConcat(log, a, b);
    CountConcat(log, a + b, c);
  }

  lemma CountOfOne(log: Log, n: nat)
    requires n < |log|
    ensures Count(log, [n]) == Delta(log[n])
  {
    CountOneMore(log, [n], 0);
    assert [n][..1] == [n];
  }

  lemma SplicedTail(log: Log, e: Event, nodes: seq<nat>, i: nat, j: nat, k: nat)
    requires Located(log, nodes) && i <= j <= k <= |nodes| && Count(log, nodes[i..j]) == Delta(e)
    ensures var later, after := log + [e], Spliced(nodes, i, j, |log|);
            Located(later, after) && Count(later, after[..k - j + i + 1]) == Count(log, nodes[..k])
  {
    hide Count, Delta;
    var later, n := log + [e], |log|;
    assert Spliced(nodes, i, j, n)[..k - j + i + 1] == nodes[..i] + [n] + nodes[j..k];
    assert nodes[..k] == nodes[..i] + nodes[i..j] + nodes[j..k];
    CountOfOne(later, n);
    CountThree(later, nodes[..i], [n], nodes[j..k]);
    CountThree(log, nodes[..i], nodes[i..j], nodes[j..k]);
    CountIsStable(log, later, nodes[..i]);
    CountIsStable(log, later, nodes[j..k]);
  }

  /** What a request pays for each surface event: text-only messages by their text, the rest as the
      current route prices it. */
  datatype Meter = Meter(message: Message -> nat, other: Event -> nat, heuristic: Event -> nat)

  function Price(meter: Meter, e: Event): nat {
    if e.UserMessage? && e.message.textOnly then meter.message(e.message) else meter.other(e)
  }

  function Total(meter: Meter, log: Log, nodes: seq<nat>): nat
    requires Located(log, nodes)
  {
    if nodes == [] then 0
    else Total(meter, log, nodes[..|nodes| - 1]) + Price(meter, log[nodes[|nodes| - 1]])
  }

  lemma {:induction false} TotalConcat(meter: Meter, log: Log, a: seq<nat>, b: seq<nat>)
    requires Located(log, a) && Located(log, b)
    ensures Located(log, a + b) && Total(meter, log, a + b) == Total(meter, log, a) + Total(meter, log, b)
  {
    if b == [] {
      assert a + b == a;
    } else {
      TotalConcat(meter, log, a, b[..|b| - 1]);
      assert (a + b)[..|a + b| - 1] == a + b[..|b| - 1];
    }
  }

  lemma {:induction false} TotalIsStable(meter: Meter, log: Log, later: Log, nodes: seq<nat>)
    requires Located(log, nodes) && log <= later
    ensures Total(meter, later, nodes) == Total(meter, log, nodes)
  {
    if nodes != [] {
      TotalIsStable(meter, log, later, nodes[..|nodes| - 1]);
    }
  }

  lemma TotalThree(meter: Meter, log: Log, a: seq<nat>, b: seq<nat>, c: seq<nat>)
    requires Located(log, a) && Located(log, b) && Located(log, c)
    ensures Located(log, a + b + c) && Total(meter, log, a + b + c) == Total(meter, log, a) + Total(meter, log, b) + Total(meter, log, c)
  {
    hide Total;
    TotalConcat(meter, log, a, b);
    TotalConcat(meter, log, a + b, c);
  }

  lemma TotalOfOne(meter: Meter, log: Log, n: nat)
    requires n < |log|
    ensures Total(meter, log, [n]) == Price(meter, log[n])
  {
    assert [n][..0] == [];
  }

  /** A replacement changes the surface total by exactly the difference of the two prices. */
  lemma SplicePrice(meter: Meter, log: Log, e: Event, nodes: seq<nat>, i: nat, j: nat)
    requires Located(log, nodes) && i <= j <= |nodes|
    ensures var after := Spliced(nodes, i, j, |log|);
            && Located(log + [e], after)
            && Total(meter, log + [e], after) == Total(meter, log, nodes) - Total(meter, log, nodes[i..j]) + Price(meter, e)
  {
    hide Total, Price;
    var later, n := log + [e], |log|;
    assert nodes == nodes[..i] + nodes[i..j] + nodes[j..];
    TotalOfOne(meter, later, n);
    TotalThree(meter, later, nodes[..i], [n], nodes[j..]);
    TotalThree(meter, log, nodes[..i], nodes[i..j], nodes[j..]);
    TotalIsStable(meter, log, later, nodes[..i]);
    TotalIsStable(meter, log, later, nodes[j..]);
  }
}

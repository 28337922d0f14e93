/**
Tool-pairing balance over a session surface (compaction/tool-pairing.go): how many tool calls
are unanswered at every cut, and the incremental cache that answers for it.
 */
module ToolPairing {
  import opened SessionLog
  import opened Surface

  /** How one surface event changes the count of unanswered tool calls. */
  function Delta(e: Event): int {
    match e
    case AssistantMessage(_, toolCalls, _, _) => toolCalls
    case ToolResult(_, _, _, _, _, _) => -1
    case _ => 0
  }

  predicate Located(log: Log, nodes: seq<nat>) {
    forall i :: 0 <= i < |nodes| ==> nodes[i] < |log|
  }

  lemma LocatedNodes(log: Log)
    requires ValidLog(log)
    ensures Located(log, Nodes(log))
  {
    NodesAreSurfaceEvents(log);
  }

  /** The tool calls that the assistant messages among the nodes carry. */
  function Calls(log: Log, nodes: seq<nat>): nat
    requires Located(log, nodes)
  {
    if nodes == [] then 0
    else
      var e := log[nodes[|nodes| - 1]];
      Calls(log, nodes[..|nodes| - 1]) + if e.AssistantMessage? then e.toolCalls else 0
  }

  /** The tool results among the nodes. */
  function Results(log: Log, nodes: seq<nat>): nat
    requires Located(log, nodes)
  {
    if nodes == [] then 0
    else Results(log, nodes[..|nodes| - 1]) + if log[nodes[|nodes| - 1]].ToolResult? then 1 else 0
  }

  /** The unanswered tool calls after the given nodes, counted from scratch. */
  function Count(log: Log, nodes: seq<nat>): int
    requires Located(log, nodes)
  {
    Calls(log, nodes) - Results(log, nodes)
  }

  /** No tool result precedes its call: every prefix count is non-negative. */
  ghost predicate Matched(log: Log, nodes: seq<nat>)
    requires Located(log, nodes)
  {
    forall k :: 0 <= k <= |nodes| ==> Count(log, nodes[..k]) >= 0
  }

  lemma {:induction false} CountIsStable(log: Log, later: Log, nodes: seq<nat>)
    requires Located(log, nodes) && log <= later
    ensures Count(later, nodes) == Count(log, nodes)
  {
    if nodes != [] {
      CountIsStable(log, later, nodes[..|nodes| - 1]);
    }
  }

  lemma {:induction false} CountConcat(log: Log, a: seq<nat>, b: seq<nat>)
    requires Located(log, a) && Located(log, b)
    ensures Located(log, a + b) && Count(log, a + b) == Count(log, a) + Count(log, b)
  {
    if b == [] {
      assert a + b == a;
    } else {
      CountConcat(log, a, b[..|b| - 1]);
      assert (a + b)[..|a + b| - 1] == a + b[..|b| - 1];
    }
  }

  /** The running count is the from-scratch one: what one event adds is its calls less its result. */
  lemma CountOneMore(log: Log, nodes: seq<nat>, k: nat)
    requires Located(log, nodes) && k < |nodes|
    ensures Count(log, nodes[..k + 1]) == Count(log, nodes[..k]) + Delta(log[nodes[k]])
  {
    assert nodes[..k + 1][..k] == nodes[..k];
  }

  lemma CountBetween(log: Log, nodes: seq<nat>, i: nat, j: nat)
    requires Located(log, nodes) && i <= j <= |nodes|
    ensures Count(log, nodes[..j]) == Count(log, nodes[..i]) + Calls(log, nodes[i..j]) - Results(log, nodes[i..j])
  {
    assert nodes[..j] == nodes[..i] + nodes[i..j];
    CountConcat(log, nodes[..i], nodes[i..j]);
  }

  /** No balanced cut separates an assistant message with n tool calls from the n-th result after it. */
  lemma BalancedCutKeepsAnswers(log: Log, nodes: seq<nat>, a: nat, k: nat)
    requires Located(log, nodes) && Matched(log, nodes) && a < k <= |nodes| && Count(log, nodes[..k]) == 0
    requires log[nodes[a]].AssistantMessage?
    ensures Results(log, nodes[a + 1..k]) >= log[nodes[a]].toolCalls
  {
    hide Count, Calls, Results;
    CountOneMore(log, nodes, a);
    CountBetween(log, nodes, a + 1, k);
  }

  /** Past a balanced cut every result answers a call past it: no stretch from the cut holds more
      results than calls. */
  lemma BalancedCutKeepsCalls(log: Log, nodes: seq<nat>, k: nat, m: nat)
    requires Located(log, nodes) && Matched(log, nodes) && k <= m <= |nodes| && Count(log, nodes[..k]) == 0
    ensures Results(log, nodes[k..m]) <= Calls(log, nodes[k..m])
  {
    hide Count, Calls, Results;
    CountBetween(log, nodes, k, m);
  }

  datatype PairingError = Unmatched | NotFound

  /** The answer to "is the cut at the seq's position plus offset balanced", from scratch. */
  ghost function FromScratch(log: Log, seqNo: nat, offset: nat): Result<bool, PairingError>
    requires ValidLog(log) && Located(log, Nodes(log)) && offset <= 1
  {
    var nodes := Nodes(log);
    if !Matched(log, nodes) then Err(Unmatched)
    else if seqNo !in nodes then Err(NotFound)
    else Ok(Count(log, nodes[..IndexOf(nodes, seqNo) + offset]) == 0)
  }

  /** What the cache's fields mean: `seen` are the folded nodes of the owner's surface as it was
      in log `at`.  A failed fold may leave the running count short, but only when the surface
      has an unmatched result past `seen`. */
  ghost predicate Describes(at: Log, seen: seq<nat>, cutBalanced: seq<bool>, indexBySeq: map<nat, nat>, inProgress: int) {
    && ValidLog(at) && Located(at, Nodes(at)) && seen <= Nodes(at)
    && |cutBalanced| == |seen| + 1
    && (forall k :: 0 <= k <= |seen| ==> Count(at, Nodes(at)[..k]) >= 0)
    && (forall k :: 0 <= k <= |seen| ==> (cutBalanced[k] <==> Count(at, Nodes(at)[..k]) == 0))
    && (forall i :: 0 <= i < |seen| ==> seen[i] in indexBySeq && indexBySeq[seen[i]] == i)
    && (forall s :: s in indexBySeq ==> s in seen)
    && (inProgress == Count(at, seen) || (inProgress < 0 && !Matched(at, Nodes(at))))
  }

  lemma DescribesLater(at: Log, later: Log, seen: seq<nat>, cutBalanced: seq<bool>, indexBySeq: map<nat, nat>, inProgress: int)
    requires Describes(at, seen, cutBalanced, indexBySeq, inProgress)
    requires ValidLog(later) && at <= later && Generation(at) == Generation(later)
    ensures Describes(later, seen, cutBalanced, indexBySeq, inProgress)
  {
    NodesAreSurfaceEvents(later);
    SurfaceGrows(at, later);
    forall k | 0 <= k <= |Nodes(at)| ensures Nodes(later)[..k] == Nodes(at)[..k] && Count(later, Nodes(at)[..k]) == Count(at, Nodes(at)[..k]) {
      CountIsStable(at, later, Nodes(at)[..k]);
    }
    assert seen == Nodes(at)[..|seen|];
  }

  /** The tail past `processed` was counted with a total `debt` short, never below zero. */
  ghost predicate TailCounted(log: Log, nodes: seq<nat>, processed: nat, debt: int, total: int, cuts: seq<bool>)
    requires Located(log, nodes) && processed <= |nodes|
  {
    && |cuts| == |nodes| - processed && total == Count(log, nodes) - debt
    && (forall k :: processed < k <= |nodes| ==>
          Count(log, nodes[..k]) >= debt && (cuts[k - processed - 1] <==> Count(log, nodes[..k]) == debt))
  }

  /** Counting the tail a `debt` short went below zero. */
  ghost predicate TailFails(log: Log, nodes: seq<nat>, processed: nat, debt: int, total: int)
    requires Located(log, nodes)
  {
    total < 0 && exists k :: processed < k <= |nodes| && Count(log, nodes[..k]) == total + debt
  }

  /** A count that starts short fails again: the surface stays unmatched and the cache stays sound. */
  lemma FailureStaysSound(at: Log, seen: seq<nat>, cuts: seq<bool>, index: map<nat, nat>, before: int, after: int)
    requires Describes(at, seen, cuts, index, before)
    requires TailFails(at, Nodes(at), |seen|, Count(at, Nodes(at)[..|seen|]) - before, after)
    ensures !Matched(at, Nodes(at)) && Describes(at, seen, cuts, index, after)
  {
    hide Fold, Count;
    var nodes := Nodes(at);
    assert nodes[..|seen|] == seen;
    var k :| |seen| < k <= |nodes| && Count(at, nodes[..k]) == after + (Count(at, nodes[..|seen|]) - before);
  }

  /** A count that reaches the end started at the true count, so the surface is matched. */
  lemma SuccessIsExact(at: Log, seen: seq<nat>, cuts: seq<bool>, index: map<nat, nat>, before: int, after: int, more: seq<bool>, index': map<nat, nat>)
    requires Describes(at, seen, cuts, index, before)
    requires TailCounted(at, Nodes(at), |seen|, Count(at, Nodes(at)[..|seen|]) - before, after, more)
    requires forall i :: 0 <= i < |Nodes(at)| ==> Nodes(at)[i] in index' && index'[Nodes(at)[i]] == i
    requires forall s :: s in index' ==> s in Nodes(at)
    ensures Matched(at, Nodes(at)) && Describes(at, Nodes(at), cuts + more, index', after)
  {
    hide Fold, Count;
    var nodes := Nodes(at);
    assert nodes[..|seen|] == seen && nodes[..|nodes|] == nodes;
    assert forall k :: 0 <= k <= |nodes| ==> Count(at, nodes[..k]) >= 0;
  }

  /** An unmatched result stays unmatched until the surface is rewritten. */
  lemma UnmatchedPersists(log: Log, later: Log)
    requires ValidLog(later) && log <= later && ValidLog(log) && Generation(log) == Generation(later)
    requires Located(log, Nodes(log)) && !Matched(log, Nodes(log))
    ensures Located(later, Nodes(later)) && !Matched(later, Nodes(later))
  {
    NodesAreSurfaceEvents(later);
    SurfaceGrows(log, later);
    var k :| 0 <= k <= |Nodes(log)| && Count(log, Nodes(log)[..k]) < 0;
    CountIsStable(log, later, Nodes(log)[..k]);
    assert Nodes(later)[..k] == Nodes(log)[..k];
  }

  lemma SeenIsIndexed(at: Log, seen: seq<nat>, cuts: seq<bool>, index: map<nat, nat>, total: int)
    requires Describes(at, seen, cuts, index, total)
    ensures ValidLog(at) && Located(at, Nodes(at)) && Distinct(Nodes(at)) && |cuts| == |seen| + 1 && |seen| <= |Nodes(at)|
    ensures forall i :: 0 <= i < |seen| ==> Nodes(at)[i] in index && index[Nodes(at)[i]] == i
    ensures forall s :: s in index ==> s in Nodes(at)
  {
    NodesAreSurfaceEvents(at);
  }

  lemma NothingLeft(at: Log, seen: seq<nat>, cuts: seq<bool>, index: map<nat, nat>, total: int)
    requires Describes(at, seen, cuts, index, total) && |seen| >= |Nodes(at)|
    ensures seen == Nodes(at) && Matched(at, Nodes(at))
  {
  }

  /** The incremental cache.  Its answers, errors included, are always the from-scratch ones. */
  class ToolPairingBalance {
    var owner: Session?
    var generation: int
    var cutBalanced: seq<bool>
    var indexBySeq: map<nat, nat>
    var inProgressToolCalls: int
    ghost var seen: seq<nat>
    ghost var at: Log

    ghost predicate Valid()
      reads this
    {
      owner != null ==> Describes(at, seen, cutBalanced, indexBySeq, inProgressToolCalls) && generation == Generation(at)
    }

    /** The cache was last used on a session whose log has only been appended to since. */
    ghost predicate Follows(sess: Session)
      reads this, sess
    {
      Valid() && ValidLog(sess.log) && (owner == sess ==> at <= sess.log)
    }

    constructor ()
      ensures Valid() && owner == null
    {
      owner, generation, cutBalanced, indexBySeq, inProgressToolCalls := null, -1, [true], map[], 0;
      seen, at := [], [];
    }

    /** Starts over when the session or its surface generation changed. */
    method Rebase(sess: Session)
      requires Follows(sess)
      modifies this
      ensures Valid() && owner == sess && at == sess.log
    {
      NodesAreSurfaceEvents(sess.log);
      var rebuild := owner != sess || generation != Generation(sess.log) || |cutBalanced| - 1 > |Nodes(sess.log)|;
      if owner == sess && generation == Generation(sess.log) {
        DescribesLater(at, sess.log, seen, cutBalanced, indexBySeq, inProgressToolCalls);
      }
      if rebuild {
        owner, generation, cutBalanced, indexBySeq, inProgressToolCalls := sess, Generation(sess.log), [true], map[], 0;
        seen := [];
      }
      at := sess.log;
    }

    /** Adds the unseen nodes to the running count, which starts `debt` short of the true one. */
    method CountTail(log: Log, nodes: seq<nat>, processed: nat) returns (ok: bool, pendingCuts: seq<bool>)
      requires Located(log, nodes) && processed <= |nodes|
      modifies this`inProgressToolCalls
      ensures var debt := Count(log, nodes[..processed]) - old(inProgressToolCalls);
              if ok then TailCounted(log, nodes, processed, debt, inProgressToolCalls, pendingCuts)
              else TailFails(log, nodes, processed, debt, inProgressToolCalls)
    {
      ghost var debt := Count(log, nodes[..processed]) - inProgressToolCalls;
      pendingCuts := [];
      for i := processed to |nodes|
        invariant |pendingCuts| == i - processed && inProgressToolCalls == Count(log, nodes[..i]) - debt
        invariant forall k :: processed < k <= i ==>
          Count(log, nodes[..k]) >= debt && (pendingCuts[k - processed - 1] <==> Count(log, nodes[..k]) == debt)
      {
        CountOneMore(log, nodes, i);
        // A surface node always names a logged event, so the lookup cannot fail.
        inProgressToolCalls := inProgressToolCalls + Delta(log[nodes[i]]);
        if inProgressToolCalls < 0 {
          assert Count(log, nodes[..i + 1]) == inProgressToolCalls + debt;
          return false, [];
        }
        pendingCuts := pendingCuts + [inProgressToolCalls == 0];
      }
      assert nodes[..|nodes|] == nodes;
      ok := true;
    }

    method IndexTail(nodes: seq<nat>, processed: nat)
      requires processed <= |nodes| && Distinct(nodes)
      requires forall i :: 0 <= i < processed ==> nodes[i] in indexBySeq && indexBySeq[nodes[i]] == i
      requires forall s :: s in indexBySeq ==> s in nodes
      modifies this`indexBySeq
      ensures forall i :: 0 <= i < |nodes| ==> nodes[i] in indexBySeq && indexBySeq[nodes[i]] == i
      ensures forall s :: s in indexBySeq ==> s in nodes
    {
      for n := processed to |nodes|
        invariant forall i :: 0 <= i < n ==> nodes[i] in indexBySeq && indexBySeq[nodes[i]] == i
        invariant forall s :: s in indexBySeq ==> s in nodes
      {
        indexBySeq := indexBySeq[nodes[n] := n];
      }
    }

    /** Folds the surface nodes past `seen`. */
    method FoldTail(log: Log) returns (ok: bool)
      requires Valid() && owner != null && at == log
      modifies this`inProgressToolCalls, this`indexBySeq, this`cutBalanced, this`seen
      ensures Valid() && Located(at, Nodes(at))
      ensures ok <==> Matched(at, Nodes(at))
      ensures ok ==> seen == Nodes(at)
    {
      hide Fold, Count, TailCounted, TailFails, Matched, Describes, Located;
      SeenIsIndexed(at, seen, cutBalanced, indexBySeq, inProgressToolCalls);
      var nodes, processed := Nodes(log), |cutBalanced| - 1;
      ghost var before, index := inProgressToolCalls, indexBySeq;
      var pendingCuts;
      ok, pendingCuts := CountTail(log, nodes, processed);
      if !ok {
        FailureStaysSound(at, seen, cutBalanced, indexBySeq, before, inProgressToolCalls);
        return;
      }
      IndexTail(nodes, processed);
      SuccessIsExact(at, seen, cutBalanced, index, before, inProgressToolCalls, pendingCuts, indexBySeq);
      cutBalanced := cutBalanced + pendingCuts;
      seen := nodes;
    }

    /** Brings the cache up to date with the session's surface. */
    method Synchronize(sess: Session) returns (ok: bool)
      requires Follows(sess)
      modifies this
      ensures Valid() && owner == sess && at == sess.log && Located(at, Nodes(at))
      ensures ok <==> Matched(at, Nodes(at))
      ensures ok ==> seen == Nodes(at)
    {
      hide Fold, Count, Matched, Describes, Located;
      Rebase(sess);
      SeenIsIndexed(at, seen, cutBalanced, indexBySeq, inProgressToolCalls);
      if |cutBalanced| - 1 >= |Nodes(sess.log)| {
        NothingLeft(at, seen, cutBalanced, indexBySeq, inProgressToolCalls);
        return true;
      }
      ok := FoldTail(sess.log);
    }

    method CutBalance(seqNo: nat, offset: nat) returns (r: Result<bool, PairingError>)
      requires owner != null && Valid() && seen == Nodes(at) && Located(at, Nodes(at)) && Matched(at, seen) && offset <= 1
      ensures r == FromScratch(at, seqNo, offset)
    {
      NodesAreSurfaceEvents(at);
      if seqNo in indexBySeq && indexBySeq[seqNo] + offset < |cutBalanced| {
        return Ok(cutBalanced[indexBySeq[seqNo] + offset]);
      }
      return Err(NotFound);
    }

    /** Whether no unanswered tool call crosses the cut before the seq. */
    method BalancedBefore(sess: Session, seqNo: nat) returns (r: Result<bool, PairingError>)
      requires Follows(sess)
      modifies this
      ensures Valid() && owner == sess && at == sess.log && Located(at, Nodes(at))
      ensures r == FromScratch(sess.log, seqNo, 0)
    {
      var ok := Synchronize(sess);
      if !ok { return Err(Unmatched); }
      r := CutBalance(seqNo, 0);
    }

    /** Whether no unanswered tool call crosses the cut after the seq. */
    method BalancedAfter(sess: Session, seqNo: nat) returns (r: Result<bool, PairingError>)
      requires Follows(sess)
      modifies this
      ensures Valid() && owner == sess && at == sess.log && Located(at, Nodes(at))
      ensures r == FromScratch(sess.log, seqNo, 1)
    {
      var ok := Synchronize(sess);
      if !ok { return Err(Unmatched); }
      r := CutBalance(seqNo, 1);
    }
  }
}

/**
The ordered model-visible surface of a session (session/surface.go): the fold of the log's
surface operations, the checks an append must pass, and what appends and replacements keep.
 */
module Surface {
  import opened SessionLog

  /** The surface seqs in model-visible order and the count of replacements folded so far. */
  datatype SurfaceState = SurfaceState(nodes: seq<nat>, generation: nat)

  predicate IsSurface(e: Event) {
    e.UserMessage? || e.AssistantMessage? || e.ToolResult?
  }

  /** The position of the first node carrying the seq, or |nodes|. */
  function IndexOf(nodes: seq<nat>, seqNo: nat): (i: nat)
    ensures i <= |nodes| && (i < |nodes| <==> seqNo in nodes)
    ensures i < |nodes| ==> nodes[i] == seqNo
    ensures forall j :: 0 <= j < i ==> nodes[j] != seqNo
  {
    if nodes == [] then 0
    else if nodes[0] == seqNo then 0
    else 1 + IndexOf(nodes[1..], seqNo)
  }

  /** Cited sources are earlier events without repetition and cover every shadowed node. */
  predicate Provenance(sources: seq<nat>, seqNo: nat, shadowed: seq<nat>) {
    && Distinct(sources)
    && (forall i :: 0 <= i < |sources| ==> sources[i] < seqNo)
    && (forall i :: 0 <= i < |shadowed| ==> shadowed[i] in sources)
  }

  /** A tool-result replacement rewrites exactly one current result and only its content. */
  predicate RewriteAllowed(log: Log, e: Event, shadowed: seq<nat>) {
    e.ToolResult? ==>
      && |shadowed| == 1 && shadowed[0] < |log|
      && var original := log[shadowed[0]];
         original.ToolResult? && original.turn == e.turn && original.step == e.step
         && original.callId == e.callId && original.outcome.isError == e.outcome.isError
  }

  /** The surface with the nodes i..j replaced by the single node n. */
  function Spliced(nodes: seq<nat>, i: nat, j: nat, n: nat): (r: seq<nat>)
    requires i <= j <= |nodes|
    ensures |r| == |nodes| - j + i + 1 && r[i] == n
  {
    nodes[..i] + [n] + nodes[j..]
  }

  /** Where a surface event lands: an append after the last node, a replacement over its span. */
  function Site(nodes: seq<nat>, op: SurfaceOp): (nat, nat) {
    match op
    case AppendOp => (|nodes|, |nodes|)
    case ReplaceOp(start, end) => (IndexOf(nodes, start), IndexOf(nodes, end) + 1)
  }

  /** The surface after the next event, or None when the append is refused. */
  function Plan(log: Log, state: SurfaceState, e: Event): Option<SurfaceState> {
    if !IsSurface(e) then Some(state)
    else
      var (i, j) := Site(state.nodes, e.op);
      if i <= j <= |state.nodes| && (e.op.ReplaceOp? ==> i < j) && Provenance(e.sources, |log|, state.nodes[i..j])
         && (e.op.ReplaceOp? ==> RewriteAllowed(log, e, state.nodes[i..j]))
      then Some(SurfaceState(Spliced(state.nodes, i, j, |log|), state.generation + if e.op.ReplaceOp? then 1 else 0))
      else None
  }

  function Fold(log: Log): Option<SurfaceState> {
    if log == [] then Some(SurfaceState([], 0))
    else
      var init := log[..|log| - 1];
      var before := Fold(init);
      if before.None? then None else Plan(init, before.value, log[|log| - 1])
  }

  predicate ValidLog(log: Log) {
    Fold(log).Some?
  }

  function Nodes(log: Log): seq<nat>
    requires ValidLog(log)
  {
    Fold(log).value.nodes
  }

  function Generation(log: Log): nat
    requires ValidLog(log)
  {
    Fold(log).value.generation
  }

  lemma OneMore(log: Log, e: Event)
    requires ValidLog(log)
    ensures Fold(log + [e]) == Plan(log, Fold(log).value, e)
  {
    assert (log + [e])[..|log|] == log;
  }

  /** A replacement names two current nodes in order and cites everything between them; one by a tool
      result rewrites a single result of the same call, and neither its step nor its error mark. */
  ghost predicate ReplacesCurrent(log: Log, nodes: seq<nat>, e: Event)
    requires IsSurface(e) && e.op.ReplaceOp?
  {
    && e.op.start in nodes && e.op.end in nodes && IndexOf(nodes, e.op.start) <= IndexOf(nodes, e.op.end)
    && (forall k :: IndexOf(nodes, e.op.start) <= k <= IndexOf(nodes, e.op.end) ==> nodes[k] in e.sources)
    && RewritesOneResult(log, e)
  }

  ghost predicate RewritesOneResult(log: Log, e: Event)
    requires IsSurface(e) && e.op.ReplaceOp?
  {
    e.ToolResult? ==>
      && e.op.start == e.op.end < |log| && log[e.op.start].ToolResult?
      && log[e.op.start].turn == e.turn && log[e.op.start].step == e.step && log[e.op.start].callId == e.callId
      && log[e.op.start].outcome.isError == e.outcome.isError
  }

  predicate CitesEarlier(log: Log, e: Event)
    requires IsSurface(e)
  {
    Distinct(e.sources) && forall i :: 0 <= i < |e.sources| ==> e.sources[i] < |log|
  }

  lemma PlannedAppend(log: Log, state: SurfaceState, e: Event)
    requires IsSurface(e) && e.op.AppendOp?
    ensures Plan(log, state, e) == if CitesEarlier(log, e) then Some(SurfaceState(state.nodes + [|log|], state.generation)) else None
  {
    hide Distinct, IndexOf, RewriteAllowed;
    var nodes := state.nodes;
    assert nodes[..|nodes|] + [|log|] + nodes[|nodes|..] == nodes + [|log|];
  }

  lemma PlannedReplacement(log: Log, state: SurfaceState, e: Event)
    requires IsSurface(e) && e.op.ReplaceOp? && Distinct(state.nodes)
    ensures Plan(log, state, e).Some? <==> CitesEarlier(log, e) && ReplacesCurrent(log, state.nodes, e)
    ensures Plan(log, state, e).Some? ==>
      var i, j := IndexOf(state.nodes, e.op.start), IndexOf(state.nodes, e.op.end) + 1;
      i <= j <= |state.nodes| && Plan(log, state, e).value == SurfaceState(state.nodes[..i] + [|log|] + state.nodes[j..], state.generation + 1)
  {
    var nodes := state.nodes;
    var i, j := IndexOf(nodes, e.op.start), IndexOf(nodes, e.op.end) + 1;
    PlanOfReplacement(log, state, e);
    hide Plan, IndexOf, RewriteAllowed, Provenance, RewritesOneResult, CitesEarlier;
    if i < j <= |nodes| {
      CitedSlice(nodes, i, j, e.sources);
      ProvenanceOfSlice(log, nodes[i..j], e);
      RewrittenSlice(log, nodes, i, j, e);
    }
    hide Distinct;
  }

  lemma PlanOfReplacement(log: Log, state: SurfaceState, e: Event)
    requires IsSurface(e) && e.op.ReplaceOp?
    ensures var nodes := state.nodes;
            var i, j := IndexOf(nodes, e.op.start), IndexOf(nodes, e.op.end) + 1;
            Plan(log, state, e) == if i < j <= |nodes| && Provenance(e.sources, |log|, nodes[i..j]) && RewriteAllowed(log, e, nodes[i..j])
                                   then Some(SurfaceState(nodes[..i] + [|log|] + nodes[j..], state.generation + 1)) else None
  {
    hide IndexOf, Provenance, RewriteAllowed;
  }

  lemma ProvenanceOfSlice(log: Log, shadowed: seq<nat>, e: Event)
    requires IsSurface(e)
    ensures Provenance(e.sources, |log|, shadowed) <==> CitesEarlier(log, e) && forall k :: 0 <= k < |shadowed| ==> shadowed[k] in e.sources
  {
    hide Distinct;
  }

  lemma RewrittenSlice(log: Log, nodes: seq<nat>, i: nat, j: nat, e: Event)
    requires i < j <= |nodes| && Distinct(nodes) && IsSurface(e) && e.op.ReplaceOp? && nodes[i] == e.op.start && nodes[j - 1] == e.op.end
    ensures RewriteAllowed(log, e, nodes[i..j]) <==> RewritesOneResult(log, e)
  {
    CitedSlice(nodes, i, j, []);
    hide Distinct;
  }

  /** Exactly which events a session accepts, and what they do to the surface. */
  lemma AcceptedIff(log: Log, e: Event)
    requires ValidLog(log)
    ensures ValidLog(log + [e]) <==> (IsSurface(e) ==> CitesEarlier(log, e) && (e.op.ReplaceOp? ==> ReplacesCurrent(log, Nodes(log), e)))
    ensures !IsSurface(e) ==> Fold(log + [e]) == Fold(log)
    ensures ValidLog(log + [e]) && IsSurface(e) && e.op.AppendOp? ==> Nodes(log + [e]) == Nodes(log) + [|log|] && Generation(log + [e]) == Generation(log)
    ensures ValidLog(log + [e]) && IsSurface(e) && e.op.ReplaceOp? ==>
      var i, j := IndexOf(Nodes(log), e.op.start), IndexOf(Nodes(log), e.op.end) + 1;
      i <= j <= |Nodes(log)| && Nodes(log + [e]) == Nodes(log)[..i] + [|log|] + Nodes(log)[j..] && Generation(log + [e]) == Generation(log) + 1
  {
    NodesAreSurfaceEvents(log);
    OneMore(log, e);
    if IsSurface(e) {
      hide Fold, IndexOf, Plan, Distinct, CitesEarlier, ReplacesCurrent;
      if e.op.AppendOp? {
        PlannedAppend(log, Fold(log).value, e);
      } else {
        PlannedReplacement(log, Fold(log).value, e);
      }
    } else {
      hide Fold;
    }
  }

  lemma CitedSlice(nodes: seq<nat>, i: nat, j: nat, sources: seq<nat>)
    requires i < j <= |nodes| && Distinct(nodes)
    ensures (forall k :: 0 <= k < |nodes[i..j]| ==> nodes[i..j][k] in sources) <==> forall k :: i <= k <= j - 1 ==> nodes[k] in sources
    ensures |nodes[i..j]| == 1 <==> nodes[i] == nodes[j - 1]
    ensures nodes[i..j][0] == nodes[i]
  {
    assert forall k :: i <= k < j ==> nodes[k] == nodes[i..j][k - i];
    if j - i > 1 { assert nodes[i] != nodes[j - 1]; }
  }

  /** The nodes are distinct positions of surface events. */
  predicate OnLog(log: Log, nodes: seq<nat>) {
    Distinct(nodes) && forall i :: 0 <= i < |nodes| ==> nodes[i] < |log| && IsSurface(log[nodes[i]])
  }

  lemma SplicedElement(nodes: seq<nat>, i: nat, j: nat, n: nat, k: nat)
    requires i <= j <= |nodes| && k < |Spliced(nodes, i, j, n)|
    ensures Spliced(nodes, i, j, n)[k] == if k < i then nodes[k] else if k == i then n else nodes[k - i - 1 + j]
  {
  }

  lemma SpliceStaysOnLog(log: Log, e: Event, nodes: seq<nat>, i: nat, j: nat)
    requires OnLog(log, nodes) && i <= j <= |nodes| && IsSurface(e)
    ensures OnLog(log + [e], Spliced(nodes, i, j, |log|))
  {
    hide Spliced, IsSurface;
    var after := Spliced(nodes, i, j, |log|);
    forall k | 0 <= k < |after| ensures after[k] < |log + [e]| && IsSurface((log + [e])[after[k]]) {
      SplicedElement(nodes, i, j, |log|, k);
    }
    forall k, l | 0 <= k < l < |after| ensures after[k] != after[l] {
      SplicedElement(nodes, i, j, |log|, k);
      SplicedElement(nodes, i, j, |log|, l);
    }
  }

  lemma PlanStaysOnLog(log: Log, state: SurfaceState, e: Event)
    requires OnLog(log, state.nodes) && Plan(log, state, e).Some?
    ensures OnLog(log + [e], Plan(log, state, e).value.nodes)
  {
    hide Provenance, RewriteAllowed, Spliced, Site;
    if IsSurface(e) {
      var (i, j) := Site(state.nodes, e.op);
      SpliceStaysOnLog(log, e, state.nodes, i, j);
    }
  }

  lemma {:induction false} NodesAreSurfaceEvents(log: Log)
    requires ValidLog(log)
    ensures OnLog(log, Nodes(log))
  {
    if log != [] {
      hide Plan, OnLog;
      var init := log[..|log| - 1];
      NodesAreSurfaceEvents(init);
      PlanStaysOnLog(init, Fold(init).value, log[|log| - 1]);
      assert init + [log[|log| - 1]] == log;
    }
  }

  lemma {:induction false} PrefixIsValid(log: Log, k: nat)
    requires ValidLog(log) && k <= |log|
    ensures ValidLog(log[..k]) && Generation(log[..k]) <= Generation(log)
  {
    if k < |log| {
      PrefixIsValid(log[..|log| - 1], k);
      assert log[..|log| - 1][..k] == log[..k];
    } else {
      assert log[..k] == log;
    }
  }

  /** Within one generation a surface only grows. */
  lemma {:induction false} SurfaceGrows(log: Log, later: Log)
    requires ValidLog(later) && log <= later
    ensures ValidLog(log) && Generation(log) <= Generation(later)
    ensures Generation(log) == Generation(later) ==> Nodes(log) <= Nodes(later)
  {
    if log != later {
      var init := later[..|later| - 1];
      assert log <= init;
      SurfaceGrows(log, init);
    }
  }

  lemma IndexOfElement(nodes: seq<nat>, k: nat)
    requires Distinct(nodes) && k < |nodes|
    ensures IndexOf(nodes, nodes[k]) == k
  {
  }

  /** The nodes from start to end, when both are on the surface in this order. */
  function Span(nodes: seq<nat>, start: nat, end: nat): seq<nat> {
    var i, j := IndexOf(nodes, start), IndexOf(nodes, end);
    if i <= j < |nodes| then nodes[i..j + 1] else []
  }

  lemma InSlice(s: seq<nat>, i: nat, j: nat, p: nat)
    requires i <= j < |s| && p < |s|
    ensures i <= p <= j ==> s[p] in s[i..j + 1]
  {
    if i <= p <= j { assert s[i..j + 1][p - i] == s[p]; }
  }

  /** A slice that avoids the spliced node is a slice of the old nodes, shifted if it lies behind. */
  lemma SliceAroundSplice(before: seq<nat>, p: nat, q: nat, n: nat, i: nat, j: nat) returns (m: nat)
    requires p <= q <= |before| && i <= j < |Spliced(before, p, q, n)| && n !in Spliced(before, p, q, n)[i..j + 1]
    ensures m + j - i < |before| && before[m..m + j - i + 1] == Spliced(before, p, q, n)[i..j + 1]
  {
    var s := Spliced(before, p, q, n);
    InSlice(s, i, j, p);
    assert p < i || p > j;
    var shift := if p > j then 0 else q - p - 1;
    assert forall k :: i <= k <= j ==> s[k] == before[k + shift];
    m := i + shift;
  }

  lemma SliceEnds(s: seq<nat>, i: nat, j: nat)
    requires i <= j < |s|
    ensures s[i..j + 1] != [] && s[i..j + 1][0] == s[i] && s[i..j + 1][|s[i..j + 1]| - 1] == s[j]
  {
  }

  lemma SpanOfSlice(nodes: seq<nat>, i: nat, j: nat, span: seq<nat>)
    requires Distinct(nodes) && i <= j < |nodes| && span == nodes[i..j + 1]
    ensures span != [] && Span(nodes, span[0], span[|span| - 1]) == span
  {
    hide Distinct, IndexOf;
    SliceEnds(nodes, i, j);
    IndexOfElement(nodes, i);
    IndexOfElement(nodes, j);
  }

  lemma SpanEnds(nodes: seq<nat>, start: nat, end: nat)
    requires Span(nodes, start, end) != []
    ensures var span := Span(nodes, start, end);
            span[0] == start && span[|span| - 1] == end
  {
  }

  lemma SpliceKeepsSpan(before: seq<nat>, p: nat, q: nat, n: nat, start: nat, end: nat)
    requires Distinct(before) && p <= q <= |before|
    requires var span := Span(Spliced(before, p, q, n), start, end);
             span != [] && n !in span
    ensures Span(before, start, end) == Span(Spliced(before, p, q, n), start, end)
  {
    hide Spliced, Distinct, IndexOf;
    var after := Spliced(before, p, q, n);
    var i, j := IndexOf(after, start), IndexOf(after, end);
    SpanEnds(after, start, end);
    var span := Span(after, start, end);
    assert span == after[i..j + 1];
    hide Span;
    var m := SliceAroundSplice(before, p, q, n, i, j);
    SpanOfSlice(before, m, m + j - i, span);
  }

  /** One accepted event cannot bring an old span back or reshape it: a span of old nodes after it
      was the same span before it. */
  lemma SpanWasThere(log: Log, state: SurfaceState, e: Event, start: nat, end: nat)
    requires OnLog(log, state.nodes) && Plan(log, state, e).Some?
    requires var span := Span(Plan(log, state, e).value.nodes, start, end);
             span != [] && |log| !in span
    ensures Span(state.nodes, start, end) == Span(Plan(log, state, e).value.nodes, start, end)
  {
    hide Provenance, RewriteAllowed, Spliced, Site, Span;
    if IsSurface(e) {
      var (p, q) := Site(state.nodes, e.op);
      SpliceKeepsSpan(state.nodes, p, q, |log|, start, end);
    }
  }

  /** A span of old nodes on a later surface is exactly the span it was, whatever was appended or
      replaced in between. */
  lemma {:induction false} SpanSurvivesUnchanged(log: Log, later: Log, start: nat, end: nat)
    requires ValidLog(later) && log <= later
    requires var span := Span(Nodes(later), start, end);
             span != [] && forall k :: 0 <= k < |span| ==> span[k] < |log|
    ensures ValidLog(log) && Span(Nodes(log), start, end) == Span(Nodes(later), start, end)
  {
    if log != later {
      hide Span, Plan;
      var init, e := later[..|later| - 1], later[|later| - 1];
      assert log <= init;
      NodesAreSurfaceEvents(init);
      SpanWasThere(init, Fold(init).value, e, start, end);
      SpanSurvivesUnchanged(log, init, start, end);
    }
  }

  /** A live session: an append-only log whose surface operations were all accepted. */
  class Session {
    var log: Log
    ghost var attempted: seq<Event>
    // How many appends were refused.
    ghost var refusals: nat

    constructor (log: Log)
      requires ValidLog(log)
      ensures this.log == log && attempted == [] && refusals == 0
    {
      this.log, attempted, refusals := log, [], 0;
    }

    /** Appends one event; a refused append leaves the log alone.  Besides the surface checks
        the session may refuse any event. */
    method Append(e: Event) returns (ok: bool)
      requires ValidLog(log)
      modifies this
      ensures ValidLog(log)
      ensures ok ==> Plan(old(log), Fold(old(log)).value, e).Some?
      ensures log == if ok then old(log) + [e] else old(log)
      ensures attempted == old(attempted) + [e] && refusals == old(refusals) + if ok then 0 else 1
    {
      attempted := attempted + [e];
      ok := *;
      ok := ok && Plan(log, Fold(log).value, e).Some?;
      OneMore(log, e);
      if ok { log := log + [e]; } else { refusals := refusals + 1; }
    }
  }
}

/**
The compaction transaction (compactionbasic/region.go): a durable start locks the session, the
selected span is summarized while other writers go on, and the commit replaces that span by one
checkpoint message; every started transaction attempts exactly one end.
 */
module Compaction {
  import opened SessionLog
  import opened Surface
  import opened ToolPairing
  import opened Region
  import opened CompactionLock
  import TurnBrackets

  // ----- The lock while it is held -----

  predicate Lifecycle(e: Event) {
    e.CompactionStart? || e.CompactionEnd? || e.EndSeed?
  }

  /** The start at the given seq is the last lifecycle event. */
  predicate Holds(log: Log, start: nat) {
    start < |log| && log[start].CompactionStart? && forall k :: start < k < |log| ==> !Lifecycle(log[k])
  }

  lemma {:induction false} HeldLockIsActive(log: Log, start: nat)
    requires Holds(log, start)
    ensures UnmatchedStart(log) == Some(start) && !Inactive(log)
  {
    LatestSeedIsSeed(log);
    if start < |log| - 1 {
      var init := log[..|log| - 1];
      assert !Lifecycle(log[|log| - 1]);
      assert forall k :: start < k < |init| ==> init[k] == log[k];
      HeldLockIsActive(init, start);
    }
  }

  /** What another writer may append: no end of a transaction it does not own, and a start only
      through the same check of the lock. */
  predicate Foreign(log: Log, e: Event) {
    !e.CompactionEnd? && !e.EndSeed? && (e.CompactionStart? ==> Inactive(log))
  }

  /** Nobody else can start while the lock is held. */
  lemma ForeignKeepsTheLock(log: Log, e: Event, start: nat)
    requires Holds(log, start) && Foreign(log, e)
    ensures Holds(log + [e], start)
  {
    HeldLockIsActive(log, start);
  }

  lemma HeldLogIsSeparated(before: Log, log: Log)
    requires Separated(before) && Inactive(before) && before <= log && Holds(log, |before|)
    ensures Separated(log)
  {
    hide Separated, Inactive;
    var n := |before|;
    StartKeepsSeparated(before, log[n]);
    var more := log[n + 1..];
    forall i | 0 <= i < |more| ensures !more[i].CompactionStart? {
      assert !Lifecycle(log[n + 1 + i]);
    }
    OthersKeepSeparated(before + [log[n]], more);
    assert before + [log[n]] + more == log;
  }

  // ----- Measuring -----

  function PricedEvent(meter: Meter, log: Log, n: nat): PricedNode
    requires n < |log|
  {
    PricedNode(n, Price(meter, log[n]), meter.heuristic(log[n]))
  }

  /** The token meter's answer for a surface. */
  function Measured(meter: Meter, log: Log, nodes: seq<nat>): (r: seq<PricedNode>)
    requires Located(log, nodes)
    ensures |r| == |nodes| && forall i :: 0 <= i < |nodes| ==> r[i] == PricedEvent(meter, log, nodes[i])
    ensures forall i :: 0 <= i < |nodes| ==>
      var e := log[nodes[i]];
      r[i].seqNo == nodes[i] && r[i].heuristicTokens == meter.heuristic(e)
      && r[i].tokens == if e.UserMessage? && e.message.textOnly then meter.message(e.message) else meter.other(e)
  {
    seq(|nodes|, i requires 0 <= i < |nodes| => PricedEvent(meter, log, nodes[i]))
  }

  predicate PricedBy(meter: Meter, log: Log, nodes: seq<PricedNode>) {
    forall i :: 0 <= i < |nodes| ==> nodes[i].seqNo < |log| && nodes[i].tokens == Price(meter, log[nodes[i].seqNo])
  }

  /** Adding up measured nodes gives the price of their events. */
  lemma {:induction false} MeasuredTokens(meter: Meter, log: Log, nodes: seq<PricedNode>)
    requires PricedBy(meter, log, nodes)
    ensures Located(log, Seqs(nodes)) && Tokens(nodes) == Total(meter, log, Seqs(nodes))
  {
    if nodes != [] {
      hide Price, Total;
      var first, rest := Seqs(nodes)[0], Seqs(nodes)[1..];
      MeasuredTokens(meter, log, nodes[1..]);
      assert Seqs(nodes[1..]) == rest && [first] + rest == Seqs(nodes);
      TotalOfOne(meter, log, first);
      TotalConcat(meter, log, [first], rest);
    } else {
      assert Seqs(nodes) == [];
    }
  }

  // ----- The committed replacement -----

  function Checkpoint(message: Message, s: Selection, start: nat, summary: nat): Event {
    UserMessage(message, ReplaceOp(s.start, s.end), [start, summary] + s.shadowed)
  }

  /** Appending the event to the log replaced exactly the selected nodes, split no tool-call/result
      pair and made the surface strictly cheaper. */
  ghost predicate Replaces(log: Log, e: Event, s: Selection, meter: Meter)
    requires ValidLog(log) && ValidLog(log + [e])
  {
    var nodes, after := Nodes(log), Nodes(log + [e]);
    var i, j := IndexOf(nodes, s.start), IndexOf(nodes, s.end) + 1;
    && i < j <= |nodes| && nodes[i..j] == s.shadowed
    && after == Spliced(nodes, i, j, |log|)
    && Located(log, nodes) && Located(log + [e], after)
    && OutsideCountsKept(log, nodes, log + [e], after, i, j)
    && (Matched(log, nodes) ==> Matched(log + [e], after))
    && Total(meter, log + [e], after) < Total(meter, log, nodes)
  }

  lemma SpanIsOnSurface(nodes: seq<nat>, start: nat, end: nat, n: nat)
    requires n in Span(nodes, start, end)
    ensures n in nodes
  {
  }

  lemma OnLogElement(log: Log, nodes: seq<nat>, n: nat)
    requires OnLog(log, nodes) && n in nodes
    ensures n < |log| && IsSurface(log[n])
  {
  }

  /** What an accepted checkpoint says about the surface it landed on. */
  lemma AcceptedCheckpoint(log: Log, s: Selection, message: Message, start: nat, summary: nat)
    requires ValidLog(log) && ValidLog(log + [Checkpoint(message, s, start, summary)])
    ensures var nodes, after := Nodes(log), Nodes(log + [Checkpoint(message, s, start, summary)]);
            var i, j := IndexOf(nodes, s.start), IndexOf(nodes, s.end) + 1;
            && i < j <= |nodes| && after == Spliced(nodes, i, j, |log|)
            && Span(nodes, s.start, s.end) == nodes[i..j]
            && forall n :: n in nodes[i..j] ==> n in [start, summary] + s.shadowed
  {
    hide IndexOf, Spliced, RewriteAllowed;
    OneMore(log, Checkpoint(message, s, start, summary));
    hide Fold;
  }

  /** The accepted checkpoint's citations pin the span it replaced: whatever happened since the
      validation, that span is the validated one. */
  lemma CitedSpanIsValidated(validated: Log, log: Log, s: Selection, message: Message, start: nat, summary: nat)
    requires ValidLog(validated) && ValidLog(log) && validated <= log
    requires s.shadowed == Span(Nodes(validated), s.start, s.end)
    requires ValidLog(log + [Checkpoint(message, s, start, summary)])
    requires |validated| <= start < |log| && |validated| <= summary < |log| && !IsSurface(log[start]) && !IsSurface(log[summary])
    ensures Span(Nodes(log), s.start, s.end) == s.shadowed
  {
    NodesAreSurfaceEvents(validated);
    NodesAreSurfaceEvents(log);
    AcceptedCheckpoint(log, s, message, start, summary);
    hide Fold, Span, OnLog, IsSurface, IndexOf, Spliced;
    var span := Span(Nodes(log), s.start, s.end);
    forall k | 0 <= k < |span| ensures span[k] < |validated| {
      SpanIsOnSurface(Nodes(log), s.start, s.end, span[k]);
      OnLogElement(log, Nodes(log), span[k]);
      assert span[k] in s.shadowed;
      SpanIsOnSurface(Nodes(validated), s.start, s.end, span[k]);
      OnLogElement(validated, Nodes(validated), span[k]);
    }
    SpanSurvivesUnchanged(validated, log, s.start, s.end);
  }

  /** The calls and results of a replaceable span cancel. */
  lemma ReplaceableSpanCancels(log: Log, s: Selection)
    requires ValidLog(log) && Located(log, Nodes(log)) && Replaceable(log, s.start, s.end)
    requires s.shadowed == Span(Nodes(log), s.start, s.end)
    ensures Located(log, s.shadowed) && Count(log, s.shadowed) == 0
  {
    hide Count, Matched, IndexOf;
    var nodes := Nodes(log);
    var i, j := IndexOf(nodes, s.start), IndexOf(nodes, s.end) + 1;
    assert nodes[..j] == nodes[..i] + nodes[i..j];
    CountConcat(log, nodes[..i], nodes[i..j]);
  }

  /** A cancelling span replaced by a cheaper event without calls or results. */
  lemma CheaperSplice(log: Log, e: Event, nodes: seq<nat>, i: nat, j: nat, span: seq<nat>, priced: seq<PricedNode>, meter: Meter)
    requires Located(log, nodes) && i <= j <= |nodes| && nodes[i..j] == span && Located(log, span)
    requires Count(log, span) == 0 && Delta(e) == 0
    requires PricedBy(meter, log, priced) && Seqs(priced) == span && Price(meter, e) < Tokens(priced)
    ensures var later, after := log + [e], Spliced(nodes, i, j, |log|);
            && Located(later, after) && OutsideCountsKept(log, nodes, later, after, i, j)
            && (Matched(log, nodes) ==> Matched(later, after))
            && Total(meter, later, after) < Total(meter, log, nodes)
  {
    hide Spliced, Count, Total, Tokens, Matched, OutsideCountsKept, Delta, Price;
    SplicePreservesCounts(log, e, nodes, i, j);
    MeasuredTokens(meter, log, priced);
    SplicePrice(meter, log, e, nodes, i, j);
  }

  /** Whatever other writers did since the validation, an accepted checkpoint replaces exactly the
      validated span, keeps every count outside it and lowers the surface total. */
  lemma CheckpointReplaces(validated: Log, log: Log, s: Selection, priced: seq<PricedNode>, meter: Meter, message: Message, start: nat, summary: nat)
    requires ValidLog(validated) && ValidLog(log) && validated <= log
    requires Located(validated, Nodes(validated)) && Replaceable(validated, s.start, s.end)
    requires s.shadowed == Span(Nodes(validated), s.start, s.end)
    requires PricedBy(meter, log, priced) && Seqs(priced) == s.shadowed && message.textOnly && meter.message(message) < Tokens(priced)
    requires ValidLog(log + [Checkpoint(message, s, start, summary)])
    requires |validated| <= start < |log| && |validated| <= summary < |log| && !IsSurface(log[start]) && !IsSurface(log[summary])
    ensures Replaces(log, Checkpoint(message, s, start, summary), s, meter)
  {
    hide Fold, Span, IndexOf, Spliced, Count, Total, Tokens, Replaceable, Matched, OutsideCountsKept, PricedBy, Located, IsSurface;
    var e := Checkpoint(message, s, start, summary);
    CitedSpanIsValidated(validated, log, s, message, start, summary);
    AcceptedCheckpoint(log, s, message, start, summary);
    ReplaceableSpanCancels(validated, s);
    LocatedNodes(log);
    var nodes := Nodes(log);
    var i, j := IndexOf(nodes, s.start), IndexOf(nodes, s.end) + 1;
    CountLater(validated, log, s.shadowed);
    CheaperSplice(log, e, nodes, i, j, s.shadowed, priced, meter);
  }

  lemma CountLater(log: Log, later: Log, nodes: seq<nat>)
    requires Located(log, nodes) && log <= later
    ensures Located(later, nodes) && Count(later, nodes) == Count(log, nodes)
  {
    CountIsStable(log, later, nodes);
  }

  // ----- The transaction -----

  datatype Cause = Refused | Panicked | MeterFailed | SurfaceChanged | SummarizerFailed | NotSmaller | Interrupted

  datatype Stage = Summarizing | Committing

  datatype Failure = Failure(cause: Cause, stage: Stage)

  datatype CompactError =
    | Canceled
    | BadRegion(error: RegionError)
    | Busy
    | NoOpenTurn
    | StartRefused
    | Automatic(cause: Cause)
    | ManualCommit(cause: Cause)
    | ManualChanged
    | ManualSummary(cause: Cause)
    | ManualPersistence

  /** `automatic` compactions belong to the current turn; `selectedSpan` picks the weaker stability rule. */
  datatype Options = Options(automatic: bool, selectedSpan: bool, flush: bool)

  datatype Committed = Committed(start: nat, summary: nat, end: nat, shadowed: seq<nat>)

  /** Where the transaction's accepted events are, what it checkpointed and the prices it checked. */
  datatype Run = Run(start: Option<nat>, summary: Option<nat>, replacement: Option<nat>, end: Option<nat>, message: Message, meter: Meter)

  datatype Prepared = Prepared(measurement: seq<PricedNode>, selected: seq<PricedNode>, routeTokens: int)

  /** The span between the two seqs on the log's surface. */
  function Chosen(log: Log, start: nat, end: nat): Selection
    requires ValidLog(log)
  {
    Selection(start, end, IndexOf(Nodes(log), start), IndexOf(Nodes(log), end), Span(Nodes(log), start, end))
  }

  /** The selection passed validation on this log. */
  ghost predicate Validated(log: Log, s: Selection) {
    && ValidLog(log) && Located(log, Nodes(log)) && Replaceable(log, s.start, s.end)
    && s.shadowed == Span(Nodes(log), s.start, s.end)
  }

  /** The selection passed validation on this log or on an earlier one. */
  ghost predicate Agreed(log: Log, s: Selection) {
    exists k :: 0 <= k <= |log| && Validated(log[..k], s)
  }

  /** The transaction opened on `before` and still holds the lock. */
  ghost predicate Open(before: Log, id: nat, owner: Option<nat>, log: Log) {
    before + [CompactionStart(id, owner)] <= log && ValidLog(log) && Holds(log, |before|)
  }

  /** The append attempts made since `tried`: none was an end, or exactly the last one was. */
  ghost predicate Tried(tried: seq<Event>, now: seq<Event>, ended: bool) {
    && tried <= now && (ended ==> |tried| < |now| && now[|now| - 1].CompactionEnd?)
    && forall k :: |tried| <= k < |now| - (if ended then 1 else 0) ==> !now[k].CompactionEnd?
  }

  /** The accepted events of one transaction, in order, and what its replacement did. */
  ghost predicate Trail(before: Log, id: nat, s: Selection, run: Run, log: Log) {
    && (run.summary.Some? ==>
          var n := run.summary.value;
          |before| < n < |log| && log[n] == CompactionSummary(id, s.start, s.end, s.shadowed))
    && (run.replacement.Some? ==>
          run.summary.Some? &&
          var n := run.replacement.value;
          && run.summary.value < n < |log| && log[n] == Checkpoint(run.message, s, |before|, run.summary.value)
          && ValidLog(log[..n]) && ValidLog(log[..n] + [log[n]]) && Replaces(log[..n], log[n], s, run.meter))
  }

  lemma TrailLater(before: Log, id: nat, s: Selection, run: Run, log: Log, later: Log)
    requires Trail(before, id, s, run, log) && log <= later
    ensures Trail(before, id, s, run, later)
  {
    hide Replaces;
    if run.replacement.Some? {
      assert later[..run.replacement.value] == log[..run.replacement.value];
    }
  }

  /** Prices of the current route; a text-only message costs the same on every route. */
  class TokenMeter {
    const message: Message -> nat
    var other: Event -> nat
    var heuristic: Event -> nat
    // The prices of every measurement so far.
    ghost var measured: seq<Meter>

    constructor (message: Message -> nat, other: Event -> nat, heuristic: Event -> nat)
      ensures this.message == message && this.other == other && this.heuristic == heuristic && measured == []
    {
      this.message, this.other, this.heuristic, measured := message, other, heuristic, [];
    }

    function Current(): Meter
      reads this
    {
      Meter(message, other, heuristic)
    }

    /** Prices the whole surface at the current route, unless the meter fails. */
    method Measure(sess: Session, fails: bool) returns (r: Option<seq<PricedNode>>)
      requires ValidLog(sess.log)
      modifies this`measured
      ensures Located(sess.log, Nodes(sess.log)) && measured == old(measured) + [Current()]
      ensures r == if fails then None else Some(Measured(Current(), sess.log, Nodes(sess.log)))
    {
      measured := measured + [Current()];
      NodesAreSurfaceEvents(sess.log);
      return if fails then None else Some(Measured(Current(), sess.log, Nodes(sess.log)));
    }
  }

  /** Other writers append accepted events, and the route's prices may change. */
  method Interfere(sess: Session, tokens: TokenMeter, ghost before: Log, ghost id: nat, ghost owner: Option<nat>)
    requires Open(before, id, owner, sess.log)
    modifies sess`log, tokens`other, tokens`heuristic
    ensures Open(before, id, owner, sess.log) && old(sess.log) <= sess.log
  {
    hide Inactive, Plan;
    var rounds: nat :| rounds >= 0;
    for i := 0 to rounds
      invariant Open(before, id, owner, sess.log) && old(sess.log) <= sess.log
    {
      var e: Event := *;
      if Foreign(sess.log, e) && Plan(sess.log, Fold(sess.log).value, e).Some? {
        ForeignKeepsTheLock(sess.log, e, |before|);
        OneMore(sess.log, e);
        sess.log := sess.log + [e];
      }
    }
    tokens.other, tokens.heuristic := *, *;
  }

  /** Other writers while no lock is held: a start respects the lock, and when `noStarts` there is none. */
  method Bystanders(sess: Session, tokens: TokenMeter, noStarts: bool)
    requires ValidLog(sess.log)
    modifies sess`log, tokens`other, tokens`heuristic
    ensures ValidLog(sess.log) && old(sess.log) <= sess.log
    ensures Separated(old(sess.log)) ==> Separated(sess.log)
    ensures noStarts && Inactive(old(sess.log)) ==> Inactive(sess.log)
  {
    hide Inactive, Separated, Plan;
    var rounds: nat :| rounds >= 0;
    for i := 0 to rounds
      invariant ValidLog(sess.log) && old(sess.log) <= sess.log
      invariant Separated(old(sess.log)) ==> Separated(sess.log)
      invariant noStarts && Inactive(old(sess.log)) ==> Inactive(sess.log)
    {
      var e: Event := *;
      if (e.CompactionStart? ==> !noStarts && Inactive(sess.log)) && Plan(sess.log, Fold(sess.log).value, e).Some? {
        BystanderKeeps(sess.log, e);
        OneMore(sess.log, e);
        sess.log := sess.log + [e];
      }
    }
    tokens.other, tokens.heuristic := *, *;
  }

  lemma BystanderKeeps(log: Log, e: Event)
    requires e.CompactionStart? ==> Inactive(log)
    ensures Separated(log) ==> Separated(log + [e])
    ensures Inactive(log) && !e.CompactionStart? ==> Inactive(log + [e])
  {
    hide Separated, Inactive;
    if e.CompactionStart? {
      StartSeparatesIffInactive(log, e);
    } else {
      if Inactive(log) { OthersKeepInactive(log, e); }
      if Separated(log) { OthersKeepSeparated(log, [e]); }
    }
  }

  /** The read-only checks and the start they guard.  With `others`, other writers append between
      the validation and the scan for the lock, and anything but a start between the scan and the
      start; `scanned` is the log the scan saw. */
  method Begin(balance: ToolPairingBalance, sess: Session, tokens: TokenMeter, start: nat, end: nat, id: nat, automatic: bool, others: bool)
    returns (r: Result<(Selection, Option<nat>), CompactError>, ghost scanned: Log)
    requires balance.Follows(sess)
    modifies balance, sess, tokens`other, tokens`heuristic
    ensures balance.Follows(sess) && Located(old(sess.log), Nodes(old(sess.log)))
    ensures old(sess.log) <= scanned <= sess.log && (!others ==> scanned == old(sess.log))
    ensures r.Ok? ==>
      sess.log != [] &&
      var before := sess.log[..|sess.log| - 1];
      && Validated(old(sess.log), r.value.0) && r.value.0 == Chosen(old(sess.log), start, end)
      && scanned <= before && (!others ==> before == scanned)
      && r.value.1 == TurnBrackets.OpenTurn(scanned) && r.value.1.Some? == automatic
      && Inactive(scanned) && Inactive(before) && (Separated(old(sess.log)) ==> Separated(before))
      && sess.log == before + [CompactionStart(id, r.value.1)]
      && sess.attempted == old(sess.attempted) + [CompactionStart(id, r.value.1)]
    ensures r.Err? ==> Tried(old(sess.attempted), sess.attempted, false) && (Separated(old(sess.log)) ==> Separated(sess.log))
    ensures r.Err? && !others ==> sess.log == old(sess.log)
    ensures r.Err? && r.error.BadRegion? <==> !Replaceable(old(sess.log), start, end)
    ensures r == Err(StartRefused) <==> sess.refusals != old(sess.refusals)
    ensures old(sess.refusals) <= sess.refusals
    ensures var free, open := Inactive(scanned), TurnBrackets.OpenTurn(scanned).Some?;
            Replaceable(old(sess.log), start, end) ==>
              && (r == Err(Busy) <==> !free || (!automatic && open))
              && (r == Err(NoOpenTurn) <==> free && automatic && !open)
              && (r.Err? ==> r.error in {Busy, NoOpenTurn, StartRefused})
  {
    hide Fold, Count, Matched, Located, IndexOf, TurnBrackets.OpenTurn, UnmatchedStart, LatestSeed, Separated, Describes;
    scanned := sess.log;
    var validation := ValidateSurfaceRegion(balance, sess, start, end);
    match validation
    case Err(e) => return Err(BadRegion(e)), scanned;
    case Ok(selection) =>
    if others { Bystanders(sess, tokens, false); }
    scanned := sess.log;
    var state := InspectEntryState(sess.log);
    if state.unmatchedStart.Some? && (state.latestEndSeed.None? || state.latestEndSeed.value <= state.unmatchedStart.value) {
      return Err(Busy), scanned;
    }
    if !automatic && state.openTurn.Some? { return Err(Busy), scanned; }
    if automatic && state.openTurn.None? { return Err(NoOpenTurn), scanned; }
    if others { Bystanders(sess, tokens, true); }
    ghost var before := sess.log;
    var ok := sess.Append(CompactionStart(id, state.openTurn));
    if !ok { return Err(StartRefused), scanned; }
    assert sess.log[..|sess.log| - 1] == before;
    return Ok((selection, state.openTurn)), scanned;
  }

  method SumTokens(nodes: seq<PricedNode>) returns (route: int)
    ensures route == Tokens(nodes)
  {
    route := 0;
    for i := 0 to |nodes|
      invariant route + Tokens(nodes[i..]) == Tokens(nodes)
    {
      route := route + nodes[i].tokens;
      assert nodes[i..][1..] == nodes[i + 1..];
    }
  }

  /** The surface holds the selected nodes at the selected positions. */
  predicate InPlace(nodes: seq<nat>, s: Selection) {
    s.startIdx <= s.endIdx < |nodes| && nodes[s.startIdx..s.endIdx + 1] == s.shadowed
  }

  lemma MeasuredSlice(meter: Meter, log: Log, nodes: seq<nat>)
    requires Located(log, nodes)
    ensures |Measured(meter, log, nodes)| == |nodes|
    ensures forall i, j :: 0 <= i <= j <= |nodes| ==>
      Located(log, nodes[i..j]) && Measured(meter, log, nodes)[i..j] == Measured(meter, log, nodes[i..j]) && Seqs(Measured(meter, log, nodes)[i..j]) == nodes[i..j]
  {
  }

  /** The span is still valid, and every node of it is priced as it was. */
  ghost predicate SpanUnchanged(meter: Meter, log: Log, s: Selection, p: Prepared)
    requires ValidLog(log) && Located(log, Nodes(log))
  {
    && Replaceable(log, s.start, s.end) && Span(Nodes(log), s.start, s.end) == s.shadowed
    && Located(log, s.shadowed) && Measured(meter, log, s.shadowed) == p.selected
  }

  /** Snapshots the prices of the selected nodes. */
  method Prepare(sess: Session, tokens: TokenMeter, s: Selection, meterFails: bool) returns (r: Result<Prepared, Cause>)
    requires ValidLog(sess.log)
    modifies tokens`measured
    ensures old(tokens.measured) <= tokens.measured
    // It fails with the meter, or when the selected positions hold other nodes by now, and only then.
    ensures r == Err(MeterFailed) <==> meterFails
    ensures r == Err(SurfaceChanged) <==> !meterFails && !InPlace(Nodes(sess.log), s)
    ensures r.Err? ==> r.error in {MeterFailed, SurfaceChanged}
    ensures r.Ok? ==>
      var p := r.value;
      && s.startIdx <= s.endIdx < |p.measurement| && p.selected == p.measurement[s.startIdx..s.endIdx + 1]
      && Seqs(p.selected) == s.shadowed && p.routeTokens == Tokens(p.selected)
  {
    hide Fold, Located, Measured, Seqs;
    var measured := tokens.Measure(sess, meterFails);
    if measured.None? { return Err(MeterFailed); }
    MeasuredSlice(tokens.Current(), sess.log, Nodes(sess.log));
    var measurement := measured.value;
    if s.endIdx >= |measurement| || s.startIdx > s.endIdx { return Err(SurfaceChanged); }
    var selected := measurement[s.startIdx..s.endIdx + 1];
    if Seqs(selected) != s.shadowed { return Err(SurfaceChanged); }
    var route := SumTokens(selected);
    return Ok(Prepared(measurement, selected, route));
  }

  /** The summary that came back, if one did, as a checkpoint; one that does not lower the price is rejected. */
  method Summarize(tokens: TokenMeter, p: Prepared, outcome: Option<string>, id: string) returns (r: Result<Message, Cause>)
    ensures r.Ok? ==> r.value.textOnly && tokens.message(r.value) < p.routeTokens
    ensures r.Ok? ==> outcome.Some? && r.value == Message(id, outcome.value, true)
    ensures r == Err(SummarizerFailed) <==> outcome.None?
    ensures r.Err? && outcome.Some? ==> r.error == NotSmaller && tokens.message(Message(id, outcome.value, true)) >= p.routeTokens
  {
    match outcome
    case None => return Err(SummarizerFailed);
    case Some(summary) =>
    // The framed checkpoint is text alone, so its price is the same on every route.
    var message := Message(id, summary);
    if tokens.message(message) >= p.routeTokens { return Err(NotSmaller); }
    return Ok(message);
  }

  lemma MeasuredSliceIsPriced(meter: Meter, log: Log, nodes: seq<nat>, i: nat, j: nat)
    requires Located(log, nodes) && i <= j <= |nodes|
    ensures PricedBy(meter, log, Measured(meter, log, nodes)[i..j])
  {
  }

  /** Passing either stability rule means the selected nodes still carry the prices of the summary. */
  method AssertStable(balance: ToolPairingBalance, sess: Session, tokens: TokenMeter, s: Selection, p: Prepared, selectedSpan: bool, meterFails: bool)
    returns (r: Option<Cause>)
    requires balance.Follows(sess)
    requires s.startIdx <= s.endIdx < |p.measurement| && p.selected == p.measurement[s.startIdx..s.endIdx + 1]
    modifies balance, tokens`measured
    ensures balance.Follows(sess) && old(tokens.measured) <= tokens.measured
    ensures r.None? ==> PricedBy(tokens.Current(), sess.log, p.selected) && tokens.Current() in tokens.measured[|old(tokens.measured)|..]
    ensures Located(sess.log, Nodes(sess.log))
    // It passes exactly when the meter works and the span, or the whole surface, is unchanged at its prices.
    ensures r.None? && selectedSpan <==> selectedSpan && !meterFails && SpanUnchanged(tokens.Current(), sess.log, s, p)
    ensures r.None? && !selectedSpan <==> !selectedSpan && !meterFails && Measured(tokens.Current(), sess.log, Nodes(sess.log)) == p.measurement
    ensures r == Some(MeterFailed) ==> meterFails
    ensures r.Some? ==> r.value in {MeterFailed, SurfaceChanged}
    ensures r.None? && !selectedSpan ==> Nodes(sess.log) == Seqs(p.measurement)
  {
    if selectedSpan {
      r := AssertSpan(balance, sess, tokens, s, p, meterFails);
    } else {
      hide Fold, Located, PricedBy, Measured, Seqs;
      var measured := tokens.Measure(sess, meterFails);
      if measured.None? { return Some(MeterFailed); }
      if measured.value != p.measurement { return Some(SurfaceChanged); }
      MeasuredSliceIsPriced(tokens.Current(), sess.log, Nodes(sess.log), s.startIdx, s.endIdx + 1);
      MeasuredSlice(tokens.Current(), sess.log, Nodes(sess.log));
      assert Nodes(sess.log)[..|Nodes(sess.log)|] == Nodes(sess.log) && p.measurement[..|p.measurement|] == p.measurement;
      return None;
    }
  }

  /** The rule for the selected span alone. */
  method AssertSpan(balance: ToolPairingBalance, sess: Session, tokens: TokenMeter, s: Selection, p: Prepared, meterFails: bool)
    returns (r: Option<Cause>)
    requires balance.Follows(sess)
    modifies balance, tokens`measured
    ensures balance.Follows(sess) && old(tokens.measured) <= tokens.measured && Located(sess.log, Nodes(sess.log))
    ensures r.None? ==> PricedBy(tokens.Current(), sess.log, p.selected) && tokens.Current() in tokens.measured[|old(tokens.measured)|..]
    ensures r.None? <==> !meterFails && SpanUnchanged(tokens.Current(), sess.log, s, p)
    ensures r == Some(MeterFailed) ==> meterFails
    ensures r.Some? ==> r.value in {MeterFailed, SurfaceChanged}
  {
    hide Fold, Located, PricedBy, Count, Matched, IndexOf, Describes, Measured, Replaceable, SpanUnchanged, RefusedFor;
    var current := ValidateSurfaceRegion(balance, sess, s.start, s.end);
    SpanIsUnchanged(tokens.Current(), sess.log, s, p);
    if current.Err? || current.value.shadowed != s.shadowed { return Some(SurfaceChanged); }
    var measured := tokens.Measure(sess, meterFails);
    if measured.None? { return Some(MeterFailed); }
    var i, j := current.value.startIdx, current.value.endIdx;
    if |measured.value| <= j || measured.value[i..j + 1] != p.selected { return Some(SurfaceChanged); }
    MeasuredSliceIsPriced(tokens.Current(), sess.log, Nodes(sess.log), i, j + 1);
    return None;
  }

  lemma SpanIsUnchanged(meter: Meter, log: Log, s: Selection, p: Prepared)
    requires ValidLog(log) && Located(log, Nodes(log))
    ensures var nodes := Nodes(log);
            var i, j := IndexOf(nodes, s.start), IndexOf(nodes, s.end);
            (Replaceable(log, s.start, s.end) ==> i <= j) && (SpanUnchanged(meter, log, s, p) <==>
              Replaceable(log, s.start, s.end) && j < |nodes| && nodes[i..j + 1] == s.shadowed && Measured(meter, log, nodes)[i..j + 1] == p.selected)
  {
    hide Fold, Count, Matched, Measured;
    MeasuredSlice(meter, log, Nodes(log));
  }

  /** What a compaction meets: whether the meter fails before and after the summary, the summary that
      comes back and the id of its message, panics before and during the commit, and a failed flush. */
  datatype Surroundings = Surroundings(
    meterFails: bool, summary: Option<string>, checkpoint: string, meterFailsLater: bool, panics: bool, commitPanics: bool, flushFails: bool)

  /** Every failure has its cause outside: the session refused an append, something panicked, the meter or
      the summarizer failed, a cancelled signal; a changed surface and a summary that is not smaller are
      found by `Prepare`, `AssertStable` and `Summarize`. */
  predicate Excused(cause: Cause, w: Surroundings, cancelled: bool, refused: bool) {
    match cause
    case Refused => refused
    case Panicked => w.panics || w.commitPanics
    case MeterFailed => w.meterFails || w.meterFailsLater
    case SummarizerFailed => w.summary.None?
    case NotSmaller => w.summary.Some?
    case Interrupted => cancelled
    case SurfaceChanged => true
  }

  lemma Excuses(w: Surroundings, cancelled: bool, refused: bool)
    ensures Excused(SurfaceChanged, w, cancelled, refused)
    ensures w.meterFails || w.meterFailsLater ==> Excused(MeterFailed, w, cancelled, refused)
    ensures w.panics || w.commitPanics ==> Excused(Panicked, w, cancelled, refused)
    ensures if w.summary.None? then Excused(SummarizerFailed, w, cancelled, refused) else Excused(NotSmaller, w, cancelled, refused)
    ensures cancelled ==> Excused(Interrupted, w, cancelled, refused)
    ensures refused ==> Excused(Refused, w, cancelled, refused)
  {
  }

  lemma ExcusedAnyway(cause: Cause, w: Surroundings, cancelled: bool, refused: bool)
    requires Excused(cause, w, false, false) || Excused(cause, w, false, refused) || Excused(cause, w, cancelled, false)
    ensures Excused(cause, w, cancelled, refused)
  {
  }

  /** Everything the commit relies on: the lock is held, the span was validated when it was taken,
      and the checkpoint is cheaper than the span at the given prices. */
  ghost predicate Ready(before: Log, id: nat, owner: Option<nat>, s: Selection, log: Log, priced: seq<PricedNode>, meter: Meter, message: Message) {
    && Open(before, id, owner, log) && Agreed(before, s)
    && PricedBy(meter, log, priced) && Seqs(priced) == s.shadowed && message.textOnly && meter.message(message) < Tokens(priced)
  }

  lemma ReadyLater(before: Log, id: nat, owner: Option<nat>, s: Selection, log: Log, later: Log, priced: seq<PricedNode>, meter: Meter, message: Message)
    requires Ready(before, id, owner, s, log, priced, meter, message) && log <= later && Open(before, id, owner, later)
    ensures Ready(before, id, owner, s, later, priced, meter, message)
  {
    hide Agreed, Open, Price, Tokens;
  }

  lemma CommittedReplaces(before: Log, id: nat, owner: Option<nat>, s: Selection, log: Log, priced: seq<PricedNode>, meter: Meter, message: Message, summary: nat)
    requires Ready(before, id, owner, s, log, priced, meter, message)
    requires |before| < summary < |log| && log[summary].CompactionSummary?
    requires ValidLog(log + [Checkpoint(message, s, |before|, summary)])
    ensures Replaces(log, Checkpoint(message, s, |before|, summary), s, meter)
  {
    hide Fold, Replaceable, Span, Located, Tokens, PricedBy, Replaces;
    var k :| 0 <= k <= |before| && Validated(before[..k], s);
    CheckpointReplaces(before[..k], log, s, priced, meter, message, |before|, summary);
  }

  lemma OwnEventKeepsTheLock(before: Log, id: nat, owner: Option<nat>, log: Log, e: Event)
    requires Open(before, id, owner, log) && !Lifecycle(e) && ValidLog(log + [e])
    ensures Open(before, id, owner, log + [e])
  {
    hide Fold, Lifecycle;
  }

  lemma DistinctCitations(shadowed: seq<nat>, start: nat, summary: nat)
    requires Distinct(shadowed) && start < summary && forall k :: 0 <= k < |shadowed| ==> shadowed[k] < start
    ensures Provenance([start, summary] + shadowed, summary + 1, shadowed)
  {
    var sources := [start, summary] + shadowed;
    assert forall k :: 0 <= k < |shadowed| ==> sources[k + 2] == shadowed[k];
    forall k | 0 <= k < |shadowed| ensures shadowed[k] in sources { assert sources[k + 2] == shadowed[k]; }
    forall a, b | 0 <= a < b < |sources| ensures sources[a] != sources[b] {
      if a >= 2 { assert shadowed[a - 2] != shadowed[b - 2]; }
    }
  }

  lemma SpanOfOld(log: Log, nodes: seq<nat>, start: nat, end: nat)
    requires OnLog(log, nodes)
    ensures Distinct(Span(nodes, start, end)) && Located(log, Span(nodes, start, end))
  {
  }

  lemma PlannedCheckpoint(log: Log, state: SurfaceState, s: Selection, message: Message, start: nat, summary: nat)
    requires Span(state.nodes, s.start, s.end) == s.shadowed && s.shadowed != []
    requires Provenance([start, summary] + s.shadowed, |log|, s.shadowed)
    ensures Plan(log, state, Checkpoint(message, s, start, summary)).Some?
  {
    hide Provenance, IndexOf, Spliced;
  }

  lemma ShadowedIsOld(log: Log, s: Selection)
    requires Validated(log, s)
    ensures Distinct(s.shadowed) && forall k :: 0 <= k < |s.shadowed| ==> s.shadowed[k] < |log|
  {
    NodesAreSurfaceEvents(log);
    hide Fold, OnLog, Located, Replaceable, Span, Distinct;
    SpanOfOld(log, Nodes(log), s.start, s.end);
    LocatedBelow(log, s.shadowed);
  }

  /** No surface check refuses the checkpoint of a span that is still on the surface: only the
      session itself can fail such a commit. */
  lemma StableCheckpointIsAccepted(before: Log, id: nat, owner: Option<nat>, s: Selection, log: Log, message: Message, summary: Event)
    requires Open(before, id, owner, log) && Agreed(before, s) && summary.CompactionSummary?
    requires Span(Nodes(log), s.start, s.end) == s.shadowed && s.shadowed != []
    ensures ValidLog(log + [summary])
    ensures Plan(log + [summary], Fold(log + [summary]).value, Checkpoint(message, s, |before|, |log|)).Some?
  {
    OneMore(log, summary);
    assert Fold(log + [summary]) == Fold(log);
    hide Fold, Plan, OnLog, Located, Replaceable, Provenance, IndexOf, Spliced, Span, Checkpoint, Distinct, Holds, Validated;
    var k :| 0 <= k <= |before| && Validated(before[..k], s);
    ShadowedIsOld(before[..k], s);
    DistinctCitations(s.shadowed, |before|, |log|);
    PlannedCheckpoint(log + [summary], Fold(log).value, s, message, |before|, |log|);
  }

  lemma LocatedBelow(log: Log, nodes: seq<nat>)
    requires Located(log, nodes)
    ensures forall k :: 0 <= k < |nodes| ==> nodes[k] < |log|
  {
  }

  /** A whole compaction of a one-message session: the smallest span there is. */
  lemma SmallestCompaction(long: Message, checkpoint: Message, meter: Meter) returns (log: Log, s: Selection)
    requires checkpoint.textOnly && meter.message(checkpoint) < Price(meter, UserMessage(long, AppendOp, []))
    ensures s.shadowed == [0] && |log| == 3 && ValidLog(log) && ValidLog(log + [Checkpoint(checkpoint, s, 1, 2)])
    ensures Replaces(log, Checkpoint(checkpoint, s, 1, 2), s, meter)
  {
    hide Fold, Replaces, Replaceable, Plan, IndexOf, Span, Spliced, Located, Provenance, Distinct, Holds;
    var start, summary := CompactionStart(0, None), CompactionSummary(0, 0, 0, [0]);
    var before := OneMessage(long);
    s := Chosen(before, 0, 0);
    var started := before + [start];
    QuietEvent(before, start);
    StartOpens(before, 0, None, started);
    assert before[..|before|] == before && Agreed(before, s);
    StableCheckpointIsAccepted(before, 0, None, s, started, checkpoint, summary);
    log := started + [summary];
    OneMore(log, Checkpoint(checkpoint, s, 1, 2));
    var priced := [PricedNode(0, Price(meter, UserMessage(long, AppendOp, [])), 0)];
    assert Tokens(priced) == priced[0].tokens + Tokens(priced[1..]);
    CheckpointReplaces(before, log, s, priced, meter, checkpoint, 1, 2);
  }

  lemma QuietEvent(log: Log, e: Event)
    requires ValidLog(log) && !IsSurface(e)
    ensures ValidLog(log + [e]) && Nodes(log + [e]) == Nodes(log)
  {
    OneMore(log, e);
  }

  lemma EmptyFold()
    ensures Fold([]) == Some(SurfaceState([], 0))
  {
  }

  lemma FirstNode(e: Event)
    requires e.UserMessage? && e.op == AppendOp && e.sources == []
    ensures Plan([], SurfaceState([], 0), e) == Some(SurfaceState([0], 0))
  {
    hide RewriteAllowed, IndexOf;
    assert Spliced([], 0, 0, 0) == [0];
  }

  lemma OneNode(e: Event)
    requires e.UserMessage? && e.op == AppendOp && e.sources == []
    ensures ValidLog([e]) && Nodes([e]) == [0]
  {
    EmptyFold();
    hide Fold, RewriteAllowed, IndexOf, Plan;
    OneMore([], e);
    assert [] + [e] == [e];
    FirstNode(e);
  }

  lemma OneNodeIsMatched(e: Event)
    requires e.UserMessage?
    ensures Count([e], [0][..0]) == Count([e], [0][..1]) == 0 && Matched([e], [0])
  {
    assert [0][..0] == [] && [0][..1] == [0];
    CountOfOne([e], 0);
  }

  lemma OneMessage(message: Message) returns (log: Log)
    ensures log == [UserMessage(message, AppendOp, [])] && ValidLog(log) && Validated(log, Chosen(log, 0, 0)) && Chosen(log, 0, 0).shadowed == [0]
  {
    hide Fold, Count, Matched;
    log := [UserMessage(message, AppendOp, [])];
    OneNode(log[0]);
    OneNodeIsMatched(log[0]);
  }

  /** Appends the summary record and the replacement. */
  method CommitBody(sess: Session, tokens: TokenMeter, s: Selection, id: nat, startSeq: nat, message: Message, others: bool,
                    ghost before: Log, ghost owner: Option<nat>, ghost priced: seq<PricedNode>, ghost meter: Meter)
    returns (ok: bool, summary: nat, ghost run: Run)
    requires Ready(before, id, owner, s, sess.log, priced, meter, message) && startSeq == |before|
    modifies sess, tokens`other, tokens`heuristic
    ensures !others ==> tokens.Current() == old(tokens.Current())
    ensures Open(before, id, owner, sess.log) && old(sess.log) <= sess.log
    ensures Tried(old(sess.attempted), sess.attempted, false)
    ensures run.start == Some(startSeq) && run.end == None && Trail(before, id, s, run, sess.log)
    ensures run.message == message && run.meter == meter
    ensures ok ==> run.summary == Some(summary) && run.replacement == Some(|sess.log| - 1)
    ensures ok && !others ==> summary + 1 == |sess.log| - 1
    ensures (ok <==> sess.refusals == old(sess.refusals)) && old(sess.refusals) <= sess.refusals
  {
    hide Fold, Holds, Replaces, PricedBy, Tokens, Plan, Agreed;
    if others {
      ghost var was := sess.log;
      Interfere(sess, tokens, before, id, owner);
      ReadyLater(before, id, owner, s, was, sess.log, priced, meter, message);
    }
    summary := |sess.log|;
    run := Run(Some(startSeq), None, None, None, message, meter);
    ghost var ready := sess.log;
    ok := sess.Append(CompactionSummary(id, s.start, s.end, s.shadowed));
    if !ok { return; }
    OwnEventKeepsTheLock(before, id, owner, ready, CompactionSummary(id, s.start, s.end, s.shadowed));
    run := run.(summary := Some(summary));
    if others { Interfere(sess, tokens, before, id, owner); }
    ReadyLater(before, id, owner, s, ready, sess.log, priced, meter, message);
    ghost var log := sess.log;
    var checkpoint := Checkpoint(message, s, startSeq, summary);
    ok := sess.Append(checkpoint);
    if !ok { return; }
    CommittedReplaces(before, id, owner, s, log, priced, meter, message, summary);
    OwnEventKeepsTheLock(before, id, owner, log, checkpoint);
    assert sess.log[..|log|] == log;
    run := run.(replacement := Some(|log|));
  }

  /** The transaction's end is the last event. */
  ghost predicate Closed(before: Log, id: nat, owner: Option<nat>, log: Log, failed: bool) {
    && ValidLog(log) && log != [] && Open(before, id, owner, log[..|log| - 1])
    && log[|log| - 1] == CompactionEnd(id, owner, failed)
  }

  /** Validated input to a measured, summarized and still stable span. */
  method SummarizeStable(balance: ToolPairingBalance, sess: Session, tokens: TokenMeter, signal: Signal, s: Selection, id: nat,
                         options: Options, others: bool, w: Surroundings, ghost before: Log, ghost owner: Option<nat>)
    returns (r: Result<Message, Cause>, ghost priced: seq<PricedNode>, ghost meter: Meter)
    requires Open(before, id, owner, sess.log) && Agreed(before, s) && balance.Follows(sess)
    modifies balance, sess`log, tokens, signal
    ensures balance.Follows(sess) && old(sess.log) <= sess.log && Open(before, id, owner, sess.log)
    ensures old(tokens.measured) <= tokens.measured && meter.message == tokens.message && meter == tokens.Current()
    ensures r.Ok? ==> Ready(before, id, owner, s, sess.log, priced, meter, r.value) && meter in tokens.measured[|old(tokens.measured)|..]
    ensures r.Ok? ==> w.summary.Some? && r.value == Message(w.checkpoint, w.summary.value, true)
    ensures r.Err? ==> Excused(r.error, w, signal.cancelled, false)
  {
    hide Fold, Holds, Agreed, PricedBy, Describes, Tokens, Excused;
    priced := [];
    Excuses(w, signal.cancelled, false);
    if others { Interfere(sess, tokens, before, id, owner); }
    var prepared := Prepare(sess, tokens, s, w.meterFails);
    match prepared
    case Err(e) => return Err(e), priced, tokens.Current();
    case Ok(p) =>
    var message := Summarize(tokens, p, w.summary, w.checkpoint);
    Interfere(sess, tokens, before, id, owner);
    if message.Err? { return Err(message.error), priced, tokens.Current(); }
    var unstable := Recheck(balance, sess, tokens, signal, s, p, options, w);
    if unstable.Some? { return Err(unstable.value), priced, tokens.Current(); }
    priced, meter := p.selected, tokens.Current();
    return Ok(message.value), priced, meter;
  }

  /** The last looks before the commit: a manual run at its signal, every run at the span. */
  method Recheck(balance: ToolPairingBalance, sess: Session, tokens: TokenMeter, signal: Signal, s: Selection, p: Prepared, options: Options, w: Surroundings)
    returns (r: Option<Cause>)
    requires balance.Follows(sess)
    requires s.startIdx <= s.endIdx < |p.measurement| && p.selected == p.measurement[s.startIdx..s.endIdx + 1]
    modifies balance, tokens`measured, signal
    ensures balance.Follows(sess) && old(tokens.measured) <= tokens.measured
    ensures r.None? ==> PricedBy(tokens.Current(), sess.log, p.selected) && tokens.Current() in tokens.measured[|old(tokens.measured)|..]
    ensures r.Some? ==> Excused(r.value, w, signal.cancelled, false)
  {
    hide Excused, SpanUnchanged, Measured, PricedBy, Located, Fold, Describes;
    if !options.automatic {
      var interrupted := signal.Err();
      Excuses(w, signal.cancelled, false);
      if interrupted { return Some(Interrupted); }
    }
    Excuses(w, signal.cancelled, false);
    r := AssertStable(balance, sess, tokens, s, p, options.selectedSpan, w.meterFailsLater);
    if r.None? && w.panics { return Some(Panicked); }
  }

  /** The end attempt of a committed transaction. */
  method EndCommitted(sess: Session, tokens: TokenMeter, s: Selection, id: nat, owner: Option<nat>, others: bool, ghost before: Log, ghost done: Run)
    returns (ok: bool, ghost run: Run)
    requires Open(before, id, owner, sess.log) && Trail(before, id, s, done, sess.log)
    requires done.replacement == Some(|sess.log| - 1) && done.end.None?
    modifies sess, tokens`other, tokens`heuristic
    ensures !others ==> tokens.Current() == old(tokens.Current())
    ensures old(sess.log) <= sess.log && sess.attempted == old(sess.attempted) + [CompactionEnd(id, owner, false)]
    ensures run == (if ok then done.(end := Some(|sess.log| - 1)) else done) && Trail(before, id, s, run, sess.log)
    ensures if ok then Closed(before, id, owner, sess.log, false) else Open(before, id, owner, sess.log)
    ensures ok && !others ==> done.replacement.value + 1 == |sess.log| - 1
    ensures ok <==> sess.refusals == old(sess.refusals)
    ensures old(sess.refusals) <= sess.refusals
  {
    hide Fold, Holds, Replaces, Plan;
    ghost var log := sess.log;
    if others { Interfere(sess, tokens, before, id, owner); }
    ghost var open := sess.log;
    ok := sess.Append(CompactionEnd(id, owner, false));
    TrailLater(before, id, s, done, log, sess.log);
    run := if ok then done.(end := Some(|sess.log| - 1)) else done;
    if ok { assert sess.log[..|sess.log| - 1] == open; }
  }

  /** The recorded prices are the token meter's: those of a measurement made since, once anything
      was committed, and the current ones when no other writer interposes. */
  ghost predicate Checked(run: Run, tokens: TokenMeter, since: nat, others: bool)
    reads tokens
  {
    && run.meter.message == tokens.message && (!others ==> run.meter == tokens.Current())
    && (run.summary.Some? ==> since <= |tokens.measured| && run.meter in tokens.measured[since..])
  }

  /** The guarded part of the transaction, up to and including its own end attempt. */
  method Attempt(balance: ToolPairingBalance, sess: Session, tokens: TokenMeter, signal: Signal, s: Selection, id: nat,
                 owner: Option<nat>, startSeq: nat, options: Options, others: bool, w: Surroundings, ghost before: Log)
    returns (failure: Option<Failure>, closing: bool, pending: Option<Committed>, ghost run: Run)
    requires Open(before, id, owner, sess.log) && Agreed(before, s) && startSeq == |before| && balance.Follows(sess)
    modifies balance, sess, tokens, signal
    ensures balance.Follows(sess) && old(sess.log) <= sess.log
    ensures Checked(run, tokens, |old(tokens.measured)|, others)
    ensures Tried(old(sess.attempted), sess.attempted, closing)
    ensures run.start == Some(startSeq) && Trail(before, id, s, run, sess.log)
    ensures run.end.None? ==> Open(before, id, owner, sess.log) && failure.Some? && pending.None?
    ensures run.end.Some? ==>
      && closing && failure.None? && Closed(before, id, owner, sess.log, false) && run.end == Some(|sess.log| - 1)
      && run.replacement.Some? && run.summary.Some? && pending == Some(Committed(startSeq, run.summary.value, run.end.value, s.shadowed))
      && (!others ==> run.summary.value + 1 == run.replacement.value && run.replacement.value + 1 == run.end.value)
    ensures failure.Some? && failure.value.stage == Summarizing ==> run.summary.None? && !closing
    ensures old(sess.refusals) <= sess.refusals && (failure.Some? ==> Excused(failure.value.cause, w, signal.cancelled, old(sess.refusals) < sess.refusals))
  {
    hide Fold, Holds, Agreed, Ready, Describes, Replaces, Open, Excused;
    closing, pending := false, None;
    var summarized, priced, meter := SummarizeStable(balance, sess, tokens, signal, s, id, options, others, w, before, owner);
    run := Run(Some(startSeq), None, None, None, Message("", ""), meter);
    match summarized
    case Err(e) =>
      failure := Some(Failure(e, Summarizing));
      ExcusedAnyway(e, w, signal.cancelled, old(sess.refusals) < sess.refusals);
    case Ok(message) =>
    failure, closing, pending, run := CommitAndEnd(sess, tokens, s, id, owner, startSeq, message, others, w, before, priced, meter);
    if failure.Some? { ExcusedAnyway(failure.value.cause, w, signal.cancelled, old(sess.refusals) < sess.refusals); }
    OpenIsValid(before, id, owner, sess.log);
  }

  lemma OpenIsValid(before: Log, id: nat, owner: Option<nat>, log: Log)
    ensures Open(before, id, owner, log) ==> ValidLog(log)
    ensures Closed(before, id, owner, log, true) || Closed(before, id, owner, log, false) ==> ValidLog(log)
  {
  }

  method CommitAndEnd(sess: Session, tokens: TokenMeter, s: Selection, id: nat, owner: Option<nat>, startSeq: nat, message: Message, others: bool,
                      w: Surroundings, ghost before: Log, ghost priced: seq<PricedNode>, ghost meter: Meter)
    returns (failure: Option<Failure>, closing: bool, pending: Option<Committed>, ghost run: Run)
    requires Ready(before, id, owner, s, sess.log, priced, meter, message) && startSeq == |before|
    modifies sess, tokens`other, tokens`heuristic
    ensures run.meter == meter && (!others ==> tokens.Current() == old(tokens.Current()))
    ensures old(sess.log) <= sess.log && Tried(old(sess.attempted), sess.attempted, closing)
    ensures run.start == Some(startSeq) && Trail(before, id, s, run, sess.log)
    ensures run.end.None? ==> Open(before, id, owner, sess.log) && failure.Some? && failure.value.stage == Committing && pending.None?
    ensures run.end.Some? ==>
      && closing && failure.None? && Closed(before, id, owner, sess.log, false) && run.end == Some(|sess.log| - 1)
      && run.replacement.Some? && run.summary.Some? && pending == Some(Committed(startSeq, run.summary.value, run.end.value, s.shadowed))
      && (!others ==> run.summary.value + 1 == run.replacement.value && run.replacement.value + 1 == run.end.value)
    ensures old(sess.refusals) <= sess.refusals && (failure.Some? ==> Excused(failure.value.cause, w, false, old(sess.refusals) < sess.refusals))
  {
    hide Fold, Holds, Ready, Open, Trail, Closed, Excused;
    Excuses(w, false, true);
    Excuses(w, false, false);
    var ok, summary;
    closing, pending := false, None;
    ok, summary, run := CommitBody(sess, tokens, s, id, startSeq, message, others, before, owner, priced, meter);
    if !ok { return Some(Failure(Refused, Committing)), false, None, run; }
    if w.commitPanics { return Some(Failure(Panicked, Committing)), false, None, run; }
    closing := true;
    ok, run := EndCommitted(sess, tokens, s, id, owner, others, before, run);
    if !ok { return Some(Failure(Refused, Committing)), true, None, run; }
    return None, true, Some(Committed(startSeq, summary, |sess.log| - 1, s.shadowed)), run;
  }

  /** How a closed manual attempt is reported. */
  function ManualFailure(f: Failure): CompactError {
    if f.stage == Committing then ManualCommit(f.cause)
    else if f.cause == SurfaceChanged then ManualChanged
    else ManualSummary(f.cause)
  }

  lemma EndReleasesTheLock(before: Log, id: nat, owner: Option<nat>, log: Log, failed: bool)
    requires Closed(before, id, owner, log, failed)
    ensures before <= log && |before| < |log| && log[|before|] == CompactionStart(id, owner) && Inactive(log)
    ensures Separated(before) && Inactive(before) ==> Separated(log)
  {
    hide Fold;
    var init, last := log[..|log| - 1], log[|log| - 1];
    if Separated(before) && Inactive(before) {
      HeldLogIsSeparated(before, init);
      OthersKeepSeparated(init, [last]);
      assert init + [last] == log;
    }
  }

  lemma OpenKeepsTheLock(before: Log, id: nat, owner: Option<nat>, log: Log)
    requires Open(before, id, owner, log)
    ensures before <= log && |before| < |log| && log[|before|] == CompactionStart(id, owner) && !Inactive(log) && ValidLog(log)
    ensures Separated(before) && Inactive(before) ==> Separated(log)
  {
    hide Fold, Inactive, Separated;
    HeldLockIsActive(log, |before|);
    if Separated(before) && Inactive(before) {
      HeldLogIsSeparated(before, log);
    }
  }

  /** The end attempt of a transaction that failed before making its own. */
  method EndFailed(sess: Session, s: Selection, id: nat, owner: Option<nat>, ghost before: Log, ghost done: Run) returns (ok: bool, ghost run: Run)
    requires Open(before, id, owner, sess.log) && Trail(before, id, s, done, sess.log) && done.end.None?
    modifies sess
    ensures old(sess.log) <= sess.log && sess.attempted == old(sess.attempted) + [CompactionEnd(id, owner, true)]
    ensures run == (if ok then done.(end := Some(|sess.log| - 1)) else done) && Trail(before, id, s, run, sess.log)
    ensures if ok then Closed(before, id, owner, sess.log, true) else Open(before, id, owner, sess.log)
    ensures sess.refusals == old(sess.refusals) + if ok then 0 else 1
  {
    hide Fold, Holds, Replaces, Plan;
    ghost var open := sess.log;
    ok := sess.Append(CompactionEnd(id, owner, true));
    TrailLater(before, id, s, done, open, sess.log);
    run := if ok then done.(end := Some(|sess.log| - 1)) else done;
    if ok { assert sess.log[..|sess.log| - 1] == open; }
  }

  /** What a started transaction left behind. */
  ghost predicate Settled(before: Log, id: nat, owner: Option<nat>, s: Selection, run: Run, log: Log) {
    && run.start == Some(|before|) && Trail(before, id, s, run, log)
    && if run.end.None? then Open(before, id, owner, log)
       else run.end == Some(|log| - 1) && (Closed(before, id, owner, log, true) || (Closed(before, id, owner, log, false) && run.replacement.Some?))
  }

  lemma SettledLock(before: Log, id: nat, owner: Option<nat>, s: Selection, run: Run, log: Log)
    requires Settled(before, id, owner, s, run, log)
    ensures before <= log && |before| < |log| && log[|before|] == CompactionStart(id, owner) && ValidLog(log)
    ensures Inactive(log) <==> run.end.Some?
    ensures Separated(before) && Inactive(before) ==> Separated(log)
  {
    hide Open, Fold, Trail, Inactive, Separated;
    if run.end.None? {
      OpenKeepsTheLock(before, id, owner, log);
    } else {
      EndReleasesTheLock(before, id, owner, log, !Closed(before, id, owner, log, false));
    }
  }

  /** The guarded attempt, and the failure end it may still owe. */
  method Transact(balance: ToolPairingBalance, sess: Session, tokens: TokenMeter, signal: Signal, s: Selection, id: nat,
                  owner: Option<nat>, startSeq: nat, options: Options, others: bool, w: Surroundings, ghost before: Log)
    returns (failure: Option<Failure>, closed: bool, pending: Option<Committed>, ghost run: Run)
    requires Open(before, id, owner, sess.log) && Agreed(before, s) && startSeq == |before| && balance.Follows(sess)
    modifies balance, sess, tokens, signal
    ensures balance.Follows(sess) && old(sess.log) <= sess.log
    ensures Checked(run, tokens, |old(tokens.measured)|, others)
    ensures Tried(old(sess.attempted), sess.attempted, true)
    ensures Settled(before, id, owner, s, run, sess.log) && closed == run.end.Some?
    ensures failure.None? ==>
      && Closed(before, id, owner, sess.log, false) && run.summary.Some? && run.replacement.Some? && run.end.Some?
      && pending == Some(Committed(startSeq, run.summary.value, run.end.value, s.shadowed))
      && (!others ==> run.summary.value + 1 == run.replacement.value && run.replacement.value + 1 == run.end.value)
    ensures failure.Some? && failure.value.stage == Summarizing ==> run.summary.None? && closed
    ensures old(sess.refusals) <= sess.refusals && (failure.Some? ==> Excused(failure.value.cause, w, signal.cancelled, old(sess.refusals) < sess.refusals))
  {
    hide Fold, Agreed, Open, Closed, Trail, Describes, Excused;
    var closing;
    failure, closing, pending, run := Attempt(balance, sess, tokens, signal, s, id, owner, startSeq, options, others, w, before);
    closed := pending.Some?;
    if !closing {
      closed, run := EndFailed(sess, s, id, owner, before, run);
      Excuses(w, signal.cancelled, true);
      if !closed { failure := Some(Failure(Refused, Committing)); }
      OpenIsValid(before, id, owner, sess.log);
    }
  }

  /** One compaction of the span start..end.  `others` says whether other writers may also append
      between the transaction's own appends; they may always append while it summarizes. */
  method CompactSurfaceRegion(balance: ToolPairingBalance, sess: Session, tokens: TokenMeter, signal: Signal,
                              start: nat, end: nat, id: nat, options: Options, others: bool, w: Surroundings)
    returns (r: Result<Committed, CompactError>, ghost run: Run)
    requires balance.Follows(sess)
    modifies balance, sess, tokens, signal
    ensures balance.Follows(sess) && old(sess.log) <= sess.log
    ensures Separated(old(sess.log)) ==> Separated(sess.log)
    // A refused compaction appends nothing.
    ensures run.start.None? ==> r.Err? && Tried(old(sess.attempted), sess.attempted, false) && (!others ==> sess.log == old(sess.log))
    // A started one was free to start and makes exactly one end attempt; its lock stays if that fails.
    ensures run.start.Some? ==>
      && Validated(old(sess.log), Chosen(old(sess.log), start, end))
      && |old(sess.log)| <= run.start.value < |sess.log| && (!others ==> run.start.value == |old(sess.log)|)
      && sess.log[run.start.value].CompactionStart?
      && Scanned(sess.log, |old(sess.log)|, run.start.value, sess.log[run.start.value].owner)
      && options.automatic == sess.log[run.start.value].owner.Some?
      && Tried(old(sess.attempted), sess.attempted, true) && Checked(run, tokens, |old(tokens.measured)|, others)
      && Settled(sess.log[..run.start.value], id, sess.log[run.start.value].owner, Chosen(old(sess.log), start, end), run, sess.log)
      && (Inactive(sess.log) <==> run.end.Some?)
    // Success means all four events are there, in order.
    ensures r.Ok? ==>
      && run.start.Some? && run.summary.Some? && run.replacement.Some? && run.end.Some?
      && r.value == Committed(run.start.value, run.summary.value, run.end.value, Chosen(old(sess.log), start, end).shadowed)
      && Closed(sess.log[..run.start.value], id, sess.log[run.start.value].owner, sess.log, false)
      && (!others ==> run.summary.value + 1 == run.replacement.value && run.replacement.value + 1 == run.end.value)
    // Cancellation of a manual compaction takes precedence over every other outcome.
    ensures !options.automatic && signal.cancelled ==> r == Err(Canceled)
    // A manual failure to summarize committed nothing, and a durability failure committed everything.
    ensures r.Err? && (r.error.ManualSummary? || r.error.ManualChanged?) ==> run.summary.None? && run.end.Some?
    ensures r.Err? && r.error.ManualPersistence? ==> options.flush && w.flushFails && run.replacement.Some? && run.end.Some?
    // Every other failure has its cause outside.
    ensures r == Err(Canceled) ==> signal.cancelled
    ensures r == Err(StartRefused) ==> old(sess.refusals) < sess.refusals
    ensures r.Err? && (r.error.ManualSummary? || r.error.ManualCommit? || r.error.Automatic?) ==>
      Excused(r.error.cause, w, signal.cancelled, old(sess.refusals) < sess.refusals)
  {
    hide Fold, Validated, Describes, Settled, Inactive, Separated, TurnBrackets.OpenTurn, Open, Closed, Tried, Replaceable, Located, Chosen, Scanned, Agreed, Excused;
    NothingTried(sess.attempted);
    run := Run(None, None, None, None, Message("", ""), tokens.Current());
    if !options.automatic {
      var interrupted := signal.Err();
      if interrupted { return Err(Canceled), run; }
    }
    ghost var first := sess.log;
    var begun, scanned := Begin(balance, sess, tokens, start, end, id, options.automatic, others);
    match begun
    case Err(e) => return Err(e), run;
    case Ok((s, owner)) =>
    ghost var before := sess.log[..|sess.log| - 1];
    BegunOpens(first, scanned, before, id, owner, s, sess.log);
    r, run := Carry(balance, sess, tokens, signal, s, id, owner, |sess.log| - 1, options, others, w, before);
    TriedAfterStart(old(sess.attempted), CompactionStart(id, owner), sess.attempted);
    SettledLock(before, id, owner, s, run, sess.log);
    SettledStart(before, id, owner, s, run, sess.log);
    ScannedLater(first, scanned, before, sess.log, owner);
  }

  /** A started compaction, from its guarded attempt to its report. */
  method Carry(balance: ToolPairingBalance, sess: Session, tokens: TokenMeter, signal: Signal, s: Selection, id: nat,
               owner: Option<nat>, startSeq: nat, options: Options, others: bool, w: Surroundings, ghost before: Log)
    returns (r: Result<Committed, CompactError>, ghost run: Run)
    requires Open(before, id, owner, sess.log) && Agreed(before, s) && startSeq == |before| && balance.Follows(sess)
    modifies balance, sess, tokens, signal
    ensures balance.Follows(sess) && old(sess.log) <= sess.log && old(sess.refusals) <= sess.refusals
    ensures Checked(run, tokens, |old(tokens.measured)|, others) && Tried(old(sess.attempted), sess.attempted, true)
    ensures Settled(before, id, owner, s, run, sess.log)
    ensures r.Ok? ==>
      && Closed(before, id, owner, sess.log, false) && run.summary.Some? && run.replacement.Some? && run.end.Some?
      && r.value == Committed(startSeq, run.summary.value, run.end.value, s.shadowed)
      && (!others ==> run.summary.value + 1 == run.replacement.value && run.replacement.value + 1 == run.end.value)
    ensures !options.automatic && signal.cancelled ==> r == Err(Canceled)
    ensures r.Err? ==> r.error.Canceled? || r.error.Automatic? || r.error.ManualCommit? || r.error.ManualSummary? || r.error.ManualChanged? || r.error.ManualPersistence?
    ensures r.Err? && (r.error.ManualSummary? || r.error.ManualChanged?) ==> run.summary.None? && run.end.Some?
    ensures r.Err? && r.error.ManualPersistence? ==> options.flush && w.flushFails && run.replacement.Some? && run.end.Some?
    ensures r == Err(Canceled) ==> signal.cancelled
    ensures r.Err? && (r.error.ManualSummary? || r.error.ManualCommit? || r.error.Automatic?) ==>
      Excused(r.error.cause, w, signal.cancelled, old(sess.refusals) < sess.refusals)
  {
    hide Fold, Agreed, Open, Closed, Describes, Settled, Tried, Excused;
    var failure, closed, pending;
    failure, closed, pending, run := Transact(balance, sess, tokens, signal, s, id, owner, startSeq, options, others, w, before);
    r := Report(signal, options, closed, failure, pending, w.flushFails);
  }

  /** The owner is the turn that was open when the lock was seen free, somewhere up to the start. */
  ghost predicate Scanned(log: Log, from: nat, start: nat, owner: Option<nat>) {
    exists k :: 0 <= from <= k <= start <= |log| && Inactive(log[..k]) && TurnBrackets.OpenTurn(log[..k]) == owner
  }

  lemma ScannedLater(first: Log, scanned: Log, before: Log, log: Log, owner: Option<nat>)
    requires first <= scanned <= before <= log && Inactive(scanned) && TurnBrackets.OpenTurn(scanned) == owner
    ensures Scanned(log, |first|, |before|, owner) && log[..|before|] == before
  {
    hide Inactive, TurnBrackets.OpenTurn;
    assert log[..|scanned|] == scanned;
  }

  lemma BegunOpens(first: Log, scanned: Log, before: Log, id: nat, owner: Option<nat>, s: Selection, log: Log)
    requires first <= scanned <= before && Validated(first, s) && ValidLog(log) && log == before + [CompactionStart(id, owner)]
    ensures Open(before, id, owner, log) && Agreed(before, s)
  {
    hide Validated;
    StartOpens(before, id, owner, log);
    assert before[..|first|] == first;
  }

  lemma NothingTried(tried: seq<Event>)
    ensures Tried(tried, tried, false)
  {
  }

  lemma TriedAfterStart(tried: seq<Event>, start: Event, now: seq<Event>)
    requires Tried(tried + [start], now, true) && !start.CompactionEnd?
    ensures Tried(tried, now, true)
  {
    assert now[|tried|] == (tried + [start])[|tried|];
  }

  lemma StartOpens(before: Log, id: nat, owner: Option<nat>, log: Log)
    requires ValidLog(log) && log == before + [CompactionStart(id, owner)]
    ensures Open(before, id, owner, log)
  {
  }

  lemma SettledStart(before: Log, id: nat, owner: Option<nat>, s: Selection, run: Run, log: Log)
    requires Settled(before, id, owner, s, run, log)
    ensures run.start == Some(|before|)
  {
  }

  /** Flush, cancellation and failure precedence. */
  method Report(signal: Signal, options: Options, closed: bool, failure: Option<Failure>, pending: Option<Committed>, flushFails: bool)
    returns (r: Result<Committed, CompactError>)
    requires failure.None? ==> pending.Some? && closed
    modifies signal
    ensures old(signal.cancelled) ==> signal.cancelled
    ensures options.automatic ==> signal.cancelled == old(signal.cancelled)
    ensures if !options.automatic && signal.cancelled then r == Err(Canceled)
            else match failure
              case Some(f) => r == Err(if options.automatic then Automatic(f.cause) else ManualFailure(f))
              case None => r == if options.flush && flushFails then Err(ManualPersistence) else Ok(pending.value)
    // A manual failure is told by the stage it happened in, and a changed surface by itself.
    ensures !options.automatic && !signal.cancelled && failure.Some? && failure.value.stage == Committing ==> r == Err(ManualCommit(failure.value.cause))
    ensures !options.automatic && !signal.cancelled && failure.Some? && failure.value.stage != Committing ==>
      r == Err(if failure.value.cause == SurfaceChanged then ManualChanged else ManualSummary(failure.value.cause))
  {
    var flushFailed := flushFails && closed && options.flush;
    if !options.automatic {
      var interrupted := signal.Err();
      if interrupted { return Err(Canceled); }
    }
    match failure
    case Some(f) => return Err(if options.automatic then Automatic(f.cause) else ManualFailure(f));
    case None =>
    if flushFailed { return Err(ManualPersistence); }
    return Ok(pending.value);
  }
}

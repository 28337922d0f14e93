/**
The tool-call scheduler of one assistant step (agentloop/tool-calls.go).

`ToolScheduler` is the code: a bounded rolling pool with exclusive barriers, whose
settlement order, mode answers, prepare outcomes, panics and abort instant are all
left to the environment.  Two independent specifications judge it: `Journal`, what
the session log must hold, and `Safe`, a monitor over the schedule it produced.
 */
module ToolCalls {
  import opened SessionLog

  datatype Mode = Parallel | Exclusive

  datatype Block = Block(id: string, name: string, arguments: string)

  /** A dispatch result awaiting model-order finalization. */
  datatype Slot = Unsettled | Settled(raw: ToolOutcome, needsPost: bool)

  /** What a dispatch goroutine delivers when it ends; a lost dispatch is reported with it. */
  datatype Delivery = Delivery(raw: ToolOutcome, needsPost: bool, lost: bool)

  /** The ordered post-dispatch stages of the tool runtime. */
  datatype Runtime = Runtime(finalize: (Block, ToolOutcome) -> ToolOutcome, finish: (Block, ToolOutcome) -> ToolOutcome)

  datatype Failure = DispatchFailed | Panicked

  const ABORTED := ToolOutcome("Error: tool call aborted before dispatch", true, false, [])

  /** The result of a call that never ran: an error that adds nothing to the conversation and
      does not conclude the turn. */
  predicate Synthetic(outcome: ToolOutcome) {
    outcome.isError && !outcome.concludesTurn && outcome.contexts == []
  }

  function Finalized(runtime: Runtime, call: Block, slot: Slot): ToolOutcome
    requires slot.Settled?
  {
    if slot.needsPost then runtime.finalize(call, slot.raw) else runtime.finish(call, slot.raw)
  }

  // ----- What the log must hold -----

  /** The seqs of the tool/call events at or after `base`, in log order. */
  function CallSeqs(log: Log, base: nat): (r: seq<nat>)
    ensures forall i :: 0 <= i < |r| ==> base <= r[i] < |log| && log[r[i]].ToolCall?
    ensures forall i, j :: 0 <= i < j < |r| ==> r[i] < r[j]
  {
    if |log| <= base then []
    else
      var last := |log| - 1;
      CallSeqs(log[..last], base) + if log[last].ToolCall? then [last] else []
  }

  /** The seqs of the tool/result events at or after `base`, in log order. */
  function ResultSeqs(log: Log, base: nat): (r: seq<nat>)
    ensures forall i :: 0 <= i < |r| ==> base <= r[i] < |log| && log[r[i]].ToolResult?
    ensures forall i, j :: 0 <= i < j < |r| ==> r[i] < r[j]
  {
    if |log| <= base then []
    else
      var last := |log| - 1;
      ResultSeqs(log[..last], base) + if log[last].ToolResult? then [last] else []
  }

  /** The step every event belongs to and the calls it planned, in model order. */
  datatype Plan = Plan(turn: nat, step: nat, calls: seq<Block>)

  /** The log past `base` holds exactly the tool/calls of the first |sources| planned
      calls and the tool/results of the first |ends|, each in model order; the i-th
      result carries outcome ends[i] and cites the seq of the i-th call. */
  ghost predicate Journal(log: Log, base: nat, plan: Plan, sources: seq<nat>, ends: seq<ToolOutcome>) {
    var results := ResultSeqs(log, base);
    && base <= |log|
    && CallSeqs(log, base) == sources
    && |results| == |ends| <= |sources| <= |plan.calls|
    && (forall i :: 0 <= i < |sources| ==> log[sources[i]] == ToolCall(plan.turn, plan.step, plan.calls[i].id))
    && (forall i :: 0 <= i < |ends| ==> sources[i] < results[i])
    && (forall i :: 0 <= i < |ends| ==>
          log[results[i]] == ToolResult(plan.turn, plan.step, plan.calls[i].id, ends[i], AppendOp, [sources[i]]))
  }

  predicate IsToolEvent(e: Event) {
    e.ToolCall? || e.ToolResult?
  }

  lemma JournalCall(log: Log, base: nat, plan: Plan, sources: seq<nat>, ends: seq<ToolOutcome>)
    requires Journal(log, base, plan, sources, ends) && |sources| < |plan.calls|
    ensures Journal(log + [ToolCall(plan.turn, plan.step, plan.calls[|sources|].id)], base, plan, sources + [|log|], ends)
  {
    var e := ToolCall(plan.turn, plan.step, plan.calls[|sources|].id);
    assert (log + [e])[..|log|] == log;
  }

  lemma JournalResult(log: Log, base: nat, plan: Plan, sources: seq<nat>, ends: seq<ToolOutcome>, outcome: ToolOutcome)
    requires Journal(log, base, plan, sources, ends) && |ends| < |sources|
    ensures Journal(log + [ToolResult(plan.turn, plan.step, plan.calls[|ends|].id, outcome, AppendOp, [sources[|ends|]])],
                    base, plan, sources, ends + [outcome])
  {
    var e := ToolResult(plan.turn, plan.step, plan.calls[|ends|].id, outcome, AppendOp, [sources[|ends|]]);
    assert (log + [e])[..|log|] == log;
  }

  lemma {:induction false} JournalOther(log: Log, more: Log, base: nat, plan: Plan, sources: seq<nat>, ends: seq<ToolOutcome>)
    requires Journal(log, base, plan, sources, ends)
    requires forall i :: 0 <= i < |more| ==> !IsToolEvent(more[i])
    ensures Journal(log + more, base, plan, sources, ends)
  {
    if more == [] {
      assert log + more == log;
    } else {
      var init := more[..|more| - 1];
      JournalOther(log, init, base, plan, sources, ends);
      assert (log + more)[..|log + more| - 1] == log + init;
    }
  }

  /** The contexts of the first |ends| results, in model order. */
  function Contexts(ends: seq<ToolOutcome>): seq<Message> {
    if ends == [] then [] else Contexts(ends[..|ends| - 1]) + ends[|ends| - 1].contexts
  }

  lemma ContextsOfOneMore(ends: seq<ToolOutcome>, outcome: ToolOutcome)
    ensures Contexts(ends + [outcome]) == Contexts(ends) + outcome.contexts
  {
    assert (ends + [outcome])[..|ends|] == ends;
  }

  /** Some result among the calls lo..hi concludes the turn. */
  ghost predicate Concludes(ends: seq<ToolOutcome>, lo: nat, hi: nat) {
    exists i :: lo <= i < hi <= |ends| && ends[i].concludesTurn
  }

  lemma ConcludesOneMore(ends: seq<ToolOutcome>, outcome: ToolOutcome, lo: nat)
    requires lo <= |ends|
    ensures Concludes(ends + [outcome], lo, |ends| + 1) <==> Concludes(ends, lo, |ends|) || outcome.concludesTurn
  {
    var more := ends + [outcome];
    assert outcome.concludesTurn ==> lo <= |ends| < |more| && more[|ends|].concludesTurn;
    forall i | lo <= i < |ends| && ends[i].concludesTurn ensures more[i].concludesTurn {}
  }

  lemma ConcludesSplits(before: seq<ToolOutcome>, ends: seq<ToolOutcome>, lo: nat, mid: nat, hi: nat)
    requires lo <= mid == |before| <= hi == |ends| && before <= ends
    ensures Concludes(ends, lo, hi) <==> Concludes(before, lo, mid) || Concludes(ends, mid, hi)
    ensures !Concludes(ends, hi, hi)
  {
  }

  lemma ConcludesOnlyBefore(ends: seq<ToolOutcome>, lo: nat, cut: nat)
    requires lo <= cut <= |ends| && forall i :: cut <= i < |ends| ==> ends[i] == ABORTED
    ensures Concludes(ends, lo, cut) <==> Concludes(ends[..cut], lo, cut)
    ensures Concludes(ends, lo, cut) <==> Concludes(ends, lo, |ends|)
  {
  }

  // ----- What the schedule must obey -----

  datatype Action =
    | Start(call: nat, mode: Mode)
    | Dispatch(call: nat)
    | Settle(call: nat)
    | Commit(call: nat)
    | Lose(call: nat)
    | Drain(call: nat)
    | Skip(call: nat)

  /** What an observer of the schedule knows: calls started, calls committed, the
      dispatches in flight, the results that arrived, whether an exclusive call is
      between start and commit, and whether a dispatch failed. */
  datatype Pool = Pool(started: nat, committed: nat, flight: set<nat>, arrived: set<nat>, barrier: bool, failed: bool)

  ghost predicate Enabled(p: Pool, a: Action, total: nat, maxParallel: nat) {
    && (p.failed ==> a.Drain?)
    && match a
       case Start(i, mode) =>
         && i == p.started < total
         && !p.barrier
         && |p.flight| < maxParallel
         && (mode.Exclusive? ==> p.committed == p.started)
       case Dispatch(i) => i + 1 == p.started && i !in p.arrived && i !in p.flight && i >= p.committed && |p.flight| < maxParallel
       case Settle(i) => i !in p.arrived && p.committed <= i && (i in p.flight || i + 1 == p.started)
       case Commit(i) => i == p.committed < p.started && i in p.arrived
       case Lose(i) => i in p.flight
       case Drain(i) => p.failed && i in p.flight
       case Skip(i) => i == p.started == p.committed < total
  }

  ghost function Next(p: Pool, a: Action): Pool {
    match a
    case Start(i, mode) => p.(started := i + 1, barrier := mode.Exclusive?)
    case Dispatch(i) => p.(flight := p.flight + {i})
    case Settle(i) => p.(flight := p.flight - {i}, arrived := p.arrived + {i})
    case Commit(i) => p.(committed := i + 1, barrier := p.barrier && i + 1 < p.started)
    case Lose(i) => p.(flight := p.flight - {i}, failed := true)
    case Drain(i) => p.(flight := p.flight - {i})
    case Skip(i) => p.(started := i + 1, committed := i + 1)
  }

  ghost function Observe(trace: seq<Action>): Pool {
    if trace == [] then Pool(0, 0, {}, {}, false, false)
    else Next(Observe(trace[..|trace| - 1]), trace[|trace| - 1])
  }

  /** Every action of the schedule was allowed when it happened. */
  ghost predicate Safe(trace: seq<Action>, total: nat, maxParallel: nat) {
    trace == [] ||
    var before := trace[..|trace| - 1];
    Safe(before, total, maxParallel) && Enabled(Observe(before), trace[|trace| - 1], total, maxParallel)
  }

  lemma ExtendTrace(trace: seq<Action>, a: Action, total: nat, maxParallel: nat)
    requires Safe(trace, total, maxParallel) && Enabled(Observe(trace), a, total, maxParallel)
    ensures Safe(trace + [a], total, maxParallel)
    ensures Observe(trace + [a]) == Next(Observe(trace), a)
  {
    assert (trace + [a])[..|trace|] == trace;
  }

  lemma {:induction false} SafePrefix(trace: seq<Action>, k: nat, total: nat, maxParallel: nat)
    requires Safe(trace, total, maxParallel) && k <= |trace|
    ensures Safe(trace[..k], total, maxParallel)
  {
    if k < |trace| {
      SafePrefix(trace[..|trace| - 1], k, total, maxParallel);
      assert trace[..|trace| - 1][..k] == trace[..k];
    } else {
      assert trace[..k] == trace;
    }
  }

  /** What every safe schedule keeps: a bounded pool, in-flight calls between the last
      commit and the last start, and a started exclusive call that is not yet committed
      as the only uncommitted call. */
  ghost predicate PoolInvariant(p: Pool, total: nat, maxParallel: nat) {
    && |p.flight| <= maxParallel
    && p.committed <= p.started <= total
    && (forall i :: i in p.flight ==> p.committed <= i < p.started)
    && (forall i :: i in p.arrived ==> i < p.started && i !in p.flight)
    && (p.barrier ==> p.started == p.committed + 1)
  }

  lemma NextKeepsPool(p: Pool, a: Action, total: nat, maxParallel: nat)
    requires PoolInvariant(p, total, maxParallel) && Enabled(p, a, total, maxParallel)
    ensures PoolInvariant(Next(p, a), total, maxParallel)
  {
    if a.Settle? || a.Lose? || a.Drain? {
      assert |p.flight - {a.call}| <= |p.flight|;
    }
  }

  lemma {:induction false} SafeKeepsPool(trace: seq<Action>, total: nat, maxParallel: nat)
    requires Safe(trace, total, maxParallel)
    ensures PoolInvariant(Observe(trace), total, maxParallel)
  {
    if trace != [] {
      hide PoolInvariant, Next, Enabled;
      var before := trace[..|trace| - 1];
      SafeKeepsPool(before, total, maxParallel);
      NextKeepsPool(Observe(before), trace[|trace| - 1], total, maxParallel);
    }
  }

  lemma {:induction false} ExclusiveRaisesBarrier(trace: seq<Action>, i: nat, total: nat, maxParallel: nat)
    requires Safe(trace, total, maxParallel) && Start(i, Exclusive) in trace
    ensures Observe(trace).committed <= i ==> Observe(trace).barrier && Observe(trace).started == i + 1
    ensures i < Observe(trace).started
  {
    var before, a := trace[..|trace| - 1], trace[|trace| - 1];
    SafeKeepsPool(before, total, maxParallel);
    if a != Start(i, Exclusive) {
      assert trace == before + [a];
      ExclusiveRaisesBarrier(before, i, total, maxParallel);
    }
  }

  /** At every instant k of a safe schedule: the pool is bounded, and an exclusive call in
      flight runs alone with every earlier call already committed. */
  lemma EveryInstantIsSafe(trace: seq<Action>, k: nat, total: nat, maxParallel: nat)
    requires Safe(trace, total, maxParallel) && k <= |trace|
    ensures var p := Observe(trace[..k]);
            && PoolInvariant(p, total, maxParallel)
            && (forall i :: i in p.flight && Start(i, Exclusive) in trace[..k] ==>
                  p.flight == {i} && p.committed == i && p.started == i + 1)
  {
    SafePrefix(trace, k, total, maxParallel);
    var now := trace[..k];
    SafeKeepsPool(now, total, maxParallel);
    var p := Observe(now);
    forall i | i in p.flight && Start(i, Exclusive) in now
      ensures p.flight == {i} && p.committed == i && p.started == i + 1
    {
      ExclusiveRaisesBarrier(now, i, total, maxParallel);
      assert forall j :: j in p.flight ==> j == i;
    }
  }

  /** After a lost dispatch nothing starts, settles or commits: only drains follow. */
  lemma {:induction false} OnlyDrainsFollowALoss(trace: seq<Action>, j: nat, k: nat, total: nat, maxParallel: nat)
    requires Safe(trace, total, maxParallel) && j < k < |trace| && trace[j].Lose?
    ensures trace[k].Drain? && Observe(trace).failed
    decreases |trace|
  {
    var before := trace[..|trace| - 1];
    if k == |trace| - 1 {
      LossIsRemembered(before, j, total, maxParallel);
    } else {
      OnlyDrainsFollowALoss(before, j, k, total, maxParallel);
    }
  }

  lemma {:induction false} LossIsRemembered(trace: seq<Action>, j: nat, total: nat, maxParallel: nat)
    requires Safe(trace, total, maxParallel) && j < |trace| && trace[j].Lose?
    ensures Observe(trace).failed
  {
    if j < |trace| - 1 {
      LossIsRemembered(trace[..|trace| - 1], j, total, maxParallel);
    }
  }

  /** Every call was started in the mode the registry last gave for it. */
  ghost predicate Obeyed(trace: seq<Action>, asked: map<nat, Mode>) {
    forall k :: 0 <= k < |trace| && trace[k].Start? ==> trace[k].call in asked && asked[trace[k].call] == trace[k].mode
  }

  lemma ObeyedMore(trace: seq<Action>, a: Action, asked: map<nat, Mode>)
    requires Obeyed(trace, asked) && (a.Start? ==> a.call in asked && asked[a.call] == a.mode)
    ensures Obeyed(trace + [a], asked)
  {
  }

  lemma ObeyedBegin(trace: seq<Action>, i: nat, mode: Mode, asked: map<nat, Mode>)
    requires Obeyed(trace, asked) && i in asked && asked[i] == mode
    ensures Obeyed(trace + [Start(i, mode)] + [Dispatch(i)], asked) && Obeyed(trace + [Start(i, mode)] + [Settle(i)], asked)
  {
    hide Obeyed;
    ObeyedMore(trace, Start(i, mode), asked);
    ObeyedMore(trace + [Start(i, mode)], Dispatch(i), asked);
    ObeyedMore(trace + [Start(i, mode)], Settle(i), asked);
  }

  lemma StartedGrows(p: Pool, a: Action, total: nat, maxParallel: nat)
    requires Enabled(p, a, total, maxParallel)
    ensures p.started <= Next(p, a).started && (a.Start? ==> a.call < Next(p, a).started)
  {
  }

  lemma {:induction false} StartsAreBelow(trace: seq<Action>, k: nat, total: nat, maxParallel: nat)
    requires Safe(trace, total, maxParallel) && k < |trace| && trace[k].Start?
    ensures trace[k].call < Observe(trace).started
  {
    var before, last := trace[..|trace| - 1], trace[|trace| - 1];
    assert Safe(before, total, maxParallel) && Observe(trace) == Next(Observe(before), last) && Enabled(Observe(before), last, total, maxParallel);
    hide Enabled, Next, Safe, Observe;
    StartedGrows(Observe(before), last, total, maxParallel);
    if k < |before| { StartsAreBelow(before, k, total, maxParallel); }
  }

  /** An answer about a call that was not started yet changes nothing for the others. */
  lemma AnswerKeepsObeyed(trace: seq<Action>, asked: map<nat, Mode>, i: nat, mode: Mode, total: nat, maxParallel: nat)
    requires Safe(trace, total, maxParallel) && Observe(trace).started <= i && Obeyed(trace, asked)
    ensures Obeyed(trace, asked[i := mode])
  {
    hide Safe, Observe;
    forall k | 0 <= k < |trace| && trace[k].Start? ensures trace[k].call != i { StartsAreBelow(trace, k, total, maxParallel); }
  }

  // ----- The scheduler's own state -----

  /** The mutable part of the scheduler as one value.  `ends` and `sources` are the outcomes
      and call seqs logged so far, `trace` the schedule so far. */
  datatype Progress = Progress(
    slots: seq<Slot>, callSeqs: seq<int>, committed: nat, started: nat, running: set<nat>,
    accepted: seq<Message>, ends: seq<ToolOutcome>, sources: seq<nat>, trace: seq<Action>)

  /** The registry's answer to preparing a call. */
  datatype Prepared = PreparePanics | Dispatches | Stages(raw: ToolOutcome, needsPost: bool)

  /** The environment's answers, one for each moment the scheduler asks: the registry's mode (None when
      it panics), whether the signal is cancelled by then, whether the session refuses the call, and
      how the call is prepared. */
  datatype World = World(mode: nat -> Option<Mode>, cancel: nat -> bool, refuse: nat -> bool, prepared: nat -> Prepared)

  /** From this moment on a call is dispatched, the next one is still parallel, and its append is refused. */
  predicate Forsakes(w: World, now: nat) {
    && !w.refuse(now) && w.prepared(now).Dispatches? && !w.cancel(now + 1)
    && w.mode(now + 2) == Some(Parallel) && w.refuse(now + 3)
  }

  datatype Setup = Setup(plan: Plan, maxParallel: nat, runtime: Runtime)

  ghost predicate Indexed(c: Setup, v: Progress) {
    && |v.slots| == |v.callSeqs| == |c.plan.calls|
    && v.committed <= v.started <= |c.plan.calls|
    && |v.sources| == v.started && |v.ends| == v.committed
    && (forall i :: v.started <= i < |v.slots| ==> v.slots[i].Unsettled?)
    && (forall i :: 0 <= i < v.started ==> v.callSeqs[i] == v.sources[i])
    && (forall i :: 0 <= i < v.committed ==> v.slots[i].Settled? && v.ends[i] == Finalized(c.runtime, c.plan.calls[i], v.slots[i]))
    && v.accepted == Contexts(v.ends)
  }

  ghost predicate Traced(c: Setup, v: Progress) {
    && Safe(v.trace, |c.plan.calls|, c.maxParallel)
    && var p := Observe(v.trace);
       && p.started == v.started <= |v.slots| && p.committed == v.committed && p.flight == v.running && !p.failed
       && (forall i :: i in p.arrived <==> 0 <= i < v.started && v.slots[i].Settled?)
       && (forall i :: i in p.flight <==> 0 <= i < v.started && v.slots[i].Unsettled?)
  }

  ghost predicate Inv(c: Setup, v: Progress) {
    Indexed(c, v) && Traced(c, v)
  }

  /** Committing the next settled call. */
  ghost function Committed(c: Setup, v: Progress): Progress
    requires v.committed < |v.slots| == |c.plan.calls| && v.slots[v.committed].Settled?
  {
    var result := Finalized(c.runtime, c.plan.calls[v.committed], v.slots[v.committed]);
    v.(committed := v.committed + 1, accepted := v.accepted + result.contexts,
       ends := v.ends + [result], trace := v.trace + [Commit(v.committed)])
  }

  lemma CommitKeepsInv(c: Setup, v: Progress)
    requires Inv(c, v) && v.committed < v.started && v.slots[v.committed].Settled?
    ensures var v' := Committed(c, v);
            Inv(c, v') && (!Observe(v.trace).barrier ==> !Observe(v'.trace).barrier) && Safe(v'.trace, |c.plan.calls|, c.maxParallel)
    ensures v.callSeqs[v.committed] == v.sources[v.committed]
  {
    hide Finalized, Safe, Observe, Contexts;
    ContextsOfOneMore(v.ends, Finalized(c.runtime, c.plan.calls[v.committed], v.slots[v.committed]));
    ExtendTrace(v.trace, Commit(v.committed), |c.plan.calls|, c.maxParallel);
  }

  /** Starting the next call: its seq is recorded and a dispatch goes in flight (`staged` is
      Unsettled) or a staged result settles its slot at once. */
  ghost function Begun(v: Progress, mode: Mode, callSeq: nat, staged: Slot): Progress
    requires v.started < |v.slots| == |v.callSeqs|
  {
    var i := v.started;
    v.(slots := v.slots[i := staged], callSeqs := v.callSeqs[i := callSeq], started := i + 1,
       running := if staged.Unsettled? then v.running + {i} else v.running,
       sources := v.sources + [callSeq],
       trace := v.trace + [Start(i, mode)] + [if staged.Unsettled? then Dispatch(i) else Settle(i)])
  }

  lemma BeginKeepsIndexed(c: Setup, v: Progress, mode: Mode, callSeq: nat, staged: Slot)
    requires Indexed(c, v) && v.started < |v.slots|
    ensures Indexed(c, Begun(v, mode, callSeq, staged))
  {
    hide Finalized, Contexts;
  }

  lemma BeginExtendsTrace(trace: seq<Action>, i: nat, mode: Mode, dispatched: bool, total: nat, maxParallel: nat)
    requires Safe(trace, total, maxParallel) && !Observe(trace).failed && !Observe(trace).barrier
    requires Observe(trace).committed <= Observe(trace).started == i < total && |Observe(trace).flight| < maxParallel
    requires mode.Exclusive? ==> Observe(trace).committed == i
    requires i !in Observe(trace).flight && i !in Observe(trace).arrived
    ensures var trace' := trace + [Start(i, mode)] + [if dispatched then Dispatch(i) else Settle(i)];
            var p := Observe(trace);
            && Safe(trace', total, maxParallel)
            && Observe(trace') == p.(started := i + 1, barrier := mode.Exclusive?,
                                     flight := if dispatched then p.flight + {i} else p.flight,
                                     arrived := if dispatched then p.arrived else p.arrived + {i})
  {
    hide Safe, Observe;
    ExtendTrace(trace, Start(i, mode), total, maxParallel);
    ExtendTrace(trace + [Start(i, mode)], if dispatched then Dispatch(i) else Settle(i), total, maxParallel);
    assert Observe(trace).flight - {i} == Observe(trace).flight;
  }

  lemma BeginKeepsTraced(c: Setup, v: Progress, mode: Mode, callSeq: nat, staged: Slot)
    requires Traced(c, v) && v.started < |v.slots| == |v.callSeqs| == |c.plan.calls|
    requires v.committed <= v.started
    requires |v.running| < c.maxParallel && !Observe(v.trace).barrier && (mode.Exclusive? ==> v.committed == v.started)
    ensures var v' := Begun(v, mode, callSeq, staged);
            Traced(c, v') && Observe(v'.trace).barrier == mode.Exclusive?
  {
    hide Safe, Observe;
    BeginExtendsTrace(v.trace, v.started, mode, staged.Unsettled?, |c.plan.calls|, c.maxParallel);
  }

  lemma BeginKeepsInv(c: Setup, v: Progress, mode: Mode, callSeq: nat, staged: Slot)
    requires Inv(c, v) && v.started < |v.slots|
    requires |v.running| < c.maxParallel && !Observe(v.trace).barrier && (mode.Exclusive? ==> v.committed == v.started)
    ensures var v' := Begun(v, mode, callSeq, staged);
            Inv(c, v') && Observe(v'.trace).barrier == mode.Exclusive? && Safe(v'.trace, |c.plan.calls|, c.maxParallel)
  {
    BeginKeepsIndexed(c, v, mode, callSeq, staged);
    BeginKeepsTraced(c, v, mode, callSeq, staged);
  }

  lemma NextCallIsNew(c: Setup, v: Progress)
    requires Inv(c, v)
    ensures |v.slots| == |v.callSeqs| == |c.plan.calls| && |v.sources| == v.started
    ensures v.started !in v.running && (v.started < |v.slots| ==> v.slots[v.started].Unsettled?)
  {
    hide Safe, Observe, Contexts, Finalized;
  }

  lemma DrainedMeansCommitted(c: Setup, v: Progress)
    requires Inv(c, v) && v.running == {} && (v.committed < v.started ==> v.slots[v.committed].Unsettled?)
    ensures v.committed == v.started && !Observe(v.trace).barrier
  {
    hide Observe, Contexts, Finalized;
    SafeKeepsPool(v.trace, |c.plan.calls|, c.maxParallel);
    assert v.committed < v.started ==> v.committed in Observe(v.trace).flight;
  }

  /** The observer's view while skipped calls are logged: nothing in flight, nothing failed. */
  ghost predicate Quiet(c: Setup, trace: seq<Action>, upTo: nat) {
    && Safe(trace, |c.plan.calls|, c.maxParallel)
    && var p := Observe(trace);
       p.started == p.committed == upTo && p.flight == {} && !p.failed
  }

  lemma SkipKeepsQuiet(c: Setup, trace: seq<Action>, i: nat)
    requires Quiet(c, trace, i) && i < |c.plan.calls|
    ensures Quiet(c, trace + [Skip(i)], i + 1) && Safe(trace + [Skip(i)], |c.plan.calls|, c.maxParallel)
  {
    ExtendTrace(trace, Skip(i), |c.plan.calls|, c.maxParallel);
  }

  /** The observer's view after a lost dispatch, with as many calls and results as are logged. */
  ghost predicate Lost(c: Setup, trace: seq<Action>, running: set<nat>, calls: nat, results: nat) {
    && Safe(trace, |c.plan.calls|, c.maxParallel)
    && var p := Observe(trace);
       p.failed && p.flight == running && p.started == calls && p.committed == results
  }

  lemma LostIsSafe(c: Setup, trace: seq<Action>, running: set<nat>, calls: nat, results: nat)
    requires Lost(c, trace, running, calls, results)
    ensures Safe(trace, |c.plan.calls|, c.maxParallel)
    ensures Observe(trace).failed && Observe(trace).started == calls && Observe(trace).committed == results
  {
    hide Safe, Observe;
  }

  // ----- What a panic leaves behind -----

  /** No two calls can be in flight together. */
  ghost predicate Solo(c: Setup) {
    c.maxParallel == 1 || |c.plan.calls| <= 1
  }

  /** A panic drains nothing: the calls in flight are abandoned as they are.  There are none when
      no two calls can be in flight together. */
  ghost predicate Adrift(c: Setup, trace: seq<Action>, running: set<nat>) {
    Observe(trace).flight == running && !Observe(trace).failed && (Solo(c) ==> running == {})
  }

  lemma InvIsAdrift(c: Setup, v: Progress)
    requires Inv(c, v) && (Solo(c) ==> v.running == {})
    ensures Adrift(c, v.trace, v.running)
  {
    hide Observe, Safe, Contexts, Finalized;
  }

  lemma QuietIsAdrift(c: Setup, trace: seq<Action>, upTo: nat)
    requires Quiet(c, trace, upTo)
    ensures Adrift(c, trace, {})
  {
    hide Observe, Safe;
  }

  lemma SoloPool(c: Setup, v: Progress)
    requires Inv(c, v) && Solo(c)
    ensures |v.running| <= 1
  {
    hide Observe, Contexts, Finalized;
    SafeKeepsPool(v.trace, |c.plan.calls|, c.maxParallel);
    if |c.plan.calls| <= 1 && v.running != {} {
      assert forall i :: i in v.running ==> i == 0;
      assert v.running == {0};
    }
  }

  /** When no two calls can be in flight together, a call starts only with all others committed. */
  lemma RoomMeansCommitted(c: Setup, v: Progress)
    requires Inv(c, v) && Solo(c) && |v.running| < c.maxParallel && v.started < |v.slots|
    requires v.committed < v.started ==> v.slots[v.committed].Unsettled?
    ensures v.running == {} && v.committed == v.started
  {
    hide Observe, Contexts, Finalized;
    SafeKeepsPool(v.trace, |c.plan.calls|, c.maxParallel);
    if c.maxParallel == 1 {
      DrainedMeansCommitted(c, v);
    } else {
      assert forall i :: i in v.running ==> i < v.started;
    }
  }

  lemma AdriftAlone(failure: Option<Failure>, c: Setup, trace: seq<Action>, running: set<nat>)
    requires failure == Some(Panicked) ==> Adrift(c, trace, running)
    ensures failure == Some(Panicked) && Solo(c) ==> running == {}
  {
  }

  lemma LossIsLogged(failure: Option<Failure>, c: Setup, trace: seq<Action>, running: set<nat>, calls: nat, results: nat)
    requires failure == Some(DispatchFailed) ==> Lost(c, trace, running, calls, results)
    ensures failure == Some(DispatchFailed) ==>
      Observe(trace).failed && Observe(trace).started == calls && Observe(trace).committed == results
  {
  }

  lemma LoseLeavesLost(c: Setup, v: Progress, i: nat)
    requires Inv(c, v) && i in v.running
    ensures Lost(c, v.trace + [Lose(i)], v.running - {i}, |v.sources|, |v.ends|)
    ensures i < |v.slots| && forall j :: j in v.running ==> j < |v.slots|
  {
    hide Contexts, Finalized;
    SafeKeepsPool(v.trace, |c.plan.calls|, c.maxParallel);
    ExtendTrace(v.trace, Lose(i), |c.plan.calls|, c.maxParallel);
  }

  lemma DrainKeepsLost(c: Setup, trace: seq<Action>, running: set<nat>, calls: nat, results: nat, i: nat)
    requires Lost(c, trace, running, calls, results) && i in running
    ensures Lost(c, trace + [Drain(i)], running - {i}, calls, results)
  {
    ExtendTrace(trace, Drain(i), |c.plan.calls|, c.maxParallel);
  }

  lemma InvBounds(c: Setup, v: Progress)
    requires Inv(c, v)
    ensures v.committed <= v.started <= |v.slots| == |c.plan.calls| && |v.ends| == v.committed && |v.sources| == v.started
    ensures v.accepted == Contexts(v.ends)
    ensures v.committed == v.started && v.running == {} ==> Quiet(c, v.trace, v.started)
    ensures forall i :: 0 <= i < v.committed ==> v.slots[i].Settled?
    ensures forall i :: 0 <= i < v.committed ==>
      v.ends[i] == if v.slots[i].needsPost then c.runtime.finalize(c.plan.calls[i], v.slots[i].raw)
                   else c.runtime.finish(c.plan.calls[i], v.slots[i].raw)
  {
    hide Safe, Observe, Contexts;
  }

  lemma {:induction false} SkippedAddNoContexts(ends: seq<ToolOutcome>, cut: nat)
    requires cut <= |ends| && forall i :: cut <= i < |ends| ==> ends[i] == ABORTED
    ensures Contexts(ends) == Contexts(ends[..cut])
  {
    if cut < |ends| {
      SkippedAddNoContexts(ends[..|ends| - 1], cut);
      assert ends[..|ends| - 1][..cut] == ends[..cut];
    } else {
      assert ends[..cut] == ends;
    }
  }

  lemma SettledMeansStarted(c: Setup, v: Progress)
    requires Inv(c, v) && v.committed < |v.slots| && v.slots[v.committed].Settled?
    ensures v.committed < v.started
  {
  }

  lemma BusyMeansStarted(c: Setup, v: Progress)
    requires Inv(c, v) && v.running != {}
    ensures v.started > v.committed
  {
    hide Observe, Contexts, Finalized;
    SafeKeepsPool(v.trace, |c.plan.calls|, c.maxParallel);
  }

  lemma EmptyTraceIsQuiet(c: Setup, v: Progress)
    requires Inv(c, v) && v.trace == []
    ensures v.committed == v.started == 0 && v.running == {}
  {
  }

  lemma SettleKeepsInv(c: Setup, v: Progress, i: nat, slot: Slot)
    requires Inv(c, v) && i in v.running && slot.Settled?
    ensures i < |v.slots|
    ensures var v' := v.(slots := v.slots[i := slot], running := v.running - {i}, trace := v.trace + [Settle(i)]);
            Inv(c, v') && Observe(v'.trace).barrier == Observe(v.trace).barrier && Safe(v'.trace, |c.plan.calls|, c.maxParallel)
  {
    hide Finalized, Safe, Observe, Contexts;
    SafeKeepsPool(v.trace, |c.plan.calls|, c.maxParallel);
    ExtendTrace(v.trace, Settle(i), |c.plan.calls|, c.maxParallel);
  }

  // ----- The scheduler -----

  class CallLog {
    var log: Log

    constructor (log: Log)
      ensures this.log == log
    {
      this.log := log;
    }

    /** Other components may append events that are not tool calls or results. */
    method Interfere() returns (more: Log)
      modifies this
      ensures log == old(log) + more && forall i :: 0 <= i < |more| ==> !IsToolEvent(more[i])
    {
      more := *;
      if !forall i :: 0 <= i < |more| ==> !IsToolEvent(more[i]) {
        more := [];
      }
      log := log + more;
    }

    /** A refused append leaves the log alone and panics in the scheduler's callers. */
    method Append(e: Event, refuse: bool) returns (panicked: bool, seqNo: nat)
      modifies this
      ensures panicked == refuse
      ensures panicked ==> log == old(log)
      ensures !panicked ==> log == old(log) + [e] && seqNo == |old(log)|
    {
      panicked := refuse;
      seqNo := |log|;
      if !panicked {
        log := log + [e];
      }
    }
  }

  class ToolScheduler {
    const setup: Setup
    const session: CallLog
    const signal: Signal
    const world: World
    ghost const base: nat

    var slots: seq<Slot>
    var callSeqs: seq<int>
    var nextToStart: nat
    var committed: nat
    var started: nat
    var inFlight: int
    var aborted: bool
    var concluded: bool
    // The dispatch goroutines that have not settled yet, and the contexts handed to the driver.
    var running: set<nat>
    var accepted: seq<Message>
    // The position of the current group's first call, and how often the environment was asked.
    var group: nat
    var clock: nat

    ghost var ends: seq<ToolOutcome>
    ghost var sources: seq<nat>
    ghost var trace: seq<Action>
    // The tool runtime, the registry, the driver or the session panicked.
    ghost var mishap: bool
    // The registry's last answer about each call.
    ghost var asked: map<nat, Mode>
    // The outcomes of the earlier groups.
    ghost var prior: seq<ToolOutcome>

    ghost predicate Logged()
      reads this`sources, this`ends, session
    {
      Journal(session.log, base, setup.plan, sources, ends)
    }

    ghost predicate Scheduled()
      reads this`trace, this`asked
    {
      Safe(trace, |setup.plan.calls|, setup.maxParallel) && Obeyed(trace, asked)
    }

    /** The registry's last answer about the next call. */
    ghost predicate Answered(mode: Mode)
      reads this`asked, this`started
    {
      started in asked && asked[started] == mode
    }

    ghost function View(): Progress
      reads this
    {
      Progress(slots, callSeqs, committed, started, running, accepted, ends, sources, trace)
    }

    ghost predicate Bounded()
      reads this, signal
    {
      && nextToStart == started && inFlight == |running|
      && prior <= ends && |prior| == group
      && |ends| == committed <= started == |sources| <= |slots| == |callSeqs| == |setup.plan.calls|
      && (concluded <==> Concludes(ends, group, committed))
      && (aborted ==> signal.cancelled)
    }

    ghost predicate Valid()
      reads this, session, signal
    {
      Inv(setup, View()) && Bounded() && Logged() && Scheduled()
    }

    /** No settled result is waiting for its commit. */
    ghost predicate Flushed()
      reads this
    {
      committed < started <= |slots| ==> slots[committed].Unsettled?
    }

    constructor (setup: Setup, session: CallLog, signal: Signal, world: World)
      ensures this.setup == setup && this.session == session && this.signal == signal && this.world == world && base == |session.log|
      ensures Valid() && started == clock == 0 && trace == [] && !mishap
    {
      this.world, clock := world, 0;
      this.setup := setup;
      this.session := session;
      this.signal := signal;
      base := |session.log|;
      slots := seq(|setup.plan.calls|, i => Unsettled);
      callSeqs := seq(|setup.plan.calls|, i => -1);
      nextToStart, committed, started, inFlight := 0, 0, 0, 0;
      aborted, concluded, running, accepted := false, false, {}, [];
      ends, sources, trace, asked, mishap, group, prior := [], [], [], map[], false, 0, [];
    }

    method Interfere()
      requires Logged()
      modifies session
      ensures Logged()
    {
      var more := session.Interfere();
      JournalOther(old(session.log), more, base, setup.plan, sources, ends);
    }

    /** Something outside may panic at any moment it is called. */
    method Outside() returns (panicked: bool)
      modifies this`mishap
      ensures mishap == (old(mishap) || panicked)
    {
      panicked := *;
      mishap := mishap || panicked;
    }

    /** Hands a committed result's contexts to the driver, which may refuse one. */
    method AcceptContexts(contexts: seq<Message>) returns (panicked: bool)
      requires Logged()
      modifies this`accepted, this`mishap, session
      ensures Logged() && (panicked ==> mishap)
      ensures !panicked ==> accepted == old(accepted) + contexts
    {
      hide Journal;
      var i := 0;
      while i < |contexts|
        invariant 0 <= i <= |contexts|
        invariant Logged()
        invariant accepted == old(accepted) + contexts[..i]
      {
        panicked := Outside();
        if panicked { return; }
        Interfere();
        accepted := accepted + [contexts[i]];
        assert contexts[..i + 1] == contexts[..i] + [contexts[i]];
        i := i + 1;
      }
      assert contexts[..i] == contexts;
      panicked := false;
    }

    method AppendToolCall(block: Block, refuse: bool) returns (panicked: bool, callSeq: nat)
      requires Logged() && |sources| < |setup.plan.calls| && block == setup.plan.calls[|sources|]
      modifies this`sources, session
      ensures Logged()
      ensures panicked == refuse && sources == if panicked then old(sources) else old(sources) + [callSeq]
    {
      JournalCall(session.log, base, setup.plan, sources, ends);
      panicked, callSeq := session.Append(ToolCall(setup.plan.turn, setup.plan.step, block.id), refuse);
      if !panicked { sources := sources + [callSeq]; }
    }

    method AppendToolResult(block: Block, outcome: ToolOutcome, callSeq: nat) returns (panicked: bool)
      requires Logged() && |ends| < |sources| <= |setup.plan.calls|
      requires block == setup.plan.calls[|ends|] && callSeq == sources[|ends|]
      modifies this`ends, this`mishap, session
      ensures Logged() && (panicked ==> mishap)
      ensures ends == if panicked then old(ends) else old(ends) + [outcome]
    {
      JournalResult(session.log, base, setup.plan, sources, ends, outcome);
      var refuse := Outside();
      var seqNo;
      panicked, seqNo := session.Append(
        ToolResult(setup.plan.turn, setup.plan.step, block.id, outcome, AppendOp, [callSeq]), refuse);
      if !panicked { ends := ends + [outcome]; }
    }

    /** The durable call/result pair of a call skipped after cancellation. */
    method AppendSkippedToolCall(block: Block) returns (panicked: bool)
      requires Logged() && |ends| == |sources| < |setup.plan.calls| && block == setup.plan.calls[|sources|]
      modifies this`sources, this`ends, this`mishap, session
      ensures Logged() && (panicked ==> mishap)
      ensures !panicked ==> |sources| == |old(sources)| + 1 && ends == old(ends) + [ABORTED] && Synthetic(ABORTED)
    {
      hide Journal;
      var refuse := Outside();
      var callSeq;
      panicked, callSeq := AppendToolCall(block, refuse);
      if panicked { return; }
      Interfere();
      panicked := AppendToolResult(block, ABORTED, callSeq);
    }

    /** Finalizes, logs and hands over the contexts of one settled result. */
    method LogResult(call: Block, slot: Slot, callSeq: nat) returns (panicked: bool, result: ToolOutcome)
      requires Logged() && |ends| < |sources| <= |setup.plan.calls| && slot.Settled?
      requires call == setup.plan.calls[|ends|] && callSeq == sources[|ends|]
      modifies this`ends, this`accepted, this`mishap, session
      ensures Logged() && (panicked ==> mishap)
      // A raw result goes through every post-execute stage, a final one only through the last.
      ensures slot.needsPost ==> result == setup.runtime.finalize(call, slot.raw)
      ensures !slot.needsPost ==> result == setup.runtime.finish(call, slot.raw)
      ensures !panicked ==> ends == old(ends) + [result] && accepted == old(accepted) + result.contexts
    {
      hide Journal;
      panicked := Outside();
      result := Finalized(setup.runtime, call, slot);
      if panicked { return; }
      panicked := AppendToolResult(call, result, callSeq);
      if panicked { return; }
      panicked := AcceptContexts(result.contexts);
    }

    /** Commits the settled result that is next in model order. */
    method CommitOne() returns (panicked: bool)
      requires Valid() && committed < started && slots[committed].Settled? && (Solo(setup) ==> running == {})
      modifies this`committed, this`accepted, this`concluded, this`ends, this`trace, this`mishap, session
      ensures Logged() && Scheduled() && (panicked ==> mishap && Adrift(setup, trace, running))
      ensures !panicked ==> Valid() && committed == old(committed) + 1
      ensures !panicked && !Observe(old(trace)).barrier ==> !Observe(trace).barrier
    {
      hide Obeyed, Journal, Safe, Observe, Inv, Concludes, Adrift, Solo, Contexts;
      ghost var before := View();
      InvIsAdrift(setup, before);
      CommitKeepsInv(setup, before);
      ObeyedMore(trace, Commit(committed), asked);
      var result;
      panicked, result := LogResult(setup.plan.calls[committed], slots[committed], callSeqs[committed]);
      if panicked { return; }
      ConcludesOneMore(before.ends, result, group);
      MarkCommitted(result, before);
    }

    method MarkCommitted(result: ToolOutcome, ghost before: Progress)
      requires before.committed < |before.slots| == |setup.plan.calls| && before.slots[before.committed].Settled?
      requires result == Finalized(setup.runtime, setup.plan.calls[before.committed], before.slots[before.committed])
      requires View() == before.(ends := before.ends + [result], accepted := before.accepted + result.contexts)
      modifies this`committed, this`concluded, this`trace
      ensures View() == Committed(setup, before) && concluded == (old(concluded) || result.concludesTurn)
    {
      hide Finalized;
      concluded := concluded || result.concludesTurn;
      trace := trace + [Commit(committed)];
      committed := committed + 1;
    }

    /** The next result to commit has not arrived. */
    ghost predicate Waiting()
      reads this
    {
      committed < |slots| && slots[committed].Unsettled?
    }

    /** Commits every settled result that is next in model order. */
    method CommitReady(hi: nat) returns (panicked: bool)
      requires Valid() && started <= hi <= |slots| && (Solo(setup) ==> running == {} || Waiting())
      modifies this`committed, this`accepted, this`concluded, this`ends, this`trace, this`mishap, session
      ensures Logged() && Scheduled() && (panicked ==> mishap && Adrift(setup, trace, running))
      ensures old(Waiting()) ==> !panicked && trace == old(trace)
      ensures !panicked ==> Valid() && Flushed()
      ensures !panicked && !Observe(old(trace)).barrier ==> !Observe(trace).barrier
    {
      hide Obeyed, Journal, Safe, Observe, Inv, Concludes, Adrift;
      while committed < hi && slots[committed].Settled?
        invariant Valid() && (Solo(setup) ==> running == {} || Waiting())
        invariant old(Waiting()) ==> Waiting() && trace == old(trace)
        invariant !Observe(old(trace)).barrier ==> !Observe(trace).barrier
        decreases hi - committed
      {
        assert committed < started by { SettledMeansStarted(setup, View()); }
        panicked := CommitOne();
        if panicked { return; }
      }
      panicked := false;
    }

    /** Logs the next call and records its seq. */
    method LogCall(index: nat, refuse: bool) returns (panicked: bool, callSeq: nat)
      requires Logged() && Bounded() && index == started < |setup.plan.calls|
      modifies this`callSeqs, this`started, this`sources, session
      ensures Logged() && panicked == refuse
      ensures panicked ==> View() == old(View())
      ensures !panicked ==>
        View() == old(View()).(callSeqs := old(callSeqs)[index := callSeq], started := index + 1, sources := old(sources) + [callSeq])
    {
      hide Obeyed, Journal, Concludes;
      Interfere();
      panicked, callSeq := AppendToolCall(setup.plan.calls[index], refuse);
      if panicked { return; }
      callSeqs := callSeqs[index := callSeq];
      started := started + 1;
      Interfere();
    }

    /** Logs one call and prepares it: either a dispatch goes in flight or a staged result
        settles its slot at once.  `refuse` and `prepared` are the session's and the registry's answers. */
    method StartCall(index: nat, mode: Mode, refuse: bool, prepared: Prepared) returns (panicked: bool)
      requires Valid() && index == nextToStart < |slots|
      requires |running| < setup.maxParallel && !Observe(trace).barrier && (mode.Exclusive? ==> committed == started)
      requires (Solo(setup) ==> running == {} && committed == started) && Answered(mode)
      modifies this`slots, this`callSeqs, this`nextToStart, this`started, this`inFlight, this`running, this`sources, this`trace, this`mishap, session
      ensures Logged() && Scheduled() && (panicked <==> refuse || prepared.PreparePanics?)
      ensures panicked ==> mishap && running == old(running) && Adrift(setup, trace, running)
      ensures !panicked ==> Valid() && started == index + 1 && |running| <= |old(running)| + 1 && |slots| == |old(slots)|
      ensures !panicked ==> Observe(trace).barrier == mode.Exclusive?
      ensures !panicked ==> running == (if prepared.Dispatches? then old(running) + {index} else old(running))
      ensures !panicked && prepared.Dispatches? ==> slots == old(slots) && slots[index].Unsettled?
      ensures !panicked && prepared.Stages? ==> slots == old(slots)[index := Settled(prepared.raw, prepared.needsPost)]
    {
      hide Obeyed, Journal, Safe, Observe, Inv, Concludes, Adrift, Solo;
      ghost var before := View();
      NextCallIsNew(setup, before);
      InvIsAdrift(setup, before);
      var callSeq;
      panicked, callSeq := LogCall(index, refuse);
      panicked := panicked || prepared.PreparePanics?;
      if panicked {
        mishap := true;
        return;
      }
      Prepare(index, mode, prepared, callSeq, before);
    }

    /** The prepared stage the tool runtime chose: a dispatch goroutine or a staged result. */
    method Prepare(index: nat, mode: Mode, prepared: Prepared, ghost callSeq: nat, ghost before: Progress)
      requires Inv(setup, before) && before.started == index == nextToStart < |slots| && |before.running| < setup.maxParallel
      requires !Observe(before.trace).barrier && (mode.Exclusive? ==> before.committed == before.started)
      requires |before.callSeqs| == |before.slots| == |slots| && before.slots[index].Unsettled? && index !in before.running
      requires View() == before.(callSeqs := before.callSeqs[index := callSeq], started := index + 1,
                                 sources := before.sources + [callSeq])
      requires inFlight == |running| && !prepared.PreparePanics?
      requires Obeyed(trace, asked) && index in asked && asked[index] == mode
      modifies this`slots, this`nextToStart, this`inFlight, this`running, this`trace
      ensures Inv(setup, View()) && Scheduled() && Observe(trace).barrier == mode.Exclusive?
      ensures inFlight == |running| <= |before.running| + 1 && nextToStart == index + 1 && |slots| == |old(slots)|
      ensures running == (if prepared.Dispatches? then before.running + {index} else before.running)
      ensures prepared.Dispatches? ==> slots == old(slots)
      ensures prepared.Stages? ==> slots == old(slots)[index := Settled(prepared.raw, prepared.needsPost)]
    {
      hide Obeyed, Observe, Inv, Safe;
      ObeyedBegin(trace, index, mode, asked);
      match prepared
      case Dispatches =>
        BeginKeepsInv(setup, before, mode, callSeq, Unsettled);
        inFlight := inFlight + 1;
        running := running + {index};
        trace := trace + [Start(index, mode)] + [Dispatch(index)];
        nextToStart := nextToStart + 1;
        assert View() == Begun(before, mode, callSeq, Unsettled);
      case Stages(raw, needsPost) =>
        BeginKeepsInv(setup, before, mode, callSeq, Settled(raw, needsPost));
        slots := slots[index := Settled(raw, needsPost)];
        trace := trace + [Start(index, mode)] + [Settle(index)];
        nextToStart := nextToStart + 1;
        assert View() == Begun(before, mode, callSeq, Settled(raw, needsPost));
    }

    /** Abort may arrive at any moment; once seen it stays. */
    method CheckSignal()
      requires Valid()
      modifies this`aborted, this`clock, signal
      ensures Valid() && clock == old(clock) + 1
      ensures signal.cancelled == (old(signal.cancelled) || world.cancel(old(clock))) && aborted == (old(aborted) || signal.cancelled)
    {
      hide Obeyed, Journal, Safe, Observe, Inv, Concludes;
      var err := signal.Poll(world.cancel(clock));
      clock := clock + 1;
      aborted := aborted || err;
    }

    /** The group's first call is next and the second one exists; nothing is in flight or cancelled. */
    ghost predicate Idle(hi: nat)
      reads this, signal
    {
      running == {} && committed == started == group && started + 2 <= hi && !aborted && !signal.cancelled
    }

    /** Starts calls in model order while the pool has room; a call that is no longer parallel
        is left as the caller's next barrier. */
    method FillPool(hi: nat, mode: Mode) returns (panicked: bool)
      requires Valid() && Flushed() && started <= hi <= |slots|
      requires mode.Parallel? ==> !Observe(trace).barrier
      requires mode.Exclusive? ==> hi == group + 1 && (started == group ==> !Observe(trace).barrier)
      requires started == group ==> Answered(mode)
      modifies this, session, signal
      ensures Logged() && Scheduled() && (panicked ==> mishap && Adrift(setup, trace, running))
      ensures !panicked ==> Valid() && Flushed() && old(started) <= started <= hi <= |slots| && group == old(group) && prior == old(prior)
      ensures !panicked ==> |running| - |old(running)| <= started - old(started)
      ensures !panicked && mode.Parallel? ==> !Observe(trace).barrier
      ensures !panicked ==> aborted || started == hi || inFlight >= setup.maxParallel || started > group
      // Nothing starts once an abort was noticed.
      ensures old(aborted) ==> !panicked && started == old(started) && aborted
      // Two calls fit, the first is dispatched and the second refused: the first is abandoned.
      ensures old(Idle(hi)) && mode.Parallel? && setup.maxParallel >= 2 && Forsakes(world, old(clock)) ==> panicked && running == {old(started)}
    {
      hide Obeyed, Journal, Safe, Observe, Inv, Concludes, Adrift, Forsakes;
      ghost var forsakes := Idle(hi) && mode.Parallel? && setup.maxParallel >= 2 && Forsakes(world, clock);
      var left := false;
      while !left && !aborted && nextToStart < hi && inFlight < setup.maxParallel
        invariant Valid() && Flushed() && old(started) <= started <= hi <= |slots| && group == old(group) && prior == old(prior)
        invariant |running| - |old(running)| <= started - old(started)
        invariant mode.Parallel? ==> !Observe(trace).barrier
        invariant mode.Exclusive? && started == group ==> !Observe(trace).barrier
        invariant left ==> started > group
        invariant started == group ==> Answered(mode)
        invariant old(aborted) ==> aborted && started == old(started)
        invariant forsakes ==> !left && if started == old(started) then Idle(hi) && clock == old(clock)
                               else started == old(started) + 1 && clock == old(clock) + 2 && !aborted && running == {old(started)}
        decreases hi - nextToStart, !left
      {
        panicked, left := FillOne(hi, mode);
        if panicked { return; }
      }
      panicked := false;
    }

    /** Starts the next call, unless it is no longer parallel and so `left` for the next barrier. */
    method FillOne(hi: nat, mode: Mode) returns (panicked: bool, left: bool)
      requires Valid() && Flushed() && !aborted && nextToStart < hi <= |slots| && inFlight < setup.maxParallel
      requires mode.Parallel? ==> !Observe(trace).barrier
      requires mode.Exclusive? ==> hi == group + 1 && started == group && !Observe(trace).barrier
      requires started == group ==> Answered(mode)
      modifies this, session, signal
      ensures Logged() && Scheduled() && (panicked ==> mishap && Adrift(setup, trace, running))
      ensures !panicked ==> Valid() && Flushed() && |slots| == |old(slots)| && group == old(group) && prior == old(prior)
      ensures !panicked ==> if left then old(started) == started > group && running == old(running)
                            else started == old(started) + 1 && |running| <= |old(running)| + 1
      ensures !panicked && mode.Parallel? ==> !Observe(trace).barrier
      ensures old(Idle(hi)) && Forsakes(world, old(clock)) ==>
        !panicked && !left && running == {old(started)} && clock == old(clock) + 2 && !aborted
      ensures old(started) > old(group) && mode.Parallel? && old(clock) >= 2 && Forsakes(world, old(clock) - 2) ==>
        panicked && running == old(running)
    {
      hide Obeyed, Journal, Safe, Observe, Inv, Concludes, Adrift;
      left := false;
      if Solo(setup) { RoomMeansCommitted(setup, View()); }
      InvIsAdrift(setup, View());
      if nextToStart > group && mode.Parallel? {
        var answer := AskMode();
        if answer.None? { return true, false; }
        if answer != Some(Parallel) { return false, true; }
      }
      panicked := StartAndCommit(hi, mode);
    }

    /** The registry's answer about the next call, whatever it said before; it may also panic. */
    method AskMode() returns (answer: Option<Mode>)
      requires Valid()
      modifies this`clock, this`asked, this`mishap
      ensures mishap == (old(mishap) || answer.None?)
      ensures Valid() && clock == old(clock) + 1 && answer == world.mode(old(clock))
      ensures answer.Some? ==> Answered(answer.value)
    {
      hide Obeyed, Journal, Safe, Observe, Concludes, Indexed;
      answer := world.mode(clock);
      clock := clock + 1;
      mishap := mishap || answer.None?;
      if answer.Some? {
        AnswerKeepsObeyed(trace, asked, started, answer.value, |setup.plan.calls|, setup.maxParallel);
        asked := asked[started := answer.value];
      }
    }

    /** One round of the pool: start the next call, commit what is ready, look for an abort. */
    method StartAndCommit(hi: nat, mode: Mode) returns (panicked: bool)
      requires Valid() && nextToStart < hi <= |slots| && |running| < setup.maxParallel
      requires !Observe(trace).barrier && (mode.Exclusive? ==> committed == started)
      requires (Solo(setup) ==> running == {} && committed == started) && Answered(mode)
      modifies this, session, signal
      ensures Logged() && Scheduled() && (panicked ==> mishap && Adrift(setup, trace, running))
      ensures !panicked ==> Valid() && Flushed() && started == old(started) + 1 && |slots| == |old(slots)|
      ensures !panicked ==> |running| <= |old(running)| + 1 && group == old(group) && prior == old(prior)
      ensures !panicked && mode.Parallel? ==> !Observe(trace).barrier
      ensures world.refuse(old(clock)) ==> panicked && running == old(running)
      ensures !world.refuse(old(clock)) && world.prepared(old(clock)).Dispatches? && old(committed == started) ==>
        && !panicked && running == old(running) + {old(started)} && clock == old(clock) + 2
        && aborted == (old(aborted) || old(signal.cancelled) || world.cancel(old(clock) + 1))
    {
      hide Obeyed, Journal, Safe, Observe, Inv, Concludes, Adrift;
      var refuse, prepared := world.refuse(clock), world.prepared(clock);
      clock := clock + 1;
      panicked := StartCall(nextToStart, mode, refuse, prepared);
      if panicked { return; }
      panicked := CommitAndCheck(hi);
    }

    /** Commits what is ready, then looks for an abort. */
    method CommitAndCheck(hi: nat) returns (panicked: bool)
      requires Valid() && started <= hi <= |slots| && (Solo(setup) ==> running == {} || Waiting())
      modifies this`committed, this`accepted, this`concluded, this`ends, this`trace, this`mishap, this`aborted, this`clock, session, signal
      ensures Logged() && Scheduled() && (panicked ==> mishap && Adrift(setup, trace, running))
      ensures old(Waiting()) ==> !panicked && trace == old(trace)
      ensures !panicked ==> Valid() && Flushed() && clock == old(clock) + 1
      ensures !panicked ==> aborted == (old(aborted) || old(signal.cancelled) || world.cancel(old(clock)))
      ensures !panicked && !Observe(old(trace)).barrier ==> !Observe(trace).barrier
    {
      hide Obeyed, Journal, Safe, Observe, Inv, Concludes, Adrift, Solo;
      panicked := CommitReady(hi);
      if panicked { return; }
      CheckSignal();
    }

    /** Waits for every dispatch in flight after a failure, logging nothing. */
    method DrainFailure()
      requires Lost(setup, trace, running, |sources|, |ends|) && inFlight == |running| && forall j :: j in running ==> j < |slots|
      requires Obeyed(trace, asked)
      modifies this`slots, this`running, this`inFlight, this`trace
      ensures Lost(setup, trace, running, |sources|, |ends|) && running == {} && Scheduled()
    {
      hide Lost, Obeyed;
      while inFlight > 0
        invariant Obeyed(trace, asked)
        invariant Lost(setup, trace, running, |sources|, |ends|) && inFlight == |running| && forall j :: j in running ==> j < |slots|
        decreases inFlight
      {
        var i :| i in running;
        var slot: Slot := *;
        ObeyedMore(trace, Drain(i), asked);
        DrainKeepsLost(setup, trace, running, |sources|, |ends|, i);
        inFlight := inFlight - 1;
        running := running - {i};
        slots := slots[i := slot];
        trace := trace + [Drain(i)];
      }
      LostIsSafe(setup, trace, running, |sources|, |ends|);
    }

    /** One of the dispatches in flight settles: its slot is filled, or the dispatch was lost. */
    method AwaitSettlement(delivery: Delivery) returns (lost: bool, ghost index: nat)
      requires Valid() && inFlight > 0
      modifies this`slots, this`running, this`inFlight, this`trace, session
      ensures Logged() && inFlight == |running| == old(inFlight) - 1 && (Solo(setup) ==> running == {})
      ensures lost == delivery.lost && index in old(running) && running == old(running) - {index}
      ensures index < |old(slots)| && slots == old(slots)[index := Settled(delivery.raw, delivery.needsPost)]
      ensures !lost ==> Valid() && |slots| == |old(slots)| && Observe(trace).barrier == Observe(old(trace)).barrier
      ensures lost ==> Lost(setup, trace, running, |sources|, |ends|) && Obeyed(trace, asked) && forall j :: j in running ==> j < |slots|
    {
      hide Obeyed, Journal, Safe, Observe, Inv, Lost, Concludes;
      if Solo(setup) { SoloPool(setup, View()); }
      Interfere();
      var i :| i in running;
      lost, index := delivery.lost, i;
      Deliver(i, delivery);
    }

    method Deliver(i: nat, delivery: Delivery)
      requires Valid() && i in running
      modifies this`slots, this`running, this`inFlight, this`trace
      ensures Logged() && running == old(running) - {i} && inFlight == |running| == old(inFlight) - 1
      ensures i < |old(slots)| && slots == old(slots)[i := Settled(delivery.raw, delivery.needsPost)]
      ensures !delivery.lost ==> Valid() && Observe(trace).barrier == Observe(old(trace)).barrier
      ensures delivery.lost ==> Lost(setup, trace, running, |sources|, |ends|) && Obeyed(trace, asked) && forall j :: j in running ==> j < |slots|
    {
      hide Obeyed, Journal, Safe, Observe, Inv, Lost, Concludes;
      var slot := Settled(delivery.raw, delivery.needsPost);
      SettleKeepsInv(setup, View(), i, slot);
      ObeyedMore(trace, if delivery.lost then Lose(i) else Settle(i), asked);
      LoseLeavesLost(setup, View(), i);
      inFlight := inFlight - 1;
      running := running - {i};
      slots := slots[i := slot];
      trace := trace + [if delivery.lost then Lose(i) else Settle(i)];
    }

    /** Logs the calls lo..hi as skipped. */
    method SkipCalls(lo: nat, hi: nat) returns (panicked: bool)
      requires Logged() && Scheduled() && Quiet(setup, trace, lo) && |ends| == |sources| == lo <= hi <= |setup.plan.calls|
      modifies this`sources, this`ends, this`trace, this`mishap, session
      ensures Logged() && Scheduled() && (panicked ==> mishap && Adrift(setup, trace, {}))
      ensures !panicked ==> Quiet(setup, trace, hi) && |ends| == |sources| == hi
      ensures !panicked ==> old(ends) <= ends && forall i :: lo <= i < hi ==> ends[i] == ABORTED
    {
      hide Obeyed, Journal, Safe, Quiet, Adrift;
      for i := lo to hi
        invariant Logged() && Scheduled() && Quiet(setup, trace, i) && |ends| == |sources| == i
        invariant old(ends) <= ends && forall j :: lo <= j < i ==> ends[j] == ABORTED
      {
        QuietIsAdrift(setup, trace, i);
        panicked := AppendSkippedToolCall(setup.plan.calls[i]);
        if panicked { return; }
        SkipKeepsQuiet(setup, trace, i);
        ObeyedMore(trace, Skip(i), asked);
        trace := trace + [Skip(i)];
      }
      panicked := false;
    }

    method SettleAndRefill(hi: nat, mode: Mode) returns (failure: Option<Failure>)
      requires Valid() && Flushed() && started <= hi <= |slots| && inFlight > 0
      requires mode.Parallel? ==> !Observe(trace).barrier
      requires mode.Exclusive? ==> hi == group + 1
      modifies this, session, signal
      ensures Logged() && Scheduled()
      ensures failure == Some(DispatchFailed) ==> Lost(setup, trace, running, |sources|, |ends|) && running == {}
      ensures failure == Some(Panicked) ==> mishap && Adrift(setup, trace, running)
      ensures failure.None? ==> Valid() && Flushed() && started <= hi <= |slots| && group == old(group) && prior == old(prior)
      ensures failure.None? && mode.Parallel? ==> !Observe(trace).barrier
      ensures failure.None? ==> aborted || started == hi || inFlight >= setup.maxParallel || started > group
      ensures failure.None? ==> 2 * (hi - started) + inFlight < 2 * (hi - old(started)) + old(inFlight)
      ensures old(aborted) && failure.None? ==> aborted && started == old(started)
    {
      hide Obeyed, Journal, Safe, Observe, Inv, Lost, Concludes, Adrift, Solo;
      BusyMeansStarted(setup, View());
      var delivery: Delivery := *;
      var lost, index := AwaitSettlement(delivery);
      if lost {
        DrainFailure();
        return Some(DispatchFailed);
      }
      var panicked := CommitAndCheck(hi);
      if panicked { return Some(Panicked); }
      panicked := FillPool(hi, mode);
      if panicked { return Some(Panicked); }
      return None;
    }

    /** Every result so far is the finalized result of its own call, or synthetic once `started`
        is passed; the contexts handed over are those of the results, in model order. */
    ghost predicate Outcomes()
      reads this
    {
      && started <= |ends| <= |slots| == |setup.plan.calls|
      && (forall i :: 0 <= i < started ==> slots[i].Settled?)
      && (forall i :: 0 <= i < started ==>
            ends[i] == if slots[i].needsPost then setup.runtime.finalize(setup.plan.calls[i], slots[i].raw)
                       else setup.runtime.finish(setup.plan.calls[i], slots[i].raw))
      && (forall i :: started <= i < |ends| ==> ends[i] == ABORTED && Synthetic(ends[i]))
      && accepted == Contexts(ends)
    }

    /** Runs one exclusive barrier (hi == group + 1) or one parallel pool over the calls group..hi. */
    method RunGroup(hi: nat, mode: Mode) returns (failure: Option<Failure>, consumed: nat, stopped: bool)
      requires Valid() && Flushed() && group == committed == started < hi <= |slots| && running == {}
      requires setup.maxParallel >= 1 && (mode.Exclusive? ==> hi == group + 1) && Answered(mode)
      modifies this, session, signal
      ensures Logged() && Scheduled()
      ensures failure == Some(DispatchFailed) ==> Lost(setup, trace, running, |sources|, |ends|) && running == {}
      ensures failure == Some(Panicked) ==> mishap && Adrift(setup, trace, running)
      ensures failure.None? ==> running == {} && group == old(group) && prior == old(prior) <= ends
      ensures failure.None? ==> (concluded <==> Concludes(ends, group, |ends|))
      ensures failure.None? && old(signal.cancelled) ==> stopped && started == old(started)
      ensures failure.None? && !stopped ==> Valid() && Flushed() && committed == started == group + consumed <= hi && consumed >= 1
      ensures failure.None? && stopped ==>
        signal.cancelled && group + consumed == hi == |ends| == |sources| && Quiet(setup, trace, hi) && Outcomes()
      ensures (old(!signal.cancelled && group + 2 <= hi) && mode.Parallel? && setup.maxParallel >= 2
               && !world.cancel(old(clock)) && Forsakes(world, old(clock) + 1)) ==> failure == Some(Panicked) && running == {old(group)}
    {
      hide Obeyed, Journal, Safe, Observe, Inv, Lost, Concludes, Adrift, Solo, Forsakes, Quiet, Finalized, Contexts;
      consumed, stopped := 0, false;
      var panicked := OpenGroup(hi, mode);
      if panicked { return Some(Panicked), 0, false; }
      failure := DrainPool(hi, mode);
      if failure.Some? { return failure, 0, false; }
      if aborted {
        panicked := SkipRest(hi);
        if panicked { return Some(Panicked), 0, false; }
        return None, hi - group, true;
      }
      return None, started - group, false;
    }

    /** The group's first look at the signal, and its first filling of the pool. */
    method OpenGroup(hi: nat, mode: Mode) returns (panicked: bool)
      requires Valid() && Flushed() && group == committed == started < hi <= |slots| && running == {}
      requires setup.maxParallel >= 1 && (mode.Exclusive? ==> hi == group + 1) && Answered(mode)
      modifies this, session, signal
      ensures Logged() && Scheduled() && (panicked ==> mishap && Adrift(setup, trace, running))
      ensures !panicked ==> Valid() && Flushed() && started <= hi <= |slots| && group == old(group) && prior == old(prior)
      ensures !panicked && mode.Parallel? ==> !Observe(trace).barrier
      ensures !panicked ==> aborted || started == hi || inFlight >= setup.maxParallel || started > group
      ensures old(signal.cancelled) ==> !panicked && aborted && started == old(started)
      ensures (old(!signal.cancelled && group + 2 <= hi) && mode.Parallel? && setup.maxParallel >= 2
               && !world.cancel(old(clock)) && Forsakes(world, old(clock) + 1)) ==> panicked && running == {old(group)}
    {
      hide Obeyed, Journal, Safe, Observe, Inv, Concludes, Adrift, Solo, Forsakes;
      DrainedMeansCommitted(setup, View());
      aborted := signal.Poll(world.cancel(clock));
      clock := clock + 1;
      ConcludesSplits(ends, ends, group, group, group);
      concluded := false;
      panicked := FillPool(hi, mode);
    }

    /** Settles, commits and refills until nothing is in flight. */
    method DrainPool(hi: nat, mode: Mode) returns (failure: Option<Failure>)
      requires Valid() && Flushed() && started <= hi <= |slots| && (mode.Exclusive? ==> hi == group + 1)
      requires mode.Parallel? ==> !Observe(trace).barrier
      requires aborted || started == hi || inFlight >= setup.maxParallel || started > group
      modifies this, session, signal
      ensures Logged() && Scheduled()
      ensures failure == Some(DispatchFailed) ==> Lost(setup, trace, running, |sources|, |ends|) && running == {}
      ensures failure == Some(Panicked) ==> mishap && Adrift(setup, trace, running)
      ensures failure.None? ==> Valid() && Flushed() && running == {} && committed == started <= hi <= |slots| && group == old(group) && prior == old(prior)
      ensures failure.None? ==> aborted || started == hi || 0 >= setup.maxParallel || started > group
      ensures old(aborted) && failure.None? ==> aborted && started == old(started)
    {
      hide Obeyed, Journal, Safe, Observe, Inv, Lost, Concludes, Adrift, Solo;
      while inFlight > 0
        invariant Valid() && Flushed() && started <= hi <= |slots| && group == old(group) && prior == old(prior)
        invariant mode.Parallel? ==> !Observe(trace).barrier
        invariant aborted || started == hi || inFlight >= setup.maxParallel || started > group
        invariant old(aborted) ==> aborted && started == old(started)
        decreases 2 * (hi - started) + inFlight
      {
        failure := SettleAndRefill(hi, mode);
        if failure.Some? { return; }
      }
      DrainedMeansCommitted(setup, View());
      failure := None;
    }

    /** Logs every call from `started` to hi as skipped. */
    method SkipRest(hi: nat) returns (panicked: bool)
      requires Valid() && committed == started <= hi <= |slots| && running == {}
      modifies this`sources, this`ends, this`trace, this`mishap, session
      ensures Logged() && Scheduled() && (panicked ==> mishap && Adrift(setup, trace, running))
      ensures !panicked ==> old(ends) <= ends && |ends| == |sources| == hi && Quiet(setup, trace, hi) && Outcomes()
      ensures !panicked ==> (concluded <==> Concludes(ends, group, |ends|))
    {
      hide Obeyed, Journal, Safe, Inv, Quiet, Finalized, Contexts, Concludes, Adrift;
      InvBounds(setup, View());
      panicked := SkipCalls(started, hi);
      if panicked { return; }
      assert ends[..started] == old(ends);
      SkippedAddNoContexts(ends, started);
      ConcludesOnlyBefore(ends, group, started);
    }

    /** The environment's answers from this moment on abandon the first of two parallel calls. */
    ghost predicate Abandons(now: nat)
      reads this
    {
      world.mode(now) == Some(Parallel) && !world.cancel(now + 1) && Forsakes(world, now + 2)
    }

    /** The next group begins where the last one ended. */
    method StartGroup()
      requires Valid() && committed == started
      modifies this`group, this`prior, this`concluded
      ensures Valid() && group == started && prior == ends
    {
      hide Obeyed, Journal, Safe, Observe, Inv, Concludes;
      ConcludesSplits(ends, ends, started, started, started);
      group, prior, concluded := started, ends, false;
    }

    /** Classifies the next call and runs its group. */
    method NextGroup() returns (failure: Option<Failure>, consumed: nat, stopped: bool)
      requires Valid() && Flushed() && committed == started < |setup.plan.calls| && running == {} && setup.maxParallel >= 1
      modifies this, session, signal
      ensures Logged() && Scheduled()
      ensures failure == Some(DispatchFailed) ==> Lost(setup, trace, running, |sources|, |ends|) && running == {}
      ensures failure == Some(Panicked) ==> mishap && Adrift(setup, trace, running)
      ensures failure.None? ==> running == {} && old(ends) <= ends && (concluded <==> Concludes(ends, old(started), |ends|))
      ensures failure.None? ==> consumed >= 1 && |ends| == |sources| == old(started) + consumed <= |setup.plan.calls|
      ensures failure.None? && !stopped ==> Valid() && Flushed() && committed == started == |ends|
      ensures failure.None? && stopped ==> signal.cancelled && Quiet(setup, trace, |ends|) && Outcomes()
      ensures failure.None? && old(signal.cancelled) ==> stopped && started == old(started)
      ensures (old(!signal.cancelled && started + 2 <= |setup.plan.calls|) && setup.maxParallel >= 2 && Abandons(old(clock))) ==>
        failure == Some(Panicked) && running == {old(started)}
    {
      hide Obeyed, Journal, Safe, Observe, Inv, Finalized, Contexts, Lost, Quiet, Concludes, Adrift, Solo, Forsakes;
      consumed, stopped := 0, false;
      InvIsAdrift(setup, View());
      var answer := AskMode();
      if answer.None? { return Some(Panicked), 0, false; }
      var mode := answer.value;
      var hi := if mode.Parallel? then |setup.plan.calls| else started + 1;
      StartGroup();
      failure, consumed, stopped := RunGroup(hi, mode);
    }

    /** Schedules every planned call of the step.  Without a failure every call has one logged
        call and one logged result; a call whose result is synthetic was skipped by an abort. */
    method ExecuteToolCalls() returns (failure: Option<Failure>, turnConcluded: bool)
      requires Valid() && started == 0 && trace == [] && setup.maxParallel >= 1
      modifies this, session, signal
      ensures Journal(session.log, base, setup.plan, sources, ends)
      ensures Safe(trace, |setup.plan.calls|, setup.maxParallel)
      ensures failure.None? ==>
        && |sources| == |ends| == |setup.plan.calls| && running == {} && Outcomes()
        && (started < |setup.plan.calls| ==> signal.cancelled)
        && (turnConcluded <==> exists i :: 0 <= i < |ends| && ends[i].concludesTurn)
      // Every call runs in the mode the registry last gave for it, and none runs in a cancelled step.
      ensures Obeyed(trace, asked)
      ensures failure.None? && old(signal.cancelled) ==> started == 0
      // A panic drains nothing; unless two calls can be in flight together there is nothing to drain.
      ensures failure == Some(Panicked) ==> mishap && Adrift(setup, trace, running)
      ensures Solo(setup) ==> running == {}
      // A run that abandons a call, in every setup in which two calls can be in flight together.
      ensures old(!signal.cancelled) && !Solo(setup) && Abandons(old(clock)) ==> failure == Some(Panicked) && running == {0}
      // A lost dispatch: everything in flight was drained, and nothing was logged after the loss.
      ensures failure == Some(DispatchFailed) ==>
        running == {} && Observe(trace).failed && Observe(trace).started == |sources| && Observe(trace).committed == |ends|
    {
      hide Obeyed, Journal, Safe, Observe, Inv, Finalized, Contexts, Lost, Quiet, Adrift;
      turnConcluded := false;
      var next := 0;
      EmptyTraceIsQuiet(setup, View());
      while next < |setup.plan.calls|
        invariant Valid() && Flushed() && committed == started == next && running == {}
        invariant turnConcluded <==> Concludes(ends, 0, next)
        invariant next == 0 ==> clock == old(clock) && signal.cancelled == old(signal.cancelled)
        invariant old(!signal.cancelled) && !Solo(setup) && Abandons(old(clock)) ==> next == 0
        invariant old(signal.cancelled) ==> next == 0
        decreases |setup.plan.calls| - next
      {
        ghost var before := ends;
        var consumed, stopped;
        failure, consumed, stopped := NextGroup();
        if failure.Some? {
          LossIsLogged(failure, setup, trace, running, |sources|, |ends|);
          AdriftAlone(failure, setup, trace, running);
          assert failure.value.DispatchFailed? || failure.value.Panicked?;
          return failure, failure == Some(DispatchFailed) && turnConcluded;
        }
        ConcludesSplits(before, ends, 0, next, |ends|);
        next := next + consumed;
        turnConcluded := turnConcluded || concluded;
        if stopped {
          var panicked := SkipTail(next);
          if panicked { return Some(Panicked), false; }
          return None, turnConcluded;
        }
      }
      InvBounds(setup, View());
      return None, turnConcluded;
    }

    /** Logs the calls after an aborted group as skipped. */
    method SkipTail(next: nat) returns (panicked: bool)
      requires Logged() && Scheduled() && Quiet(setup, trace, next) && Outcomes() && |ends| == |sources| == next
      modifies this`sources, this`ends, this`trace, this`mishap, session
      ensures Logged() && Scheduled() && (panicked ==> mishap && Adrift(setup, trace, {}))
      ensures !panicked ==> Quiet(setup, trace, |setup.plan.calls|) && Outcomes() && |ends| == |sources| == |setup.plan.calls|
      ensures !panicked ==> (Concludes(old(ends), 0, next) <==> Concludes(ends, 0, |ends|))
    {
      hide Obeyed, Journal, Safe, Quiet, Finalized, Contexts, Adrift;
      panicked := SkipCalls(next, |setup.plan.calls|);
      if panicked { return; }
      assert ends[..next] == old(ends);
      SkippedAddNoContexts(ends, next);
      ConcludesOnlyBefore(ends, 0, next);
    }

    /** Two calls may be in flight together: the first is dispatched, the append of the second is
        refused, and the panic abandons the first. */
    static method AbandonsACall(setup: Setup, session: CallLog, signal: Signal) returns (scheduler: ToolScheduler, failure: Option<Failure>)
      requires !Solo(setup) && setup.maxParallel >= 1 && !signal.cancelled
      modifies session, signal
      ensures failure == Some(Panicked) && scheduler.running == {0} && Adrift(setup, scheduler.trace, scheduler.running)
    {
      hide Obeyed, Journal, Safe, Inv, Concludes, Adrift;
      var world := World(now => Some(Parallel), now => false, now => now == 5, now => Dispatches);
      scheduler := new ToolScheduler(setup, session, signal, world);
      var concluded;
      failure, concluded := scheduler.ExecuteToolCalls();
    }
  }
}

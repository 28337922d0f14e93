/**
Turn and step boundaries in the session log: the bracket discipline a driver run must
follow, the turn loop that writes it (agentloop/driver.go), and the two readers that
recover it, the turn-boundary projection (agentloop/turnboundary.go) and the backward
scans of the driver's constructor and of the compaction entry check.
 */
module TurnBrackets {
  import opened SessionLog

  /** Where a well-bracketed log stands: turns are numbered consecutively from 1, the steps of
      a turn 1, 2, 3, every step closes before the next boundary, every turn before the next. */
  datatype Bracket = Broken | Bracket(lastTurn: nat, open: bool, lastStep: nat, stepOpen: bool)

  function Advance(b: Bracket, e: Event): Bracket {
    if b.Broken? then Broken
    else match e
      case TurnStart(t) => if !b.open && t == b.lastTurn + 1 then Bracket(t, true, 0, false) else Broken
      case StepStart(t, k) =>
        if b.open && !b.stepOpen && t == b.lastTurn && k == b.lastStep + 1 then b.(lastStep := k, stepOpen := true) else Broken
      case StepEnd(t, k) =>
        if b.stepOpen && t == b.lastTurn && k == b.lastStep then b.(stepOpen := false) else Broken
      case TurnEnd(t, _) =>
        if b.open && !b.stepOpen && t == b.lastTurn then b.(open := false) else Broken
      case _ => b
  }

  function Brackets(log: Log): Bracket {
    if log == [] then Bracket(0, false, 0, false)
    else Advance(Brackets(log[..|log| - 1]), log[|log| - 1])
  }

  predicate IsBoundary(e: Event) {
    e.TurnStart? || e.TurnEnd? || e.StepStart? || e.StepEnd?
  }

  lemma OneMore(log: Log, e: Event)
    ensures Brackets(log + [e]) == Advance(Brackets(log), e)
  {
    assert (log + [e])[..|log|] == log;
  }

  lemma {:induction false} OthersKeepBrackets(log: Log, more: Log)
    requires forall i :: 0 <= i < |more| ==> !IsBoundary(more[i])
    ensures Brackets(log + more) == Brackets(log)
  {
    if more == [] {
      assert log + more == log;
    } else {
      OthersKeepBrackets(log, more[..|more| - 1]);
      assert log + more == log + more[..|more| - 1] + [more[|more| - 1]];
      OneMore(log + more[..|more| - 1], more[|more| - 1]);
    }
  }

  /** The last boundary of a log. */
  function LastBoundary(log: Log): Option<Event> {
    if log == [] then None
    else if IsBoundary(log[|log| - 1]) then Some(log[|log| - 1])
    else LastBoundary(log[..|log| - 1])
  }

  /** What may follow a boundary: turn t + 1 follows the end of turn t, its first step its start, step
      k + 1 the end of step k, a step's end that step's start, and a turn's end its start or a step's end. */
  predicate MayFollow(before: Option<Event>, e: Event) {
    match e
    case TurnStart(t) => if t == 1 then before.None? else t > 1 && before.Some? && before.value.TurnEnd? && before.value.turn == t - 1
    case StepStart(t, k) => if k == 1 then before == Some(TurnStart(t)) else k > 1 && before == Some(StepEnd(t, k - 1))
    case StepEnd(t, k) => before == Some(StepStart(t, k))
    case TurnEnd(t, _) => before == Some(TurnStart(t)) || (before.Some? && before.value.StepEnd? && before.value.turn == t)
    case _ => true
  }

  /** Where a log stands after its last boundary. */
  ghost predicate StandsAfter(b: Bracket, before: Option<Event>) {
    b.Bracket? && match before
      case None => b.lastTurn == 0 && !b.open && !b.stepOpen
      case Some(TurnStart(t)) => t >= 1 && b == Bracket(t, true, 0, false)
      case Some(StepStart(t, k)) => t >= 1 && k >= 1 && b == Bracket(t, true, k, true)
      case Some(StepEnd(t, k)) => t >= 1 && k >= 1 && b == Bracket(t, true, k, false)
      case Some(TurnEnd(t, _)) => t >= 1 && b.lastTurn == t && !b.open && !b.stepOpen
      case Some(_) => false
  }

  lemma BracketStep(b: Bracket, before: Option<Event>, e: Event)
    requires StandsAfter(b, before)
    ensures Advance(b, e).Bracket? <==> MayFollow(before, e)
    ensures Advance(b, e).Bracket? ==> StandsAfter(Advance(b, e), if IsBoundary(e) then Some(e) else before)
  {
  }

  /** Each boundary may follow the one before it. */
  ghost predicate EachMayFollow(log: Log) {
    forall i :: 0 <= i < |log| ==> MayFollow(LastBoundary(log[..i]), log[i])
  }

  lemma EachOneMore(log: Log, e: Event)
    ensures EachMayFollow(log + [e]) <==> EachMayFollow(log) && MayFollow(LastBoundary(log), e)
  {
    hide MayFollow, LastBoundary;
    var later := log + [e];
    assert forall i :: 0 <= i <= |log| ==> later[..i] == log[..i];
    assert log[..|log|] == log && later[|log|] == e;
    assert forall i :: 0 <= i < |log| ==> later[i] == log[i];
  }

  /** The bracket discipline, boundary by boundary: a log is well-bracketed iff each of its boundaries
      may follow the one before it. */
  lemma {:induction false} BracketedIffEachMayFollow(log: Log)
    ensures Brackets(log).Bracket? <==> EachMayFollow(log)
    ensures Brackets(log).Bracket? ==> StandsAfter(Brackets(log), LastBoundary(log))
  {
    if log != [] {
      var n := |log| - 1;
      var init := log[..n];
      assert log == init + [log[n]];
      BracketedIffEachMayFollow(init);
      hide MayFollow, StandsAfter, Advance, EachMayFollow;
      EachOneMore(init, log[n]);
      if Brackets(init).Bracket? {
        BracketStep(Brackets(init), LastBoundary(init), log[n]);
      } else {
        BrokenStays(log[n]);
      }
    }
  }

  lemma BrokenStays(e: Event)
    ensures Advance(Broken, e) == Broken
  {
  }

  // ----- The backward scans -----

  /** The turn the log's last turn boundary leaves open. */
  function OpenTurn(log: Log): Option<nat> {
    if log == [] then None
    else match log[|log| - 1]
      case TurnStart(turn) => Some(turn)
      case TurnEnd(_, _) => None
      case _ => OpenTurn(log[..|log| - 1])
  }

  lemma {:induction false} OpenTurnIsTheBrackets(log: Log)
    requires !Brackets(log).Broken?
    ensures OpenTurn(log) == if Brackets(log).open then Some(Brackets(log).lastTurn) else None
  {
    if log != [] {
      OpenTurnIsTheBrackets(log[..|log| - 1]);
    }
  }

  /** The driver constructor's scan: the number of the log's last turn, 0 without one. */
  method RecoverLastTurn(log: Log) returns (lastTurn: nat)
    ensures !Brackets(log).Broken? ==> lastTurn == Brackets(log).lastTurn
    ensures lastTurn == 0 || TurnStart(lastTurn) in log
  {
    lastTurn := 0;
    var index := |log| - 1;
    assert log[..|log|] == log;
    while index >= 0
      invariant -1 <= index < |log|
      invariant !Brackets(log).Broken? ==>
        !Brackets(log[..index + 1]).Broken? && Brackets(log[..index + 1]).lastTurn == Brackets(log).lastTurn
    {
      assert log[..index + 1][..index] == log[..index];
      if log[index].TurnStart? {
        lastTurn := log[index].turn;
        return;
      }
      index := index - 1;
    }
  }

  // ----- The turn-boundary projection -----

  datatype StepBoundary = StepBoundary(isStart: bool, seqNo: nat)

  datatype Projection = Projection(
    openTurnStartSeq: Option<nat>, lastStepStartSeq: Option<nat>, lastStepBoundary: Option<StepBoundary>, lastTurn: nat)

  function Apply(p: Projection, e: Event, seqNo: nat): Projection {
    match e
    case TurnStart(turn) => p.(openTurnStartSeq := Some(seqNo), lastTurn := turn)
    case TurnEnd(_, _) => p.(openTurnStartSeq := None)
    case StepStart(_, _) => p.(lastStepStartSeq := Some(seqNo), lastStepBoundary := Some(StepBoundary(true, seqNo)))
    case StepEnd(_, _) => p.(lastStepBoundary := Some(StepBoundary(false, seqNo)))
    case _ => p
  }

  function Project(log: Log): Projection {
    if log == [] then Projection(None, None, None, 0)
    else Apply(Project(log[..|log| - 1]), log[|log| - 1], |log| - 1)
  }

  /** On a well-bracketed log the projection names exactly the bracket's open turn and step. */
  lemma {:induction false} ProjectionReportsTheBracket(log: Log)
    requires !Brackets(log).Broken?
    ensures var b, p := Brackets(log), Project(log);
            && p.lastTurn == b.lastTurn
            && (p.openTurnStartSeq.Some? <==> b.open)
            && (b.open ==> p.openTurnStartSeq.value < |log| && log[p.openTurnStartSeq.value] == TurnStart(b.lastTurn))
            && (b.stepOpen <==> p.lastStepBoundary.Some? && p.lastStepBoundary.value.isStart)
            && (b.stepOpen ==>
                  && b.open
                  && p.lastStepStartSeq == Some(p.lastStepBoundary.value.seqNo)
                  && p.lastStepBoundary.value.seqNo < |log|
                  && log[p.lastStepBoundary.value.seqNo] == StepStart(b.lastTurn, b.lastStep))
  {
    if log != [] {
      ProjectionReportsTheBracket(log[..|log| - 1]);
    }
  }

  // ----- The turn loop -----

  /** What the pre-step waterfall decided about the proposed step. */
  datatype Decision = Fault | Reject | Enter(messages: seq<Message>)

  /** How one step body ended: it failed, completed, or hit the output-token ceiling. */
  datatype StepEnding = StepFault | Ended(maxTokens: bool) {
    function Reason(): TurnEndReason
      requires Ended?
    {
      if maxTokens then MaxTokens else Completed
    }
  }

  /** A later step never downgrades the max-tokens ending of an earlier one. */
  function Sticky(turnEnds: Option<TurnEndReason>, ending: TurnEndReason): Option<TurnEndReason> {
    if turnEnds.None? || turnEnds.value != MaxTokens then Some(ending) else turnEnds
  }

  /** The events of a step's claimed messages, in order. */
  function Entered(messages: seq<Message>): seq<Event> {
    seq(|messages|, i requires 0 <= i < |messages| => UserMessage(messages[i], AppendOp, []))
  }

  class Driver {
    var log: Log
    var turn: nat
    var signal: Signal

    constructor (log: Log, signal: Signal)
      requires !Brackets(log).Broken? && !Brackets(log).open && !Brackets(log).stepOpen
      ensures this.log == log && this.signal == signal && Closed()
    {
      var lastTurn := RecoverLastTurn(log);
      this.log, this.signal, turn := log, signal, lastTurn;
    }

    /** The bracket the log is in; appended events keep it unless they are boundaries. */
    ghost function Now(): Bracket
      reads this`log
    {
      Brackets(log)
    }

    /** Every turn and step is closed and the driver knows the last turn's number. */
    ghost predicate Closed()
      reads this
    {
      Now().Bracket? && Now().lastTurn == turn && !Now().open && !Now().stepOpen
    }

    method Append(e: Event)
      modifies this`log
      ensures log == old(log) + [e] && Now() == Advance(old(Now()), e)
    {
      OneMore(log, e);
      log := log + [e];
    }

    /** Everything else that happens while the driver waits: messages, tool events, splices. */
    method Others()
      modifies this`log
      ensures old(log) <= log && Now() == old(Now())
    {
      var more: Log := *;
      if !forall i :: 0 <= i < |more| ==> !IsBoundary(more[i]) { more := []; }
      OthersKeepBrackets(log, more);
      log := log + more;
    }

    /** One step: its claimed messages and its body, closed even when it fails.  The session accepts the
        first `accepted` messages, and a refused one ends the step early; `body` is how its body ends. */
    method Step(step: nat, messages: seq<Message>, accepted: nat, body: StepEnding) returns (ending: StepEnding, ghost entered: nat)
      requires Now() == Bracket(turn, true, step, true)
      modifies this`log
      ensures entered == Min(accepted, |messages|) && old(log) + Entered(messages[..entered]) <= log
      ensures ending == if accepted < |messages| then StepFault else body
      ensures Now() == Bracket(turn, true, step, false) && log[|log| - 1] == StepEnd(turn, step)
    {
      ending, entered := StepFault, 0;
      var i, refused := 0, false;
      while i < |messages| && !refused
        invariant 0 <= entered == i <= |messages| && log == old(log) + Entered(messages[..i]) && Now() == old(Now())
        invariant i <= accepted && (refused ==> i == accepted < |messages|)
        decreases |messages| - i, !refused
      {
        refused := i == accepted;
        if !refused {
          Append(UserMessage(messages[i], AppendOp, []));
          assert Entered(messages[..i + 1]) == Entered(messages[..i]) + [UserMessage(messages[i], AppendOp, [])];
          i, entered := i + 1, entered + 1;
        }
      }
      if !refused {
        Others();
        ending := body;
      }
      Append(StepEnd(turn, step));
    }

    /** The next step of an open turn, from its start to its end. */
    method OpenStep(step: nat, messages: seq<Message>, accepted: nat, body: StepEnding) returns (ending: StepEnding)
      requires step > 0 && Now() == Bracket(turn, true, step - 1, false)
      modifies this`log
      ensures old(log) < log && log[|old(log)|] == StepStart(turn, step) && Now() == Bracket(turn, true, step, false)
      ensures ending == if accepted < |messages| then StepFault else body
    {
      hide Brackets;
      Append(StepStart(turn, step));
      ghost var entered;
      ending, entered := Step(step, messages, accepted, body);
    }

    /** The steps of one open turn.  `patience` bounds how long the environment lets the turn run
        before it cancels; `ceilings` says of each completed step whether it hit the token ceiling,
        `verdict` is the last decision of the pre-step waterfall and `fault` says that the last step failed
        or that its start was refused. */
    method RunSteps(patience: nat)
      returns (reason: TurnEndReason, failed: bool, ghost ceilings: seq<bool>, ghost verdict: Option<Decision>, ghost fault: bool)
      requires Now() == Bracket(turn, true, 0, false)
      modifies this`log, signal
      ensures old(log) <= log
      ensures Now().Bracket? && Now() == Bracket(turn, true, Now().lastStep, false)
      ensures |ceilings| <= Now().lastStep <= |ceilings| + 1
      ensures failed <==> reason in {Aborted, Failed}
      ensures reason == Aborted ==> signal.cancelled
      // A rejection blocks the turn; a failed decision or step fails it.
      ensures reason == Blocked ==> verdict == Some(Reject)
      ensures !failed && verdict == Some(Reject) ==> reason == Blocked
      ensures verdict == Some(Fault) || fault ==> failed
      ensures reason == Failed ==> verdict == Some(Fault) || fault
      // It completes only with nothing more to enter, or after a step that entered something.
      ensures !failed ==> verdict.Some?
      ensures !failed && reason != Blocked ==> verdict.value.Enter? && (verdict.value.messages == [] || ceilings != [])
      ensures !failed && reason != Blocked && true in ceilings ==> reason == MaxTokens
      ensures !failed && reason != Blocked && true !in ceilings ==> reason == Completed
    {
      hide Brackets, Advance;
      var turnEnds: Option<TurnEndReason> := None;
      var turnStep := 0;
      ceilings, verdict, fault := [], None, false;
      while true
        invariant old(log) <= log && Now() == Bracket(turn, true, turnStep, false)
        invariant |ceilings| == turnStep <= patience && (verdict.None? || verdict.value.Enter?) && !fault
        invariant turnEnds == if true in ceilings then Some(MaxTokens) else if ceilings == [] then None else Some(Completed)
        decreases patience - turnStep
      {
        if turnStep == patience { signal.cancelled := true; }
        var err := signal.Err();
        if err { return Aborted, true, ceilings, verdict, fault; }
        Others();
        var decision: Decision := *;
        verdict := Some(decision);
        err := signal.Err();
        if err { return Aborted, true, ceilings, verdict, fault; }
        match decision
        case Fault => return Failed, true, ceilings, verdict, fault;
        case Reject => return Blocked, false, ceilings, verdict, fault;
        case Enter(messages) =>
        if turnEnds.Some? && |messages| == 0 { return turnEnds.value, false, ceilings, verdict, fault; }
        if turnStep == 0 && |messages| == 0 { return Completed, false, ceilings, verdict, fault; }
        err := signal.Err();
        if err { return Aborted, true, ceilings, verdict, fault; }
        var step := turnStep + 1;
        var refused: bool := *;
        if refused {
          fault := true;
          err := signal.Err();
          return if err then Aborted else Failed, true, ceilings, verdict, fault;
        }
        var accepted: nat :| accepted >= 0;
        var body: StepEnding := *;
        var ending := OpenStep(step, messages, accepted, body);
        fault := ending.StepFault?;
        err := signal.Err();
        if err { return Aborted, true, ceilings, verdict, fault; }
        if ending.StepFault? { return Failed, true, ceilings, verdict, fault; }
        turnEnds := Sticky(turnEnds, ending.Reason());
        ceilings := ceilings + [ending.maxTokens];
        var nextStepPending: bool := *;
        if !nextStepPending {
          Others();
          err := signal.Err();
          if err { return Aborted, true, ceilings, verdict, fault; }
          nextStepPending := *;
        }
        if !nextStepPending { return turnEnds.value, false, ceilings, verdict, fault; }
        turnStep := step;
      }
    }

    /** One turn: opened before anything is claimed, closed on every path. */
    method Turn(patience: nat, refused: bool) returns (cont: bool, failed: bool, ghost ceilings: seq<bool>)
      requires Closed()
      modifies this`log, this`turn, signal
      ensures old(log) <= log && (failed ==> !cont) && (old(signal.cancelled) ==> failed)
      ensures Closed()
      ensures turn == old(turn) ==> failed && log == old(log) && (refused || signal.cancelled)
      ensures refused ==> turn == old(turn)
      ensures turn != old(turn) ==>
        && turn == old(turn) + 1 && |log| > |old(log)| + 1 && log[|old(log)|] == TurnStart(turn)
        && log[|log| - 1].TurnEnd? && log[|log| - 1].turn == turn
        && (failed <==> log[|log| - 1].reason in {Aborted, Failed}) && (cont ==> log[|log| - 1].reason in {Completed, MaxTokens})
        // A step that hit the token ceiling ends the turn as such, whatever follows it.
        && (!failed && log[|log| - 1].reason != Blocked ==> log[|log| - 1].reason == if true in ceilings then MaxTokens else Completed)
    {
      var err := signal.Err();
      ceilings := [];
      if err { return false, true, ceilings; }
      if refused { return false, true, ceilings; }
      turn := turn + 1;
      Append(TurnStart(turn));
      var reason;
      ghost var verdict, fault;
      reason, failed, ceilings, verdict, fault := RunSteps(patience);
      Append(TurnEnd(turn, reason));
      if failed || reason == Blocked { return false, failed, ceilings; }
      cont := *;
    }

    /** A driver run: turns until the session quiesces, whatever the environment does. */
    method Kick(turns: nat, patience: nat) returns (failed: bool)
      requires Closed()
      modifies this`log, this`turn, signal
      ensures old(log) <= log && old(turn) <= turn && (!failed ==> old(turn) < turn)
      ensures Closed()
    {
      var left := turns;
      while true
        invariant old(log) <= log && old(turn) <= turn
        invariant Closed()
        decreases left
      {
        if left == 0 { signal.cancelled := true; }
        var cont;
        ghost var ceilings;
        var refused: bool := *;
        cont, failed, ceilings := Turn(patience, refused);
        if failed || !cont { return; }
        left := left - 1;
      }
    }
  }
}

/**
The wake-up protocol between concurrent senders, maintenance tasks and a retiring driver
(agentloop/driver.go).  `State` and `Label` are the protocol as a machine with one atomic
step per mutex section; `ReactLoopAgent` is the code of those sections, proved to take
exactly these steps.  No run is cancelled; claims, rejections, failures, refused splices
and withdrawals may happen at any moment.
 */
module WakeProtocol {
  import opened SessionLog
  import opened TurnBrackets

  type Id = string

  datatype Phase =
    | Idle(lastTurn: nat)
    | Maintenance(lastTurn: nat, wakeRequested: bool, ended: bool)
    | Running(turn: nat, wakeRequested: bool)

  /** Where the driver goroutine stands between its mutex sections. */
  datatype Loop = Absent | Between | InTurn(steps: nat) | Claimed(steps: nat, ids: set<Id>) | InStep(steps: nat) | Leaving(failed: bool)

  /** A waking Send: registered, then spliced or refused, then gone.  It is `late` when it found a
      maintenance task whose context had already ended. */
  datatype Stage = Registered | Spliced | Refused
  datatype Sender = Sender(id: Id, stage: Stage, late: bool)

  /** `inbox` holds the pending ids; `senders` the waking Sends on their way, `erasing` the other Sends
      that were refused and are about to erase the wake of their id, `restarts` the retired drivers
      and maintenance tasks on their way to wakeDriver.  `waking` and `parked` are history:
      the messages in the inbox that were sent to wake, and the ids whose wake a rejection or a
      failure consumed since they were last sent. */
  datatype State = State(
    phase: Phase, loop: Loop, pendingWakes: set<Id>, inbox: set<Id>, log: Log,
    senders: map<nat, Sender>, erasing: map<nat, Id>, restarts: nat, waking: set<Id>, parked: set<Id>)

  datatype Label =
    | SendLocked(token: nat, id: Id)
    | SendSpliced(token: nat)
    | SendRefused(token: nat)
    | SendForgotten(token: nat)
    | SendWakes(token: nat)
    | RestartWakes
    | Inject(id: Id)
    | InjectRefused(token: nat, id: Id)
    | InjectForgotten(token: nat)
    | Withdraw(id: Id)
    | BeginTurn
    | TurnRefused
    | Claim(ids: set<Id>)
    | Prune
    | Rejected
    | BeginStep
    | EndStep
    | EndTurn(reason: TurnEndReason, again: bool, failed: bool)
    | Retire
    | BeginMaintenance
    | FinishTask
    | EndMaintenance
    | Append(event: Event)

  /** What can take the wake of an id away: its message is in the inbox, so that a new Send is refused;
      a waking Send is before its splice; the driver has claimed the id but not yet pruned the pending
      wakes; another Send of the id was refused and is about to erase its wake. */
  predicate Held(s: State, id: Id) { id in s.inbox }

  predicate Sent(s: State, id: Id) { exists t :: t in s.senders && s.senders[t].id == id && !s.senders[t].stage.Spliced? }

  predicate Unpruned(s: State, id: Id) { s.loop.Claimed? && id in s.loop.ids }

  predicate Erasing(s: State, id: Id) { exists t :: t in s.erasing && s.erasing[t] == id }

  /** The guard a caller can check: a waking Send uses an id of which nothing of the above is left, and
      a Send that does not wake, accepted or refused, uses no id whose wake is pending. */
  predicate Careful(s: State, l: Label) {
    match l
    case SendLocked(_, id) => !Held(s, id) && !Sent(s, id) && !Unpruned(s, id) && !Erasing(s, id)
    case Inject(id) => id !in s.pendingWakes
    case InjectRefused(_, id) => id !in s.pendingWakes
    case _ => true
  }

  /** When a step may happen. */
  predicate Enabled(s: State, l: Label) {
    match l
    case SendLocked(t, id) => t !in s.senders
    case SendSpliced(t) => t in s.senders && s.senders[t].stage == Registered && s.senders[t].id !in s.inbox
    case SendRefused(t) => t in s.senders && s.senders[t].stage == Registered
    case SendForgotten(t) => t in s.senders && s.senders[t].stage == Refused
    case SendWakes(t) => t in s.senders && s.senders[t].stage == Spliced
    case RestartWakes => s.restarts > 0
    case Inject(id) => id !in s.inbox
    case InjectRefused(t, id) => t !in s.erasing
    case InjectForgotten(t) => t in s.erasing
    case Withdraw(id) => id in s.inbox
    case BeginTurn => s.phase.Running? && s.loop.Between?
    case TurnRefused => s.phase.Running? && s.loop.Between?
    case Claim(ids) => s.phase.Running? && s.loop.InTurn? && ids <= s.inbox
    case Prune => s.loop.Claimed?
    case Rejected => s.phase.Running? && s.loop.InTurn?
    case BeginStep => s.phase.Running? && s.loop.InTurn?
    case EndStep => s.phase.Running? && s.loop.InStep?
    case EndTurn(reason, again, failed) =>
      && s.phase.Running? && s.loop.InTurn?
      // The driver goes on exactly when input is pending, unless it failed, was rejected, or had
      // nothing to say in its first step.
      && (again ==> s.inbox != {} && !failed && reason != Blocked)
      && (!again ==> s.inbox == {} || failed || reason == Blocked || s.loop.steps == 0)
    case Retire => s.phase.Running? && s.loop.Leaving?
    case BeginMaintenance => s.phase.Idle?
    case FinishTask => s.phase.Maintenance?
    case EndMaintenance => s.phase.Maintenance? && s.phase.ended
    case Append(e) => !IsBoundary(e)
  }

  /** wakeDriver: start a driver when idle, latch the wake behind maintenance, and behind a running
      driver only for a late Send; otherwise the queue is left to the live driver. */
  function Woken(s: State, late: bool): State {
    match s.phase
    case Idle(lastTurn) => s.(phase := Running(lastTurn, false), loop := Between)
    case Maintenance(lastTurn, _, ended) => s.(phase := Maintenance(lastTurn, true, ended))
    case Running(turn, wakeRequested) => s.(phase := Running(turn, wakeRequested || late))
  }

  function Next(s: State, l: Label): State
    requires Enabled(s, l)
  {
    match l
    case SendLocked(t, id) =>
      s.(pendingWakes := s.pendingWakes + {id}, parked := s.parked - {id},
         senders := s.senders[t := Sender(id, Registered, s.phase.Maintenance? && s.phase.ended)])
    case SendSpliced(t) =>
      s.(inbox := s.inbox + {s.senders[t].id}, waking := s.waking + {s.senders[t].id},
         senders := s.senders[t := s.senders[t].(stage := Spliced)])
    case SendRefused(t) => s.(senders := s.senders[t := s.senders[t].(stage := Refused)])
    case SendForgotten(t) => s.(pendingWakes := s.pendingWakes - {s.senders[t].id}, senders := s.senders - {t})
    case SendWakes(t) => Woken(s.(senders := s.senders - {t}), s.senders[t].late)
    case RestartWakes => Woken(s.(restarts := s.restarts - 1), false)
    case Inject(id) => s.(inbox := s.inbox + {id})
    case InjectRefused(t, id) => s.(erasing := s.erasing[t := id])
    case InjectForgotten(t) => s.(pendingWakes := s.pendingWakes - {s.erasing[t]}, erasing := s.erasing - {t})
    case Withdraw(id) => s.(inbox := s.inbox - {id}, waking := s.waking - {id})
    case BeginTurn =>
      var turn := s.phase.turn + 1;
      s.(phase := s.phase.(turn := turn), loop := InTurn(0), log := s.log + [TurnStart(turn)])
    case TurnRefused => s.(loop := Leaving(true))
    case Claim(ids) => s.(inbox := s.inbox - ids, waking := s.waking - ids, loop := Claimed(s.loop.steps, ids))
    case Prune => s.(pendingWakes := s.pendingWakes - s.loop.ids, loop := InTurn(s.loop.steps))
    case Rejected => s.(pendingWakes := {}, parked := s.parked + s.pendingWakes)
    case BeginStep => s.(loop := InStep(s.loop.steps + 1), log := s.log + [StepStart(s.phase.turn, s.loop.steps + 1)])
    case EndStep => s.(loop := InTurn(s.loop.steps), log := s.log + [StepEnd(s.phase.turn, s.loop.steps)])
    case EndTurn(reason, again, failed) =>
      s.(phase := if again then s.phase.(wakeRequested := false) else s.phase,
         loop := if again then Between else Leaving(failed), log := s.log + [TurnEnd(s.phase.turn, reason)])
    case Retire =>
      var wakes := if s.loop.failed then {} else s.pendingWakes;
      var wake := (s.phase.wakeRequested || wakes != {}) && s.inbox != {};
      s.(phase := Idle(s.phase.turn), loop := Absent, pendingWakes := wakes,
         parked := if s.loop.failed then s.parked + s.pendingWakes else s.parked,
         restarts := if wake then s.restarts + 1 else s.restarts)
    case BeginMaintenance => s.(phase := Maintenance(s.phase.lastTurn, false, false))
    case FinishTask => s.(phase := s.phase.(ended := true))
    case EndMaintenance =>
      s.(phase := Idle(s.phase.lastTurn),
         restarts := if s.phase.wakeRequested && s.inbox != {} then s.restarts + 1 else s.restarts)
    case Append(e) => s.(log := s.log + [e])
  }

  /** The number of the last turn the phase knows of. */
  function LastTurn(p: Phase): nat {
    if p.Running? then p.turn else p.lastTurn
  }

  /** The driver lives exactly while the phase is running, and the log stands where they say. */
  predicate Inv(s: State) {
    && (s.phase.Running? <==> !s.loop.Absent?)
    && var b := Brackets(s.log);
       && b.Bracket?
       && b.lastTurn == LastTurn(s.phase)
       && b.open == (s.loop.InTurn? || s.loop.Claimed? || s.loop.InStep?)
       && b.stepOpen == s.loop.InStep?
       && (b.open ==> b.lastStep == s.loop.steps)
  }

  lemma NextKeepsInv(s: State, l: Label)
    requires Inv(s) && Enabled(s, l)
    ensures Inv(Next(s, l))
  {
    hide Brackets;
    var s' := Next(s, l);
    if |s'.log| > |s.log| {
      OneMore(s.log, s'.log[|s.log|]);
    }
  }

  /** Somebody is on the way to wakeDriver: the id's own Send, a restart, or a latched wake. */
  ghost predicate WakeComing(s: State, id: Id) {
    || s.restarts > 0
    || (s.phase.Maintenance? && s.phase.wakeRequested)
    || exists t :: t in s.senders && s.senders[t].id == id && s.senders[t].stage == Spliced
  }

  /** No stranding: while no driver runs, every pending wake still in the inbox has its wake coming. */
  ghost predicate WakeInv(s: State) {
    forall id :: !s.phase.Running? && id in s.pendingWakes && id in s.inbox ==> WakeComing(s, id)
  }

  lemma NextKeepsWakeInv(s: State, l: Label)
    requires Inv(s) && WakeInv(s) && Enabled(s, l) && Careful(s, l)
    ensures WakeInv(Next(s, l))
  {
    hide Brackets;
    var s' := Next(s, l);
    forall id | !s'.phase.Running? && id in s'.pendingWakes && id in s'.inbox
      ensures WakeComing(s', id)
    {
      if l.SendSpliced? && s.senders[l.token].id == id {
        assert s'.senders[l.token].stage == Spliced;
      } else if !s.phase.Running? && id in s.pendingWakes && id in s.inbox {
        assert WakeComing(s, id);
        if t :| t in s.senders && s.senders[t].id == id && s.senders[t].stage == Spliced {
          assert t in s'.senders ==> s'.senders[t] == s.senders[t];
        }
      }
    }
  }

  /** A wake that will be looked at or was consumed by a rejection or failure: pruning the claimed
      ids does not lose it. */
  predicate Owned(s: State, id: Id) {
    id in s.parked || (id in s.pendingWakes && !Unpruned(s, id))
  }

  predicate Unspliced(s: State, t: nat) { t in s.senders && !s.senders[t].stage.Spliced? }

  /** What careful ids add: a Send before its splice is the only one of its id, and its message is not
      in the inbox; what a refused Send is about to erase is no pending wake. */
  ghost predicate Apart(s: State) {
    && s.waking <= s.inbox
    && (forall t, u :: Unspliced(s, t) && Unspliced(s, u) && s.senders[t].id == s.senders[u].id ==> t == u)
    && (forall t :: Unspliced(s, t) ==> s.senders[t].id !in s.waking)
    && (forall t :: t in s.erasing ==> s.erasing[t] !in s.pendingWakes)
  }

  /** The wake of every waking message, and of every Send before its splice, is owned. */
  ghost predicate Accounted(s: State) {
    && (forall id :: id in s.waking ==> Owned(s, id))
    && (forall t :: t in s.senders && s.senders[t].stage.Registered? ==> Registering(s, s.senders[t].id))
  }

  predicate Registering(s: State, id: Id) {
    Owned(s, id) && (id in s.inbox ==> id !in s.pendingWakes)
  }

  lemma UnsplicedBefore(s: State, l: Label, t: nat)
    requires Enabled(s, l) && Unspliced(Next(s, l), t)
    ensures (l.SendLocked? && l.token == t && Next(s, l).senders[t].id == l.id)
         || (Unspliced(s, t) && !(l == SendSpliced(t)) && Next(s, l).senders[t].id == s.senders[t].id)
  {
  }

  lemma WakingBefore(s: State, l: Label)
    requires Enabled(s, l) && s.waking <= s.inbox
    ensures Next(s, l).waking <= Next(s, l).inbox
    ensures forall id :: id in Next(s, l).waking ==> id in s.waking || (l.SendSpliced? && id == s.senders[l.token].id)
  {
  }

  lemma PendingBefore(s: State, l: Label)
    requires Enabled(s, l)
    ensures forall id :: id in Next(s, l).pendingWakes ==> id in s.pendingWakes || (l.SendLocked? && id == l.id)
    ensures forall t :: t in Next(s, l).erasing ==>
      (t in s.erasing && Next(s, l).erasing[t] == s.erasing[t]) || (l.InjectRefused? && Next(s, l).erasing[t] == l.id)
  {
  }

  lemma CarefulSend(s: State, token: nat, id: Id)
    requires Careful(s, SendLocked(token, id))
    ensures id !in s.inbox && (forall t :: Unspliced(s, t) ==> s.senders[t].id != id) && (forall t :: t in s.erasing ==> s.erasing[t] != id)
  {
  }

  lemma NextKeepsApart(s: State, l: Label)
    requires Apart(s) && Enabled(s, l) && Careful(s, l)
    ensures Apart(Next(s, l))
  {
    var s' := Next(s, l);
    WakingBefore(s, l);
    PendingBefore(s, l);
    if l.SendLocked? { CarefulSend(s, l.token, l.id); }
    assert l.InjectRefused? ==> l.id !in s.pendingWakes;
    assert l.SendSpliced? ==> Unspliced(s, l.token);
    hide Next, Enabled, Careful, Unspliced;
    forall t, u | Unspliced(s', t) && Unspliced(s', u) && s'.senders[t].id == s'.senders[u].id ensures t == u {
      UnsplicedBefore(s, l, t);
      UnsplicedBefore(s, l, u);
    }
    forall t | Unspliced(s', t) ensures s'.senders[t].id !in s'.waking {
      UnsplicedBefore(s, l, t);
    }
  }

  lemma WakingStaysOwned(s: State, l: Label, id: Id)
    requires Inv(s) && Apart(s) && Accounted(s) && Enabled(s, l) && Careful(s, l) && id in Next(s, l).waking
    ensures Owned(Next(s, l), id)
  {
    hide Brackets;
    if l.SendSpliced? && id == s.senders[l.token].id {
      assert Registering(s, id);
    } else {
      assert id in s.waking && Owned(s, id);
      assert l.SendForgotten? ==> Unspliced(s, l.token) && s.senders[l.token].id != id;
    }
  }

  lemma LockKeepsRegistering(s: State, token: nat, sent: Id, id: Id)
    requires Enabled(s, SendLocked(token, sent)) && Careful(s, SendLocked(token, sent)) && (sent == id || Registering(s, id))
    ensures Registering(Next(s, SendLocked(token, sent)), id)
  {
  }

  lemma StepKeepsRegistering(s: State, l: Label, id: Id)
    requires Inv(s) && Enabled(s, l) && Careful(s, l) && !l.SendLocked? && Registering(s, id)
    requires l.SendForgotten? ==> s.senders[l.token].id != id
    requires l.SendSpliced? ==> s.senders[l.token].id != id
    requires l.InjectForgotten? ==> s.erasing[l.token] !in s.pendingWakes
    ensures Registering(Next(s, l), id)
  {
    hide Brackets;
  }

  lemma RegisteredStaysOwned(s: State, l: Label, t: nat)
    requires Inv(s) && Apart(s) && Accounted(s) && Enabled(s, l) && Careful(s, l)
    requires t in Next(s, l).senders && Next(s, l).senders[t].stage.Registered?
    ensures Registering(Next(s, l), Next(s, l).senders[t].id)
  {
    UnsplicedBefore(s, l, t);
    var id := Next(s, l).senders[t].id;
    if l.SendLocked? {
      assert t != l.token ==> s.senders[t].stage.Registered?;
      hide Next, Inv, Apart, Enabled, Careful, Registering;
      LockKeepsRegistering(s, l.token, l.id, id);
    } else {
      assert s.senders[t].stage.Registered? && s.senders[t].id == id;
      assert l.SendForgotten? || l.SendSpliced? ==> Unspliced(s, l.token) && l.token != t;
      hide Next, Inv, Enabled, Careful, Registering;
      StepKeepsRegistering(s, l, id);
    }
  }

  lemma NextKeepsAccounted(s: State, l: Label)
    requires Inv(s) && Apart(s) && Accounted(s) && Enabled(s, l) && Careful(s, l)
    ensures Accounted(Next(s, l))
  {
    hide Inv, Apart, Enabled, Careful, Next, Owned, Registering;
    var s' := Next(s, l);
    forall t | t in s'.senders && s'.senders[t].stage.Registered? ensures Registering(s', s'.senders[t].id) {
      RegisteredStaysOwned(s, l, t);
    }
    forall id | id in s'.waking ensures Owned(s', id) {
      WakingStaysOwned(s, l, id);
    }
  }

  // ----- Whole runs -----

  /** The state after a run, if every step of it could happen and, with `careful`, used its ids carefully. */
  function After(s: State, run: seq<Label>, careful: bool): Option<State> {
    if run == [] then Some(s)
    else
      var before, l := After(s, run[..|run| - 1], careful), run[|run| - 1];
      if before.Some? && Enabled(before.value, l) && (careful ==> Careful(before.value, l)) then Some(Next(before.value, l)) else None
  }

  /** A driver just built over a well-bracketed log and the inbox restored from it. */
  function Start(log: Log, inbox: set<Id>): State
    requires !Brackets(log).Broken? && !Brackets(log).open && !Brackets(log).stepOpen
  {
    State(Idle(Brackets(log).lastTurn), Absent, {}, inbox, log, map[], map[], 0, {}, {})
  }

  /** Every reachable log is well-bracketed: turn numbers stay consecutive across restarts and
      maintenance, and an idle agent's log has no open turn or step. */
  lemma {:induction false} RunsKeepBrackets(log: Log, inbox: set<Id>, run: seq<Label>, careful: bool)
    requires !Brackets(log).Broken? && !Brackets(log).open && !Brackets(log).stepOpen
    requires After(Start(log, inbox), run, careful).Some?
    ensures Inv(After(Start(log, inbox), run, careful).value)
  {
    if run != [] {
      RunsKeepBrackets(log, inbox, run[..|run| - 1], careful);
      NextKeepsInv(After(Start(log, inbox), run[..|run| - 1], careful).value, run[|run| - 1]);
    }
  }

  lemma {:induction false} RunsKeepWakes(log: Log, inbox: set<Id>, run: seq<Label>)
    requires !Brackets(log).Broken? && !Brackets(log).open && !Brackets(log).stepOpen
    requires After(Start(log, inbox), run, true).Some?
    ensures var s := After(Start(log, inbox), run, true).value;
            WakeInv(s) && Apart(s) && Accounted(s)
  {
    if run != [] {
      RunsKeepWakes(log, inbox, run[..|run| - 1]);
      RunsKeepBrackets(log, inbox, run[..|run| - 1], true);
      var s := After(Start(log, inbox), run[..|run| - 1], true).value;
      NextKeepsWakeInv(s, run[|run| - 1]);
      NextKeepsApart(s, run[|run| - 1]);
      NextKeepsAccounted(s, run[|run| - 1]);
    }
  }

  /** Nothing is on its way: the driver is idle, no Send and no restart is in progress. */
  predicate Quiescent(s: State) {
    s.phase.Idle? && s.restarts == 0 && s.senders == map[] && s.erasing == map[]
  }

  /** A waking message nobody will ever look at, although no rejection or failure consumed its wake. */
  predicate Stranded(s: State, id: Id) {
    Quiescent(s) && id in s.waking && id in s.inbox && id !in s.parked
  }

  /** With carefully chosen ids no run strands a waking message; an id may be used again as soon as
      it is nowhere in the system. */
  lemma NoRunStrands(log: Log, inbox: set<Id>, run: seq<Label>, id: Id)
    requires !Brackets(log).Broken? && !Brackets(log).open && !Brackets(log).stepOpen
    requires After(Start(log, inbox), run, true).Some?
    ensures !Stranded(After(Start(log, inbox), run, true).value, id)
  {
    RunsKeepWakes(log, inbox, run);
    var s := After(Start(log, inbox), run, true).value;
    assert id in s.pendingWakes && id in s.inbox && Quiescent(s) ==> WakeComing(s, id);
    assert id in s.waking ==> Owned(s, id);
  }

  // ----- A consumed wake wakes nobody -----

  /** A step never leaves a consumed wake pending, whatever ids are used. */
  lemma NextKeepsConsumed(s: State, l: Label)
    requires s.parked !! s.pendingWakes && Enabled(s, l)
    ensures Next(s, l).parked !! Next(s, l).pendingWakes
  {
  }

  /** In every run, careful or not, the wakes that a rejection or a failure consumed are not pending. */
  lemma {:induction false} RunsKeepConsumed(log: Log, inbox: set<Id>, run: seq<Label>, careful: bool)
    requires !Brackets(log).Broken? && !Brackets(log).open && !Brackets(log).stepOpen
    requires After(Start(log, inbox), run, careful).Some?
    ensures var s := After(Start(log, inbox), run, careful).value; s.parked !! s.pendingWakes
  {
    hide Brackets;
    if run != [] {
      RunsKeepConsumed(log, inbox, run[..|run| - 1], careful);
      NextKeepsConsumed(After(Start(log, inbox), run[..|run| - 1], careful).value, run[|run| - 1]);
    }
  }

  ghost predicate SendsNothing(run: seq<Label>) {
    forall i :: 0 <= i < |run| ==> !run[i].SendLocked?
  }

  /** Only a waking Send makes a wake pending. */
  lemma {:induction false} NoWakeAppears(s: State, run: seq<Label>)
    requires After(s, run, false).Some? && SendsNothing(run)
    ensures After(s, run, false).value.pendingWakes <= s.pendingWakes
  {
    if run != [] {
      assert SendsNothing(run[..|run| - 1]);
      NoWakeAppears(s, run[..|run| - 1]);
      PendingBefore(After(s, run[..|run| - 1], false).value, run[|run| - 1]);
    }
  }

  /** After a rejection and nothing sent since, a retiring driver is restarted only by a latched wake. */
  lemma RejectionIsNotRetried(s: State, run: seq<Label>)
    requires Enabled(s, Rejected) && SendsNothing(run) && After(Next(s, Rejected), run, false).Some?
    requires Enabled(After(Next(s, Rejected), run, false).value, Retire)
    ensures var r := After(Next(s, Rejected), run, false).value;
            Next(r, Retire).restarts == if r.phase.wakeRequested && r.inbox != {} then r.restarts + 1 else r.restarts
  {
    hide After;
    NoWakeAppears(Next(s, Rejected), run);
  }

  /** No driver runs and nobody is on the way to start one. */
  predicate Asleep(s: State) {
    && s.loop.Absent? && !s.phase.Running? && (s.phase.Maintenance? ==> !s.phase.wakeRequested)
    && s.restarts == 0 && s.senders == map[]
  }

  /** An agent at rest stays at rest until somebody sends to wake it. */
  lemma {:induction false} AsleepUntilSent(s: State, run: seq<Label>)
    requires Asleep(s) && SendsNothing(run) && After(s, run, false).Some?
    ensures Asleep(After(s, run, false).value)
  {
    if run != [] {
      assert SendsNothing(run[..|run| - 1]);
      AsleepUntilSent(s, run[..|run| - 1]);
      assert !run[|run| - 1].SendLocked?;
    }
  }

  /** A driver that fails without a latched wake stays down, whatever is pending, until the next waking Send:
      the failure is not retried. */
  lemma FailureIsNotRetried(s: State, run: seq<Label>)
    requires Enabled(s, Retire) && s.loop.failed && !s.phase.wakeRequested && s.restarts == 0 && s.senders == map[]
    requires SendsNothing(run) && After(Next(s, Retire), run, false).Some?
    ensures Asleep(After(Next(s, Retire), run, false).value)
  {
    hide After;
    AsleepUntilSent(Next(s, Retire), run);
  }

  /** A running driver's latch is set by a late Send alone and cleared by going on to another turn. */
  lemma LatchIsLate(s: State, l: Label)
    requires Enabled(s, l) && s.phase.Running? && Next(s, l).phase.Running?
    ensures Next(s, l).phase.wakeRequested <==>
      (s.phase.wakeRequested && !(l.EndTurn? && l.again)) || (l.SendWakes? && s.senders[l.token].late)
  {
  }

  /** A driver never starts with a wake latched, and the task it was latched behind is over. */
  lemma StartsUnlatched(s: State, l: Label)
    requires Inv(s) && Enabled(s, l) && !s.phase.Running? && Next(s, l).phase.Running?
    ensures s.phase.Idle? && (l.SendWakes? || l.RestartWakes?) && !Next(s, l).phase.wakeRequested && Next(s, l).loop == Between
  {
    hide Brackets;
  }

  // ----- Each part of the guard is needed -----

  /** The run is careful up to step k, sends nothing after it, and strands the message. */
  ghost predicate Strands(run: seq<Label>, k: nat, id: Id) {
    && k < |run| && After(Start([], {}), run[..k], true).Some?
    && (forall j :: k < j < |run| ==> !run[j].SendLocked? && !run[j].Inject? && !run[j].InjectRefused?)
    && var end := After(Start([], {}), run, false);
       end.Some? && Stranded(end.value, id)
  }

  lemma Then(s: State, run: seq<Label>, now: State, l: Label, careful: bool) returns (run': seq<Label>, now': State)
    requires After(s, run, careful) == Some(now) && Enabled(now, l) && (careful ==> Careful(now, l))
    ensures run' == run + [l] && now' == Next(now, l) && After(s, run', careful) == Some(now')
  {
    run', now' := run + [l], Next(now, l);
    assert run'[..|run|] == run;
  }

  lemma {:induction false} CarefulRunsAreRuns(s: State, run: seq<Label>)
    requires After(s, run, true).Some?
    ensures After(s, run, false) == After(s, run, true)
  {
    if run != [] { CarefulRunsAreRuns(s, run[..|run| - 1]); }
  }

  const FRESH := State(Idle(0), Absent, {}, {}, [], map[], map[], 0, {}, {})

  /** A driver in its first turn with "w" pending, and the same driver about to retire. */
  const IN_TURN := State(Running(1, false), InTurn(0), {"w"}, {"w"}, [TurnStart(1)], map[], map[], 0, {"w"}, {})
  const RETIRING := State(Running(1, false), Leaving(false), {}, {}, [TurnStart(1), TurnEnd(1, Completed)], map[], map[], 0, {}, {})

  lemma ReachInTurn() returns (run: seq<Label>)
    ensures After(FRESH, run, true) == Some(IN_TURN)
  {
    var now;
    assert !Sent(FRESH, "w");
    assert After(FRESH, [], true) == Some(FRESH);
    hide After, Brackets, Careful;
    assert Careful(FRESH, SendLocked(0, "w")) by { NowhereIsCareful(FRESH, 0, "w"); }
    OthersAreCareful();
    run, now := Then(FRESH, [], FRESH, SendLocked(0, "w"), true);
    assert now == FRESH.(pendingWakes := {"w"}, senders := map[0 := Sender("w", Registered, false)]);
    run, now := Then(FRESH, run, now, SendSpliced(0), true);
    assert now == FRESH.(pendingWakes := {"w"}, senders := map[0 := Sender("w", Spliced, false)], inbox := {"w"}, waking := {"w"});
    run, now := Then(FRESH, run, now, SendWakes(0), true);
    assert now.senders == map[];
    run, now := Then(FRESH, run, now, BeginTurn, true);
    assert now.log == [TurnStart(1)];
  }

  lemma NowhereIsCareful(s: State, t: nat, id: Id)
    requires id !in s.inbox && !s.loop.Claimed? && s.erasing == map[] && forall u :: u in s.senders ==> s.senders[u].id != id
    ensures Careful(s, SendLocked(t, id))
  {
  }

  lemma OthersAreCareful()
    ensures forall s: State, l: Label :: !l.SendLocked? && !l.Inject? && !l.InjectRefused? ==> Careful(s, l)
  {
  }

  lemma ReachRetiring() returns (run: seq<Label>)
    ensures After(FRESH, run, true) == Some(RETIRING)
  {
    hide After, Brackets, Careful;
    OthersAreCareful();
    var now := IN_TURN;
    run := ReachInTurn();
    run, now := Then(FRESH, run, now, Claim({"w"}), true);
    assert now == IN_TURN.(inbox := {}, waking := {}, loop := Claimed(0, {"w"}));
    run, now := Then(FRESH, run, now, Prune, true);
    assert now == IN_TURN.(inbox := {}, waking := {}, pendingWakes := {});
    run, now := Then(FRESH, run, now, EndTurn(Completed, false, false), true);
    assert now.log == [TurnStart(1), TurnEnd(1, Completed)];
  }

  /** The id is in the inbox: the second Send is refused and erases the wake of the first. */
  lemma PendingIdStrands() returns (run: seq<Label>, k: nat)
    ensures Strands(run, k, "m") && run[k] == SendLocked(2, "m")
    ensures var s := After(Start([], {}), run[..k], true).value;
            Held(s, "m") && !Sent(s, "m") && !Unpruned(s, "m") && !Erasing(s, "m")
  {
    run := ReachRetiring();
    hide After, Brackets, Careful;
    OthersAreCareful();
    var now := RETIRING;
    NowhereIsCareful(now, 1, "m");
    run, now := Then(FRESH, run, now, SendLocked(1, "m"), true);
    run, now := Then(FRESH, run, now, SendSpliced(1), true);
    run, now := Then(FRESH, run, now, SendWakes(1), true);
    ghost var careful, at := run, now;
    k := |run|;
    CarefulRunsAreRuns(FRESH, run);
    run, now := Then(FRESH, run, now, SendLocked(2, "m"), false);
    run, now := Then(FRESH, run, now, SendRefused(2), false);
    run, now := Then(FRESH, run, now, SendForgotten(2), false);
    run, now := Then(FRESH, run, now, Retire, false);
    Witness(careful, at, [SendLocked(2, "m"), SendRefused(2), SendForgotten(2), Retire], run, now, "m");
  }

  /** Another Send of the id is on its way: one of the two is refused and erases the wake of the other. */
  lemma RegisteredIdStrands() returns (run: seq<Label>, k: nat)
    ensures Strands(run, k, "m") && run[k] == SendLocked(2, "m")
    ensures var s := After(Start([], {}), run[..k], true).value;
            !Held(s, "m") && Sent(s, "m") && !Unpruned(s, "m") && !Erasing(s, "m")
  {
    run := ReachRetiring();
    hide After, Brackets, Careful;
    OthersAreCareful();
    var now := RETIRING;
    NowhereIsCareful(now, 1, "m");
    run, now := Then(FRESH, run, now, SendLocked(1, "m"), true);
    ghost var careful, at := run, now;
    k := |run|;
    CarefulRunsAreRuns(FRESH, run);
    assert now.senders[1].id == "m" && Sent(now, "m");
    run, now := Then(FRESH, run, now, SendLocked(2, "m"), false);
    run, now := Then(FRESH, run, now, SendSpliced(1), false);
    run, now := Then(FRESH, run, now, SendRefused(2), false);
    run, now := Then(FRESH, run, now, SendForgotten(2), false);
    run, now := Then(FRESH, run, now, SendWakes(1), false);
    run, now := Then(FRESH, run, now, Retire, false);
    Witness(careful, at, [SendLocked(2, "m"), SendSpliced(1), SendRefused(2), SendForgotten(2), SendWakes(1), Retire], run, now, "m");
  }

  /** The driver has claimed "w" and "m" and not yet pruned their wakes. */
  const CLAIMED := State(Running(1, false), Claimed(0, {"w", "m"}), {"w", "m"}, {}, [TurnStart(1)], map[], map[], 0, {}, {})

  lemma ReachClaimed() returns (run: seq<Label>)
    ensures After(FRESH, run, true) == Some(CLAIMED)
  {
    hide After, Brackets, Careful;
    OthersAreCareful();
    run := ReachInTurn();
    var now := IN_TURN;
    NowhereIsCareful(now, 1, "m");
    run, now := Then(FRESH, run, now, SendLocked(1, "m"), true);
    run, now := Then(FRESH, run, now, SendSpliced(1), true);
    run, now := Then(FRESH, run, now, SendWakes(1), true);
    assert now.senders == map[] && now.inbox == now.waking == {"w", "m"};
    run, now := Then(FRESH, run, now, Claim({"w", "m"}), true);
    assert now.pendingWakes == {"w", "m"} && now.inbox == now.waking == now.parked == {};
  }

  /** The id was claimed but not yet pruned: the pruning erases the wake of the new Send. */
  lemma UnprunedIdStrands() returns (run: seq<Label>, k: nat)
    ensures Strands(run, k, "m") && run[k] == SendLocked(2, "m")
    ensures var s := After(Start([], {}), run[..k], true).value;
            !Held(s, "m") && !Sent(s, "m") && Unpruned(s, "m") && !Erasing(s, "m")
  {
    run := ReachClaimed();
    hide After, Brackets, Careful;
    var now := CLAIMED;
    ghost var careful, at := run, now;
    k := |run|;
    CarefulRunsAreRuns(FRESH, run);
    run, now := Then(FRESH, run, now, SendLocked(2, "m"), false);
    run, now := Then(FRESH, run, now, Prune, false);
    run, now := Then(FRESH, run, now, EndTurn(Completed, false, false), false);
    assert now.senders == map[2 := Sender("m", Registered, false)];
    run, now := LeaveBehind(run, now, 2);
    Witness(careful, at, [SendLocked(2, "m"), Prune, EndTurn(Completed, false, false), SendSpliced(2), SendWakes(2), Retire], run, now, "m");
  }

  /** An injected message takes the id of a registered Send: claiming it erases that Send's wake. */
  lemma InjectedIdStrands() returns (run: seq<Label>, k: nat)
    ensures Strands(run, k, "m") && run[k] == Inject("m")
    ensures var s := After(Start([], {}), run[..k], true).value;
            "m" in s.pendingWakes
  {
    run := ReachInTurn();
    hide After, Brackets, Careful;
    OthersAreCareful();
    var now := IN_TURN;
    NowhereIsCareful(now, 1, "m");
    run, now := Then(FRESH, run, now, SendLocked(1, "m"), true);
    ghost var careful, at := run, now;
    k := |run|;
    CarefulRunsAreRuns(FRESH, run);
    run, now := Then(FRESH, run, now, Inject("m"), false);
    run, now := Then(FRESH, run, now, Claim({"w", "m"}), false);
    run, now := Then(FRESH, run, now, Prune, false);
    run, now := Then(FRESH, run, now, EndTurn(Completed, false, false), false);
    assert now.senders == map[1 := Sender("m", Registered, false)];
    run, now := LeaveBehind(run, now, 1);
    Witness(careful, at, [Inject("m"), Claim({"w", "m"}), Prune, EndTurn(Completed, false, false), SendSpliced(1), SendWakes(1), Retire], run, now, "m");
  }

  /** A Send that does not wake is refused while a wake of its id is pending: its cleanup erases that wake. */
  lemma RefusedInputStrands() returns (run: seq<Label>, k: nat)
    ensures Strands(run, k, "m") && run[k] == InjectRefused(7, "m")
    ensures "m" in After(Start([], {}), run[..k], true).value.pendingWakes
  {
    run := ReachRetiring();
    hide After, Brackets, Careful;
    OthersAreCareful();
    var now := RETIRING;
    NowhereIsCareful(now, 1, "m");
    run, now := Then(FRESH, run, now, SendLocked(1, "m"), true);
    run, now := Then(FRESH, run, now, SendSpliced(1), true);
    run, now := Then(FRESH, run, now, SendWakes(1), true);
    ghost var careful, at := run, now;
    k := |run|;
    CarefulRunsAreRuns(FRESH, run);
    run, now := Then(FRESH, run, now, InjectRefused(7, "m"), false);
    run, now := Then(FRESH, run, now, InjectForgotten(7), false);
    run, now := Then(FRESH, run, now, Retire, false);
    Witness(careful, at, [InjectRefused(7, "m"), InjectForgotten(7), Retire], run, now, "m");
  }

  /** The retiring driver, with a refused Send of "m" about to erase its wake. */
  const ERASING := RETIRING.(erasing := map[7 := "m"])

  lemma ReachErasing() returns (run: seq<Label>)
    ensures After(FRESH, run, true) == Some(ERASING)
  {
    run := ReachRetiring();
    assert Careful(RETIRING, InjectRefused(7, "m"));
    hide After, Brackets, Careful;
    var now;
    run, now := Then(FRESH, run, RETIRING, InjectRefused(7, "m"), true);
    assert now.erasing == map[7 := "m"];
  }

  lemma EraseSent(run: seq<Label>) returns (run': seq<Label>, end: State)
    requires After(FRESH, run, false) == Some(ERASING)
    ensures run' == run + [SendLocked(1, "m"), InjectForgotten(7), SendSpliced(1), SendWakes(1), Retire]
    ensures After(FRESH, run', false) == Some(end) && Stranded(end, "m")
  {
    hide After, Brackets, Careful, Stranded;
    run', end := Then(FRESH, run, ERASING, SendLocked(1, "m"), false);
    run', end := Then(FRESH, run', end, InjectForgotten(7), false);
    assert end == RETIRING.(senders := map[1 := Sender("m", Registered, false)]);
    run', end := LeaveBehind(run', end, 1);
  }

  /** A refused Send of the id is still about to erase its wake when the id is sent to wake. */
  lemma ErasedIdStrands() returns (run: seq<Label>, k: nat)
    ensures Strands(run, k, "m") && run[k] == SendLocked(1, "m")
    ensures var s := After(Start([], {}), run[..k], true).value;
            !Held(s, "m") && !Sent(s, "m") && !Unpruned(s, "m") && Erasing(s, "m")
  {
    run := ReachErasing();
    hide After, Brackets, Careful, Strands, Stranded;
    ghost var careful := run;
    k := |run|;
    CarefulRunsAreRuns(FRESH, run);
    var end;
    run, end := EraseSent(run);
    assert ERASING.erasing[7] == "m" && Erasing(ERASING, "m");
    Witness(careful, ERASING, [SendLocked(1, "m"), InjectForgotten(7), SendSpliced(1), SendWakes(1), Retire], run, end, "m");
  }

  /** The wake of a withdrawn message is still pending when its id comes in again without waking: the
      driver stays idle with a pending wake in the inbox and nobody on the way to it. */
  lemma LeftoverWakeIsNotComing() returns (run: seq<Label>)
    ensures After(Start([], {}), run, true).Some?
    ensures var s := After(Start([], {}), run, true).value;
            Enabled(s, Inject("m")) && "m" in s.pendingWakes && WakeInv(s) && !WakeInv(Next(s, Inject("m")))
  {
    run := ReachRetiring();
    hide After, Brackets, Careful;
    OthersAreCareful();
    var now := RETIRING;
    NowhereIsCareful(now, 1, "m");
    run, now := Then(FRESH, run, now, SendLocked(1, "m"), true);
    run, now := Then(FRESH, run, now, SendSpliced(1), true);
    run, now := Then(FRESH, run, now, SendWakes(1), true);
    run, now := Then(FRESH, run, now, Withdraw("m"), true);
    assert now.inbox == {};
    run, now := Then(FRESH, run, now, Retire, true);
    assert now.senders == map[] && now.restarts == 0 && "m" in now.pendingWakes;
    var after := Next(now, Inject("m"));
    assert "m" in after.inbox && !WakeComing(after, "m");
    FreshStart();
  }

  lemma FreshStart()
    ensures !Brackets([]).Broken? && !Brackets([]).open && !Brackets([]).stepOpen && Start([], {}) == FRESH
  {
  }

  /** A Send whose wake was erased splices its message while the driver retires. */
  lemma LeaveBehind(run: seq<Label>, now: State, t: nat) returns (run': seq<Label>, end: State)
    requires After(FRESH, run, false) == Some(now) && now.phase == Running(1, false) && now.loop == Leaving(false)
    requires now.pendingWakes == now.inbox == now.parked == {} && now.restarts == 0 && now.erasing == map[] && now.senders == map[t := Sender("m", Registered, false)]
    ensures run' == run + [SendSpliced(t), SendWakes(t), Retire] && After(FRESH, run', false) == Some(end) && Stranded(end, "m")
  {
    hide After, Brackets, Careful;
    run', end := Then(FRESH, run, now, SendSpliced(t), false);
    run', end := Then(FRESH, run', end, SendWakes(t), false);
    assert end.senders == map[];
    run', end := Then(FRESH, run', end, Retire, false);
  }

  lemma Witness(careful: seq<Label>, at: State, rest: seq<Label>, run: seq<Label>, end: State, id: Id)
    requires After(FRESH, careful, true) == Some(at) && rest != [] && run == careful + rest
    requires After(FRESH, run, false) == Some(end) && Stranded(end, id)
    requires forall j :: 0 < j < |rest| ==> !rest[j].SendLocked? && !rest[j].Inject? && !rest[j].InjectRefused?
    ensures Strands(run, |careful|, id) && run[..|careful|] == careful && run[|careful|] == rest[0]
    ensures After(Start([], {}), run[..|careful|], true) == Some(at)
  {
    assert Start([], {}) == FRESH;
    hide After;
    assert run[..|careful|] == careful;
    assert forall j :: |careful| < j < |run| ==> run[j] == rest[j - |careful|];
  }

  // ----- The mutex sections -----

  class ReactLoopAgent {
    var phase: Phase
    var pendingWakes: set<Id>
    var inbox: set<Id>
    var log: Log
    // Where the driver goroutine, the senders and the restarts stand, and the history of ids.
    ghost var loop: Loop
    ghost var senders: map<nat, Sender>
    ghost var erasing: map<nat, Id>
    ghost var restarts: nat
    ghost var waking: set<Id>
    ghost var parked: set<Id>

    ghost function Machine(): State
      reads this
    {
      State(phase, loop, pendingWakes, inbox, log, senders, erasing, restarts, waking, parked)
    }

    constructor (log: Log, inbox: set<Id>)
      requires !Brackets(log).Broken? && !Brackets(log).open && !Brackets(log).stepOpen
      ensures Machine() == Start(log, inbox)
    {
      var lastTurn := RecoverLastTurn(log);
      phase, pendingWakes, this.inbox, this.log := Idle(lastTurn), {}, inbox, log;
      loop, senders, erasing, restarts, waking, parked := Absent, map[], map[], 0, {}, {};
    }

    /** Send's locked section: the wake is registered before the message enters the inbox.  `late`
        says that the task it found had already ended. */
    method RegisterWake(ghost token: nat, id: Id) returns (late: bool)
      requires Enabled(Machine(), SendLocked(token, id))
      modifies this
      ensures Machine() == Next(old(Machine()), SendLocked(token, id)) && senders[token] == Sender(id, Registered, late)
    {
      late := phase.Maintenance? && phase.ended;
      pendingWakes := pendingWakes + {id};
      senders, parked := senders[token := Sender(id, Registered, late)], parked - {id};
    }

    /** Send's splice: a pending id is refused, and the session may be unwilling to append. */
    method SpliceMessage(ghost token: nat, id: Id, willing: bool) returns (accepted: bool)
      requires token in senders && senders[token].id == id && senders[token].stage == Registered
      modifies this
      ensures accepted <==> willing && id !in old(inbox)
      ensures Enabled(old(Machine()), if accepted then SendSpliced(token) else SendRefused(token))
      ensures Machine() == Next(old(Machine()), if accepted then SendSpliced(token) else SendRefused(token))
    {
      accepted := willing && id !in inbox;
      if accepted { inbox, waking := inbox + {id}, waking + {id}; }
      senders := senders[token := senders[token].(stage := if accepted then Spliced else Refused)];
    }

    /** After a refusal the id's wake is erased, whoever registered it. */
    method ForgetWake(ghost token: nat, id: Id)
      requires token in senders && senders[token].id == id && senders[token].stage == Refused
      modifies this
      ensures Machine() == Next(old(Machine()), SendForgotten(token))
    {
      pendingWakes := pendingWakes - {id};
      senders := senders - {token};
    }

    /** wakeDriver's locked section. */
    method WakeDriver(late: bool)
      modifies this
      ensures Machine() == Woken(old(Machine()), late)
    {
      if !phase.Idle? {
        var latch := phase.Maintenance? || late;
        if latch { phase := phase.(wakeRequested := true); }
        return;
      }
      phase := Running(phase.lastTurn, false);
      loop := Between;
    }

    /** The splice of a Send that does not wake. */
    method SpliceInput(ghost token: nat, id: Id, willing: bool) returns (accepted: bool)
      requires token !in erasing
      modifies this
      ensures accepted <==> willing && id !in old(inbox)
      ensures Enabled(old(Machine()), if accepted then Inject(id) else InjectRefused(token, id))
      ensures Machine() == Next(old(Machine()), if accepted then Inject(id) else InjectRefused(token, id))
    {
      accepted := willing && id !in inbox;
      if accepted { inbox := inbox + {id}; } else { erasing := erasing[token := id]; }
    }

    /** The cleanup after a refusal erases the id's wake even when this Send registered none. */
    method ForgetInput(ghost token: nat, id: Id)
      requires token in erasing && erasing[token] == id
      modifies this
      ensures Machine() == Next(old(Machine()), InjectForgotten(token))
    {
      pendingWakes := pendingWakes - {id};
      erasing := erasing - {token};
    }

    /** Send in full: register if it wakes, splice, and wake or forget. */
    method Send(ghost token: nat, id: Id, wakeup: bool, willing: bool) returns (accepted: bool)
      requires if wakeup then Enabled(Machine(), SendLocked(token, id)) else Enabled(Machine(), InjectRefused(token, id))
      modifies this
      ensures accepted <==> willing && id !in old(inbox)
      ensures wakeup ==>
        var s1 := Next(old(Machine()), SendLocked(token, id));
        if accepted then Enabled(s1, SendSpliced(token)) && Machine() == Next(Next(s1, SendSpliced(token)), SendWakes(token))
        else Machine() == Next(Next(s1, SendRefused(token)), SendForgotten(token))
      ensures !wakeup ==>
        if accepted then Enabled(old(Machine()), Inject(id)) && Machine() == Next(old(Machine()), Inject(id))
        else Machine() == Next(Next(old(Machine()), InjectRefused(token, id)), InjectForgotten(token))
    {
      if !wakeup {
        accepted := SpliceInput(token, id, willing);
        if !accepted { ForgetInput(token, id); }
        return;
      }
      var late := RegisterWake(token, id);
      accepted := SpliceMessage(token, id, willing);
      if !accepted {
        ForgetWake(token, id);
        return;
      }
      senders := senders - {token};
      WakeDriver(late);
    }

    /** The retiring driver's locked section; `wake` says that a restart is now on its way. */
    method RetireDriver(failed: bool) returns (wake: bool)
      requires phase.Running? && loop == Leaving(failed)
      modifies this
      ensures Machine() == Next(old(Machine()), Retire)
      ensures restarts == if wake then old(restarts) + 1 else old(restarts)
      // A failure consumes the pending wakes, so that only a latched one restarts the driver.
      ensures failed ==> pendingWakes == {} && parked == old(parked) + old(pendingWakes)
      ensures !failed ==> pendingWakes == old(pendingWakes)
      ensures wake <==> inbox != {} && (old(phase.wakeRequested) || (!failed && pendingWakes != {}))
    {
      parked := if failed then parked + pendingWakes else parked;
      if failed { pendingWakes := {}; }
      var wakeRequested := phase.wakeRequested;
      phase := Idle(phase.turn);
      wake := (wakeRequested || pendingWakes != {}) && inbox != {};
      loop, restarts := Absent, if wake then restarts + 1 else restarts;
    }

    /** The pre-step claim and the pruning of the claimed wakes. */
    method ClaimInput(ids: set<Id>)
      requires Enabled(Machine(), Claim(ids))
      modifies this
      ensures Machine() == Next(Next(old(Machine()), Claim(ids)), Prune)
      ensures ids !! inbox && ids !! pendingWakes
      ensures forall id :: id !in ids ==> (id in inbox <==> id in old(inbox)) && (id in pendingWakes <==> id in old(pendingWakes))
    {
      inbox, waking := inbox - ids, waking - ids;
      pendingWakes := pendingWakes - ids;
    }

    /** A rejection consumes the pending wakes; what is queued waits for the next waking Send. */
    method RejectInput()
      requires Enabled(Machine(), Rejected)
      modifies this
      ensures Machine() == Next(old(Machine()), Rejected)
      ensures pendingWakes == {} && old(pendingWakes) <= parked && inbox == old(inbox)
    {
      parked := parked + pendingWakes;
      pendingWakes := {};
    }

    method BeginTask() returns (started: bool)
      modifies this
      ensures started == old(phase).Idle?
      ensures Machine() == if started then Next(old(Machine()), BeginMaintenance) else old(Machine())
    {
      if !phase.Idle? { return false; }
      phase := Maintenance(phase.lastTurn, false, false);
      return true;
    }

    /** The task's context ends before the second locked section. */
    method CancelTask()
      requires phase.Maintenance?
      modifies this
      ensures Machine() == Next(old(Machine()), FinishTask)
    {
      phase := phase.(ended := true);
    }

    method EndTask() returns (wake: bool)
      requires phase.Maintenance? && phase.ended
      modifies this
      ensures Machine() == Next(old(Machine()), EndMaintenance)
      ensures restarts == if wake then old(restarts) + 1 else old(restarts)
      ensures wake <==> old(phase.wakeRequested) && inbox != {}
    {
      var wakeRequested := phase.wakeRequested;
      phase := Idle(phase.lastTurn);
      wake := wakeRequested && inbox != {};
      restarts := if wake then restarts + 1 else restarts;
    }
  }
}

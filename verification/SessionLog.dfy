/**
The append-only session log shared by every component of the host: an event's
seq is its position in the log, and surface events say how they join the
ordered model-visible surface.
 */
module SessionLog {

  datatype Option<+T> = None | Some(value: T)

  datatype Result<+T, +E> = Ok(value: T) | Err(error: E)

  predicate Distinct<T(==)>(s: seq<T>) {
    forall i, j :: 0 <= i < j < |s| ==> s[i] != s[j]
  }

  function Min(a: int, b: int): int { if a < b then a else b }

  function Max(a: int, b: int): int { if a < b then b else a }

  /** One identified user-role message; one that is not `textOnly` also carries images or files. */
  datatype Message = Message(id: string, text: string, textOnly: bool := true)

  /** The two pending-message lists of an agent inbox. */
  datatype Target = NextTurn | NextStep

  /** One normalized mutation of a pending-message list, as it is persisted. */
  datatype Splice = Splice(target: Target, start: int, removedCount: Option<int>, inserted: seq<Message>, canceled: bool)

  /** What one tool call produced, after its ordered finalization. */
  datatype ToolOutcome = ToolOutcome(content: string, isError: bool, concludesTurn: bool, contexts: seq<Message>)

  /** How a turn ended; `Unset` is the kind-less reason of a turn that assigned none. */
  datatype TurnEndReason = Unset | Completed | MaxTokens | Blocked | Aborted | Failed

  datatype SurfaceOp = AppendOp | ReplaceOp(start: nat, end: nat)

  datatype Event =
    | TurnStart(turn: nat)
    | TurnEnd(turn: nat, reason: TurnEndReason)
    | StepStart(turn: nat, step: nat)
    | StepEnd(turn: nat, step: nat)
    | UserMessage(message: Message, op: SurfaceOp, sources: seq<nat>)
    | AssistantMessage(text: string, toolCalls: nat, op: SurfaceOp, sources: seq<nat>)
    | ToolCall(turn: nat, step: nat, callId: string)
    | ToolResult(turn: nat, step: nat, callId: string, outcome: ToolOutcome, op: SurfaceOp, sources: seq<nat>)
    | InboxSpliced(splice: Splice)
    | CompactionStart(compaction: nat, owner: Option<nat>)
    | CompactionSummary(compaction: nat, start: nat, end: nat, shadowed: seq<nat>)
    | CompactionEnd(compaction: nat, owner: Option<nat>, failed: bool)
    | EndSeed
    | Other

  type Log = seq<Event>

  /** A cancellation signal: once it reports a cancellation it always does. */
  class Signal {
    var cancelled: bool

    /** The environment may cancel at any moment before the answer is read. */
    method Err() returns (err: bool)
      modifies this
      ensures err == cancelled
      ensures old(cancelled) ==> cancelled
    {
      var now: bool := *;
      err := Poll(now);
    }

    /** The answer when the environment has, or has not, cancelled by now. */
    method Poll(now: bool) returns (err: bool)
      modifies this
      ensures err == cancelled == (old(cancelled) || now)
    {
      cancelled := cancelled || now;
      err := cancelled;
    }
  }
}

/**
The compaction lock (compactionbasic/region.go): a durable compaction/start without a later
compaction/end blocks further starts until a seed boundary opens a new session lifecycle.
 */
module CompactionLock {
  import opened SessionLog
  import TurnBrackets

  /** The last compaction marker, when it is a start. */
  function UnmatchedStart(log: Log): Option<nat> {
    if log == [] then None
    else match log[|log| - 1]
      case CompactionStart(_, _) => Some(|log| - 1)
      case CompactionEnd(_, _, _) => None
      case _ => UnmatchedStart(log[..|log| - 1])
  }

  function LatestSeed(log: Log): Option<nat> {
    if log == [] then None
    else if log[|log| - 1].EndSeed? then Some(|log| - 1)
    else LatestSeed(log[..|log| - 1])
  }

  /** No compaction of the current session lifecycle is open. */
  predicate Inactive(log: Log) {
    var start, seed := UnmatchedStart(log), LatestSeed(log);
    start.None? || (seed.Some? && seed.value > start.value)
  }

  predicate Closes(e: Event) {
    e.CompactionEnd? || e.EndSeed?
  }

  /** Any two starts are separated by an end or a seed boundary. */
  ghost predicate Separated(log: Log) {
    forall p, q :: 0 <= p < q < |log| && log[p].CompactionStart? && log[q].CompactionStart? ==>
      exists m :: p < m < q && Closes(log[m])
  }

  lemma {:induction false} LastMarker(log: Log)
    ensures var start := UnmatchedStart(log);
            if start.None? then forall p :: 0 <= p < |log| && log[p].CompactionStart? ==> exists m :: p < m < |log| && Closes(log[m])
            else start.value < |log| && forall p :: 0 <= p < |log| && log[p].CompactionStart? ==> p <= start.value
  {
    if log != [] {
      var init, last := log[..|log| - 1], |log| - 1;
      LastMarker(init);
      if log[last].CompactionEnd? {
        assert Closes(log[last]);
      } else if !log[last].CompactionStart? && UnmatchedStart(init).None? {
        forall p | 0 <= p < |log| && log[p].CompactionStart? ensures exists m :: p < m < |log| && Closes(log[m]) {
          var m :| p < m < |init| && Closes(init[m]);
          assert Closes(log[m]);
        }
      }
    }
  }

  lemma {:induction false} LatestSeedIsSeed(log: Log)
    ensures LatestSeed(log).Some? ==> LatestSeed(log).value < |log| && log[LatestSeed(log).value].EndSeed?
  {
    if log != [] {
      LatestSeedIsSeed(log[..|log| - 1]);
    }
  }

  /** Every start of an inactive log is followed by an end or a seed boundary. */
  lemma InactiveIsClosed(log: Log, p: nat)
    requires Inactive(log) && p < |log| && log[p].CompactionStart?
    ensures exists m :: p < m < |log| && Closes(log[m])
  {
    LastMarker(log);
    LatestSeedIsSeed(log);
    if UnmatchedStart(log).Some? { assert Closes(log[LatestSeed(log).value]); }
  }

  lemma ClosedLater(log: Log, more: Log, p: nat, q: nat)
    requires exists m :: p < m < q <= |log| && Closes(log[m])
    ensures exists m :: p < m < q && Closes((log + more)[m])
  {
    var m :| p < m < q <= |log| && Closes(log[m]);
    assert (log + more)[m] == log[m];
  }

  /** A start appended to an inactive log keeps all starts separated. */
  lemma StartKeepsSeparated(log: Log, e: Event)
    requires Separated(log) && Inactive(log)
    ensures Separated(log + [e])
  {
    hide Inactive, Closes;
    var later := log + [e];
    forall p, q | 0 <= p < q < |later| && later[p].CompactionStart? && later[q].CompactionStart?
      ensures exists m :: p < m < q && Closes(later[m])
    {
      assert later[p] == log[p];
      if q < |log| {
        assert later[q] == log[q];
        ClosedLater(log, [e], p, q);
      } else {
        InactiveIsClosed(log, p);
        ClosedLater(log, [e], p, |log|);
      }
    }
  }

  lemma {:induction false} SinceUnmatchedStart(log: Log)
    ensures var start := UnmatchedStart(log);
            start.Some? ==>
              && start.value < |log| && log[start.value].CompactionStart?
              && forall m :: start.value < m < |log| ==> !log[m].CompactionEnd?
  {
    if log != [] { SinceUnmatchedStart(log[..|log| - 1]); }
  }

  lemma {:induction false} LatestSeedIsLatest(log: Log, m: nat)
    requires m < |log| && log[m].EndSeed?
    ensures LatestSeed(log).Some? && LatestSeed(log).value >= m
  {
    if !log[|log| - 1].EndSeed? { LatestSeedIsLatest(log[..|log| - 1], m); }
  }

  /** A start keeps all starts separated exactly when the lock is inactive where it lands: the
      check must still hold at the append. */
  lemma StartSeparatesIffInactive(log: Log, start: Event)
    requires start.CompactionStart?
    ensures Separated(log + [start]) <==> Separated(log) && Inactive(log)
  {
    var later := log + [start];
    if Separated(log) && Inactive(log) {
      StartKeepsSeparated(log, start);
    }
    if Separated(later) {
      forall p, q | 0 <= p < q < |log| && log[p].CompactionStart? && log[q].CompactionStart?
        ensures exists m :: p < m < q && Closes(log[m])
      {
        assert later[p] == log[p] && later[q] == log[q];
        var m :| p < m < q && Closes(later[m]);
        assert Closes(log[m]);
      }
      SinceUnmatchedStart(log);
      if UnmatchedStart(log).Some? {
        var p := UnmatchedStart(log).value;
        assert later[p] == log[p] && later[|log|] == start;
        var m :| p < m < |log| && Closes(later[m]);
        assert Closes(log[m]);
        LatestSeedIsLatest(log, m);
      }
    }
  }

  /** Two transactions that both saw the lock inactive on the same log collide: their starts are not
      separated. */
  lemma RacingStartsCollide(log: Log, a: Event, b: Event)
    requires Inactive(log) && a.CompactionStart? && b.CompactionStart?
    ensures !Separated(log + [a] + [b])
  {
    var later, n := log + [a] + [b], |log|;
    assert later[n] == a && later[n + 1] == b;
  }

  /** Nothing but a start takes the lock. */
  lemma OthersKeepInactive(log: Log, e: Event)
    requires Inactive(log) && !e.CompactionStart?
    ensures Inactive(log + [e])
  {
    assert (log + [e])[..|log|] == log;
    SinceUnmatchedStart(log);
  }

  lemma StartIsOld(log: Log, more: Log, q: nat)
    requires q < |log + more| && (log + more)[q].CompactionStart? && forall i :: 0 <= i < |more| ==> !more[i].CompactionStart?
    ensures q < |log| && (log + more)[q] == log[q]
  {
  }

  /** Appending anything but a start keeps all starts separated. */
  lemma OthersKeepSeparated(log: Log, more: Log)
    requires Separated(log) && forall i :: 0 <= i < |more| ==> !more[i].CompactionStart?
    ensures Separated(log + more)
  {
    hide Closes;
    var later := log + more;
    forall p, q | 0 <= p < q < |later| && later[p].CompactionStart? && later[q].CompactionStart?
      ensures exists m :: p < m < q && Closes(later[m])
    {
      StartIsOld(log, more, q);
      StartIsOld(log, more, p);
      ClosedLater(log, more, p, q);
    }
  }

  datatype EntryState = EntryState(openTurn: Option<nat>, unmatchedStart: Option<nat>, latestEndSeed: Option<nat>)

  /** One backward scan for three independent facts. */
  method InspectEntryState(log: Log) returns (state: EntryState)
    ensures state == EntryState(TurnBrackets.OpenTurn(log), UnmatchedStart(log), LatestSeed(log))
  {
    state := EntryState(None, None, None);
    var turnKnown, compactionKnown := false, false;
    var index := |log| - 1;
    assert log[..|log|] == log;
    while index >= 0
      invariant -1 <= index < |log|
      invariant TurnBrackets.OpenTurn(log) == if turnKnown then state.openTurn else TurnBrackets.OpenTurn(log[..index + 1])
      invariant UnmatchedStart(log) == if compactionKnown then state.unmatchedStart else UnmatchedStart(log[..index + 1])
      invariant LatestSeed(log) == if state.latestEndSeed.Some? then state.latestEndSeed else LatestSeed(log[..index + 1])
      invariant (!turnKnown ==> state.openTurn.None?) && (!compactionKnown ==> state.unmatchedStart.None?)
    {
      var event := log[index];
      assert log[..index + 1][..index] == log[..index];
      if state.latestEndSeed.None? && event.EndSeed? {
        state := state.(latestEndSeed := Some(index));
      }
      if !compactionKnown {
        if event.CompactionStart? {
          state := state.(unmatchedStart := Some(index));
          compactionKnown := true;
        } else if event.CompactionEnd? {
          compactionKnown := true;
        }
      }
      if !turnKnown {
        if event.TurnStart? {
          state := state.(openTurn := Some(event.turn));
          turnKnown := true;
        } else if event.TurnEnd? {
          turnKnown := true;
        }
      }
      if turnKnown && compactionKnown && state.latestEndSeed.Some? { break; }
      index := index - 1;
    }
  }

  /** A new lifecycle over a seed marks its boundary, so an abandoned start no longer blocks. */
  lemma SeedReleasesTheLock(log: Log)
    requires Separated(log)
    ensures Inactive(log + [EndSeed]) && Separated(log + [EndSeed])
  {
    assert (log + [EndSeed])[..|log|] == log;
    LastMarker(log);
    OthersKeepSeparated(log, [EndSeed]);
  }
}

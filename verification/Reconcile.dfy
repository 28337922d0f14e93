/**
Reconciling workspace instructions with the files on the host (agentinstructions/state.go): which
transitions a pass emits, with and without the version cache, and what a second pass emits.
 */
module Reconcile {
  import opened SessionLog
  import opened Grouping

  datatype Action = Set | Replace | Remove

  datatype Change = Change(action: Action, scope: string, path: string, digest: string)

  /** The per-scope metadata cache entry. */
  datatype VersionState = VersionState(path: string, version: string, digest: string, trimmedDigest: string)

  type Versions = map<string, VersionState>

  /** What the model was last told about each scope. */
  type Effective = map<string, Change>

  /** What the host shows for a scope; `content` is None when the file cannot be read. */
  datatype Probe = Unavailable | Absent | Present(absolutePath: string, displayPath: string, version: string, content: Option<string>)

  datatype Host = Host(probe: string -> Probe, digest: string -> string, trimmedDigest: string -> string)

  /** One emitted change, the content rendered for it and its cache update. */
  datatype Transition = Transition(change: Change, content: string, state: Option<VersionState>)

  predicate Active(effective: Effective, scope: string) {
    scope in effective && effective[scope].action != Remove
  }

  function Removal(scope: string, path: string): Transition {
    Transition(Change(Remove, scope, path, ""), "", None)
  }

  function RemovalIfActive(effective: Effective, scope: string): seq<Transition> {
    if Active(effective, scope) then [Removal(scope, effective[scope].path)] else []
  }

  // ----- The transitions a pass should emit, read straight from the files -----

  /** What one directory has shown so far: absolute paths across all directories, and the trimmed
      digests kept in this one. */
  datatype Marks = Marks(seen: set<string>, kept: set<string>)

  /** A present file not met under another name before, and readable. */
  predicate Fresh(host: Host, scope: string, m: Marks) {
    var p := host.probe(scope);
    p.Present? && p.absolutePath !in m.seen && p.content.Some?
  }

  function Marked(host: Host, scope: string, m: Marks): Marks {
    var p := host.probe(scope);
    if !p.Present? then m
    else
      var seen := m.seen + {p.absolutePath};
      if Fresh(host, scope, m) then Marks(seen, m.kept + {host.trimmedDigest(p.content.value)}) else Marks(seen, m.kept)
  }

  function Emitted(host: Host, effective: Effective, scope: string, m: Marks): seq<Transition> {
    var p := host.probe(scope);
    if p.Absent? then RemovalIfActive(effective, scope)
    else if !Fresh(host, scope, m) then []
    else
      var content := p.content.value;
      var digest, trimmed := host.digest(content), host.trimmedDigest(content);
      if trimmed in m.kept then RemovalIfActive(effective, scope)
      else if Active(effective, scope) && effective[scope].path == p.displayPath && effective[scope].digest == digest then []
      else [Transition(Change(if Active(effective, scope) then Replace else Set, scope, p.displayPath, digest), content,
                       Some(VersionState(p.displayPath, p.version, digest, trimmed)))]
  }

  /** An active member of a directory cannot be observed: the whole directory keeps its last state. */
  predicate Blocked(host: Host, effective: Effective, scopes: seq<string>) {
    exists i :: 0 <= i < |scopes| && host.probe(scopes[i]).Unavailable? && Active(effective, scopes[i])
  }

  function EmittedAll(host: Host, effective: Effective, scopes: seq<string>, m: Marks): seq<Transition> {
    if scopes == [] then []
    else Emitted(host, effective, scopes[0], m) + EmittedAll(host, effective, scopes[1..], Marked(host, scopes[0], m))
  }

  function MarkedAll(host: Host, scopes: seq<string>, m: Marks): Marks {
    if scopes == [] then m else MarkedAll(host, scopes[1..], Marked(host, scopes[0], m))
  }

  function RemovedAll(effective: Effective, scopes: seq<string>): seq<Transition> {
    if scopes == [] then [] else RemovalIfActive(effective, scopes[0]) + RemovedAll(effective, scopes[1..])
  }

  /** The scopes of one directory: those excluded from the baseline, and those to probe. */
  datatype Group = Group(excluded: seq<string>, probed: seq<string>)

  function GroupTransitions(host: Host, effective: Effective, g: Group, seen: set<string>): seq<Transition> {
    RemovedAll(effective, g.excluded)
      + if Blocked(host, effective, g.probed) then [] else EmittedAll(host, effective, g.probed, Marks(seen, {}))
  }

  function SeenAfter(host: Host, effective: Effective, g: Group, seen: set<string>): set<string> {
    if Blocked(host, effective, g.probed) then seen else MarkedAll(host, g.probed, Marks(seen, {})).seen
  }

  function Transitions(host: Host, effective: Effective, groups: seq<Group>, seen: set<string>): seq<Transition> {
    if groups == [] then []
    else GroupTransitions(host, effective, groups[0], seen) + Transitions(host, effective, groups[1..], SeenAfter(host, effective, groups[0], seen))
  }

  // ----- What the transitions say -----

  /** A removal names the path last told for its scope; anything else tells the probed file as it is,
      as a replacement exactly when the scope is active, and only if that is news. */
  predicate Truthful(host: Host, effective: Effective, t: Transition) {
    var scope, p := t.change.scope, host.probe(t.change.scope);
    if t.change.action == Remove then
      Active(effective, scope) && t.change.path == effective[scope].path && t.change.digest == "" && t.content == "" && t.state == None
    else
      && p.Present? && p.content == Some(t.content) && t.change.path == p.displayPath && t.change.digest == host.digest(t.content)
      && t.state == Some(VersionState(p.displayPath, p.version, host.digest(t.content), host.trimmedDigest(t.content)))
      && (t.change.action == Replace <==> Active(effective, scope))
      && (Active(effective, scope) ==> effective[scope].path != p.displayPath || effective[scope].digest != host.digest(t.content))
  }

  ghost predicate AllTruthful(host: Host, effective: Effective, out: seq<Transition>) {
    forall k :: 0 <= k < |out| ==> Truthful(host, effective, out[k])
  }

  lemma {:induction false} EmittedAreTruthful(host: Host, effective: Effective, scopes: seq<string>, m: Marks)
    ensures AllTruthful(host, effective, EmittedAll(host, effective, scopes, m))
  {
    hide Marked, MarkedAll;
    if scopes != [] {
      assert AllTruthful(host, effective, Emitted(host, effective, scopes[0], m));
      hide Emitted, Truthful;
      EmittedAreTruthful(host, effective, scopes[1..], Marked(host, scopes[0], m));
    }
  }

  lemma {:induction false} RemovedAreTruthful(host: Host, effective: Effective, scopes: seq<string>)
    ensures AllTruthful(host, effective, RemovedAll(effective, scopes))
  {
    if scopes != [] {
      assert AllTruthful(host, effective, RemovalIfActive(effective, scopes[0]));
      hide Truthful, RemovalIfActive;
      RemovedAreTruthful(host, effective, scopes[1..]);
    }
  }

  /** Every transition of a whole pass is truthful. */
  lemma {:induction false} TransitionsAreTruthful(host: Host, effective: Effective, groups: seq<Group>, seen: set<string>)
    ensures AllTruthful(host, effective, Transitions(host, effective, groups, seen))
  {
    hide Truthful, EmittedAll, RemovedAll, SeenAfter, Blocked;
    if groups != [] {
      RemovedAreTruthful(host, effective, groups[0].excluded);
      EmittedAreTruthful(host, effective, groups[0].probed, Marks(seen, {}));
      TransitionsAreTruthful(host, effective, groups[1..], SeenAfter(host, effective, groups[0], seen));
    }
  }

  /** The model knows about the scope what there is to know: nothing active for an absent file or for a
      second copy of a content in one directory, else the file's path and digest.  A file that cannot be
      observed or read, or was met under another scope, says nothing. */
  predicate Settled(host: Host, effective: Effective, scope: string, m: Marks) {
    match host.probe(scope)
    case Unavailable => true
    case Absent => !Active(effective, scope)
    case Present(absolutePath, displayPath, _, content) =>
      absolutePath !in m.seen && content.Some? ==>
        if host.trimmedDigest(content.value) in m.kept then !Active(effective, scope)
        else Active(effective, scope) && effective[scope].path == displayPath && effective[scope].digest == host.digest(content.value)
  }

  ghost predicate SettledAll(host: Host, effective: Effective, scopes: seq<string>, m: Marks) {
    forall i :: 0 <= i < |scopes| ==> Settled(host, effective, scopes[i], MarkedAll(host, scopes[..i], m))
  }

  lemma SettledTail(host: Host, effective: Effective, scopes: seq<string>, m: Marks)
    requires scopes != []
    ensures SettledAll(host, effective, scopes, m) <==>
      Settled(host, effective, scopes[0], m) && SettledAll(host, effective, scopes[1..], Marked(host, scopes[0], m))
  {
    hide Settled, Marked;
    var rest, m' := scopes[1..], Marked(host, scopes[0], m);
    assert MarkedAll(host, scopes[..0], m) == m;
    forall i | 0 < i < |scopes| ensures scopes[i] == rest[i - 1] && MarkedAll(host, scopes[..i], m) == MarkedAll(host, rest[..i - 1], m') {
      assert scopes[..i][0] == scopes[0] && scopes[..i][1..] == rest[..i - 1];
    }
    if SettledAll(host, effective, scopes, m) {
      forall j | 0 <= j < |rest| ensures Settled(host, effective, rest[j], MarkedAll(host, rest[..j], m')) {
        assert Settled(host, effective, scopes[j + 1], MarkedAll(host, scopes[..j + 1], m));
      }
    }
  }

  lemma {:induction false} EmitsNothingIffSettled(host: Host, effective: Effective, scopes: seq<string>, m: Marks)
    ensures EmittedAll(host, effective, scopes, m) == [] <==> SettledAll(host, effective, scopes, m)
  {
    if scopes != [] {
      SettledTail(host, effective, scopes, m);
      assert Emitted(host, effective, scopes[0], m) == [] <==> Settled(host, effective, scopes[0], m);
      hide Emitted, Settled, Marked, SettledAll;
      EmitsNothingIffSettled(host, effective, scopes[1..], Marked(host, scopes[0], m));
    }
  }

  lemma {:induction false} RemovesNothingIffInactive(effective: Effective, scopes: seq<string>)
    ensures RemovedAll(effective, scopes) == [] <==> forall i :: 0 <= i < |scopes| ==> !Active(effective, scopes[i])
  {
    if scopes != [] {
      hide Active;
      RemovesNothingIffInactive(effective, scopes[1..]);
      assert forall i :: 1 <= i < |scopes| ==> scopes[i] == scopes[1..][i - 1];
    }
  }

  /** Something the model was told about cannot be observed now. */
  ghost predicate Hidden(host: Host, effective: Effective, scopes: seq<string>) {
    exists scope :: scope in scopes && host.probe(scope) == Unavailable && scope in effective && effective[scope].action in {Set, Replace}
  }

  lemma BlockedIsHidden(host: Host, effective: Effective, scopes: seq<string>)
    ensures Blocked(host, effective, scopes) <==> Hidden(host, effective, scopes)
  {
    if Blocked(host, effective, scopes) {
      var i :| 0 <= i < |scopes| && host.probe(scopes[i]).Unavailable? && Active(effective, scopes[i]);
      assert scopes[i] in scopes && effective[scopes[i]].action in {Set, Replace};
    }
    if Hidden(host, effective, scopes) {
      var scope :| scope in scopes && host.probe(scope) == Unavailable && scope in effective && effective[scope].action in {Set, Replace};
      var i :| 0 <= i < |scopes| && scopes[i] == scope;
      assert Active(effective, scopes[i]);
    }
  }

  /** A directory with such a member leaves no trace: the pass goes on as if it had not been there. */
  lemma HiddenDirectoryLeavesNoTrace(host: Host, effective: Effective, probed: seq<string>, rest: seq<Group>, seen: set<string>)
    requires Hidden(host, effective, probed)
    ensures Transitions(host, effective, [Group([], probed)] + rest, seen) == Transitions(host, effective, rest, seen)
  {
    BlockedIsHidden(host, effective, probed);
    hide Blocked;
    var groups := [Group([], probed)] + rest;
    assert groups[1..] == rest && RemovedAll(effective, []) == [];
    assert GroupTransitions(host, effective, groups[0], seen) == [];
  }

  /** Every directory is settled, except that a blocked one keeps what it had. */
  ghost predicate PassSettled(host: Host, effective: Effective, groups: seq<Group>, seen: set<string>) {
    groups == [] || (
      && (forall i :: 0 <= i < |groups[0].excluded| ==> !Active(effective, groups[0].excluded[i]))
      && (Hidden(host, effective, groups[0].probed) || SettledAll(host, effective, groups[0].probed, Marks(seen, {})))
      && PassSettled(host, effective, groups[1..], SeenAfter(host, effective, groups[0], seen)))
  }

  /** A pass is silent iff the model is up to date. */
  lemma {:induction false} SilentIffSettled(host: Host, effective: Effective, groups: seq<Group>, seen: set<string>)
    ensures Transitions(host, effective, groups, seen) == [] <==> PassSettled(host, effective, groups, seen)
  {
    hide Blocked, SeenAfter, SettledAll, EmittedAll, RemovedAll, Active, Hidden;
    if groups != [] {
      BlockedIsHidden(host, effective, groups[0].probed);
      RemovesNothingIffInactive(effective, groups[0].excluded);
      EmitsNothingIffSettled(host, effective, groups[0].probed, Marks(seen, {}));
      SilentIffSettled(host, effective, groups[1..], SeenAfter(host, effective, groups[0], seen));
    }
  }

  /** The file of scope i is the first one met at its path, and readable. */
  ghost predicate FirstReadable(host: Host, scopes: seq<string>, m: Marks, i: nat) {
    && i < |scopes| && host.probe(scopes[i]).Present? && host.probe(scopes[i]).content.Some? && host.probe(scopes[i]).absolutePath !in m.seen
    && forall j :: 0 <= j < i && host.probe(scopes[j]).Present? ==> host.probe(scopes[j]).absolutePath != host.probe(scopes[i]).absolutePath
  }

  /** What the marks remember: every path met, and the trimmed digest of every file read. */
  lemma {:induction false} MarksMean(host: Host, scopes: seq<string>, m: Marks)
    ensures forall path :: path in MarkedAll(host, scopes, m).seen <==>
      path in m.seen || exists i :: 0 <= i < |scopes| && host.probe(scopes[i]).Present? && host.probe(scopes[i]).absolutePath == path
    ensures forall d :: d in MarkedAll(host, scopes, m).kept <==>
      d in m.kept || exists i: nat :: FirstReadable(host, scopes, m, i) && host.trimmedDigest(host.probe(scopes[i]).content.value) == d
  {
    if scopes != [] {
      var n := |scopes| - 1;
      var init, last := scopes[..n], scopes[n];
      MarksMean(host, init, m);
      MarkedLast(host, init, last, m);
      assert init + [last] == scopes;
      var before := MarkedAll(host, init, m);
      assert last == scopes[n];
      assert forall i: nat :: i < n ==> (FirstReadable(host, scopes, m, i) <==> FirstReadable(host, init, m, i)) && scopes[i] == init[i];
      assert FirstReadable(host, scopes, m, n) <==> Fresh(host, last, before);
      hide MarkedAll, FirstReadable;
      forall d | d in before.kept && d !in m.kept
        ensures exists i: nat :: FirstReadable(host, scopes, m, i) && host.trimmedDigest(host.probe(scopes[i]).content.value) == d
      {
        var i: nat :| FirstReadable(host, init, m, i) && host.trimmedDigest(host.probe(init[i]).content.value) == d;
        assert i < n by { FirstIsInRange(host, init, m, i); }
        assert FirstReadable(host, scopes, m, i);
      }
      forall i: nat | FirstReadable(host, scopes, m, i)
        ensures host.probe(scopes[i]).content.Some? && host.trimmedDigest(host.probe(scopes[i]).content.value) in MarkedAll(host, scopes, m).kept
      {
        FirstIsInRange(host, scopes, m, i);
        if i < n { assert FirstReadable(host, init, m, i); }
      }
    }
  }

  lemma FirstIsInRange(host: Host, scopes: seq<string>, m: Marks, i: nat)
    requires FirstReadable(host, scopes, m, i)
    ensures i < |scopes| && host.probe(scopes[i]).Present? && host.probe(scopes[i]).content.Some?
  {
  }

  lemma {:induction false} MarkedLast(host: Host, scopes: seq<string>, last: string, m: Marks)
    ensures MarkedAll(host, scopes + [last], m) == Marked(host, last, MarkedAll(host, scopes, m))
  {
    hide Marked;
    if scopes == [] {
      assert scopes + [last] == [last] && [last][1..] == [];
    } else {
      assert (scopes + [last])[1..] == scopes[1..] + [last];
      MarkedLast(host, scopes[1..], last, Marked(host, scopes[0], m));
    }
  }

  // ----- A second pass -----

  function Scopes(g: Group): seq<string> {
    g.excluded + g.probed
  }

  function AllScopes(groups: seq<Group>): seq<string> {
    if groups == [] then [] else Scopes(groups[0]) + AllScopes(groups[1..])
  }

  predicate SameAt(a: Effective, b: Effective, scope: string) {
    (scope in a <==> scope in b) && (scope in a ==> a[scope] == b[scope])
  }

  /** The transitions that were not applied. */
  function Unapplied(out: seq<Transition>, applied: set<Change>): seq<Transition> {
    if out == [] then []
    else (if out[0].change in applied then [] else [out[0]]) + Unapplied(out[1..], applied)
  }

  /** On these scopes, `later` is `effective` with the applied transitions of `out`. */
  ghost predicate Advanced(effective: Effective, later: Effective, out: seq<Transition>, applied: set<Change>, scopes: seq<string>) {
    forall i :: 0 <= i < |scopes| ==> AdvancedAt(effective, later, out, applied, scopes[i])
  }

  ghost predicate AdvancedAt(effective: Effective, later: Effective, out: seq<Transition>, applied: set<Change>, scope: string) {
    if exists k :: 0 <= k < |out| && out[k].change.scope == scope && out[k].change in applied
    then exists k :: 0 <= k < |out| && out[k].change.scope == scope && out[k].change in applied && scope in later && later[scope] == out[k].change
    else SameAt(effective, later, scope)
  }

  /** Every transition is about one of the scopes. */
  ghost predicate About(out: seq<Transition>, scopes: seq<string>) {
    forall k :: 0 <= k < |out| ==> out[k].change.scope in scopes
  }

  /** One scope: applied transitions are not emitted again, the others are. */
  lemma EmittedAgain(host: Host, effective: Effective, later: Effective, scope: string, m: Marks, applied: set<Change>)
    requires AdvancedAt(effective, later, Emitted(host, effective, scope, m), applied, scope)
    ensures Emitted(host, later, scope, m) == Unapplied(Emitted(host, effective, scope, m), applied)
    ensures About(Emitted(host, effective, scope, m), [scope])
  {
    var out := Emitted(host, effective, scope, m);
    assert |out| <= 1 && (|out| == 1 ==> out[0].change.scope == scope);
    if |out| == 1 {
      assert out[1..] == [];
      assert Unapplied(out, applied) == if out[0].change in applied then [] else [out[0]];
    }
  }

  lemma RemovedAgain(effective: Effective, later: Effective, scope: string, applied: set<Change>)
    requires AdvancedAt(effective, later, RemovalIfActive(effective, scope), applied, scope)
    ensures RemovalIfActive(later, scope) == Unapplied(RemovalIfActive(effective, scope), applied)
  {
    var out := RemovalIfActive(effective, scope);
    if |out| == 1 {
      assert out[1..] == [];
      assert Unapplied(out, applied) == if out[0].change in applied then [] else [out[0]];
    }
  }

  lemma {:induction false} UnappliedConcat(a: seq<Transition>, b: seq<Transition>, applied: set<Change>)
    ensures Unapplied(a + b, applied) == Unapplied(a, applied) + Unapplied(b, applied)
  {
    if a == [] {
      assert a + b == b;
    } else {
      assert (a + b)[1..] == a[1..] + b;
      UnappliedConcat(a[1..], b, applied);
    }
  }

  /** A scope's fate is decided by the part of the output that is about it. */
  lemma AdvancedPart(effective: Effective, later: Effective, a: seq<Transition>, b: seq<Transition>, applied: set<Change>, scope: string)
    requires AdvancedAt(effective, later, a + b, applied, scope)
    ensures (forall k :: 0 <= k < |b| ==> b[k].change.scope != scope) ==> AdvancedAt(effective, later, a, applied, scope)
    ensures (forall k :: 0 <= k < |a| ==> a[k].change.scope != scope) ==> AdvancedAt(effective, later, b, applied, scope)
  {
    var out := a + b;
    assert forall k :: 0 <= k < |a| ==> out[k] == a[k];
    assert forall k :: 0 <= k < |b| ==> out[|a| + k] == b[k];
  }

  lemma AdvancedSplit(effective: Effective, later: Effective, a: seq<Transition>, b: seq<Transition>, applied: set<Change>, x: seq<string>, y: seq<string>)
    requires Distinct(x + y) && About(a, x) && About(b, y) && Advanced(effective, later, a + b, applied, x + y)
    ensures Advanced(effective, later, a, applied, x) && Advanced(effective, later, b, applied, y)
  {
    hide AdvancedAt;
    forall i | 0 <= i < |x| ensures AdvancedAt(effective, later, a, applied, x[i]) {
      assert (x + y)[i] == x[i];
      OnlyAbout(b, y, x[i], x, i);
      AdvancedPart(effective, later, a, b, applied, x[i]);
    }
    forall i | 0 <= i < |y| ensures AdvancedAt(effective, later, b, applied, y[i]) {
      assert (x + y)[|x| + i] == y[i];
      OnlyAboutFirst(a, x, y, i);
      AdvancedPart(effective, later, a, b, applied, y[i]);
    }
  }

  lemma OnlyAbout(b: seq<Transition>, y: seq<string>, scope: string, x: seq<string>, i: nat)
    requires Distinct(x + y) && About(b, y) && i < |x| && x[i] == scope
    ensures forall k :: 0 <= k < |b| ==> b[k].change.scope != scope
  {
    forall k | 0 <= k < |b| ensures b[k].change.scope != scope {
      var j :| 0 <= j < |y| && y[j] == b[k].change.scope;
      assert (x + y)[i] != (x + y)[|x| + j];
    }
  }

  lemma OnlyAboutFirst(a: seq<Transition>, x: seq<string>, y: seq<string>, i: nat)
    requires Distinct(x + y) && About(a, x) && i < |y|
    ensures forall k :: 0 <= k < |a| ==> a[k].change.scope != y[i]
  {
    forall k | 0 <= k < |a| ensures a[k].change.scope != y[i] {
      var j :| 0 <= j < |x| && x[j] == a[k].change.scope;
      assert (x + y)[j] != (x + y)[|x| + i];
    }
  }

  lemma DistinctParts(x: seq<string>, y: seq<string>)
    requires Distinct(x + y)
    ensures Distinct(x) && Distinct(y)
  {
    forall i, j | 0 <= i < j < |y| ensures y[i] != y[j] { assert (x + y)[|x| + i] != (x + y)[|x| + j]; }
    forall i, j | 0 <= i < j < |x| ensures x[i] != x[j] { assert (x + y)[i] != (x + y)[j]; }
  }

  lemma AboutConcat(a: seq<Transition>, b: seq<Transition>, x: seq<string>, y: seq<string>)
    requires About(a, x) && About(b, y)
    ensures About(a + b, x + y)
  {
  }

  lemma {:induction false} EmittedAreAbout(host: Host, effective: Effective, scopes: seq<string>, m: Marks)
    ensures About(EmittedAll(host, effective, scopes, m), scopes)
  {
    if scopes != [] {
      hide Marked;
      EmittedAreAbout(host, effective, scopes[1..], Marked(host, scopes[0], m));
      AboutConcat(Emitted(host, effective, scopes[0], m), EmittedAll(host, effective, scopes[1..], Marked(host, scopes[0], m)), [scopes[0]], scopes[1..]);
      assert [scopes[0]] + scopes[1..] == scopes;
    }
  }

  lemma {:induction false} RemovedAreAbout(effective: Effective, scopes: seq<string>)
    ensures About(RemovedAll(effective, scopes), scopes)
  {
    if scopes != [] {
      RemovedAreAbout(effective, scopes[1..]);
      AboutConcat(RemovalIfActive(effective, scopes[0]), RemovedAll(effective, scopes[1..]), [scopes[0]], scopes[1..]);
      assert [scopes[0]] + scopes[1..] == scopes;
    }
  }

  lemma {:induction false} EmittedAllAgain(host: Host, effective: Effective, later: Effective, scopes: seq<string>, m: Marks, applied: set<Change>)
    requires Distinct(scopes) && Advanced(effective, later, EmittedAll(host, effective, scopes, m), applied, scopes)
    ensures EmittedAll(host, later, scopes, m) == Unapplied(EmittedAll(host, effective, scopes, m), applied)
  {
    if scopes != [] {
      hide Marked, Emitted, AdvancedAt, Unapplied;
      var first, rest, m' := scopes[0], scopes[1..], Marked(host, scopes[0], m);
      var a, b := Emitted(host, effective, first, m), EmittedAll(host, effective, rest, m');
      assert [first] + rest == scopes;
      DistinctParts([first], rest);
      EmittedIsAbout(host, effective, first, m);
      EmittedAreAbout(host, effective, rest, m');
      AdvancedSplit(effective, later, a, b, applied, [first], rest);
      assert AdvancedAt(effective, later, a, applied, [first][0]);
      EmittedAgain(host, effective, later, first, m, applied);
      EmittedAllAgain(host, effective, later, rest, m', applied);
      UnappliedConcat(a, b, applied);
    }
  }

  lemma EmittedIsAbout(host: Host, effective: Effective, scope: string, m: Marks)
    ensures About(Emitted(host, effective, scope, m), [scope])
  {
  }

  lemma {:induction false} RemovedAllAgain(effective: Effective, later: Effective, scopes: seq<string>, applied: set<Change>)
    requires Distinct(scopes) && Advanced(effective, later, RemovedAll(effective, scopes), applied, scopes)
    ensures RemovedAll(later, scopes) == Unapplied(RemovedAll(effective, scopes), applied)
  {
    if scopes != [] {
      hide RemovalIfActive, AdvancedAt, Unapplied;
      var first, rest := scopes[0], scopes[1..];
      var a, b := RemovalIfActive(effective, first), RemovedAll(effective, rest);
      assert [first] + rest == scopes;
      DistinctParts([first], rest);
      assert About(a, [first]) by { RemovalIsAbout(effective, first); }
      RemovedAreAbout(effective, rest);
      AdvancedSplit(effective, later, a, b, applied, [first], rest);
      assert AdvancedAt(effective, later, a, applied, [first][0]);
      RemovedAgain(effective, later, first, applied);
      RemovedAllAgain(effective, later, rest, applied);
      UnappliedConcat(a, b, applied);
    }
  }

  lemma RemovalIsAbout(effective: Effective, scope: string)
    ensures About(RemovalIfActive(effective, scope), [scope])
  {
  }

  /** A directory is blocked in both passes or in neither: scopes that cannot be observed emit nothing. */
  lemma BlockedAgain(host: Host, effective: Effective, later: Effective, scopes: seq<string>, m: Marks, applied: set<Change>)
    requires Distinct(scopes)
    requires Advanced(effective, later, if Blocked(host, effective, scopes) then [] else EmittedAll(host, effective, scopes, m), applied, scopes)
    ensures Blocked(host, later, scopes) <==> Blocked(host, effective, scopes)
  {
    var out := if Blocked(host, effective, scopes) then [] else EmittedAll(host, effective, scopes, m);
    forall i | 0 <= i < |scopes| && host.probe(scopes[i]).Unavailable? ensures SameAt(effective, later, scopes[i]) {
      if !Blocked(host, effective, scopes) { UnobservedEmitsNothing(host, effective, scopes, m, scopes[i]); }
      assert AdvancedAt(effective, later, out, applied, scopes[i]);
    }
    assert forall i :: 0 <= i < |scopes| && host.probe(scopes[i]).Unavailable? ==> (Active(later, scopes[i]) <==> Active(effective, scopes[i]));
  }

  lemma {:induction false} UnobservedEmitsNothing(host: Host, effective: Effective, scopes: seq<string>, m: Marks, scope: string)
    requires host.probe(scope).Unavailable?
    ensures forall k :: 0 <= k < |EmittedAll(host, effective, scopes, m)| ==> EmittedAll(host, effective, scopes, m)[k].change.scope != scope
  {
    if scopes != [] {
      hide Marked;
      UnobservedEmitsNothing(host, effective, scopes[1..], Marked(host, scopes[0], m), scope);
    }
  }

  lemma GroupAgain(host: Host, effective: Effective, later: Effective, g: Group, seen: set<string>, applied: set<Change>)
    requires Distinct(Scopes(g)) && Advanced(effective, later, GroupTransitions(host, effective, g, seen), applied, Scopes(g))
    ensures GroupTransitions(host, later, g, seen) == Unapplied(GroupTransitions(host, effective, g, seen), applied)
    ensures SeenAfter(host, later, g, seen) == SeenAfter(host, effective, g, seen)
  {
    hide Blocked, EmittedAll, RemovedAll, MarkedAll, Advanced;
    var m := Marks(seen, {});
    var a := RemovedAll(effective, g.excluded);
    var b := if Blocked(host, effective, g.probed) then [] else EmittedAll(host, effective, g.probed, m);
    DistinctParts(g.excluded, g.probed);
    RemovedAreAbout(effective, g.excluded);
    EmittedAreAbout(host, effective, g.probed, m);
    assert About([], g.probed);
    AdvancedSplit(effective, later, a, b, applied, g.excluded, g.probed);
    RemovedAllAgain(effective, later, g.excluded, applied);
    BlockedAgain(host, effective, later, g.probed, m, applied);
    if !Blocked(host, effective, g.probed) { EmittedAllAgain(host, effective, later, g.probed, m, applied); }
    UnappliedConcat(a, b, applied);
  }

  lemma GroupIsAbout(host: Host, effective: Effective, g: Group, seen: set<string>)
    ensures About(GroupTransitions(host, effective, g, seen), Scopes(g))
  {
    hide Blocked, EmittedAll, RemovedAll;
    RemovedAreAbout(effective, g.excluded);
    EmittedAreAbout(host, effective, g.probed, Marks(seen, {}));
  }

  lemma {:induction false} TransitionsAreAbout(host: Host, effective: Effective, groups: seq<Group>, seen: set<string>)
    ensures About(Transitions(host, effective, groups, seen), AllScopes(groups))
  {
    if groups != [] {
      hide GroupTransitions, SeenAfter, Scopes;
      GroupIsAbout(host, effective, groups[0], seen);
      TransitionsAreAbout(host, effective, groups[1..], SeenAfter(host, effective, groups[0], seen));
    }
  }

  /** A second pass over unchanged files emits exactly the transitions that were not applied. */
  lemma {:induction false} SecondPass(host: Host, effective: Effective, later: Effective, groups: seq<Group>, seen: set<string>, applied: set<Change>)
    requires Distinct(AllScopes(groups))
    requires Advanced(effective, later, Transitions(host, effective, groups, seen), applied, AllScopes(groups))
    ensures Transitions(host, later, groups, seen) == Unapplied(Transitions(host, effective, groups, seen), applied)
  {
    if groups != [] {
      hide GroupTransitions, SeenAfter, Scopes, Advanced, Unapplied;
      var g, rest, seen' := groups[0], groups[1..], SeenAfter(host, effective, groups[0], seen);
      var a, b := GroupTransitions(host, effective, g, seen), Transitions(host, effective, rest, seen');
      DistinctParts(Scopes(g), AllScopes(rest));
      GroupIsAbout(host, effective, g, seen);
      TransitionsAreAbout(host, effective, rest, seen');
      AdvancedSplit(effective, later, a, b, applied, Scopes(g), AllScopes(rest));
      GroupAgain(host, effective, later, g, seen, applied);
      SecondPass(host, effective, later, rest, seen', applied);
      UnappliedConcat(a, b, applied);
    }
  }

  // ----- The pass with its version cache -----

  datatype Run = Run(versions: Versions, out: seq<Transition>, marks: Marks)

  /** The cache vouches for the file: unchanged since it was told to the model. */
  predicate Hit(versions: Versions, effective: Effective, scope: string, p: Probe) {
    && p.Present? && scope in versions && Active(effective, scope)
    && versions[scope].path == p.displayPath == effective[scope].path && versions[scope].version == p.version
    && versions[scope].digest == effective[scope].digest
  }

  function Drop(versions: Versions, scope: string): Versions {
    versions - {scope}
  }

  /** A file read or vouched for, with the given digests. */
  function Keep(effective: Effective, scope: string, content: string, next: VersionState, r: Run): Run {
    var kept := r.(marks := r.marks.(kept := r.marks.kept + {next.trimmedDigest}));
    if next.trimmedDigest in r.marks.kept then
      if Active(effective, scope) then r.(out := r.out + [Removal(scope, effective[scope].path)]) else r.(versions := Drop(r.versions, scope))
    else if Active(effective, scope) && effective[scope].path == next.path && effective[scope].digest == next.digest then
      kept.(versions := r.versions[scope := next])
    else
      var action := if Active(effective, scope) then Replace else Set;
      kept.(out := r.out + [Transition(Change(action, scope, next.path, next.digest), content, Some(next))])
  }

  function Step(host: Host, effective: Effective, scope: string, r: Run): Run {
    var p := host.probe(scope);
    match p
    case Unavailable => r
    case Absent =>
      if Active(effective, scope) then r.(out := r.out + [Removal(scope, effective[scope].path)]) else r.(versions := Drop(r.versions, scope))
    case Present(absolutePath, displayPath, version, content) =>
      if absolutePath in r.marks.seen then r
      else
        var r' := r.(marks := r.marks.(seen := r.marks.seen + {absolutePath}));
        if Hit(r.versions, effective, scope, p) then
          Keep(effective, scope, "", r.versions[scope], r')
        else if content.None? then r'
        else
          Keep(effective, scope, content.value,
               VersionState(displayPath, version, host.digest(content.value), host.trimmedDigest(content.value)), r')
  }

  /** Forget what the directory did: its emissions and paths, and the cache entries it had before. */
  function Undo(start: Run, group: seq<string>, r: Run): Run {
    Run(r.versions + (map scope | scope in start.versions && scope in group :: start.versions[scope]), start.out, Marks(start.marks.seen, {}))
  }

  function FoldGroup(host: Host, effective: Effective, scopes: seq<string>, group: seq<string>, start: Run, r: Run): Run
    decreases |scopes|
  {
    if scopes == [] then r
    else if host.probe(scopes[0]).Unavailable? && Active(effective, scopes[0]) then Undo(start, group, r)
    else FoldGroup(host, effective, scopes[1..], group, start, Step(host, effective, scopes[0], r))
  }

  function Exclude(effective: Effective, scopes: seq<string>, r: Run): Run
    decreases |scopes|
  {
    if scopes == [] then r
    else if Active(effective, scopes[0]) then Exclude(effective, scopes[1..], r.(out := r.out + [Removal(scopes[0], effective[scopes[0]].path)]))
    else Exclude(effective, scopes[1..], r.(versions := Drop(r.versions, scopes[0])))
  }

  function RunGroup(host: Host, effective: Effective, g: Group, r: Run): Run {
    var start := Exclude(effective, g.excluded, r.(marks := Marks(r.marks.seen, {})));
    FoldGroup(host, effective, g.probed, g.probed, start, start)
  }

  function RunGroups(host: Host, effective: Effective, groups: seq<Group>, r: Run): Run
    decreases |groups|
  {
    if groups == [] then r else RunGroups(host, effective, groups[1..], RunGroup(host, effective, groups[0], r))
  }

  // ----- The cache changes nothing -----

  /** A version stamp of a scope determines its file's content. */
  ghost predicate Faithful(host: Host, stamped: (string, string) -> string) {
    forall scope :: var p := host.probe(scope);
      p.Present? && p.content.Some? ==> p.content.value == stamped(scope, p.version)
  }

  /** The entry records the digests of the content its stamp names. */
  predicate Records(host: Host, stamped: (string, string) -> string, scope: string, state: VersionState) {
    state.digest == host.digest(stamped(scope, state.version)) && state.trimmedDigest == host.trimmedDigest(stamped(scope, state.version))
  }

  /** The entry stands for a file that is present under its path and stamp but can no longer be read. */
  predicate Vouches(host: Host, scope: string, state: VersionState) {
    var p := host.probe(scope);
    p.Present? && p.content.None? && state.path == p.displayPath && state.version == p.version
  }

  predicate SoundAt(host: Host, stamped: (string, string) -> string, scope: string, state: VersionState) {
    Records(host, stamped, scope, state) && !Vouches(host, scope, state)
  }

  /** Every entry records the content its stamp names, and none stands for an unreadable file. */
  ghost predicate Sound(host: Host, stamped: (string, string) -> string, versions: Versions) {
    forall scope :: scope in versions ==> SoundAt(host, stamped, scope, versions[scope])
  }

  /** The pass is about to trust the cache for a file it could not read. */
  predicate Blind(host: Host, effective: Effective, scope: string, r: Run) {
    var p := host.probe(scope);
    p.Present? && p.absolutePath !in r.marks.seen && p.content.None? && Hit(r.versions, effective, scope, p)
  }

  /** One scope: with recorded digests, the pass does what reading the file would do, exactly unless
      it trusts the cache for a file that cannot be read. */
  lemma StepIgnoresTheCache(host: Host, stamped: (string, string) -> string, effective: Effective, scope: string, r: Run)
    requires scope in r.versions ==> Records(host, stamped, scope, r.versions[scope])
    requires Faithful(host, stamped)
    ensures var r' := Step(host, effective, scope, r);
            r'.out == r.out + Emitted(host, effective, scope, r.marks) && r'.marks == Marked(host, scope, r.marks) <==> !Blind(host, effective, scope, r)
  {
    var p, r' := host.probe(scope), Step(host, effective, scope, r);
    assert r.out + [] == r.out;
    if p.Present? && p.absolutePath !in r.marks.seen && p.content.Some? {
      var content := p.content.value;
      var next := VersionState(p.displayPath, p.version, host.digest(content), host.trimmedDigest(content));
      assert content == stamped(scope, p.version);
      assert Hit(r.versions, effective, scope, p) ==> r.versions[scope] == next;
    }
  }

  lemma StepKeepsSound(host: Host, stamped: (string, string) -> string, effective: Effective, scope: string, r: Run)
    requires Sound(host, stamped, r.versions) && Faithful(host, stamped)
    ensures Sound(host, stamped, Step(host, effective, scope, r).versions) && !Blind(host, effective, scope, r)
  {
    var p := host.probe(scope);
    if p.Present? && p.content.Some? {
      var content := p.content.value;
      assert SoundAt(host, stamped, scope, VersionState(p.displayPath, p.version, host.digest(content), host.trimmedDigest(content)));
    }
  }

  lemma {:induction false} FoldIgnoresTheCache(host: Host, stamped: (string, string) -> string, effective: Effective, scopes: seq<string>, group: seq<string>, start: Run, r: Run)
    requires Sound(host, stamped, start.versions) && Sound(host, stamped, r.versions) && Faithful(host, stamped)
    ensures var f := FoldGroup(host, effective, scopes, group, start, r);
            && Sound(host, stamped, f.versions)
            && if Blocked(host, effective, scopes) then f.out == start.out && f.marks == Marks(start.marks.seen, {})
               else f.out == r.out + EmittedAll(host, effective, scopes, r.marks) && f.marks == MarkedAll(host, scopes, r.marks)
    decreases |scopes|
  {
    hide Step, Emitted, Marked, SoundAt, Active, Records, Blind, Faithful;
    if scopes != [] {
      var first, rest := scopes[0], scopes[1..];
      BlockedSplit(host, effective, scopes);
      if !(host.probe(first).Unavailable? && Active(effective, first)) {
        var r' := Step(host, effective, first, r);
        SoundRecords(host, stamped, first, r.versions);
        StepKeepsSound(host, stamped, effective, first, r);
        StepIgnoresTheCache(host, stamped, effective, first, r);
        FoldIgnoresTheCache(host, stamped, effective, rest, group, start, r');
        assert r.out + Emitted(host, effective, first, r.marks) + EmittedAll(host, effective, rest, r'.marks)
            == r.out + (Emitted(host, effective, first, r.marks) + EmittedAll(host, effective, rest, r'.marks));
      }
    }
  }

  lemma SoundRecords(host: Host, stamped: (string, string) -> string, scope: string, versions: Versions)
    requires Sound(host, stamped, versions)
    ensures scope in versions ==> Records(host, stamped, scope, versions[scope])
  {
  }

  lemma BlockedSplit(host: Host, effective: Effective, scopes: seq<string>)
    requires scopes != []
    ensures Blocked(host, effective, scopes) <==>
      (host.probe(scopes[0]).Unavailable? && Active(effective, scopes[0])) || Blocked(host, effective, scopes[1..])
  {
    hide Active;
    var rest := scopes[1..];
    if Blocked(host, effective, rest) {
      var i :| 0 <= i < |rest| && host.probe(rest[i]).Unavailable? && Active(effective, rest[i]);
      assert scopes[i + 1] == rest[i];
    }
    if Blocked(host, effective, scopes) {
      var i :| 0 <= i < |scopes| && host.probe(scopes[i]).Unavailable? && Active(effective, scopes[i]);
      assert i > 0 ==> scopes[i] == rest[i - 1];
    }
  }

  lemma {:induction false} ExcludeEmits(host: Host, stamped: (string, string) -> string, effective: Effective, scopes: seq<string>, r: Run)
    requires Sound(host, stamped, r.versions)
    ensures var e := Exclude(effective, scopes, r);
            Sound(host, stamped, e.versions) && e.out == r.out + RemovedAll(effective, scopes) && e.marks == r.marks
    decreases |scopes|
  {
    hide SoundAt;
    if scopes == [] {
      assert r.out + [] == r.out;
    } else {
      var first, rest := scopes[0], scopes[1..];
      var r' := if Active(effective, first) then r.(out := r.out + [Removal(first, effective[first].path)]) else r.(versions := Drop(r.versions, first));
      ExcludeEmits(host, stamped, effective, rest, r');
      assert r'.out == r.out + RemovalIfActive(effective, first);
      assert r.out + RemovalIfActive(effective, first) + RemovedAll(effective, rest) == r.out + (RemovalIfActive(effective, first) + RemovedAll(effective, rest));
    }
  }

  lemma GroupIgnoresTheCache(host: Host, stamped: (string, string) -> string, effective: Effective, g: Group, r: Run)
    requires Sound(host, stamped, r.versions) && Faithful(host, stamped)
    ensures var f := RunGroup(host, effective, g, r);
            && Sound(host, stamped, f.versions) && f.out == r.out + GroupTransitions(host, effective, g, r.marks.seen)
            && f.marks.seen == SeenAfter(host, effective, g, r.marks.seen)
  {
    hide Exclude, FoldGroup, EmittedAll, MarkedAll, RemovedAll, Blocked, SoundAt;
    var fromHere := r.(marks := Marks(r.marks.seen, {}));
    var start := Exclude(effective, g.excluded, fromHere);
    ExcludeEmits(host, stamped, effective, g.excluded, fromHere);
    FoldIgnoresTheCache(host, stamped, effective, g.probed, g.probed, start, start);
    assert r.out + RemovedAll(effective, g.excluded) + EmittedAll(host, effective, g.probed, start.marks)
        == r.out + (RemovedAll(effective, g.excluded) + EmittedAll(host, effective, g.probed, start.marks));
  }

  /** With any sound cache, the empty one included, a pass emits the transitions read from the
      files, and leaves its cache sound. */
  lemma {:induction false} PassIgnoresTheCache(host: Host, stamped: (string, string) -> string, effective: Effective, groups: seq<Group>, r: Run)
    requires Sound(host, stamped, r.versions) && Faithful(host, stamped)
    ensures var f := RunGroups(host, effective, groups, r);
            Sound(host, stamped, f.versions) && f.out == r.out + Transitions(host, effective, groups, r.marks.seen)
    decreases |groups|
  {
    hide RunGroup, GroupTransitions, SeenAfter, SoundAt;
    if groups == [] {
      assert r.out + [] == r.out;
    } else {
      var g, rest := groups[0], groups[1..];
      GroupIgnoresTheCache(host, stamped, effective, g, r);
      PassIgnoresTheCache(host, stamped, effective, rest, RunGroup(host, effective, g, r));
      var a, b := GroupTransitions(host, effective, g, r.marks.seen), Transitions(host, effective, rest, SeenAfter(host, effective, g, r.marks.seen));
      assert r.out + a + b == r.out + (a + b);
    }
  }

  // ----- Applying what was rendered -----

  /** The effective state after the applied transitions. */
  function Told(effective: Effective, out: seq<Transition>, applied: set<Change>): Effective {
    if out == [] then effective
    else
      var before, last := Told(effective, out[..|out| - 1], applied), out[|out| - 1].change;
      if last in applied then before[last.scope := last] else before
  }

  lemma {:induction false} ToldAdvances(effective: Effective, out: seq<Transition>, applied: set<Change>, scope: string)
    ensures AdvancedAt(effective, Told(effective, out, applied), out, applied, scope)
  {
    if out != [] {
      var init, last := out[..|out| - 1], out[|out| - 1].change;
      ToldAdvances(effective, init, applied, scope);
      assert forall k :: 0 <= k < |init| ==> out[k] == init[k];
      if last.scope == scope && last in applied { assert out[|out| - 1].change.scope == scope; }
    }
  }

  /** The cache after the applied transitions. */
  function Updated(versions: Versions, out: seq<Transition>, applied: set<Change>): Versions {
    if out == [] then versions
    else
      var before, last := Updated(versions, out[..|out| - 1], applied), out[|out| - 1];
      if last.change !in applied then before
      else if last.state.None? then Drop(before, last.change.scope)
      else before[last.change.scope := last.state.value]
  }

  ghost predicate SoundStates(host: Host, stamped: (string, string) -> string, out: seq<Transition>) {
    forall k :: 0 <= k < |out| && out[k].state.Some? ==> SoundAt(host, stamped, out[k].change.scope, out[k].state.value)
  }

  lemma {:induction false} UpdatedIsSound(host: Host, stamped: (string, string) -> string, versions: Versions, out: seq<Transition>, applied: set<Change>)
    requires Sound(host, stamped, versions) && SoundStates(host, stamped, out)
    ensures Sound(host, stamped, Updated(versions, out, applied))
  {
    hide SoundAt;
    if out != [] {
      var init := out[..|out| - 1];
      assert forall k :: 0 <= k < |init| ==> out[k] == init[k];
      UpdatedIsSound(host, stamped, versions, init, applied);
    }
  }

  lemma EmittedStateIsSound(host: Host, stamped: (string, string) -> string, effective: Effective, scope: string, m: Marks)
    requires Faithful(host, stamped)
    ensures SoundStates(host, stamped, Emitted(host, effective, scope, m))
  {
  }

  lemma {:induction false} EmittedStatesAreSound(host: Host, stamped: (string, string) -> string, effective: Effective, scopes: seq<string>, m: Marks)
    requires Faithful(host, stamped)
    ensures SoundStates(host, stamped, EmittedAll(host, effective, scopes, m))
  {
    hide Emitted, Marked, Faithful, SoundAt;
    if scopes != [] {
      EmittedStateIsSound(host, stamped, effective, scopes[0], m);
      EmittedStatesAreSound(host, stamped, effective, scopes[1..], Marked(host, scopes[0], m));
    }
  }

  lemma {:induction false} RemovedStatesAreSound(host: Host, stamped: (string, string) -> string, effective: Effective, scopes: seq<string>)
    ensures SoundStates(host, stamped, RemovedAll(effective, scopes))
  {
    hide SoundAt;
    if scopes != [] {
      RemovedStatesAreSound(host, stamped, effective, scopes[1..]);
    }
  }

  lemma {:induction false} StatesAreSound(host: Host, stamped: (string, string) -> string, effective: Effective, groups: seq<Group>, seen: set<string>)
    requires Faithful(host, stamped)
    ensures SoundStates(host, stamped, Transitions(host, effective, groups, seen))
  {
    hide Faithful, SoundAt, EmittedAll, RemovedAll, SeenAfter, Blocked;
    if groups != [] {
      RemovedStatesAreSound(host, stamped, effective, groups[0].excluded);
      EmittedStatesAreSound(host, stamped, effective, groups[0].probed, Marks(seen, {}));
      StatesAreSound(host, stamped, effective, groups[1..], SeenAfter(host, effective, groups[0], seen));
    }
  }

  function Begin(versions: Versions): Run {
    Run(versions, [], Marks({}, {}))
  }

  /** After a pass and any choice of applied transitions, a second pass over unchanged files, with
      the cache the first one left, emits exactly the transitions that were not applied. */
  lemma SecondCachedPass(host: Host, stamped: (string, string) -> string, effective: Effective, groups: seq<Group>, versions: Versions, applied: set<Change>)
    requires Sound(host, stamped, versions) && Faithful(host, stamped) && Distinct(AllScopes(groups))
    ensures var first := RunGroups(host, effective, groups, Begin(versions));
            var cache := Updated(first.versions, first.out, applied);
            && Sound(host, stamped, cache)
            && RunGroups(host, Told(effective, first.out, applied), groups, Begin(cache)).out == Unapplied(first.out, applied)
  {
    hide Sound, Faithful, Distinct, RunGroups, Transitions, AdvancedAt;
    var first := RunGroups(host, effective, groups, Begin(versions));
    PassIgnoresTheCache(host, stamped, effective, groups, Begin(versions));
    assert first.out == Transitions(host, effective, groups, {});
    StatesAreSound(host, stamped, effective, groups, {});
    UpdatedIsSound(host, stamped, first.versions, first.out, applied);
    var later, cache := Told(effective, first.out, applied), Updated(first.versions, first.out, applied);
    forall i | 0 <= i < |AllScopes(groups)| ensures AdvancedAt(effective, later, first.out, applied, AllScopes(groups)[i]) {
      ToldAdvances(effective, first.out, applied, AllScopes(groups)[i]);
    }
    SecondPass(host, effective, later, groups, {}, applied);
    PassIgnoresTheCache(host, stamped, later, groups, Begin(cache));
    assert RunGroups(host, later, groups, Begin(cache)).out == Transitions(host, later, groups, {});
  }

  lemma {:induction false} AllApplied(out: seq<Transition>, applied: set<Change>)
    requires forall k :: 0 <= k < |out| ==> out[k].change in applied
    ensures Unapplied(out, applied) == []
  {
    if out != [] { AllApplied(out[1..], applied); }
  }

  /** When every transition was applied, the second pass emits none. */
  lemma NothingTwice(host: Host, stamped: (string, string) -> string, effective: Effective, groups: seq<Group>, versions: Versions)
    requires Sound(host, stamped, versions) && Faithful(host, stamped) && Distinct(AllScopes(groups))
    ensures var first := RunGroups(host, effective, groups, Begin(versions));
            var all := set k | 0 <= k < |first.out| :: first.out[k].change;
            RunGroups(host, Told(effective, first.out, all), groups, Begin(Updated(first.versions, first.out, all))).out == []
  {
    hide Sound, Faithful, Distinct, RunGroups, Updated, Told;
    var first := RunGroups(host, effective, groups, Begin(versions));
    var all := set k | 0 <= k < |first.out| :: first.out[k].change;
    SecondCachedPass(host, stamped, effective, groups, versions, all);
    AllApplied(first.out, all);
  }

  /** Once everything a pass emitted was applied, the model is up to date. */
  lemma AppliedPassSettles(host: Host, effective: Effective, groups: seq<Group>, seen: set<string>)
    requires Distinct(AllScopes(groups))
    ensures var out := Transitions(host, effective, groups, seen);
            PassSettled(host, Told(effective, out, set k | 0 <= k < |out| :: out[k].change), groups, seen)
  {
    hide Distinct, Transitions, Told, AdvancedAt;
    var out := Transitions(host, effective, groups, seen);
    var all := set k | 0 <= k < |out| :: out[k].change;
    var later := Told(effective, out, all);
    forall i | 0 <= i < |AllScopes(groups)| ensures AdvancedAt(effective, later, out, all, AllScopes(groups)[i]) {
      ToldAdvances(effective, out, all, AllScopes(groups)[i]);
    }
    SecondPass(host, effective, later, groups, seen, all);
    AllApplied(out, all);
    SilentIffSettled(host, later, groups, seen);
  }

  // ----- What the cache is for -----

  /** A file the cache vouches for is not read: its content makes no difference. */
  lemma HitReadsNothing(host: Host, other: Host, effective: Effective, scope: string, r: Run)
    requires host.probe(scope).Present? && other.probe(scope).Present? && Hit(r.versions, effective, scope, host.probe(scope))
    requires other.probe(scope).(content := None) == host.probe(scope).(content := None)
    ensures Step(other, effective, scope, r) == Step(host, effective, scope, r)
  {
  }

  /** A file that was read and found unchanged is vouched for from then on. */
  lemma ReadOnce(host: Host, effective: Effective, scope: string, r: Run)
    requires Fresh(host, scope, r.marks) && Settled(host, effective, scope, r.marks)
    requires host.trimmedDigest(host.probe(scope).content.value) !in r.marks.kept && !Hit(r.versions, effective, scope, host.probe(scope))
    ensures Hit(Step(host, effective, scope, r).versions, effective, scope, host.probe(scope))
  {
  }

  predicate AppliedTo(t: Transition, applied: set<Change>, scope: string) {
    t.change.scope == scope && t.change in applied
  }

  /** The last applied transition about a scope decides its cache entry; without one it stays. */
  lemma {:induction false} UpdatedByTheLast(versions: Versions, out: seq<Transition>, applied: set<Change>, scope: string, k: nat)
    requires k < |out| && AppliedTo(out[k], applied, scope)
    requires forall j :: k < j < |out| ==> !AppliedTo(out[j], applied, scope)
    ensures var after := Updated(versions, out, applied);
            out[k].state == if scope in after then Some(after[scope]) else None
  {
    var n := |out| - 1;
    if k < n { UpdatedByTheLast(versions, out[..n], applied, scope, k); }
  }

  lemma {:induction false} UpdatedStays(versions: Versions, out: seq<Transition>, applied: set<Change>, scope: string)
    requires forall k :: 0 <= k < |out| ==> !AppliedTo(out[k], applied, scope)
    ensures var after := Updated(versions, out, applied);
            (scope in after <==> scope in versions) && (scope in after ==> after[scope] == versions[scope])
  {
    if out != [] { UpdatedStays(versions, out[..|out| - 1], applied, scope); }
  }
}

/**
One reconciliation pass as agentinstructions/state.go runs it: loops over directories and scopes
that update the session's version cache, roll a directory back, and apply what was rendered.
 */
module ReconcilePass {
  import opened SessionLog
  import opened Grouping
  import opened Reconcile

  /** The groups of the ordered scopes, one per directory in first-seen order. */
  function GroupsFor(directories: seq<string>, ordered: seq<string>, directory: string -> string, excluded: string -> bool): seq<Group> {
    if directories == [] then []
    else
      [GroupFor(directories[0], ordered, directory, excluded)] + GroupsFor(directories[1..], ordered, directory, excluded)
  }

  function GroupFor(d: string, ordered: seq<string>, directory: string -> string, excluded: string -> bool): Group {
    var members := Members(ordered, directory, d);
    Group(Filter(members, excluded), Filter(members, scope => !excluded(scope)))
  }

  function GroupsOf(ordered: seq<string>, directory: string -> string, excluded: string -> bool): seq<Group> {
    GroupsFor(Keys(ordered, directory), ordered, directory, excluded)
  }

  lemma GroupIsDistinct(d: string, ordered: seq<string>, directory: string -> string, excluded: string -> bool)
    requires Distinct(ordered)
    ensures Distinct(Scopes(GroupFor(d, ordered, directory, excluded)))
    ensures forall scope :: scope in Scopes(GroupFor(d, ordered, directory, excluded)) <==> scope in ordered && directory(scope) == d
  {
    hide Distinct;
    var members := Members(ordered, directory, d);
    FilterKeeps(ordered, item => directory(item) == d);
    FilterKeeps(members, excluded);
    FilterKeeps(members, scope => !excluded(scope));
    DistinctConcat(Filter(members, excluded), Filter(members, scope => !excluded(scope)));
  }

  /** Grouping distinct scopes keeps them distinct across all directories. */
  lemma {:induction false} GroupsAreDistinct(directories: seq<string>, ordered: seq<string>, directory: string -> string, excluded: string -> bool)
    requires Distinct(directories) && Distinct(ordered)
    ensures Distinct(AllScopes(GroupsFor(directories, ordered, directory, excluded)))
    ensures forall scope :: scope in AllScopes(GroupsFor(directories, ordered, directory, excluded)) <==> scope in ordered && directory(scope) in directories
  {
    if directories != [] {
      hide GroupFor, Scopes;
      var d, rest := directories[0], directories[1..];
      assert Distinct(rest) && d !in rest;
      GroupsAreDistinct(rest, ordered, directory, excluded);
      GroupIsDistinct(d, ordered, directory, excluded);
      var more := GroupsFor(rest, ordered, directory, excluded);
      var groups := [GroupFor(d, ordered, directory, excluded)] + more;
      assert groups[1..] == more && directories == [d] + rest;
      DistinctConcat(Scopes(groups[0]), AllScopes(more));
    }
  }

  /** Only the transitions whose change was rendered. */
  function Retained(updates: seq<Transition>, rendered: set<Change>): seq<Transition> {
    if updates == [] then []
    else Retained(updates[..|updates| - 1], rendered) + if updates[|updates| - 1].change in rendered then [updates[|updates| - 1]] else []
  }

  function AllUpdates(versions: Versions, updates: seq<Transition>): Versions {
    if updates == [] then versions
    else
      var before, last := AllUpdates(versions, updates[..|updates| - 1]), updates[|updates| - 1];
      if last.state.None? then Drop(before, last.change.scope) else before[last.change.scope := last.state.value]
  }

  lemma AllUpdatesOneMore(versions: Versions, updates: seq<Transition>, last: Transition)
    ensures AllUpdates(versions, updates + [last]) ==
            var before := AllUpdates(versions, updates);
            if last.state.None? then Drop(before, last.change.scope) else before[last.change.scope := last.state.value]
  {
    assert (updates + [last])[..|updates|] == updates;
  }

  /** Applying the retained updates is updating by the rendered changes. */
  lemma {:induction false} RetainedUpdate(versions: Versions, out: seq<Transition>, rendered: set<Change>)
    ensures AllUpdates(versions, Retained(out, rendered)) == Updated(versions, out, rendered)
  {
    if out != [] {
      var init, last := out[..|out| - 1], out[|out| - 1];
      RetainedUpdate(versions, init, rendered);
      hide AllUpdates, Drop;
      var kept := Retained(init, rendered);
      if last.change in rendered {
        AllUpdatesOneMore(versions, kept, last);
      } else {
        assert kept + [] == kept;
      }
    }
  }

  class VersionCache {
    var states: Versions

    constructor ()
      ensures states == map[]
    {
      states := map[];
    }

    /** A file that is present for the first time: read it, unless the cache vouches for it. */
    method SeeFile(host: Host, effective: Effective, scope: string, p: Probe, out: seq<Transition>, kept: set<string>)
      returns (out': seq<Transition>, kept': set<string>)
      requires p.Present? && p == host.probe(scope)
      modifies this
      ensures forall seen :: p.absolutePath !in seen ==>
        Run(states, out', Marks(seen + {p.absolutePath}, kept')) == Step(host, effective, scope, Run(old(states), out, Marks(seen, kept)))
    {
      out', kept' := out, kept;
      var active := Active(effective, scope);
      if scope in states && states[scope].path == p.displayPath && states[scope].version == p.version && active
         && effective[scope].path == states[scope].path && effective[scope].digest == states[scope].digest {
        if states[scope].trimmedDigest in kept {
          out' := out + [Removal(scope, effective[scope].path)];
        } else {
          kept' := kept + {states[scope].trimmedDigest};
        }
        return;
      }
      if p.content.None? { return; }
      var content := p.content.value;
      var digest, trimmed := host.digest(content), host.trimmedDigest(content);
      if trimmed in kept {
        if active { out' := out + [Removal(scope, effective[scope].path)]; } else { states := Drop(states, scope); }
        return;
      }
      kept' := kept + {trimmed};
      var next := VersionState(p.displayPath, p.version, digest, trimmed);
      if active && effective[scope].path == p.displayPath && effective[scope].digest == digest {
        states := states[scope := next];
      } else {
        var action := if active then Replace else Set;
        out' := out + [Transition(Change(action, scope, p.displayPath, digest), content, Some(next))];
      }
    }

    /** Probes the scopes of one directory; an active scope that cannot be observed rolls it back. */
    method ProbeScopes(host: Host, effective: Effective, probed: seq<string>, out0: seq<Transition>, seen0: set<string>)
      returns (out: seq<Transition>, seen: set<string>)
      modifies this
      ensures var start := Run(old(states), out0, Marks(seen0, {}));
              var f := FoldGroup(host, effective, probed, probed, start, start);
              states == f.versions && out == f.out && seen == f.marks.seen
    {
      out, seen := out0, seen0;
      var kept, added: set<string> := {}, {};
      var prior := map scope | scope in states && scope in probed :: states[scope];
      ghost var start := Run(states, out0, Marks(seen0, {}));
      assert probed[0..] == probed;
      for i := 0 to |probed|
        invariant out0 <= out && seen == seen0 + added && added !! seen0
        invariant FoldGroup(host, effective, probed, probed, start, start)
               == FoldGroup(host, effective, probed[i..], probed, start, Run(states, out, Marks(seen, kept)))
      {
        var scope := probed[i];
        ghost var now := Run(states, out, Marks(seen, kept));
        assert probed[i..][0] == scope && probed[i..][1..] == probed[i + 1..];
        var p := host.probe(scope);
        match p
        case Unavailable =>
          if Active(effective, scope) {
            RolledBack(host, effective, probed[i..], probed, start, now, seen - added);
            out, states, seen := out[..|out0|], states + prior, seen - added;
            return;
          }
          Continues(host, effective, probed[i..], probed, start, now);
        case Absent =>
          Continues(host, effective, probed[i..], probed, start, now);
          if Active(effective, scope) { out := out + [Removal(scope, effective[scope].path)]; } else { states := Drop(states, scope); }
        case Present(absolutePath, _, _, _) =>
          Continues(host, effective, probed[i..], probed, start, now);
          if absolutePath !in seen {
            out, kept := SeeFile(host, effective, scope, p, out, kept);
            seen, added := seen + {absolutePath}, added + {absolutePath};
          }
      }
    }

    /** One directory: excluded scopes are removed, the others probed. */
    method ReconcileDirectory(host: Host, effective: Effective, scopes: seq<string>, excluded: string -> bool, out0: seq<Transition>, seen0: set<string>)
      returns (out: seq<Transition>, seen: set<string>)
      modifies this
      ensures var g := Group(Filter(scopes, excluded), Filter(scopes, scope => !excluded(scope)));
              var f := RunGroup(host, effective, g, Run(old(states), out0, Marks(seen0, {})));
              states == f.versions && out == f.out && seen == f.marks.seen
    {
      hide FoldGroup;
      out := out0;
      var probed: seq<string> := [];
      ghost var gone := [];
      for i := 0 to |scopes|
        invariant gone == Filter(scopes[..i], excluded) && probed == Filter(scopes[..i], scope => !excluded(scope))
        invariant Run(states, out, Marks(seen0, {})) == Exclude(effective, gone, Run(old(states), out0, Marks(seen0, {})))
      {
        var scope := scopes[i];
        assert scopes[..i + 1][..i] == scopes[..i];
        if excluded(scope) {
          ExcludeOneMore(effective, gone, scope, Run(old(states), out0, Marks(seen0, {})));
          if Active(effective, scope) { out := out + [Removal(scope, effective[scope].path)]; } else { states := Drop(states, scope); }
          gone := gone + [scope];
        } else {
          probed := probed + [scope];
        }
      }
      assert scopes[..|scopes|] == scopes;
      out, seen := ProbeScopes(host, effective, probed, out, seen0);
    }

    /** One pass over the ordered scopes; `rendered` are the changes the byte budget let through. */
    method ReconcileInstructionContext(host: Host, effective: Effective, ordered: seq<string>, directory: string -> string, excluded: string -> bool,
                                       render: seq<Transition> -> set<Change>)
      returns (r: Option<(set<Change>, seq<Transition>)>, ghost out: seq<Transition>)
      modifies this
      ensures var f := RunGroups(host, effective, GroupsOf(ordered, directory, excluded), Begin(old(states)));
              states == f.versions && out == f.out
      ensures r == if out == [] || render(out) == {} then None else Some((render(out), Retained(out, render(out))))
    {
      hide RunGroup;
      var items: seq<Transition>, seen := [], {};
      var directories, members := GroupBy(ordered, directory);
      ghost var all := RunGroups(host, effective, GroupsOf(ordered, directory, excluded), Begin(states));
      assert directories[0..] == directories;
      for i := 0 to |directories|
        invariant exists kept :: all == RunGroups(host, effective, GroupsFor(directories[i..], ordered, directory, excluded), Run(states, items, Marks(seen, kept)))
      {
        ghost var kept :| all == RunGroups(host, effective, GroupsFor(directories[i..], ordered, directory, excluded), Run(states, items, Marks(seen, kept)));
        ghost var was := Run(states, items, Marks(seen, kept));
        assert directories[i..][0] == directories[i] && directories[i..][1..] == directories[i + 1..];
        NextGroup(host, effective, directories[i..], ordered, directory, excluded, was);
        items, seen := ReconcileDirectory(host, effective, members[directories[i]], excluded, items, seen);
      }
      out := items;
      if items == [] { return None, out; }
      var rendered := render(items);
      if rendered == {} { return None, out; }
      var retained := RetainedInstructionVersionUpdates(items, rendered);
      return Some((rendered, retained)), out;
    }

    static method RetainedInstructionVersionUpdates(updates: seq<Transition>, rendered: set<Change>) returns (retained: seq<Transition>)
      ensures retained == Retained(updates, rendered)
    {
      retained := [];
      for i := 0 to |updates|
        invariant retained == Retained(updates[..i], rendered)
      {
        assert updates[..i + 1][..i] == updates[..i];
        if updates[i].change in rendered { retained := retained + [updates[i]]; }
      }
      assert updates[..|updates|] == updates;
    }

    method ApplyInstructionVersionUpdates(updates: seq<Transition>)
      modifies this
      ensures states == AllUpdates(old(states), updates)
    {
      for i := 0 to |updates|
        invariant states == AllUpdates(old(states), updates[..i])
      {
        assert updates[..i + 1][..i] == updates[..i];
        var scope := updates[i].change.scope;
        match updates[i].state
        case None => states := Drop(states, scope);
        case Some(state) => states := states[scope := state];
      }
      assert updates[..|updates|] == updates;
    }
  }

  lemma {:induction false} ExcludeOneMore(effective: Effective, scopes: seq<string>, scope: string, r: Run)
    ensures Exclude(effective, scopes + [scope], r) ==
            var e := Exclude(effective, scopes, r);
            if Active(effective, scope) then e.(out := e.out + [Removal(scope, effective[scope].path)]) else e.(versions := Drop(e.versions, scope))
    decreases |scopes|
  {
    if scopes == [] {
      assert [scope][1..] == [] && scopes + [scope] == [scope];
    } else {
      assert (scopes + [scope])[1..] == scopes[1..] + [scope];
      var r' := if Active(effective, scopes[0]) then r.(out := r.out + [Removal(scopes[0], effective[scopes[0]].path)]) else r.(versions := Drop(r.versions, scopes[0]));
      ExcludeOneMore(effective, scopes[1..], scope, r');
    }
  }

  lemma NextGroup(host: Host, effective: Effective, directories: seq<string>, ordered: seq<string>, directory: string -> string, excluded: string -> bool, r: Run)
    requires directories != []
    ensures RunGroups(host, effective, GroupsFor(directories, ordered, directory, excluded), r)
         == RunGroups(host, effective, GroupsFor(directories[1..], ordered, directory, excluded),
                      RunGroup(host, effective, GroupFor(directories[0], ordered, directory, excluded), Run(r.versions, r.out, Marks(r.marks.seen, {}))))
  {
    hide GroupFor, FoldGroup, Exclude;
    var g, rest := GroupFor(directories[0], ordered, directory, excluded), GroupsFor(directories[1..], ordered, directory, excluded);
    assert ([g] + rest)[1..] == rest;
  }

  lemma Continues(host: Host, effective: Effective, scopes: seq<string>, group: seq<string>, start: Run, r: Run)
    requires scopes != [] && !(host.probe(scopes[0]).Unavailable? && Active(effective, scopes[0]))
    ensures FoldGroup(host, effective, scopes, group, start, r) == FoldGroup(host, effective, scopes[1..], group, start, Step(host, effective, scopes[0], r))
  {
  }

  lemma RolledBack(host: Host, effective: Effective, scopes: seq<string>, group: seq<string>, start: Run, r: Run, seen: set<string>)
    requires scopes != [] && host.probe(scopes[0]).Unavailable? && Active(effective, scopes[0]) && start.marks == Marks(seen, {})
    ensures FoldGroup(host, effective, scopes, group, start, r)
         == Run(r.versions + (map scope | scope in start.versions && scope in group :: start.versions[scope]), start.out, Marks(seen, {}))
  {
  }

  /** Two passes over the same scopes and files, the first one's rendered changes applied: the
      second emits exactly what the first could not render. */
  lemma SecondPassRetries(host: Host, stamped: (string, string) -> string, effective: Effective, ordered: seq<string>, directory: string -> string,
                          excluded: string -> bool, versions: Versions, rendered: set<Change>)
    requires Sound(host, stamped, versions) && Faithful(host, stamped) && Distinct(ordered)
    ensures var groups := GroupsOf(ordered, directory, excluded);
            var first := RunGroups(host, effective, groups, Begin(versions));
            var cache := AllUpdates(first.versions, Retained(first.out, rendered));
            && Sound(host, stamped, cache)
            && RunGroups(host, Told(effective, first.out, rendered), groups, Begin(cache)).out == Unapplied(first.out, rendered)
  {
    hide Sound, Faithful, Distinct, RunGroups, GroupsFor, Told, Unapplied;
    var groups := GroupsOf(ordered, directory, excluded);
    var first := RunGroups(host, effective, groups, Begin(versions));
    KeysAreDistinct(ordered, directory);
    GroupsAreDistinct(Keys(ordered, directory), ordered, directory, excluded);
    SecondCachedPass(host, stamped, effective, groups, versions, rendered);
    RetainedUpdate(first.versions, first.out, rendered);
  }

  // ----- The baseline -----

  /** A baseline file as it was loaded; an unversioned file has the empty version. */
  datatype Loaded = Loaded(scope: string, displayPath: string, content: string, version: string)

  function Stamp(host: Host, file: Loaded): VersionState {
    VersionState(file.displayPath, file.version, host.digest(file.content), host.trimmedDigest(file.content))
  }

  function BaselineChanges(host: Host, files: seq<Loaded>): Effective {
    if files == [] then map[]
    else
      var file := files[|files| - 1];
      BaselineChanges(host, files[..|files| - 1])[file.scope := Change(Set, file.scope, file.displayPath, host.digest(file.content))]
  }

  function BaselineVersions(host: Host, files: seq<Loaded>): Versions {
    if files == [] then map[]
    else
      var before, file := BaselineVersions(host, files[..|files| - 1]), files[|files| - 1];
      if file.version != "" then before[file.scope := Stamp(host, file)] else before
  }

  /** What the model is told by a baseline, and the cache that goes with it. */
  method BaselineInstructionState(host: Host, files: seq<Loaded>) returns (changes: Effective, versions: Versions)
    ensures changes == BaselineChanges(host, files) && versions == BaselineVersions(host, files)
  {
    changes, versions := map[], map[];
    for n := 0 to |files|
      invariant changes == BaselineChanges(host, files[..n]) && versions == BaselineVersions(host, files[..n])
    {
      var file := files[n];
      assert files[..n + 1][..n] == files[..n];
      changes := changes[file.scope := Change(Set, file.scope, file.displayPath, host.digest(file.content))];
      if file.version != "" { versions := versions[file.scope := Stamp(host, file)]; }
    }
    assert files[..|files|] == files;
  }

  /** A baseline's cache records the content its stamps name, so it is sound exactly while none of
      its files has become unreadable under the same stamp. */
  lemma {:induction false} BaselineIsSound(host: Host, stamped: (string, string) -> string, files: seq<Loaded>)
    requires forall i :: 0 <= i < |files| ==> files[i].content == stamped(files[i].scope, files[i].version)
    ensures forall scope :: scope in BaselineVersions(host, files) ==> Records(host, stamped, scope, BaselineVersions(host, files)[scope])
    ensures Sound(host, stamped, BaselineVersions(host, files)) <==>
      forall scope :: scope in BaselineVersions(host, files) ==> !Vouches(host, scope, BaselineVersions(host, files)[scope])
  {
    if files != [] { BaselineIsSound(host, stamped, files[..|files| - 1]); }
  }

  /** Every file that was loaded under a version is in the baseline's cache, and nothing else. */
  lemma {:induction false} BaselineCachesVersions(host: Host, files: seq<Loaded>, scope: string)
    ensures scope in BaselineVersions(host, files) <==> exists i :: 0 <= i < |files| && files[i].scope == scope && files[i].version != ""
    ensures scope in BaselineChanges(host, files) <==> exists i :: 0 <= i < |files| && files[i].scope == scope
  {
    if files != [] {
      var n := |files| - 1;
      BaselineCachesVersions(host, files[..n], scope);
      assert forall i :: 0 <= i < n ==> files[..n][i] == files[i];
    }
  }

  /** Right after a baseline of the files the host shows, a pass has nothing to say about a scope
      whose file is no duplicate in its directory. */
  lemma BaselineIsUpToDate(host: Host, file: Loaded, before: seq<Loaded>, m: Marks)
    requires var p := host.probe(file.scope);
             p.Present? && p.displayPath == file.displayPath && p.content == Some(file.content) && host.trimmedDigest(file.content) !in m.kept
    ensures Emitted(host, BaselineChanges(host, before + [file]), file.scope, m) == []
  {
    assert (before + [file])[..|before|] == before;
  }

  /** When a cached file has become unreadable, only the cache remembers that a sibling duplicates
      it, so the passes with and without the cache differ. */
  lemma UnreadableFilesMatter() returns (host: Host, stamped: (string, string) -> string, effective: Effective, versions: Versions, g: Group)
    ensures Faithful(host, stamped) && Distinct(Scopes(g)) && forall scope :: scope in versions ==> Records(host, stamped, scope, versions[scope])
    ensures RunGroup(host, effective, g, Begin(versions)).out != RunGroup(host, effective, g, Begin(map[])).out
  {
    host := Host(scope => if scope == "a" then Present("/a", "a", "1", None) else Present("/b", "b", "1", Some("x")), c => c, c => c);
    stamped := (scope, version) => "x";
    effective, versions := map["a" := Change(Set, "a", "a", "x")], map["a" := VersionState("a", "1", "x", "x")];
    g := Group([], ["a", "b"]);
    var start, bare := Begin(versions), Begin(map[]);
    var a, b := Step(host, effective, "a", start), Step(host, effective, "a", bare);
    assert "a" != "b" && "/a" != "/b" by { assert "a"[0] != "b"[0] && "/a"[1] != "/b"[1]; }
    assert a.marks == Marks({"/a"}, {"x"}) && a.out == [];
    assert b.marks == Marks({"/a"}, {}) && b.out == [];
    var a', b' := Step(host, effective, "b", a), Step(host, effective, "b", b);
    assert a'.out == [] && |b'.out| == 1;
    TwoScopes(host, effective, start);
    TwoScopes(host, effective, bare);
  }

  lemma TwoScopes(host: Host, effective: Effective, r: Run)
    requires host.probe("a").Present? && host.probe("b").Present? && r.marks.kept == {}
    ensures RunGroup(host, effective, Group([], ["a", "b"]), r) == Step(host, effective, "b", Step(host, effective, "a", r))
  {
    hide Step;
    var scopes := ["a", "b"];
    var a := Step(host, effective, "a", r);
    assert scopes[1..] == ["b"] && ["b"][1..] == [];
    Continues(host, effective, scopes, scopes, r, r);
    Continues(host, effective, ["b"], scopes, r, a);
  }
}

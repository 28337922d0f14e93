/**
Observation-guarded writes (fsobservationpolicy/fsobservationpolicy.go, fslocal/local.go): each
owner's last recorded observation decides the guard of its next write or edit, and the store
checks that guard inside the per-file lock.
 */
module GuardedWrites {
  import opened SessionLog

  type Owner = nat
  type Key = string
  type Version = nat

  datatype Observation = Seen(version: Version) | Missing

  datatype Intent = CreateIfAbsent | ReplaceIfVersion(version: Version)

  datatype File = File(version: Version, content: string)

  datatype Entry = Regular(file: File) | Irregular

  datatype FsError = NotObserved | NotFound | OperationAborted | NotRegularFile | StaleVersion | IoError | EditRejected

  type Records = map<Owner, map<Key, Observation>>

  type Files = map<Key, Entry>

  // ----- Decisions -----

  function Recorded(observed: Records, owner: Option<Owner>, key: Key): Option<Observation> {
    if owner.Some? && owner.value in observed && key in observed[owner.value] then Some(observed[owner.value][key]) else None
  }

  /** The guard a record gives a write. */
  function WriteGuard(recorded: Option<Observation>): Intent {
    match recorded
    case Some(Seen(v)) => ReplaceIfVersion(v)
    case _ => CreateIfAbsent
  }

  /** The guard a record gives an edit: only a seen file can be edited. */
  function EditGuard(recorded: Option<Observation>): Result<Intent, FsError> {
    match recorded
    case None => Err(NotObserved)
    case Some(Missing) => Err(NotFound)
    case Some(Seen(v)) => Ok(ReplaceIfVersion(v))
  }

  class Gate {
    var observed: Records

    constructor ()
      ensures observed == map[]
    {
      observed := map[];
    }

    method Get(owner: Owner, key: Key) returns (r: Option<Observation>)
      ensures r == Recorded(observed, Some(owner), key)
    {
      if owner !in observed || key !in observed[owner] { return None; }
      return Some(observed[owner][key]);
    }

    method Set(owner: Owner, key: Key, observation: Observation)
      modifies this
      ensures Recorded(observed, Some(owner), key) == Some(observation)
      ensures forall o: Owner, k: Key :: (o, k) != (owner, key) ==> Recorded(observed, Some(o), k) == Recorded(old(observed), Some(o), k)
      ensures observed == Observed(old(observed), owner, key, observation)
    {
      if owner !in observed { observed := observed[owner := map[]]; }
      observed := observed[owner := observed[owner][key := observation]];
    }

    method Clear()
      modifies this
      ensures observed == map[]
    {
      observed := map[];
    }

    /** Unseen or absent asks for a creation; present asks for a replacement of that version. */
    method WriteIntent(owner: Option<Owner>, key: Key) returns (intent: Intent)
      ensures intent == WriteGuard(Recorded(observed, owner, key))
      ensures forall v: Version :: intent == ReplaceIfVersion(v) <==> Recorded(observed, owner, key) == Some(Seen(v))
    {
      var prior := None;
      if owner.Some? { prior := Get(owner.value, key); }
      match prior
      case Some(Seen(v)) => return ReplaceIfVersion(v);
      case _ => return CreateIfAbsent;
    }

    method EditIntent(owner: Option<Owner>, key: Key) returns (r: Result<Version, FsError>)
      ensures EditGuard(Recorded(observed, owner, key)) == match r case Ok(v) => Ok(ReplaceIfVersion(v)) case Err(e) => Err(e)
      ensures forall v: Version :: r == Ok(v) <==> Recorded(observed, owner, key) == Some(Seen(v))
      ensures r == Err(NotFound) <==> Recorded(observed, owner, key) == Some(Missing)
      ensures r == Err(NotObserved) <==> Recorded(observed, owner, key) == None
    {
      match owner
      case None => return Err(NotObserved);
      case Some(o) =>
      var prior := Get(o, key);
      match prior
      case None => return Err(NotObserved);
      case Some(Missing) => return Err(NotFound);
      case Some(Seen(v)) => return Ok(v);
    }

    method Observe(owner: Option<Owner>, key: Key, observation: Observation)
      modifies this
      ensures observed == match owner case None => old(observed) case Some(o) => Observed(old(observed), o, key, observation)
    {
      match owner
      case None =>
      case Some(o) => Set(o, key, observation);
    }
  }

  function Observed(observed: Records, owner: Owner, key: Key, observation: Observation): Records {
    observed[owner := (if owner in observed then observed[owner] else map[])[key := observation]]
  }

  // ----- The store -----

  /** Why a guarded write is refused, if it is. */
  function WriteRefusal(files: Files, key: Key, expected: Option<Intent>): Option<FsError> {
    if key in files && files[key].Irregular? then Some(NotRegularFile)
    else match expected
      case Some(ReplaceIfVersion(v)) =>
        if key !in files || files[key].file.version != v then Some(StaleVersion) else None
      case Some(CreateIfAbsent) => if key in files then Some(NotObserved) else None
      case None => None
  }

  function EditRefusal(files: Files, key: Key, expected: Option<Version>): Option<FsError> {
    if key !in files then Some(StaleVersion)
    else if files[key].Irregular? then Some(NotRegularFile)
    else if expected.Some? && files[key].file.version != expected.value then Some(StaleVersion)
    else None
  }

  function EntryAt(files: Files, key: Key): Option<Entry> {
    if key in files then Some(files[key]) else None
  }

  predicate HasOtherVersion(files: Files, key: Key, version: Version) {
    key in files && files[key].Regular? && files[key].file.version != version
  }

  /** Which system call of an operation fails, if one does: reading the old file, publishing the new one,
      or the look at it afterwards. */
  datatype Io = Works | ReadFails | WriteFails | StatFails

  /** The edit was applied to the file's content and published under the version. */
  predicate Edited(before: Files, key: Key, edit: string -> Option<string>, version: Version, after: Files) {
    && key in before && before[key].Regular? && edit(before[key].file.content).Some?
    && after == before[key := Regular(File(version, edit(before[key].file.content).value))]
  }

  class Local {
    var files: Files

    constructor (files: Files)
      ensures this.files == files
    {
      this.files := files;
    }

    /** One atomic write under the file's lock; the new file will have the given version.  Each refusal
        has one cause, and without any of them the write takes place. */
    method WriteText(key: Key, content: string, expected: Option<Intent>, cancelled: bool, io: Io, version: Version) returns (r: Result<(bool, Version), FsError>)
      modifies this
      ensures r == Err(OperationAborted) <==> cancelled
      ensures r == Err(NotRegularFile) <==> !cancelled && EntryAt(old(files), key) == Some(Irregular)
      ensures r == Err(StaleVersion) <==>
        && !cancelled && expected.Some? && expected.value.ReplaceIfVersion?
        && (key !in old(files) || HasOtherVersion(old(files), key, expected.value.version))
      ensures r == Err(NotObserved) <==> !cancelled && expected == Some(CreateIfAbsent) && key in old(files) && old(files)[key].Regular?
      ensures r == Err(IoError) ==> io.WriteFails? || io.StatFails?
      ensures r.Err? ==> r.error in {OperationAborted, NotRegularFile, StaleVersion, NotObserved, IoError}
      ensures r.Ok? ==> r.value == (key in old(files), version) && !io.WriteFails? && !io.StatFails?
      // The file was replaced iff the write came through, or only the look at the new file failed.
      ensures files == if r.Ok? || (r == Err(IoError) && io.StatFails?) then old(files)[key := Regular(File(version, content))] else old(files)
      ensures !cancelled ==> WriteRefusal(old(files), key, expected) == if r.Err? && r.error != IoError then Some(r.error) else None
    {
      if cancelled { return Err(OperationAborted); }
      var existing := key in files;
      if existing && files[key].Irregular? { return Err(NotRegularFile); }
      match expected {
        case Some(ReplaceIfVersion(v)) =>
          if !existing { return Err(StaleVersion); }
          if files[key].file.version != v { return Err(StaleVersion); }
        case Some(CreateIfAbsent) =>
          if existing { return Err(NotObserved); }
        case None =>
      }
      if io.WriteFails? { return Err(IoError); }
      files := files[key := Regular(File(version, content))];
      if io.StatFails? { return Err(IoError); }
      return Ok((existing, version));
    }

    /** The version guard comes before the match, so a stale edit is reported as stale. */
    method EditText(key: Key, edit: string -> Option<string>, expected: Option<Version>, cancelled: bool, io: Io, version: Version) returns (r: Result<Version, FsError>)
      modifies this
      ensures r == Err(OperationAborted) <==> cancelled
      ensures r == Err(NotRegularFile) <==> !cancelled && EntryAt(old(files), key) == Some(Irregular)
      ensures r == Err(StaleVersion) <==> !cancelled && (key !in old(files) || (expected.Some? && HasOtherVersion(old(files), key, expected.value)))
      ensures r == Err(EditRejected) ==> key in old(files) && old(files)[key].Regular? && edit(old(files)[key].file.content).None?
      ensures r == Err(IoError) ==> !io.Works?
      ensures r.Err? ==> r.error in {OperationAborted, NotRegularFile, StaleVersion, EditRejected, IoError}
      ensures r.Ok? ==> r.value == version && io.Works?
      // The file was replaced iff the edit came through, or only the look at the new file failed.
      ensures if r.Ok? || (r == Err(IoError) && io.StatFails?) then Edited(old(files), key, edit, version, files) else files == old(files)
      ensures !cancelled ==> EditRefusal(old(files), key, expected) == if r.Err? && r.error in {StaleVersion, NotRegularFile} then Some(r.error) else None
    {
      if cancelled { return Err(OperationAborted); }
      if key !in files { return Err(StaleVersion); }
      if files[key].Irregular? { return Err(NotRegularFile); }
      if expected.Some? && files[key].file.version != expected.value { return Err(StaleVersion); }
      if io.ReadFails? { return Err(IoError); }
      var edited := edit(files[key].file.content);
      if edited.None? { return Err(EditRejected); }
      if io.WriteFails? { return Err(IoError); }
      files := files[key := Regular(File(version, edited.value))];
      if io.StatFails? { return Err(IoError); }
      return Ok(version);
    }
  }

  // ----- Every interleaving of owners, and of writers outside the program -----

  /** A decided operation: the record its guard came from, and for an edit the function to apply. */
  datatype Decided = Decided(owner: Option<Owner>, key: Key, recorded: Option<Observation>, guard: Intent, edit: Option<string -> Option<string>>)

  /** One change of one file; `writer` is None for a writer outside the program. */
  datatype Change = Change(key: Key, before: Option<Entry>, after: Option<Entry>, writer: Option<Decided>)

  datatype State = State(observed: Records, files: Files, decided: map<nat, Decided>, history: seq<Change>)

  datatype Step =
    | Observe(observer: Option<Owner>, key: Key, observation: Observation)
    | Clear
    | DecideWrite(id: nat, owner: Option<Owner>, key: Key)
    | DecideEdit(id: nat, owner: Option<Owner>, key: Key, edit: string -> Option<string>)
    | Commit(id: nat, content: string, version: Version)
    | GiveUp(id: nat)
    | Outside(key: Key, entry: Option<Entry>)

  ghost predicate Issued(history: seq<Change>, version: Version) {
    exists i :: 0 <= i < |history| && history[i].after.Some? && history[i].after.value.Regular? && history[i].after.value.file.version == version
  }

  /** Every new file gets a version no file had before. */
  ghost predicate Enabled(st: State, step: Step) {
    match step
    case DecideWrite(id, _, _) => id !in st.decided
    case DecideEdit(id, _, _, _) => id !in st.decided
    case Commit(id, _, version) => id in st.decided && !Issued(st.history, version)
    case GiveUp(id) => id in st.decided
    case Outside(_, entry) => entry.Some? && entry.value.Regular? ==> !Issued(st.history, entry.value.file.version)
    case _ => true
  }

  function Put(files: Files, key: Key, entry: Option<Entry>): Files {
    match entry case Some(e) => files[key := e] case None => map k | k in files && k != key :: files[k]
  }

  /** What a decided operation writes, or None when the store refuses it. */
  function Written(files: Files, d: Decided, content: string): Option<string> {
    if d.edit.None? then if WriteRefusal(files, d.key, Some(d.guard)).None? then Some(content) else None
    else if d.guard.CreateIfAbsent? || EditRefusal(files, d.key, Some(d.guard.version)).Some? then None
    else d.edit.value(files[d.key].file.content)
  }

  function Record(st: State, key: Key, entry: Option<Entry>, writer: Option<Decided>): State {
    st.(files := Put(st.files, key, entry), history := st.history + [Change(key, EntryAt(st.files, key), entry, writer)])
  }

  function Next(st: State, step: Step): State {
    match step
    case Observe(owner, key, observation) =>
      if owner.None? then st else st.(observed := Observed(st.observed, owner.value, key, observation))
    case Clear => st.(observed := map[])
    case DecideWrite(id, owner, key) =>
      var recorded := Recorded(st.observed, owner, key);
      st.(decided := st.decided[id := Decided(owner, key, recorded, WriteGuard(recorded), None)])
    case DecideEdit(id, owner, key, edit) =>
      var recorded := Recorded(st.observed, owner, key);
      (match EditGuard(recorded)
       case Err(_) => st
       case Ok(guard) => st.(decided := st.decided[id := Decided(owner, key, recorded, guard, Some(edit))]))
    case Commit(id, content, version) =>
      if id !in st.decided then st
      else
        var d := st.decided[id];
        var done := st.(decided := st.decided - {id});
        (match Written(st.files, d, content)
         case None => done
         case Some(text) => Record(done, d.key, Some(Regular(File(version, text))), Some(d)))
    case GiveUp(id) => st.(decided := st.decided - {id})
    case Outside(key, entry) => Record(st, key, entry, None)
  }

  ghost predicate Allowed(st: State, steps: seq<Step>)
    decreases |steps|
  {
    steps == [] || (Enabled(st, steps[0]) && Allowed(Next(st, steps[0]), steps[1..]))
  }

  function After(st: State, steps: seq<Step>): State
    decreases |steps|
  {
    if steps == [] then st else After(Next(st, steps[0]), steps[1..])
  }

  function Start(): State {
    State(map[], map[], map[], [])
  }

  // ----- What every run keeps -----

  /** What the history says a key holds. */
  function Latest(history: seq<Change>, key: Key): Option<Entry> {
    if history == [] then None
    else if history[|history| - 1].key == key then history[|history| - 1].after
    else Latest(history[..|history| - 1], key)
  }

  /** The guard is the one its record gives. */
  predicate Guarded(d: Decided) {
    if d.edit.None? then d.guard == WriteGuard(d.recorded) else EditGuard(d.recorded) == Ok(d.guard)
  }

  /** A committed operation created an absent file, or replaced exactly the version its owner had
      recorded; an edit was applied to that version's content. */
  predicate Honest(c: Change) {
    c.writer.Some? ==>
      && c.after.Some? && c.after.value.Regular?
      && (match c.before
          case None => c.writer.value.recorded.None? || c.writer.value.recorded.value.Missing?
          case Some(e) => e.Regular? && c.writer.value.recorded == Some(Seen(e.file.version)))
      && (c.writer.value.edit.Some? ==>
            c.before.Some? && c.writer.value.edit.value(c.before.value.file.content) == Some(c.after.value.file.content))
  }

  /** A regular file this change put there, under a version it alone issued so far. */
  ghost predicate FreshAt(history: seq<Change>, i: nat)
    requires i < |history|
  {
    history[i].after.Some? && history[i].after.value.Regular? ==> !Issued(history[..i], history[i].after.value.file.version)
  }

  ghost predicate Inv(st: State) {
    && (forall key :: EntryAt(st.files, key) == Latest(st.history, key))
    && (forall id :: id in st.decided ==> Guarded(st.decided[id]))
    && (forall i :: 0 <= i < |st.history| ==> Sound(st.history, i))
  }

  /** The change is honest, issued a new version and started from what the key held. */
  ghost predicate Sound(history: seq<Change>, i: nat)
    requires i < |history|
  {
    Honest(history[i]) && FreshAt(history, i) && history[i].before == Latest(history[..i], history[i].key)
  }

  lemma SoundLater(history: seq<Change>, c: Change, i: nat)
    requires i < |history| && Sound(history, i)
    ensures Sound(history + [c], i)
  {
    hide Honest, Issued, Latest;
    assert (history + [c])[..i] == history[..i] && (history + [c])[i] == history[i];
  }

  lemma LastIsSound(history: seq<Change>, c: Change)
    requires Honest(c) && c.before == Latest(history, c.key)
    requires c.after.Some? && c.after.value.Regular? ==> !Issued(history, c.after.value.file.version)
    ensures Sound(history + [c], |history|)
    ensures forall k :: Latest(history + [c], k) == if k == c.key then c.after else Latest(history, k)
  {
    hide Honest, Issued;
    assert (history + [c])[..|history|] == history;
  }

  lemma RecordKeeps(st: State, key: Key, entry: Option<Entry>, writer: Option<Decided>)
    requires Inv(st) && Honest(Change(key, EntryAt(st.files, key), entry, writer))
    requires entry.Some? && entry.value.Regular? ==> !Issued(st.history, entry.value.file.version)
    ensures Inv(Record(st, key, entry, writer))
  {
    hide Honest, Guarded, Issued, Latest, Sound;
    var c, later := Change(key, EntryAt(st.files, key), entry, writer), Record(st, key, entry, writer);
    LastIsSound(st.history, c);
    forall i | 0 <= i < |later.history| ensures Sound(later.history, i) {
      if i < |st.history| { SoundLater(st.history, c, i); }
    }
    assert forall k :: EntryAt(later.files, k) == if k == key then entry else EntryAt(st.files, k);
  }

  lemma WrittenIsHonest(files: Files, d: Decided, content: string, version: Version)
    requires Guarded(d) && Written(files, d, content).Some?
    ensures Honest(Change(d.key, EntryAt(files, d.key), Some(Regular(File(version, Written(files, d, content).value))), Some(d)))
  {
  }

  lemma NextKeeps(st: State, step: Step)
    requires Inv(st) && Enabled(st, step)
    ensures Inv(Next(st, step))
  {
    hide Honest, Latest, Issued, Sound;
    match step
    case Commit(id, content, version) =>
      var d := st.decided[id];
      var done := st.(decided := st.decided - {id});
      if Written(st.files, d, content).Some? {
        WrittenIsHonest(st.files, d, content, version);
        RecordKeeps(done, d.key, Some(Regular(File(version, Written(st.files, d, content).value))), Some(d));
      }
    case Outside(key, entry) =>
      assert Honest(Change(key, EntryAt(st.files, key), entry, None)) by { OutsideIsHonest(key, EntryAt(st.files, key), entry); }
      RecordKeeps(st, key, entry, None);
    case _ =>
  }

  lemma OutsideIsHonest(key: Key, before: Option<Entry>, after: Option<Entry>)
    ensures Honest(Change(key, before, after, None))
  {
  }

  lemma {:induction false} RunsKeepInv(st: State, steps: seq<Step>)
    requires Inv(st) && Allowed(st, steps)
    ensures Inv(After(st, steps))
    decreases |steps|
  {
    hide Inv, Enabled, Next;
    if steps != [] {
      NextKeeps(st, steps[0]);
      RunsKeepInv(Next(st, steps[0]), steps[1..]);
    }
  }

  // ----- What is permitted happens -----

  /** The key still holds what the record says: the seen version, or nothing. */
  predicate AsRecorded(recorded: Option<Observation>, entry: Option<Entry>) {
    match recorded
    case Some(Seen(v)) => entry.Some? && entry.value.Regular? && entry.value.file.version == v
    case _ => entry.None?
  }

  /** A decided operation takes effect iff its key still holds what its owner had recorded and, for an edit,
      the edit applies to it; otherwise nothing changes. */
  lemma CommitWritesIff(st: State, id: nat, content: string, version: Version)
    requires Inv(st) && id in st.decided
    ensures var d, after := st.decided[id], Next(st, Commit(id, content, version));
            var entry := EntryAt(st.files, d.key);
            && (d.edit.None? && AsRecorded(d.recorded, entry) ==> EntryAt(after.files, d.key) == Some(Regular(File(version, content))))
            && (d.edit.Some? && AsRecorded(d.recorded, entry) && entry.Some? && d.edit.value(entry.value.file.content).Some? ==>
                  EntryAt(after.files, d.key) == Some(Regular(File(version, d.edit.value(entry.value.file.content).value))))
            && (!AsRecorded(d.recorded, entry) || (d.edit.Some? && (entry.None? || d.edit.value(entry.value.file.content).None?)) ==>
                  after.files == st.files && after.history == st.history)
            && (forall k :: k != d.key ==> EntryAt(after.files, k) == EntryAt(st.files, k))
  {
    hide Sound, Latest;
    assert Guarded(st.decided[id]);
  }

  /** A key nobody changed since holds what it held. */
  lemma {:induction false} UntouchedKeepsLatest(before: seq<Change>, after: seq<Change>, key: Key)
    requires before <= after && forall i :: |before| <= i < |after| ==> after[i].key != key
    ensures Latest(after, key) == Latest(before, key)
  {
    if |after| > |before| {
      UntouchedKeepsLatest(before, after[..|after| - 1], key);
    } else {
      assert after == before;
    }
  }

  /** Until it is committed or given up, a decided operation stays as it was decided, and the history grows. */
  lemma {:induction false} DecidedStays(st: State, steps: seq<Step>, id: nat)
    requires Allowed(st, steps) && id in st.decided && forall i :: 0 <= i < |steps| ==> !Finishes(steps[i], id)
    ensures var end := After(st, steps); id in end.decided && end.decided[id] == st.decided[id] && st.history <= end.history
    decreases |steps|
  {
    if steps != [] {
      StepKeepsDecided(st, steps[0], id);
      hide Next, Enabled;
      DecidedStays(Next(st, steps[0]), steps[1..], id);
    }
  }

  predicate Finishes(step: Step, id: nat) {
    (step.Commit? || step.GiveUp?) && step.id == id
  }

  lemma StepKeepsDecided(st: State, step: Step, id: nat)
    requires Enabled(st, step) && id in st.decided && !Finishes(step, id)
    ensures var next := Next(st, step); id in next.decided && next.decided[id] == st.decided[id] && st.history <= next.history
  {
    hide Issued, Written, Put;
  }

  /** An owner whose record is up to date when it decides to write gets its write in, whatever happens
      meanwhile, as long as nobody changes that key. */
  lemma UndisturbedWriteHappens(st: State, id: nat, owner: Option<Owner>, key: Key, steps: seq<Step>, content: string, version: Version)
    requires Inv(st) && Enabled(st, DecideWrite(id, owner, key)) && AsRecorded(Recorded(st.observed, owner, key), EntryAt(st.files, key))
    requires Allowed(Next(st, DecideWrite(id, owner, key)), steps) && forall i :: 0 <= i < |steps| ==> !Finishes(steps[i], id)
    requires var end := After(Next(st, DecideWrite(id, owner, key)), steps);
             forall i :: |st.history| <= i < |end.history| ==> end.history[i].key != key
    ensures var end := After(Next(st, DecideWrite(id, owner, key)), steps);
            EntryAt(Next(end, Commit(id, content, version)).files, key) == Some(Regular(File(version, content)))
  {
    var decided := Next(st, DecideWrite(id, owner, key));
    NextKeeps(st, DecideWrite(id, owner, key));
    assert decided.decided[id] == Decided(owner, key, Recorded(st.observed, owner, key), WriteGuard(Recorded(st.observed, owner, key)), None);
    assert decided.history == st.history && EntryAt(st.files, key) == Latest(st.history, key);
    DecidedStays(decided, steps, id);
    RunsKeepInv(decided, steps);
    var end := After(decided, steps);
    assert EntryAt(end.files, key) == Latest(end.history, key);
    hide Next, After, Allowed, Latest, Inv;
    UntouchedKeepsLatest(st.history, end.history, key);
    CommitWritesIff(end, id, content, version);
  }

  // ----- No lost update -----

  /** The change at j put the version on the key, and nothing touched the key between it and i. */
  ghost predicate LeftBy(history: seq<Change>, i: nat, j: nat, key: Key, version: Version)
    requires j < i <= |history|
  {
    && history[j].key == key && history[j].after.Some? && history[j].after.value.Regular? && history[j].after.value.file.version == version
    && forall m :: j < m < i ==> history[m].key != key
  }

  lemma {:induction false} LatestWasLeft(history: seq<Change>, key: Key, version: Version, content: string)
    requires Latest(history, key) == Some(Regular(File(version, content)))
    ensures exists j :: 0 <= j < |history| && LeftBy(history, |history|, j, key, version)
  {
    var n := |history|;
    if history[n - 1].key == key {
      assert LeftBy(history, n, n - 1, key, version);
    } else {
      LatestWasLeft(history[..n - 1], key, version, content);
      var j :| 0 <= j < n - 1 && LeftBy(history[..n - 1], n - 1, j, key, version);
      assert LeftBy(history, n, j, key, version);
    }
  }

  /** In every run, a committed replacement is based on the version its owner had recorded when the
      guard was decided, that version was issued once, and nothing changed the file since. */
  lemma NoLostUpdate(steps: seq<Step>, i: nat)
    requires Allowed(Start(), steps)
    requires var history := After(Start(), steps).history;
             i < |history| && history[i].writer.Some? && history[i].before.Some?
    ensures var history := After(Start(), steps).history;
            var c := history[i];
            && c.before.value.Regular? && c.writer.value.recorded == Some(Seen(c.before.value.file.version))
            && exists j :: 0 <= j < i && LeftBy(history, i, j, c.key, c.before.value.file.version) && FreshAt(history, j)
  {
    StartIsSound();
    RunsKeepInv(Start(), steps);
    hide Start, After, Allowed;
    var history := After(Start(), steps).history;
    var c := history[i];
    assert Sound(history, i);
    var file := c.before.value.file;
    LatestWasLeft(history[..i], c.key, file.version, file.content);
    var j :| 0 <= j < |history[..i]| && LeftBy(history[..i], |history[..i]|, j, c.key, file.version);
    assert LeftBy(history, i, j, c.key, file.version);
    assert Sound(history, j);
  }

  lemma StartIsSound()
    ensures Inv(Start())
  {
  }
}

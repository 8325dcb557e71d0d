/** src/setup/file_backup.rs: staged file replacement and the installer's in-memory
    backup, over a disk on which every operation may fail. The disk keeps the list of all
    states it has been in: a crash may stop the installer in any of them. */
module FileBackup {
  import opened Types

  /** The installer's own destinations, and the two names it makes up beside them. */
  datatype Path = User(dir: nat, name: nat) | Staged(dir: nat, serial: nat) | Old(dir: nat, serial: nat)

  /** Only regular files have contents the installer handles. */
  datatype Node = File(bytes: Bytes) | Other

  type Tree = map<Path, Node>

  function Lookup(t: Tree, p: Path): Option<Node> { if p in t then Some(t[p]) else None }

  datatype IoError = NotFound | AlreadyExists | Denied
  datatype Io<T> = Done(value: T) | Fails(error: IoError)

  /** The file system. Only the installer writes to it. Any operation on a path in `faulty`
      (locked, or beyond the installer's rights) may fail, this time or every time. */
  class Disk {
    const faulty: set<Path>
    var nodes: Tree
    ghost var states: seq<Tree>

    ghost predicate Valid() reads this { states != [] && states[|states| - 1] == nodes }

    constructor (nodes: Tree, faulty: set<Path>)
      ensures Valid() && this.nodes == nodes && states == [nodes] && this.faulty == faulty
    {
      this.faulty, this.nodes, states := faulty, nodes, [nodes];
    }

    /** `symlink_metadata`: NotFound is told from other failures. */
    method Inspect(p: Path) returns (r: Io<Node>)
      ensures r.Done? ==> Lookup(nodes, p) == Some(r.value)
      ensures r == Fails(NotFound) ==> p !in nodes
      ensures p !in faulty ==> r == if p in nodes then Done(nodes[p]) else Fails(NotFound)
    {
      var broken: bool :| broken ==> p in faulty;
      r := if broken then Fails(Denied) else if p in nodes then Done(nodes[p]) else Fails(NotFound);
    }

    /** `fs::read` */
    method Read(p: Path) returns (r: Io<Bytes>)
      ensures r.Done? ==> Lookup(nodes, p) == Some(File(r.value))
      ensures r == Fails(NotFound) ==> p !in nodes
      ensures p !in faulty && r.Fails? ==> Lookup(nodes, p) == if r.error == NotFound then None else Some(Other)
    {
      var broken: bool :| broken ==> p in faulty;
      r := if broken then Fails(Denied)
      else if p !in nodes then Fails(NotFound)
      else if nodes[p].File? then Done(nodes[p].bytes)
      else Fails(Denied);
    }

    method Exists(p: Path) returns (there: bool)
      ensures there == (p in nodes)
    {
      there := p in nodes;
    }

    /** `create_new` */
    method CreateNew(p: Path) returns (r: Io<()>)
      requires Valid()
      modifies this
      ensures Valid()
      ensures r == Fails(AlreadyExists) ==> p in nodes
      ensures r.Done? ==> p !in old(nodes)
      ensures nodes == if r.Done? then old(nodes)[p := File([])] else old(nodes)
      ensures states == if r.Done? then old(states) + [nodes] else old(states)
      ensures p !in faulty ==> r == if p in old(nodes) then Fails(AlreadyExists) else Done(())
    {
      var broken: bool :| broken ==> p in faulty;
      if p in nodes { return Fails(AlreadyExists); }
      if broken { return Fails(Denied); }
      nodes := nodes[p := File([])];
      states := states + [nodes];
      r := Done(());
    }

    /** `write_all` then `sync_all`: a failure, or a crash in between, leaves any prefix behind. */
    method WriteAndSync(p: Path, bytes: Bytes) returns (ok: bool)
      requires Valid() && p in nodes
      modifies this
      ensures Valid() && old(states) <= states
      ensures exists part :: nodes == old(nodes)[p := File(part)]
      ensures ok ==> nodes == old(nodes)[p := File(bytes)]
      ensures p !in faulty ==> ok
      ensures forall i | |old(states)| <= i < |states| :: exists part :: states[i] == old(nodes)[p := File(part)]
    {
      ghost var before := nodes;
      var written :| 0 <= written <= |bytes|;
      nodes := nodes[p := File(bytes[..written])];
      states := states + [nodes];
      ok :| !ok ==> p in faulty;
      if ok {
        nodes := nodes[p := File(bytes)];
        states := states + [nodes];
        assert nodes == before[p := File(bytes)];
      }
    }

    method Rename(from: Path, to: Path) returns (r: Io<()>)
      requires Valid() && from != to
      modifies this
      ensures Valid()
      ensures r == Fails(NotFound) ==> from !in nodes
      ensures r.Done? ==> from in old(nodes) && nodes == (old(nodes) - {from})[to := old(nodes)[from]]
      ensures !r.Done? ==> nodes == old(nodes)
      ensures states == if r.Done? then old(states) + [nodes] else old(states)
      ensures from !in faulty && to !in faulty ==> r.Done? || r == Fails(NotFound)
    {
      var broken: bool :| broken ==> from in faulty || to in faulty;
      if from !in nodes { return Fails(NotFound); }
      if broken { return Fails(Denied); }
      nodes := (nodes - {from})[to := nodes[from]];
      states := states + [nodes];
      r := Done(());
    }

    method Remove(p: Path) returns (r: Io<()>)
      requires Valid()
      modifies this
      ensures Valid()
      ensures r == Fails(NotFound) <==> p !in old(nodes)
      ensures nodes == if r.Done? then old(nodes) - {p} else old(nodes)
      ensures states == if r.Done? then old(states) + [nodes] else old(states)
      ensures p !in faulty && Lookup(old(nodes), p) != Some(Other) ==> r.Done? || r == Fails(NotFound)
    {
      if p !in nodes { return Fails(NotFound); }
      var broken: bool :| broken ==> p in faulty || nodes[p].Other?;
      if broken { return Fails(Denied); }
      nodes := nodes - {p};
      states := states + [nodes];
      r := Done(());
    }
  }

  // ---------------------------------------------------------------------------
  // What a crash may find
  // ---------------------------------------------------------------------------

  /** Nothing of the destination is lost: it still holds what it held, or that is kept under
      the `.old` name beside it, or the destination already holds the complete new bytes. */
  predicate Recoverable(t: Tree, path: Path, was: Option<Node>, bytes: Bytes, serial: nat) {
    || Lookup(t, path) == was
    || Lookup(t, path) == Some(File(bytes))
    || (was.Some? && Lookup(t, Old(path.dir, serial)) == was)
  }

  /** Every other entry that existed is untouched, and the only new ones are the two names
      made up for this replacement. */
  ghost predicate OthersKept(before: Tree, t: Tree, path: Path, serial: nat) {
    && (forall q | q in before && q != path :: Lookup(t, q) == Lookup(before, q))
    && (forall q | q in t && q !in before && q != path :: q == Staged(path.dir, serial) || q == Old(path.dir, serial))
  }

  ghost predicate CrashSafe(before: Tree, t: Tree, path: Path, bytes: Bytes, serial: nat) {
    && Recoverable(t, path, Lookup(before, path), bytes, serial)
    && OthersKept(before, t, path, serial)
  }

  /** The complete list of what a failed replacement may leave behind. */
  ghost predicate FailedCleanly(before: Tree, t: Tree, path: Path, bytes: Bytes, serial: nat) {
    var staged, previous := Staged(path.dir, serial), Old(path.dir, serial);
    // the destination untouched, or put back
    || t == before
    || t - {staged} == before
    // the rollback itself failed: the original is retained under the other name
    || (path in before && previous !in before && t - {staged} == (before - {path})[previous := before[path]])
    // published, and only the original could not be deleted
    || (path in before && previous !in before && t == before[previous := before[path]][path := File(bytes)])
  }

  /** With the destination and its `.old` name working, a failure has put everything back; only
      the staged file may be left. */
  ghost predicate PutBack(before: Tree, t: Tree, path: Path, serial: nat) {
    t == before || t - {Staged(path.dir, serial)} == before
  }

  /** Serials that are still to be drawn have left nothing behind. */
  ghost predicate NoOldAhead(before: Tree, t: Tree, next: nat) {
    forall dir: nat, s: nat | s >= next && Old(dir, s) in t :: Old(dir, s) in before
  }

  function AsNode(was: Option<Bytes>): Option<Node> {
    if was.Some? then Some(File(was.value)) else None
  }

  /** A state in the middle of putting one captured file back. */
  ghost predicate Restoring(before: Tree, t: Tree, path: Path, was: Option<Bytes>, serial: nat) {
    && OthersKept(before, t, path, serial)
    && match was {
         case Some(bytes) => Recoverable(t, path, Lookup(before, path), bytes, serial)
         case None => Lookup(t, path) == Lookup(before, path) || path !in t
       }
  }

  // ---------------------------------------------------------------------------
  // Replacement
  // ---------------------------------------------------------------------------

  /** The process-wide counter behind the staging names, and the disk. */
  class Installer {
    const disk: Disk
    var next: nat

    constructor (disk: Disk)
      ensures this.disk == disk && next == 0
    {
      this.disk, next := disk, 0;
    }

    /** Nothing stands in the way of replacing this destination. */
    ghost predicate Healthy(path: Path)
      reads this, disk
    {
      && path !in disk.faulty && Lookup(disk.nodes, path) != Some(Other)
      && (forall s: nat | s >= next :: Staged(path.dir, s) !in disk.faulty)
      && (forall s: nat | s >= next :: Old(path.dir, s) !in disk.faulty && Old(path.dir, s) !in disk.nodes)
    }

    ghost function Taken(dir: nat): set<Path>
      reads this, disk
    {
      set p | p in disk.nodes && p.Staged? && p.dir == dir && p.serial >= next
    }

    /** The loop that looks for a free staging name. */
    method Stage(dir: nat) returns (serial: nat, made: bool)
      requires disk.Valid()
      modifies this, disk
      ensures disk.Valid() && old(next) <= serial < next
      ensures made ==> Staged(dir, serial) !in old(disk.nodes)
      ensures disk.nodes == if made then old(disk.nodes)[Staged(dir, serial) := File([])] else old(disk.nodes)
      ensures disk.states == if made then old(disk.states) + [disk.nodes] else old(disk.states)
      ensures !made ==> Staged(dir, serial) in disk.faulty
    {
      while true
        invariant disk.Valid() && old(next) <= next
        invariant disk.nodes == old(disk.nodes) && disk.states == old(disk.states)
        decreases |Taken(dir)|
      {
        ghost var taken := Taken(dir);
        serial, next := next, next + 1;
        var r := disk.CreateNew(Staged(dir, serial));
        if r.Done? { return serial, true; }
        if r.error != AlreadyExists { return serial, false; }
        assert Taken(dir) <= taken - {Staged(dir, serial)};
        Shrinks(Taken(dir), taken, Staged(dir, serial));
      }
    }

    /** Retain the previous file, publish the staged one, and undo the first if the second fails. */
    method Swap(path: Path, bytes: Bytes, serial: nat, ghost before: Tree) returns (ok: bool)
      requires disk.Valid() && path.User?
      requires Staged(path.dir, serial) !in before && Old(path.dir, serial) !in before
      requires disk.nodes == before[Staged(path.dir, serial) := File(bytes)]
      modifies disk
      ensures disk.Valid() && old(disk.states) <= disk.states
      ensures forall i | |old(disk.states)| <= i < |disk.states| ::
                CrashSafe(before, disk.states[i], path, bytes, serial)
      ensures ok ==> disk.nodes == before[path := File(bytes)]
      ensures !ok ==> FailedCleanly(before, disk.nodes, path, bytes, serial)
      ensures {path, Staged(path.dir, serial), Old(path.dir, serial)} !! disk.faulty && Lookup(before, path) != Some(Other) ==> ok
      ensures !ok && {path, Old(path.dir, serial)} !! disk.faulty && Lookup(before, path) != Some(Other) ==>
                PutBack(before, disk.nodes, path, serial)
      ensures Lookup(disk.nodes, Staged(path.dir, serial)) in {None, Some(File(bytes))}
    {
      hide CrashSafe, FailedCleanly;
      var staged, previous := Staged(path.dir, serial), Old(path.dir, serial);
      ghost var base := disk.nodes;
      StagedIsSafe(before, base, path, bytes, bytes, serial);
      assert base[staged := File(bytes)] == base;
      var kept := disk.Rename(path, previous);
      if kept.Fails? && kept.error != NotFound { return false; }
      if kept.Done? { RetainedIsSafe(before, disk.nodes, path, bytes, serial); }
      var published := disk.Rename(staged, path);
      if published.Fails? {
        if kept.Done? {
          var undone := disk.Rename(previous, path);
          if undone.Done? { assert disk.nodes == base; }
        }
        return false;
      }
      PublishedIsSafe(before, disk.nodes, path, bytes, serial);
      if kept.Done? {
        assert previous in disk.nodes && previous !in before[path := File(bytes)];
        var removed := disk.Remove(previous);
        if removed.Done? { PublishedIsSafe(before, disk.nodes, path, bytes, serial); }
        return removed.Done?;
      }
      ok := true;
    }

    /** The part between creating the staged file and the final cleanup. `before` is the
        disk as it was before the staged file was created. */
    method Publish(path: Path, bytes: Bytes, serial: nat, ghost before: Tree) returns (ok: bool)
      requires disk.Valid() && path.User?
      requires path in before ==> before[path].File?
      requires Staged(path.dir, serial) !in before
      requires disk.nodes == before[Staged(path.dir, serial) := File([])]
      modifies disk
      ensures disk.Valid() && old(disk.states) <= disk.states
      ensures forall i | |old(disk.states)| <= i < |disk.states| ::
                CrashSafe(before, disk.states[i], path, bytes, serial)
      ensures ok ==> disk.nodes == before[path := File(bytes)]
      ensures !ok ==> FailedCleanly(before, disk.nodes, path, bytes, serial)
      ensures && {path, Staged(path.dir, serial), Old(path.dir, serial)} !! disk.faulty
              && Old(path.dir, serial) !in before
              ==> ok
      ensures !ok && {path, Old(path.dir, serial)} !! disk.faulty ==> PutBack(before, disk.nodes, path, serial)
      ensures Lookup(disk.nodes, Staged(path.dir, serial)) != Some(Other)
    {
      hide CrashSafe, FailedCleanly, PutBack;
      var staged := Staged(path.dir, serial);
      ghost var base := disk.nodes;
      forall part
        ensures CrashSafe(before, base[staged := File(part)], path, bytes, serial)
        ensures FailedCleanly(before, base[staged := File(part)], path, bytes, serial)
        ensures PutBack(before, base[staged := File(part)], path, serial)
      {
        StagedIsSafe(before, base, path, bytes, part, serial);
      }
      ok := disk.WriteAndSync(staged, bytes);
      if !ok { return; }
      var previous := Old(path.dir, serial);
      var blocked := disk.Exists(previous);
      if blocked { return false; }
      ok := Swap(path, bytes, serial, before);
    }

    /** `replace_file`: wherever it is cut short, and however it ends, nothing is lost. */
    method ReplaceFile(path: Path, bytes: Bytes) returns (ok: bool, ghost serial: nat)
      requires disk.Valid() && path.User?
      modifies this, disk
      ensures disk.Valid() && old(disk.states) <= disk.states
      ensures forall i | |old(disk.states)| <= i < |disk.states| ::
                CrashSafe(old(disk.nodes), disk.states[i], path, bytes, serial)
      ensures ok ==> disk.nodes == old(disk.nodes)[path := File(bytes)]
      ensures !ok ==> FailedCleanly(old(disk.nodes), disk.nodes, path, bytes, serial)
      ensures Lookup(old(disk.nodes), path) == Some(Other) ==> !ok && disk.nodes == old(disk.nodes)
      ensures old(Healthy(path)) ==> ok
      ensures !ok && {path, Old(path.dir, serial)} !! disk.faulty ==> PutBack(old(disk.nodes), disk.nodes, path, serial)
      ensures Staged(path.dir, serial) !in disk.faulty && Staged(path.dir, serial) in disk.nodes ==>
                Staged(path.dir, serial) in old(disk.nodes)
      ensures old(next) <= next && NoOldAhead(old(disk.nodes), disk.nodes, next)
    {
      hide CrashSafe, FailedCleanly, NoOldAhead, PutBack;
      serial := 0;
      Unchanged(disk.nodes, path, bytes, next);
      var found := disk.Inspect(path);
      if found.Fails? && found.error != NotFound { return false, 0; }
      if found.Done? && !found.value.File? { return false, 0; }
      ghost var before := disk.nodes;
      var s, made := Stage(path.dir);
      serial := s;
      Unchanged(before, path, bytes, next);
      if !made { return false, serial; }
      StagedIsSafe(before, disk.nodes, path, bytes, [], s);
      assert disk.nodes[Staged(path.dir, s) := File([])] == disk.nodes;
      ok := Publish(path, bytes, s, before);
      ghost var after := disk.nodes;
      var cleaned := disk.Remove(Staged(path.dir, s));
      Tidied(before, after, path, bytes, s);
      AheadIsClear(before, disk.nodes, path, bytes, s, next);
    }

    /** `restore_file`: a file that already holds the captured bytes is not rewritten. */
    method RestoreFile(path: Path, was: Option<Bytes>) returns (ok: bool, ghost serial: nat)
      requires disk.Valid() && path.User?
      modifies this, disk
      ensures disk.Valid() && old(disk.states) <= disk.states
      ensures forall i | |old(disk.states)| <= i < |disk.states| ::
                Restoring(old(disk.nodes), disk.states[i], path, was, serial)
      ensures ok ==> Lookup(disk.nodes, path) == AsNode(was)
      ensures path !in disk.faulty && Lookup(old(disk.nodes), path) == AsNode(was) ==> ok && disk.states == old(disk.states)
      ensures old(Healthy(path)) ==> ok
      ensures old(next) <= next && NoOldAhead(old(disk.nodes), disk.nodes, next)
    {
      serial := 0;
      match was
      case Some(bytes) =>
        var current := disk.Read(path);
        if current == Done(bytes) { return true, 0; }
        ok, serial := ReplaceFile(path, bytes);
      case None =>
        var removed := disk.Remove(path);
        ok := removed.Done? || removed.error == NotFound;
    }
  }

  lemma StagedIsSafe(before: Tree, base: Tree, path: Path, bytes: Bytes, part: Bytes, serial: nat)
    requires path.User? && Staged(path.dir, serial) !in before
    requires Staged(path.dir, serial) in base && base - {Staged(path.dir, serial)} == before
    ensures var t := base[Staged(path.dir, serial) := File(part)];
            CrashSafe(before, t, path, bytes, serial) && FailedCleanly(before, t, path, bytes, serial)
            && PutBack(before, t, path, serial)
  {
    assert base[Staged(path.dir, serial) := File(part)] - {Staged(path.dir, serial)} == before;
  }

  lemma RetainedIsSafe(before: Tree, t: Tree, path: Path, bytes: Bytes, serial: nat)
    requires path.User? && path in before
    requires Staged(path.dir, serial) !in before && Old(path.dir, serial) !in before
    requires t == (before[Staged(path.dir, serial) := File(bytes)] - {path})[Old(path.dir, serial) := before[path]]
    ensures CrashSafe(before, t, path, bytes, serial) && FailedCleanly(before, t, path, bytes, serial)
  {
    assert t - {Staged(path.dir, serial)} == (before - {path})[Old(path.dir, serial) := before[path]];
  }

  lemma PublishedIsSafe(before: Tree, t: Tree, path: Path, bytes: Bytes, serial: nat)
    requires path.User? && Staged(path.dir, serial) !in before && Old(path.dir, serial) !in before
    requires || t == before[path := File(bytes)]
             || (path in before && t == before[Old(path.dir, serial) := before[path]][path := File(bytes)])
    ensures CrashSafe(before, t, path, bytes, serial)
    ensures t == before[path := File(bytes)] || FailedCleanly(before, t, path, bytes, serial)
  {
  }

  lemma Unchanged(t: Tree, path: Path, bytes: Bytes, next: nat)
    ensures NoOldAhead(t, t, next) && forall serial: nat :: FailedCleanly(t, t, path, bytes, serial) && PutBack(t, t, path, serial)
  {
  }

  lemma AheadIsClear(before: Tree, t: Tree, path: Path, bytes: Bytes, serial: nat, next: nat)
    requires path.User? && serial < next
    requires CrashSafe(before, t, path, bytes, serial)
    ensures NoOldAhead(before, t, next)
  {
  }

  /** The final cleanup changes neither verdict. */
  lemma Tidied(before: Tree, t: Tree, path: Path, bytes: Bytes, serial: nat)
    requires path.User? && Staged(path.dir, serial) !in before
    requires CrashSafe(before, t, path, bytes, serial)
    ensures CrashSafe(before, t - {Staged(path.dir, serial)}, path, bytes, serial)
    ensures FailedCleanly(before, t, path, bytes, serial) ==>
              FailedCleanly(before, t - {Staged(path.dir, serial)}, path, bytes, serial)
    ensures PutBack(before, t, path, serial) ==> PutBack(before, t - {Staged(path.dir, serial)}, path, serial)
    ensures t == before[path := File(bytes)] ==> t - {Staged(path.dir, serial)} == t
  {
    var staged := Staged(path.dir, serial);
    assert (t - {staged}) - {staged} == t - {staged};
    if staged !in t { assert t - {staged} == t; }
  }

  // ---------------------------------------------------------------------------
  // The backup
  // ---------------------------------------------------------------------------

  datatype Saved = Saved(path: Path, was: Option<Bytes>)

  function Names(files: seq<Saved>): seq<Path> {
    seq(|files|, i requires 0 <= i < |files| => files[i].path)
  }

  /** The paths in the order of their first mention. */
  function Firsts(paths: seq<Path>): seq<Path> {
    if paths == [] then []
    else
      var rest := Firsts(paths[..|paths| - 1]);
      var last := paths[|paths| - 1];
      if last in rest then rest else rest + [last]
  }

  ghost predicate Distinct(paths: seq<Path>) {
    && (forall i | 0 <= i < |paths| :: paths[i].User?)
    && (forall i, j | 0 <= i < j < |paths| :: paths[i] != paths[j])
  }

  lemma {:induction false} FirstsAreDistinct(paths: seq<Path>)
    requires forall p | p in paths :: p.User?
    ensures Distinct(Firsts(paths))
    ensures forall p :: p in Firsts(paths) <==> p in paths
  {
    if paths != [] {
      FirstsAreDistinct(paths[..|paths| - 1]);
      assert paths == paths[..|paths| - 1] + [paths[|paths| - 1]];
    }
  }

  /** A faithful copy of what the disk held under `files`' paths. */
  ghost predicate Captured(t: Tree, files: seq<Saved>) {
    forall f | f in files :: Lookup(t, f.path) == AsNode(f.was)
  }

  /** `FileBackup::capture` */
  method Capture(disk: Disk, paths: seq<Path>) returns (r: Option<seq<Saved>>)
    ensures r.Some? ==> Names(r.value) == Firsts(paths) && Captured(disk.nodes, r.value)
    ensures (exists p | p in paths :: Lookup(disk.nodes, p) == Some(Other)) ==> r == None
    ensures (forall p | p in paths :: p !in disk.faulty && Lookup(disk.nodes, p) != Some(Other)) ==> r.Some?
  {
    var files: seq<Saved> := [];
    for i := 0 to |paths|
      invariant Names(files) == Firsts(paths[..i]) && Captured(disk.nodes, files)
      invariant forall p | p in paths[..i] :: Lookup(disk.nodes, p) != Some(Other)
    {
      var path := paths[i];
      assert paths[..i + 1][..i] == paths[..i];
      assert paths[..i + 1] == paths[..i] + [path];
      if exists f | f in files :: f.path == path {
        ghost var f :| f in files && f.path == path;
        ghost var k :| 0 <= k < |files| && files[k] == f;
        assert Names(files)[k] == path;
        continue;
      }
      assert path !in Names(files);
      var bytes := disk.Read(path);
      var saved;
      if bytes.Done? {
        saved := Saved(path, Some(bytes.value));
      } else if bytes.error == NotFound {
        saved := Saved(path, None);
      } else {
        return None;
      }
      assert Names(files + [saved]) == Names(files) + [path];
      files := files + [saved];
    }
    assert paths[..|paths|] == paths;
    r := Some(files);
  }

  /** Whatever `start` held under the captured path is not lost in `t`. */
  ghost predicate Survives(start: Tree, t: Tree, f: Saved) {
    if f.was.Some? then exists serial: nat :: Recoverable(t, f.path, Lookup(start, f.path), f.was.value, serial)
    else Lookup(t, f.path) == Lookup(start, f.path) || f.path !in t
  }

  /** One file at a time: what a step does to the file it works on and to the others. */
  lemma RestoringOne(start: Tree, before: Tree, t: Tree, files: seq<Saved>, at: nat, serial: nat)
    requires at < |files| && Distinct(Names(files))
    requires Lookup(before, files[at].path) == Lookup(start, files[at].path)
    requires forall f | f in files :: Survives(start, before, f)
    requires Restoring(before, t, files[at].path, files[at].was, serial)
    ensures forall f | f in files :: Survives(start, t, f)
    ensures forall q: Path | q.User? && q != files[at].path :: Lookup(t, q) == Lookup(before, q)
  {
    forall q: Path | q.User? && q != files[at].path ensures Lookup(t, q) == Lookup(before, q) {}
    forall f | f in files ensures Survives(start, t, f) {
      var k :| 0 <= k < |files| && files[k] == f;
      assert Survives(start, before, f);
      assert Names(files)[k] == f.path && Names(files)[k].User?;
      assert Names(files)[at] == files[at].path;
      if k == at {
        if f.was.Some? { assert Recoverable(t, f.path, Lookup(start, f.path), f.was.value, serial); }
      } else if f.was.Some? {
        var s: nat :| Recoverable(before, f.path, Lookup(start, f.path), f.was.value, s);
        assert Lookup(t, Old(f.path.dir, s)) == Lookup(before, Old(f.path.dir, s)) || Old(f.path.dir, s) !in before;
        assert Recoverable(t, f.path, Lookup(start, f.path), f.was.value, s);
      }
    }
  }

  lemma StillAsCaptured(files: seq<Saved>, i: nat)
    requires i < |files| && Distinct(Names(files))
    ensures files[i].path.User? && files[i].path !in Names(files[i + 1..])
    ensures forall k | 0 <= k < |files| && k != i :: files[k].path.User? && files[k].path != files[i].path
    ensures forall p | p in Names(files[i + 1..]) :: p in Names(files[i..])
    ensures files[i].path in Names(files[i..])
  {
    var names := Names(files);
    forall k | 0 <= k < |files| ensures names[k] == files[k].path && names[k].User? {}
    assert Names(files[i + 1..]) == names[i + 1..];
    assert Names(files[i..]) == names[i..] == [names[i]] + names[i + 1..];
  }

  /** `FileBackup::restore`: backwards over the captured files, collecting the failures. A
      failure never keeps another file from being restored, and at no point is what the disk
      held when the rollback began lost. */
  method Restore(installer: Installer, files: seq<Saved>) returns (failures: seq<Path>)
    requires installer.disk.Valid() && Distinct(Names(files))
    modifies installer, installer.disk
    ensures installer.disk.Valid() && old(installer.disk.states) <= installer.disk.states
    ensures forall f | f in files && f.path !in failures :: Lookup(installer.disk.nodes, f.path) == AsNode(f.was)
    ensures failures == [] ==> Captured(installer.disk.nodes, files)
    ensures forall f | f in files && old(installer.Healthy(f.path)) :: f.path !in failures
    ensures forall q: Path | q.User? && q !in Names(files) ::
              Lookup(installer.disk.nodes, q) == Lookup(old(installer.disk.nodes), q)
    ensures forall i, f | |old(installer.disk.states)| <= i < |installer.disk.states| && f in files ::
              Survives(old(installer.disk.nodes), installer.disk.states[i], f)
  {
    var disk := installer.disk;
    ghost var start := disk.nodes;
    failures := [];
    var i := |files|;
    forall f | f in files ensures Survives(start, start, f) {
      if f.was.Some? { assert Recoverable(start, f.path, Lookup(start, f.path), f.was.value, 0); }
    }
    while i > 0
      invariant 0 <= i <= |files|
      invariant disk.Valid() && old(disk.states) <= disk.states
      invariant forall k | i <= k < |files| && files[k].path !in failures ::
                  Lookup(disk.nodes, files[k].path) == AsNode(files[k].was)
      invariant forall p | p in failures :: exists k :: i <= k < |files| && files[k].path == p
      invariant forall p | p in failures :: !old(installer.Healthy(p))
      invariant old(installer.next) <= installer.next && NoOldAhead(start, disk.nodes, installer.next)
      invariant forall q: Path | q.User? && q !in Names(files[i..]) :: Lookup(disk.nodes, q) == Lookup(start, q)
      invariant forall f | f in files :: Survives(start, disk.nodes, f)
      invariant forall s, f | |old(disk.states)| <= s < |disk.states| && f in files :: Survives(start, disk.states[s], f)
    {
      i := i - 1;
      var f := files[i];
      ghost var before, mark := disk.nodes, |disk.states|;
      StillAsCaptured(files, i);
      var ok, serial := installer.RestoreFile(f.path, f.was);
      forall s | mark <= s < |disk.states| ensures forall g | g in files :: Survives(start, disk.states[s], g) {
        RestoringOne(start, before, disk.states[s], files, i, serial);
      }
      RestoringOne(start, before, disk.nodes, files, i, serial);
      if !ok { failures := failures + [f.path]; }
    }
  }

  lemma Shrinks(small: set<Path>, big: set<Path>, gone: Path)
    requires gone in big && small <= big - {gone}
    ensures |small| < |big|
  {
    SubsetSize(small, big - {gone});
  }

  lemma {:induction false} SubsetSize(small: set<Path>, big: set<Path>)
    requires small <= big
    ensures |small| <= |big|
    decreases small
  {
    if p :| p in small {
      SubsetSize(small - {p}, big - {p});
    }
  }
}

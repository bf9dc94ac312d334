/** Snapshots and rollback: a manager records, per snapshot, the files changed (with the bytes they
    held before) and the packages installed, and undoes snapshots newest first. */
module Rollback {
  import opened Wrappers
  import opened Utf8
  import opened Machine
  import opened Distro
  import opened Plans
  import opened Shell

  datatype FileChange = FileChange(path: string, original: Bytes)

  datatype Snapshot = Snapshot(filesChanged: seq<FileChange>, packagesInstalled: seq<string>)

  /** A snapshot as `create_snapshot` makes it. */
  const Fresh := Snapshot([], [])

  const InvalidId := "Invalid snapshot ID"

  /** The file restores of a snapshot, in recording order. */
  function Restores(changes: seq<FileChange>): (steps: seq<Step>)
    ensures |steps| == |changes|
    ensures forall i :: 0 <= i < |changes| ==> steps[i] == Put(changes[i].path, changes[i].original)
  {
    seq(|changes|, i requires 0 <= i < |changes| => Put(changes[i].path, changes[i].original))
  }

  /** The removals of a snapshot's packages through manager `pm`, in recording order. */
  function Removals(pm: PackageManager, packages: seq<string>): (steps: seq<Step>)
    ensures |steps| == |packages|
    ensures forall i :: 0 <= i < |packages| ==> steps[i] == Exec(Uninstall(pm, packages[i]))
  {
    seq(|packages|, i requires 0 <= i < |packages| => Exec(Uninstall(pm, packages[i])))
  }

  /** Detection, then the removals through whatever manager it finds. */
  function RemovalStep(packages: seq<string>): Step {
    OnManager(Removals(Apt, packages), Removals(Yum, packages), Removals(Dnf, packages))
  }

  /** `rollback_snapshot`: every file restored, then the package manager detected (even when there
      is no package to remove), then every package removed. */
  function Undo(s: Snapshot): seq<Step> {
    Restores(s.filesChanged) + [RemovalStep(s.packagesInstalled)]
  }

  /** The undo of a list of snapshots, newest first. */
  function UndoNewestFirst(snapshots: seq<Snapshot>): seq<Step>
    decreases |snapshots|
  {
    if snapshots == [] then []
    else Undo(snapshots[|snapshots| - 1]) + UndoNewestFirst(snapshots[..|snapshots| - 1])
  }

  /** `rollback_to(id)`: an invalid id is refused before anything is undone. */
  function UndoTo(snapshots: seq<Snapshot>, id: nat): seq<Step> {
    if id >= |snapshots| then [Abort(InvalidId)] else UndoNewestFirst(snapshots[id..])
  }

  /** The contents the last capture of `path` among `changes` recorded. */
  function LastCapture(changes: seq<FileChange>, path: string): Option<Bytes>
    decreases |changes|
  {
    if changes == [] then None
    else if changes[|changes| - 1].path == path then Some(changes[|changes| - 1].original)
    else LastCapture(changes[..|changes| - 1], path)
  }

  /** The contents a rollback of `snapshots` brings `path` back to: the last capture in the oldest
      snapshot that captured it at all. */
  function Restored(snapshots: seq<Snapshot>, path: string): Option<Bytes>
    decreases |snapshots|
  {
    if snapshots == [] then None
    else match Restored(snapshots[..|snapshots| - 1], path)
      case Some(b) => Some(b)
      case None => LastCapture(snapshots[|snapshots| - 1].filesChanged, path)
  }

  /** The state after a rollback `from` world `w` agrees with what the captures say of `path`. */
  predicate RestoredAt(after: Files, before: Files, capture: Option<Bytes>, path: string) {
    match capture
    case Some(b) => path in after && after[path] == b
    case None => Agree(after, before, path)
  }

  lemma {:induction false} RestoresPrefix(o: Oracle, w: World, changes: seq<FileChange>, k: nat, path: string)
    requires k <= |changes| && Run(o, w, Restores(changes)[..k]).outcome.Pass?
    ensures RestoredAt(Run(o, w, Restores(changes)[..k]).world.files, w.files, LastCapture(changes[..k], path), path)
    decreases k
  {
    if k > 0 {
      var steps := Restores(changes);
      assert steps[..k] == steps[..k - 1] + [steps[k - 1]];
      RunSnoc(o, w, steps[..k - 1], steps[k - 1]);
      RestoresPrefix(o, w, changes, k - 1, path);
      assert changes[..k][..k - 1] == changes[..k - 1];
    } else {
      assert Restores(changes)[..0] == [];
    }
  }

  /** A successful undo of one snapshot leaves each recorded path with its last capture and every
      other path as it was. */
  lemma UndoRestores(o: Oracle, w: World, s: Snapshot, path: string)
    requires Run(o, w, Undo(s)).outcome.Pass?
    ensures RestoredAt(Run(o, w, Undo(s)).world.files, w.files, LastCapture(s.filesChanged, path), path)
  {
    var steps := Restores(s.filesChanged);
    RunAppend(o, w, steps, [RemovalStep(s.packagesInstalled)]);
    assert steps[..|steps|] == steps;
    assert s.filesChanged[..|s.filesChanged|] == s.filesChanged;
    RestoresPrefix(o, w, s.filesChanged, |steps|, path);
    var mid := Run(o, w, steps).world;
    assert path !in Targets([RemovalStep(s.packagesInstalled)]) by {
      NoTargets(Removals(Apt, s.packagesInstalled));
      NoTargets(Removals(Yum, s.packagesInstalled));
      NoTargets(Removals(Dnf, s.packagesInstalled));
    }
    RunFrame(o, mid, [RemovalStep(s.packagesInstalled)], path);
  }

  /** Removals write no file. */
  lemma {:induction false} NoTargets(steps: seq<Step>)
    requires forall i :: 0 <= i < |steps| ==> steps[i].Exec?
    ensures Targets(steps) == {}
    decreases steps
  {
    if steps != [] {
      NoTargets(steps[1..]);
    }
  }

  /** A successful rollback of `snapshots` brings every recorded path back to its last capture in
      the oldest snapshot that recorded it, and leaves every other path as it was. */
  lemma {:induction false} RollbackRestores(o: Oracle, w: World, snapshots: seq<Snapshot>, path: string)
    requires Run(o, w, UndoNewestFirst(snapshots)).outcome.Pass?
    ensures RestoredAt(Run(o, w, UndoNewestFirst(snapshots)).world.files, w.files, Restored(snapshots, path), path)
    decreases |snapshots|
  {
    if snapshots != [] {
      var newest := snapshots[|snapshots| - 1];
      var older := snapshots[..|snapshots| - 1];
      RunAppend(o, w, Undo(newest), UndoNewestFirst(older));
      UndoRestores(o, w, newest, path);
      var mid := Run(o, w, Undo(newest)).world;
      RollbackRestores(o, mid, older, path);
    }
  }

  /** The snapshot a rollback ends at wins: the bytes it captured last for a path are what the
      path holds after a successful `rollback_to` of that snapshot, whatever was written to it
      since. */
  lemma RollbackToRoundTrip(o: Oracle, w: World, snapshots: seq<Snapshot>, id: nat, path: string, captured: Bytes)
    requires id < |snapshots| && LastCapture(snapshots[id].filesChanged, path) == Some(captured)
    requires Run(o, w, UndoTo(snapshots, id)).outcome.Pass?
    ensures path in Run(o, w, UndoTo(snapshots, id)).world.files
    ensures Run(o, w, UndoTo(snapshots, id)).world.files[path] == captured
  {
    OldestWins(snapshots[id..], path, captured);
    RollbackRestores(o, w, snapshots[id..], path);
  }

  lemma {:induction false} OldestWins(snapshots: seq<Snapshot>, path: string, captured: Bytes)
    requires snapshots != [] && LastCapture(snapshots[0].filesChanged, path) == Some(captured)
    ensures Restored(snapshots, path) == Some(captured)
    decreases |snapshots|
  {
    if |snapshots| > 1 {
      OldestWins(snapshots[..|snapshots| - 1], path, captured);
    } else {
      assert snapshots[..0] == [];
    }
  }

  /** Snapshots older than the one a rollback ends at are not touched: a path only they captured
      keeps its current contents. */
  lemma RollbackToKeepsOlder(o: Oracle, w: World, snapshots: seq<Snapshot>, id: nat, path: string)
    requires id < |snapshots| && Restored(snapshots[id..], path) == None
    requires Run(o, w, UndoTo(snapshots, id)).outcome.Pass?
    ensures Agree(Run(o, w, UndoTo(snapshots, id)).world.files, w.files, path)
  {
    RollbackRestores(o, w, snapshots[id..], path);
  }

  /** A rollback of snapshots that recorded nothing changes nothing at all; it fails exactly when
      there is a snapshot and no package manager can be detected. */
  lemma {:induction false} EmptyRollbackInert(o: Oracle, w: World, snapshots: seq<Snapshot>)
    requires forall i :: 0 <= i < |snapshots| ==> snapshots[i] == Fresh
    ensures Run(o, w, UndoNewestFirst(snapshots)) ==
            if snapshots == [] || Detect(w.files).Ok? then Exit(Pass, w) else Exit(Fail(Unsupported), w)
    decreases |snapshots|
  {
    if snapshots != [] {
      var older := snapshots[..|snapshots| - 1];
      assert Undo(Fresh) == [RemovalStep([])];
      RunAppend(o, w, Undo(Fresh), UndoNewestFirst(older));
      EmptyRollbackInert(o, w, older);
    }
  }

  /** When nothing fails, undoing a snapshot writes back each captured file in recording order and
      then removes each package in recording order through the detected manager. */
  lemma UndoScript(s: Snapshot, pm: PackageManager)
    ensures NoEdit(Undo(s))
    ensures Script(Undo(s), pm).outcome == Pass
    ensures Script(Undo(s), pm).events ==
            Events(Restores(s.filesChanged)) + Events(Removals(pm, s.packagesInstalled))
  {
    var restores := Restores(s.filesChanged);
    var packages := s.packagesInstalled;
    var removals := Removals(pm, packages);
    ExecScript(restores, pm);
    ExecScript(Removals(Apt, packages), Apt);
    ExecScript(Removals(Yum, packages), Yum);
    ExecScript(Removals(Dnf, packages), Dnf);
    ExecScript(removals, pm);
    assert Branch(pm, Removals(Apt, packages), Removals(Yum, packages), Removals(Dnf, packages)) == removals;
    assert StepNoEdit(RemovalStep(packages));
    assert StepScript(RemovalStep(packages), pm) == Script(removals, pm);
    assert Script([RemovalStep(packages)], pm) == Script(removals, pm) by {
      assert [RemovalStep(packages)][1..] == [];
    }
    ScriptAppend(restores, [RemovalStep(packages)], pm);
  }

  class RollbackManager {
    var snapshots: seq<Snapshot>

    /** `RollbackManager::new`. */
    constructor ()
      ensures snapshots == []
    {
      snapshots := [];
    }

    /** `create_snapshot`: appends an empty snapshot; ids are handed out consecutively from 0. */
    method CreateSnapshot() returns (id: nat)
      modifies this
      ensures snapshots == old(snapshots) + [Fresh]
      ensures id == |old(snapshots)| && snapshots[id] == Fresh
    {
      snapshots := snapshots + [Fresh];
      id := |snapshots| - 1;
    }

    /** `add_file_change`: captures the file's bytes as they are now into snapshot `id`; when the
        file cannot be read, the error is returned and no snapshot changes. */
    method AddFileChange(h: Host, id: nat, path: string) returns (r: Outcome)
      requires path in h.files ==> id < |snapshots|
      modifies this
      ensures path in h.files ==> r == Pass && snapshots == old(snapshots)[id := Snapshot(
                old(snapshots)[id].filesChanged + [FileChange(path, h.files[path])],
                old(snapshots)[id].packagesInstalled)]
      ensures path !in h.files ==> r == Fail(NotFound) && snapshots == old(snapshots)
    {
      var content := h.ReadFile(path);
      if content.Err? {
        return Fail(content.message);
      }
      var s := snapshots[id];
      snapshots := snapshots[id := Snapshot(s.filesChanged + [FileChange(path, content.value)], s.packagesInstalled)];
      r := Pass;
    }

    /** `add_package_installed`: appends the package to snapshot `id` only. */
    method AddPackageInstalled(id: nat, package: string)
      requires id < |snapshots|
      modifies this
      ensures snapshots == old(snapshots)[id := Snapshot(old(snapshots)[id].filesChanged,
                                                         old(snapshots)[id].packagesInstalled + [package])]
    {
      var s := snapshots[id];
      snapshots := snapshots[id := Snapshot(s.filesChanged, s.packagesInstalled + [package])];
    }

    /** `commit_snapshot`: a placeholder that always succeeds and changes nothing. */
    method CommitSnapshot(id: nat) returns (r: Outcome)
      ensures r == Pass
    {
      r := Pass;
    }

    /** `rollback_snapshot`. */
    method RollbackSnapshot(h: Host, s: Snapshot) returns (r: Outcome)
      modifies h
      ensures Exit(r, h.World()) == Run(h.oracle, old(h.World()), Undo(s))
    {
      ghost var w0 := h.World();
      var changes := s.filesChanged;
      ghost var removal := [RemovalStep(s.packagesInstalled)];
      var i := 0;
      while i < |changes|
        invariant 0 <= i <= |changes|
        invariant Run(h.oracle, w0, Undo(s)) == Run(h.oracle, h.World(), Restores(changes)[i..] + removal)
      {
        ghost var rest := Restores(changes)[i..] + removal;
        assert rest[0] == Put(changes[i].path, changes[i].original);
        assert rest[1..] == Restores(changes)[i + 1..] + removal;
        r := h.WriteFile(changes[i].path, changes[i].original);
        if r.Fail? {
          return;
        }
        i := i + 1;
      }
      assert Restores(changes)[i..] + removal == removal;
      RunSingle(h.oracle, h.World(), RemovalStep(s.packagesInstalled));
      var pm := h.PackageManager();
      if pm.Err? {
        return Fail(pm.message);
      }
      var packages := s.packagesInstalled;
      ghost var removals := Removals(pm.value, packages);
      assert Branch(pm.value, Removals(Apt, packages), Removals(Yum, packages), Removals(Dnf, packages)) == removals;
      var j := 0;
      r := Pass;
      while j < |packages|
        invariant 0 <= j <= |packages| && r.Pass?
        invariant Run(h.oracle, w0, Undo(s)) == Run(h.oracle, h.World(), removals[j..])
      {
        assert removals[j..][0] == Exec(Uninstall(pm.value, packages[j]));
        assert removals[j..][1..] == removals[j + 1..];
        r := h.RunCommand(Uninstall(pm.value, packages[j]));
        if r.Fail? {
          return;
        }
        j := j + 1;
      }
      assert removals[j..] == [];
    }

    /** `rollback_all`: every snapshot undone, newest first; the first failure ends the rollback. */
    method RollbackAll(h: Host) returns (r: Outcome)
      modifies h
      ensures Exit(r, h.World()) == Run(h.oracle, old(h.World()), UndoNewestFirst(snapshots))
      ensures snapshots == old(snapshots)
    {
      r := UndoDownTo(h, 0);
      assert snapshots[0..] == snapshots;
    }

    /** `rollback_to(id)`: snapshots from the newest down to `id` undone; an id past the end is
        refused with "Invalid snapshot ID" before anything happens. */
    method RollbackTo(h: Host, id: nat) returns (r: Outcome)
      modifies h
      ensures Exit(r, h.World()) == Run(h.oracle, old(h.World()), UndoTo(snapshots, id))
      ensures snapshots == old(snapshots)
    {
      if id >= |snapshots| {
        return Fail(InvalidId);
      }
      r := UndoDownTo(h, id);
    }

    /** The loop the two rollbacks share: snapshots `|snapshots| - 1` down to `low`. */
    method UndoDownTo(h: Host, low: nat) returns (r: Outcome)
      requires low <= |snapshots|
      modifies h
      ensures Exit(r, h.World()) == Run(h.oracle, old(h.World()), UndoNewestFirst(snapshots[low..]))
    {
      ghost var w0 := h.World();
      var i := |snapshots|;
      r := Pass;
      assert snapshots[low..i] == snapshots[low..];
      while i > low
        invariant low <= i <= |snapshots| && r.Pass?
        invariant Run(h.oracle, w0, UndoNewestFirst(snapshots[low..])) ==
                  Run(h.oracle, h.World(), UndoNewestFirst(snapshots[low..i]))
      {
        ghost var before := h.World();
        assert snapshots[low..i][..i - 1 - low] == snapshots[low..i - 1];
        assert UndoNewestFirst(snapshots[low..i]) ==
               Undo(snapshots[i - 1]) + UndoNewestFirst(snapshots[low..i - 1]);
        RunAppend(h.oracle, before, Undo(snapshots[i - 1]), UndoNewestFirst(snapshots[low..i - 1]));
        r := RollbackSnapshot(h, snapshots[i - 1]);
        if r.Fail? {
          return;
        }
        i := i - 1;
      }
      assert snapshots[low..i] == [];
    }
  }
}

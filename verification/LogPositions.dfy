/**
 How far each file has been delivered, and what is kept of it on disk
 (internal/logs/positions.go).
 */
module LogPositions {
  import opened Prelude

  datatype Position = Position(inode: nat, offset: nat)

  type PosMap = map<string, Position>

  /** Reading a missing key of a Go map gives the zero value. */
  function Lookup(m: PosMap, path: string): Position {
    if path in m then m[path] else Position(0, 0)
  }

  function SetPos(m: PosMap, path: string, pos: Position): PosMap {
    if Lookup(m, path) == pos then m else m[path := pos]
  }

  function ForgetPos(m: PosMap, path: string): PosMap {
    m - {path}
  }

  /** The state file: absent, not JSON, or what some Save wrote. */
  datatype StateFile = Missing | Broken | Saved(files: PosMap, journal: string)

  function LoadedFiles(f: StateFile): PosMap {
    if f.Saved? then f.files else map[]
  }

  function LoadedJournal(f: StateFile): string {
    if f.Saved? then f.journal else ""
  }

  class Positions {
    const hasPath: bool
    var files: PosMap
    var journal: string
    var dirty: bool
    /** The file in the state directory. */
    var disk: StateFile
    /** True from a write that failed until one succeeds. */
    ghost var failed: bool

    /** A clean record is the one a restart would load, unless the last write failed. */
    ghost predicate Valid()
      reads this
    {
      !dirty && !failed ==> files == LoadedFiles(disk) && journal == LoadedJournal(disk)
    }

    /** LoadPositions: without a state directory nothing is read or ever written. */
    constructor (stateDir: bool, found: StateFile)
      ensures Valid() && hasPath == stateDir && !dirty && !failed
      ensures files == (if stateDir then LoadedFiles(found) else map[])
      ensures journal == (if stateDir then LoadedJournal(found) else "")
      ensures disk == (if stateDir then found else Missing)
    {
      hasPath := stateDir;
      disk := if stateDir then found else Missing;
      files := if stateDir then LoadedFiles(found) else map[];
      journal := if stateDir then LoadedJournal(found) else "";
      dirty, failed := false, false;
    }

    method File(path: string) returns (pos: Option<Position>)
      ensures pos.Some? <==> path in files
      ensures pos.Some? ==> files[path] == pos.value
    {
      pos := if path in files then Some(files[path]) else None;
    }

    method SetFile(path: string, pos: Position)
      requires Valid()
      modifies this`files, this`dirty
      ensures Valid()
      ensures files == SetPos(old(files), path, pos)
      ensures dirty == (old(dirty) || files != old(files))
    {
      if Lookup(files, path) != pos {
        var before := files;
        files := files[path := pos];
        dirty := true;
        assert files[path] != Lookup(before, path);
        assert files != before by {
          if path in before { assert files[path] != before[path]; }
        }
      }
    }

    method Forget(path: string)
      requires Valid()
      modifies this`files, this`dirty
      ensures Valid()
      ensures files == ForgetPos(old(files), path)
      ensures dirty == (old(dirty) || path in old(files))
    {
      if path in files {
        files := files - {path};
        dirty := true;
      } else {
        assert files == files - {path};
      }
    }

    method SetJournalCursor(c: string)
      requires Valid()
      modifies this`journal, this`dirty
      ensures Valid()
      ensures journal == c && dirty == (old(dirty) || c != old(journal))
    {
      if journal != c {
        journal := c;
        dirty := true;
      }
    }

    /**
     Writes the record if it changed. Whether or not the write succeeds the
     record counts as clean afterwards, so a failed write is not retried until
     the next change.
     */
    method Save(writeOk: bool)
      requires Valid()
      modifies this`dirty, this`disk, this`failed
      ensures Valid()
      ensures !old(dirty) || !hasPath ==> disk == old(disk) && dirty == old(dirty) && failed == old(failed)
      ensures old(dirty) && hasPath ==> !dirty && failed == !writeOk
      ensures old(dirty) && hasPath && writeOk ==> LoadedFiles(disk) == files && LoadedJournal(disk) == journal
      ensures old(dirty) && hasPath && !writeOk ==> disk == old(disk)
    {
      if !dirty || !hasPath {
        return;
      }
      dirty := false;
      failed := !writeOk;
      if writeOk {
        disk := Saved(files, journal);
      }
    }
  }

  /**
   A position whose write failed stays off the disk: the next save writes
   nothing unless something changed in between, and then it writes everything.
   */
  method SaveAfterFailure(p: Positions, path: string, pos: Position, path2: string, pos2: Position)
    requires p.Valid() && p.hasPath && Lookup(p.files, path) != pos
    modifies p
    ensures p.Valid() && !p.dirty
    ensures var changed := Lookup(SetPos(old(p.files), path, pos), path2) != pos2;
            if changed then LoadedFiles(p.disk) == p.files else p.disk == old(p.disk)
    ensures path2 != path ==> path in p.files && p.files[path] == pos
  {
    p.SetFile(path, pos);
    p.Save(false);
    p.SetFile(path2, pos2);
    p.Save(true);
  }
}

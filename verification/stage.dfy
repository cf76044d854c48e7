/**
Stage-in of a Bed's local directory on a file tree. Every primitive may fail, a removal may stop
half-way, and the process may stop after any primitive: `log` is every tree the disk went through.
*/
module StageIn {
  import opened Common

  datatype Path = BedDir | Staging(n: int) | Replaced(n: int)

  /** A directory tree that is complete, or one that is being written or removed. */
  datatype Tree = Whole(content: int) | Partial

  type Files = map<Path, Tree>

  datatype Presence = Present | Absent | Unreadable

  datatype Source = Fresh | Luggage | FromSnapshot
  datatype Outcome = Ready(source: Source) | Failed

  datatype Snapshot = Snapshot(generation: int, content: int)

  const NO_CONTENT: int := 0

  /** `d` is `was` with at most the tree at `p` gone or incomplete. */
  predicate Removing(was: Files, d: Files, p: Path) {
    d == was - {p} || (p in was && d == was[p := Partial])
  }

  class Disk {
    var files: Files
    ghost var log: seq<Files>

    constructor (files: Files)
      ensures this.files == files && log == [files]
    {
      this.files := files;
      log := [files];
    }

    method Stat(p: Path) returns (r: Presence)
      ensures r.Present? ==> p in files
      ensures r.Absent? ==> p !in files
    {
      var readable: bool := *;
      r := if !readable then Unreadable else if p in files then Present else Absent;
    }

    /** Creates an empty directory at a path that is not in use. */
    method Mkdir(p: Path) returns (ok: bool)
      requires p !in files
      modifies this
      ensures files == if ok then old(files)[p := Partial] else old(files)
      ensures log == old(log) + [files]
    {
      ok := *;
      if ok { files := files[p := Partial]; }
      log := log + [files];
    }

    /** A rename is atomic and does not replace an existing tree. */
    method Rename(from: Path, to: Path) returns (ok: bool)
      modifies this
      ensures ok ==> from in old(files) && to !in old(files) && files == (old(files) - {from})[to := old(files)[from]]
      ensures !ok ==> files == old(files)
      ensures log == old(log) + [files]
    {
      ok := *;
      ok := ok && from in files && to !in files;
      if ok { files := (files - {from})[to := files[from]]; }
      log := log + [files];
    }

    /** A removal goes through an incomplete tree and may stop there. */
    method RemoveAll(p: Path)
      modifies this
      ensures Removing(old(files), files, p) || files == old(files)
      ensures |log| >= |old(log)| && log[..|old(log)|] == old(log)
      ensures forall i :: |old(log)| <= i < |log| ==> Removing(old(files), log[i], p) || log[i] == old(files)
    {
      var started: bool := *;
      if started && p in files {
        files := files[p := Partial];
        log := log + [files];
      }
      var finished: bool := *;
      if started && finished {
        files := files - {p};
      }
      log := log + [files];
    }

    /** Restore writes a snapshot into a directory and may fail on the way. */
    method Restore(p: Path, content: int) returns (ok: bool)
      requires p in files
      modifies this
      ensures files == old(files)[p := if ok then Whole(content) else Partial]
      ensures log == old(log) + [old(files)[p := Partial], files]
    {
      files := files[p := Partial];
      log := log + [files];
      ok := *;
      if ok { files := files[p := Whole(content)]; }
      log := log + [files];
    }

    /** Prepares a fresh directory, unless one is already there. */
    method MkdirAll(p: Path) returns (ok: bool)
      modifies this
      ensures files == if ok && p !in old(files) then old(files)[p := Whole(NO_CONTENT)] else old(files)
      ensures log == old(log) + [files]
    {
      ok := *;
      if ok && p !in files { files := files[p := Whole(NO_CONTENT)]; }
      log := log + [files];
    }
  }

  /** The Bed directory as a consumer would find it. */
  function Published(d: Files): Option<Tree> {
    Lookup(d, BedDir)
  }

  /** The tree is whole at the Bed directory or where publication has moved it aside. */
  ghost predicate Kept(d: Files, content: int) {
    Published(d) == Some(Whole(content)) || exists n :: Replaced(n) in d && d[Replaced(n)] == Whole(content)
  }

  /** The Bed directory is never incomplete, and the previous tree is whole until the new one replaces it. */
  ghost predicate Sound(d: Files, previous: Option<int>, content: int) {
    && (BedDir in d ==> d[BedDir].Whole?)
    && (previous.Some? ==> Kept(d, previous.value) || Published(d) == Some(Whole(content)))
  }

  ghost predicate AllSound(log: seq<Files>, from: nat, previous: Option<int>, content: int) {
    forall i :: from <= i < |log| ==> Sound(log[i], previous, content)
  }

  lemma AsideKeeps(d: Files, n: int, content: int)
    requires Replaced(n) in d && d[Replaced(n)] == Whole(content)
    ensures Kept(d, content)
  {
  }

  /** Removing a staging tree, or a replaced one once the new tree is published, keeps a directory sound. */
  lemma RemovalIsSound(was: Files, d: Files, p: Path, previous: Option<int>, content: int)
    requires Sound(was, previous, content) && (Removing(was, d, p) || d == was) && p != BedDir
    requires p.Staging? || Published(was) == Some(Whole(content))
    ensures Sound(d, previous, content) && Published(d) == Published(was)
  {
  }

  /**
  publishStagedBed. `aside` is the unused name that the reservation of a replaced directory yields.
  On success the new tree is published; on failure the previous tree, if there was one, is still whole,
  and it is published again unless moving it back failed too.
  */
  method PublishStagedBed(disk: Disk, staging: int, aside: int, ghost previous: Option<int>,
      ghost content: int) returns (ok: bool)
    requires Lookup(disk.files, Staging(staging)) == Some(Whole(content))
    requires Published(disk.files) == if previous.Some? then Some(Whole(previous.value)) else None
    requires Replaced(aside) !in disk.files
    modifies disk
    ensures |disk.log| >= |old(disk.log)| && disk.log[..|old(disk.log)|] == old(disk.log)
    ensures AllSound(disk.log, |old(disk.log)|, previous, content)
    ensures Sound(disk.files, previous, content)
    ensures ok ==> Published(disk.files) == Some(Whole(content))
    ensures !ok ==> Published(disk.files).None? || Published(disk.files) == old(Published(disk.files))
    ensures !ok && previous.Some? ==> Kept(disk.files, previous.value)
  {
    var presence := disk.Stat(BedDir);
    if presence.Unreadable? {
      return false;
    }
    var moved := false;
    if presence.Present? {
      var reserved := disk.Mkdir(Replaced(aside));
      if !reserved {
        return false;
      }
      disk.RemoveAll(Replaced(aside));
      if Replaced(aside) in disk.files {
        return false;
      }
      moved := disk.Rename(BedDir, Replaced(aside));
      if !moved {
        return false;
      }
      AsideKeeps(disk.files, aside, previous.value);
    }
    ok := disk.Rename(Staging(staging), BedDir);
    if !ok {
      if moved {
        AsideKeeps(disk.files, aside, previous.value);
        var restored := disk.Rename(Replaced(aside), BedDir);
      }
      return false;
    }
    if moved {
      ghost var was := disk.files;
      ghost var start := |disk.log|;
      disk.RemoveAll(Replaced(aside));
      forall i | start <= i < |disk.log| ensures Sound(disk.log[i], previous, content) {
        RemovalIsSound(was, disk.log[i], Replaced(aside), previous, content);
      }
      RemovalIsSound(was, disk.files, Replaced(aside), previous, content);
    }
  }

  /**
  StageInBedFS. A local copy at least as new as the snapshot is used as it is; otherwise the snapshot
  is restored beside the Bed directory and published whole. Whatever fails, and wherever the process
  stops, a usable tree is never replaced by a partial one.
  */
  method StageInBedFS(disk: Disk, snapshot: Option<Snapshot>, present: bool, generation: int, staging: int, aside: int,
                      ghost previous: Option<int>)
    returns (r: Outcome)
    requires Published(disk.files) == if previous.Some? then Some(Whole(previous.value)) else None
    requires Staging(staging) !in disk.files && Replaced(aside) !in disk.files
    requires present ==> previous.Some?
    modifies disk
    ensures var content := if snapshot.Some? then snapshot.value.content else NO_CONTENT;
            && |disk.log| >= |old(disk.log)|
            && AllSound(disk.log, |old(disk.log)|, previous, content)
            && Sound(disk.files, previous, content)
    ensures r.Failed? && previous.Some? ==> Kept(disk.files, previous.value)
    ensures snapshot.Some? && (!present || generation < snapshot.value.generation) ==>
              (r.Ready? ==> r.source == FromSnapshot && Published(disk.files) == Some(Whole(snapshot.value.content)))
    ensures present && (snapshot.Some? ==> generation >= snapshot.value.generation) ==>
              r == Ready(Luggage) && disk.files == old(disk.files)
    ensures snapshot.None? && !present && r.Ready? ==>
              r.source == Fresh && Published(disk.files) == Some(Whole(if previous.Some? then previous.value
                  else NO_CONTENT))
  {
    if snapshot.None? {
      if present {
        return Ready(Luggage);
      }
      var made := disk.MkdirAll(BedDir);
      return if made then Ready(Fresh) else Failed;
    }
    if present && generation >= snapshot.value.generation {
      return Ready(Luggage);
    }
    var created := disk.Mkdir(Staging(staging));
    if !created {
      return Failed;
    }

    ghost var content := snapshot.value.content;
    var restored := disk.Restore(Staging(staging), snapshot.value.content);
    var valid: bool := *;
    var ok := false;
    if restored && valid {
      ok := PublishStagedBed(disk, staging, aside, previous, content);
    }

    ghost var was := disk.files;
    ghost var start := |disk.log|;
    disk.RemoveAll(Staging(staging));
    forall i | start <= i < |disk.log| ensures Sound(disk.log[i], previous, content) {
      RemovalIsSound(was, disk.log[i], Staging(staging), previous, content);
    }
    RemovalIsSound(was, disk.files, Staging(staging), previous, content);
    r := if ok then Ready(FromSnapshot) else Failed;
  }
}

/** The file-writing bodies in the source's own form: writePeerHashes and
    serverinfo.Write, readPeerHashes and recordPeerHash, over a file system whose
    operations may fail. Each execution of the writer is a run of AtomicFile. */
module FileSystem {
  import opened Base
  import AF = AtomicFile
  import HF = HashFile

  lemma {:induction false} LongerThanAll(paths: set<Path>) returns (p: Path)
    ensures p != "" && forall q :: q in paths ==> |q| < |p|
  {
    p := "x";
    if paths != {} {
      var q :| q in paths;
      p := LongerThanAll(paths - {q});
      p := p + q;
    }
  }

  /** A call into the os, json or file library. */
  datatype Operation =
    | MkdirAll | Marshal | CreateTemp | Write(tmp: Path) | Close(tmp: Path) | Chmod(tmp: Path)
    | Rename(tmp: Path, path: Path) | Remove(path: Path) | Read(path: Path)

  datatype Done = Done(op: Operation, io: AF.IO)

  /** An operation performed since there were `from` of them broke. */
  ghost predicate Broke(log: seq<Done>, from: nat)
  {
    exists i :: from <= i < |log| && log[i].io.Breaks?
  }

  lemma StillBroke(log: seq<Done>, from: nat, earlier: nat)
    requires Broke(log, from) && earlier <= from
    ensures Broke(log, earlier)
  {
  }

  ghost function Outcomes(log: seq<Done>): seq<AF.IO>
  {
    seq(|log|, i requires 0 <= i < |log| => log[i].io)
  }

  /** What was performed since log0 is what happened in the run since ios0. */
  ghost predicate Performed(log0: seq<Done>, log: seq<Done>, ios0: seq<AF.IO>, ios: seq<AF.IO>)
  {
    log0 <= log && ios == ios0 + Outcomes(log[|log0|..])
  }

  lemma PerformedOne(log0: seq<Done>, log: seq<Done>, ios0: seq<AF.IO>, ios: seq<AF.IO>, done: Done)
    requires Performed(log0, log, ios0, ios)
    ensures Performed(log0, log + [done], ios0, ios + [done.io])
  {
    assert (log + [done])[|log0|..] == log[|log0|..] + [done];
  }

  lemma PerformedMore(log0: seq<Done>, log: seq<Done>, ios0: seq<AF.IO>, ios: seq<AF.IO>, log': seq<Done>, ios': seq<AF.IO>)
    requires Performed(log0, log, ios0, ios) && Performed(log, log', ios, ios')
    ensures Performed(log0, log', ios0, ios')
  {
    assert log'[|log0|..] == log[|log0|..] + log'[|log|..];
  }

  /** The operations of a write that succeeds, in order. */
  function Publishing(tmp: Path, path: Path): seq<Done>
  {
    [Done(MkdirAll, AF.Works), Done(Marshal, AF.Works), Done(CreateTemp, AF.Creates(tmp)),
     Done(Write(tmp), AF.Works), Done(Close(tmp), AF.Works), Done(Chmod(tmp), AF.Works),
     Done(Rename(tmp, path), AF.Works)]
  }

  /** The os package, as far as the two writers use it. `log` is history: every operation
      performed, and what became of it. */
  class Disk {
    var files: AF.Files
    ghost var log: seq<Done>

    constructor (files: AF.Files)
      ensures this.files == files && log == []
    {
      this.files, log := files, [];
    }

    /** An operation that touches no file's bytes. */
    method Try(op: Operation) returns (io: AF.IO)
      modifies this`log
      ensures (io.Works? || io.Breaks?) && log == old(log) + [Done(op, io)]
    {
      var fail: bool := *;
      io := if fail then AF.Breaks(0) else AF.Works;
      log := log + [Done(op, io)];
    }

    method TempFile(target: Path) returns (io: AF.IO)
      modifies this
      ensures log == old(log) + [Done(CreateTemp, io)]
      ensures io.Breaks? ==> files == old(files)
      ensures !io.Breaks? ==> io.Creates? && io.tmp !in old(files) && io.tmp != target && files == old(files)[io.tmp := []]
    {
      var fail: bool := *;
      if fail {
        io := AF.Breaks(0);
      } else {
        ghost var unused := LongerThanAll(files.Keys + {target});
        assert unused !in files && unused != target;
        var tmp: Path :| tmp !in files && tmp != target;
        files := files[tmp := []];
        io := AF.Creates(tmp);
      }
      log := log + [Done(CreateTemp, io)];
    }

    method WriteTo(tmp: Path, data: Bytes) returns (io: AF.IO)
      modifies this
      ensures (io.Works? || io.Breaks?) && log == old(log) + [Done(Write(tmp), io)]
      ensures files == old(files)[tmp := if io.Breaks? then AF.Kept(data, io.kept) else data]
    {
      var fail: bool, kept: nat := *, *;
      io := if fail then AF.Breaks(kept) else AF.Works;
      files := files[tmp := if fail then AF.Kept(data, kept) else data];
      log := log + [Done(Write(tmp), io)];
    }

    method MoveTo(tmp: Path, path: Path) returns (io: AF.IO)
      requires tmp in files
      modifies this
      ensures (io.Works? || io.Breaks?) && log == old(log) + [Done(Rename(tmp, path), io)]
      ensures files == if io.Breaks? then old(files) else old(files)[path := old(files)[tmp]] - {tmp}
    {
      io := Try(Rename(tmp, path));
      if io.Works? { files := files[path := files[tmp]] - {tmp}; }
    }

    method Delete(p: Path) returns (io: AF.IO)
      modifies this
      ensures (io.Works? || io.Breaks?) && log == old(log) + [Done(Remove(p), io)]
      ensures files == if io.Breaks? then old(files) else old(files) - {p}
    {
      io := Try(Remove(p));
      if io.Works? { files := files - {p}; }
    }

    /** writePeerHashes, and serverinfo.Write when `checked`, which rejects an empty path.
        What was performed is a complete run of the AtomicFile protocol. It succeeds by
        exactly the seven operations, all working, and the target then holds exactly the
        new bytes; it fails only if one broke or an empty path was to be checked, and the
        target and every other file that existed then hold what they held. */
    method WriteAtomically(path: Path, data: Bytes, checked: bool) returns (ok: bool, ghost ws: seq<AF.Writer>, ghost ios: seq<AF.IO>)
      modifies this
      ensures AF.IsWriteRun(ws, ios, path, data)
      ensures ws[0] == AF.Writer(old(files), if checked then AF.CheckPath else AF.MakeDir)
      ensures ws[|ws| - 1] == AF.Writer(files, AF.Written(ok))
      ensures Performed(old(log), log, if checked then [AF.Works] else [], ios)
      ensures checked && path == "" ==> !ok && log == old(log) && files == old(files)
      ensures !ok ==> (checked && path == "") || Broke(log, |old(log)|)
      ensures ok ==> files == old(files)[path := data]
      ensures ok ==> exists tmp :: log == old(log) + Publishing(tmp, path)
      ensures !ok ==> forall p :: p in old(files) ==> Get(files, p) == Get(old(files), p)
      ensures !ok ==> Get(files, path) == Get(old(files), path)
    {
      ws, ios := [AF.Writer(files, if checked then AF.CheckPath else AF.MakeDir)], [];
      if checked {
        ws, ios := Log(ws, ios, path, data, AF.Works);
        if path == "" { ok := false; return; }
      }
      ok, ws, ios := EncodeAndPublish(path, data, ws, ios);
      AF.CrashAtomic(ws, ios, path, data, |ws| - 1);
      AF.WriteRunOk(ws, ios, path, data, |ws| - 1);
    }

    /** Make the directory and encode. */
    method Prepare(path: Path, data: Bytes, ghost ws0: seq<AF.Writer>, ghost ios0: seq<AF.IO>)
        returns (ok: bool, ghost ws: seq<AF.Writer>, ghost ios: seq<AF.IO>)
      requires AF.IsWriteRun(ws0, ios0, path, data) && ws0[|ws0| - 1] == AF.Writer(files, AF.MakeDir)
      modifies this`log
      ensures AF.IsWriteRun(ws, ios, path, data) && ws[0] == ws0[0]
      ensures ws[|ws| - 1] == AF.Writer(files, if ok then AF.CreateTemp else AF.Written(false))
      ensures Performed(old(log), log, ios0, ios)
      ensures if ok then log == old(log) + [Done(MkdirAll, AF.Works), Done(Marshal, AF.Works)]
              else Broke(log, |old(log)|)
    {
      ok := false;
      ghost var n := |log|;
      var io := Try(MkdirAll);
      ws, ios := Log(ws0, ios0, path, data, io);
      assert Performed(old(log), log, ios0, ios) && log[n].io == io;
      if io.Works? {
        io := Try(Marshal);
        PerformedOne(old(log), log[..n + 1], ios0, ios, Done(Marshal, io));
        ws, ios := Log(ws, ios, path, data, io);
        assert log[..n + 1] + [log[n + 1]] == log && log[n + 1].io == io;
        ok := io.Works?;
      }
    }

    /** Past the check of the path: what both writers do alike. */
    method EncodeAndPublish(path: Path, data: Bytes, ghost ws0: seq<AF.Writer>, ghost ios0: seq<AF.IO>)
        returns (ok: bool, ghost ws: seq<AF.Writer>, ghost ios: seq<AF.IO>)
      requires AF.IsWriteRun(ws0, ios0, path, data) && ws0[|ws0| - 1] == AF.Writer(files, AF.MakeDir)
      modifies this
      ensures AF.IsWriteRun(ws, ios, path, data) && ws[0] == ws0[0]
      ensures ws[|ws| - 1] == AF.Writer(files, AF.Written(ok))
      ensures Performed(old(log), log, ios0, ios)
      ensures if ok then exists tmp :: log == old(log) + Publishing(tmp, path) else Broke(log, |old(log)|)
    {
      ok, ws, ios := Prepare(path, data, ws0, ios0);
      if ok {
        ghost var log1, ios1 := log, ios;
        ok, ws, ios := Publish(path, data, ws, ios);
        PerformedMore(old(log), log1, ios0, ios1, log, ios);
        if ok {
          ghost var tmp :| log == log1 + Publishing(tmp, path)[2..];
          assert log == old(log) + Publishing(tmp, path);
        } else {
          StillBroke(log, |log1|, |old(log)|);
        }
      }
    }

    /** Create the temporary file and go on with it. */
    method Publish(path: Path, data: Bytes, ghost ws0: seq<AF.Writer>, ghost ios0: seq<AF.IO>)
        returns (ok: bool, ghost ws: seq<AF.Writer>, ghost ios: seq<AF.IO>)
      requires AF.IsWriteRun(ws0, ios0, path, data) && ws0[|ws0| - 1] == AF.Writer(files, AF.CreateTemp)
      modifies this
      ensures AF.IsWriteRun(ws, ios, path, data) && ws[0] == ws0[0]
      ensures ws[|ws| - 1] == AF.Writer(files, AF.Written(ok))
      ensures Performed(old(log), log, ios0, ios)
      ensures if ok then exists tmp :: log == old(log) + Publishing(tmp, path)[2..] else Broke(log, |old(log)|)
    {
      ok := false;
      ghost var n := |log|;
      var io := TempFile(path);
      ws, ios := Log(ws0, ios0, path, data, io);
      assert Performed(old(log), log, ios0, ios) && log[n].io == io;
      if io.Creates? {
        ghost var log1, ios1 := log, ios;
        ok, ws, ios := FillAndRename(io.tmp, path, data, ws, ios);
        PerformedMore(old(log), log1, ios0, ios1, log, ios);
        if ok {
          assert log == old(log) + Publishing(io.tmp, path)[2..];
        } else {
          StillBroke(log, |log1|, |old(log)|);
        }
      }
    }

    /** Write and close the temporary file. Otherwise its clean-up is due. */
    method Fill(tmp: Path, path: Path, data: Bytes, ghost ws0: seq<AF.Writer>, ghost ios0: seq<AF.IO>)
        returns (ok: bool, ghost ws: seq<AF.Writer>, ghost ios: seq<AF.IO>)
      requires AF.IsWriteRun(ws0, ios0, path, data) && ws0[|ws0| - 1] == AF.Writer(files, AF.WriteTemp(tmp))
      modifies this
      ensures AF.IsWriteRun(ws, ios, path, data) && ws[0] == ws0[0] && tmp in files
      ensures ws[|ws| - 1] == AF.Writer(files, if ok then AF.ChmodTemp(tmp) else AF.RemoveTemp(tmp))
      ensures Performed(old(log), log, ios0, ios)
      ensures if ok then log == old(log) + [Done(Write(tmp), AF.Works), Done(Close(tmp), AF.Works)]
              else Broke(log, |old(log)|)
    {
      ghost var n := |log|;
      var io := WriteTo(tmp, data);
      ws, ios := Log(ws0, ios0, path, data, io);
      assert Performed(old(log), log, ios0, ios);
      var written := io.Works?;
      io := Try(Close(tmp));                                 // result ignored after a failed write
      PerformedOne(old(log), log[..n + 1], ios0, ios, Done(Close(tmp), io));
      ws, ios := Log(ws, ios, path, data, io);
      assert log[..n + 1] + [log[n + 1]] == log;
      ok := written && io.Works?;
      if !ok { assert log[n].io.Breaks? || log[n + 1].io.Breaks?; }
    }

    /** Give it its mode and its place. Otherwise its clean-up is due. */
    method Install(tmp: Path, path: Path, data: Bytes, ghost ws0: seq<AF.Writer>, ghost ios0: seq<AF.IO>)
        returns (ok: bool, ghost ws: seq<AF.Writer>, ghost ios: seq<AF.IO>)
      requires AF.IsWriteRun(ws0, ios0, path, data) && ws0[|ws0| - 1] == AF.Writer(files, AF.ChmodTemp(tmp))
      requires tmp in files
      modifies this
      ensures AF.IsWriteRun(ws, ios, path, data) && ws[0] == ws0[0]
      ensures ws[|ws| - 1] == AF.Writer(files, if ok then AF.Written(true) else AF.RemoveTemp(tmp))
      ensures Performed(old(log), log, ios0, ios)
      ensures if ok then log == old(log) + [Done(Chmod(tmp), AF.Works), Done(Rename(tmp, path), AF.Works)]
              else Broke(log, |old(log)|)
    {
      ok := false;
      ghost var n := |log|;
      var io := Try(Chmod(tmp));
      ws, ios := Log(ws0, ios0, path, data, io);
      assert Performed(old(log), log, ios0, ios) && log[n].io == io;
      if io.Works? {
        io := MoveTo(tmp, path);
        PerformedOne(old(log), log[..n + 1], ios0, ios, Done(Rename(tmp, path), io));
        ws, ios := Log(ws, ios, path, data, io);
        assert log[..n + 1] + [log[n + 1]] == log && log[n + 1].io == io;
        ok := io.Works?;
      }
    }

    /** The part from the first write to the temporary file on, with its clean-ups. */
    method FillAndRename(tmp: Path, path: Path, data: Bytes, ghost ws0: seq<AF.Writer>, ghost ios0: seq<AF.IO>)
        returns (ok: bool, ghost ws: seq<AF.Writer>, ghost ios: seq<AF.IO>)
      requires AF.IsWriteRun(ws0, ios0, path, data) && ws0[|ws0| - 1] == AF.Writer(files, AF.WriteTemp(tmp))
      modifies this
      ensures AF.IsWriteRun(ws, ios, path, data) && ws[0] == ws0[0]
      ensures ws[|ws| - 1] == AF.Writer(files, AF.Written(ok))
      ensures Performed(old(log), log, ios0, ios)
      ensures if ok then log == old(log) + Publishing(tmp, path)[3..] else Broke(log, |old(log)|)
      ensures !ok ==> log[|log| - 1].op == Remove(tmp)
    {
      ok, ws, ios := Fill(tmp, path, data, ws0, ios0);
      ghost var log1, ios1 := log, ios;
      if ok {
        ok, ws, ios := Install(tmp, path, data, ws, ios);
        PerformedMore(old(log), log1, ios0, ios1, log, ios);
        if !ok { StillBroke(log, |log1|, |old(log)|); }
      }
      ghost var log2, ios2 := log, ios;
      if !ok {
        var io := Delete(tmp);
        ws, ios := Log(ws, ios, path, data, io);
        PerformedOne(old(log), log2, ios0, ios2, Done(Remove(tmp), io));
        ghost var k :| |old(log)| <= k < |log2| && log2[k].io.Breaks?;
        assert log[k].io.Breaks?;
      }
    }
  }

  /** Appends to a run the step an operation performed. */
  ghost method Log(ws0: seq<AF.Writer>, ios0: seq<AF.IO>, path: Path, data: Bytes, io: AF.IO)
      returns (ws: seq<AF.Writer>, ios: seq<AF.IO>)
    requires AF.IsWriteRun(ws0, ios0, path, data) && AF.CanWrite(ws0[|ws0| - 1], path, io)
    ensures AF.IsWriteRun(ws, ios, path, data) && ios == ios0 + [io]
    ensures ws[0] == ws0[0] && ws[|ws| - 1] == AF.WriteStep(ws0[|ws0| - 1], path, data, io)
  {
    ws := ws0 + [AF.WriteStep(ws0[|ws0| - 1], path, data, io)];
    ios := ios0 + [io];
  }

  /** The package variables of hash.go: the clear-once guard, over one disk. */
  class PeerHashes {
    const disk: Disk
    var cleared: bool

    constructor (disk: Disk)
      ensures this.disk == disk && !cleared
    {
      this.disk := disk;
      cleared := false;
    }

    /** readPeerHashes: an absent file is an empty map, a file holding an encoded map is
        that map, and a file that does not decode is an error, as is a broken read. */
    method ReadPeerHashes(env: HF.Env) returns (doc: Option<HF.Doc>, ghost io: AF.IO)
      modifies disk`log
      ensures disk.log == old(disk.log) + [Done(Read(env.path), io)]
      ensures io.Breaks? ==> doc == None
      ensures !io.Breaks? && env.path !in disk.files ==> doc == Some(map[])
      ensures !io.Breaks? && env.path in disk.files ==> doc == env.decode(disk.files[env.path])
      ensures HF.Faithful(env) ==>
        forall d: HF.Doc :: !io.Breaks? && Get(disk.files, env.path) == Some(env.encode(d)) ==> doc == Some(d)
    {
      var read := disk.Try(Read(env.path));
      io := read;
      if read.Breaks? { return None, read; }
      doc := HF.DocOf(env, Get(disk.files, env.path));
    }

    /** recordPeerHash, called by one goroutine. `base` is what the map is updated from.
        The first call that gets so far removes the file first, whatever comes of it, and
        no later call does. On success in a pod the file is the map of `base` with this
        one entry set. It fails only if the card has no hash, the file does not decode or
        an operation broke, and the file is then `base`. */
    method RecordPeerHash(env: HF.Env, name: Name, card: Card, now: int) returns (ok: bool, ghost base: Option<Bytes>)
      modifies this, disk
      ensures !env.inCluster ==> ok && Untouched()
      ensures env.inCluster && env.hash(card).None? ==> !ok && Untouched()
      ensures old(cleared) || !env.inCluster || env.hash(card).None? ==> base == Get(old(disk.files), env.path)
      ensures env.inCluster && env.hash(card).Some? ==> cleared && |disk.log| > |old(disk.log)|
      ensures env.inCluster && env.hash(card).Some? && old(cleared) ==>
        disk.log[|old(disk.log)|].op == Read(env.path)
      ensures env.inCluster && env.hash(card).Some? && !old(cleared) ==>
        && disk.log[|old(disk.log)|].op == Remove(env.path)
        && base == if disk.log[|old(disk.log)|].io.Breaks? then Get(old(disk.files), env.path) else None
      ensures env.inCluster && ok ==>
        && env.hash(card).Some? && HF.DocOf(env, base).Some?
        && Get(disk.files, env.path)
             == Some(env.encode(HF.DocOf(env, base).value[name := HF.Item(env.hash(card).value, now)]))
      ensures env.inCluster && !ok ==>
        && Get(disk.files, env.path) == base
        && (env.hash(card).None? || HF.DocOf(env, base).None? || Broke(disk.log, |old(disk.log)|))
      ensures forall p :: p in old(disk.files) && p != env.path ==> Get(disk.files, p) == Get(old(disk.files), p)
    {
      base := Get(disk.files, env.path);
      if !env.inCluster { return true, base; }
      var hash := env.hash(card);
      if hash.None? { return false, base; }
      if !cleared {
        var _ := disk.Delete(env.path);
        cleared := true;
        base := Get(disk.files, env.path);
      }
      ghost var n := |disk.log|;
      var doc, read := ReadPeerHashes(env);
      assert disk.log[n].io == read;
      if doc.None? { return false, base; }
      var hashes := doc.value[name := HF.Item(hash.value, now)];
      ghost var ws, ios;
      ok, ws, ios := disk.WriteAtomically(env.path, env.encode(hashes), false);
      if !ok { StillBroke(disk.log, n + 1, |old(disk.log)|); }
    }

    twostate predicate Untouched()
      reads this, disk
    {
      disk.files == old(disk.files) && disk.log == old(disk.log) && cleared == old(cleared)
    }
  }
}

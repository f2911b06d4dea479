/** Publishing a file by temporary file and rename: the one protocol behind
    writePeerHashes (pkg/client/hash.go) and serverinfo.Write.

    The file system is a map from path to bytes. Every operation can break, as the
    environment chooses; a crash is a run that simply stops. */
module AtomicFile {
  import opened Base

  type Files = map<Path, Bytes>

  datatype Pc =
    | CheckPath                       // serverinfo.Write only: path == ""
    | MakeDir
    | Encode                          // json.Marshal
    | CreateTemp                      // os.CreateTemp
    | WriteTemp(tmp: Path)
    | CloseBroken(tmp: Path)          // tmp.Close() after a failed Write
    | CloseTemp(tmp: Path)
    | ChmodTemp(tmp: Path)
    | RenameTemp(tmp: Path)
    | RemoveTemp(tmp: Path)           // the clean-up os.Remove
    | Written(ok: bool)

  /** What the environment does with one operation. A broken Write leaves the first
      `kept` bytes; CreateTemp makes a file that did not exist. */
  datatype IO = Works | Creates(tmp: Path) | Breaks(kept: nat)

  datatype Writer = Writer(fs: Files, pc: Pc)

  predicate CanWrite(w: Writer, path: Path, io: IO)
  {
    match w.pc
    case Written(_) => false
    case CheckPath => io.Works?
    case CreateTemp => io.Breaks? || (io.Creates? && io.tmp !in w.fs && io.tmp != path)
    case RenameTemp(tmp) => !io.Creates? && tmp in w.fs
    case _ => !io.Creates?
  }

  function WriteStep(w: Writer, path: Path, data: Bytes, io: IO): Writer
    requires CanWrite(w, path, io)
  {
    match w.pc
    case CheckPath => Writer(w.fs, if path == "" then Written(false) else MakeDir)
    case MakeDir => Writer(w.fs, if io.Breaks? then Written(false) else Encode)
    case Encode => Writer(w.fs, if io.Breaks? then Written(false) else CreateTemp)
    case CreateTemp =>
      if io.Breaks? then Writer(w.fs, Written(false))
      else Writer(w.fs[io.tmp := []], WriteTemp(io.tmp))
    case WriteTemp(tmp) =>
      if io.Breaks? then Writer(w.fs[tmp := Kept(data, io.kept)], CloseBroken(tmp))
      else Writer(w.fs[tmp := data], CloseTemp(tmp))
    case CloseBroken(tmp) => Writer(w.fs, RemoveTemp(tmp))
    case CloseTemp(tmp) => Writer(w.fs, if io.Breaks? then RemoveTemp(tmp) else ChmodTemp(tmp))
    case ChmodTemp(tmp) => Writer(w.fs, if io.Breaks? then RemoveTemp(tmp) else RenameTemp(tmp))
    case RenameTemp(tmp) =>
      if io.Breaks? then Writer(w.fs, RemoveTemp(tmp))
      else Writer(w.fs[path := w.fs[tmp]] - {tmp}, Written(true))
    case RemoveTemp(tmp) => Writer(if io.Breaks? then w.fs else w.fs - {tmp}, Written(false))
  }

  function Kept(data: Bytes, n: nat): (r: Bytes)
    ensures r <= data
  {
    if n <= |data| then data[..n] else data
  }

  predicate HasTemp(pc: Pc)
  {
    pc.WriteTemp? || pc.CloseBroken? || pc.CloseTemp? || pc.ChmodTemp? || pc.RenameTemp? || pc.RemoveTemp?
  }

  /** Steps still to come, at most. */
  function Rank(pc: Pc): nat
  {
    match pc
    case CheckPath => 9
    case MakeDir => 8
    case Encode => 7
    case CreateTemp => 6
    case WriteTemp(_) => 5
    case CloseTemp(_) => 4
    case ChmodTemp(_) => 3
    case RenameTemp(_) => 2
    case CloseBroken(_) => 2
    case RemoveTemp(_) => 1
    case Written(_) => 0
  }

  /** Where the writer stands, relative to the files it started with. */
  ghost predicate WriterOk(fs0: Files, w: Writer, path: Path, data: Bytes)
  {
    match w.pc
    case WriteTemp(tmp) => OnlyTemp(fs0, w.fs, path, tmp, [])
    case CloseTemp(tmp) => OnlyTemp(fs0, w.fs, path, tmp, data)
    case ChmodTemp(tmp) => OnlyTemp(fs0, w.fs, path, tmp, data)
    case RenameTemp(tmp) => OnlyTemp(fs0, w.fs, path, tmp, data)
    case CloseBroken(tmp) => SomeTemp(fs0, w.fs, path, tmp, data)
    case RemoveTemp(tmp) => SomeTemp(fs0, w.fs, path, tmp, data)
    case Written(ok) =>
      if ok then w.fs == fs0[path := data]
      else w.fs == fs0 || exists tmp :: SomeTemp(fs0, w.fs, path, tmp, data)
    case _ => w.fs == fs0
  }

  ghost predicate OnlyTemp(fs0: Files, fs: Files, path: Path, tmp: Path, x: Bytes)
  {
    tmp !in fs0 && tmp != path && fs == fs0[tmp := x]
  }

  ghost predicate SomeTemp(fs0: Files, fs: Files, path: Path, tmp: Path, data: Bytes)
  {
    tmp in fs && fs[tmp] <= data && OnlyTemp(fs0, fs, path, tmp, fs[tmp])
  }

  lemma WriteStepOk(fs0: Files, w: Writer, path: Path, data: Bytes, io: IO)
    requires WriterOk(fs0, w, path, data) && CanWrite(w, path, io)
    ensures WriterOk(fs0, WriteStep(w, path, data, io), path, data)
    ensures Rank(WriteStep(w, path, data, io).pc) < Rank(w.pc)
  {
    var w' := WriteStep(w, path, data, io);
    match w.pc
    case RenameTemp(tmp) =>
      if !io.Breaks? {
        assert w'.fs == fs0[path := data];
      } else {
        assert SomeTemp(fs0, w'.fs, path, tmp, data);
      }
    case RemoveTemp(tmp) =>
      if io.Breaks? {
        assert SomeTemp(fs0, w'.fs, path, tmp, data);
      } else {
        assert w'.fs == fs0;
      }
    case WriteTemp(tmp) =>
      assert w.fs[tmp := data] == fs0[tmp := data];
    case _ =>
  }

  // ---- whole runs, cut anywhere ----

  predicate IsWriteRun(ws: seq<Writer>, ios: seq<IO>, path: Path, data: Bytes)
  {
    && |ws| == |ios| + 1
    && (ws[0].pc == CheckPath || ws[0].pc == MakeDir)
    && forall i :: 0 <= i < |ios| ==>
         CanWrite(ws[i], path, ios[i]) && ws[i + 1] == WriteStep(ws[i], path, data, ios[i])
  }

  lemma {:induction false} WriteRunOk(ws: seq<Writer>, ios: seq<IO>, path: Path, data: Bytes, i: nat)
    requires IsWriteRun(ws, ios, path, data) && i < |ws|
    ensures WriterOk(ws[0].fs, ws[i], path, data)
  {
    if i > 0 {
      WriteRunOk(ws, ios, path, data, i - 1);
      WriteStepOk(ws[0].fs, ws[i - 1], path, data, ios[i - 1]);
    }
  }

  /** Crash and fault atomicity. After any prefix of the protocol, under any faults, the
      target holds the complete old bytes (or absence) or the complete new ones, and no
      other file that existed has changed. A nil return means new; an error means old. */
  lemma CrashAtomic(ws: seq<Writer>, ios: seq<IO>, path: Path, data: Bytes, i: nat)
    requires IsWriteRun(ws, ios, path, data) && i < |ws|
    ensures Get(ws[i].fs, path) == if ws[i].pc == Written(true) then Some(data) else Get(ws[0].fs, path)
    ensures forall p :: p in ws[0].fs && p != path ==> Get(ws[i].fs, p) == Get(ws[0].fs, p)
  {
    WriteRunOk(ws, ios, path, data, i);
  }

  /** When the writer returns, a stray temporary file remains only if a clean-up remove
      broke; then it is one file, new, and holds a prefix of the data. */
  lemma NoStrayFile(ws: seq<Writer>, ios: seq<IO>, path: Path, data: Bytes)
    requires IsWriteRun(ws, ios, path, data) && ws[|ws| - 1].pc.Written?
    ensures var fs0, w := ws[0].fs, ws[|ws| - 1];
      if w.pc.ok then w.fs == fs0[path := data]
      else if CleanupBroke(ws, ios) then exists tmp :: SomeTemp(fs0, w.fs, path, tmp, data)
      else w.fs == fs0
  {
    var k := |ios| - 1;
    WriteRunOk(ws, ios, path, data, |ws| - 1);
    WriteRunOk(ws, ios, path, data, k);
    assert ws[k + 1] == WriteStep(ws[k], path, data, ios[k]);
    if ws[k].pc.RemoveTemp? && !CleanupBroke(ws, ios) {
      assert ws[k + 1].fs == ws[0].fs;
    }
  }

  /** The last operation was the clean-up remove and it broke. */
  predicate CleanupBroke(ws: seq<Writer>, ios: seq<IO>)
  {
    |ws| == |ios| + 1 && |ios| > 0 && ws[|ios| - 1].pc.RemoveTemp? && ios[|ios| - 1].Breaks?
  }

  /** Every operation may break. */
  lemma AnythingBreaks(w: Writer, path: Path, kept: nat)
    requires !w.pc.CheckPath? && !w.pc.Written? && (w.pc.RenameTemp? ==> w.pc.tmp in w.fs)
    ensures CanWrite(w, path, Breaks(kept))
  {
  }

  // ---- when it succeeds ----

  ghost predicate NothingBroke(ios: seq<IO>)
  {
    forall i :: 0 <= i < |ios| ==> !ios[i].Breaks?
  }

  /** Still on the way to success, or there. */
  predicate OnTrack(pc: Pc)
  {
    !pc.CloseBroken? && !pc.RemoveTemp? && pc != Written(false)
  }

  lemma StepOnTrack(w: Writer, path: Path, data: Bytes, io: IO)
    requires CanWrite(w, path, io)
    ensures OnTrack(WriteStep(w, path, data, io).pc) <==>
      OnTrack(w.pc) && !io.Breaks? && (w.pc.CheckPath? ==> path != "")
  {
  }

  lemma {:induction false} RunOnTrack(ws: seq<Writer>, ios: seq<IO>, path: Path, data: Bytes, i: nat)
    requires IsWriteRun(ws, ios, path, data) && i < |ws|
    ensures OnTrack(ws[i].pc) <==> NothingBroke(ios[..i]) && (i > 0 && ws[0].pc.CheckPath? ==> path != "")
    ensures i > 0 ==> !ws[i].pc.CheckPath?
  {
    if i > 0 {
      RunOnTrack(ws, ios, path, data, i - 1);
      StepOnTrack(ws[i - 1], path, data, ios[i - 1]);
      assert ios[..i] == ios[..i - 1] + [ios[i - 1]];
    }
  }

  /** A writer that has returned has succeeded if and only if no operation broke and it was
      not asked to check an empty path. */
  lemma SucceedsIff(ws: seq<Writer>, ios: seq<IO>, path: Path, data: Bytes)
    requires IsWriteRun(ws, ios, path, data) && ws[|ws| - 1].pc.Written?
    ensures ws[|ws| - 1].pc.ok <==> NothingBroke(ios) && (ws[0].pc.MakeDir? || path != "")
  {
    RunOnTrack(ws, ios, path, data, |ws| - 1);
    assert ios[..|ios|] == ios;
  }
}

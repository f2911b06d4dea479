/** recordPeerHash (pkg/client/hash.go) as an interleaving state machine.

    Any number of recorders run at once: each hashes its card, passes the clear-once
    guard, takes peerHashesMu, reads the file, writes it through AtomicFile and
    releases the lock. Every file operation can break. */
module HashFile {
  import opened Base
  import AF = AtomicFile

  /** peerHashEntry */
  datatype Item = Item(hash: string, observedAt: int)

  type Doc = map<Name, Item>

  /** What this code calls into: the target path, the pod signal, the JSON codec of the
      hash map and the canonicalising SHA-256 hash, which can fail. */
  datatype Env = Env(path: Path, inCluster: bool, encode: Doc -> Bytes, decode: Bytes -> Option<Doc>,
                     hash: Card -> Option<string>)

  /** Library contract: decoding undoes encoding. */
  ghost predicate Faithful(env: Env)
  {
    forall d: Doc :: env.decode(env.encode(d)) == Some(d)
  }

  datatype Pc =
    | Begin                                        // inCluster, hashAgentCard, now()
    | InitEnter(item: Item)                        // peerHashesInit.Do
    | InitRemove(item: Item)
    | InitExit(item: Item)
    | LockWait(item: Item)                         // peerHashesMu.Lock()
    | Reading(item: Item)                          // readPeerHashes
    | Writing(item: Item, doc: Doc, w: AF.Pc)      // writePeerHashes
    | Unlocking(item: Item, ok: bool)
    | Done(ok: bool)

  datatype Rec = Rec(name: Name, card: Card, pc: Pc)

  /** An update whose rename took effect. */
  datatype Commit = Commit(r: Cid, name: Name, item: Item)

  /** `stale` is the file a previous process left; `base`, once set, is what the clear
      left of it; `log` is every committed update in order; `faulty` says whether
      anything broke. All four are history. */
  datatype State = State(fs: AF.Files, once: Once, mu: Option<Cid>, recs: map<Cid, Rec>,
                         stale: Option<Bytes>, base: Option<Option<Bytes>>, log: seq<Commit>, faulty: bool)

  /** One operation of the environment, or a reading of the clock. */
  datatype Choice = Io(io: AF.IO) | Clock(now: int)

  datatype Label = Start(r: Cid, name: Name, card: Card) | Step(r: Cid, choice: Choice) | Elsewhere

  predicate Holds(pc: Pc)
  {
    pc.Reading? || pc.Writing? || pc.Unlocking?
  }

  predicate Clearing(pc: Pc)
  {
    pc.InitRemove? || pc.InitExit?
  }

  predicate PastInit(pc: Pc)
  {
    pc.LockWait? || Holds(pc)
  }

  predicate Breaking(ch: Choice)
  {
    ch.Io? && ch.io.Breaks?
  }

  /** readPeerHashes: an absent file is an empty map. */
  function DocOf(env: Env, content: Option<Bytes>): Option<Doc>
  {
    if content.None? then Some(map[]) else env.decode(content.value)
  }

  predicate CanAct(env: Env, s: State, pc: Pc, ch: Choice)
  {
    match pc
    case Begin => ch.Clock?
    case InitEnter(_) => ch == Io(AF.Works) && !s.once.Running?
    case InitRemove(_) => ch.Io? && !ch.io.Creates?
    case InitExit(_) => ch == Io(AF.Works)
    case LockWait(_) => ch == Io(AF.Works) && s.mu == None
    case Reading(_) => ch.Io? && !ch.io.Creates?
    case Writing(_, _, w) => ch.Io? && (if w.Written? then ch.io.Works? else AF.CanWrite(AF.Writer(s.fs, w), env.path, ch.io))
    case Unlocking(_, _) => ch == Io(AF.Works)
    case Done(_) => false
  }

  predicate Enabled(env: Env, s: State, l: Label)
  {
    match l
    case Start(r, _, _) => r !in s.recs
    case Step(r, ch) => r in s.recs && CanAct(env, s, s.recs[r].pc, ch)
    case Elsewhere => true
  }

  /** The next control point of recorder r. */
  function NextPc(env: Env, s: State, rec: Rec, ch: Choice): Pc
    requires CanAct(env, s, rec.pc, ch)
  {
    match rec.pc
    case Begin =>
      if !env.inCluster then Done(true)
      else if env.hash(rec.card).None? then Done(false)
      else InitEnter(Item(env.hash(rec.card).value, ch.now))
    case InitEnter(item) => if s.once.Idle? then InitRemove(item) else LockWait(item)
    case InitRemove(item) => InitExit(item)
    case InitExit(item) => LockWait(item)
    case LockWait(item) => Reading(item)
    case Reading(item) =>
      var doc := DocOf(env, Get(s.fs, env.path));
      if ch.io.Breaks? || doc.None? then Unlocking(item, false)
      else Writing(item, doc.value[rec.name := item], AF.MakeDir)
    case Writing(item, doc, w) =>
      if w.Written? then Unlocking(item, w.ok)
      else Writing(item, doc, AF.WriteStep(AF.Writer(s.fs, w), env.path, env.encode(doc), ch.io).pc)
    case Unlocking(item, ok) => Done(ok)
  }

  function NextFiles(env: Env, s: State, pc: Pc, ch: Choice): AF.Files
    requires CanAct(env, s, pc, ch)
  {
    match pc
    case InitRemove(_) => if ch.io.Breaks? then s.fs else s.fs - {env.path}
    case Writing(_, doc, w) =>
      if w.Written? then s.fs
      else AF.WriteStep(AF.Writer(s.fs, w), env.path, env.encode(doc), ch.io).fs
    case _ => s.fs
  }

  function NextOnce(s: State, r: Cid, pc: Pc): Once
  {
    match pc
    case InitEnter(_) => if s.once.Idle? then Running(r) else s.once
    case InitExit(_) => Complete(r)
    case _ => s.once
  }

  function NextMu(s: State, r: Cid, pc: Pc): Option<Cid>
  {
    match pc
    case LockWait(_) => Some(r)
    case Unlocking(_, _) => None
    case _ => s.mu
  }

  /** The step is the rename that publishes. */
  predicate Commits(pc: Pc, ch: Choice)
  {
    pc.Writing? && pc.w.RenameTemp? && !Breaking(ch)
  }

  function Act(env: Env, s: State, r: Cid, ch: Choice): State
    requires r in s.recs && CanAct(env, s, s.recs[r].pc, ch)
  {
    var rec := s.recs[r];
    var fs' := NextFiles(env, s, rec.pc, ch);
    State(fs', NextOnce(s, r, rec.pc), NextMu(s, r, rec.pc),
          s.recs[r := rec.(pc := NextPc(env, s, rec, ch))],
          s.stale,
          if rec.pc.InitRemove? then Some(Get(fs', env.path)) else s.base,
          if Commits(rec.pc, ch) then s.log + [Commit(r, rec.name, rec.pc.item)] else s.log,
          s.faulty || Breaking(ch) || (rec.pc.Begin? && env.inCluster && env.hash(rec.card).None?))
  }

  function Next(env: Env, s: State, l: Label): State
    requires Enabled(env, s, l)
  {
    match l
    case Start(r, name, card) => s.(recs := s.recs[r := Rec(name, card, Begin)])
    case Step(r, ch) => Act(env, s, r, ch)
    case Elsewhere => s
  }

  predicate Init(env: Env, s: State)
  {
    s == State(s.fs, Idle, None, map[], Get(s.fs, env.path), None, [], false)
  }

  // ---- the invariant ----

  /** The map after the updates of log, in order. */
  function Fold(d: Doc, log: seq<Commit>): Doc
  {
    if log == [] then d
    else
      var last := log[|log| - 1];
      Fold(d, log[..|log| - 1])[last.name := last.item]
  }

  ghost predicate MutexOk(s: State)
  {
    && (s.mu.Some? ==> s.mu.value in s.recs && Holds(s.recs[s.mu.value].pc))
    && (forall r :: r in s.recs && Holds(s.recs[r].pc) ==> s.mu == Some(r))
  }

  /** The clear happens once, before anything else touches the file. */
  ghost predicate OnceOk(s: State)
  {
    && (s.once.Running? ==> s.once.runner in s.recs && Clearing(s.recs[s.once.runner].pc))
    && (forall r :: r in s.recs && Clearing(s.recs[r].pc) ==> s.once == Running(r))
    && (forall r :: r in s.recs && PastInit(s.recs[r].pc) ==> s.once.Complete?)
    && (s.base == None <==> s.once.Idle? || (s.once.Running? && s.recs[s.once.runner].pc.InitRemove?))
  }

  /** What the target must hold after the clear left `b` and the updates of log. */
  ghost predicate HoldsLog(env: Env, content: Option<Bytes>, b: Option<Bytes>, log: seq<Commit>)
  {
    if log == [] then content == b
    else
      && DocOf(env, b).Some?
      && content == Some(env.encode(Fold(DocOf(env, b).value, log)))
  }

  ghost predicate FileOk(env: Env, s: State)
  {
    if s.base == None then Get(s.fs, env.path) == s.stale && s.log == []
    else
      && (s.base.value == None || s.base.value == s.stale)
      && HoldsLog(env, Get(s.fs, env.path), s.base.value, s.log)
  }

  /** The writer's temporary file holds what its next operation relies on. */
  ghost predicate TempOk(fs: AF.Files, path: Path, data: Bytes, w: AF.Pc)
  {
    && (AF.HasTemp(w) ==> w.tmp in fs && w.tmp != path)
    && (w.CloseTemp? || w.ChmodTemp? || w.RenameTemp? ==> fs[w.tmp] == data)
  }

  ghost predicate RecOk(env: Env, s: State, r: Cid, rec: Rec)
  {
    match rec.pc
    case Begin => true
    case InitEnter(item) => ItemOk(env, rec, item)
    case InitRemove(item) => ItemOk(env, rec, item)
    case InitExit(item) => ItemOk(env, rec, item)
    case LockWait(item) => ItemOk(env, rec, item)
    case Reading(item) => ItemOk(env, rec, item)
    case Writing(item, doc, w) =>
      && ItemOk(env, rec, item)
      && !w.CheckPath?
      && TempOk(s.fs, env.path, env.encode(doc), w)
      && (w == AF.Written(true) <==> LoggedBy(s.log, r))
      && (!LoggedBy(s.log, r) ==> DocOk(env, s, rec.name, item, doc))
    case Unlocking(item, ok) => ItemOk(env, rec, item) && (ok <==> LoggedBy(s.log, r))
    case Done(ok) => ok ==> !env.inCluster || LoggedBy(s.log, r)
  }

  /** The document about to be written is the current one with this item. */
  ghost predicate DocOk(env: Env, s: State, name: Name, item: Item, doc: Doc)
  {
    var now := DocOf(env, Get(s.fs, env.path));
    now.Some? && doc == now.value[name := item]
  }

  ghost predicate ItemOk(env: Env, rec: Rec, item: Item)
  {
    env.inCluster && env.hash(rec.card) == Some(item.hash)
  }

  ghost predicate LoggedBy(log: seq<Commit>, r: Cid)
  {
    exists i :: 0 <= i < |log| && log[i].r == r
  }

  /** Each committed update is the name and card hash of one recorder, once. */
  ghost predicate LogOk(env: Env, s: State)
  {
    && (forall i :: 0 <= i < |s.log| ==>
          && s.log[i].r in s.recs
          && CommitOf(env, s.log[i], s.recs[s.log[i].r])
          && Recorded(s.recs[s.log[i].r].pc))
    && (forall i, j :: 0 <= i < j < |s.log| ==> s.log[i].r != s.log[j].r)
  }

  ghost predicate CommitOf(env: Env, c: Commit, rec: Rec)
  {
    c.name == rec.name && env.hash(rec.card) == Some(c.item.hash)
  }

  predicate Recorded(pc: Pc)
  {
    (pc.Writing? && pc.w == AF.Written(true)) || (pc.Unlocking? && pc.ok) || (pc.Done? && pc.ok)
  }

  ghost predicate Inv(env: Env, s: State)
  {
    && MutexOk(s)
    && OnceOk(s)
    && FileOk(env, s)
    && LogOk(env, s)
    && forall r :: r in s.recs ==> RecOk(env, s, r, s.recs[r])
  }

  lemma InitInv(env: Env, s: State)
    requires Init(env, s)
    ensures Inv(env, s)
  {
  }

  lemma StepMutexOk(env: Env, s: State, r: Cid, ch: Choice)
    requires MutexOk(s) && Enabled(env, s, Step(r, ch))
    ensures MutexOk(Next(env, s, Step(r, ch)))
  {
  }

  lemma StepOnceOk(env: Env, s: State, r: Cid, ch: Choice)
    requires OnceOk(s) && Enabled(env, s, Step(r, ch))
    ensures OnceOk(Next(env, s, Step(r, ch)))
  {
  }

  /** What the holder of the lock reads is the fold of the committed updates. */
  lemma CurrentDoc(env: Env, content: Option<Bytes>, b: Option<Bytes>, log: seq<Commit>)
    requires Faithful(env) && HoldsLog(env, content, b, log) && DocOf(env, content).Some?
    ensures DocOf(env, b).Some? && DocOf(env, content).value == Fold(DocOf(env, b).value, log)
  {
    if log != [] {
      assert env.decode(env.encode(Fold(DocOf(env, b).value, log))).Some?;
    }
  }

  /** Only the clear and the rename change the target. */
  lemma TargetKept(env: Env, s: State, r: Cid, ch: Choice)
    requires Inv(env, s) && Enabled(env, s, Step(r, ch))
    requires !s.recs[r].pc.InitRemove? && !Commits(s.recs[r].pc, ch)
    ensures Get(Next(env, s, Step(r, ch)).fs, env.path) == Get(s.fs, env.path)
  {
    assert RecOk(env, s, r, s.recs[r]);
  }

  lemma CommitFileOk(env: Env, s: State, r: Cid, ch: Choice)
    requires Faithful(env) && Inv(env, s) && Enabled(env, s, Step(r, ch)) && Commits(s.recs[r].pc, ch)
    ensures FileOk(env, Next(env, s, Step(r, ch)))
  {
    var s' := Next(env, s, Step(r, ch));
    var pc := s.recs[r].pc;
    assert RecOk(env, s, r, s.recs[r]);
    assert s.base.Some?;
    CurrentDoc(env, Get(s.fs, env.path), s.base.value, s.log);
    assert s'.log[..|s'.log| - 1] == s.log;
    assert Get(s'.fs, env.path) == Some(env.encode(pc.doc));
  }

  lemma StepFileOk(env: Env, s: State, r: Cid, ch: Choice)
    requires Faithful(env) && Inv(env, s) && Enabled(env, s, Step(r, ch))
    ensures FileOk(env, Next(env, s, Step(r, ch)))
  {
    if Commits(s.recs[r].pc, ch) {
      CommitFileOk(env, s, r, ch);
    } else if !s.recs[r].pc.InitRemove? {
      TargetKept(env, s, r, ch);
    }
  }

  lemma StepLogOk(env: Env, s: State, r: Cid, ch: Choice)
    requires Inv(env, s) && Enabled(env, s, Step(r, ch))
    ensures LogOk(env, Next(env, s, Step(r, ch)))
  {
    var s' := Next(env, s, Step(r, ch));
    assert RecOk(env, s, r, s.recs[r]);
    if Commits(s.recs[r].pc, ch) {
      assert !LoggedBy(s.log, r);
      assert s'.log == s.log + [Commit(r, s.recs[r].name, s.recs[r].pc.item)];
    } else {
      assert s'.log == s.log;
    }
  }

  lemma OwnRecOk(env: Env, s: State, r: Cid, ch: Choice)
    requires Inv(env, s) && Enabled(env, s, Step(r, ch))
    ensures var s' := Next(env, s, Step(r, ch)); RecOk(env, s', r, s'.recs[r])
  {
    var s' := Next(env, s, Step(r, ch));
    var pc := s.recs[r].pc;
    assert RecOk(env, s, r, s.recs[r]);
    if pc.Writing? {
      OwnWritingOk(env, s, r, ch);
    } else {
      assert s'.log == s.log;
      if LoggedBy(s.log, r) { assert Recorded(pc); }
    }
  }

  lemma OwnWritingOk(env: Env, s: State, r: Cid, ch: Choice)
    requires Inv(env, s) && Enabled(env, s, Step(r, ch)) && s.recs[r].pc.Writing?
    ensures var s' := Next(env, s, Step(r, ch)); RecOk(env, s', r, s'.recs[r])
  {
    var s' := Next(env, s, Step(r, ch));
    assert RecOk(env, s, r, s.recs[r]);
    if Commits(s.recs[r].pc, ch) {
      assert s'.log[|s.log|].r == r;
    } else {
      assert s'.log == s.log;
      TargetKept(env, s, r, ch);
    }
  }

  lemma OtherRecOk(env: Env, s: State, r: Cid, ch: Choice, d: Cid)
    requires Inv(env, s) && Enabled(env, s, Step(r, ch)) && d in s.recs && d != r
    ensures var s' := Next(env, s, Step(r, ch)); RecOk(env, s', d, s'.recs[d])
  {
    var s' := Next(env, s, Step(r, ch));
    assert RecOk(env, s, d, s.recs[d]);
    OthersLogged(s.log, s'.log, r, d);
    if s.recs[d].pc.Writing? {
      assert s'.fs == s.fs && s'.log == s.log;
    }
  }

  lemma OthersLogged(log: seq<Commit>, log': seq<Commit>, r: Cid, d: Cid)
    requires d != r && (log' == log || (|log'| == |log| + 1 && log <= log' && log'[|log|].r == r))
    ensures LoggedBy(log', d) <==> LoggedBy(log, d)
  {
  }

  /** Every step of every recorder keeps the invariant. */
  lemma NextInv(env: Env, s: State, l: Label)
    requires Faithful(env) && Inv(env, s) && Enabled(env, s, l)
    ensures Inv(env, Next(env, s, l))
  {
    match l
    case Start(r, name, card) =>
      var s' := Next(env, s, l);
      forall d | d in s'.recs
        ensures RecOk(env, s', d, s'.recs[d])
      {
        if d != r { assert RecOk(env, s, d, s.recs[d]); }
      }
    case Step(r, ch) =>
      StepMutexOk(env, s, r, ch);
      StepOnceOk(env, s, r, ch);
      StepFileOk(env, s, r, ch);
      StepLogOk(env, s, r, ch);
      OwnRecOk(env, s, r, ch);
      forall d | d in s.recs && d != r
        ensures RecOk(env, Next(env, s, l), d, Next(env, s, l).recs[d])
      {
        OtherRecOk(env, s, r, ch, d);
      }
    case Elsewhere =>
  }
}

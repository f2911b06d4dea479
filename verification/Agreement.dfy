/** When the published hash is the cached client's: whenever the cached client is finished,
    at every moment, as long as no ForgetPeer takes out an entry whose build may still
    take the hashes lock. */
module Agreement {
  import opened Base
  import PC = PeerCache
  import CR = CacheRuns
  import HC = HeaderCheck
  import TP = Topology
  import HF = HashFile
  import HR = HashRuns
  import opened Runtime
  import opened RuntimeRuns

  // ---- builds that may still record ----

  /** The topology lists n, or has yet to be read. */
  predicate TopologyAllows(s: TP.State, n: Name)
  {
    s.cached.Some? ==> s.cached.value.Ok? && TP.FindPeer(s.cached.value.value, n).Some?
  }

  /** Call g, not yet at the entry's once, would get past validateHeaders. */
  ghost predicate MayWin(s: State, e: PC.EntryId, g: Cid)
  {
    && g in s.cache.calls && (PcOf(s, g).LookupUnlock? || PcOf(s, g).OnceEnter?) && PcOf(s, g).e == e
    && OpOf(s, g).Peer? && HC.Accepts(OpOf(s, g).config.headers)
  }

  /** The recorder has yet to take the hashes lock, and will. */
  predicate LockAhead(env: HF.Env, rec: HF.Rec)
  {
    match rec.pc
    case Begin => env.hash(rec.card).Some?
    case InitEnter(_) => true
    case InitRemove(_) => true
    case InitExit(_) => true
    case LockWait(_) => true
    case _ => false
  }

  /** The builder b of an entry of n has the hashes lock ahead of it, if what it calls
      succeeds. */
  ghost predicate BuilderMayRecord(env: HF.Env, s: State, n: Name, b: Cid)
    requires b in s.cache.calls
  {
    match PcOf(s, b)
    case Validate(_) => OpOf(s, b).Peer? && HC.Accepts(OpOf(s, b).config.headers) && TopologyAllows(s.topo, n)
    case LookupPeer(_) => TopologyAllows(s.topo, n)
    case Resolve(_) => true
    case Record(_) => b in s.hashes.recs && LockAhead(env, s.hashes.recs[b])
    case _ => false
  }

  /** The entry's build may still take the hashes lock. */
  ghost predicate MayRecord(env: HF.Env, s: State, e: PC.EntryId)
    requires e < |s.cache.sh.heap|
  {
    var en := s.cache.sh.heap[e];
    match en.once
    case Idle => TopologyAllows(s.topo, en.name) && exists g :: MayWin(s, e, g)
    case Running(b) => b in s.cache.calls && BuilderMayRecord(env, s, en.name, b)
    case Complete(_) => false
  }

  /** The delete of a ForgetPeer(n). */
  predicate Deletes(s: State, l: Label, n: Name)
  {
    l.Advance? && l.c in s.cache.calls && PcOf(s, l.c).ForgetHeld? && OpOf(s, l.c).name == n
  }

  /** That delete takes out an entry whose build may still take the hashes lock. */
  ghost predicate Drops(env: HF.Env, s: State, l: Label, n: Name)
  {
    && Deletes(s, l, n)
    && n in s.cache.sh.live && s.cache.sh.live[n] < |s.cache.sh.heap|
    && MayRecord(env, s, s.cache.sh.live[n])
  }

  /** Only the cached entry of n may still record. */
  ghost predicate RecordsLive(env: HF.Env, s: State, n: Name)
  {
    forall e: PC.EntryId :: e < |s.cache.sh.heap| && s.cache.sh.heap[e].name == n && MayRecord(env, s, e) ==>
      PC.IsLive(s.cache.sh, e)
  }

  // ---- only the cached entry may still record ----

  /** Only a forget of its name or its own eviction takes a live entry out. */
  lemma LiveUnlessTaken(s: PC.State, l: PC.Label, e: PC.EntryId)
    requires PC.Enabled(s, l) && e < |s.sh.heap| && PC.IsLive(s.sh, e)
    requires l.Step? && s.calls[l.c].pc.ForgetHeld? ==> s.calls[l.c].op.name != s.sh.heap[e].name
    requires l.Step? && s.calls[l.c].pc.EvictHeld? ==> s.calls[l.c].pc.e != e
    ensures e < |PC.Next(s, l).sh.heap| && PC.IsLive(PC.Next(s, l).sh, e)
  {
  }

  lemma NewIsLive(s: PC.State, l: PC.Label, e: PC.EntryId)
    requires PC.Enabled(s, l) && |s.sh.heap| <= e < |PC.Next(s, l).sh.heap|
    ensures PC.IsLive(PC.Next(s, l).sh, e) && PC.Next(s, l).sh.heap[e].once.Idle?
  {
  }

  lemma TopologyAllowed(s: TP.State, l: TP.Label, n: Name)
    requires TP.Inv(s) && TP.Enabled(s, l) && TopologyAllows(TP.Next(s, l), n)
    ensures TopologyAllows(s, n)
  {
    TP.NextInv(s, l);
  }

  lemma OthersStay(env: HF.Env, s: State, l: Label, g: Cid)
    requires Enabled(env, s, l) && g in Next(env, s, l).cache.calls
    requires !(CacheLabel(s, l).Step? && CacheLabel(s, l).c == g) && !(l.Spawn? && l.c == g)
    ensures g in s.cache.calls && Next(env, s, l).cache.calls[g] == s.cache.calls[g]
  {
  }

  lemma ActorCouldWin(s: PC.State, g: Cid, ch: PC.Choice)
    requires PC.Enabled(s, PC.Step(g, ch))
    requires var pc' := PC.Next(s, PC.Step(g, ch)).calls[g].pc; pc'.LookupUnlock? || pc'.OnceEnter?
    ensures var pc, pc' := s.calls[g].pc, PC.Next(s, PC.Step(g, ch)).calls[g].pc;
      && PC.Next(s, PC.Step(g, ch)).calls[g].op == s.calls[g].op
      && ((pc.LookupHeld? && (pc'.e == |s.sh.heap| || Get(s.sh.live, s.calls[g].op.name) == Some(pc'.e)))
          || (pc.LookupUnlock? && pc'.e == pc.e))
  {
  }

  /** A call that may win the once of e could before, or has just been handed e. */
  lemma CouldWin(env: HF.Env, s: State, l: Label, e: PC.EntryId, g: Cid)
    requires PC.MapOk(s.cache.sh) && Enabled(env, s, l) && e < |s.cache.sh.heap| && MayWin(Next(env, s, l), e, g)
    ensures MayWin(s, e, g) || (l == Advance(g) && PcOf(s, g).LookupHeld? && PC.IsLive(s.cache.sh, e))
  {
    if CacheLabel(s, l).Step? && CacheLabel(s, l).c == g {
      ActorCouldWin(s.cache, g, CacheLabel(s, l).choice);
    } else {
      OthersStay(env, s, l, g);
    }
  }

  lemma LockWasAhead(env: HF.Env, s: HF.State, l: HF.Label, r: Cid)
    requires HF.Enabled(env, s, l) && env.inCluster && r in s.recs && LockAhead(env, HF.Next(env, s, l).recs[r])
    ensures LockAhead(env, s.recs[r])
  {
  }

  lemma RecordingCould(env: HF.Env, s: State, l: Label, n: Name, b: Cid)
    requires Enabled(env, s, l) && b in s.cache.calls && PcOf(s, b).Record? && env.inCluster
    requires b in Next(env, s, l).cache.calls && BuilderMayRecord(env, Next(env, s, l), n, b)
    ensures BuilderMayRecord(env, s, n, b)
  {
    assert PcOf(Next(env, s, l), b).Record?;
    if b !in s.hashes.recs { NewRecorder(env, s, l, b); }
    LockWasAhead(env, s.hashes, HashLabel(s, l), b);
  }

  lemma LookingUpCould(env: HF.Env, s: State, l: Label, n: Name, b: Cid)
    requires TP.Inv(s.topo) && Enabled(env, s, l) && b in s.cache.calls && PcOf(s, b).LookupPeer? && OpOf(s, b).name == n
    requires b in Next(env, s, l).cache.calls && BuilderMayRecord(env, Next(env, s, l), n, b)
    ensures BuilderMayRecord(env, s, n, b)
  {
    if l == Looked(b) {
      assert s.topo.cached == Some(s.topo.readers[b].got);
    } else {
      assert PcOf(Next(env, s, l), b).LookupPeer?;
      TopologyAllowed(s.topo, TopoLabel(s, l), n);
    }
  }

  lemma ValidatingCould(env: HF.Env, s: State, l: Label, n: Name, b: Cid)
    requires TP.Inv(s.topo) && Enabled(env, s, l) && b in s.cache.calls && PcOf(s, b).Validate? && OpOf(s, b).Peer?
    requires b in Next(env, s, l).cache.calls && BuilderMayRecord(env, Next(env, s, l), n, b)
    ensures BuilderMayRecord(env, s, n, b)
  {
    assert PcOf(Next(env, s, l), b).Validate? || (l == Check(b) && PcOf(Next(env, s, l), b).LookupPeer?);
    TopologyAllowed(s.topo, TopoLabel(s, l), n);
  }

  lemma BuilderCould(env: HF.Env, s: State, l: Label, n: Name, b: Cid)
    requires TP.Inv(s.topo) && Enabled(env, s, l) && b in s.cache.calls && PC.InBody(PcOf(s, b))
    requires OpOf(s, b).name == n && OpOf(s, b).Peer? && env.inCluster
    requires b in Next(env, s, l).cache.calls && BuilderMayRecord(env, Next(env, s, l), n, b)
    ensures BuilderMayRecord(env, s, n, b)
  {
    match PcOf(s, b)
    case Validate(_) => ValidatingCould(env, s, l, n, b);
    case LookupPeer(_) => LookingUpCould(env, s, l, n, b);
    case Record(_) => RecordingCould(env, s, l, n, b);
    case _ =>
  }

  /** What wins the once of e could win it before. */
  lemma EnteredCould(env: HF.Env, s: State, l: Label, e: PC.EntryId)
    requires Inv(env, s) && Enabled(env, s, l) && e < |s.cache.sh.heap| && e < |Next(env, s, l).cache.sh.heap|
    requires s.cache.sh.heap[e].once.Idle? && Next(env, s, l).cache.sh.heap[e].once.Running?
    requires MayRecord(env, Next(env, s, l), e)
    ensures MayRecord(env, s, e)
  {
    var b := Next(env, s, l).cache.sh.heap[e].once.runner;
    EntersOnce(s.cache, CacheLabel(s, l), e);
    assert PC.CallOk(s.cache.sh, b, s.cache.calls[b]);
    TopologyAllowed(s.topo, TopoLabel(s, l), s.cache.sh.heap[e].name);
    assert MayWin(s, e, b);
  }

  lemma EntersOnce(s: PC.State, l: PC.Label, e: PC.EntryId)
    requires PC.Enabled(s, l) && e < |s.sh.heap| && e < |PC.Next(s, l).sh.heap|
    requires s.sh.heap[e].once.Idle? && !PC.Next(s, l).sh.heap[e].once.Idle?
    requires l.Step? ==> PC.CallOk(s.sh, l.c, s.calls[l.c])
    ensures l.Step? && s.calls[l.c].pc == PC.OnceEnter(e) && PC.Next(s, l).calls[l.c].pc == PC.Validate(e)
    ensures PC.Next(s, l).sh.heap[e].once == Running(l.c)
  {
  }

  /** The entry's once is the same, or call l.c has just entered or left it. */
  lemma OnceMoves(s: PC.State, l: PC.Label, e: PC.EntryId)
    requires PC.Enabled(s, l) && e < |s.sh.heap|
    requires l.Step? ==> PC.CallOk(s.sh, l.c, s.calls[l.c])
    ensures e < |PC.Next(s, l).sh.heap| && PC.Next(s, l).sh.heap[e].name == s.sh.heap[e].name
    ensures var o, o' := s.sh.heap[e].once, PC.Next(s, l).sh.heap[e].once;
      o' == o || (o.Idle? && o'.Running?) || o'.Complete?
  {
  }

  lemma OpenCould(env: HF.Env, s: State, l: Label, e: PC.EntryId)
    requires PC.MapOk(s.cache.sh) && TP.Inv(s.topo) && Enabled(env, s, l)
    requires e < |s.cache.sh.heap| && e < |Next(env, s, l).cache.sh.heap| && MayRecord(env, Next(env, s, l), e)
    requires s.cache.sh.heap[e].once.Idle? && Next(env, s, l).cache.sh.heap[e].once.Idle?
    requires Next(env, s, l).cache.sh.heap[e].name == s.cache.sh.heap[e].name
    ensures MayRecord(env, s, e) || (PC.IsLive(s.cache.sh, e) && PC.IsLive(Next(env, s, l).cache.sh, e))
  {
    var g :| MayWin(Next(env, s, l), e, g);
    CouldWin(env, s, l, e, g);
    TopologyAllowed(s.topo, TopoLabel(s, l), s.cache.sh.heap[e].name);
    if !MayWin(s, e, g) { LiveUnlessTaken(s.cache, CacheLabel(s, l), e); }
  }

  /** No build comes to be able to record, unless its entry is cached. */
  lemma CouldRecord(env: HF.Env, s: State, l: Label, e: PC.EntryId)
    requires Inv(env, s) && Enabled(env, s, l) && env.inCluster
    requires e < |s.cache.sh.heap| && e < |Next(env, s, l).cache.sh.heap| && MayRecord(env, Next(env, s, l), e)
    ensures MayRecord(env, s, e) || (PC.IsLive(s.cache.sh, e) && PC.IsLive(Next(env, s, l).cache.sh, e))
  {
    var s', cl := Next(env, s, l), CacheLabel(s, l);
    var en := s.cache.sh.heap[e];
    if cl.Step? { assert PC.CallOk(s.cache.sh, cl.c, s.cache.calls[cl.c]); }
    OnceMoves(s.cache, cl, e);
    if s'.cache.sh.heap[e].once.Idle? {
      OpenCould(env, s, l, e);
    } else if en.once.Idle? {
      EnteredCould(env, s, l, e);
    } else {
      var b := en.once.runner;
      assert PC.EntryOk(s.cache.calls, e, en);
      assert PC.CallOk(s.cache.sh, b, s.cache.calls[b]);
      BuilderCould(env, s, l, en.name, b);
    }
  }

  /** An eviction takes out an entry that failed, which has nothing left to record. */
  lemma EvictsFailed(env: HF.Env, s: State, c: Cid)
    requires Inv(env, s) && c in s.cache.calls && PcOf(s, c).EvictHeld?
    ensures PcOf(s, c).e < |s.cache.sh.heap| && !MayRecord(env, s, PcOf(s, c).e)
  {
    assert PC.CallOk(s.cache.sh, c, s.cache.calls[c]);
  }

  lemma StaysLive(env: HF.Env, s: State, l: Label, n: Name, e: PC.EntryId)
    requires Inv(env, s) && Enabled(env, s, l) && !Drops(env, s, l, n)
    requires e < |s.cache.sh.heap| && s.cache.sh.heap[e].name == n && MayRecord(env, s, e) && PC.IsLive(s.cache.sh, e)
    ensures e < |Next(env, s, l).cache.sh.heap| && PC.IsLive(Next(env, s, l).cache.sh, e)
  {
    var cl := CacheLabel(s, l);
    if cl.Step? {
      if s.cache.calls[cl.c].pc.EvictHeld? { EvictsFailed(env, s, cl.c); }
      if s.cache.calls[cl.c].pc.ForgetHeld? { assert l == Advance(cl.c); }
    }
    LiveUnlessTaken(s.cache, cl, e);
  }

  lemma StepRecordsLive(env: HF.Env, s: State, l: Label, n: Name)
    requires Inv(env, s) && Enabled(env, s, l) && env.inCluster && !Drops(env, s, l, n) && RecordsLive(env, s, n)
    ensures RecordsLive(env, Next(env, s, l), n)
  {
    var s' := Next(env, s, l);
    forall e: PC.EntryId | e < |s'.cache.sh.heap| && s'.cache.sh.heap[e].name == n && MayRecord(env, s', e)
      ensures PC.IsLive(s'.cache.sh, e)
    {
      if e < |s.cache.sh.heap| {
        CR.StepEntryExtends(s.cache, CacheLabel(s, l), e);
        CouldRecord(env, s, l, e);
        if MayRecord(env, s, e) { StaysLive(env, s, l, n, e); }
      } else {
        NewIsLive(s.cache, CacheLabel(s, l), e);
      }
    }
  }

  // ---- the last record is the cached entry's ----

  /** The build of the cached entry of n has committed its record. */
  ghost predicate CachedLogged(s: State, n: Name)
  {
    && n in s.cache.sh.live && s.cache.sh.live[n] < |s.cache.sh.heap|
    && var en := s.cache.sh.heap[s.cache.sh.live[n]];
    !en.once.Idle? && HF.LoggedBy(s.hashes.log, en.once.runner)
  }

  /** Then that record is the last one for n. */
  ghost predicate LastIsLive(s: State, n: Name)
  {
    CachedLogged(s, n) ==>
      && HR.LastFor(s.hashes.log, n).Some?
      && s.hashes.log[HR.LastFor(s.hashes.log, n).value].r == s.cache.sh.heap[s.cache.sh.live[n]].once.runner
  }

  /** The holder of the hashes lock is about to commit a record for n. */
  ghost predicate Committing(h: HF.State, n: Name)
  {
    && h.mu.Some? && h.mu.value in h.recs && h.recs[h.mu.value].name == n
    && (h.recs[h.mu.value].pc.Reading? || h.recs[h.mu.value].pc.Writing?)
    && !HF.LoggedBy(h.log, h.mu.value)
  }

  /** While it is, the cached entry of n has no record it could overwrite. */
  ghost predicate LockedFirst(s: State, n: Name)
  {
    Committing(s.hashes, n) ==> !CachedLogged(s, n)
  }

  ghost predicate AgreementOk(env: HF.Env, s: State, n: Name)
  {
    RecordsLive(env, s, n) && LastIsLive(s, n) && LockedFirst(s, n)
  }

  lemma LiveWasLive(s: PC.State, l: PC.Label, e: PC.EntryId)
    requires PC.Enabled(s, l) && PC.MapOk(s.sh) && PC.MapOk(PC.Next(s, l).sh)
    requires e < |s.sh.heap| && e < |PC.Next(s, l).sh.heap| && PC.IsLive(PC.Next(s, l).sh, e)
    ensures PC.IsLive(s.sh, e)
  {
    CR.StepOnlyGrows(s, l);
    assert e in s.sh.removed <==> !PC.IsLive(s.sh, e);
  }

  lemma StartedNotLogged(env: HF.Env, s: State, l: Label, e: PC.EntryId)
    requires Enabled(env, s, l) && Inv(env, s) && Inv(env, Next(env, s, l))
    requires Next(env, s, l).hashes.log == s.hashes.log
    requires e < |s.cache.sh.heap| && e < |Next(env, s, l).cache.sh.heap|
    requires s.cache.sh.heap[e].once.Idle? && !Next(env, s, l).cache.sh.heap[e].once.Idle?
    ensures !HF.LoggedBy(s.hashes.log, Next(env, s, l).cache.sh.heap[e].once.runner)
  {
    var s' := Next(env, s, l);
    var b := s'.cache.sh.heap[e].once.runner;
    EnteredBody(s.cache, CacheLabel(s, l), e);
    assert b in s'.hashes.recs ==> RecorderWorks(s', b);
  }

  lemma EnteredBody(s: PC.State, l: PC.Label, e: PC.EntryId)
    requires PC.Enabled(s, l) && e < |s.sh.heap| && e < |PC.Next(s, l).sh.heap|
    requires s.sh.heap[e].once.Idle? && !PC.Next(s, l).sh.heap[e].once.Idle?
    requires l.Step? ==> PC.CallOk(s.sh, l.c, s.calls[l.c])
    ensures PC.Next(s, l).sh.heap[e].once.Running?
    ensures var b := PC.Next(s, l).sh.heap[e].once.runner;
      b in PC.Next(s, l).calls && PC.Next(s, l).calls[b].pc.Validate?
  {
  }

  /** Steps that commit nothing leave the cached entry and its record as they were, or
      bring an entry without a record. */
  lemma LoggedWasLogged(env: HF.Env, s: State, l: Label, n: Name)
    requires Inv(env, s) && Enabled(env, s, l) && Next(env, s, l).hashes.log == s.hashes.log
    requires Inv(env, Next(env, s, l)) && CachedLogged(Next(env, s, l), n)
    ensures CachedLogged(s, n)
    ensures var sh, sh' := s.cache.sh, Next(env, s, l).cache.sh;
      sh'.live[n] == sh.live[n] && sh'.heap[sh.live[n]].once.runner == sh.heap[sh.live[n]].once.runner
  {
    var s' := Next(env, s, l);
    var e := s'.cache.sh.live[n];
    if e < |s.cache.sh.heap| {
      LiveWasLive(s.cache, CacheLabel(s, l), e);
      CR.StepEntryExtends(s.cache, CacheLabel(s, l), e);
      if s.cache.sh.heap[e].once.Idle? {
        StartedNotLogged(env, s, l, e);
      }
    } else {
      NewIsLive(s.cache, CacheLabel(s, l), e);
    }
  }

  /** The recorder that takes the lock for n works for the cached entry of n. */
  lemma LockerIsLive(env: HF.Env, s: State, r: Cid)
    requires Inv(env, s) && r in s.hashes.recs && s.hashes.recs[r].pc.LockWait?
    requires RecordsLive(env, s, s.hashes.recs[r].name)
    ensures !CachedLogged(s, s.hashes.recs[r].name)
  {
    assert RecorderWorks(s, r);
    var e := PcOf(s, r).e;
    assert PC.CallOk(s.cache.sh, r, s.cache.calls[r]);
    assert MayRecord(env, s, e) && PC.IsLive(s.cache.sh, e);
    assert HF.RecOk(env, s.hashes, r, s.hashes.recs[r]);
  }

  lemma WasCommitting(env: HF.Env, s: HF.State, l: HF.Label, n: Name)
    requires HF.Inv(env, s) && HF.Enabled(env, s, l) && HF.Next(env, s, l).log == s.log && Committing(HF.Next(env, s, l), n)
    ensures Committing(s, n) || (l.Step? && s.recs[l.r].pc.LockWait? && s.recs[l.r].name == n)
  {
  }

  lemma CommitWasCommitting(env: HF.Env, s: HF.State, l: HF.Label)
    requires HF.Inv(env, s) && HF.Enabled(env, s, l) && HF.Next(env, s, l).log != s.log
    ensures HR.IsCommit(s, l) && Committing(s, s.recs[l.r].name)
    ensures forall n :: !Committing(HF.Next(env, s, l), n)
  {
    HR.CommitStep(env, s, l);
    assert HF.RecOk(env, s, l.r, s.recs[l.r]);
    assert HF.Next(env, s, l).log[|s.log|].r == l.r;
  }

  lemma StepLockedFirst(env: HF.Env, s: State, l: Label, n: Name)
    requires Inv(env, s) && Enabled(env, s, l) && Inv(env, Next(env, s, l)) && RecordsLive(env, s, n) && LockedFirst(s, n)
    ensures LockedFirst(Next(env, s, l), n)
  {
    var s' := Next(env, s, l);
    if s'.hashes.log != s.hashes.log {
      CommitWasCommitting(env, s.hashes, HashLabel(s, l));
    } else if Committing(s'.hashes, n) && CachedLogged(s', n) {
      LoggedWasLogged(env, s, l, n);
      WasCommitting(env, s.hashes, HashLabel(s, l), n);
      if !Committing(s.hashes, n) { LockerIsLive(env, s, l.c); }
    }
  }

  lemma CommitLastIsLive(env: HF.Env, s: State, r: Cid, ch: HF.Choice, n: Name)
    requires Inv(env, s) && Enabled(env, s, HashStep(r, ch)) && HF.Commits(s.hashes.recs[r].pc, ch)
    requires Committing(s.hashes, s.hashes.recs[r].name) && LockedFirst(s, n) && LastIsLive(s, n)
    ensures LastIsLive(Next(env, s, HashStep(r, ch)), n)
  {
    var log, log' := s.hashes.log, Next(env, s, HashStep(r, ch)).hashes.log;
    assert log'[..|log'| - 1] == log;
    if CachedLogged(Next(env, s, HashStep(r, ch)), n) {
      var e := s.cache.sh.live[n];
      var en := s.cache.sh.heap[e];
      if en.once.runner == r {
        RecordsItsEntry(env, s, r, e);
      } else {
        HF.OthersLogged(log, log', r, en.once.runner);
      }
    }
  }

  lemma RecordsItsEntry(env: HF.Env, s: State, r: Cid, e: PC.EntryId)
    requires Inv(env, s) && r in s.hashes.recs && e < |s.cache.sh.heap|
    requires !s.cache.sh.heap[e].once.Idle? && s.cache.sh.heap[e].once.runner == r
    ensures s.hashes.recs[r].name == s.cache.sh.heap[e].name
  {
    assert RecorderWorks(s, r);
    assert PC.EntryOk(s.cache.calls, e, s.cache.sh.heap[e]);
  }

  lemma StepLastIsLive(env: HF.Env, s: State, l: Label, n: Name)
    requires Inv(env, s) && Enabled(env, s, l) && Inv(env, Next(env, s, l)) && LockedFirst(s, n) && LastIsLive(s, n)
    ensures LastIsLive(Next(env, s, l), n)
  {
    var s' := Next(env, s, l);
    if s'.hashes.log != s.hashes.log {
      CommitWasCommitting(env, s.hashes, HashLabel(s, l));
      CommitLastIsLive(env, s, l.c, l.act, n);
    } else if CachedLogged(s', n) {
      LoggedWasLogged(env, s, l, n);
    }
  }

  lemma StepAgreementOk(env: HF.Env, s: State, l: Label, n: Name)
    requires HF.Faithful(env) && env.inCluster && Inv(env, s) && Enabled(env, s, l)
    requires AgreementOk(env, s, n) && !Drops(env, s, l, n)
    ensures AgreementOk(env, Next(env, s, l), n)
  {
    NextInv(env, s, l);
    StepRecordsLive(env, s, l, n);
    StepLockedFirst(env, s, l, n);
    StepLastIsLive(env, s, l, n);
  }

  lemma RunStepAgreement(env: HF.Env, ss: seq<State>, ls: seq<Label>, k: nat, n: Name)
    requires HF.Faithful(env) && env.inCluster && IsRun(env, ss, ls) && k < |ls|
    requires AgreementOk(env, ss[k], n) && !Drops(env, ss[k], ls[k], n)
    ensures AgreementOk(env, ss[k + 1], n)
  {
    RunInv(env, ss, ls, k);
    StepAgreementOk(env, ss[k], ls[k], n);
  }

  lemma StartsAgreed(env: HF.Env, s: State, n: Name)
    requires Init(env, s)
    ensures AgreementOk(env, s, n)
  {
  }

  /** Only the cached entry of n may still record, and its record, once made, is the last. */
  lemma {:induction false} RunKeepsAgreement(env: HF.Env, ss: seq<State>, ls: seq<Label>, i: nat, n: Name)
    requires HF.Faithful(env) && env.inCluster && IsRun(env, ss, ls) && i < |ss|
    requires forall k :: 0 <= k < i ==> !Drops(env, ss[k], ls[k], n)
    ensures AgreementOk(env, ss[i], n)
  {
    if i == 0 {
      StartsAgreed(env, ss[0], n);
    } else {
      RunKeepsAgreement(env, ss, ls, i - 1, n);
      RunStepAgreement(env, ss, ls, i - 1, n);
    }
  }

  // ---- the agreement ----

  /** The cached entry of n holds a client and its once is over. */
  predicate FinishedClient(s: State, n: Name)
  {
    && n in s.cache.sh.live && s.cache.sh.live[n] < |s.cache.sh.heap|
    && var e := s.cache.sh.live[n]; s.cache.sh.heap[e].once.Complete? && HasClient(s.cache.sh, e)
  }

  /** The published hash of n is that of the card its cached client was built from. */
  predicate Matches(env: HF.Env, s: State, n: Name)
    requires FinishedClient(s, n)
  {
    && Published(env, s).Some? && n in Published(env, s).value
    && env.hash(s.cache.sh.heap[s.cache.sh.live[n]].outcome.value.card) == Some(Published(env, s).value[n].hash)
  }

  /** In a pod, if nothing broke and no ForgetPeer(n) took out an entry whose build might
      still take the hashes lock: at every moment at which the cached entry of n holds a
      finished client, so from the moment any call returns it on, the published hash of n
      is that of the card the client was built from. */
  lemma FileMatchesCache(env: HF.Env, ss: seq<State>, ls: seq<Label>, i: nat, n: Name)
    requires HF.Faithful(env) && IsRun(env, ss, ls) && i < |ss|
    requires env.inCluster && !ss[i].hashes.faulty
    requires forall k :: 0 <= k < i ==> !Drops(env, ss[k], ls[k], n)
    requires FinishedClient(ss[i], n)
    ensures Matches(env, ss[i], n)
  {
    RunInv(env, ss, ls, i);
    RunKeepsAgreement(env, ss, ls, i, n);
    Projections(env, ss, ls);
    HR.RunCleanOk(env, Hashes(ss), HashLabels(env, ss, ls), i);
    FinishedIsPublished(env, ss[i], n);
  }

  lemma FinishedIsPublished(env: HF.Env, s: State, n: Name)
    requires HF.Faithful(env) && Inv(env, s) && HR.CleanOk(s.hashes)
    requires env.inCluster && !s.hashes.faulty && LastIsLive(s, n) && FinishedClient(s, n)
    ensures Matches(env, s, n)
  {
    var e := s.cache.sh.live[n];
    assert ClientRecorded(s, e);
    var b := s.cache.sh.heap[e].once.runner;
    assert PC.EntryOk(s.cache.calls, e, s.cache.sh.heap[e]);
    assert HR.Unbroken(s.hashes.recs[b].pc);
    assert HF.RecOk(env, s.hashes, b, s.hashes.recs[b]);
    assert CachedLogged(s, n);
    var k := HR.LastFor(s.hashes.log, n).value;
    assert HF.CommitOf(env, s.hashes.log[k], s.hashes.recs[b]);
    LoggedIsPublished(env, s.hashes, n);
  }

  lemma LoggedIsPublished(env: HF.Env, h: HF.State, n: Name)
    requires HF.Faithful(env) && HF.FileOk(env, h) && HR.LastFor(h.log, n).Some?
    ensures var doc := HF.DocOf(env, Get(h.fs, env.path));
      doc.Some? && Get(doc.value, n) == Some(h.log[HR.LastFor(h.log, n).value].item)
  {
    var d := HF.DocOf(env, h.base.value).value;
    HR.FoldLast(d, h.log, n);
    assert env.decode(env.encode(HF.Fold(d, h.log))) == Some(HF.Fold(d, h.log));
  }

  lemma UnfinishedEntryHasCaller(s: PC.State, e: PC.EntryId)
    requires PC.Inv(s) && e < |s.sh.heap| && !s.sh.heap[e].once.Complete?
    ensures s.sh.heap[e].creator in s.calls
    ensures var call := s.calls[s.sh.heap[e].creator];
      !PC.Finished(call.pc) && call.op.Peer? && call.op.name == s.sh.heap[e].name
  {
    assert PC.EntryOk(s.calls, e, s.sh.heap[e]);
    assert PC.CallOk(s.sh, s.sh.heap[e].creator, s.calls[s.sh.heap[e].creator]);
  }

  /** Such a delete always happens while a call for n is in flight, so it never happens if
      the two are kept apart. */
  lemma DropOverlaps(env: HF.Env, s: State, l: Label, n: Name) returns (g: Cid)
    requires Inv(env, s) && Drops(env, s, l, n)
    ensures OpOf(s, l.c) == PC.Forget(n)
    ensures g in s.cache.calls && OpOf(s, g).Peer? && OpOf(s, g).name == n && !PC.Finished(PcOf(s, g))
  {
    var e := s.cache.sh.live[n];
    assert PC.CallOk(s.cache.sh, l.c, s.cache.calls[l.c]);
    UnfinishedEntryHasCaller(s.cache, e);
    g := s.cache.sh.heap[e].creator;
  }
}

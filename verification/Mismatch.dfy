/** The other half of Agreement: a ForgetPeer that takes out an entry whose build may still
    take the hashes lock can always be followed, nothing breaking, by a moment at which
    the published hash is not the cached client's.

    The build whose entry was dropped is brought to wait for the lock; a new call builds
    another client and records it; then the older build records. */
module Mismatch {
  import opened Base
  import AF = AtomicFile
  import PC = PeerCache
  import CR = CacheRuns
  import TP = Topology
  import HF = HashFile
  import HR = HashRuns
  import HC = HeaderCheck
  import opened Runtime
  import opened RuntimeRuns
  import opened Agreement
  import LV = Liveness
  import Disks = FileSystem

  // ---- continuations ----

  predicate Listed(s: TP.State, n: Name)
  {
    s.cached.Some? && s.cached.value.Ok? && TP.FindPeer(s.cached.value.value, n).Some?
  }

  /** A build past lookupPeer found its name. */
  ghost predicate LookedUp(s: State)
  {
    forall c :: c in s.cache.calls && (PcOf(s, c).Resolve? || PcOf(s, c).Record?) ==> Listed(s.topo, OpOf(s, c).name)
  }

  /** Reachable, and nothing has broken. */
  ghost predicate Clean(env: HF.Env, s: State)
  {
    Inv(env, s) && HR.CleanOk(s.hashes) && !s.hashes.faulty && LookedUp(s)
  }

  lemma StaysListed(s: TP.State, l: TP.Label, n: Name)
    requires TP.Inv(s) && TP.Enabled(s, l) && Listed(s, n)
    ensures Listed(TP.Next(s, l), n)
  {
    TP.NextInv(s, l);
  }

  lemma CallLookedUp(env: HF.Env, s: State, l: Label, c: Cid)
    requires TP.Inv(s.topo) && Enabled(env, s, l) && LookedUp(s) && c in Next(env, s, l).cache.calls
    requires PcOf(Next(env, s, l), c).Resolve? || PcOf(Next(env, s, l), c).Record?
    ensures Listed(Next(env, s, l).topo, OpOf(Next(env, s, l), c).name)
  {
    if l == Looked(c) {
      assert s.topo.cached == Some(s.topo.readers[c].got);
    } else {
      assert c in s.cache.calls && (PcOf(s, c).Resolve? || PcOf(s, c).Record?);
      StaysListed(s.topo, TopoLabel(s, l), OpOf(s, c).name);
    }
  }

  lemma StepClean(env: HF.Env, s: State, l: Label)
    requires HF.Faithful(env) && Inv(env, s) && HR.CleanOk(s.hashes) && LookedUp(s) && Enabled(env, s, l)
    ensures var s' := Next(env, s, l); Inv(env, s') && HR.CleanOk(s'.hashes) && LookedUp(s')
  {
    NextInv(env, s, l);
    HR.StepCleanOk(env, s.hashes, HashLabel(s, l));
    forall c | c in Next(env, s, l).cache.calls && (PcOf(Next(env, s, l), c).Resolve? || PcOf(Next(env, s, l), c).Record?)
      ensures Listed(Next(env, s, l).topo, OpOf(Next(env, s, l), c).name)
    {
      CallLookedUp(env, s, l, c);
    }
  }

  lemma {:induction false} RunClean(env: HF.Env, ss: seq<State>, ls: seq<Label>, i: nat)
    requires HF.Faithful(env) && IsRun(env, ss, ls) && i < |ss|
    ensures Inv(env, ss[i]) && HR.CleanOk(ss[i].hashes) && LookedUp(ss[i])
  {
    if i == 0 {
      InitInv(env, ss[0]);
    } else {
      RunClean(env, ss, ls, i - 1);
      StepClean(env, ss[i - 1], ls[i - 1]);
    }
  }

  /** Steps in which no ForgetPeer(n) drops a build that may still record. */
  ghost predicate IsPath(env: HF.Env, n: Name, ss: seq<State>, ls: seq<Label>)
  {
    && |ss| == |ls| + 1
    && forall i :: 0 <= i < |ls| ==>
         Enabled(env, ss[i], ls[i]) && ss[i + 1] == Next(env, ss[i], ls[i]) && !Drops(env, ss[i], ls[i], n)
  }

  /** Such steps lead from s to t and nothing has broken. */
  ghost predicate Reaches(env: HF.Env, n: Name, s: State, t: State)
  {
    && !t.hashes.faulty
    && exists ss, ls :: IsPath(env, n, ss, ls) && ss[0] == s && ss[|ss| - 1] == t
  }

  lemma ReachesSelf(env: HF.Env, n: Name, s: State)
    requires !s.hashes.faulty
    ensures Reaches(env, n, s, s)
  {
    assert IsPath(env, n, [s], []);
  }

  lemma PathSnoc(env: HF.Env, n: Name, ss: seq<State>, ls: seq<Label>, l: Label)
    requires IsPath(env, n, ss, ls) && Enabled(env, ss[|ls|], l) && !Drops(env, ss[|ls|], l, n)
    ensures IsPath(env, n, ss + [Next(env, ss[|ls|], l)], ls + [l])
  {
    var ss', ls' := ss + [Next(env, ss[|ls|], l)], ls + [l];
    forall i | 0 <= i < |ls'|
      ensures Enabled(env, ss'[i], ls'[i]) && ss'[i + 1] == Next(env, ss'[i], ls'[i]) && !Drops(env, ss'[i], ls'[i], n)
    {
      if i < |ls| { assert ss'[i] == ss[i] && ss'[i + 1] == ss[i + 1] && ls'[i] == ls[i]; }
    }
  }

  /** s is reached from s0 and is clean. */
  ghost predicate At(env: HF.Env, n: Name, s0: State, s: State)
  {
    Reaches(env, n, s0, s) && Clean(env, s)
  }

  lemma ReachesNext(env: HF.Env, n: Name, s0: State, s: State, l: Label)
    requires Reaches(env, n, s0, s) && Enabled(env, s, l) && !Drops(env, s, l, n)
    requires !Next(env, s, l).hashes.faulty
    ensures Reaches(env, n, s0, Next(env, s, l))
  {
    var ss, ls :| IsPath(env, n, ss, ls) && ss[0] == s0 && ss[|ss| - 1] == s;
    PathSnoc(env, n, ss, ls, l);
    var ss' := ss + [Next(env, ss[|ls|], l)];
    assert ss'[0] == s0 && ss'[|ss'| - 1] == Next(env, s, l);
  }

  lemma Onward(env: HF.Env, n: Name, s0: State, s: State, l: Label)
    requires HF.Faithful(env) && At(env, n, s0, s) && Enabled(env, s, l)
    requires !Drops(env, s, l, n) && !Next(env, s, l).hashes.faulty
    ensures At(env, n, s0, Next(env, s, l))
  {
    ReachesNext(env, n, s0, s, l);
    StepClean(env, s, l);
  }

  // ---- bringing a build to wait for the lock ----

  /** Whoever reads the topology now, or has read it, finds n. */
  predicate ListedOnRead(s: TP.State, n: Name)
  {
    if s.cached.Some? then Listed(s, n)
    else s.view.Parsed? && TP.FindPeer(s.view.peers, n).Some?
  }

  /** The build of e may still record, and if it does it records this card. */
  ghost predicate Driving(env: HF.Env, s: State, n: Name, e: PC.EntryId, card: Card)
  {
    && s.cache.mu == None
    && e < |s.cache.sh.heap| && s.cache.sh.heap[e].name == n && MayRecord(env, s, e)
    && ListedOnRead(s.topo, n)
    && (s.cache.sh.heap[e].outcome.Some? ==>
          s.cache.sh.heap[e].outcome.value.Built? && s.cache.sh.heap[e].outcome.value.card == card)
  }

  /** Only the build of e, and what it waits for, has moved. */
  ghost predicate Spares(s: State, s': State, e: PC.EntryId)
  {
    && s'.cache.sh.live == s.cache.sh.live
    && |s'.cache.sh.heap| == |s.cache.sh.heap|
    && (forall d: PC.EntryId :: d < |s.cache.sh.heap| && d != e ==> s'.cache.sh.heap[d] == s.cache.sh.heap[d])
    && s'.hashes.log == s.hashes.log && s'.hashes.mu == s.hashes.mu
    && (forall r :: r in s.hashes.recs && s.hashes.recs[r].pc.LockWait? ==>
          r in s'.hashes.recs && s'.hashes.recs[r] == s.hashes.recs[r])
  }

  lemma SparesTransitive(s: State, t: State, u: State, e: PC.EntryId)
    requires Spares(s, t, e) && Spares(t, u, e)
    ensures Spares(s, u, e)
  {
  }

  ghost predicate Drives(env: HF.Env, s: State, n: Name, e: PC.EntryId, card: Card, l: Label)
  {
    && Enabled(env, s, l) && LV.Internal(l) && !Deletes(s, l, n)
    && !Next(env, s, l).hashes.faulty
    && Driving(env, Next(env, s, l), n, e, card) && Spares(s, Next(env, s, l), e)
  }

  /** Builder b waits for the lock, its client in the entry. */
  ghost predicate Waiting(s: State, e: PC.EntryId, b: Cid)
  {
    && e < |s.cache.sh.heap| && s.cache.sh.heap[e].once == Running(b) && HasClient(s.cache.sh, e)
    && b in s.hashes.recs && s.hashes.recs[b].pc.LockWait?
  }

  lemma WinStep(env: HF.Env, s: State, n: Name, e: PC.EntryId, card: Card) returns (l: Label)
    requires Clean(env, s) && Driving(env, s, n, e, card) && s.cache.sh.heap[e].once.Idle?
    ensures Drives(env, s, n, e, card, l)
  {
    var g :| MayWin(s, e, g);
    assert PC.OnceEnter(e) == PcOf(s, g) by { assert PC.MutexOk(s.cache); }
    l := Advance(g);
  }

  lemma CheckStep(env: HF.Env, s: State, n: Name, e: PC.EntryId, card: Card, b: Cid)
    requires Clean(env, s) && Driving(env, s, n, e, card) && s.cache.sh.heap[e].once == Running(b)
    requires b in s.cache.calls && PcOf(s, b) == PC.Validate(e)
    ensures Drives(env, s, n, e, card, Check(b))
  {
    LV.CheckAdvances(env, s, b);
  }

  /** A step of loadTopology moves the topology alone. */
  lemma TopoStepOnly(env: HF.Env, s: State, d: Cid)
    requires TP.Enabled(s.topo, TP.Step(d))
    ensures Enabled(env, s, TopoStep(d)) && Next(env, s, TopoStep(d)) == s.(topo := TP.Next(s.topo, TP.Step(d)))
  {
  }

  lemma KeepsListed(s: TP.State, d: Cid, n: Name)
    requires TP.Inv(s) && TP.Enabled(s, TP.Step(d)) && ListedOnRead(s, n)
    ensures ListedOnRead(TP.Next(s, TP.Step(d)), n) && TopologyAllows(TP.Next(s, TP.Step(d)), n)
  {
    TP.NextInv(s, TP.Step(d));
  }

  lemma LookupKeepsDriving(env: HF.Env, s: State, topo: TP.State, n: Name, e: PC.EntryId, card: Card, b: Cid)
    requires Driving(env, s, n, e, card) && s.cache.sh.heap[e].once == Running(b)
    requires b in s.cache.calls && PcOf(s, b) == PC.LookupPeer(e)
    requires ListedOnRead(topo, n) && TopologyAllows(topo, n)
    ensures Driving(env, s.(topo := topo), n, e, card) && Spares(s, s.(topo := topo), e)
  {
  }

  lemma TopoStepDrives(env: HF.Env, s: State, n: Name, e: PC.EntryId, card: Card, b: Cid) returns (l: Label)
    requires Clean(env, s) && Driving(env, s, n, e, card) && s.cache.sh.heap[e].once == Running(b)
    requires b in s.cache.calls && PcOf(s, b) == PC.LookupPeer(e) && b in s.topo.readers && !s.topo.readers[b].Done?
    ensures Drives(env, s, n, e, card, l)
  {
    var d := LV.ReaderAdvances(s.topo, b);
    l := TopoStep(d);
    TopoStepOnly(env, s, d);
    KeepsListed(s.topo, d, n);
    LookupKeepsDriving(env, s, TP.Next(s.topo, TP.Step(d)), n, e, card, b);
  }

  /** lookupPeer has found the name. */
  lemma FoundStep(env: HF.Env, s: State, e: PC.EntryId, b: Cid)
    requires Inv(env, s) && b in s.cache.calls && PcOf(s, b) == PC.LookupPeer(e)
    requires b in s.topo.readers && s.topo.readers[b].Done? && ListedOnRead(s.topo, OpOf(s, b).name)
    ensures e < |s.cache.sh.heap| && s.cache.sh.heap[e].name == OpOf(s, b).name
    ensures Enabled(env, s, Looked(b))
    ensures var t := Next(env, s, Looked(b));
      && t == s.(cache := t.cache) && t.cache == s.cache.(calls := t.cache.calls)
      && b in t.cache.calls && PcOf(t, b) == PC.Resolve(e)
  {
    assert PC.CallOk(s.cache.sh, b, s.cache.calls[b]);
    assert s.topo.cached == Some(s.topo.readers[b].got);
  }

  lemma LookedStep(env: HF.Env, s: State, n: Name, e: PC.EntryId, card: Card, b: Cid)
    requires Clean(env, s) && Driving(env, s, n, e, card) && s.cache.sh.heap[e].once == Running(b)
    requires b in s.cache.calls && PcOf(s, b) == PC.LookupPeer(e) && b in s.topo.readers && s.topo.readers[b].Done?
    ensures Drives(env, s, n, e, card, Looked(b))
  {
    assert PC.CallOk(s.cache.sh, b, s.cache.calls[b]);
    FoundStep(env, s, e, b);
  }

  lemma NotYetRecording(s: State, b: Cid)
    requires RecordersOk(s) && b in s.cache.calls && PcOf(s, b).Resolve?
    ensures b !in s.hashes.recs
  {
  }

  /** The card and the client arrive, and the recorder starts. */
  lemma DeliverStep(env: HF.Env, s: State, e: PC.EntryId, card: Card, b: Cid)
    requires b in s.cache.calls && PcOf(s, b) == PC.Resolve(e) && OpOf(s, b).Peer? && e < |s.cache.sh.heap|
    requires b !in s.hashes.recs
    ensures Enabled(env, s, Resolved(b, PC.Deliver(0, card)))
    ensures var t := Next(env, s, Resolved(b, PC.Deliver(0, card)));
      && t.topo == s.topo && t.cache.mu == s.cache.mu
      && t.cache.sh == PC.Settle(s.cache.sh, e, PC.Built(PC.Client(0, OpOf(s, b).config), card))
      && b in t.cache.calls && PcOf(t, b) == PC.Record(e)
      && t.hashes == s.hashes.(recs := s.hashes.recs[b := HF.Rec(OpOf(s, b).name, card, HF.Begin)])
  {
  }

  lemma ResolveStep(env: HF.Env, s: State, n: Name, e: PC.EntryId, card: Card, b: Cid)
    requires Clean(env, s) && Driving(env, s, n, e, card) && s.cache.sh.heap[e].once == Running(b)
    requires b in s.cache.calls && PcOf(s, b) == PC.Resolve(e) && env.hash(card).Some?
    ensures Drives(env, s, n, e, card, Resolved(b, PC.Deliver(0, card)))
  {
    assert PC.CallOk(s.cache.sh, b, s.cache.calls[b]);
    NotYetRecording(s, b);
    DeliverStep(env, s, e, card, b);
  }

  /** One step, of recorder r or of the one r waits for at the clear-once guard. */
  lemma GuardStep(env: HF.Env, h: HF.State, r: Cid) returns (l: HF.Label)
    requires HF.Inv(env, h) && r in h.recs && !h.recs[r].pc.LockWait? && LockAhead(env, h.recs[r]) && env.inCluster
    requires !h.faulty
    ensures HF.Enabled(env, h, l) && l.Step?
    ensures var h' := HF.Next(env, h, l);
      && !h'.faulty && h'.log == h.log && h'.mu == h.mu
      && r in h'.recs && LockAhead(env, h'.recs[r]) && h'.recs.Keys == h.recs.Keys
      && forall d :: d in h.recs && h.recs[d].pc.LockWait? ==> h'.recs[d] == h.recs[d]
  {
    var pc := h.recs[r].pc;
    if pc.Begin? {
      l := HF.Step(r, HF.Clock(0));
    } else if pc.InitEnter? {
      l := LV.GuardAdvances(env, h, r);
      l := HF.Step(if h.once.Running? then h.once.runner else r, HF.Io(AF.Works));
    } else {
      l := HF.Step(r, HF.Io(AF.Works));
    }
  }

  /** A step of recordPeerHash moves the hash file alone. */
  lemma HashStepOnly(env: HF.Env, s: State, g: HF.Label)
    requires HF.Enabled(env, s.hashes, g) && g.Step?
    ensures Enabled(env, s, HashStep(g.r, g.choice))
    ensures Next(env, s, HashStep(g.r, g.choice)) == s.(hashes := HF.Next(env, s.hashes, g))
  {
  }

  lemma RecordKeepsDriving(env: HF.Env, s: State, h: HF.State, n: Name, e: PC.EntryId, card: Card, b: Cid)
    requires Driving(env, s, n, e, card) && s.cache.sh.heap[e].once == Running(b)
    requires b in s.cache.calls && PcOf(s, b) == PC.Record(e)
    requires b in h.recs && LockAhead(env, h.recs[b]) && h.log == s.hashes.log && h.mu == s.hashes.mu
    requires forall d :: d in s.hashes.recs && s.hashes.recs[d].pc.LockWait? ==> d in h.recs && h.recs[d] == s.hashes.recs[d]
    ensures Driving(env, s.(hashes := h), n, e, card) && Spares(s, s.(hashes := h), e)
  {
  }

  lemma RecordStep(env: HF.Env, s: State, n: Name, e: PC.EntryId, card: Card, b: Cid) returns (l: Label)
    requires Clean(env, s) && Driving(env, s, n, e, card) && s.cache.sh.heap[e].once == Running(b) && env.inCluster
    requires b in s.cache.calls && PcOf(s, b) == PC.Record(e) && b in s.hashes.recs && !s.hashes.recs[b].pc.LockWait?
    ensures Drives(env, s, n, e, card, l)
  {
    var g := GuardStep(env, s.hashes, b);
    l := HashStep(g.r, g.choice);
    HashStepOnly(env, s, g);
    RecordKeepsDriving(env, s, HF.Next(env, s.hashes, g), n, e, card, b);
  }

  lemma TowardsLock(env: HF.Env, s: State, n: Name, e: PC.EntryId, card: Card) returns (l: Label)
    requires Clean(env, s) && Driving(env, s, n, e, card) && env.inCluster && env.hash(card).Some?
    requires s.cache.sh.heap[e].once.Running? ==> !Waiting(s, e, s.cache.sh.heap[e].once.runner)
    ensures Drives(env, s, n, e, card, l)
  {
    if s.cache.sh.heap[e].once.Idle? {
      l := WinStep(env, s, n, e, card);
    } else {
      var b := s.cache.sh.heap[e].once.runner;
      assert PC.EntryOk(s.cache.calls, e, s.cache.sh.heap[e]);
      assert PC.CallOk(s.cache.sh, b, s.cache.calls[b]);
      match PcOf(s, b)
      case Validate(_) =>
        CheckStep(env, s, n, e, card, b);
        l := Check(b);
      case LookupPeer(_) =>
        if s.topo.readers[b].Done? {
          LookedStep(env, s, n, e, card, b);
          l := Looked(b);
        } else {
          l := TopoStepDrives(env, s, n, e, card, b);
        }
      case Resolve(_) =>
        ResolveStep(env, s, n, e, card, b);
        l := Resolved(b, PC.Deliver(0, card));
      case Record(_) =>
        l := RecordStep(env, s, n, e, card, b);
    }
  }

  /** The build of e can be brought to wait for the hashes lock. */
  lemma {:induction false} ToLock(env: HF.Env, n: Name, s0: State, s: State, e: PC.EntryId, card: Card)
      returns (t: State, b: Cid)
    requires HF.Faithful(env) && At(env, n, s0, s) && Driving(env, s, n, e, card) && env.inCluster && env.hash(card).Some?
    ensures At(env, n, s0, t) && Driving(env, t, n, e, card) && Spares(s, t, e) && Waiting(t, e, b)
    decreases LV.Measure(s)
  {
    if s.cache.sh.heap[e].once.Running? && Waiting(s, e, s.cache.sh.heap[e].once.runner) {
      t, b := s, s.cache.sh.heap[e].once.runner;
    } else {
      var l := TowardsLock(env, s, n, e, card);
      Onward(env, n, s0, s, l);
      LV.StepFalls(env, s, l);
      t, b := ToLock(env, n, s0, Next(env, s, l), e, card);
      SparesTransitive(s, Next(env, s, l), t, e);
    }
  }

  // ---- the holder of the lock, nothing breaking ----

  lemma HolderStep(env: HF.Env, h: HF.State) returns (l: HF.Label)
    requires HF.Inv(env, h) && HR.CleanOk(h) && !h.faulty && h.mu.Some?
    ensures HF.Enabled(env, h, l) && l.Step? && l.r == h.mu.value
    ensures var h', r := HF.Next(env, h, l), h.mu.value;
      && !h'.faulty && h'.recs == h.recs[r := h'.recs[r]]
      && h'.recs[r].name == h.recs[r].name && h'.recs[r].card == h.recs[r].card
      && (h'.mu == h.mu || (h'.mu == None && h'.recs[r].pc.Done?))
      && (h'.log == h.log || (|h'.log| == |h.log| + 1 && h.log <= h'.log && h'.log[|h.log|].r == r))
  {
    var r := h.mu.value;
    var pc := h.recs[r].pc;
    assert HF.RecOk(env, h, r, h.recs[r]);
    if pc.Writing? && pc.w.CreateTemp? {
      var tmp := Disks.LongerThanAll(h.fs.Keys + {env.path});
      assert tmp !in h.fs && tmp != env.path;
      l := HF.Step(r, HF.Io(AF.Creates(tmp)));
    } else {
      l := HF.Step(r, HF.Io(AF.Works));
    }
  }

  /** Recorder r has moved, and nothing else. */
  ghost predicate Moved(s: State, s': State, r: Cid)
  {
    && s'.cache == s.cache && s'.topo == s.topo
    && r in s.hashes.recs && s'.hashes.recs.Keys == s.hashes.recs.Keys
    && (forall d :: d in s.hashes.recs && d != r ==> s'.hashes.recs[d] == s.hashes.recs[d])
    && s'.hashes.recs[r].name == s.hashes.recs[r].name && s'.hashes.recs[r].card == s.hashes.recs[r].card
    && Appended(s.hashes.log, s'.hashes.log, r)
  }

  /** At most one record, of r, was added. */
  ghost predicate Appended(log: seq<HF.Commit>, log': seq<HF.Commit>, r: Cid)
  {
    log' == log || (|log'| == |log| + 1 && log <= log' && log'[|log|].r == r)
  }

  lemma AppendedOnce(a: seq<HF.Commit>, b: seq<HF.Commit>, c: seq<HF.Commit>, r: Cid)
    requires Appended(a, b, r) && Appended(b, c, r)
    requires forall i, j :: 0 <= i < j < |c| ==> c[i].r != c[j].r
    ensures Appended(a, c, r)
  {
    assert b != a ==> |a| < |c| && c[|a|].r == r;
    assert c != b ==> |b| < |c| && c[|b|].r == r;
  }

  lemma HashMoves(s: State, h: HF.State, r: Cid)
    requires r in s.hashes.recs && r in h.recs && h.recs == s.hashes.recs[r := h.recs[r]]
    requires h.recs[r].name == s.hashes.recs[r].name && h.recs[r].card == s.hashes.recs[r].card
    requires Appended(s.hashes.log, h.log, r)
    ensures Moved(s, s.(hashes := h), r)
  {
  }

  lemma HolderMoves(env: HF.Env, s: State) returns (l: Label)
    requires Clean(env, s) && s.hashes.mu.Some?
    ensures Enabled(env, s, l) && l.HashStep? && !Next(env, s, l).hashes.faulty
    ensures var t, r := Next(env, s, l), s.hashes.mu.value;
      Moved(s, t, r) && (t.hashes.mu == s.hashes.mu || (t.hashes.mu == None && t.hashes.recs[r].pc.Done?))
  {
    var g := HolderStep(env, s.hashes);
    l := HashStep(g.r, g.choice);
    HashStepOnly(env, s, g);
    HashMoves(s, HF.Next(env, s.hashes, g), g.r);
  }

  lemma MovedOnce(s: State, t: State, u: State, r: Cid)
    requires Moved(s, t, r) && Moved(t, u, r)
    requires forall i, j :: 0 <= i < j < |u.hashes.log| ==> u.hashes.log[i].r != u.hashes.log[j].r
    ensures Moved(s, u, r)
  {
    AppendedOnce(s.hashes.log, t.hashes.log, u.hashes.log, r);
  }

  lemma LoggedDistinct(env: HF.Env, n: Name, s0: State, s: State)
    requires At(env, n, s0, s)
    ensures forall i, j :: 0 <= i < j < |s.hashes.log| ==> s.hashes.log[i].r != s.hashes.log[j].r
  {
  }

  lemma {:induction false} DrainLock(env: HF.Env, n: Name, s0: State, s: State) returns (t: State)
    requires HF.Faithful(env) && At(env, n, s0, s) && s.hashes.mu.Some?
    ensures At(env, n, s0, t) && t.hashes.mu == None
    ensures Moved(s, t, s.hashes.mu.value) && t.hashes.recs[s.hashes.mu.value].pc.Done?
    decreases LV.Measure(s)
  {
    var l := HolderMoves(env, s);
    t := Next(env, s, l);
    Onward(env, n, s0, s, l);
    LV.StepFalls(env, s, l);
    if t.hashes.mu.Some? {
      var u := DrainLock(env, n, s0, t);
      LoggedDistinct(env, n, s0, u);
      MovedOnce(s, t, u, s.hashes.mu.value);
      t := u;
    }
  }

  /** The hash file once recorder b has taken the lock. */
  function Taken(h: HF.State, b: Cid): HF.State
    requires b in h.recs && h.recs[b].pc.LockWait?
  {
    h.(mu := Some(b), recs := h.recs[b := h.recs[b].(pc := HF.Reading(h.recs[b].pc.item))])
  }

  lemma TakeLock(env: HF.Env, h: HF.State, b: Cid)
    requires h.mu == None && b in h.recs && h.recs[b].pc.LockWait?
    ensures HF.Enabled(env, h, HF.Step(b, HF.Io(AF.Works)))
    ensures HF.Next(env, h, HF.Step(b, HF.Io(AF.Works))) == Taken(h, b)
  {
  }

  lemma LockStep(env: HF.Env, n: Name, s0: State, s: State, b: Cid) returns (t: State)
    requires HF.Faithful(env) && At(env, n, s0, s) && s.hashes.mu == None
    requires b in s.hashes.recs && s.hashes.recs[b].pc.LockWait?
    ensures At(env, n, s0, t) && t.hashes.mu == Some(b) && Moved(s, t, b) && t.hashes.log == s.hashes.log
  {
    t := s.(hashes := Taken(s.hashes, b));
    TakenIsNext(env, s, b);
    Onward(env, n, s0, s, HashStep(b, HF.Io(AF.Works)));
    HashMoves(s, Taken(s.hashes, b), b);
  }

  lemma TakenIsNext(env: HF.Env, s: State, b: Cid)
    requires s.hashes.mu == None && b in s.hashes.recs && s.hashes.recs[b].pc.LockWait?
    ensures Enabled(env, s, HashStep(b, HF.Io(AF.Works)))
    ensures Next(env, s, HashStep(b, HF.Io(AF.Works))) == s.(hashes := Taken(s.hashes, b))
  {
    TakeLock(env, s.hashes, b);
    HashStepOnly(env, s, HF.Step(b, HF.Io(AF.Works)));
  }

  /** A recorder that waits for a free lock can publish its record, and that record is then
      the last. */
  lemma Publish(env: HF.Env, n: Name, s0: State, s: State, b: Cid) returns (t: State)
    requires HF.Faithful(env) && At(env, n, s0, s) && s.hashes.mu == None && env.inCluster
    requires b in s.hashes.recs && s.hashes.recs[b].pc.LockWait?
    ensures At(env, n, s0, t) && t.hashes.mu == None && Moved(s, t, b) && t.hashes.recs[b].pc.Done?
    ensures |t.hashes.log| == |s.hashes.log| + 1 && t.hashes.log[|s.hashes.log|].r == b
    ensures HF.CommitOf(env, t.hashes.log[|s.hashes.log|], t.hashes.recs[b])
  {
    var u := LockStep(env, n, s0, s, b);
    t := DrainLock(env, n, s0, u);
    DoneIsLogged(env, t.hashes, b);
    WaitingNotLogged(env, s.hashes, b);
  }

  lemma DoneIsLogged(env: HF.Env, h: HF.State, b: Cid)
    requires HF.Inv(env, h) && HR.CleanOk(h) && !h.faulty && env.inCluster && b in h.recs && h.recs[b].pc.Done?
    ensures HF.LoggedBy(h.log, b)
    ensures forall i :: 0 <= i < |h.log| && h.log[i].r == b ==> HF.CommitOf(env, h.log[i], h.recs[b])
  {
    assert HF.RecOk(env, h, b, h.recs[b]) && HR.Unbroken(h.recs[b].pc);
  }

  lemma WaitingNotLogged(env: HF.Env, h: HF.State, b: Cid)
    requires HF.Inv(env, h) && b in h.recs && h.recs[b].pc.LockWait?
    ensures !HF.LoggedBy(h.log, b)
  {
  }

  // ---- the delete and what follows it ----

  lemma DeleteEffect(env: HF.Env, s: State, f: Cid, n: Name)
    requires Inv(env, s) && Enabled(env, s, Advance(f)) && PcOf(s, f).ForgetHeld? && OpOf(s, f).name == n
    ensures var t := Next(env, s, Advance(f));
      && t == s.(cache := t.cache) && t.cache.sh.heap == s.cache.sh.heap && n !in t.cache.sh.live
      && t.cache.calls == s.cache.calls[f := s.cache.calls[f].(pc := PC.ForgetUnlock)]
      && PC.CanAct(t.cache.mu, t.cache.sh, OpOf(s, f), PC.ForgetUnlock, PC.Plain)
  {
  }

  lemma ReleaseEffect(env: HF.Env, s: State, f: Cid)
    requires f in s.cache.calls && PcOf(s, f).ForgetUnlock? && !OpOf(s, f).Peer?
    ensures Enabled(env, s, Advance(f))
    ensures var t := Next(env, s, Advance(f));
      && t == s.(cache := t.cache) && t.cache.sh == s.cache.sh && t.cache.mu == None
      && t.cache.calls == s.cache.calls[f := s.cache.calls[f].(pc := PC.Forgotten)]
  {
  }

  /** A step of a ForgetPeer leaves every build as it was. */
  lemma ForgetKeepsBuild(env: HF.Env, s: State, t: State, f: Cid, e: PC.EntryId)
    requires e < |s.cache.sh.heap| && MayRecord(env, s, e) && f in s.cache.calls && PC.ForgetPc(PcOf(s, f))
    requires t == s.(cache := t.cache) && t.cache.sh.heap == s.cache.sh.heap && f in t.cache.calls
    requires t.cache.calls == s.cache.calls[f := t.cache.calls[f]]
    ensures MayRecord(env, t, e)
  {
    if s.cache.sh.heap[e].once.Idle? {
      var g :| MayWin(s, e, g);
      assert MayWin(t, e, g);
    }
  }

  /** The delete itself: the dropped build may still record. */
  lemma DeleteStep(env: HF.Env, n: Name, s: State, f: Cid) returns (t: State, e: PC.EntryId)
    requires HF.Faithful(env) && Clean(env, s) && Enabled(env, s, Advance(f)) && Drops(env, s, Advance(f), n)
    ensures t == Next(env, s, Advance(f)) && At(env, n, t, t)
    ensures n !in t.cache.sh.live && f in t.cache.calls && PcOf(t, f) == PC.ForgetUnlock && !OpOf(t, f).Peer?
    ensures e < |t.cache.sh.heap| && t.cache.sh.heap[e].name == n && MayRecord(env, t, e)
  {
    e := s.cache.sh.live[n];
    t := Next(env, s, Advance(f));
    DeleteEffect(env, s, f, n);
    ForgetKeepsBuild(env, s, t, f, e);
    StepClean(env, s, Advance(f));
    ReachesSelf(env, n, t);
  }

  lemma ReleaseStep(env: HF.Env, n: Name, s0: State, s: State, f: Cid, e: PC.EntryId) returns (t: State)
    requires HF.Faithful(env) && At(env, n, s0, s) && n !in s.cache.sh.live
    requires f in s.cache.calls && PcOf(s, f) == PC.ForgetUnlock && !OpOf(s, f).Peer?
    requires e < |s.cache.sh.heap| && s.cache.sh.heap[e].name == n && MayRecord(env, s, e)
    ensures At(env, n, s0, t) && t.cache.mu == None && n !in t.cache.sh.live
    ensures e < |t.cache.sh.heap| && t.cache.sh.heap[e].name == n && MayRecord(env, t, e)
  {
    ReleaseEffect(env, s, f);
    Onward(env, n, s0, s, Advance(f));
    t := Next(env, s, Advance(f));
    ForgetKeepsBuild(env, s, t, f, e);
  }

  /** After the delete and the release of the map's lock. */
  lemma Deleted(env: HF.Env, n: Name, s: State, f: Cid) returns (s0: State, t: State, e: PC.EntryId)
    requires HF.Faithful(env) && Clean(env, s) && Enabled(env, s, Advance(f)) && Drops(env, s, Advance(f), n)
    ensures s0 == Next(env, s, Advance(f)) && At(env, n, s0, t)
    ensures t.cache.mu == None && n !in t.cache.sh.live
    ensures e < |t.cache.sh.heap| && t.cache.sh.heap[e].name == n && MayRecord(env, t, e)
  {
    s0, e := DeleteStep(env, n, s, f);
    t := ReleaseStep(env, n, s0, s0, f, e);
  }

  /** A build that may still record can be made to find its name. */
  lemma MakeListed(env: HF.Env, n: Name, s0: State, s: State, e: PC.EntryId) returns (t: State)
    requires HF.Faithful(env) && At(env, n, s0, s)
    requires e < |s.cache.sh.heap| && s.cache.sh.heap[e].name == n && MayRecord(env, s, e)
    ensures At(env, n, s0, t) && ListedOnRead(t.topo, n) && t.cache == s.cache && t.hashes == s.hashes
    ensures MayRecord(env, t, e)
  {
    if s.topo.cached.Some? {
      t := s;
      if s.cache.sh.heap[e].once.Running? { BuilderListed(env, s, n, e); }
    } else {
      var l := TopoRewrite(TP.Parsed([TP.Peer(n, "", "")]));
      t := Next(env, s, l);
      Onward(env, n, s0, s, l);
      KeepsBuild(env, s, t, e);
    }
  }

  lemma KeepsBuild(env: HF.Env, s: State, t: State, e: PC.EntryId)
    requires e < |s.cache.sh.heap| && MayRecord(env, s, e)
    requires t.cache == s.cache && t.hashes == s.hashes && t.topo.cached == s.topo.cached
    ensures MayRecord(env, t, e)
  {
    if s.cache.sh.heap[e].once.Idle? {
      var g :| MayWin(s, e, g);
      assert MayWin(t, e, g);
    }
  }

  lemma BuilderListed(env: HF.Env, s: State, n: Name, e: PC.EntryId)
    requires Clean(env, s) && s.topo.cached.Some?
    requires e < |s.cache.sh.heap| && s.cache.sh.heap[e].name == n && s.cache.sh.heap[e].once.Running? && MayRecord(env, s, e)
    ensures Listed(s.topo, n)
  {
    var b := s.cache.sh.heap[e].once.runner;
    assert PC.EntryOk(s.cache.calls, e, s.cache.sh.heap[e]);
    assert PC.CallOk(s.cache.sh, b, s.cache.calls[b]);
  }

  /** The card the build of e records if it records. */
  lemma RecordedCard(env: HF.Env, s: State, e: PC.EntryId, dflt: Card) returns (card: Card)
    requires Clean(env, s) && e < |s.cache.sh.heap| && MayRecord(env, s, e) && env.hash(dflt).Some? && env.inCluster
    ensures env.hash(card).Some?
    ensures s.cache.sh.heap[e].outcome.Some? ==>
      s.cache.sh.heap[e].outcome.value.Built? && s.cache.sh.heap[e].outcome.value.card == card
  {
    card := dflt;
    assert PC.EntryOk(s.cache.calls, e, s.cache.sh.heap[e]);
    if s.cache.sh.heap[e].outcome.Some? {
      var b := s.cache.sh.heap[e].once.runner;
      assert PC.CallOk(s.cache.sh, b, s.cache.calls[b]);
      LV.HasRecorder(env, s, b);
      assert HF.RecOk(env, s.hashes, b, s.hashes.recs[b]);
      card := s.hashes.recs[b].card;
    }
  }

  /** The dropped build waits for the lock. */
  lemma DroppedWaits(env: HF.Env, n: Name, s: State, f: Cid, dflt: Card)
      returns (s0: State, t: State, e: PC.EntryId, b: Cid, card: Card)
    requires HF.Faithful(env) && Clean(env, s) && Enabled(env, s, Advance(f)) && Drops(env, s, Advance(f), n)
    requires env.inCluster && env.hash(dflt).Some?
    ensures s0 == Next(env, s, Advance(f)) && At(env, n, s0, t) && env.hash(card).Some?
    ensures Driving(env, t, n, e, card) && Waiting(t, e, b) && n !in t.cache.sh.live
  {
    var u, v;
    s0, u, e := Deleted(env, n, s, f);
    v := MakeListed(env, n, s0, u, e);
    card := RecordedCard(env, v, e, dflt);
    t, b := ToLock(env, n, s0, v, e, card);
  }

  /** The lock is freed, and the waiting build waits on. */
  lemma LockFreed(env: HF.Env, n: Name, s0: State, s: State, e: PC.EntryId, card: Card, b: Cid) returns (t: State)
    requires HF.Faithful(env) && At(env, n, s0, s) && Driving(env, s, n, e, card) && Waiting(s, e, b)
    ensures At(env, n, s0, t) && Driving(env, t, n, e, card) && Waiting(t, e, b)
    ensures t.cache == s.cache && t.hashes.mu == None
  {
    t := s;
    if s.hashes.mu.Some? {
      t := DrainLock(env, n, s0, s);
      NotHolding(env, s, b);
      DrainKeepsDriving(env, s, t, n, e, card, b);
    }
  }

  lemma NotHolding(env: HF.Env, s: State, b: Cid)
    requires Inv(env, s) && b in s.hashes.recs && s.hashes.recs[b].pc.LockWait?
    ensures s.hashes.mu != Some(b)
  {
  }

  lemma DrainKeepsDriving(env: HF.Env, s: State, t: State, n: Name, e: PC.EntryId, card: Card, b: Cid)
    requires Inv(env, s) && Driving(env, s, n, e, card) && Waiting(s, e, b) && s.hashes.mu.Some?
    requires b != s.hashes.mu.value && Moved(s, t, s.hashes.mu.value)
    ensures Driving(env, t, n, e, card) && Waiting(t, e, b)
  {
    assert PC.EntryOk(s.cache.calls, e, s.cache.sh.heap[e]);
  }

  lemma {:induction false} AboveAll(used: set<Cid>) returns (c: Cid)
    ensures forall d :: d in used ==> d < c
    decreases used
  {
    c := 0;
    if used != {} {
      var d :| d in used;
      var e := AboveAll(used - {d});
      c := if d < e then e else d + 1;
      forall x | x in used
        ensures x < c
      {
        if x != d { assert x in used - {d}; }
      }
    }
  }

  const PLAIN := PC.Config(map[], [])

  /** s with call c of the cache at a control point. */
  function AtCall(s: State, sh: PC.Shared, mu: Option<Cid>, c: Cid, op: PC.Op, pc: PC.Pc): State
  {
    s.(cache := PC.State(mu, sh, s.cache.calls[c := PC.Call(op, pc)]))
  }

  lemma CallArrives(env: HF.Env, n: Name, s0: State, s: State, c: Cid, op: PC.Op)
    requires HF.Faithful(env) && At(env, n, s0, s) && c !in s.cache.calls && c !in s.topo.readers && op.Peer?
    requires s.cache.mu == None
    ensures At(env, n, s0, AtCall(s, s.cache.sh, Some(c), c, op, PC.LookupHeld))
  {
    var s1 := AtCall(s, s.cache.sh, None, c, op, PC.LookupLock);
    assert s1 == Next(env, s, Spawn(c, op));
    Onward(env, n, s0, s, Spawn(c, op));
    CallGoes(env, n, s0, s, s.cache.sh, None, c, op, PC.LookupLock);
  }

  /** One step of that call inside cache.go. */
  lemma CallGoes(env: HF.Env, n: Name, s0: State, s: State, sh: PC.Shared, mu: Option<Cid>, c: Cid, op: PC.Op, pc: PC.Pc)
    requires HF.Faithful(env) && op.Peer? && PC.CanAct(mu, sh, op, pc, PC.Plain) && !InBuild(pc)
    requires At(env, n, s0, AtCall(s, sh, mu, c, op, pc))
    ensures var eff := PC.Act(mu, sh, c, op, pc, PC.Plain); At(env, n, s0, AtCall(s, eff.sh, eff.mu, c, op, eff.pc))
  {
    var t, eff := AtCall(s, sh, mu, c, op, pc), PC.Act(mu, sh, c, op, pc, PC.Plain);
    assert t.cache.calls[c := PC.Call(op, eff.pc)] == s.cache.calls[c := PC.Call(op, eff.pc)];
    assert Next(env, t, Advance(c)) == AtCall(s, eff.sh, eff.mu, c, op, eff.pc);
    Onward(env, n, s0, t, Advance(c));
  }

  lemma NewEntryDrives(env: HF.Env, s: State, n: Name, c: Cid, card: Card)
    requires s.cache.mu == None && n !in s.cache.sh.live && ListedOnRead(s.topo, n)
    ensures var (sh, e) := PC.FindOrInsert(s.cache.sh, n, c);
      Driving(env, AtCall(s, sh, None, c, PC.Peer(n, PLAIN), PC.OnceEnter(e)), n, e, card)
  {
    var (sh, e) := PC.FindOrInsert(s.cache.sh, n, c);
    assert HC.Accepts(PLAIN.headers);
    assert MayWin(AtCall(s, sh, None, c, PC.Peer(n, PLAIN), PC.OnceEnter(e)), e, c);
  }

  lemma CallEnters(env: HF.Env, n: Name, s0: State, s: State, c: Cid)
    requires HF.Faithful(env) && At(env, n, s0, s) && c !in s.cache.calls && c !in s.topo.readers
    requires s.cache.mu == None && n !in s.cache.sh.live
    ensures var (sh, e) := PC.FindOrInsert(s.cache.sh, n, c);
      At(env, n, s0, AtCall(s, sh, None, c, PC.Peer(n, PLAIN), PC.OnceEnter(e)))
  {
    var op := PC.Peer(n, PLAIN);
    var (sh, e) := PC.FindOrInsert(s.cache.sh, n, c);
    CallArrives(env, n, s0, s, c, op);
    CallGoes(env, n, s0, s, s.cache.sh, Some(c), c, op, PC.LookupHeld);
    CallGoes(env, n, s0, s, sh, Some(c), c, op, PC.LookupUnlock(e));
  }

  /** A new call for n opens an entry that will be built. */
  lemma NewCall(env: HF.Env, n: Name, s0: State, s: State, card: Card) returns (t: State, e: PC.EntryId)
    requires HF.Faithful(env) && At(env, n, s0, s)
    requires s.cache.mu == None && n !in s.cache.sh.live && ListedOnRead(s.topo, n)
    ensures At(env, n, s0, t) && Driving(env, t, n, e, card)
    ensures n in t.cache.sh.live && t.cache.sh.live[n] == e && e == |s.cache.sh.heap|
    ensures t.hashes == s.hashes && s.cache.sh.heap <= t.cache.sh.heap && |t.cache.sh.heap| == e + 1
  {
    var c := AboveAll(s.cache.calls.Keys + s.topo.readers.Keys);
    assert c !in s.cache.calls && c !in s.topo.readers;
    e := |s.cache.sh.heap|;
    CallEnters(env, n, s0, s, c);
    NewEntryDrives(env, s, n, c, card);
    t := AtCall(s, PC.FindOrInsert(s.cache.sh, n, c).0, None, c, PC.Peer(n, PLAIN), PC.OnceEnter(e));
  }

  /** Two builds for n wait for a free lock: the cached entry's, and an older one. */
  ghost predicate TwoWait(env: HF.Env, s: State, n: Name, late: Cid, e: PC.EntryId, b: Cid)
  {
    && s.hashes.mu == None && Waiting(s, e, b) && b != late
    && n in s.cache.sh.live && s.cache.sh.live[n] == e && s.cache.sh.heap[e].name == n
    && late in s.hashes.recs && s.hashes.recs[late].pc.LockWait? && s.hashes.recs[late].name == n
    && env.hash(s.hashes.recs[late].card) != env.hash(s.cache.sh.heap[e].outcome.value.card)
  }

  /** A waiting builder's recorder has its entry's name and card. */
  lemma WaiterRecords(env: HF.Env, s: State, e: PC.EntryId, b: Cid)
    requires Inv(env, s) && Waiting(s, e, b)
    ensures s.hashes.recs[b].name == s.cache.sh.heap[e].name
    ensures s.hashes.recs[b].card == s.cache.sh.heap[e].outcome.value.card
    ensures b in s.cache.calls && PcOf(s, b) == PC.Record(e)
  {
    assert ClientRecorded(s, e);
    assert PC.EntryOk(s.cache.calls, e, s.cache.sh.heap[e]);
    assert PC.CallOk(s.cache.sh, b, s.cache.calls[b]);
  }

  /** With the dropped build waiting, a new one comes to wait too. */
  lemma NewBuildWaits(env: HF.Env, n: Name, s0: State, s: State, card: Card) returns (t: State, e: PC.EntryId, b: Cid)
    requires HF.Faithful(env) && At(env, n, s0, s) && env.inCluster && env.hash(card).Some?
    requires s.cache.mu == None && n !in s.cache.sh.live && ListedOnRead(s.topo, n)
    ensures At(env, n, s0, t) && Driving(env, t, n, e, card) && Waiting(t, e, b)
    ensures n in t.cache.sh.live && t.cache.sh.live[n] == e && e == |s.cache.sh.heap|
    ensures t.hashes.mu == s.hashes.mu
    ensures forall r :: r in s.hashes.recs && s.hashes.recs[r].pc.LockWait? ==>
      r in t.hashes.recs && t.hashes.recs[r] == s.hashes.recs[r]
  {
    var u;
    u, e := NewCall(env, n, s0, s, card);
    t, b := ToLock(env, n, s0, u, e, card);
  }

  lemma Distinct(env: HF.Env, s: State, t: State, late: Cid, d: PC.EntryId, e: PC.EntryId, b: Cid)
    requires Inv(env, s) && Waiting(s, d, late) && Inv(env, t) && Waiting(t, e, b) && d < |s.cache.sh.heap| == e
    requires late in t.hashes.recs && t.hashes.recs[late] == s.hashes.recs[late]
    requires s.hashes.recs[late].card != t.cache.sh.heap[e].outcome.value.card
    ensures late != b
  {
    WaiterRecords(env, t, e, b);
  }

  lemma BothWait(env: HF.Env, n: Name, s: State, f: Cid, card1: Card, card2: Card)
      returns (s0: State, t: State, late: Cid, e: PC.EntryId, b: Cid)
    requires HF.Faithful(env) && Clean(env, s) && Enabled(env, s, Advance(f)) && Drops(env, s, Advance(f), n)
    requires env.inCluster && env.hash(card1).Some? && env.hash(card2).Some? && env.hash(card1) != env.hash(card2)
    ensures s0 == Next(env, s, Advance(f)) && At(env, n, s0, t) && TwoWait(env, t, n, late, e, b)
  {
    var d, card, v;
    s0, v, d, late, card := DroppedWaits(env, n, s, f, card1);
    var u := LockFreed(env, n, s0, v, d, card, late);
    WaiterRecords(env, u, d, late);
    var other := if env.hash(card1) != env.hash(card) then card1 else card2;
    t, e, b := NewBuildWaits(env, n, s0, u, other);
    Distinct(env, u, t, late, d, e, b);
  }

  /** The published hash of n, whose cached client is finished, is not that of its card. */
  ghost predicate Mismatched(env: HF.Env, s: State, n: Name)
  {
    FinishedClient(s, n) && !Matches(env, s, n)
  }

  /** The cached entry's build records, then the older one, and the call goes on. */
  lemma WrongOrder(env: HF.Env, n: Name, s0: State, s: State, late: Cid, e: PC.EntryId, b: Cid) returns (t: State)
    requires HF.Faithful(env) && At(env, n, s0, s) && env.inCluster && TwoWait(env, s, n, late, e, b)
    ensures Reaches(env, n, s0, t) && Mismatched(env, t, n)
  {
    WaiterRecords(env, s, e, b);
    var s1 := Publish(env, n, s0, s, b);
    var s2 := Publish(env, n, s0, s1, late);
    LastIsLate(env, s2, n, late, s.cache.sh.heap[e].outcome.value.card);
    t := Finish(env, n, s0, s2, e, b);
  }

  lemma LastIsLate(env: HF.Env, s: State, n: Name, late: Cid, card: Card)
    requires HF.Faithful(env) && Inv(env, s) && late in s.hashes.recs && s.hashes.recs[late].name == n
    requires s.hashes.log != [] && s.hashes.log[|s.hashes.log| - 1].r == late
    requires HF.CommitOf(env, s.hashes.log[|s.hashes.log| - 1], s.hashes.recs[late])
    requires env.hash(s.hashes.recs[late].card) != env.hash(card)
    ensures !(Published(env, s).Some? && n in Published(env, s).value
      && env.hash(card) == Some(Published(env, s).value[n].hash))
  {
    LoggedIsPublished(env, s.hashes, n);
  }

  lemma RecordReturns(env: HF.Env, s: State, e: PC.EntryId, b: Cid)
    requires e < |s.cache.sh.heap| && b in s.cache.calls && PcOf(s, b) == PC.Record(e) && OpOf(s, b).Peer?
    requires b in s.hashes.recs && s.hashes.recs[b].pc.Done?
    ensures Enabled(env, s, Recorded(b))
    ensures var t := Next(env, s, Recorded(b));
      && t == s.(cache := t.cache) && t.cache.sh == s.cache.sh
      && b in t.cache.calls && PcOf(t, b) == PC.OnceExit(e)
  {
  }

  lemma OnceReturns(env: HF.Env, s: State, e: PC.EntryId, b: Cid)
    requires Inv(env, s) && b in s.cache.calls && PcOf(s, b) == PC.OnceExit(e)
    ensures e < |s.cache.sh.heap| && Enabled(env, s, Advance(b))
    ensures var t := Next(env, s, Advance(b));
      t == s.(cache := t.cache) && t.cache.sh == PC.SetOnce(s.cache.sh, e, Complete(b))
  {
    assert PC.CallOk(s.cache.sh, b, s.cache.calls[b]);
  }

  /** recordPeerHash returns and the once completes. */
  lemma Finish(env: HF.Env, n: Name, s0: State, s: State, e: PC.EntryId, b: Cid) returns (t: State)
    requires HF.Faithful(env) && At(env, n, s0, s)
    requires e < |s.cache.sh.heap| && HasClient(s.cache.sh, e)
    requires n in s.cache.sh.live && s.cache.sh.live[n] == e
    requires b in s.cache.calls && PcOf(s, b) == PC.Record(e) && b in s.hashes.recs && s.hashes.recs[b].pc.Done?
    ensures Reaches(env, n, s0, t) && t.hashes == s.hashes && FinishedClient(t, n)
    ensures t.cache.sh.live == s.cache.sh.live && t.cache.sh.heap[e].outcome == s.cache.sh.heap[e].outcome
  {
    LV.HasRecorder(env, s, b);
    RecordReturns(env, s, e, b);
    var s1 := Next(env, s, Recorded(b));
    Onward(env, n, s0, s, Recorded(b));
    OnceReturns(env, s1, e, b);
    t := Next(env, s1, Advance(b));
    Onward(env, n, s0, s1, Advance(b));
  }

  /** After such a delete a mismatch can be reached, with nothing breaking and no other
      such delete. */
  lemma DropCanMismatch(env: HF.Env, n: Name, s: State, f: Cid, card1: Card, card2: Card) returns (t: State)
    requires HF.Faithful(env) && Clean(env, s) && Enabled(env, s, Advance(f)) && Drops(env, s, Advance(f), n)
    requires env.inCluster && env.hash(card1).Some? && env.hash(card2).Some? && env.hash(card1) != env.hash(card2)
    ensures Reaches(env, n, Next(env, s, Advance(f)), t) && Mismatched(env, t, n)
  {
    var s0, u, late, e, b := BothWait(env, n, s, f, card1, card2);
    t := WrongOrder(env, n, s0, u, late, e, b);
  }

  // ---- exactly which deletes are safe ----

  /** A run goes on along a path. */
  lemma Extend(env: HF.Env, n: Name, ss: seq<State>, ls: seq<Label>, l: Label, ts: seq<State>, ms: seq<Label>)
      returns (us: seq<State>, ks: seq<Label>)
    requires IsRun(env, ss, ls) && (forall i :: 0 <= i < |ls| ==> !Drops(env, ss[i], ls[i], n))
    requires Enabled(env, ss[|ls|], l) && !Drops(env, ss[|ls|], l, n)
    requires IsPath(env, n, ts, ms) && ts[0] == Next(env, ss[|ls|], l)
    ensures IsRun(env, us, ks) && us[|us| - 1] == ts[|ts| - 1]
    ensures forall i :: 0 <= i < |ks| ==> !Drops(env, us[i], ks[i], n)
  {
    us, ks := ss + ts, ls + [l] + ms;
    forall i | 0 <= i < |ks|
      ensures Enabled(env, us[i], ks[i]) && us[i + 1] == Next(env, us[i], ks[i]) && !Drops(env, us[i], ks[i], n)
    {
      if i < |ls| {
        assert us[i] == ss[i] && us[i + 1] == ss[i + 1] && ks[i] == ls[i];
      } else if i == |ls| {
        assert us[i] == ss[i] && us[i + 1] == ts[0] && ks[i] == l;
      } else {
        var k := i - |ss|;
        assert us[i] == ts[k] && us[i + 1] == ts[k + 1] && ks[i] == ms[k];
      }
    }
  }

  lemma SafeNeverMismatches(env: HF.Env, n: Name, ss: seq<State>, ls: seq<Label>, f: Cid, t: State)
    requires HF.Faithful(env) && env.inCluster && IsRun(env, ss, ls)
    requires forall i :: 0 <= i < |ls| ==> !Drops(env, ss[i], ls[i], n)
    requires Enabled(env, ss[|ls|], Advance(f)) && !Drops(env, ss[|ls|], Advance(f), n)
    requires Reaches(env, n, Next(env, ss[|ls|], Advance(f)), t)
    ensures !Mismatched(env, t, n)
  {
    var ts, ms :| IsPath(env, n, ts, ms) && ts[0] == Next(env, ss[|ls|], Advance(f)) && ts[|ts| - 1] == t;
    var us, ks := Extend(env, n, ss, ls, Advance(f), ts, ms);
    if FinishedClient(t, n) { FileMatchesCache(env, us, ks, |us| - 1, n); }
  }

  lemma DropMismatches(env: HF.Env, ss: seq<State>, ls: seq<Label>, f: Cid, n: Name, card1: Card, card2: Card)
    requires HF.Faithful(env) && env.inCluster && IsRun(env, ss, ls) && !ss[|ls|].hashes.faulty
    requires env.hash(card1).Some? && env.hash(card2).Some? && env.hash(card1) != env.hash(card2)
    requires Enabled(env, ss[|ls|], Advance(f)) && Drops(env, ss[|ls|], Advance(f), n)
    ensures exists t :: Reaches(env, n, Next(env, ss[|ls|], Advance(f)), t) && Mismatched(env, t, n)
  {
    RunClean(env, ss, ls, |ls|);
    var t := DropCanMismatch(env, n, ss[|ls|], f, card1, card2);
  }

  lemma CanDelete(env: HF.Env, s: State, f: Cid, n: Name)
    requires Inv(env, s) && Deletes(s, Advance(f), n)
    ensures Enabled(env, s, Advance(f))
  {
    assert PC.CallOk(s.cache.sh, f, s.cache.calls[f]);
  }

  /** In a pod, at the delete of a ForgetPeer(n) in a run in which nothing has broken and
      no earlier one dropped such a build: a continuation in which nothing breaks, and no
      later one does, can come to publish a hash that is not the cached client's, if and
      only if this delete takes out an entry whose build may still take the hashes lock. */
  lemma DeleteIsSafeIff(env: HF.Env, ss: seq<State>, ls: seq<Label>, f: Cid, n: Name, card1: Card, card2: Card)
    requires HF.Faithful(env) && env.inCluster && IsRun(env, ss, ls)
    requires env.hash(card1).Some? && env.hash(card2).Some? && env.hash(card1) != env.hash(card2)
    requires forall i :: 0 <= i < |ls| ==> !Drops(env, ss[i], ls[i], n)
    requires !ss[|ls|].hashes.faulty && Deletes(ss[|ls|], Advance(f), n)
    ensures Enabled(env, ss[|ls|], Advance(f))
    ensures Drops(env, ss[|ls|], Advance(f), n) <==>
      exists t :: Reaches(env, n, Next(env, ss[|ls|], Advance(f)), t) && Mismatched(env, t, n)
  {
    RunInv(env, ss, ls, |ls|);
    CanDelete(env, ss[|ls|], f, n);
    if Drops(env, ss[|ls|], Advance(f), n) {
      DropMismatches(env, ss, ls, f, n, card1, card2);
    } else {
      forall t | Reaches(env, n, Next(env, ss[|ls|], Advance(f)), t)
        ensures !Mismatched(env, t, n)
      {
        SafeNeverMismatches(env, n, ss, ls, f, t);
      }
    }
  }

  // ---- such a delete happens ----

  lemma RunSnoc(env: HF.Env, ss: seq<State>, ls: seq<Label>, l: Label)
    requires IsRun(env, ss, ls) && Enabled(env, ss[|ls|], l)
    ensures IsRun(env, ss + [Next(env, ss[|ls|], l)], ls + [l])
  {
    var ss', ls' := ss + [Next(env, ss[|ls|], l)], ls + [l];
    forall i | 0 <= i < |ls'|
      ensures Enabled(env, ss'[i], ls'[i]) && ss'[i + 1] == Next(env, ss'[i], ls'[i])
    {
      if i < |ls| { assert ss'[i] == ss[i] && ss'[i + 1] == ss[i + 1] && ls'[i] == ls[i]; }
    }
  }

  function OpeningLabel(n: Name, k: nat): Label
  {
    if k == 0 then Spawn(0, PC.Peer(n, PLAIN))
    else if k == 4 then Spawn(1, PC.Forget(n))
    else Advance(if k < 4 then 0 else 1)
  }

  lemma OpeningStep(env: HF.Env, n: Name, s: State, k: nat)
    requires k < 6 && s.cache == OpeningCache(n, k) && s.topo.readers == map[]
    ensures Enabled(env, s, OpeningLabel(n, k)) && !Deletes(s, OpeningLabel(n, k), n)
    ensures Next(env, s, OpeningLabel(n, k)) == s.(cache := OpeningCache(n, k + 1))
  {
  }

  lemma {:induction false} Opens(env: HF.Env, n: Name, s: State, k: nat) returns (ss: seq<State>, ls: seq<Label>)
    requires Init(env, s) && k <= 6
    ensures IsRun(env, ss, ls) && |ls| == k && ss[k] == s.(cache := OpeningCache(n, k))
    ensures forall i :: 0 <= i < |ls| ==> !Deletes(ss[i], ls[i], n)
  {
    if k == 0 {
      ss, ls := [s], [];
    } else {
      ss, ls := Opens(env, n, s, k - 1);
      OpeningStep(env, n, ss[k - 1], k - 1);
      RunSnoc(env, ss, ls, OpeningLabel(n, k - 1));
      ss, ls := ss + [s.(cache := OpeningCache(n, k))], ls + [OpeningLabel(n, k - 1)];
    }
  }

  /** For any name a run comes to such a delete: one call has opened its entry, and a
      ForgetPeer is about to delete it. */
  lemma DropHappens(env: HF.Env, n: Name, s: State) returns (ss: seq<State>, ls: seq<Label>)
    requires Init(env, s)
    ensures IsRun(env, ss, ls) && !ss[|ls|].hashes.faulty
    ensures Drops(env, ss[|ls|], Advance(1), n)
    ensures forall i :: 0 <= i < |ls| ==> !Deletes(ss[i], ls[i], n)
  {
    ss, ls := Opens(env, n, s, 6);
    assert HC.Accepts(PLAIN.headers);
    assert MayWin(ss[6], 0, 0);
  }

  function OpeningCache(n: Name, k: nat): PC.State
  {
    var op := PC.Peer(n, PLAIN);
    var sh0, sh1 := PC.Shared(map[], [], []), PC.Shared(map[n := 0], [PC.Entry(n, 0, Idle, None)], []);
    var entered := map[0 := PC.Call(op, PC.OnceEnter(0))];
    if k == 0 then PC.State(None, sh0, map[])
    else if k == 1 then PC.State(None, sh0, map[0 := PC.Call(op, PC.LookupLock)])
    else if k == 2 then PC.State(Some(0), sh0, map[0 := PC.Call(op, PC.LookupHeld)])
    else if k == 3 then PC.State(Some(0), sh1, map[0 := PC.Call(op, PC.LookupUnlock(0))])
    else if k == 4 then PC.State(None, sh1, entered)
    else if k == 5 then PC.State(None, sh1, entered[1 := PC.Call(PC.Forget(n), PC.ForgetLock)])
    else PC.State(Some(1), sh1, entered[1 := PC.Call(PC.Forget(n), PC.ForgetHeld)])
  }
}

/** No deadlock and no livelock: while a call is unfinished some step is possible, and
    every step of a call brings the whole nearer to rest.

    The waits are nested one way: entry once, then topology once or clear-once guard or
    hashes lock; peerClientsMu is never held while waiting for anything. */
module Liveness {
  import opened Base
  import AF = AtomicFile
  import PC = PeerCache
  import CR = CacheRuns
  import TP = Topology
  import HF = HashFile
  import opened Runtime
  import opened RuntimeRuns

  /** A step of some call, as opposed to an arrival or a change of the topology file. */
  predicate Internal(l: Label)
  {
    !l.Spawn? && !l.Ask? && !l.TopoRewrite?
  }

  // ---- progress ----

  /** The holder of peerClientsMu waits for nothing. */
  lemma HolderAdvances(env: HF.Env, s: State)
    requires Inv(env, s) && s.cache.mu.Some?
    ensures Enabled(env, s, Advance(s.cache.mu.value))
  {
    var h := s.cache.mu.value;
    assert PC.CallOk(s.cache.sh, h, s.cache.calls[h]);
  }

  lemma ReaderAdvances(s: TP.State, c: Cid) returns (d: Cid)
    requires TP.Inv(s) && c in s.readers && !s.readers[c].Done?
    ensures TP.Enabled(s, TP.Step(d))
  {
    d := if s.readers[c].Enter? && s.once.Running? then s.once.runner else c;
  }

  lemma TopoAdvances(env: HF.Env, s: State, c: Cid) returns (l: Label)
    requires Inv(env, s) && c in s.topo.readers && !s.topo.readers[c].Done?
    ensures Enabled(env, s, l) && l.TopoStep?
  {
    var d := ReaderAdvances(s.topo, c);
    l := TopoStep(d);
  }

  lemma LockHolderAdvances(env: HF.Env, s: HF.State) returns (l: HF.Label)
    requires HF.MutexOk(s) && s.mu.Some? && HF.RecOk(env, s, s.mu.value, s.recs[s.mu.value])
    ensures HF.Enabled(env, s, l) && l.Step?
  {
    var pc := s.recs[s.mu.value].pc;
    l := HF.Step(s.mu.value, HF.Io(if pc.Writing? && pc.w.CreateTemp? then AF.Breaks(0) else AF.Works));
  }

  lemma GuardAdvances(env: HF.Env, s: HF.State, r: Cid) returns (l: HF.Label)
    requires HF.OnceOk(s) && r in s.recs && s.recs[r].pc.InitEnter?
    ensures HF.Enabled(env, s, l) && l.Step?
  {
    l := HF.Step(if s.once.Running? then s.once.runner else r, HF.Io(AF.Works));
  }

  lemma RecorderAdvances(env: HF.Env, s: HF.State, r: Cid) returns (l: HF.Label)
    requires HF.Inv(env, s) && r in s.recs && !s.recs[r].pc.Done?
    ensures HF.Enabled(env, s, l) && l.Step?
  {
    var pc := s.recs[r].pc;
    if pc.Begin? {
      l := HF.Step(r, HF.Clock(0));
    } else if pc.InitEnter? {
      l := GuardAdvances(env, s, r);
    } else if HF.Holds(pc) || (pc.LockWait? && s.mu.Some?) {
      l := LockHolderAdvances(env, s);
    } else {
      l := HF.Step(r, HF.Io(AF.Works));
    }
  }

  lemma HashAdvances(env: HF.Env, s: State, r: Cid) returns (l: Label)
    requires Inv(env, s) && r in s.hashes.recs && !s.hashes.recs[r].pc.Done?
    ensures Enabled(env, s, l) && l.HashStep?
  {
    var g := RecorderAdvances(env, s.hashes, r);
    l := HashStep(g.r, g.choice);
  }

  lemma CheckAdvances(env: HF.Env, s: State, b: Cid)
    requires Inv(env, s) && b in s.cache.calls && PcOf(s, b).Validate?
    ensures Enabled(env, s, Check(b))
  {
    assert PC.CallOk(s.cache.sh, b, s.cache.calls[b]);
    assert b !in s.topo.readers;
  }

  lemma LookupAdvances(env: HF.Env, s: State, b: Cid) returns (l: Label)
    requires Inv(env, s) && b in s.cache.calls && PcOf(s, b).LookupPeer?
    ensures Enabled(env, s, l) && Internal(l)
  {
    assert PC.CallOk(s.cache.sh, b, s.cache.calls[b]);
    if s.topo.readers[b].Done? { l := Looked(b); } else { l := TopoAdvances(env, s, b); }
  }

  lemma HasRecorder(env: HF.Env, s: State, b: Cid)
    requires Inv(env, s) && b in s.cache.calls && PcOf(s, b).Record?
    ensures PcOf(s, b).e < |s.cache.sh.heap| && RecorderOf(s, b, PcOf(s, b).e)
    ensures s.cache.sh.heap[PcOf(s, b).e].once == Running(b) && OpOf(s, b).Peer?
    ensures s.cache.sh.heap[PcOf(s, b).e].name == OpOf(s, b).name
  {
    assert PC.CallOk(s.cache.sh, b, s.cache.calls[b]);
    assert ClientRecorded(s, PcOf(s, b).e);
  }

  lemma RecordAdvances(env: HF.Env, s: State, b: Cid) returns (l: Label)
    requires Inv(env, s) && b in s.cache.calls && PcOf(s, b).Record?
    ensures Enabled(env, s, l) && Internal(l)
  {
    HasRecorder(env, s, b);
    if s.hashes.recs[b].pc.Done? { l := Recorded(b); } else { l := HashAdvances(env, s, b); }
  }

  /** The call that runs an entry's once.Do function gets on, or what it waits for does. */
  lemma BodyAdvances(env: HF.Env, s: State, b: Cid) returns (l: Label)
    requires Inv(env, s) && b in s.cache.calls && PC.InBody(PcOf(s, b))
    ensures Enabled(env, s, l) && Internal(l)
  {
    var pc := PcOf(s, b);
    if pc.Validate? {
      CheckAdvances(env, s, b);
      l := Check(b);
    } else if pc.LookupPeer? {
      l := LookupAdvances(env, s, b);
    } else if pc.Record? {
      l := RecordAdvances(env, s, b);
    } else {
      assert PC.CallOk(s.cache.sh, b, s.cache.calls[b]);
      l := if pc.Resolve? then Resolved(b, PC.Refuse("unreachable")) else Advance(b);
    }
  }

  /** Deadlock freedom: in every reachable state with an unfinished call some call can step. */
  lemma SomeStep(env: HF.Env, s: State, c: Cid) returns (l: Label)
    requires Inv(env, s) && c in s.cache.calls && !PC.Finished(PcOf(s, c))
    ensures Enabled(env, s, l) && Internal(l)
  {
    var pc := PcOf(s, c);
    assert PC.CallOk(s.cache.sh, c, s.cache.calls[c]);
    if PC.InBody(pc) {
      l := BodyAdvances(env, s, c);
    } else if pc.OnceEnter? && s.cache.sh.heap[pc.e].once.Running? {
      assert PC.EntryOk(s.cache.calls, pc.e, s.cache.sh.heap[pc.e]);
      l := BodyAdvances(env, s, s.cache.sh.heap[pc.e].once.runner);
    } else if s.cache.mu.Some? {
      HolderAdvances(env, s);
      l := Advance(s.cache.mu.value);
    } else {
      l := Advance(c);
      if PC.PastOnce(pc) { assert PC.EntryOk(s.cache.calls, pc.e, s.cache.sh.heap[pc.e]); }
    }
  }

  /** Every call has returned, and every other goroutine that asked for the topology. */
  ghost predicate AtRest(s: State)
  {
    CR.Quiescent(s.cache) && forall r :: r in s.topo.readers ==> s.topo.readers[r].Done?
  }

  lemma Advances(env: HF.Env, s: State) returns (l: Label)
    requires Inv(env, s) && !AtRest(s)
    ensures Enabled(env, s, l) && Internal(l)
  {
    if CR.Quiescent(s.cache) {
      var r :| r in s.topo.readers && !s.topo.readers[r].Done?;
      l := TopoAdvances(env, s, r);
    } else {
      var c :| c in s.cache.calls && !PC.Finished(PcOf(s, c));
      l := SomeStep(env, s, c);
    }
  }

  /** So at every moment of every run: no call waits for ever for lack of a step, and
      whoever holds peerClientsMu can go on at once. */
  lemma DeadlockFree(env: HF.Env, ss: seq<State>, ls: seq<Label>, i: nat) returns (l: Label)
    requires HF.Faithful(env) && IsRun(env, ss, ls) && i < |ss|
    ensures AtRest(ss[i]) || (Enabled(env, ss[i], l) && Internal(l))
    ensures ss[i].cache.mu.Some? ==> Enabled(env, ss[i], Advance(ss[i].cache.mu.value))
  {
    RunInv(env, ss, ls, i);
    if ss[i].cache.mu.Some? { HolderAdvances(env, ss[i]); }
    l := Advance(0);
    if !AtRest(ss[i]) { l := Advances(env, ss[i]); }
  }

  // ---- termination ----

  function CacheRank(pc: PC.Pc): nat
  {
    match pc
    case LookupLock => 15
    case LookupHeld => 14
    case LookupUnlock(_) => 13
    case OnceEnter(_) => 12
    case Validate(_) => 11
    case LookupPeer(_) => 10
    case Resolve(_) => 9
    case Record(_) => 8
    case OnceExit(_) => 7
    case CheckErr(_) => 6
    case EvictLock(_) => 5
    case EvictHeld(_) => 4
    case EvictUnlock(_) => 3
    case Return(_) => 2
    case ForgetLock => 3
    case ForgetHeld => 2
    case ForgetUnlock => 1
    case Returned(_, _) => 0
    case Forgotten => 0
  }

  function TopoRank(pc: TP.Pc): nat
  {
    match pc
    case Enter => 4
    case Load => 3
    case Exit => 2
    case Fetch => 1
    case Done(_) => 0
  }

  function HashRank(pc: HF.Pc): nat
  {
    match pc
    case Begin => 18
    case InitEnter(_) => 17
    case InitRemove(_) => 16
    case InitExit(_) => 15
    case LockWait(_) => 14
    case Reading(_) => 13
    case Writing(_, _, w) => 2 + AF.Rank(w)
    case Unlocking(_, _) => 1
    case Done(_) => 0
  }

  /** One step of a call outweighs starting a reader or a recorder. */
  const WEIGHT := 20

  ghost function CacheRanks(s: PC.State): map<Cid, nat>
  {
    map c | c in s.calls :: WEIGHT * CacheRank(s.calls[c].pc)
  }

  ghost function TopoRanks(s: TP.State): map<Cid, nat>
  {
    map c | c in s.readers :: TopoRank(s.readers[c])
  }

  ghost function HashRanks(s: HF.State): map<Cid, nat>
  {
    map c | c in s.recs :: HashRank(s.recs[c].pc)
  }

  ghost function Measure(s: State): nat
  {
    Total(CacheRanks(s.cache)) + Total(TopoRanks(s.topo)) + Total(HashRanks(s.hashes))
  }

  lemma CacheRankFalls(s: PC.State, c: Cid, ch: PC.Choice)
    requires PC.Enabled(s, PC.Step(c, ch))
    ensures CacheRank(PC.Next(s, PC.Step(c, ch)).calls[c].pc) < CacheRank(s.calls[c].pc)
  {
  }

  lemma CacheFalls(s: PC.State, l: PC.Label)
    requires PC.Enabled(s, l)
    ensures var t, t' := Total(CacheRanks(s)), Total(CacheRanks(PC.Next(s, l)));
      match l
      case Step(_, _) => t' + WEIGHT <= t
      case Spawn(_, _) => t' <= t + 15 * WEIGHT
      case Elsewhere => t' == t
  {
    if !l.Elsewhere? {
      var r' := CacheRank(PC.Next(s, l).calls[l.c].pc);
      assert CacheRanks(PC.Next(s, l)) == CacheRanks(s)[l.c := WEIGHT * r'];
      TotalUpdate(CacheRanks(s), l.c, WEIGHT * r');
      if l.Step? { CacheRankFalls(s, l.c, l.choice); }
    }
  }

  lemma TopoFalls(s: TP.State, l: TP.Label)
    requires TP.Enabled(s, l)
    ensures var t, t' := Total(TopoRanks(s)), Total(TopoRanks(TP.Next(s, l)));
      match l
      case Step(_) => t' < t
      case Start(_) => t' <= t + 4
      case _ => t' == t
  {
    if l.Step? || l.Start? {
      var r' := TopoRank(TP.Next(s, l).readers[l.r]);
      assert TopoRanks(TP.Next(s, l)) == TopoRanks(s)[l.r := r'];
      TotalUpdate(TopoRanks(s), l.r, r');
    }
  }

  lemma HashFalls(env: HF.Env, s: HF.State, l: HF.Label)
    requires HF.Enabled(env, s, l)
    ensures var t, t' := Total(HashRanks(s)), Total(HashRanks(HF.Next(env, s, l)));
      match l
      case Step(_, _) => t' < t
      case Start(_, _, _) => t' <= t + 18
      case Elsewhere => t' == t
  {
    if !l.Elsewhere? {
      var r' := HashRank(HF.Next(env, s, l).recs[l.r].pc);
      if l.Step? { HashRankFalls(env, s, l.r, l.choice); }
      assert HashRanks(HF.Next(env, s, l)) == HashRanks(s)[l.r := r'];
      TotalUpdate(HashRanks(s), l.r, r');
    }
  }

  lemma HashRankFalls(env: HF.Env, s: HF.State, r: Cid, ch: HF.Choice)
    requires HF.Enabled(env, s, HF.Step(r, ch))
    ensures HashRank(HF.Next(env, s, HF.Step(r, ch)).recs[r].pc) < HashRank(s.recs[r].pc)
  {
  }

  /** Every step of a call, whatever fails in it, brings the whole nearer to rest. */
  lemma StepFalls(env: HF.Env, s: State, l: Label)
    requires Enabled(env, s, l)
    ensures Internal(l) ==> Measure(Next(env, s, l)) < Measure(s)
    ensures l.Spawn? ==> Measure(Next(env, s, l)) <= Measure(s) + 15 * WEIGHT
    ensures l.Ask? ==> Measure(Next(env, s, l)) <= Measure(s) + 4
    ensures l.TopoRewrite? ==> Measure(Next(env, s, l)) == Measure(s)
  {
    CacheFalls(s.cache, CacheLabel(s, l));
    TopoFalls(s.topo, TopoLabel(s, l));
    HashFalls(env, s.hashes, HashLabel(s, l));
  }

  function Arrives(l: Label): nat
  {
    if l.Spawn? || l.Ask? then 1 else 0
  }

  function Works(l: Label): nat
  {
    if Internal(l) then 1 else 0
  }

  function Arrivals(ls: seq<Label>): nat
  {
    if ls == [] then 0 else Arrivals(ls[..|ls| - 1]) + Arrives(ls[|ls| - 1])
  }

  function Steps(ls: seq<Label>): nat
  {
    if ls == [] then 0 else Steps(ls[..|ls| - 1]) + Works(ls[|ls| - 1])
  }

  lemma RunStepFalls(env: HF.Env, ss: seq<State>, ls: seq<Label>, k: nat)
    requires IsRun(env, ss, ls) && k < |ls|
    ensures Measure(ss[k + 1]) + Works(ls[k]) <= Measure(ss[k]) + 300 * Arrives(ls[k])
  {
    StepFalls(env, ss[k], ls[k]);
  }

  lemma StartsAtRest(env: HF.Env, s: State)
    requires Init(env, s)
    ensures Measure(s) == 0
  {
    assert CacheRanks(s.cache) == map[] && TopoRanks(s.topo) == map[] && HashRanks(s.hashes) == map[];
  }

  lemma CountsSnoc(ls: seq<Label>, i: nat)
    requires i < |ls|
    ensures Steps(ls[..i + 1]) == Steps(ls[..i]) + Works(ls[i])
    ensures Arrivals(ls[..i + 1]) == Arrivals(ls[..i]) + Arrives(ls[i])
  {
    assert ls[..i + 1][..i] == ls[..i];
  }

  /** Termination: the calls of any run take at most 300 steps each, in total, however
      they interleave and whatever breaks. */
  lemma {:induction false} BoundedWork(env: HF.Env, ss: seq<State>, ls: seq<Label>, i: nat)
    requires IsRun(env, ss, ls) && i < |ss|
    ensures Steps(ls[..i]) + Measure(ss[i]) <= 300 * Arrivals(ls[..i])
  {
    if i == 0 {
      StartsAtRest(env, ss[0]);
    } else {
      BoundedWork(env, ss, ls, i - 1);
      RunStepFalls(env, ss, ls, i - 1);
      CountsSnoc(ls, i - 1);
    }
  }

  // ---- every run can be finished ----

  /** The calls of s, by the steps ls and without arrivals, lead to t. */
  ghost predicate Leads(env: HF.Env, s: State, ls: seq<Label>, t: State)
    decreases |ls|
  {
    if ls == [] then s == t
    else Internal(ls[0]) && Enabled(env, s, ls[0]) && Leads(env, Next(env, s, ls[0]), ls[1..], t)
  }

  lemma LeadsCons(env: HF.Env, s: State, l: Label, s': State, ls: seq<Label>, t: State)
    requires Internal(l) && Enabled(env, s, l) && s' == Next(env, s, l) && Leads(env, s', ls, t)
    ensures Leads(env, s, [l] + ls, t)
  {
    assert ([l] + ls)[1..] == ls;
  }

  lemma OneStepCloser(env: HF.Env, s: State) returns (l: Label, s': State)
    requires HF.Faithful(env) && Inv(env, s) && !AtRest(s)
    ensures Enabled(env, s, l) && Internal(l) && s' == Next(env, s, l)
    ensures Inv(env, s') && Measure(s') < Measure(s)
  {
    l := Advances(env, s);
    StepFalls(env, s, l);
    NextInv(env, s, l);
    s' := Next(env, s, l);
  }

  /** From any reachable state the calls present can run to completion, with no help from
      new arrivals: there is a schedule after which all of them have returned. */
  lemma {:induction false} CanFinish(env: HF.Env, s: State) returns (ls: seq<Label>, t: State)
    requires HF.Faithful(env) && Inv(env, s)
    ensures Leads(env, s, ls, t) && AtRest(t)
    decreases Measure(s)
  {
    if AtRest(s) {
      ls, t := [], s;
    } else {
      var l, s' := OneStepCloser(env, s);
      ls, t := CanFinish(env, s');
      LeadsCons(env, s, l, s', ls, t);
      ls := [l] + ls;
    }
  }
}

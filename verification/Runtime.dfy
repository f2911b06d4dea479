/** The client side of one process: the peer-client cache, the load-once topology and
    the peer-hashes file, run together.

    A build executes inside its entry's sync.Once and uses the other two: lookupPeer
    waits on the topology's once, recordPeerHash on the clear-once guard and the hashes
    lock. Every step of the whole is one step of each component, or rest. */
module Runtime {
  import opened Base
  import PC = PeerCache
  import TP = Topology
  import HF = HashFile
  import HC = HeaderCheck
  import CR = CacheRuns
  import HR = HashRuns

  datatype State = State(cache: PC.State, topo: TP.State, hashes: HF.State)

  datatype Label =
    | Spawn(c: Cid, op: PC.Op)                     // a new call arrives
    | Advance(c: Cid)                              // a step inside cache.go
    | Check(c: Cid)                                // validateHeaders
    | Ask(c: Cid)                                  // Peers, PeerURL or ResolveAgentCard arrives
    | TopoStep(c: Cid)                             // a step of any goroutine's loadTopology
    | TopoRewrite(view: TP.View)                   // the topology file changes
    | Looked(c: Cid)                               // lookupPeer returns
    | Resolved(c: Cid, choice: PC.Choice)          // the card and the client, or an error
    | HashStep(c: Cid, act: HF.Choice)              // a step of recordPeerHash
    | Recorded(c: Cid)                             // recordPeerHash returns, its error ignored

  function PcOf(s: State, c: Cid): PC.Pc
    requires c in s.cache.calls
  {
    s.cache.calls[c].pc
  }

  function OpOf(s: State, c: Cid): PC.Op
    requires c in s.cache.calls
  {
    s.cache.calls[c].op
  }

  predicate InBuild(pc: PC.Pc)
  {
    pc.Validate? || pc.LookupPeer? || pc.Resolve? || pc.Record?
  }

  /** What lookupPeer's result means for the build. */
  function LookupChoice(got: TP.Loaded, name: Name): PC.Choice
  {
    match got
    case Err(_) => PC.Refuse("topology")
    case Ok(peers) => if TP.FindPeer(peers, name).None? then PC.Refuse("peer not in topology") else PC.Plain
  }

  /** The label is addressed to a call at the control point it belongs to. */
  predicate Addressed(s: State, l: Label)
  {
    match l
    case Spawn(c, _) => c !in s.topo.readers
    case Ask(c) => c !in s.cache.calls
    case TopoRewrite(_) => true
    case Advance(c) => c in s.cache.calls && !InBuild(PcOf(s, c))
    case Check(c) => c in s.cache.calls && PcOf(s, c).Validate? && OpOf(s, c).Peer?
    case TopoStep(_) => true
    case Looked(c) =>
      && c in s.cache.calls && PcOf(s, c).LookupPeer?
      && c in s.topo.readers && s.topo.readers[c].Done?
    case Resolved(c, ch) => c in s.cache.calls && PcOf(s, c).Resolve?
    case HashStep(_, _) => true
    case Recorded(c) =>
      && c in s.cache.calls && PcOf(s, c).Record?
      && c in s.hashes.recs && s.hashes.recs[c].pc.Done?
  }

  ghost function CacheLabel(s: State, l: Label): PC.Label
    requires Addressed(s, l)
  {
    match l
    case Spawn(c, op) => PC.Spawn(c, op)
    case Advance(c) => PC.Step(c, PC.Plain)
    case Check(c) =>
      PC.Step(c, if HC.Accepts(OpOf(s, c).config.headers) then PC.Plain else PC.Refuse("malformed header"))
    case Looked(c) => PC.Step(c, LookupChoice(s.topo.readers[c].got, OpOf(s, c).name))
    case Resolved(c, ch) => PC.Step(c, ch)
    case Recorded(c) => PC.Step(c, PC.Plain)
    case _ => PC.Elsewhere
  }

  ghost function TopoLabel(s: State, l: Label): TP.Label
    requires Addressed(s, l)
  {
    match l
    case Check(c) => if HC.Accepts(OpOf(s, c).config.headers) then TP.Start(c) else TP.Elsewhere
    case Ask(c) => TP.Start(c)
    case TopoStep(c) => TP.Step(c)
    case TopoRewrite(v) => TP.Rewrite(v)
    case _ => TP.Elsewhere
  }

  function HashLabel(s: State, l: Label): HF.Label
    requires Addressed(s, l)
  {
    match l
    case Resolved(c, ch) => if ch.Deliver? then HF.Start(c, OpOf(s, c).name, ch.card) else HF.Elsewhere
    case HashStep(c, ch) => HF.Step(c, ch)
    case _ => HF.Elsewhere
  }

  ghost predicate Enabled(env: HF.Env, s: State, l: Label)
  {
    && Addressed(s, l)
    && PC.Enabled(s.cache, CacheLabel(s, l))
    && TP.Enabled(s.topo, TopoLabel(s, l))
    && HF.Enabled(env, s.hashes, HashLabel(s, l))
  }

  ghost function Next(env: HF.Env, s: State, l: Label): State
    requires Enabled(env, s, l)
  {
    State(PC.Next(s.cache, CacheLabel(s, l)),
          TP.Next(s.topo, TopoLabel(s, l)),
          HF.Next(env, s.hashes, HashLabel(s, l)))
  }

  ghost predicate Init(env: HF.Env, s: State)
  {
    PC.Init(s.cache) && TP.Init(s.topo) && HF.Init(env, s.hashes)
  }

  // ---- how the components hang together ----

  /** The call's headers have been accepted. */
  predicate Checked(pc: PC.Pc)
  {
    pc.LookupPeer? || Delivered(pc) || pc.Resolve?
  }

  /** The call is at or past recordPeerHash, or past its once. */
  predicate Delivered(pc: PC.Pc)
  {
    pc.Record? || pc.OnceExit? || PC.PastOnce(pc)
  }

  /** A call that reads the topology is a build that got there; it is done before the build
      goes on. Other readers are not calls of the cache. */
  ghost predicate ReaderOk(s: State, c: Cid)
    requires c in s.topo.readers
  {
    c in s.cache.calls ==> Checked(PcOf(s, c)) && (!s.topo.readers[c].Done? ==> PcOf(s, c).LookupPeer?)
  }

  ghost predicate ReadersOk(s: State)
  {
    && (forall c :: c in s.topo.readers ==> ReaderOk(s, c))
    && (forall c :: c in s.cache.calls && PcOf(s, c).LookupPeer? ==> c in s.topo.readers)
  }

  /** Recorder c works for the entry c built, under its name and card. */
  ghost predicate RecorderOf(s: State, c: Cid, e: PC.EntryId)
  {
    && c in s.cache.calls && Delivered(PcOf(s, c)) && PcOf(s, c).e == e
    && e < |s.cache.sh.heap|
    && var en := s.cache.sh.heap[e];
    && !en.once.Idle? && en.once.runner == c
    && c in s.hashes.recs
    && en.outcome.Some? && en.outcome.value.Built?
    && s.hashes.recs[c].name == en.name && s.hashes.recs[c].card == en.outcome.value.card
    && (!PcOf(s, c).Record? ==> s.hashes.recs[c].pc.Done?)
  }

  ghost predicate RecorderWorks(s: State, c: Cid)
  {
    c in s.cache.calls && PC.HasEntry(PcOf(s, c)) && RecorderOf(s, c, PcOf(s, c).e)
  }

  ghost predicate ClientRecorded(s: State, e: PC.EntryId)
    requires e < |s.cache.sh.heap|
  {
    !s.cache.sh.heap[e].once.Idle? && RecorderOf(s, s.cache.sh.heap[e].once.runner, e)
  }

  ghost predicate RecordersOk(s: State)
  {
    && (forall c :: c in s.hashes.recs ==> RecorderWorks(s, c))
    && (forall e: PC.EntryId :: e < |s.cache.sh.heap| && HasClient(s.cache.sh, e) ==> ClientRecorded(s, e))
  }

  predicate HasClient(sh: PC.Shared, e: PC.EntryId)
    requires e < |sh.heap|
  {
    sh.heap[e].outcome.Some? && sh.heap[e].outcome.value.Built?
  }

  ghost predicate Inv(env: HF.Env, s: State)
  {
    && PC.Inv(s.cache) && TP.Inv(s.topo) && HF.Inv(env, s.hashes)
    && ReadersOk(s)
    && RecordersOk(s)
  }

  lemma InitInv(env: HF.Env, s: State)
    requires Init(env, s)
    ensures Inv(env, s)
  {
  }

  lemma StepReaderOk(env: HF.Env, s: State, l: Label, c: Cid)
    requires Enabled(env, s, l) && c in Next(env, s, l).topo.readers
    requires c in s.topo.readers ==> ReaderOk(s, c)
    ensures ReaderOk(Next(env, s, l), c)
  {
  }

  lemma StepLookupReads(env: HF.Env, s: State, l: Label, c: Cid)
    requires Enabled(env, s, l)
    requires c in s.cache.calls && PcOf(s, c).LookupPeer? ==> c in s.topo.readers
    requires c in Next(env, s, l).cache.calls && PcOf(Next(env, s, l), c).LookupPeer?
    ensures c in Next(env, s, l).topo.readers
  {
  }

  lemma StepReadersOk(env: HF.Env, s: State, l: Label)
    requires ReadersOk(s) && Enabled(env, s, l)
    ensures ReadersOk(Next(env, s, l))
  {
    var s' := Next(env, s, l);
    forall c | c in s'.topo.readers
      ensures ReaderOk(s', c)
    {
      StepReaderOk(env, s, l, c);
    }
    forall c | c in s'.cache.calls && PcOf(s', c).LookupPeer?
      ensures c in s'.topo.readers
    {
      StepLookupReads(env, s, l, c);
    }
  }

  /** A call that has left recordPeerHash's control point stays past it. */
  lemma StepDelivered(env: HF.Env, s: State, l: Label, c: Cid)
    requires Enabled(env, s, l) && c in s.cache.calls && Delivered(PcOf(s, c))
    ensures c in Next(env, s, l).cache.calls && Delivered(PcOf(Next(env, s, l), c))
    ensures PcOf(Next(env, s, l), c).Record? ==> PcOf(s, c).Record?
    ensures PcOf(s, c).Record? && !PcOf(Next(env, s, l), c).Record? ==> l == Recorded(c)
  {
  }

  lemma StepRecorder(env: HF.Env, s: State, l: Label, c: Cid, e: PC.EntryId)
    requires Inv(env, s) && Enabled(env, s, l) && RecorderOf(s, c, e)
    ensures RecorderOf(Next(env, s, l), c, e)
  {
    var s' := Next(env, s, l);
    StepDelivered(env, s, l, c);
    CR.StepExtends(s.cache, CacheLabel(s, l));
    assert CR.EntryExtends(s.cache.sh.heap[e], s'.cache.sh.heap[e]);
    assert CR.CallExtends(s.cache.calls[c], s'.cache.calls[c]);
    HR.StepExtends(env, s.hashes, HashLabel(s, l));
    assert HR.RecExtends(s.hashes.recs[c], s'.hashes.recs[c]);
  }

  /** The step that delivers a client starts its recorder. */
  lemma DeliverRecorder(env: HF.Env, s: State, c: Cid, ch: PC.Choice)
    requires Inv(env, s) && Enabled(env, s, Resolved(c, ch)) && ch.Deliver?
    ensures RecorderOf(Next(env, s, Resolved(c, ch)), c, PcOf(s, c).e)
  {
    assert PC.CallOk(s.cache.sh, c, s.cache.calls[c]);
  }

  lemma NewClient(env: HF.Env, s: State, l: Label, e: PC.EntryId)
    requires Enabled(env, s, l)
    requires e < |Next(env, s, l).cache.sh.heap| && HasClient(Next(env, s, l).cache.sh, e)
    ensures (e < |s.cache.sh.heap| && HasClient(s.cache.sh, e))
         || (l.Resolved? && l.choice.Deliver? && PcOf(s, l.c).e == e)
  {
  }

  lemma NewRecorder(env: HF.Env, s: State, l: Label, c: Cid)
    requires Enabled(env, s, l) && c in Next(env, s, l).hashes.recs && c !in s.hashes.recs
    ensures l.Resolved? && l.choice.Deliver? && l.c == c
  {
  }

  lemma WorksOn(s: State, c: Cid, e: PC.EntryId)
    requires RecorderOf(s, c, e)
    ensures RecorderWorks(s, c)
  {
  }

  lemma StepRecorderWorks(env: HF.Env, s: State, l: Label, c: Cid)
    requires Inv(env, s) && Enabled(env, s, l) && c in Next(env, s, l).hashes.recs
    ensures RecorderWorks(Next(env, s, l), c)
  {
    if c in s.hashes.recs {
      assert RecorderWorks(s, c);
      StepRecorder(env, s, l, c, PcOf(s, c).e);
      WorksOn(Next(env, s, l), c, PcOf(s, c).e);
    } else {
      NewRecorder(env, s, l, c);
      DeliverRecorder(env, s, c, l.choice);
      WorksOn(Next(env, s, l), c, PcOf(s, c).e);
    }
  }

  lemma StepClientRecorded(env: HF.Env, s: State, l: Label, e: PC.EntryId)
    requires Inv(env, s) && Enabled(env, s, l)
    requires e < |Next(env, s, l).cache.sh.heap| && HasClient(Next(env, s, l).cache.sh, e)
    ensures ClientRecorded(Next(env, s, l), e)
  {
    NewClient(env, s, l, e);
    if e < |s.cache.sh.heap| && HasClient(s.cache.sh, e) {
      assert ClientRecorded(s, e);
      StepRecorder(env, s, l, s.cache.sh.heap[e].once.runner, e);
    } else {
      DeliverRecorder(env, s, l.c, l.choice);
    }
  }

  lemma StepRecordersOk(env: HF.Env, s: State, l: Label)
    requires Inv(env, s) && Enabled(env, s, l)
    ensures RecordersOk(Next(env, s, l))
  {
    var s' := Next(env, s, l);
    forall c | c in s'.hashes.recs
      ensures RecorderWorks(s', c)
    {
      StepRecorderWorks(env, s, l, c);
    }
    forall e: PC.EntryId | e < |s'.cache.sh.heap| && HasClient(s'.cache.sh, e)
      ensures ClientRecorded(s', e)
    {
      StepClientRecorded(env, s, l, e);
    }
  }

  /** Every step of the whole keeps the whole invariant. */
  lemma NextInv(env: HF.Env, s: State, l: Label)
    requires HF.Faithful(env) && Inv(env, s) && Enabled(env, s, l)
    ensures Inv(env, Next(env, s, l))
  {
    PC.NextInv(s.cache, CacheLabel(s, l));
    TP.NextInv(s.topo, TopoLabel(s, l));
    HF.NextInv(env, s.hashes, HashLabel(s, l));
    StepReadersOk(env, s, l);
    StepRecordersOk(env, s, l);
  }
}

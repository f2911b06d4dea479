/** The peer-client cache (pkg/client/cache.go) as an interleaving state machine.

    Any number of PeerClientWithCardHeaders and ForgetPeer calls run at once. Each
    call is split at every point where another goroutine can be scheduled: taking
    and releasing peerClientsMu, entering and leaving the entry's sync.Once, the
    phases of newForPeerCardHeaders, the eviction and the return. */
module PeerCache {
  import opened Base

  type EntryId = nat

  /** What a caller passes besides the name; only the call that wins the once uses it. */
  datatype Config = Config(headers: Headers, options: seq<string>)

  datatype Client = Client(id: nat, config: Config)

  /** (entry.client, nil) or (nil, entry.err), with the card the client was built from. */
  datatype Outcome = Built(client: Client, card: Card) | Failed(error: Error)

  /** clientCacheEntry. Its identity is its index in the allocation-ordered heap;
      `creator` is history. */
  datatype Entry = Entry(name: Name, creator: Cid, once: Once, outcome: Option<Outcome>)

  /** `live` is peerClients; `removed` is history: every entry a delete took out of it. */
  datatype Shared = Shared(live: map<Name, EntryId>, heap: seq<Entry>, removed: seq<EntryId>)

  datatype Op = Peer(name: Name, config: Config) | Forget(name: Name)

  datatype Pc =
    | LookupLock                                  // peerClientsMu.Lock()
    | LookupHeld                                  // find or insert, lock held
    | LookupUnlock(e: EntryId)
    | OnceEnter(e: EntryId)                       // entry.once.Do
    | Validate(e: EntryId)                        // validateHeaders
    | LookupPeer(e: EntryId)                      // lookupPeer
    | Resolve(e: EntryId)                         // Resolve and NewFromCard
    | Record(e: EntryId)                          // recordPeerHash
    | OnceExit(e: EntryId)
    | CheckErr(e: EntryId)                        // entry.err != nil
    | EvictLock(e: EntryId)                       // forgetEntry
    | EvictHeld(e: EntryId)
    | EvictUnlock(e: EntryId)
    | Return(e: EntryId)
    | Returned(e: EntryId, outcome: Outcome)
    | ForgetLock | ForgetHeld | ForgetUnlock | Forgotten

  datatype Call = Call(op: Op, pc: Pc)

  datatype State = State(mu: Option<Cid>, sh: Shared, calls: map<Cid, Call>)

  /** What the environment decides at a step: nothing, a refusal of the build, or a
      delivered client and card. */
  datatype Choice = Plain | Refuse(error: Error) | Deliver(id: nat, card: Card)

  /** A call arrives, a call steps, or some other part of the process moves. */
  datatype Label = Spawn(c: Cid, op: Op) | Step(c: Cid, choice: Choice) | Elsewhere

  // ---- the three critical sections of peerClientsMu ----

  /** cache.go:74-78 */
  function FindOrInsert(sh: Shared, name: Name, c: Cid): (Shared, EntryId)
  {
    if name in sh.live then (sh, sh.live[name])
    else
      (sh.(live := sh.live[name := |sh.heap|],
           heap := sh.heap + [Entry(name, c, Idle, None)]),
       |sh.heap|)
  }

  /** delete(peerClients, name) */
  function RemoveName(sh: Shared, name: Name): Shared
  {
    if name in sh.live then
      sh.(live := sh.live - {name}, removed := sh.removed + [sh.live[name]])
    else sh
  }

  /** forgetEntry, cache.go:105-107 */
  function RemoveIfSame(sh: Shared, name: Name, e: EntryId): Shared
  {
    if Get(sh.live, name) == Some(e) then RemoveName(sh, name) else sh
  }

  // ---- writes to one entry ----

  function Settle(sh: Shared, e: EntryId, o: Outcome): Shared
    requires e < |sh.heap|
  {
    sh.(heap := sh.heap[e := sh.heap[e].(outcome := Some(o))])
  }

  function SetOnce(sh: Shared, e: EntryId, once: Once): Shared
    requires e < |sh.heap|
  {
    sh.(heap := sh.heap[e := sh.heap[e].(once := once)])
  }

  // ---- one step of one call ----

  datatype Effect = Effect(mu: Option<Cid>, sh: Shared, pc: Pc)

  predicate HasEntry(pc: Pc)
  {
    !pc.LookupLock? && !pc.LookupHeld? && !ForgetPc(pc)
  }

  predicate ForgetPc(pc: Pc)
  {
    pc.ForgetLock? || pc.ForgetHeld? || pc.ForgetUnlock? || pc.Forgotten?
  }

  /** The call holds peerClientsMu. */
  predicate Holds(pc: Pc)
  {
    || pc.LookupHeld? || pc.LookupUnlock? || pc.EvictHeld? || pc.EvictUnlock?
    || pc.ForgetHeld? || pc.ForgetUnlock?
  }

  /** The call executes the function given to once.Do. */
  predicate InBody(pc: Pc)
  {
    pc.Validate? || pc.LookupPeer? || pc.Resolve? || pc.Record? || pc.OnceExit?
  }

  /** once.Do has returned to the call. */
  predicate PastOnce(pc: Pc)
  {
    || pc.CheckErr? || pc.EvictLock? || pc.EvictHeld? || pc.EvictUnlock?
    || pc.Return? || pc.Returned?
  }

  /** The call is past the point where it evicts a failed entry. */
  predicate PastEvict(pc: Pc)
  {
    pc.EvictUnlock? || pc.Return? || pc.Returned?
  }

  predicate Finished(pc: Pc)
  {
    pc.Returned? || pc.Forgotten?
  }

  predicate CanAct(mu: Option<Cid>, sh: Shared, op: Op, pc: Pc, ch: Choice)
  {
    && op.Peer? == !ForgetPc(pc)
    && (HasEntry(pc) ==> pc.e < |sh.heap|)
    && match pc
       case LookupLock => ch.Plain? && mu == None
       case EvictLock(_) => ch.Plain? && mu == None
       case ForgetLock => ch.Plain? && mu == None
       case OnceEnter(e) => ch.Plain? && !sh.heap[e].once.Running?
       case Validate(_) => !ch.Deliver?
       case LookupPeer(_) => !ch.Deliver?
       case Resolve(_) => !ch.Plain?
       case CheckErr(e) => ch.Plain? && sh.heap[e].outcome.Some?
       case Return(e) => ch.Plain? && sh.heap[e].outcome.Some?
       case Returned(_, _) => false
       case Forgotten => false
       case _ => ch.Plain?
  }

  function Act(mu: Option<Cid>, sh: Shared, c: Cid, op: Op, pc: Pc, ch: Choice): Effect
    requires CanAct(mu, sh, op, pc, ch)
  {
    match pc
    case LookupLock => Effect(Some(c), sh, LookupHeld)
    case LookupHeld =>
      var (sh', e) := FindOrInsert(sh, op.name, c);
      Effect(mu, sh', LookupUnlock(e))
    case LookupUnlock(e) => Effect(None, sh, OnceEnter(e))
    case OnceEnter(e) =>
      if sh.heap[e].once.Idle? then Effect(mu, SetOnce(sh, e, Running(c)), Validate(e))
      else Effect(mu, sh, CheckErr(e))
    case Validate(e) =>
      if ch.Refuse? then Effect(mu, Settle(sh, e, Failed(ch.error)), OnceExit(e))
      else Effect(mu, sh, LookupPeer(e))
    case LookupPeer(e) =>
      if ch.Refuse? then Effect(mu, Settle(sh, e, Failed(ch.error)), OnceExit(e))
      else Effect(mu, sh, Resolve(e))
    case Resolve(e) =>
      if ch.Refuse? then Effect(mu, Settle(sh, e, Failed(ch.error)), OnceExit(e))
      else Effect(mu, Settle(sh, e, Built(Client(ch.id, op.config), ch.card)), Record(e))
    case Record(e) => Effect(mu, sh, OnceExit(e))
    case OnceExit(e) => Effect(mu, SetOnce(sh, e, Complete(c)), CheckErr(e))
    case CheckErr(e) =>
      Effect(mu, sh, if sh.heap[e].outcome.value.Failed? then EvictLock(e) else Return(e))
    case EvictLock(e) => Effect(Some(c), sh, EvictHeld(e))
    case EvictHeld(e) => Effect(mu, RemoveIfSame(sh, op.name, e), EvictUnlock(e))
    case EvictUnlock(e) => Effect(None, sh, Return(e))
    case Return(e) => Effect(mu, sh, Returned(e, sh.heap[e].outcome.value))
    case ForgetLock => Effect(Some(c), sh, ForgetHeld)
    case ForgetHeld => Effect(mu, RemoveName(sh, op.name), ForgetUnlock)
    case ForgetUnlock => Effect(None, sh, Forgotten)
  }

  predicate Enabled(s: State, l: Label)
  {
    match l
    case Spawn(c, _) => c !in s.calls
    case Step(c, ch) => c in s.calls && CanAct(s.mu, s.sh, s.calls[c].op, s.calls[c].pc, ch)
    case Elsewhere => true
  }

  function Next(s: State, l: Label): State
    requires Enabled(s, l)
  {
    match l
    case Spawn(c, op) => s.(calls := s.calls[c := Call(op, StartPc(op))])
    case Step(c, ch) =>
      var eff := Act(s.mu, s.sh, c, s.calls[c].op, s.calls[c].pc, ch);
      State(eff.mu, eff.sh, s.calls[c := s.calls[c].(pc := eff.pc)])
    case Elsewhere => s
  }

  function StartPc(op: Op): Pc
  {
    if op.Peer? then LookupLock else ForgetLock
  }

  predicate Init(s: State)
  {
    s == State(None, Shared(map[], [], []), map[])
  }

  // ---- the invariant ----

  /** Every allocated entry is either live under its own name or was removed once. */
  ghost predicate MapOk(sh: Shared)
  {
    && (forall n :: n in sh.live ==> sh.live[n] < |sh.heap| && sh.heap[sh.live[n]].name == n)
    && (forall i :: 0 <= i < |sh.removed| ==> sh.removed[i] < |sh.heap|)
    && (forall i, j :: 0 <= i < j < |sh.removed| ==> sh.removed[i] != sh.removed[j])
    && (forall e: EntryId :: e < |sh.heap| ==> (e in sh.removed <==> !IsLive(sh, e)))
    && (forall d: EntryId, e: EntryId :: d < e < |sh.heap| && sh.heap[d].name == sh.heap[e].name ==> d in sh.removed)
  }

  predicate IsLive(sh: Shared, e: EntryId)
    requires e < |sh.heap|
  {
    Get(sh.live, sh.heap[e].name) == Some(e)
  }

  /** What the control point of call c says about the shared state. */
  ghost predicate CallOk(sh: Shared, c: Cid, call: Call)
  {
    var pc := call.pc;
    && call.op.Peer? == !ForgetPc(pc)
    && (HasEntry(pc) ==>
          && pc.e < |sh.heap|
          && var en := sh.heap[pc.e];
          && en.name == call.op.name
          && (InBody(pc) ==> en.once == Running(c))
          && (pc.Validate? || pc.LookupPeer? || pc.Resolve? ==> en.outcome == None)
          && (pc.Record? ==> en.outcome.Some? && en.outcome.value.Built?)
          && (pc.OnceExit? ==> en.outcome.Some?)
          && (PastOnce(pc) ==> en.once.Complete?)
          && (pc.EvictLock? || pc.EvictHeld? ==> en.outcome.Some? && en.outcome.value.Failed?)
          && (PastEvict(pc) && en.outcome.Some? && en.outcome.value.Failed? ==> pc.e in sh.removed)
          && (pc.Returned? ==> en.outcome == Some(pc.outcome)))
  }

  /** What an entry says about the calls that created and built it. */
  ghost predicate EntryOk(calls: map<Cid, Call>, e: EntryId, en: Entry)
  {
    && en.creator in calls && HasEntry(calls[en.creator].pc) && calls[en.creator].pc.e == e
    && match en.once
    case Idle => en.outcome == None
    case Running(b) =>
      && b in calls && InBody(calls[b].pc) && calls[b].pc.e == e
      && ConfigOk(calls[b], en)
    case Complete(b) =>
      && en.outcome.Some?
      && b in calls && PastOnce(calls[b].pc) && calls[b].pc.e == e
      && ConfigOk(calls[b], en)
  }

  /** A built client carries the headers and options of the call that won the once. */
  ghost predicate ConfigOk(builder: Call, en: Entry)
  {
    && builder.op.Peer?
    && (en.outcome.Some? && en.outcome.value.Built? ==> en.outcome.value.client.config == builder.op.config)
  }

  ghost predicate MutexOk(s: State)
  {
    && (s.mu.Some? ==> s.mu.value in s.calls && Holds(s.calls[s.mu.value].pc))
    && (forall c :: c in s.calls && Holds(s.calls[c].pc) ==> s.mu == Some(c))
  }

  ghost predicate Inv(s: State)
  {
    && MapOk(s.sh)
    && MutexOk(s)
    && (forall c :: c in s.calls ==> CallOk(s.sh, c, s.calls[c]))
    && (forall e: EntryId :: e < |s.sh.heap| ==> EntryOk(s.calls, e, s.sh.heap[e]))
  }

  lemma InitInv(s: State)
    requires Init(s)
    ensures Inv(s)
  {
  }

  lemma RemoveNameOk(sh: Shared, name: Name)
    requires MapOk(sh)
    ensures MapOk(RemoveName(sh, name))
  {
    if name in sh.live {
      var sh' := RemoveName(sh, name);
      var x := sh.live[name];
      assert x !in sh.removed by { assert IsLive(sh, x); }
      forall e: EntryId | e < |sh'.heap|
        ensures e in sh'.removed <==> !IsLive(sh', e)
      {
        assert e in sh'.removed <==> e in sh.removed || e == x;
        assert e in sh.removed <==> !IsLive(sh, e);
      }
    }
  }

  lemma InsertOk(sh: Shared, name: Name, c: Cid)
    requires MapOk(sh)
    ensures MapOk(FindOrInsert(sh, name, c).0)
  {
    if name !in sh.live {
      var sh' := FindOrInsert(sh, name, c).0;
      forall e: EntryId | e < |sh'.heap|
        ensures e in sh'.removed <==> !IsLive(sh', e)
      {
        if e < |sh.heap| {
          assert e in sh.removed <==> !IsLive(sh, e);
        }
      }
      forall d: EntryId, e: EntryId | d < e < |sh'.heap| && sh'.heap[d].name == sh'.heap[e].name
        ensures d in sh'.removed
      {
        if e == |sh.heap| {
          assert !IsLive(sh, d);
        }
      }
    }
  }

  /** Entries keep their names and places. */
  ghost predicate SameMap(sh: Shared, sh': Shared)
  {
    && sh'.live == sh.live && sh'.removed == sh.removed && |sh'.heap| == |sh.heap|
    && forall e: EntryId :: e < |sh.heap| ==> sh'.heap[e].name == sh.heap[e].name
  }

  lemma SameMapOk(sh: Shared, sh': Shared)
    requires MapOk(sh) && SameMap(sh, sh')
    ensures MapOk(sh')
  {
    forall e: EntryId | e < |sh'.heap|
      ensures e in sh'.removed <==> !IsLive(sh', e)
    {
      assert e in sh.removed <==> !IsLive(sh, e);
    }
  }

  lemma StepSameMap(s: State, c: Cid, ch: Choice)
    requires Enabled(s, Step(c, ch))
    requires var pc := s.calls[c].pc; !pc.LookupHeld? && !pc.EvictHeld? && !pc.ForgetHeld?
    ensures SameMap(s.sh, Next(s, Step(c, ch)).sh)
  {
  }

  /** The map part of the invariant survives every step of every call. */
  lemma StepMapOk(s: State, c: Cid, ch: Choice)
    requires MapOk(s.sh) && Enabled(s, Step(c, ch))
    ensures MapOk(Next(s, Step(c, ch)).sh)
  {
    var call := s.calls[c];
    if call.pc.LookupHeld? {
      InsertOk(s.sh, call.op.name, c);
    } else if call.pc.EvictHeld? || call.pc.ForgetHeld? {
      RemoveNameOk(s.sh, call.op.name);
    } else {
      StepSameMap(s, c, ch);
      SameMapOk(s.sh, Next(s, Step(c, ch)).sh);
    }
  }

  /** How a step moves the lock. */
  lemma StepMutex(s: State, c: Cid, ch: Choice)
    requires MutexOk(s) && Enabled(s, Step(c, ch))
    ensures var s' := Next(s, Step(c, ch)); var pc, pc' := s.calls[c].pc, s'.calls[c].pc;
      && s'.calls == s.calls[c := s'.calls[c]]
      && (if Holds(pc') then s'.mu == Some(c) && (Holds(pc) || s.mu == None)
          else if Holds(pc) then s'.mu == None && s.mu == Some(c)
          else s'.mu == s.mu && s.mu != Some(c))
  {
  }

  lemma StepMutexOk(s: State, c: Cid, ch: Choice)
    requires MutexOk(s) && Enabled(s, Step(c, ch))
    ensures MutexOk(Next(s, Step(c, ch)))
  {
    StepMutex(s, c, ch);
  }

  lemma EvictCallOk(s: State, c: Cid, ch: Choice)
    requires MapOk(s.sh) && Enabled(s, Step(c, ch)) && s.calls[c].pc.EvictHeld? && CallOk(s.sh, c, s.calls[c])
    ensures var s' := Next(s, Step(c, ch)); CallOk(s'.sh, c, s'.calls[c])
  {
    var e := s.calls[c].pc.e;
    assert e in s.sh.removed <==> !IsLive(s.sh, e);
    if IsLive(s.sh, e) {
      assert Next(s, Step(c, ch)).sh.removed[|s.sh.removed|] == e;
    }
  }

  lemma OwnCallOkPastOnce(s: State, c: Cid, ch: Choice)
    requires MapOk(s.sh) && Enabled(s, Step(c, ch)) && PastOnce(s.calls[c].pc) && CallOk(s.sh, c, s.calls[c])
    ensures var s' := Next(s, Step(c, ch)); CallOk(s'.sh, c, s'.calls[c])
  {
    if s.calls[c].pc.EvictHeld? {
      EvictCallOk(s, c, ch);
    } else {
      assert Next(s, Step(c, ch)).sh == s.sh;
    }
  }

  lemma OwnCallOkInOnce(s: State, c: Cid, ch: Choice)
    requires Inv(s) && Enabled(s, Step(c, ch))
    requires s.calls[c].pc.OnceEnter? || InBody(s.calls[c].pc)
    ensures var s' := Next(s, Step(c, ch)); CallOk(s'.sh, c, s'.calls[c])
  {
    assert CallOk(s.sh, c, s.calls[c]);
    assert EntryOk(s.calls, s.calls[c].pc.e, s.sh.heap[s.calls[c].pc.e]);
  }

  lemma OwnCallOk(s: State, c: Cid, ch: Choice)
    requires Inv(s) && Enabled(s, Step(c, ch))
    ensures var s' := Next(s, Step(c, ch)); CallOk(s'.sh, c, s'.calls[c])
  {
    var pc := s.calls[c].pc;
    assert CallOk(s.sh, c, s.calls[c]);
    if PastOnce(pc) {
      OwnCallOkPastOnce(s, c, ch);
    } else if pc.OnceEnter? || InBody(pc) {
      OwnCallOkInOnce(s, c, ch);
    }
  }

  lemma OtherCallOk(s: State, c: Cid, ch: Choice, d: Cid)
    requires Enabled(s, Step(c, ch)) && d in s.calls && d != c
    requires CallOk(s.sh, d, s.calls[d]) && CallOk(s.sh, c, s.calls[c])
    ensures var s' := Next(s, Step(c, ch)); CallOk(s'.sh, d, s'.calls[d])
  {
  }

  lemma OwnEntryOk(s: State, c: Cid, ch: Choice)
    requires Enabled(s, Step(c, ch)) && HasEntry(s.calls[c].pc) && CallOk(s.sh, c, s.calls[c])
    requires EntryOk(s.calls, s.calls[c].pc.e, s.sh.heap[s.calls[c].pc.e])
    ensures var s', e := Next(s, Step(c, ch)), s.calls[c].pc.e; e < |s'.sh.heap| && EntryOk(s'.calls, e, s'.sh.heap[e])
  {
  }

  lemma OtherEntryOk(s: State, c: Cid, ch: Choice, e: EntryId)
    requires Enabled(s, Step(c, ch)) && e < |s.sh.heap| && EntryOk(s.calls, e, s.sh.heap[e])
    requires HasEntry(s.calls[c].pc) ==> s.calls[c].pc.e != e
    ensures var s' := Next(s, Step(c, ch)); e < |s'.sh.heap| && EntryOk(s'.calls, e, s'.sh.heap[e])
  {
    assert Next(s, Step(c, ch)).sh.heap[e] == s.sh.heap[e];
  }

  lemma StepEntryOk(s: State, c: Cid, ch: Choice, e: EntryId)
    requires Inv(s) && Enabled(s, Step(c, ch)) && e < |s.sh.heap|
    ensures var s' := Next(s, Step(c, ch)); EntryOk(s'.calls, e, s'.sh.heap[e])
  {
    assert CallOk(s.sh, c, s.calls[c]) && EntryOk(s.calls, e, s.sh.heap[e]);
    if HasEntry(s.calls[c].pc) && s.calls[c].pc.e == e {
      OwnEntryOk(s, c, ch);
    } else {
      OtherEntryOk(s, c, ch, e);
    }
  }

  lemma StepEntriesOk(s: State, c: Cid, ch: Choice)
    requires Inv(s) && Enabled(s, Step(c, ch))
    ensures var s' := Next(s, Step(c, ch));
      forall e: EntryId :: e < |s'.sh.heap| ==> EntryOk(s'.calls, e, s'.sh.heap[e])
  {
    var s' := Next(s, Step(c, ch));
    forall e: EntryId | e < |s'.sh.heap|
      ensures EntryOk(s'.calls, e, s'.sh.heap[e])
    {
      if e < |s.sh.heap| { StepEntryOk(s, c, ch, e); }
    }
  }

  /** Every step of every call keeps the invariant. */
  lemma NextInv(s: State, l: Label)
    requires Inv(s) && Enabled(s, l)
    ensures Inv(Next(s, l))
  {
    match l
    case Spawn(c, op) =>
      var s' := Next(s, l);
      forall d | d in s'.calls
        ensures CallOk(s'.sh, d, s'.calls[d])
      {
        if d != c { assert CallOk(s.sh, d, s.calls[d]); }
      }
      forall e: EntryId | e < |s'.sh.heap|
        ensures EntryOk(s'.calls, e, s'.sh.heap[e])
      {
        assert EntryOk(s.calls, e, s.sh.heap[e]);
      }
    case Step(c, ch) =>
      StepMapOk(s, c, ch);
      StepMutexOk(s, c, ch);
      OwnCallOk(s, c, ch);
      forall d | d in s.calls && d != c
        ensures CallOk(Next(s, l).sh, d, Next(s, l).calls[d])
      {
        assert CallOk(s.sh, d, s.calls[d]) && CallOk(s.sh, c, s.calls[c]);
        OtherCallOk(s, c, ch, d);
      }
      StepEntriesOk(s, c, ch);
    case Elsewhere =>
  }
}

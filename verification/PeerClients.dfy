/** cache.go in the source's own form: the map and its entries as objects, the three
    critical sections, and PeerClientWithCardHeaders as one goroutine runs it when no
    other call is in flight. Every method is tied to the functions the interleaving
    model steps with, and the whole call to a run of that model. */
module PeerClients {
  import opened Base
  import PC = PeerCache
  import CR = CacheRuns

  /** clientCacheEntry. The ghost fields give it its place in the model's heap. */
  class ClientCacheEntry {
    ghost const id: PC.EntryId
    ghost const name: Name
    ghost const creator: Cid
    ghost var card: Card
    ghost var runner: Cid
    var done: bool
    var client: Option<PC.Client>
    var err: Option<Error>

    constructor (ghost id: PC.EntryId, ghost name: Name, ghost creator: Cid)
      ensures this.id == id && this.name == name && this.creator == creator
      ensures !done && client == None && err == None
    {
      this.id, this.name, this.creator := id, name, creator;
      card, runner := "", 0;
      done, client, err := false, None, None;
    }

    ghost function View(): PC.Entry
      reads this
    {
      PC.Entry(name, creator, if done then Complete(runner) else Idle,
               if err.Some? then Some(PC.Failed(err.value))
               else if client.Some? then Some(PC.Built(client.value, card))
               else None)
    }
  }

  /** What newForPeerCardHeaders returns: a client and a card, or an error. */
  type Build = ch: PC.Choice | !ch.Plain? witness PC.Refuse("")

  function OutcomeOf(build: Build, config: PC.Config): PC.Outcome
  {
    if build.Refuse? then PC.Failed(build.error) else PC.Built(PC.Client(build.id, config), build.card)
  }

  /** Every entry has been built. */
  ghost predicate AllBuilt(sh: PC.Shared)
  {
    forall e: PC.EntryId :: e < |sh.heap| ==> sh.heap[e].once.Complete? && sh.heap[e].outcome.Some?
  }

  /** Once the entry of name is found, or opened and built by c. */
  ghost function AfterBuild(sh: PC.Shared, c: Cid, name: Name, config: PC.Config, build: Build): (r: (PC.Shared, PC.EntryId))
    requires PC.MapOk(sh) && AllBuilt(sh)
    ensures r.1 < |r.0.heap| && r.0.heap[r.1].outcome.Some?
  {
    var (sh1, e) := PC.FindOrInsert(sh, name, c);
    if name in sh.live then (sh1, e)
    else (sh1.(heap := sh1.heap[e := PC.Entry(name, c, Complete(c), Some(OutcomeOf(build, config)))]), e)
  }

  /** The effect of one uninterrupted call: find or open the entry, build it if it is
      new, and take it out again if it holds an error. */
  ghost function Solo(sh: PC.Shared, c: Cid, name: Name, config: PC.Config, build: Build): (r: (PC.Shared, PC.Outcome))
    requires PC.MapOk(sh) && AllBuilt(sh)
  {
    var (sh2, e) := AfterBuild(sh, c, name, config, build);
    var o := sh2.heap[e].outcome.value;
    (if o.Failed? then PC.RemoveIfSame(sh2, name, e) else sh2, o)
  }

  /** The call leaves the cache as it found it: a sound map of finished builds. */
  lemma SoloKeeps(sh: PC.Shared, c: Cid, name: Name, config: PC.Config, build: Build)
    requires PC.MapOk(sh) && AllBuilt(sh)
    ensures var (sh', o) := Solo(sh, c, name, config, build); PC.MapOk(sh') && AllBuilt(sh')
  {
    var (sh1, e) := PC.FindOrInsert(sh, name, c);
    var sh2 := AfterBuild(sh, c, name, config, build).0;
    PC.InsertOk(sh, name, c);
    PC.SameMapOk(sh1, sh2);
    PC.RemoveNameOk(sh2, name);
  }

  /** A call for a name that is not cached returns what its build came to, and leaves the
      name cached exactly if that was a client. */
  lemma MissBuilds(sh: PC.Shared, c: Cid, name: Name, config: PC.Config, build: Build)
    requires PC.MapOk(sh) && AllBuilt(sh) && name !in sh.live
    ensures var (sh', o) := Solo(sh, c, name, config, build);
      && (build.Refuse? ==> o == PC.Failed(build.error))
      && (build.Deliver? ==> o == PC.Built(PC.Client(build.id, config), build.card))
      && (name in sh'.live <==> build.Deliver?)
      && |sh'.heap| == |sh.heap| + 1 && sh'.heap[|sh.heap|].outcome == Some(o)
  {
  }

  /** A call after a successful one for the same name is a hit: the same client, nothing
      changed, whatever it passes. A call after a failed one builds anew. */
  lemma SecondCall(sh: PC.Shared, c: Cid, d: Cid, name: Name, config: PC.Config, config': PC.Config, build: Build, build': Build)
    requires PC.MapOk(sh) && AllBuilt(sh)
    ensures var (sh1, o1) := Solo(sh, c, name, config, build);
      && PC.MapOk(sh1) && AllBuilt(sh1)
      && var (sh2, o2) := Solo(sh1, d, name, config', build');
      if o1.Built? then sh2 == sh1 && o2 == o1 else o2 == OutcomeOf(build', config')
  {
    SoloKeeps(sh, c, name, config, build);
  }

  class PeerClients {
    var peerClients: map<Name, ClientCacheEntry>
    ghost var entries: seq<ClientCacheEntry>
    ghost var removed: seq<PC.EntryId>

    ghost predicate Valid()
      reads this, entries
    {
      && (forall i :: 0 <= i < |entries| ==> entries[i].id == i && (entries[i].err.Some? ==> entries[i].client == None))
      && (forall n :: n in peerClients ==> Known(peerClients[n]) && peerClients[n].name == n)
    }

    /** The entry is one this cache allocated. */
    ghost predicate Known(entry: ClientCacheEntry)
      reads this
    {
      entry.id < |entries| && entries[entry.id] == entry
    }

    /** The model's view of the whole. */
    ghost function Shared(): PC.Shared
      reads this, entries
    {
      PC.Shared(map n | n in peerClients :: peerClients[n].id,
                seq(|entries|, i requires 0 <= i < |entries| reads this, entries => entries[i].View()),
                removed)
    }

    constructor ()
      ensures Valid() && Shared() == PC.Shared(map[], [], []) && entries == []
    {
      peerClients, entries, removed := map[], [], [];
    }

    /** cache.go:73-79 */
    method LookupOrInsert(name: Name, ghost c: Cid) returns (entry: ClientCacheEntry)
      requires Valid()
      modifies this
      ensures Valid() && Known(entry) && old(entries) <= entries && (forall i :: |old(entries)| <= i < |entries| ==> fresh(entries[i]))
      ensures entry in old(entries) || fresh(entry)
      ensures entry.name == name
      ensures (Shared(), entry.id) == PC.FindOrInsert(old(Shared()), name, c)
      ensures name in old(peerClients) ==> entry == old(peerClients[name])
    {
      if name in peerClients {
        entry := peerClients[name];
        assert Shared() == old(Shared());
      } else {
        ghost var before := Shared();
        entry := new ClientCacheEntry(|entries|, name, c);
        peerClients := peerClients[name := entry];
        entries := entries + [entry];
        assert Shared().live == before.live[name := entry.id];
        assert Shared().heap == before.heap + [entry.View()];
      }
    }

    /** cache.go:102-108: the entry leaves the map only if the map still holds it. */
    method ForgetEntry(name: Name, entry: ClientCacheEntry)
      requires Valid() && Known(entry)
      modifies this
      ensures Valid() && entries == old(entries)
      ensures Shared() == PC.RemoveIfSame(old(Shared()), name, entry.id)
    {
      ghost var before := Shared();
      if name in peerClients && peerClients[name] == entry {
        removed := removed + [entry.id];
        peerClients := peerClients - {name};
        assert Shared().live == before.live - {name};
      } else {
        assert Get(before.live, name) != Some(entry.id);
      }
      assert Shared().heap == before.heap;
    }

    /** cache.go:113-117 */
    method ForgetPeer(name: Name)
      requires Valid()
      modifies this
      ensures Valid() && entries == old(entries)
      ensures Shared() == PC.RemoveName(old(Shared()), name)
    {
      ghost var before := Shared();
      if name in peerClients { removed := removed + [peerClients[name].id]; }
      peerClients := peerClients - {name};
      assert Shared().live == before.live - {name};
      assert Shared().heap == before.heap;
      if name !in before.live { assert before.live - {name} == before.live; }
    }

    /** The once.Do of cache.go:81-89 for a goroutine that does not have to wait. */
    method BuildOnce(entry: ClientCacheEntry, build: Build, config: PC.Config, ghost c: Cid)
      requires Valid() && Known(entry)
      modifies entry
      ensures Valid() && entry.done
      ensures Shared() == if old(entry.done) then old(Shared())
        else old(Shared()).(heap := old(Shared()).heap[entry.id :=
               PC.Entry(entry.name, entry.creator, Complete(c), Some(OutcomeOf(build, config)))])
    {
      ghost var before := Shared();
      if !entry.done {
        if build.Refuse? {
          entry.client, entry.err := None, Some(build.error);
        } else {
          entry.client, entry.err, entry.card := Some(PC.Client(build.id, config)), None, build.card;
        }
        entry.done, entry.runner := true, c;
      }
      assert forall i :: 0 <= i < |entries| && i != entry.id ==> entries[i] != entry;
      assert Shared().heap == if old(entry.done) then before.heap else before.heap[entry.id := entry.View()];
      assert Shared().live == before.live;
    }

    /** cache.go:73-89 when no other call is in flight. */
    method FindAndBuild(name: Name, config: PC.Config, build: Build, ghost c: Cid) returns (entry: ClientCacheEntry)
      requires Valid() && PC.MapOk(Shared()) && AllBuilt(Shared())
      modifies this, entries
      ensures Valid() && Known(entry)
      ensures old(entries) <= entries && (forall i :: |old(entries)| <= i < |entries| ==> fresh(entries[i]))
      ensures (Shared(), entry.id) == AfterBuild(old(Shared()), c, name, config, build)
    {
      ghost var before := Shared();
      entry := LookupOrInsert(name, c);
      ghost var mid := Shared();
      assert mid.heap[entry.id] == entry.View();
      if name in before.live { assert before.heap[entry.id] == mid.heap[entry.id]; }
      BuildOnce(entry, build, config, c);
    }

    /** PeerClientWithCardHeaders when no other call is in flight. */
    method PeerClientWithCardHeaders(name: Name, config: PC.Config, build: Build, ghost c: Cid)
        returns (client: Option<PC.Client>, err: Option<Error>)
      requires Valid() && PC.MapOk(Shared()) && AllBuilt(Shared())
      modifies this, entries
      ensures Valid() && PC.MapOk(Shared()) && AllBuilt(Shared())
      ensures old(entries) <= entries && (forall i :: |old(entries)| <= i < |entries| ==> fresh(entries[i]))
      ensures Shared() == Solo(old(Shared()), c, name, config, build).0
      ensures var o := Solo(old(Shared()), c, name, config, build).1;
        if o.Failed? then client == None && err == Some(o.error) else client == Some(o.client) && err == None
    {
      var entry := FindAndBuild(name, config, build, c);
      SoloKeeps(old(Shared()), c, name, config, build);
      assert Shared().heap[entry.id] == entry.View();
      if entry.err.Some? {
        ForgetEntry(name, entry);
      }
      return entry.client, entry.err;
    }
  }

  // ---- the same call in the interleaving model ----

  /** ls takes the cache from ss[0] through ss. */
  ghost predicate Steps(ss: seq<PC.State>, ls: seq<PC.Label>)
  {
    && |ss| == |ls| + 1
    && forall i :: 0 <= i < |ls| ==> PC.Enabled(ss[i], ls[i]) && ss[i + 1] == PC.Next(ss[i], ls[i])
  }

  ghost predicate Reaches(s: PC.State, t: PC.State)
  {
    exists ss, ls :: Steps(ss, ls) && ss[0] == s && ss[|ss| - 1] == t
  }

  lemma ReachesSelf(s: PC.State)
    ensures Reaches(s, s)
  {
    assert Steps([s], []);
  }

  lemma ReachesNext(s: PC.State, t: PC.State, l: PC.Label)
    requires Reaches(s, t) && PC.Enabled(t, l)
    ensures Reaches(s, PC.Next(t, l))
  {
    var ss, ls :| Steps(ss, ls) && ss[0] == s && ss[|ss| - 1] == t;
    assert Steps(ss + [PC.Next(t, l)], ls + [l]);
  }

  lemma QuietAllBuilt(s: PC.State)
    requires PC.Inv(s) && CR.Quiescent(s)
    ensures s.mu == None && AllBuilt(s.sh)
  {
    forall e: PC.EntryId | e < |s.sh.heap|
      ensures s.sh.heap[e].once.Complete? && s.sh.heap[e].outcome.Some?
    {
      CR.QuietAllBuilt(s, e);
    }
  }

  /** The cache with one call at a control point. */
  function At(s: PC.State, sh: PC.Shared, mu: Option<Cid>, c: Cid, op: PC.Op, pc: PC.Pc): PC.State
  {
    PC.State(mu, sh, s.calls[c := PC.Call(op, pc)])
  }

  /** One step of that call. */
  lemma Go(s: PC.State, sh: PC.Shared, mu: Option<Cid>, c: Cid, op: PC.Op, pc: PC.Pc, ch: PC.Choice)
    requires PC.CanAct(mu, sh, op, pc, ch) && Reaches(s, At(s, sh, mu, c, op, pc))
    ensures var eff := PC.Act(mu, sh, c, op, pc, ch); Reaches(s, At(s, eff.sh, eff.mu, c, op, eff.pc))
  {
    var t, eff := At(s, sh, mu, c, op, pc), PC.Act(mu, sh, c, op, pc, ch);
    ReachesNext(s, t, PC.Step(c, ch));
    assert t.calls[c := PC.Call(op, eff.pc)] == s.calls[c := PC.Call(op, eff.pc)];
  }

  lemma SoloLookup(s: PC.State, c: Cid, op: PC.Op)
    requires s.mu == None && c !in s.calls && op.Peer? && PC.MapOk(s.sh)
    ensures var (sh1, e) := PC.FindOrInsert(s.sh, op.name, c); Reaches(s, At(s, sh1, None, c, op, PC.OnceEnter(e)))
  {
    var (sh1, e) := PC.FindOrInsert(s.sh, op.name, c);
    ReachesSelf(s);
    ReachesNext(s, s, PC.Spawn(c, op));
    Go(s, s.sh, None, c, op, PC.LookupLock, PC.Plain);
    Go(s, s.sh, Some(c), c, op, PC.LookupHeld, PC.Plain);
    Go(s, sh1, Some(c), c, op, PC.LookupUnlock(e), PC.Plain);
  }

  /** The once.Do part, for the call that wins it. */
  lemma SoloBuild(s: PC.State, sh: PC.Shared, c: Cid, op: PC.Op, e: PC.EntryId, build: Build)
    requires op.Peer? && e < |sh.heap| && sh.heap[e] == PC.Entry(op.name, c, Idle, None)
    requires Reaches(s, At(s, sh, None, c, op, PC.OnceEnter(e)))
    ensures var sh2 := sh.(heap := sh.heap[e := PC.Entry(op.name, c, Complete(c), Some(OutcomeOf(build, op.config)))]);
      Reaches(s, At(s, sh2, None, c, op, PC.CheckErr(e)))
  {
    var running := PC.SetOnce(sh, e, Running(c));
    var settled := PC.Settle(running, e, OutcomeOf(build, op.config));
    Go(s, sh, None, c, op, PC.OnceEnter(e), PC.Plain);
    Go(s, running, None, c, op, PC.Validate(e), PC.Plain);
    Go(s, running, None, c, op, PC.LookupPeer(e), PC.Plain);
    Go(s, running, None, c, op, PC.Resolve(e), build);
    if build.Deliver? {
      Go(s, settled, None, c, op, PC.Record(e), PC.Plain);
    }
    Go(s, settled, None, c, op, PC.OnceExit(e), PC.Plain);
  }

  /** From the error check to the return, with the eviction if the build failed. */
  lemma SoloReturn(s: PC.State, sh: PC.Shared, c: Cid, op: PC.Op, e: PC.EntryId)
    requires op.Peer? && e < |sh.heap| && sh.heap[e].outcome.Some?
    requires Reaches(s, At(s, sh, None, c, op, PC.CheckErr(e)))
    ensures var o := sh.heap[e].outcome.value;
      var sh' := if o.Failed? then PC.RemoveIfSame(sh, op.name, e) else sh;
      Reaches(s, At(s, sh', None, c, op, PC.Returned(e, o)))
  {
    var o := sh.heap[e].outcome.value;
    var sh' := if o.Failed? then PC.RemoveIfSame(sh, op.name, e) else sh;
    Go(s, sh, None, c, op, PC.CheckErr(e), PC.Plain);
    if o.Failed? {
      Go(s, sh, None, c, op, PC.EvictLock(e), PC.Plain);
      Go(s, sh, Some(c), c, op, PC.EvictHeld(e), PC.Plain);
      Go(s, sh', Some(c), c, op, PC.EvictUnlock(e), PC.Plain);
    }
    Go(s, sh', None, c, op, PC.Return(e), PC.Plain);
  }

  /** A call that arrives at a quiet cache and is never interrupted takes the model from
      where it was to exactly what the method above computes, and returns the same. */
  lemma SoloRun(s: PC.State, c: Cid, op: PC.Op, build: Build) returns (t: PC.State)
    requires PC.Inv(s) && CR.Quiescent(s) && c !in s.calls && op.Peer?
    ensures AllBuilt(s.sh) && Reaches(s, t)
    ensures var (sh', o) := Solo(s.sh, c, op.name, op.config, build);
      t.mu == None && t.sh == sh' && CR.HasReturned(t, c) && t.calls[c].pc.outcome == o
  {
    QuietAllBuilt(s);
    var (sh1, e) := PC.FindOrInsert(s.sh, op.name, c);
    var sh2 := AfterBuild(s.sh, c, op.name, op.config, build).0;
    SoloLookup(s, c, op);
    if op.name in s.sh.live {
      Go(s, sh1, None, c, op, PC.OnceEnter(e), PC.Plain);
    } else {
      SoloBuild(s, sh1, c, op, e, build);
    }
    SoloReturn(s, sh2, c, op, e);
    var (sh', o) := Solo(s.sh, c, op.name, op.config, build);
    t := At(s, sh', None, c, op, PC.Returned(e, o));
  }
}

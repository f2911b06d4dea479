/** What the parts guarantee together: the parts' own theorems hold of the whole, a
    returned client's hash is published, and what is published was built here. */
module RuntimeRuns {
  import opened Base
  import PC = PeerCache
  import CR = CacheRuns
  import TP = Topology
  import HF = HashFile
  import HR = HashRuns
  import opened Runtime

  ghost predicate IsRun(env: HF.Env, ss: seq<State>, ls: seq<Label>)
  {
    && |ss| == |ls| + 1
    && Init(env, ss[0])
    && forall i :: 0 <= i < |ls| ==> Enabled(env, ss[i], ls[i]) && ss[i + 1] == Next(env, ss[i], ls[i])
  }

  lemma {:induction false} RunInv(env: HF.Env, ss: seq<State>, ls: seq<Label>, i: nat)
    requires HF.Faithful(env) && IsRun(env, ss, ls) && i < |ss|
    ensures Inv(env, ss[i])
  {
    if i == 0 {
      InitInv(env, ss[0]);
    } else {
      RunInv(env, ss, ls, i - 1);
      NextInv(env, ss[i - 1], ls[i - 1]);
    }
  }

  // ---- each component takes part in a run of its own ----

  ghost function Caches(ss: seq<State>): seq<PC.State>
  {
    seq(|ss|, i requires 0 <= i < |ss| => ss[i].cache)
  }

  ghost function CacheLabels(env: HF.Env, ss: seq<State>, ls: seq<Label>): seq<PC.Label>
    requires IsRun(env, ss, ls)
  {
    seq(|ls|, i requires 0 <= i < |ls| => CacheLabel(ss[i], ls[i]))
  }

  ghost function Topologies(ss: seq<State>): seq<TP.State>
  {
    seq(|ss|, i requires 0 <= i < |ss| => ss[i].topo)
  }

  ghost function TopoLabels(env: HF.Env, ss: seq<State>, ls: seq<Label>): seq<TP.Label>
    requires IsRun(env, ss, ls)
  {
    seq(|ls|, i requires 0 <= i < |ls| => TopoLabel(ss[i], ls[i]))
  }

  ghost function Hashes(ss: seq<State>): seq<HF.State>
  {
    seq(|ss|, i requires 0 <= i < |ss| => ss[i].hashes)
  }

  ghost function HashLabels(env: HF.Env, ss: seq<State>, ls: seq<Label>): seq<HF.Label>
    requires IsRun(env, ss, ls)
  {
    seq(|ls|, i requires 0 <= i < |ls| => HashLabel(ss[i], ls[i]))
  }

  /** So every theorem about runs of one component holds of runs of the whole. */
  lemma Projections(env: HF.Env, ss: seq<State>, ls: seq<Label>)
    requires IsRun(env, ss, ls)
    ensures CR.IsRun(Caches(ss), CacheLabels(env, ss, ls))
    ensures TP.IsRun(Topologies(ss), TopoLabels(env, ss, ls))
    ensures HR.IsRun(env, Hashes(ss), HashLabels(env, ss, ls))
  {
  }

  // ---- a returned client's hash is published ----

  /** What a broker that reads now decodes; an absent file is an empty map. */
  function Published(env: HF.Env, s: State): Option<HF.Doc>
  {
    HF.DocOf(env, Get(s.hashes.fs, env.path))
  }

  /** In a pod, if no operation broke: from the moment any call returns a client for a
      name, whether it built it, waited for it or found it cached, every read of the
      hash file finds that name. */
  lemma ReturnedMeansPublished(env: HF.Env, ss: seq<State>, ls: seq<Label>, i: nat, c: Cid)
    requires HF.Faithful(env) && IsRun(env, ss, ls) && i < |ss|
    requires env.inCluster && !ss[i].hashes.faulty
    requires CR.HasReturned(ss[i].cache, c) && PcOf(ss[i], c).outcome.Built?
    ensures Published(env, ss[i]).Some? && OpOf(ss[i], c).name in Published(env, ss[i]).value
  {
    var s := ss[i];
    RunInv(env, ss, ls, i);
    Projections(env, ss, ls);
    var b := BuilderDone(env, s, c);
    HR.CleanRunPublishes(env, Hashes(ss), HashLabels(env, ss, ls), i, b);
  }

  /** The call that built the client a call returned has finished recording it. */
  lemma BuilderDone(env: HF.Env, s: State, c: Cid) returns (b: Cid)
    requires Inv(env, s) && CR.HasReturned(s.cache, c) && PcOf(s, c).outcome.Built?
    ensures b in s.hashes.recs && s.hashes.recs[b].pc.Done? && s.hashes.recs[b].name == OpOf(s, c).name
    ensures s.hashes.recs[b].card == PcOf(s, c).outcome.card
  {
    var e := PcOf(s, c).e;
    assert PC.CallOk(s.cache.sh, c, s.cache.calls[c]);
    assert PC.EntryOk(s.cache.calls, e, s.cache.sh.heap[e]);
    assert ClientRecorded(s, e);
    b := s.cache.sh.heap[e].once.runner;
  }

  /** After a clear that took effect, every entry a reader finds is the hash of the card of
      a client that some call of this process built for that very name. */
  lemma PublishedAreBuilt(env: HF.Env, ss: seq<State>, ls: seq<Label>, i: nat, n: Name) returns (b: Cid, e: PC.EntryId)
    requires HF.Faithful(env) && IsRun(env, ss, ls) && i < |ss| && ss[i].hashes.base == Some(None)
    requires Published(env, ss[i]).Some? && n in Published(env, ss[i]).value
    ensures b in ss[i].cache.calls && OpOf(ss[i], b).Peer? && OpOf(ss[i], b).name == n
    ensures e < |ss[i].cache.sh.heap| && HasClient(ss[i].cache.sh, e)
    ensures var en := ss[i].cache.sh.heap[e];
      && en.name == n && !en.once.Idle? && en.once.runner == b
      && env.hash(en.outcome.value.card) == Some(Published(env, ss[i]).value[n].hash)
  {
    RunInv(env, ss, ls, i);
    Projections(env, ss, ls);
    b := HR.EntriesAreOwn(env, Hashes(ss), HashLabels(env, ss, ls), i, n);
    assert RecorderWorks(ss[i], b);
    e := PcOf(ss[i], b).e;
    assert PC.CallOk(ss[i].cache.sh, b, ss[i].cache.calls[b]);
  }
}

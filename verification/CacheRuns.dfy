/** Whole-run properties of the peer-client cache: one outcome per entry, no
    poisoned name, freshness after a forget or a failure, and conservation. */
module CacheRuns {
  import opened Base
  import opened PeerCache

  /** ss[0], ss[1], ... is a run of the cache taking the steps ls. */
  ghost predicate IsRun(ss: seq<State>, ls: seq<Label>)
  {
    && |ss| == |ls| + 1
    && Init(ss[0])
    && forall i :: 0 <= i < |ls| ==> Enabled(ss[i], ls[i]) && ss[i + 1] == Next(ss[i], ls[i])
  }

  lemma {:induction false} RunInv(ss: seq<State>, ls: seq<Label>, i: nat)
    requires IsRun(ss, ls) && i < |ss|
    ensures Inv(ss[i])
  {
    if i == 0 {
      InitInv(ss[0]);
    } else {
      RunInv(ss, ls, i - 1);
      NextInv(ss[i - 1], ls[i - 1]);
    }
  }

  // ---- what only grows ----

  /** Nothing a finished step decided is ever revised. */
  ghost predicate Extends(s: State, t: State)
  {
    && s.sh.removed <= t.sh.removed
    && |s.sh.heap| <= |t.sh.heap|
    && (forall e: EntryId :: e < |s.sh.heap| ==> EntryExtends(s.sh.heap[e], t.sh.heap[e]))
    && (forall c :: c in s.calls ==> c in t.calls && CallExtends(s.calls[c], t.calls[c]))
  }

  ghost predicate EntryExtends(en: Entry, en': Entry)
  {
    && en'.name == en.name && en'.creator == en.creator
    && (en.outcome.Some? ==> en'.outcome == en.outcome)
    && (!en.once.Idle? ==> !en'.once.Idle? && en'.once.runner == en.once.runner)
    && (en.once.Complete? ==> en'.once.Complete?)
  }

  ghost predicate CallExtends(call: Call, call': Call)
  {
    && call'.op == call.op
    && (HasEntry(call.pc) ==> HasEntry(call'.pc) && call'.pc.e == call.pc.e)
    && (Finished(call.pc) ==> call' == call)
  }

  lemma StepEntryExtends(s: State, l: Label, e: EntryId)
    requires Inv(s) && Enabled(s, l) && e < |s.sh.heap|
    ensures e < |Next(s, l).sh.heap| && EntryExtends(s.sh.heap[e], Next(s, l).sh.heap[e])
  {
    if l.Step? && HasEntry(s.calls[l.c].pc) && s.calls[l.c].pc.e == e {
      assert CallOk(s.sh, l.c, s.calls[l.c]);
      assert EntryOk(s.calls, e, s.sh.heap[e]);
    } else {
      assert Next(s, l).sh.heap[e] == s.sh.heap[e];
    }
  }

  lemma StepOnlyGrows(s: State, l: Label)
    requires Enabled(s, l)
    ensures |s.sh.heap| <= |Next(s, l).sh.heap| && s.sh.removed <= Next(s, l).sh.removed
    ensures forall c :: c in s.calls ==> c in Next(s, l).calls && CallExtends(s.calls[c], Next(s, l).calls[c])
  {
  }

  lemma StepExtends(s: State, l: Label)
    requires Inv(s) && Enabled(s, l)
    ensures Extends(s, Next(s, l))
  {
    var s' := Next(s, l);
    StepOnlyGrows(s, l);
    forall e: EntryId | e < |s.sh.heap|
      ensures e < |s'.sh.heap| && EntryExtends(s.sh.heap[e], s'.sh.heap[e])
    {
      StepEntryExtends(s, l, e);
    }
  }

  lemma ExtendsSelf(s: State)
    ensures Extends(s, s)
  {
  }

  lemma ExtendsTransitive(s: State, t: State, u: State)
    requires Extends(s, t) && Extends(t, u)
    ensures Extends(s, u)
  {
    forall e: EntryId | e < |s.sh.heap|
      ensures EntryExtends(s.sh.heap[e], u.sh.heap[e])
    {
      assert EntryExtends(s.sh.heap[e], t.sh.heap[e]) && EntryExtends(t.sh.heap[e], u.sh.heap[e]);
    }
    forall c | c in s.calls
      ensures c in u.calls && CallExtends(s.calls[c], u.calls[c])
    {
      assert CallExtends(s.calls[c], t.calls[c]) && CallExtends(t.calls[c], u.calls[c]);
    }
  }

  lemma RunStepExtends(ss: seq<State>, ls: seq<Label>, k: nat)
    requires IsRun(ss, ls) && k < |ls|
    ensures Extends(ss[k], ss[k + 1])
  {
    RunInv(ss, ls, k);
    StepExtends(ss[k], ls[k]);
  }

  lemma RunExtendsSnoc(ss: seq<State>, ls: seq<Label>, i: nat, j: nat)
    requires IsRun(ss, ls) && i <= j < |ls| && Extends(ss[i], ss[j])
    ensures Extends(ss[i], ss[j + 1])
  {
    RunStepExtends(ss, ls, j);
    ExtendsTransitive(ss[i], ss[j], ss[j + 1]);
  }

  lemma {:induction false} RunExtends(ss: seq<State>, ls: seq<Label>, i: nat, j: nat)
    requires IsRun(ss, ls) && i <= j < |ss|
    ensures Extends(ss[i], ss[j])
  {
    if i == j {
      ExtendsSelf(ss[i]);
    } else {
      RunExtends(ss, ls, i, j - 1);
      RunExtendsSnoc(ss, ls, i, j - 1);
    }
  }

  // ---- one outcome per entry ----

  predicate HasReturned(s: State, c: Cid)
  {
    c in s.calls && s.calls[c].pc.Returned?
  }

  predicate Picked(s: State, c: Cid)
  {
    c in s.calls && HasEntry(s.calls[c].pc)
  }

  /** Two calls that picked the same entry, at whatever moments, return the same pair,
      for the same name, and the client was built under the headers and options of
      the one call that won the once. */
  lemma OneOutcomePerEntry(ss: seq<State>, ls: seq<Label>, i: nat, j: nat, c: Cid, d: Cid)
    requires IsRun(ss, ls) && i <= j < |ss|
    requires HasReturned(ss[i], c) && HasReturned(ss[j], d)
    requires ss[i].calls[c].pc.e == ss[j].calls[d].pc.e
    ensures ss[i].calls[c].pc.outcome == ss[j].calls[d].pc.outcome
    ensures ss[i].calls[c].op.Peer? && ss[j].calls[d].op.Peer?
    ensures ss[i].calls[c].op.name == ss[j].calls[d].op.name
    ensures var e := ss[i].calls[c].pc.e; var o := ss[i].calls[c].pc.outcome;
      && e < |ss[i].sh.heap| && ss[i].sh.heap[e].once.Complete?
      && var b := ss[i].sh.heap[e].once.runner;
      && b in ss[i].calls && ss[i].calls[b].op.Peer?
      && (o.Built? ==> o.client.config == ss[i].calls[b].op.config)
  {
    RunInv(ss, ls, i);
    RunInv(ss, ls, j);
    RunExtends(ss, ls, i, j);
    var e := ss[i].calls[c].pc.e;
    assert CallOk(ss[i].sh, c, ss[i].calls[c]);
    assert CallOk(ss[j].sh, d, ss[j].calls[d]);
    assert EntryOk(ss[i].calls, e, ss[i].sh.heap[e]);
  }

  /** The step gives entry e the outcome o, and the environment decided it. */
  predicate Decides(s: State, l: Label, e: EntryId, o: Outcome)
  {
    && l.Step? && l.c in s.calls && s.calls[l.c].op.Peer?
    && HasEntry(s.calls[l.c].pc) && s.calls[l.c].pc.e == e
    && match l.choice
       case Refuse(err) => o == Failed(err)
       case Deliver(id, card) => o == Built(Client(id, s.calls[l.c].op.config), card)
       case Plain => false
  }

  ghost predicate Decided(ss: seq<State>, ls: seq<Label>, i: nat, e: EntryId, o: Outcome)
    requires i <= |ls| < |ss|
  {
    exists k :: 0 <= k < i && Decides(ss[k], ls[k], e, o)
  }

  lemma StepDecides(s: State, l: Label, e: EntryId)
    requires Inv(s) && Enabled(s, l) && e < |Next(s, l).sh.heap| && Next(s, l).sh.heap[e].outcome.Some?
    ensures (e < |s.sh.heap| && s.sh.heap[e].outcome == Next(s, l).sh.heap[e].outcome)
         || Decides(s, l, e, Next(s, l).sh.heap[e].outcome.value)
  {
    if l.Step? { assert CallOk(s.sh, l.c, s.calls[l.c]); }
  }

  lemma {:induction false} OutcomeDecided(ss: seq<State>, ls: seq<Label>, i: nat, e: EntryId)
    requires IsRun(ss, ls) && i < |ss| && e < |ss[i].sh.heap| && ss[i].sh.heap[e].outcome.Some?
    ensures Decided(ss, ls, i, e, ss[i].sh.heap[e].outcome.value)
  {
    if i > 0 {
      RunInv(ss, ls, i - 1);
      StepDecides(ss[i - 1], ls[i - 1], e);
      if e < |ss[i - 1].sh.heap| && ss[i - 1].sh.heap[e].outcome == ss[i].sh.heap[e].outcome {
        OutcomeDecided(ss, ls, i - 1, e);
        var k :| 0 <= k < i - 1 && Decides(ss[k], ls[k], e, ss[i].sh.heap[e].outcome.value);
      }
    }
  }

  /** What a call returns is what the build of its entry came to: the very error it was
      refused with, or the client and card delivered to it, under the builder's headers
      and options. */
  lemma ReturnsBuildsResult(ss: seq<State>, ls: seq<Label>, i: nat, c: Cid)
    requires IsRun(ss, ls) && i < |ss| && HasReturned(ss[i], c)
    ensures Decided(ss, ls, i, ss[i].calls[c].pc.e, ss[i].calls[c].pc.outcome)
  {
    RunInv(ss, ls, i);
    assert CallOk(ss[i].sh, c, ss[i].calls[c]);
    OutcomeDecided(ss, ls, i, ss[i].calls[c].pc.e);
  }

  // ---- no poisoning ----

  /** The call still has an eviction of its failed entry ahead of it. */
  predicate EvictionDue(pc: Pc)
  {
    pc.OnceExit? || pc.CheckErr? || pc.EvictLock? || pc.EvictHeld?
  }

  ghost predicate Quiescent(s: State)
  {
    forall c :: c in s.calls ==> Finished(s.calls[c].pc)
  }

  /** An unfinished entry has its creator in flight; a failed entry still in the map
      has the call that built it in flight with the eviction ahead. */
  ghost predicate NotPoisoned(s: State, n: Name)
  {
    n in s.sh.live ==>
      && s.sh.live[n] < |s.sh.heap|
      && var e := s.sh.live[n]; var en := s.sh.heap[e];
      && (!en.once.Complete? ==>
            en.creator in s.calls && !Finished(s.calls[en.creator].pc) && s.calls[en.creator].op.name == n)
      && (en.outcome.Some? && en.outcome.value.Failed? ==>
            && !en.once.Idle? && en.once.runner in s.calls
            && EvictionDue(s.calls[en.once.runner].pc) && s.calls[en.once.runner].pc.e == e)
  }

  lemma InvNotPoisoned(s: State, n: Name)
    requires Inv(s)
    ensures NotPoisoned(s, n)
  {
    if n in s.sh.live {
      var e := s.sh.live[n];
      assert IsLive(s.sh, e);
      assert EntryOk(s.calls, e, s.sh.heap[e]);
      assert CallOk(s.sh, s.sh.heap[e].creator, s.calls[s.sh.heap[e].creator]);
      if !s.sh.heap[e].once.Idle? {
        assert CallOk(s.sh, s.sh.heap[e].once.runner, s.calls[s.sh.heap[e].once.runner]);
      }
    }
  }

  /** No name is poisoned at any moment of any run. */
  lemma NoPoison(ss: seq<State>, ls: seq<Label>, i: nat, n: Name)
    requires IsRun(ss, ls) && i < |ss|
    ensures NotPoisoned(ss[i], n)
  {
    RunInv(ss, ls, i);
    InvNotPoisoned(ss[i], n);
  }

  /** The entry was built to completion. */
  predicate Settled(en: Entry)
  {
    en.once.Complete? && en.outcome.Some?
  }

  /** At quiescence every entry ever created was built to completion. */
  lemma QuietAllBuilt(s: State, e: EntryId)
    requires Inv(s) && Quiescent(s) && e < |s.sh.heap|
    ensures Settled(s.sh.heap[e])
  {
    assert EntryOk(s.calls, e, s.sh.heap[e]);
    assert CallOk(s.sh, s.sh.heap[e].creator, s.calls[s.sh.heap[e].creator]);
  }

  /** With no call in flight every entry ever created was built, and every cached one
      holds a client built for its name. */
  lemma QuietCacheHoldsClients(ss: seq<State>, ls: seq<Label>, i: nat)
    requires IsRun(ss, ls) && i < |ss| && Quiescent(ss[i])
    ensures forall e: EntryId :: e < |ss[i].sh.heap| ==> Settled(ss[i].sh.heap[e])
    ensures forall n :: n in ss[i].sh.live ==>
      && ss[i].sh.live[n] < |ss[i].sh.heap|
      && var en := ss[i].sh.heap[ss[i].sh.live[n]];
      en.name == n && Settled(en) && en.outcome.value.Built?
  {
    RunInv(ss, ls, i);
    forall e: EntryId | e < |ss[i].sh.heap|
      ensures Settled(ss[i].sh.heap[e])
    {
      QuietAllBuilt(ss[i], e);
    }
    forall n | n in ss[i].sh.live
      ensures ss[i].sh.live[n] < |ss[i].sh.heap| && !ss[i].sh.heap[ss[i].sh.live[n]].outcome.value.Failed?
    {
      InvNotPoisoned(ss[i], n);
    }
  }

  // ---- freshness ----

  /** The lookup step hands out the entry that is live at that moment. */
  lemma PickIsLive(s: State, l: Label, c: Cid)
    requires Inv(s) && Enabled(s, l) && !Picked(s, c) && Picked(Next(s, l), c)
    ensures var s' := Next(s, l);
      s'.calls[c].pc.e < |s'.sh.heap| && IsLive(s'.sh, s'.calls[c].pc.e)
  {
    assert l.Step? && l.c == c && s.calls[c].pc.LookupHeld?;
  }

  lemma LiveIsNewer(sh: Shared, x: EntryId, y: EntryId)
    requires MapOk(sh) && x in sh.removed && y < |sh.heap| && IsLive(sh, y)
    ensures x < |sh.heap| && x != y && (sh.heap[y].name == sh.heap[x].name ==> x < y)
  {
    assert y !in sh.removed;
  }

  /** The entry y is not x, and newer than x if both have one name. */
  ghost predicate Newer(sh: Shared, x: EntryId, y: EntryId)
  {
    && x < |sh.heap| && y < |sh.heap| && y != x
    && (sh.heap[y].name == sh.heap[x].name ==> x < y)
  }

  lemma RemovedStaysOut(ss: seq<State>, ls: seq<Label>, i: nat, j: nat, x: EntryId)
    requires IsRun(ss, ls) && i <= j < |ss| && x in ss[i].sh.removed
    ensures x < |ss[j].sh.heap| && x in ss[j].sh.removed && !IsLive(ss[j].sh, x)
  {
    RunInv(ss, ls, j);
    RunExtends(ss, ls, i, j);
  }

  /** x is out of the map and c has no entry, or one newer than x. */
  ghost predicate Avoids(s: State, c: Cid, x: EntryId)
  {
    x in s.sh.removed && (Picked(s, c) ==> Newer(s.sh, x, s.calls[c].pc.e))
  }

  lemma StepAvoids(s: State, l: Label, c: Cid, x: EntryId)
    requires Inv(s) && Enabled(s, l) && Avoids(s, c, x)
    ensures Avoids(Next(s, l), c, x)
  {
    var s' := Next(s, l);
    StepExtends(s, l);
    NextInv(s, l);
    if Picked(s, c) {
      assert CallExtends(s.calls[c], s'.calls[c]);
    } else if Picked(s', c) {
      PickIsLive(s, l, c);
      LiveIsNewer(s'.sh, x, s'.calls[c].pc.e);
    }
  }

  lemma {:induction false} RunAvoids(ss: seq<State>, ls: seq<Label>, i: nat, j: nat, c: Cid, x: EntryId)
    requires IsRun(ss, ls) && i <= j < |ss| && Avoids(ss[i], c, x)
    ensures Avoids(ss[j], c, x)
  {
    if i < j {
      RunAvoids(ss, ls, i, j - 1, c, x);
      RunInv(ss, ls, j - 1);
      StepAvoids(ss[j - 1], ls[j - 1], c, x);
    }
  }

  /** A removed entry never comes back, and no call that had not yet looked up picks it;
      the entry such a call picks is newer than every removed entry of the same name. */
  lemma RemovedNeverReused(ss: seq<State>, ls: seq<Label>, i: nat, j: nat, c: Cid, x: EntryId)
    requires IsRun(ss, ls) && i <= j < |ss|
    requires x in ss[i].sh.removed && !Picked(ss[i], c)
    ensures x < |ss[j].sh.heap| && x in ss[j].sh.removed && !IsLive(ss[j].sh, x)
    ensures Picked(ss[j], c) ==> Newer(ss[j].sh, x, ss[j].calls[c].pc.e)
  {
    RunAvoids(ss, ls, i, j, c, x);
    RemovedStaysOut(ss, ls, i, j, x);
  }

  /** When an entry is allocated, every older entry of its name is already out of the map. */
  lemma {:induction false} AllocatedAfterRemoval(ss: seq<State>, ls: seq<Label>, j: nat, x: EntryId, y: EntryId)
      returns (k: nat)
    requires IsRun(ss, ls) && j < |ss| && x < y < |ss[j].sh.heap|
    requires ss[j].sh.heap[x].name == ss[j].sh.heap[y].name
    ensures k < j && x in ss[k].sh.removed && |ss[k].sh.heap| == y
  {
    k := j - 1;
    RunStepExtends(ss, ls, k);
    if y < |ss[k].sh.heap| {
      k := AllocatedAfterRemoval(ss, ls, k, x, y);
    } else {
      RunInv(ss, ls, k);
      AllocationStep(ss[k], ls[k], x, y);
    }
  }

  lemma AllocationStep(s: State, l: Label, x: EntryId, y: EntryId)
    requires MapOk(s.sh) && Enabled(s, l) && x < y < |Next(s, l).sh.heap| && |s.sh.heap| <= y
    requires Next(s, l).sh.heap[x].name == Next(s, l).sh.heap[y].name
    ensures x in s.sh.removed && |s.sh.heap| == y
  {
    assert l.Step? && s.calls[l.c].pc.LookupHeld?;
    assert x in s.sh.removed <==> !IsLive(s.sh, x);
  }

  lemma ForgetEmptiesName(s: State, f: Cid, y: EntryId)
    requires Inv(s) && Enabled(s, Step(f, Plain)) && s.calls[f].pc.ForgetHeld?
    requires y < |s.sh.heap| && s.sh.heap[y].name == s.calls[f].op.name
    ensures y in Next(s, Step(f, Plain)).sh.removed
  {
    NextInv(s, Step(f, Plain));
    assert !IsLive(Next(s, Step(f, Plain)).sh, y);
  }

  /** A call that has not looked up when ForgetPeer(n) deletes, in particular one that
      starts after ForgetPeer(n) returned, gets an entry that did not exist then: its
      build begins later, whatever other calls for n were in flight. */
  lemma FreshAfterForget(ss: seq<State>, ls: seq<Label>, i: nat, j: nat, f: Cid, c: Cid)
    requires IsRun(ss, ls) && i < j < |ss|
    requires ls[i] == Step(f, Plain) && ss[i].calls[f].pc.ForgetHeld?
    requires !Picked(ss[i], c) && Picked(ss[j], c)
    requires ss[j].calls[c].op.name == ss[i].calls[f].op.name
    ensures |ss[i].sh.heap| <= ss[j].calls[c].pc.e
  {
    var y, n := ss[j].calls[c].pc.e, ss[i].calls[f].op.name;
    if y < |ss[i].sh.heap| {
      RunInv(ss, ls, j);
      RunExtends(ss, ls, i, j);
      assert CallOk(ss[j].sh, c, ss[j].calls[c]);
      assert EntryExtends(ss[i].sh.heap[y], ss[j].sh.heap[y]);
      RunInv(ss, ls, i);
      ForgetEmptiesName(ss[i], f, y);
      assert ss[i + 1] == Next(ss[i], ls[i]);
      assert !Picked(ss[i + 1], c) by { assert f != c; }
      RemovedNeverReused(ss, ls, i + 1, j, c, y);
      assert false;
    }
  }

  /** A call that looks up after a failed call for n returned gets a newer entry, one
      that was allocated when the failed entry had already left the map. */
  lemma FreshAfterFailure(ss: seq<State>, ls: seq<Label>, i: nat, j: nat, g: Cid, c: Cid)
      returns (k: nat)
    requires IsRun(ss, ls) && i <= j < |ss|
    requires HasReturned(ss[i], g) && ss[i].calls[g].pc.outcome.Failed?
    requires !Picked(ss[i], c) && Picked(ss[j], c)
    requires ss[j].calls[c].op.name == ss[i].calls[g].op.name
    ensures var x, y := ss[i].calls[g].pc.e, ss[j].calls[c].pc.e;
      x < y && k < j && x in ss[k].sh.removed && |ss[k].sh.heap| == y
  {
    var x, y := ss[i].calls[g].pc.e, ss[j].calls[c].pc.e;
    RunInv(ss, ls, i);
    RunInv(ss, ls, j);
    RunExtends(ss, ls, i, j);
    assert CallOk(ss[i].sh, g, ss[i].calls[g]);
    assert CallOk(ss[j].sh, c, ss[j].calls[c]);
    RemovedNeverReused(ss, ls, i, j, c, x);
    k := AllocatedAfterRemoval(ss, ls, j, x, y);
  }

  lemma EvictSparesOthers(s: State, c: Cid, x: EntryId)
    requires Enabled(s, Step(c, Plain)) && s.calls[c].pc.EvictHeld? && CallOk(s.sh, c, s.calls[c])
    requires x < |s.sh.heap| && IsLive(s.sh, x) && x != s.calls[c].pc.e
    ensures var sh' := Next(s, Step(c, Plain)).sh; sh'.heap == s.sh.heap && IsLive(sh', x)
  {
  }

  /** The eviction of a failed build takes out that very entry or nothing, so a late
      failing caller never evicts a newer entry. */
  lemma LateEvictSparesOthers(ss: seq<State>, ls: seq<Label>, i: nat, c: Cid, x: EntryId)
    requires IsRun(ss, ls) && i < |ls| && ls[i] == Step(c, Plain) && ss[i].calls[c].pc.EvictHeld?
    requires x < |ss[i].sh.heap| && IsLive(ss[i].sh, x) && x != ss[i].calls[c].pc.e
    ensures x < |ss[i + 1].sh.heap| && IsLive(ss[i + 1].sh, x)
  {
    RunInv(ss, ls, i);
    assert CallOk(ss[i].sh, c, ss[i].calls[c]);
    EvictSparesOthers(ss[i], c, x);
  }

  // ---- conservation ----

  ghost function EntriesOf(sh: Shared, n: Name): set<EntryId>
  {
    set e: EntryId | e < |sh.heap| && sh.heap[e].name == n
  }

  /** How many deletes took an entry of name n out of the map. */
  ghost function Removals(removed: seq<EntryId>, heap: seq<Entry>, n: Name): nat
    requires forall i :: 0 <= i < |removed| ==> removed[i] < |heap|
  {
    if removed == [] then 0
    else
      var last := removed[|removed| - 1];
      Removals(removed[..|removed| - 1], heap, n) + (if heap[last].name == n then 1 else 0)
  }

  ghost function NamedIn(es: seq<EntryId>, heap: seq<Entry>, n: Name): set<EntryId>
  {
    set e: EntryId | e < |heap| && heap[e].name == n && e in es
  }

  lemma {:induction false} RemovalsCount(removed: seq<EntryId>, heap: seq<Entry>, n: Name)
    requires forall i :: 0 <= i < |removed| ==> removed[i] < |heap|
    requires forall i, j :: 0 <= i < j < |removed| ==> removed[i] != removed[j]
    ensures |NamedIn(removed, heap, n)| == Removals(removed, heap, n)
  {
    if removed == [] {
      assert NamedIn(removed, heap, n) == {};
    } else {
      var front, last := removed[..|removed| - 1], removed[|removed| - 1];
      RemovalsCount(front, heap, n);
      NamedInSnoc(front, heap, n, last);
      assert removed == front + [last];
      assert last !in NamedIn(front, heap, n);
    }
  }

  lemma NamedInSnoc(front: seq<EntryId>, heap: seq<Entry>, n: Name, last: EntryId)
    requires last < |heap|
    ensures NamedIn(front + [last], heap, n) == NamedIn(front, heap, n) + (if heap[last].name == n then {last} else {})
  {
    assert forall e :: e in front + [last] <==> e in front || e == last;
  }

  lemma EntriesBalance(s: State, n: Name)
    requires MapOk(s.sh)
    ensures |EntriesOf(s.sh, n)| == Removals(s.sh.removed, s.sh.heap, n) + (if n in s.sh.live then 1 else 0)
  {
    RemovalsCount(s.sh.removed, s.sh.heap, n);
    var gone := NamedIn(s.sh.removed, s.sh.heap, n);
    assert forall e: EntryId :: e < |s.sh.heap| ==> (e in s.sh.removed <==> !IsLive(s.sh, e));
    if n in s.sh.live {
      assert EntriesOf(s.sh, n) == gone + {s.sh.live[n]};
      assert IsLive(s.sh, s.sh.live[n]);
    } else {
      assert EntriesOf(s.sh, n) == gone;
    }
  }

  /** The calls that have finished building an entry of name n: one for each build. */
  ghost function BuildersOf(s: State, n: Name): set<Cid>
  {
    set c | c in s.calls && FinishedBuild(s.sh, n, c)
  }

  ghost predicate FinishedBuild(sh: Shared, n: Name, c: Cid)
  {
    exists e: EntryId :: e < |sh.heap| && sh.heap[e].name == n && sh.heap[e].once == Complete(c)
  }

  /** A map that is one to one from es onto cs. */
  lemma {:induction false} OneToOne(es: set<EntryId>, cs: set<Cid>, f: map<EntryId, Cid>)
    requires f.Keys == es && (forall c :: c in cs <==> exists e :: e in es && f[e] == c)
    requires forall d, e :: d in es && e in es && f[d] == f[e] ==> d == e
    ensures |es| == |cs|
    decreases es
  {
    if es == {} {
      assert cs == {};
    } else {
      var e :| e in es;
      forall c | c in cs - {f[e]}
        ensures exists d :: d in es - {e} && (f - {e})[d] == c
      {
        var d :| d in es && f[d] == c;
        assert d in es - {e} && (f - {e})[d] == c;
      }
      OneToOne(es - {e}, cs - {f[e]}, f - {e});
    }
  }

  lemma BuilderOfEntry(s: State, n: Name, c: Cid)
    requires forall e :: e in EntriesOf(s.sh, n) ==> s.sh.heap[e].once.Complete? && s.sh.heap[e].once.runner in s.calls
    ensures c in BuildersOf(s, n) <==> exists e :: e in EntriesOf(s.sh, n) && s.sh.heap[e].once.runner == c
  {
    if c in BuildersOf(s, n) {
      var e: EntryId :| e < |s.sh.heap| && s.sh.heap[e].name == n && s.sh.heap[e].once == Complete(c);
      assert e in EntriesOf(s.sh, n);
    }
    if exists e :: e in EntriesOf(s.sh, n) && s.sh.heap[e].once.runner == c {
      var e :| e in EntriesOf(s.sh, n) && s.sh.heap[e].once.runner == c;
      assert s.sh.heap[e].once == Complete(c);
    }
  }

  lemma QuietBuilder(s: State, e: EntryId)
    requires Inv(s) && Quiescent(s) && e < |s.sh.heap|
    ensures s.sh.heap[e].once.Complete? && s.sh.heap[e].once.runner in s.calls
    ensures HasEntry(s.calls[s.sh.heap[e].once.runner].pc) && s.calls[s.sh.heap[e].once.runner].pc.e == e
  {
    QuietAllBuilt(s, e);
    assert EntryOk(s.calls, e, s.sh.heap[e]);
  }

  lemma BuildersCount(s: State, n: Name)
    requires Inv(s) && Quiescent(s)
    ensures |BuildersOf(s, n)| == |EntriesOf(s.sh, n)|
  {
    var es := EntriesOf(s.sh, n);
    var f := map e | e in es :: s.sh.heap[e].once.runner;
    forall e | e in es
      ensures s.sh.heap[e].once.Complete? && f[e] in s.calls && HasEntry(s.calls[f[e]].pc) && s.calls[f[e]].pc.e == e
    {
      QuietBuilder(s, e);
    }
    forall c
      ensures c in BuildersOf(s, n) <==> exists e :: e in es && f[e] == c
    {
      BuilderOfEntry(s, n, c);
      assert forall e :: e in es ==> f[e] == s.sh.heap[e].once.runner;
    }
    OneToOne(es, BuildersOf(s, n), f);
  }

  /** At every moment of every run the entries created for a name equal the effective
      removals, plus one if it is cached; and when all calls have returned, the builds of
      the name equal the entries created for it. */
  lemma Conservation(ss: seq<State>, ls: seq<Label>, i: nat, n: Name)
    requires IsRun(ss, ls) && i < |ss|
    ensures var s := ss[i];
      && (forall k :: 0 <= k < |s.sh.removed| ==> s.sh.removed[k] < |s.sh.heap|)
      && |EntriesOf(s.sh, n)| == Removals(s.sh.removed, s.sh.heap, n) + (if n in s.sh.live then 1 else 0)
    ensures Quiescent(ss[i]) ==> |BuildersOf(ss[i], n)| == |EntriesOf(ss[i].sh, n)|
  {
    RunInv(ss, ls, i);
    EntriesBalance(ss[i], n);
    if Quiescent(ss[i]) { BuildersCount(ss[i], n); }
  }

  /** A call builds at most one entry and an entry has one builder, for good. */
  lemma BuiltAtMostOnce(ss: seq<State>, ls: seq<Label>, i: nat, j: nat, d: EntryId, e: EntryId)
    requires IsRun(ss, ls) && i <= j < |ss|
    requires d < |ss[i].sh.heap| && e < |ss[j].sh.heap|
    requires !ss[i].sh.heap[d].once.Idle? && !ss[j].sh.heap[e].once.Idle?
    ensures d == e <==> ss[i].sh.heap[d].once.runner == ss[j].sh.heap[e].once.runner
  {
    RunInv(ss, ls, j);
    RunExtends(ss, ls, i, j);
    assert EntryOk(ss[j].calls, d, ss[j].sh.heap[d]);
    assert EntryOk(ss[j].calls, e, ss[j].sh.heap[e]);
  }

  /** Why an entry left the map: a ForgetPeer of its name or a failed build of it. */
  ghost predicate Cause(s: State, c: Cid, x: EntryId)
  {
    && c in s.calls && x < |s.sh.heap| && s.calls[c].op.name == s.sh.heap[x].name
    && var pc := s.calls[c].pc;
    || pc.ForgetUnlock? || pc.Forgotten?
    || (PastEvict(pc) && pc.e == x && s.sh.heap[x].outcome.Some? && s.sh.heap[x].outcome.value.Failed?)
  }

  ghost predicate Caused(s: State, x: EntryId)
  {
    exists c :: Cause(s, c, x)
  }

  lemma StepCaused(s: State, l: Label, x: EntryId)
    requires Inv(s) && Enabled(s, l) && x in Next(s, l).sh.removed
    requires x in s.sh.removed ==> Caused(s, x)
    ensures Caused(Next(s, l), x)
  {
    if x in s.sh.removed {
      var c :| Cause(s, c, x);
      CauseStays(s, l, c, x);
    } else {
      NewCause(s, l, x);
    }
  }

  lemma CauseStays(s: State, l: Label, c: Cid, x: EntryId)
    requires Inv(s) && Enabled(s, l) && Cause(s, c, x)
    ensures Cause(Next(s, l), c, x)
  {
    StepOnlyGrows(s, l);
    StepEntryExtends(s, l, x);
    assert CallExtends(s.calls[c], Next(s, l).calls[c]);
  }

  lemma NewCause(s: State, l: Label, x: EntryId)
    requires Inv(s) && Enabled(s, l) && x in Next(s, l).sh.removed && x !in s.sh.removed
    ensures l.Step? && Cause(Next(s, l), l.c, x)
  {
    assert l.Step?;
    assert CallOk(s.sh, l.c, s.calls[l.c]);
  }

  lemma {:induction false} RunCaused(ss: seq<State>, ls: seq<Label>, i: nat, x: EntryId)
    requires IsRun(ss, ls) && i < |ss| && x in ss[i].sh.removed
    ensures Caused(ss[i], x)
  {
    if i > 0 {
      RunInv(ss, ls, i - 1);
      if x in ss[i - 1].sh.removed { RunCaused(ss, ls, i - 1, x); }
      StepCaused(ss[i - 1], ls[i - 1], x);
    }
  }

  /** No call for n failed or forgot it, and all of them have returned. */
  ghost predicate AllServed(s: State, n: Name)
  {
    forall d :: d in s.calls && s.calls[d].op.name == n ==>
      s.calls[d].op.Peer? && s.calls[d].pc.Returned? && s.calls[d].pc.outcome.Built?
  }

  lemma ServedNameKeepsEntry(s: State, n: Name, x: EntryId)
    requires Inv(s) && AllServed(s, n) && x < |s.sh.heap| && s.sh.heap[x].name == n
    requires x in s.sh.removed ==> Caused(s, x)
    ensures IsLive(s.sh, x)
  {
    forall d
      ensures !Cause(s, d, x)
    {
      if d in s.calls { assert CallOk(s.sh, d, s.calls[d]); }
    }
  }

  /** A name that was called, never forgotten and never failed was built exactly once,
      and every call for it returned that one client. */
  lemma ExactlyOneBuild(ss: seq<State>, ls: seq<Label>, i: nat, n: Name, c: Cid)
    requires IsRun(ss, ls) && i < |ss| && AllServed(ss[i], n)
    requires c in ss[i].calls && ss[i].calls[c].op.name == n
    ensures |EntriesOf(ss[i].sh, n)| == 1
    ensures forall d :: d in ss[i].calls && ss[i].calls[d].op.name == n ==>
      ss[i].calls[d].pc.Returned? && ss[i].calls[d].pc.outcome == ss[i].calls[c].pc.outcome
  {
    var s := ss[i];
    RunInv(ss, ls, i);
    assert CallOk(s.sh, c, s.calls[c]);
    var e := s.calls[c].pc.e;
    forall x | x in EntriesOf(s.sh, n)
      ensures Get(s.sh.live, n) == Some(x)
    {
      if x in s.sh.removed { RunCaused(ss, ls, i, x); }
      ServedNameKeepsEntry(s, n, x);
    }
    assert e in EntriesOf(s.sh, n);
    assert EntriesOf(s.sh, n) == {e};
    forall d | d in s.calls && s.calls[d].op.name == n
      ensures s.calls[d].pc.Returned? && s.calls[d].pc.outcome == s.calls[c].pc.outcome
    {
      assert CallOk(s.sh, d, s.calls[d]);
      assert s.calls[d].pc.e in EntriesOf(s.sh, n);
    }
  }
}

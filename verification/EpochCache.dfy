/** The sequential cache that PeerCache implements: six atomic actions on epochs.

    An epoch is one attempt to build the client of one name. A caller picks the
    current epoch of its name, or opens one; an epoch is settled once; a failed epoch
    can be dropped, any current epoch can be forgotten; and a caller is answered with
    the outcome its epoch was settled with. */
module EpochCache {
  import opened Base
  import opened PeerCache
  import Runs = CacheRuns

  type Epoch = nat

  datatype Spec = Spec(names: seq<Name>, current: map<Name, Epoch>, settled: map<Epoch, Outcome>,
                       picked: map<Cid, Epoch>, answered: map<Cid, Outcome>)

  datatype Action =
    | Open(c: Cid, name: Name)
    | Join(c: Cid, name: Name)
    | SettleEpoch(e: Epoch, outcome: Outcome)
    | Drop(e: Epoch)
    | ForgetName(name: Name)
    | Answer(c: Cid)
    | Skip

  predicate Can(sp: Spec, a: Action)
  {
    match a
    case Open(c, n) => c !in sp.picked && n !in sp.current
    case Join(c, n) => c !in sp.picked && n in sp.current
    case SettleEpoch(e, o) => e < |sp.names| && e !in sp.settled
    case Drop(e) =>
      && e < |sp.names| && Get(sp.current, sp.names[e]) == Some(e)
      && e in sp.settled && sp.settled[e].Failed?
    case ForgetName(n) => true
    case Answer(c) => c in sp.picked && sp.picked[c] in sp.settled && c !in sp.answered
    case Skip => true
  }

  function Do(sp: Spec, a: Action): Spec
    requires Can(sp, a)
  {
    match a
    case Open(c, n) =>
      sp.(names := sp.names + [n], current := sp.current[n := |sp.names|], picked := sp.picked[c := |sp.names|])
    case Join(c, n) => sp.(picked := sp.picked[c := sp.current[n]])
    case SettleEpoch(e, o) => sp.(settled := sp.settled[e := o])
    case Drop(e) => sp.(current := sp.current - {sp.names[e]})
    case ForgetName(n) => sp.(current := sp.current - {n})
    case Answer(c) => sp.(answered := sp.answered[c := sp.settled[sp.picked[c]]])
    case Skip => sp
  }

  const EMPTY := Spec([], map[], map[], map[], map[])

  // ---- the sequential cache is right ----

  ghost predicate SpecOk(sp: Spec)
  {
    && (forall n :: n in sp.current ==> sp.current[n] < |sp.names| && sp.names[sp.current[n]] == n)
    && (forall e :: e in sp.settled ==> e < |sp.names|)
    && (forall c :: c in sp.picked ==> sp.picked[c] < |sp.names|)
    && (forall c :: c in sp.answered ==>
          && c in sp.picked && sp.picked[c] in sp.settled
          && sp.answered[c] == sp.settled[sp.picked[c]])
  }

  lemma DoOk(sp: Spec, a: Action)
    requires SpecOk(sp) && Can(sp, a)
    ensures SpecOk(Do(sp, a))
  {
  }

  ghost predicate IsSpecRun(sps: seq<Spec>, acts: seq<Action>)
  {
    && |sps| == |acts| + 1
    && sps[0] == EMPTY
    && forall i :: 0 <= i < |acts| ==> Can(sps[i], acts[i]) && sps[i + 1] == Do(sps[i], acts[i])
  }

  lemma {:induction false} SpecRunOk(sps: seq<Spec>, acts: seq<Action>, i: nat)
    requires IsSpecRun(sps, acts) && i < |sps|
    ensures SpecOk(sps[i])
  {
    if i > 0 {
      SpecRunOk(sps, acts, i - 1);
      DoOk(sps[i - 1], acts[i - 1]);
    }
  }

  /** Epoch names, picks, settlements and answers are written once. */
  ghost predicate OnlyGrows(sp: Spec, sp': Spec)
  {
    && sp.names <= sp'.names
    && (forall e :: e in sp.settled ==> e in sp'.settled && sp'.settled[e] == sp.settled[e])
    && (forall c :: c in sp.picked ==> c in sp'.picked && sp'.picked[c] == sp.picked[c])
    && (forall c :: c in sp.answered ==> c in sp'.answered && sp'.answered[c] == sp.answered[c])
  }

  lemma DoOnlyGrows(sp: Spec, a: Action)
    requires Can(sp, a)
    ensures OnlyGrows(sp, Do(sp, a))
  {
  }

  lemma OnlyGrowsTransitive(a: Spec, b: Spec, c: Spec)
    requires OnlyGrows(a, b) && OnlyGrows(b, c)
    ensures OnlyGrows(a, c)
  {
  }

  lemma {:induction false} SpecRunOnlyGrows(sps: seq<Spec>, acts: seq<Action>, i: nat, j: nat)
    requires IsSpecRun(sps, acts) && i <= j < |sps|
    ensures OnlyGrows(sps[i], sps[j])
  {
    if i < j {
      SpecRunOnlyGrows(sps, acts, i, j - 1);
      DoOnlyGrows(sps[j - 1], acts[j - 1]);
      OnlyGrowsTransitive(sps[i], sps[j - 1], sps[j]);
    }
  }

  // ---- the refinement ----

  /** The spec state an observer of the interleaved cache sees. It is determined by s. */
  ghost predicate Sees(s: State, sp: Spec)
  {
    && SeesEntries(s.sh, sp)
    && SeesCalls(s.calls, sp)
  }

  ghost predicate SeesEntries(sh: Shared, sp: Spec)
  {
    && sp.current == sh.live
    && |sp.names| == |sh.heap|
    && (forall e: EntryId :: e < |sh.heap| ==> sp.names[e] == sh.heap[e].name)
    && (forall e: EntryId :: e in sp.settled <==> e < |sh.heap| && sh.heap[e].outcome.Some?)
    && (forall e: EntryId :: e in sp.settled ==> sh.heap[e].outcome == Some(sp.settled[e]))
  }

  ghost predicate SeesCalls(calls: map<Cid, Call>, sp: Spec)
  {
    && (forall c :: c in sp.picked <==> c in calls && HasEntry(calls[c].pc))
    && (forall c :: c in sp.picked ==> sp.picked[c] == calls[c].pc.e)
    && (forall c :: c in sp.answered <==> c in calls && calls[c].pc.Returned?)
    && (forall c :: c in sp.answered ==> sp.answered[c] == calls[c].pc.outcome)
  }

  /** The atomic action a step of the interleaved cache performs, if any. */
  function ActionOf(s: State, l: Label): Action
    requires Enabled(s, l)
  {
    if !l.Step? then Skip
    else
      var op := s.calls[l.c].op;
      match s.calls[l.c].pc
      case LookupHeld => if op.name in s.sh.live then Join(l.c, op.name) else Open(l.c, op.name)
      case Validate(e) => if l.choice.Refuse? then SettleEpoch(e, Failed(l.choice.error)) else Skip
      case LookupPeer(e) => if l.choice.Refuse? then SettleEpoch(e, Failed(l.choice.error)) else Skip
      case Resolve(e) =>
        if l.choice.Refuse? then SettleEpoch(e, Failed(l.choice.error))
        else SettleEpoch(e, Built(Client(l.choice.id, op.config), l.choice.card))
      case EvictHeld(e) => if Get(s.sh.live, op.name) == Some(e) then Drop(e) else Skip
      case ForgetHeld => ForgetName(op.name)
      case Return(_) => Answer(l.c)
      case _ => Skip
  }

  predicate Settling(pc: Pc)
  {
    pc.Validate? || pc.LookupPeer? || pc.Resolve?
  }

  /** The only part of the cache's invariant the refinement needs. */
  ghost predicate ActorOk(s: State, l: Label)
    requires Enabled(s, l)
  {
    l.Step? ==> CallOk(s.sh, l.c, s.calls[l.c])
  }

  lemma InvActorOk(s: State, l: Label)
    requires Inv(s) && Enabled(s, l)
    ensures ActorOk(s, l)
  {
  }

  lemma StepCan(s: State, l: Label, sp: Spec)
    requires Enabled(s, l) && ActorOk(s, l) && Sees(s, sp)
    ensures Can(sp, ActionOf(s, l))
  {
    if l.Step? {
      var pc := s.calls[l.c].pc;
      assert CallOk(s.sh, l.c, s.calls[l.c]);
      if pc.LookupHeld? {
        assert l.c !in sp.picked;
      } else if Settling(pc) {
        assert pc.e !in sp.settled;
      } else if pc.EvictHeld? {
        assert pc.e in sp.settled;
      } else if pc.Return? {
        assert l.c in sp.picked && sp.picked[l.c] in sp.settled && l.c !in sp.answered;
      }
    }
  }

  lemma InsertEntries(s: State, l: Label, sp: Spec)
    requires Enabled(s, l) && ActorOk(s, l) && Sees(s, sp) && l.Step? && s.calls[l.c].pc.LookupHeld?
    requires Can(sp, ActionOf(s, l))
    ensures SeesEntries(Next(s, l).sh, Do(sp, ActionOf(s, l)))
  {
    assert Next(s, l).sh == FindOrInsert(s.sh, s.calls[l.c].op.name, l.c).0;
  }

  lemma InsertCalls(s: State, l: Label, sp: Spec)
    requires Enabled(s, l) && ActorOk(s, l) && Sees(s, sp) && l.Step? && s.calls[l.c].pc.LookupHeld?
    requires Can(sp, ActionOf(s, l))
    ensures SeesCalls(Next(s, l).calls, Do(sp, ActionOf(s, l)))
  {
    var e := FindOrInsert(s.sh, s.calls[l.c].op.name, l.c).1;
    assert Next(s, l).calls == s.calls[l.c := s.calls[l.c].(pc := LookupUnlock(e))];
    assert Do(sp, ActionOf(s, l)).picked == sp.picked[l.c := e];
  }

  lemma SettleEntries(s: State, l: Label, sp: Spec)
    requires Enabled(s, l) && ActorOk(s, l) && Sees(s, sp) && l.Step? && Settling(s.calls[l.c].pc)
    requires Can(sp, ActionOf(s, l))
    ensures SeesEntries(Next(s, l).sh, Do(sp, ActionOf(s, l)))
  {
    var e, sp' := s.calls[l.c].pc.e, Do(sp, ActionOf(s, l));
    assert CallOk(s.sh, l.c, s.calls[l.c]);
    if ActionOf(s, l).Skip? {
      assert Next(s, l).sh == s.sh;
    } else {
      assert Next(s, l).sh == Settle(s.sh, e, ActionOf(s, l).outcome);
      assert sp' == sp.(settled := sp.settled[e := ActionOf(s, l).outcome]);
    }
  }

  lemma RemoveEntries(s: State, l: Label, sp: Spec)
    requires Enabled(s, l) && ActorOk(s, l) && Sees(s, sp) && l.Step?
    requires s.calls[l.c].pc.EvictHeld? || s.calls[l.c].pc.ForgetHeld?
    requires Can(sp, ActionOf(s, l))
    ensures SeesEntries(Next(s, l).sh, Do(sp, ActionOf(s, l)))
  {
    var sp' := Do(sp, ActionOf(s, l));
    assert sp'.names == sp.names && sp'.settled == sp.settled;
    assert sp'.current == Next(s, l).sh.live;
  }

  /** A step that hands out no entry and returns to no caller. */
  predicate Silent(s: State, l: Label)
    requires Enabled(s, l)
  {
    l.Step? ==> !s.calls[l.c].pc.LookupHeld? && !s.calls[l.c].pc.Return?
  }

  lemma SilentPc(s: State, l: Label)
    requires Enabled(s, l) && !l.Elsewhere? && Silent(s, l)
    ensures l.c in Next(s, l).calls
    ensures var pc' := Next(s, l).calls[l.c].pc;
      && Next(s, l).calls == s.calls[l.c := Next(s, l).calls[l.c]]
      && !pc'.Returned? && (l.c in s.calls ==> !s.calls[l.c].pc.Returned?)
      && (HasEntry(pc') <==> l.c in s.calls && HasEntry(s.calls[l.c].pc))
      && (HasEntry(pc') ==> pc'.e == s.calls[l.c].pc.e)
  {
  }

  lemma SilentCalls(s: State, l: Label, sp: Spec)
    requires Enabled(s, l) && Silent(s, l) && SeesCalls(s.calls, sp)
    requires Can(sp, ActionOf(s, l))
    ensures SeesCalls(Next(s, l).calls, Do(sp, ActionOf(s, l)))
  {
    var sp' := Do(sp, ActionOf(s, l));
    assert sp'.picked == sp.picked && sp'.answered == sp.answered;
    if !l.Elsewhere? { SilentPc(s, l); }
  }

  predicate Quiet(pc: Pc)
  {
    !pc.LookupHeld? && !Settling(pc) && !pc.EvictHeld? && !pc.ForgetHeld?
  }

  lemma QuietEntries(s: State, l: Label, sp: Spec)
    requires Enabled(s, l) && ActorOk(s, l) && Sees(s, sp)
    requires l.Step? ==> Quiet(s.calls[l.c].pc)
    requires Can(sp, ActionOf(s, l))
    ensures SeesEntries(Next(s, l).sh, Do(sp, ActionOf(s, l)))
  {
    var sp' := Do(sp, ActionOf(s, l));
    assert sp'.names == sp.names && sp'.current == sp.current && sp'.settled == sp.settled;
  }

  lemma ReturnCalls(s: State, l: Label, sp: Spec)
    requires Enabled(s, l) && ActorOk(s, l) && Sees(s, sp) && l.Step? && s.calls[l.c].pc.Return?
    requires Can(sp, ActionOf(s, l))
    ensures SeesCalls(Next(s, l).calls, Do(sp, ActionOf(s, l)))
  {
  }

  lemma StepSees(s: State, l: Label, sp: Spec)
    requires Enabled(s, l) && ActorOk(s, l) && Sees(s, sp) && Can(sp, ActionOf(s, l))
    ensures Sees(Next(s, l), Do(sp, ActionOf(s, l)))
  {
    if l.Step? && s.calls[l.c].pc.LookupHeld? {
      InsertEntries(s, l, sp);
      InsertCalls(s, l, sp);
    } else {
      if l.Step? && Settling(s.calls[l.c].pc) {
        SettleEntries(s, l, sp);
      } else if l.Step? && !Quiet(s.calls[l.c].pc) {
        RemoveEntries(s, l, sp);
      } else {
        QuietEntries(s, l, sp);
      }
      if l.Step? && s.calls[l.c].pc.Return? {
        ReturnCalls(s, l, sp);
      } else {
        SilentCalls(s, l, sp);
      }
    }
  }

  lemma RefineStep(ss: seq<State>, ls: seq<Label>, k: nat, sp: Spec)
    requires Runs.IsRun(ss, ls) && k < |ls| && Sees(ss[k], sp)
    ensures var a := ActionOf(ss[k], ls[k]); Can(sp, a) && Sees(ss[k + 1], Do(sp, a))
  {
    Runs.RunInv(ss, ls, k);
    InvActorOk(ss[k], ls[k]);
    StepCan(ss[k], ls[k], sp);
    StepSees(ss[k], ls[k], sp);
  }

  /** sps and acts account for the first k steps of the interleaved run. */
  ghost predicate Simulates(ss: seq<State>, ls: seq<Label>, k: nat, sps: seq<Spec>, acts: seq<Action>)
    requires Runs.IsRun(ss, ls) && k <= |ls|
  {
    && |acts| == k && IsSpecRun(sps, acts)
    && (forall i :: 0 <= i <= k ==> Sees(ss[i], sps[i]))
    && (forall i :: 0 <= i < k ==> acts[i] == ActionOf(ss[i], ls[i]))
  }

  lemma SpecRunSnoc(sps: seq<Spec>, acts: seq<Action>, a: Action)
    requires IsSpecRun(sps, acts) && Can(sps[|acts|], a)
    ensures IsSpecRun(sps + [Do(sps[|acts|], a)], acts + [a])
  {
    var sps', acts' := sps + [Do(sps[|acts|], a)], acts + [a];
    forall i | 0 <= i < |acts'|
      ensures Can(sps'[i], acts'[i]) && sps'[i + 1] == Do(sps'[i], acts'[i])
    {
      if i < |acts| { assert sps'[i] == sps[i] && sps'[i + 1] == sps[i + 1] && acts'[i] == acts[i]; }
    }
  }

  lemma SimulatesSnoc(ss: seq<State>, ls: seq<Label>, k: nat, sps: seq<Spec>, acts: seq<Action>, sp: Spec, a: Action)
    requires Runs.IsRun(ss, ls) && k < |ls| && Simulates(ss, ls, k, sps, acts)
    requires IsSpecRun(sps + [sp], acts + [a]) && a == ActionOf(ss[k], ls[k]) && Sees(ss[k + 1], sp)
    ensures Simulates(ss, ls, k + 1, sps + [sp], acts + [a])
  {
    forall i | 0 <= i <= k + 1
      ensures Sees(ss[i], (sps + [sp])[i])
    {
      if i <= k { assert (sps + [sp])[i] == sps[i] && Sees(ss[i], sps[i]); }
    }
    forall i | 0 <= i < k + 1
      ensures (acts + [a])[i] == ActionOf(ss[i], ls[i])
    {
      if i < k { assert (acts + [a])[i] == acts[i]; }
    }
  }

  lemma StartSimulates(ss: seq<State>, ls: seq<Label>)
    requires Runs.IsRun(ss, ls)
    ensures Simulates(ss, ls, 0, [EMPTY], [])
  {
  }

  lemma {:induction false} RefinesUpTo(ss: seq<State>, ls: seq<Label>, k: nat) returns (sps: seq<Spec>, acts: seq<Action>)
    requires Runs.IsRun(ss, ls) && k <= |ls|
    ensures Simulates(ss, ls, k, sps, acts)
  {
    if k == 0 {
      StartSimulates(ss, ls);
      sps, acts := [EMPTY], [];
    } else {
      sps, acts := RefinesUpTo(ss, ls, k - 1);
      RefineStep(ss, ls, k - 1, sps[k - 1]);
      var a := ActionOf(ss[k - 1], ls[k - 1]);
      SpecRunSnoc(sps, acts, a);
      SimulatesSnoc(ss, ls, k - 1, sps, acts, Do(sps[k - 1], a), a);
      sps, acts := sps + [Do(sps[k - 1], a)], acts + [a];
    }
  }

  /** Every interleaving of any number of calls is a run of the sequential cache. */
  lemma Refines(ss: seq<State>, ls: seq<Label>) returns (sps: seq<Spec>, acts: seq<Action>)
    requires Runs.IsRun(ss, ls)
    ensures IsSpecRun(sps, acts) && |sps| == |ss|
    ensures forall i :: 0 <= i < |ss| ==> Sees(ss[i], sps[i])
    ensures forall i :: 0 <= i < |ls| ==> acts[i] == ActionOf(ss[i], ls[i])
  {
    sps, acts := RefinesUpTo(ss, ls, |ls|);
  }

  /** The spec run accounts for the whole interleaved run, moment by moment. */
  ghost predicate Explains(ss: seq<State>, sps: seq<Spec>, acts: seq<Action>)
  {
    && IsSpecRun(sps, acts) && |sps| == |ss|
    && forall k :: 0 <= k < |ss| ==> Sees(ss[k], sps[k])
  }

  /** A completed call returns the one outcome its epoch was ever settled with, the epoch
      being the one its lookup step joined or opened, and that epoch has the call's name. */
  lemma AnswersAreTheEpochs(ss: seq<State>, ls: seq<Label>, i: nat, j: nat, c: Cid)
      returns (sps: seq<Spec>, acts: seq<Action>)
    requires Runs.IsRun(ss, ls) && i <= j < |ss|
    requires Runs.Picked(ss[i], c) && Runs.HasReturned(ss[j], c)
    ensures Explains(ss, sps, acts)
    ensures c in sps[i].picked && c in sps[j].answered
    ensures var e := sps[i].picked[c];
      && e < |sps[j].names| && sps[j].names[e] == ss[j].calls[c].op.name
      && e in sps[j].settled && sps[j].settled[e] == ss[j].calls[c].pc.outcome
  {
    sps, acts := Refines(ss, ls);
    SpecRunOnlyGrows(sps, acts, i, j);
    SpecRunOk(sps, acts, j);
    Runs.RunInv(ss, ls, j);
    assert Sees(ss[i], sps[i]) && Sees(ss[j], sps[j]);
    assert CallOk(ss[j].sh, c, ss[j].calls[c]);
  }

  lemma SettledOnce(sps: seq<Spec>, acts: seq<Action>, i: nat, j: nat, e: Epoch)
    requires IsSpecRun(sps, acts) && i < |sps| && j < |sps| && e in sps[i].settled && e in sps[j].settled
    ensures sps[i].settled[e] == sps[j].settled[e] && e < |sps[i].names| && e < |sps[j].names|
    ensures sps[i].names[e] == sps[j].names[e]
  {
    SpecRunOk(sps, acts, i);
    SpecRunOk(sps, acts, j);
    if i <= j { SpecRunOnlyGrows(sps, acts, i, j); } else { SpecRunOnlyGrows(sps, acts, j, i); }
  }

  /** Two callers of one epoch, returning at whatever moments, asked for the same name and
      are given the same answer. */
  lemma OneEpochOneAnswer(ss: seq<State>, ls: seq<Label>, i: nat, j: nat, c: Cid, d: Cid)
      returns (sps: seq<Spec>, acts: seq<Action>)
    requires Runs.IsRun(ss, ls) && i < |ss| && j < |ss|
    requires Runs.HasReturned(ss[i], c) && Runs.HasReturned(ss[j], d)
    ensures Explains(ss, sps, acts)
    ensures c in sps[i].picked && d in sps[j].picked
    ensures sps[i].picked[c] == sps[j].picked[d] ==>
      && ss[i].calls[c].pc.outcome == ss[j].calls[d].pc.outcome
      && ss[i].calls[c].op.name == ss[j].calls[d].op.name
  {
    sps, acts := Refines(ss, ls);
    assert Sees(ss[i], sps[i]) && Sees(ss[j], sps[j]);
    SpecRunOk(sps, acts, i);
    SpecRunOk(sps, acts, j);
    Runs.RunInv(ss, ls, i);
    Runs.RunInv(ss, ls, j);
    assert CallOk(ss[i].sh, c, ss[i].calls[c]) && CallOk(ss[j].sh, d, ss[j].calls[d]);
    if sps[i].picked[c] == sps[j].picked[d] { SettledOnce(sps, acts, i, j, sps[i].picked[c]); }
  }
}

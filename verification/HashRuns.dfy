/** Whole-run properties of the peer-hashes file: what any read can see, no lost
    updates, the clear before every write, and runs in which nothing breaks. */
module HashRuns {
  import opened Base
  import AF = AtomicFile
  import opened HashFile

  ghost predicate IsRun(env: Env, ss: seq<State>, ls: seq<Label>)
  {
    && |ss| == |ls| + 1
    && Init(env, ss[0])
    && forall i :: 0 <= i < |ls| ==> Enabled(env, ss[i], ls[i]) && ss[i + 1] == Next(env, ss[i], ls[i])
  }

  lemma {:induction false} RunInv(env: Env, ss: seq<State>, ls: seq<Label>, i: nat)
    requires Faithful(env) && IsRun(env, ss, ls) && i < |ss|
    ensures Inv(env, ss[i])
  {
    if i == 0 {
      InitInv(env, ss[0]);
    } else {
      RunInv(env, ss, ls, i - 1);
      NextInv(env, ss[i - 1], ls[i - 1]);
    }
  }

  // ---- what only grows ----

  ghost predicate Extends(s: State, t: State)
  {
    && s.log <= t.log
    && t.stale == s.stale
    && (s.base.Some? ==> t.base == s.base)
    && (s.faulty ==> t.faulty)
    && (forall r :: r in s.recs ==> r in t.recs && RecExtends(s.recs[r], t.recs[r]))
  }

  ghost predicate RecExtends(rec: Rec, rec': Rec)
  {
    rec'.name == rec.name && rec'.card == rec.card && (rec.pc.Done? ==> rec' == rec)
  }

  lemma StepExtends(env: Env, s: State, l: Label)
    requires OnceOk(s) && Enabled(env, s, l)
    ensures Extends(s, Next(env, s, l))
  {
  }

  lemma ExtendsTransitive(s: State, t: State, u: State)
    requires Extends(s, t) && Extends(t, u)
    ensures Extends(s, u)
  {
    forall r | r in s.recs
      ensures r in u.recs && RecExtends(s.recs[r], u.recs[r])
    {
      assert RecExtends(s.recs[r], t.recs[r]) && RecExtends(t.recs[r], u.recs[r]);
    }
  }

  lemma RunStepExtends(env: Env, ss: seq<State>, ls: seq<Label>, k: nat)
    requires Faithful(env) && IsRun(env, ss, ls) && k < |ls|
    ensures Extends(ss[k], ss[k + 1])
  {
    RunInv(env, ss, ls, k);
    StepExtends(env, ss[k], ls[k]);
  }

  lemma RunExtendsSnoc(env: Env, ss: seq<State>, ls: seq<Label>, i: nat, j: nat)
    requires Faithful(env) && IsRun(env, ss, ls) && i <= j < |ls| && Extends(ss[i], ss[j])
    ensures Extends(ss[i], ss[j + 1])
  {
    RunStepExtends(env, ss, ls, j);
    ExtendsTransitive(ss[i], ss[j], ss[j + 1]);
  }

  lemma {:induction false} RunExtends(env: Env, ss: seq<State>, ls: seq<Label>, i: nat, j: nat)
    requires Faithful(env) && IsRun(env, ss, ls) && i <= j < |ss|
    ensures Extends(ss[i], ss[j])
  {
    if i < j {
      RunExtends(env, ss, ls, i, j - 1);
      RunExtendsSnoc(env, ss, ls, i, j - 1);
    }
  }

  // ---- what a reader can see ----

  /** The index of the last committed update of a name. */
  ghost function LastFor(log: seq<Commit>, n: Name): (r: Option<nat>)
    ensures r.Some? ==> r.value < |log| && log[r.value].name == n
    ensures r.Some? ==> forall i :: r.value < i < |log| ==> log[i].name != n
    ensures r.None? ==> forall i :: 0 <= i < |log| ==> log[i].name != n
  {
    if log == [] then None
    else if log[|log| - 1].name == n then Some(|log| - 1)
    else LastFor(log[..|log| - 1], n)
  }

  /** In the folded map every name carries its last committed item, else its old one. */
  lemma {:induction false} FoldLast(d: Doc, log: seq<Commit>, n: Name)
    ensures Get(Fold(d, log), n) ==
      if LastFor(log, n).Some? then Some(log[LastFor(log, n).value].item) else Get(d, n)
  {
    if log != [] {
      FoldLast(d, log[..|log| - 1], n);
    }
  }

  /** The broker, reading at any moment of any run, finds the file the previous process
      left (before the clear), or no file, or one whole committed prefix of the updates:
      never a torn file, never an update without those committed before it. */
  lemma EveryReadIsWhole(env: Env, ss: seq<State>, ls: seq<Label>, i: nat)
    requires Faithful(env) && IsRun(env, ss, ls) && i < |ss|
    ensures var seen := Get(ss[i].fs, env.path);
      if ss[i].log == [] then seen == None || seen == Get(ss[0].fs, env.path)
      else
        && ss[i].base.Some? && DocOf(env, ss[i].base.value).Some?
        && seen.Some?
        && env.decode(seen.value) == Some(Fold(DocOf(env, ss[i].base.value).value, ss[i].log))
  {
    RunInv(env, ss, ls, i);
    RunExtends(env, ss, ls, 0, i);
    if ss[i].log != [] {
      var d := Fold(DocOf(env, ss[i].base.value).value, ss[i].log);
      assert env.decode(env.encode(d)) == Some(d);
    }
  }

  predicate IsCommit(s: State, l: Label)
  {
    l.Step? && l.r in s.recs && Commits(s.recs[l.r].pc, l.choice)
  }

  lemma CommitStep(env: Env, s: State, l: Label)
    requires Inv(env, s) && Enabled(env, s, l) && Next(env, s, l).log != s.log
    ensures IsCommit(s, l) && s.mu == Some(l.r) && Next(env, s, l).mu == Some(l.r)
    ensures Next(env, s, l).log == s.log + [Commit(l.r, s.recs[l.r].name, s.recs[l.r].pc.item)]
  {
  }

  /** Updates are committed under peerHashesMu, one rename at a time, so the log order is
      the lock order; and no recorder commits twice. */
  lemma CommitsUnderLock(env: Env, ss: seq<State>, ls: seq<Label>, i: nat)
    requires Faithful(env) && IsRun(env, ss, ls) && i < |ls| && ss[i + 1].log != ss[i].log
    ensures IsCommit(ss[i], ls[i]) && ss[i].mu == Some(ls[i].r) && ss[i + 1].mu == Some(ls[i].r)
    ensures |ss[i + 1].log| == |ss[i].log| + 1 && ss[i].log <= ss[i + 1].log
    ensures ss[i + 1].log[|ss[i].log|].r == ls[i].r
    ensures !LoggedBy(ss[i].log, ls[i].r)
  {
    RunInv(env, ss, ls, i);
    CommitStep(env, ss[i], ls[i]);
    assert RecOk(env, ss[i], ls[i].r, ss[i].recs[ls[i].r]);
  }

  /** No lost update. A recorder that returned nil has its update in the log, in every
      later state, and the file then shows, for its name, that update or a later
      committed one of the same name. */
  lemma NoLostUpdate(env: Env, ss: seq<State>, ls: seq<Label>, i: nat, j: nat, r: Cid) returns (k: nat, m: nat)
    requires Faithful(env) && IsRun(env, ss, ls) && i <= j < |ss|
    requires env.inCluster && r in ss[i].recs && ss[i].recs[r].pc == Done(true)
    ensures k <= m < |ss[j].log| && ss[j].log[k].r == r
    ensures ss[j].log[k].name == ss[j].log[m].name == ss[i].recs[r].name
    ensures Get(ss[j].fs, env.path).Some?
    ensures var seen := env.decode(Get(ss[j].fs, env.path).value);
      seen.Some? && Get(seen.value, ss[i].recs[r].name) == Some(ss[j].log[m].item)
  {
    RunInv(env, ss, ls, i);
    RunInv(env, ss, ls, j);
    RunExtends(env, ss, ls, i, j);
    EveryReadIsWhole(env, ss, ls, j);
    assert RecOk(env, ss[i], r, ss[i].recs[r]);
    k :| 0 <= k < |ss[i].log| && ss[i].log[k].r == r;
    assert CommitOf(env, ss[i].log[k], ss[i].recs[r]);
    assert ss[j].log[k] == ss[i].log[k];
    m := LastFor(ss[j].log, ss[i].recs[r].name).value;
    FoldLast(DocOf(env, ss[j].base.value).value, ss[j].log, ss[i].recs[r].name);
  }

  // ---- when it was observed ----

  /** What the recorder carries of its item. */
  function ItemOf(pc: Pc): Option<Item>
  {
    match pc
    case Begin => None
    case InitEnter(item) => Some(item)
    case InitRemove(item) => Some(item)
    case InitExit(item) => Some(item)
    case LockWait(item) => Some(item)
    case Reading(item) => Some(item)
    case Writing(item, _, _) => Some(item)
    case Unlocking(item, _) => Some(item)
    case Done(_) => None
  }

  /** Step k is the one at which recorder r reads the clock, and it reads t. */
  predicate ReadsClock(s: State, l: Label, r: Cid, t: int)
  {
    l == Step(r, Clock(t)) && r in s.recs && s.recs[r].pc.Begin?
  }

  ghost predicate ReadClockBefore(ss: seq<State>, ls: seq<Label>, i: nat, r: Cid, t: int)
    requires i <= |ls| < |ss|
  {
    exists k :: 0 <= k < i && ReadsClock(ss[k], ls[k], r, t)
  }

  lemma StepItem(env: Env, s: State, l: Label, r: Cid)
    requires Enabled(env, s, l) && r in Next(env, s, l).recs && ItemOf(Next(env, s, l).recs[r].pc).Some?
    ensures r in s.recs
    ensures ItemOf(s.recs[r].pc) == ItemOf(Next(env, s, l).recs[r].pc)
         || ReadsClock(s, l, r, ItemOf(Next(env, s, l).recs[r].pc).value.observedAt)
  {
  }

  lemma {:induction false} ItemSawClock(env: Env, ss: seq<State>, ls: seq<Label>, i: nat, r: Cid)
    requires IsRun(env, ss, ls) && i < |ss| && r in ss[i].recs && ItemOf(ss[i].recs[r].pc).Some?
    ensures ReadClockBefore(ss, ls, i, r, ItemOf(ss[i].recs[r].pc).value.observedAt)
  {
    if i > 0 {
      StepItem(env, ss[i - 1], ls[i - 1], r);
      if ItemOf(ss[i - 1].recs[r].pc) == ItemOf(ss[i].recs[r].pc) {
        ItemSawClock(env, ss, ls, i - 1, r);
        var k :| 0 <= k < i - 1 && ReadsClock(ss[k], ls[k], r, ItemOf(ss[i].recs[r].pc).value.observedAt);
      }
    }
  }

  /** The moment a committed item says it was observed is what the clock said when its
      recorder had hashed the card: before it waited for the clear or for the lock, so
      later records can carry earlier moments. */
  lemma {:induction false} ObservedAtClock(env: Env, ss: seq<State>, ls: seq<Label>, i: nat, m: nat)
    requires Faithful(env) && IsRun(env, ss, ls) && i < |ss| && m < |ss[i].log|
    ensures ReadClockBefore(ss, ls, i, ss[i].log[m].r, ss[i].log[m].item.observedAt)
  {
    if i > 0 {
      RunInv(env, ss, ls, i - 1);
      if m < |ss[i - 1].log| {
        RunStepExtends(env, ss, ls, i - 1);
        ObservedAtClock(env, ss, ls, i - 1, m);
        var k :| 0 <= k < i - 1 && ReadsClock(ss[k], ls[k], ss[i].log[m].r, ss[i].log[m].item.observedAt);
      } else {
        CommitStep(env, ss[i - 1], ls[i - 1]);
        var r := ls[i - 1].r;
        ItemSawClock(env, ss, ls, i - 1, r);
        var k :| 0 <= k < i - 1 && ReadsClock(ss[k], ls[k], r, ss[i - 1].recs[r].pc.item.observedAt);
      }
    }
  }

  // ---- the clear ----

  predicate IsClear(s: State, l: Label)
  {
    l.Step? && l.r in s.recs && s.recs[l.r].pc.InitRemove?
  }

  /** The stale file is cleared at most once per process and before any update is
      published, though the clear runs outside peerHashesMu. */
  lemma ClearOnceAndFirst(env: Env, ss: seq<State>, ls: seq<Label>, i: nat, j: nat)
    requires Faithful(env) && IsRun(env, ss, ls) && i < |ls| && j < |ls|
    requires IsClear(ss[i], ls[i])
    ensures IsClear(ss[j], ls[j]) ==> i == j
    ensures IsCommit(ss[j], ls[j]) ==> i < j
  {
    RunInv(env, ss, ls, i);
    RunInv(env, ss, ls, j);
    if i < j {
      RunExtends(env, ss, ls, i + 1, j);
    } else if j < i {
      RunExtends(env, ss, ls, j + 1, i);
    }
  }

  /** If the clear took effect, every entry a reader finds is the name and card hash of
      one of this process's recorders: nothing of the previous process is left. */
  lemma EntriesAreOwn(env: Env, ss: seq<State>, ls: seq<Label>, i: nat, n: Name) returns (r: Cid)
    requires Faithful(env) && IsRun(env, ss, ls) && i < |ss| && ss[i].base == Some(None)
    requires var seen := DocOf(env, Get(ss[i].fs, env.path)); seen.Some? && n in seen.value
    ensures r in ss[i].recs && ss[i].recs[r].name == n && Recorded(ss[i].recs[r].pc)
    ensures env.hash(ss[i].recs[r].card) == Some(DocOf(env, Get(ss[i].fs, env.path)).value[n].hash)
  {
    RunInv(env, ss, ls, i);
    CurrentDoc(env, Get(ss[i].fs, env.path), None, ss[i].log);
    FoldLast(map[], ss[i].log, n);
    var k := LastFor(ss[i].log, n).value;
    r := ss[i].log[k].r;
    assert CommitOf(env, ss[i].log[k], ss[i].recs[r]);
  }

  // ---- runs in which nothing breaks ----

  /** No operation of this recorder has failed. */
  predicate Unbroken(pc: Pc)
  {
    match pc
    case Writing(_, _, w) => !w.CloseBroken? && !w.RemoveTemp? && w != AF.Written(false)
    case Unlocking(_, ok) => ok
    case Done(ok) => ok
    case _ => true
  }

  ghost predicate CleanOk(s: State)
  {
    !s.faulty ==>
      && (s.base.Some? ==> s.base == Some(None))
      && forall r :: r in s.recs ==> Unbroken(s.recs[r].pc)
  }

  lemma StepCleanOk(env: Env, s: State, l: Label)
    requires Faithful(env) && Inv(env, s) && CleanOk(s) && Enabled(env, s, l)
    ensures CleanOk(Next(env, s, l))
  {
    var s' := Next(env, s, l);
    if l.Step? && !s'.faulty {
      var pc := s.recs[l.r].pc;
      assert RecOk(env, s, l.r, s.recs[l.r]);
      if pc.Reading? {
        if s.log != [] {
          var d := Fold(DocOf(env, s.base.value).value, s.log);
          assert env.decode(env.encode(d)) == Some(d);
        }
        assert DocOf(env, Get(s.fs, env.path)).Some?;
      }
      assert Unbroken(s'.recs[l.r].pc);
    }
  }

  lemma {:induction false} RunCleanOk(env: Env, ss: seq<State>, ls: seq<Label>, i: nat)
    requires Faithful(env) && IsRun(env, ss, ls) && i < |ss|
    ensures CleanOk(ss[i])
  {
    if i > 0 {
      RunCleanOk(env, ss, ls, i - 1);
      RunInv(env, ss, ls, i - 1);
      StepCleanOk(env, ss[i - 1], ls[i - 1]);
    }
  }

  /** If nothing broke, every recorder that returned has published its card's hash. */
  lemma CleanRunPublishes(env: Env, ss: seq<State>, ls: seq<Label>, i: nat, r: Cid)
    requires Faithful(env) && IsRun(env, ss, ls) && i < |ss| && !ss[i].faulty && env.inCluster
    requires r in ss[i].recs && ss[i].recs[r].pc.Done?
    ensures ss[i].recs[r].pc.ok
    ensures var seen := DocOf(env, Get(ss[i].fs, env.path));
      seen.Some? && ss[i].recs[r].name in seen.value
  {
    RunCleanOk(env, ss, ls, i);
    RunInv(env, ss, ls, i);
    assert Unbroken(ss[i].recs[r].pc);
    var k, m := NoLostUpdate(env, ss, ls, i, i, r);
  }
}

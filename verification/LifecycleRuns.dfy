/** What Start guarantees on every path: nothing leaks, nothing blocks, nil means a clean
    shutdown, and readiness goes down before the listeners do. */
module LifecycleRuns {
  import opened Base
  import opened Lifecycle

  ghost predicate IsRun(cfg: Config, ss: seq<State>, ls: seq<Label>)
  {
    && |ss| == |ls| + 1
    && Init(cfg, ss[0])
    && forall i :: 0 <= i < |ls| ==> Enabled(ss[i], ls[i]) && ss[i + 1] == Next(cfg, ss[i], ls[i])
  }

  lemma {:induction false} RunInv(cfg: Config, ss: seq<State>, ls: seq<Label>, i: nat)
    requires IsRun(cfg, ss, ls) && i < |ss|
    ensures Inv(ss[i])
  {
    if i == 0 {
      InitInv(cfg, ss[0]);
    } else {
      RunInv(cfg, ss, ls, i - 1);
      NextInv(cfg, ss[i - 1], ls[i - 1]);
    }
  }

  /** How many messages a goroutine sent. */
  ghost function SentBy(ms: seq<Msg>, side: Side): nat
  {
    if ms == [] then 0 else SentBy(ms[..|ms| - 1], side) + (if ms[|ms| - 1].side == side then 1 else 0)
  }

  lemma SentByPair(ms: seq<Msg>)
    requires |ms| == 2 && ms[0].side != ms[1].side
    ensures SentBy(ms, Http) == 1 && SentBy(ms, Grpc) == 1
  {
    assert ms[..1] == [ms[0]] && ms[..1][..0] == [];
    assert SentBy(ms[..1], Http) == if ms[0].side.Http? then 1 else 0;
    assert SentBy(ms[..1], Grpc) == if ms[0].side.Grpc? then 1 else 0;
  }

  /** Conservation. When Start returns, on any path, no listener is open and no serve
      goroutine is left; if it served, each goroutine sent one result and it was received. */
  lemma NothingLeaks(cfg: Config, ss: seq<State>, ls: seq<Label>, i: nat)
    requires IsRun(cfg, ss, ls) && i < |ss| && ss[i].pc.Returned?
    ensures !ss[i].http.ln.Open? && !ss[i].grpc.ln.Open?
    ensures ss[i].chan == []
    ensures if ss[i].arm.NotTaken?
      then ss[i].http.thread.Absent? && ss[i].grpc.thread.Absent? && ss[i].received == []
      else
        && ss[i].http.thread.Gone? && ss[i].grpc.thread.Gone?
        && SentBy(ss[i].received, Http) == 1 && SentBy(ss[i].received, Grpc) == 1
  {
    RunInv(cfg, ss, ls, i);
    var s := ss[i];
    assert |Sends(s)| == |s.received| + |s.chan|;
    if !s.arm.NotTaken? {
      assert s.chan == [];
      assert Sends(s) == s.received;
      SentByPair(s.received);
    }
  }

  /** The two-slot channel never makes a serve goroutine wait. */
  lemma ChannelNeverBlocks(cfg: Config, ss: seq<State>, ls: seq<Label>, i: nat, side: Side)
    requires IsRun(cfg, ss, ls) && i < |ss|
    ensures |ss[i].chan| <= 2
    ensures Srv(ss[i], side).thread.Leaving? ==> Enabled(ss[i], Serve(side))
  {
    RunInv(cfg, ss, ls, i);
    assert |Sends(ss[i])| == |ss[i].received| + |ss[i].chan|;
  }

  /** Once serving, Start returns nil exactly when it was cancelled, Shutdown reported no
      error and both serve results were clean. If it never served it returns an error. */
  lemma ReturnsNilIff(cfg: Config, ss: seq<State>, ls: seq<Label>, i: nat)
    requires IsRun(cfg, ss, ls) && i < |ss| && ss[i].pc.Returned?
    ensures ss[i].pc.res == None <==> ss[i].arm.Cancelled? && ss[i].shutdownOk && AllClean(ss[i].received)
    ensures ss[i].arm.Cancelled? ==> ss[i].ctxDone
  {
    RunInv(cfg, ss, ls, i);
  }

  /** Which error: the failed Serve's, the failed Shutdown's, or the first that a serve
      goroutine reported after a shutdown that went well. */
  lemma ReturnsWhich(cfg: Config, ss: seq<State>, ls: seq<Label>, i: nat)
    requires IsRun(cfg, ss, ls) && i < |ss| && ss[i].pc.Returned? && !ss[i].arm.NotTaken?
    ensures |ss[i].received| == 2
    ensures var res, a, b := ss[i].pc.res, ss[i].received[0].err, ss[i].received[1].err;
      && (ss[i].arm.ServeFailed? ==> res.Some? && res == a)
      && (ss[i].arm.Cancelled? && !ss[i].shutdownOk ==> res == Some(ShutdownFailed))
      && (ss[i].arm.Cancelled? && ss[i].shutdownOk ==> (a.Some? ==> res == a) && (a.None? ==> res == b))
  {
    RunInv(cfg, ss, ls, i);
  }

  /** What Start did to the servers by the time it returns. Cancelled: readiness down, then
      the HTTP server shut down gracefully, then the gRPC server, gracefully only if that
      went well. Serve failed: both closed at once and readiness left as it was. */
  lemma DownBeforeStop(cfg: Config, ss: seq<State>, ls: seq<Label>, i: nat)
    requires IsRun(cfg, ss, ls) && i < |ss|
    ensures ss[i].arm.Cancelled? ==>
      ss[i].events <= [WentDown, Stopped(Http, true), Stopped(Grpc, ss[i].shutdownOk)]
    ensures ss[i].arm.ServeFailed? ==> ss[i].events <= [Stopped(Http, false), Stopped(Grpc, false)]
    ensures ss[i].arm.NotTaken? ==> ss[i].events == []
    ensures ss[i].pc.Returned? && !ss[i].arm.NotTaken? ==>
      WasStopped(ss[i].events, Http) && WasStopped(ss[i].events, Grpc)
  {
    RunInv(cfg, ss, ls, i);
    var ev := ss[i].events;
    if ss[i].pc.Returned? && !ss[i].arm.NotTaken? {
      assert ev[|ev| - 2].side == Http && ev[|ev| - 1].side == Grpc;
      assert ev[|ev| - 2] == Stopped(Http, ev[|ev| - 2].graceful) && ev[|ev| - 1] == Stopped(Grpc, ev[|ev| - 1].graceful);
    }
  }

  /** The only steps of Start that touch the listener of a launched server. */
  lemma MainClosesByStopping(cfg: Config, s: State, ok: bool, side: Side)
    requires CanMain(s, ok) && !Acquiring(s.pc) && Srv(s, side).ln.Open?
    requires Srv(MainStep(cfg, s, ok), side).ln.Closed?
    ensures Stops(s.pc)
  {
  }

  lemma StopsAfterChoice(s: State)
    requires ArmOk(s) && s.events == Done(s) && Stops(s.pc)
    ensures WentDown in s.events || s.arm.ServeFailed?
  {
  }

  lemma StoppedAfterChoice(s: State, side: Side)
    requires ArmOk(s) && s.events == Done(s) && WasStopped(s.events, side)
    ensures WentDown in s.events || s.arm.ServeFailed?
  {
  }

  lemma KeepsCause(cfg: Config, s: State, l: Label)
    requires Enabled(s, l) && ArmOk(s) && !l.MainCtx? && (WentDown in s.events || s.arm.ServeFailed?)
    ensures WentDown in Next(cfg, s, l).events || s.arm.ServeFailed?
  {
    if WentDown in s.events { assert s.events <= Next(cfg, s, l).events; }
  }

  /** A listener in use closes only after readiness went down, or because Serve failed, or
      because the other server's failure ended the process. */
  lemma CloseHasCause(cfg: Config, ss: seq<State>, ls: seq<Label>, i: nat, side: Side)
    requires IsRun(cfg, ss, ls) && i < |ls|
    requires Srv(ss[i], side).thread.Launched? || Srv(ss[i], side).thread.Serving?
    requires Srv(ss[i], side).ln.Open? && Srv(ss[i + 1], side).ln.Closed?
    ensures ls[i].Crash? || WentDown in ss[i + 1].events || ss[i].arm.ServeFailed?
  {
    RunInv(cfg, ss, ls, i);
    CloseStep(cfg, ss[i], ls[i], side);
  }

  lemma CloseStep(cfg: Config, s: State, l: Label, side: Side)
    requires ServerOk(s, side) && ArmOk(s) && s.events == Done(s) && Enabled(s, l)
    requires Srv(s, side).thread.Launched? || Srv(s, side).thread.Serving?
    requires Srv(s, side).ln.Open? && Srv(Next(cfg, s, l), side).ln.Closed?
    ensures l.Crash? || WentDown in Next(cfg, s, l).events || s.arm.ServeFailed?
  {
    if l.Main? {
      MainClosesByStopping(cfg, s, l.ok, side);
      StopsAfterChoice(s);
      KeepsCause(cfg, s, l);
    } else if l.Serve? {
      assert l.side == side && Srv(s, side).stopped;
      StoppedAfterChoice(s, side);
      KeepsCause(cfg, s, l);
    }
  }

  /** Every acquiring operation and the Shutdown may fail, and may work. */
  lemma AnythingFails(s: State, ok: bool)
    requires s.pc.Opens? || s.pc.Advertise? || s.pc.Shutdown?
    ensures Enabled(s, Main(ok))
  {
  }

  // ---- what happens before Start serves ----

  /** An acquiring operation that succeeded. */
  datatype Act = Did(side: Side, step: Opening) | Advertised

  /** The acquiring operations that succeeded in the first i steps, in order. */
  function Performed(ss: seq<State>, ls: seq<Label>, i: nat): seq<Act>
    requires |ss| == |ls| + 1 && i <= |ls|
  {
    if i == 0 then [] else Performed(ss, ls, i - 1) + ActOf(ss[i - 1].pc, ls[i - 1])
  }

  function ActOf(pc: Pc, l: Label): seq<Act>
  {
    if l != Main(true) then []
    else if pc.Opens? then [Did(pc.side, pc.step)]
    else if pc.Advertise? then [Advertised]
    else []
  }

  /** All there is to open one listener, in order. */
  function OpeningActs(uds: bool, side: Side): seq<Act>
  {
    if uds then [Did(side, MkdirAll), Did(side, RemoveStale), Did(side, Listen), Did(side, Chmod)]
    else [Did(side, Listen)]
  }

  function Index(step: Lifecycle.Opening): nat
  {
    match step
    case MkdirAll => 0
    case RemoveStale => 1
    case Listen => 2
    case Chmod => 3
  }

  function ListenersOpened(cfg: Config): seq<Act>
  {
    OpeningActs(cfg.httpUDS, Http) + OpeningActs(cfg.grpcUDS, Grpc)
  }

  function UpToHere(cfg: Config, side: Side, step: Lifecycle.Opening): seq<Act>
  {
    var uds := if side.Http? then cfg.httpUDS else cfg.grpcUDS;
    (if side.Grpc? then OpeningActs(cfg.httpUDS, Http) else []) + (if uds then OpeningActs(true, side)[..Index(step)] else [])
  }

  /** What has been performed at each control point. */
  ghost predicate OpeningOk(cfg: Config, pc: Pc, arm: Arm, acts: seq<Act>)
  {
    match pc
    case Opens(side, step) =>
      && acts == UpToHere(cfg, side, step)
      && ((if side.Http? then cfg.httpUDS else cfg.grpcUDS) || step.Listen?)
    case Advertise => cfg.httpUDS && acts == ListenersOpened(cfg)
    case CloseHttp(_) => true
    case CloseBoth(_) => true
    case Returned(_) => arm.NotTaken? || acts == EverythingOpened(cfg)
    case _ => acts == EverythingOpened(cfg)
  }

  function EverythingOpened(cfg: Config): seq<Act>
  {
    ListenersOpened(cfg) + (if cfg.httpUDS then [Advertised] else [])
  }

  lemma OpensFailedOk(cfg: Config, s: State, acts: seq<Act>)
    requires s.pc.Opens? && s.arm.NotTaken?
    ensures var t := MainStep(cfg, s, false); OpeningOk(cfg, t.pc, t.arm, acts)
  {
  }

  lemma OpensWorkedOk(cfg: Config, s: State, acts: seq<Act>)
    requires s.pc.Opens? && s.arm.NotTaken? && OpeningOk(cfg, s.pc, s.arm, acts)
    ensures var t := MainStep(cfg, s, true); OpeningOk(cfg, t.pc, t.arm, acts + [Did(s.pc.side, s.pc.step)])
  {
  }

  lemma OpensStepOk(cfg: Config, s: State, ok: bool, acts: seq<Act>)
    requires CanMain(s, ok) && s.pc.Opens? && s.arm.NotTaken? && OpeningOk(cfg, s.pc, s.arm, acts)
    ensures var t := MainStep(cfg, s, ok); OpeningOk(cfg, t.pc, t.arm, acts + ActOf(s.pc, Main(ok)))
  {
    if ok {
      OpensWorkedOk(cfg, s, acts);
    } else {
      assert acts + [] == acts;
      OpensFailedOk(cfg, s, acts);
    }
  }

  lemma LaterStepOk(cfg: Config, s: State, l: Label, acts: seq<Act>)
    requires ArmOk(s) && Enabled(s, l) && !s.pc.Opens? && OpeningOk(cfg, s.pc, s.arm, acts)
    ensures var t := Next(cfg, s, l); OpeningOk(cfg, t.pc, t.arm, acts + ActOf(s.pc, l))
  {
    assert acts + [] == acts;
  }

  lemma IdleStepOk(cfg: Config, s: State, l: Label, acts: seq<Act>)
    requires Enabled(s, l) && !l.Main? && s.pc.Opens? && OpeningOk(cfg, s.pc, s.arm, acts)
    ensures var t := Next(cfg, s, l); OpeningOk(cfg, t.pc, t.arm, acts + ActOf(s.pc, l))
  {
    assert acts + [] == acts;
  }

  lemma {:induction false} RunOpeningOk(cfg: Config, ss: seq<State>, ls: seq<Label>, i: nat)
    requires IsRun(cfg, ss, ls) && i < |ss|
    ensures OpeningOk(cfg, ss[i].pc, ss[i].arm, Performed(ss, ls, i))
  {
    if i > 0 {
      RunOpeningOk(cfg, ss, ls, i - 1);
      RunInv(cfg, ss, ls, i - 1);
      OpeningStepOk(cfg, ss[i - 1], ls[i - 1], Performed(ss, ls, i - 1));
    }
  }

  lemma OpeningStepOk(cfg: Config, s: State, l: Label, acts: seq<Act>)
    requires ArmOk(s) && Enabled(s, l) && OpeningOk(cfg, s.pc, s.arm, acts)
    ensures var t := Next(cfg, s, l); OpeningOk(cfg, t.pc, t.arm, acts + ActOf(s.pc, l))
  {
    if !s.pc.Opens? {
      LaterStepOk(cfg, s, l, acts);
    } else if l.Main? {
      OpensStepOk(cfg, s, l.ok, acts);
    } else {
      IdleStepOk(cfg, s, l, acts);
    }
  }

  /** Before Start launches a serve goroutine it has, in this order and nothing else: for
      each listener that is a Unix socket made its directory, removed a stale socket,
      listened and set its mode, for any other listened; and advertised itself to the
      broker if and only if the HTTP listener is a Unix socket. */
  lemma AdvertisesBeforeServing(cfg: Config, ss: seq<State>, ls: seq<Label>, i: nat)
    requires IsRun(cfg, ss, ls) && i < |ss|
    requires !Acquiring(ss[i].pc) && !(ss[i].pc.Returned? && ss[i].arm.NotTaken?)
    ensures Performed(ss, ls, i) == OpeningActs(cfg.httpUDS, Http) + OpeningActs(cfg.grpcUDS, Grpc)
      + (if cfg.httpUDS then [Advertised] else [])
    ensures Advertised in Performed(ss, ls, i) <==> cfg.httpUDS
  {
    RunOpeningOk(cfg, ss, ls, i);
  }

  /** The error Start reports for a failed acquiring operation. */
  ghost predicate Reports(pc: Pc, err: Lifecycle.Error)
  {
    || (pc.Opens? && pc.step.MkdirAll? && err == SocketDirFailed)
    || (pc.Opens? && pc.step.RemoveStale? && err == StaleSocketFailed)
    || (pc.Opens? && pc.step.Listen? && err == ListenFailed)
    || (pc.Opens? && pc.step.Chmod? && err == ChmodFailed)
    || (pc.Advertise? && err == AdvertiseFailed)
  }

  ghost predicate FailedBefore(ss: seq<State>, ls: seq<Label>, i: nat, err: Lifecycle.Error)
    requires |ss| == |ls| + 1 && i < |ss|
  {
    exists k :: 0 <= k < i && ls[k] == Main(false) && Reports(ss[k].pc, err)
  }

  /** Giving up, and with which error. */
  function GivingUp(s: State): Option<Lifecycle.Error>
  {
    match s.pc
    case CloseHttp(err) => Some(err)
    case CloseBoth(err) => Some(err)
    case Returned(res) => if s.arm.NotTaken? then res else None
    case _ => None
  }

  lemma MainGivesUp(cfg: Config, s: State, ok: bool)
    requires ArmOk(s) && CanMain(s, ok) && GivingUp(MainStep(cfg, s, ok)).Some?
    ensures GivingUp(s) == GivingUp(MainStep(cfg, s, ok))
         || (!ok && Reports(s.pc, GivingUp(MainStep(cfg, s, ok)).value))
  {
  }

  lemma GivesUpOnFailure(cfg: Config, s: State, l: Label)
    requires ArmOk(s) && Enabled(s, l) && GivingUp(Next(cfg, s, l)).Some?
    ensures GivingUp(s) == GivingUp(Next(cfg, s, l))
         || (l == Main(false) && Reports(s.pc, GivingUp(Next(cfg, s, l)).value))
  {
    if l.Main? { MainGivesUp(cfg, s, l.ok); }
  }

  /** A Start that never serves returns the error of the acquiring operation that failed,
      and no listener is open. */
  lemma {:induction false} FailedStart(cfg: Config, ss: seq<State>, ls: seq<Label>, i: nat)
    requires IsRun(cfg, ss, ls) && i < |ss| && GivingUp(ss[i]).Some?
    ensures FailedBefore(ss, ls, i, GivingUp(ss[i]).value)
    ensures ss[i].pc.Returned? ==> !ss[i].http.ln.Open? && !ss[i].grpc.ln.Open?
  {
    RunInv(cfg, ss, ls, i);
    if i > 0 {
      RunInv(cfg, ss, ls, i - 1);
      GivesUpOnFailure(cfg, ss[i - 1], ls[i - 1]);
      if GivingUp(ss[i - 1]).Some? { FailedStart(cfg, ss, ls, i - 1); }
    }
  }

  // ---- Start gets to its end ----

  /** Up and serving, with nothing to do. */
  predicate Healthy(s: State)
  {
    s.pc.Select? && !s.ctxDone && s.chan == [] && s.http.thread.Serving? && s.grpc.thread.Serving?
  }

  /** Neither a cancellation nor a failure of Serve: the program's own steps. */
  predicate Own(l: Label)
  {
    l.Main? || l.MainCtx? || l.Serve?
  }

  lemma DrainProgress(s: State) returns (l: Label)
    requires Inv(s) && Receives(s.pc) && !s.pc.Select? && s.chan == []
    ensures Enabled(s, l) && Own(l)
  {
    assert |Sends(s)| < 2;
    var side := if s.http.thread.Gone? then Grpc else Http;
    assert WasStopped(s.events, side) by {
      assert s.events[|s.events| - 1].side == Grpc && s.events[|s.events| - 2].side == Http;
      var e := s.events[if side.Http? then |s.events| - 2 else |s.events| - 1];
      assert e == Stopped(side, e.graceful);
    }
    l := Serve(side);
  }

  lemma SelectProgress(s: State) returns (l: Label)
    requires Inv(s) && s.pc.Select? && s.chan == [] && !s.ctxDone && !Healthy(s)
    ensures Enabled(s, l) && Own(l)
  {
    assert Sends(s) == [];
    l := Serve(if s.http.thread.Serving? then Grpc else Http);
  }

  /** Start is never stuck: unless it has returned or is healthily serving, one of its
      three goroutines can step. */
  lemma Progress(s: State) returns (l: Label)
    requires Inv(s) && !s.pc.Returned? && !Healthy(s)
    ensures Enabled(s, l) && Own(l)
  {
    if s.pc.Select? && s.ctxDone {
      l := MainCtx;
    } else if s.pc.Select? && s.chan == [] {
      l := SelectProgress(s);
    } else if Receives(s.pc) && s.chan == [] {
      l := DrainProgress(s);
    } else {
      l := Main(true);
    }
  }

  function OpeningRank(step: Opening): nat
  {
    match step
    case MkdirAll => 4
    case RemoveStale => 3
    case Listen => 2
    case Chmod => 1
  }

  function PcRank(pc: Pc): nat
  {
    match pc
    case Opens(side, step) => (if side.Http? then 15 else 11) + OpeningRank(step)
    case Advertise => 11
    case Launch(side) => if side.Http? then 10 else 9
    case Select => 8
    case GoDown => 6
    case Shutdown => 5
    case FailStop => 4
    case GracefulStop => 4
    case FailDrain => 3
    case Drain => 3
    case FailDrainAgain => 2
    case DrainAgain(_) => 2
    case ErrClose(_) => 3
    case ErrStop(_) => 2
    case ErrDrain(_) => 1
    case CloseHttp(_) => 1
    case CloseBoth(_) => 1
    case Returned(_) => 0
  }

  function ThreadRank(t: Thread): nat
  {
    match t
    case Absent => 4
    case Launched => 3
    case Serving => 2
    case Leaving(_) => 1
    case Gone => 0
  }

  function Measure(s: State): nat
  {
    PcRank(s.pc) + ThreadRank(s.http.thread) + ThreadRank(s.grpc.thread) + (if s.ctxDone then 0 else 1)
  }

  lemma MainPcFalls(cfg: Config, s: State, ok: bool)
    requires CanMain(s, ok)
    ensures PcRank(MainStep(cfg, s, ok).pc) < PcRank(s.pc)
  {
  }

  lemma MainThreads(cfg: Config, s: State, ok: bool)
    requires CanMain(s, ok) && (s.pc.Launch? ==> Srv(s, s.pc.side).thread.Absent?)
    ensures ThreadRank(MainStep(cfg, s, ok).http.thread) <= ThreadRank(s.http.thread)
    ensures ThreadRank(MainStep(cfg, s, ok).grpc.thread) <= ThreadRank(s.grpc.thread)
    ensures MainStep(cfg, s, ok).ctxDone == s.ctxDone
  {
  }

  lemma ServeFalls(cfg: Config, s: State, l: Label)
    requires Enabled(s, l) && (l.Serve? || l.Crash?)
    ensures Measure(Next(cfg, s, l)) < Measure(s)
  {
    var t := Next(cfg, s, l);
    assert t.pc == s.pc && t.ctxDone == s.ctxDone;
  }

  lemma StepFalls(cfg: Config, s: State, l: Label)
    requires Inv(s) && Enabled(s, l)
    ensures Measure(Next(cfg, s, l)) < Measure(s)
  {
    if l.Main? {
      MainPcFalls(cfg, s, l.ok);
      MainThreads(cfg, s, l.ok);
    } else if l.Serve? || l.Crash? {
      ServeFalls(cfg, s, l);
    }
  }

  lemma RunStepFalls(cfg: Config, ss: seq<State>, ls: seq<Label>, k: nat)
    requires IsRun(cfg, ss, ls) && k < |ls|
    ensures Measure(ss[k + 1]) < Measure(ss[k])
  {
    RunInv(cfg, ss, ls, k);
    StepFalls(cfg, ss[k], ls[k]);
  }

  /** A run of Start has at most 28 steps, so with Progress every run that is not cut short
      ends in a return or in healthy serving, and a cancelled one in a return. */
  lemma {:induction false} ShortRuns(cfg: Config, ss: seq<State>, ls: seq<Label>, i: nat)
    requires IsRun(cfg, ss, ls) && i < |ss|
    ensures i + Measure(ss[i]) <= 28
  {
    if i > 0 {
      ShortRuns(cfg, ss, ls, i - 1);
      RunStepFalls(cfg, ss, ls, i - 1);
    }
  }

  /** From any reachable state in which ctx is cancelled, Start's own steps lead to its return. */
  lemma {:induction false} CancelledReturns(cfg: Config, s: State) returns (ls: seq<Label>, t: State)
    requires Inv(s) && s.ctxDone
    ensures Leads(cfg, s, ls, t) && t.pc.Returned?
    decreases Measure(s)
  {
    if s.pc.Returned? {
      ls, t := [], s;
    } else {
      var l := Progress(s);
      StepFalls(cfg, s, l);
      NextInv(cfg, s, l);
      var s' := Next(cfg, s, l);
      KeepsCancelled(cfg, s, l);
      ls, t := CancelledReturns(cfg, s');
      LeadsCons(cfg, s, l, s', ls, t);
      ls := [l] + ls;
    }
  }

  lemma KeepsCancelled(cfg: Config, s: State, l: Label)
    requires Enabled(s, l) && s.ctxDone
    ensures Next(cfg, s, l).ctxDone
  {
  }

  ghost predicate Leads(cfg: Config, s: State, ls: seq<Label>, t: State)
    decreases |ls|
  {
    if ls == [] then s == t
    else Own(ls[0]) && Enabled(s, ls[0]) && Leads(cfg, Next(cfg, s, ls[0]), ls[1..], t)
  }

  lemma LeadsCons(cfg: Config, s: State, l: Label, s': State, ls: seq<Label>, t: State)
    requires Own(l) && Enabled(s, l) && s' == Next(cfg, s, l) && Leads(cfg, s', ls, t)
    ensures Leads(cfg, s, [l] + ls, t)
  {
    assert ([l] + ls)[1..] == ls;
  }

  lemma {:induction false} LeadsSnoc(cfg: Config, s: State, ls: seq<Label>, t: State, l: Label)
    requires Leads(cfg, s, ls, t) && Own(l) && Enabled(t, l)
    ensures Leads(cfg, s, ls + [l], Next(cfg, t, l))
    decreases |ls|
  {
    if ls == [] {
      assert [l][1..] == [];
    } else {
      LeadsSnoc(cfg, Next(cfg, s, ls[0]), ls[1..], t, l);
      assert (ls + [l])[1..] == ls[1..] + [l];
    }
  }

  /** On the way up, with nothing gone wrong. */
  predicate ComingUp(s: State)
  {
    && (s.pc.Opens? || s.pc.Advertise? || s.pc.Launch? || s.pc.Select?)
    && !s.ctxDone && s.chan == [] && Up(s.http.thread) && Up(s.grpc.thread)
  }

  predicate Up(t: Thread)
  {
    t.Absent? || t.Launched? || t.Serving?
  }

  lemma RisingStep(cfg: Config, s: State) returns (l: Label)
    requires Inv(s) && ComingUp(s) && !Healthy(s)
    ensures Enabled(s, l) && Own(l) && ComingUp(Next(cfg, s, l))
  {
    if s.pc.Select? {
      l := SelectProgress(s);
      l := Serve(if s.http.thread.Serving? then Grpc else Http);
    } else {
      l := Main(true);
    }
  }

  /** If every operation works and nobody cancels, Start comes to serve on both listeners. */
  lemma {:induction false} ComesUp(cfg: Config, s: State) returns (ls: seq<Label>, t: State)
    requires Inv(s) && ComingUp(s)
    ensures Leads(cfg, s, ls, t) && Inv(t) && Healthy(t)
    decreases Measure(s)
  {
    if Healthy(s) {
      ls, t := [], s;
    } else {
      var l := RisingStep(cfg, s);
      StepFalls(cfg, s, l);
      NextInv(cfg, s, l);
      var s' := Next(cfg, s, l);
      ls, t := ComesUp(cfg, s');
      LeadsCons(cfg, s, l, s', ls, t);
      ls := [l] + ls;
    }
  }

  function OtherSide(side: Side): Side
  {
    if side.Http? then Grpc else Http
  }

  /** A Serve fails and its result arrives. */
  lemma FailureArrives(cfg: Config, s: State, side: Side, err: Lifecycle.Error) returns (t: State)
    requires Inv(s) && Healthy(s)
    ensures Enabled(s, Crash(side, err)) && Leads(cfg, Next(cfg, s, Crash(side, err)), [Serve(side)], t)
    ensures t.pc == Select && t.chan == [Msg(side, Some(err))]
    ensures Srv(t, OtherSide(side)).thread.Serving? && !Srv(t, OtherSide(side)).stopped
  {
    var s1 := Next(cfg, s, Crash(side, err));
    t := Next(cfg, s1, Serve(side));
    LeadsSnoc(cfg, s1, [], s1, Serve(side));
    assert [] + [Serve(side)] == [Serve(side)];
  }

  /** Start takes the error, closes one server and stops the other. */
  lemma FailureStops(cfg: Config, s0: State, ls0: seq<Label>, s: State, side: Side, err: Lifecycle.Error)
      returns (ls: seq<Label>, t: State)
    requires Leads(cfg, s0, ls0, s) && s.pc == Select && s.chan == [Msg(side, Some(err))]
    requires Srv(s, OtherSide(side)).thread.Serving?
    ensures Leads(cfg, s0, ls, t) && t.pc == ErrDrain(Some(err)) && t.arm.ServeFailed? && t.chan == []
    ensures Srv(t, OtherSide(side)).thread.Serving? && Srv(t, OtherSide(side)).stopped
  {
    var s1 := Next(cfg, s, Main(true));
    assert s1.pc == ErrClose(Some(err)) && s1.chan == [];
    var s2 := Next(cfg, s1, Main(true));
    assert s2.pc == ErrStop(Some(err)) && s2.chan == [];
    t := Next(cfg, s2, Main(true));
    LeadsSnoc(cfg, s0, ls0, s, Main(true));
    LeadsSnoc(cfg, s0, ls0 + [Main(true)], s1, Main(true));
    LeadsSnoc(cfg, s0, ls0 + [Main(true)] + [Main(true)], s2, Main(true));
    ls := ls0 + [Main(true)] + [Main(true)] + [Main(true)];
  }

  lemma DrainReturns(cfg: Config, s0: State, ls0: seq<Label>, s: State, side: Side) returns (ls: seq<Label>, t: State)
    requires Leads(cfg, s0, ls0, s) && s.pc.ErrDrain? && s.arm.ServeFailed? && s.chan == []
    requires Srv(s, side).thread.Serving? && Srv(s, side).stopped
    ensures Leads(cfg, s0, ls, t) && t.pc == Returned(s.pc.err) && t.arm.ServeFailed?
  {
    var s1 := Next(cfg, s, Serve(side));
    var s2 := Next(cfg, s1, Serve(side));
    assert s2.chan != [] && s2.pc == s.pc;
    t := Next(cfg, s2, Main(true));
    ls := ls0;
    LeadsSnoc(cfg, s0, ls, s, Serve(side));
    ls := ls + [Serve(side)];
    LeadsSnoc(cfg, s0, ls, s1, Serve(side));
    ls := ls + [Serve(side)];
    LeadsSnoc(cfg, s0, ls, s2, Main(true));
    ls := ls + [Main(true)];
  }

  lemma {:induction false} LeadsInv(cfg: Config, s: State, ls: seq<Label>, t: State)
    requires Inv(s) && Leads(cfg, s, ls, t)
    ensures Inv(t)
    decreases |ls|
  {
    if ls != [] {
      NextInv(cfg, s, ls[0]);
      LeadsInv(cfg, Next(cfg, s, ls[0]), ls[1..], t);
    }
  }

  lemma FailureReturns(cfg: Config, h: State, side: Side, err: Lifecycle.Error) returns (ls: seq<Label>, t: State)
    requires Inv(h) && Healthy(h)
    ensures Enabled(h, Crash(side, err)) && Leads(cfg, Next(cfg, h, Crash(side, err)), ls, t)
    ensures t.pc == Returned(Some(err)) && t.arm.ServeFailed?
  {
    var d := FailureArrives(cfg, h, side, err);
    var h' := Next(cfg, h, Crash(side, err));
    ls, d := FailureStops(cfg, h', [Serve(side)], d, side, err);
    ls, t := DrainReturns(cfg, h', ls, d, OtherSide(side));
  }

  lemma NeverWentDown(s: State)
    requires Inv(s) && s.pc.Returned? && s.arm.ServeFailed?
    ensures WentDown !in s.events
  {
  }

  /** The other way out. From a fresh Start that nobody cancels, its own steps lead to
      healthy serving; if then either Serve fails, its own steps lead to the return of that
      very error, and readiness is still up when it returns. */
  lemma ServeFailureReturns(cfg: Config, s: State, side: Side, err: Lifecycle.Error)
      returns (up: seq<Label>, h: State, down: seq<Label>, t: State)
    requires Init(cfg, s) && !s.ctxDone
    ensures Leads(cfg, s, up, h) && Healthy(h) && Enabled(h, Crash(side, err))
    ensures Leads(cfg, Next(cfg, h, Crash(side, err)), down, t)
    ensures t.pc == Returned(Some(err)) && t.arm.ServeFailed? && WentDown !in t.events
  {
    InitInv(cfg, s);
    up, h := ComesUp(cfg, s);
    down, t := FailureReturns(cfg, h, side, err);
    NextInv(cfg, h, Crash(side, err));
    LeadsInv(cfg, Next(cfg, h, Crash(side, err)), down, t);
    NeverWentDown(t);
  }
}

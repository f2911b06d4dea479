/** server.Start (pkg/server/server.go, with newListener) as a state machine: the calling
    goroutine, two serve goroutines and the two-slot channel between them. */
module Lifecycle {
  import opened Base

  datatype Side = Http | Grpc

  /** What can go wrong; Broken is an error Serve returns. */
  datatype Error =
    | SocketDirFailed | StaleSocketFailed | ListenFailed | ChmodFailed
    | AdvertiseFailed | ShutdownFailed | Broken(reason: string)

  datatype Listener = Unopened | Open | Closed

  /** A serve goroutine: not launched, launched, inside Serve with the listener
      registered, back from Serve with a result to send, and gone. */
  datatype Thread = Absent | Launched | Serving | Leaving(err: Option<Error>) | Gone

  datatype Server = Server(ln: Listener, thread: Thread, stopped: bool)

  /** The steps of newListener. */
  datatype Opening = MkdirAll | RemoveStale | Listen | Chmod

  datatype Pc =
    | Opens(side: Side, step: Opening)
    | CloseHttp(cause: Error)               // the gRPC listener failed
    | Advertise                             // writeServerInfo
    | CloseBoth(cause: Error)               // it failed
    | Launch(side: Side)
    | Select
    | ErrClose(err: Option<Error>)          // httpSrv.Close()
    | ErrStop(err: Option<Error>)           // grpcServer.Stop()
    | ErrDrain(err: Option<Error>)          // <-serveErr
    | GoDown                                // health.SetServing(false)
    | Shutdown
    | FailStop | FailDrain | FailDrainAgain // Shutdown reported an error
    | GracefulStop
    | Drain | DrainAgain(first: Option<Error>)
    | Returned(res: Option<Error>)

  datatype Msg = Msg(side: Side, err: Option<Error>)

  /** Stopped: Shutdown and GracefulStop are graceful, Close and Stop are not. */
  datatype Event = WentDown | Stopped(side: Side, graceful: bool)

  datatype Arm = NotTaken | ServeFailed | Cancelled

  /** `received`, `events`, `arm` and `shutdownOk` are history. */
  datatype State = State(pc: Pc, http: Server, grpc: Server, chan: seq<Msg>, ctxDone: bool,
                         received: seq<Msg>, events: seq<Event>, arm: Arm, shutdownOk: bool)

  /** Which listeners are Unix sockets. */
  datatype Config = Config(httpUDS: bool, grpcUDS: bool)

  datatype Label =
    | Cancel                        // ctx is cancelled
    | Main(ok: bool)                // Start's next step, and whether its operation succeeds
    | MainCtx                       // the select takes <-ctx.Done()
    | Serve(side: Side)             // a serve goroutine's next step
    | Crash(side: Side, err: Error) // Serve fails though nobody stopped the server

  function Srv(s: State, side: Side): Server
  {
    if side.Http? then s.http else s.grpc
  }

  function SetSrv(s: State, side: Side, srv: Server): State
  {
    if side.Http? then s.(http := srv) else s.(grpc := srv)
  }

  predicate UDS(cfg: Config, side: Side)
  {
    if side.Http? then cfg.httpUDS else cfg.grpcUDS
  }

  /** Closing or stopping a server closes the listener it has registered. */
  function StopServer(s: State, side: Side, graceful: bool): State
  {
    var srv := Srv(s, side);
    SetSrv(s, side, srv.(stopped := true, ln := if srv.thread.Serving? then Closed else srv.ln))
      .(events := s.events + [Stopped(side, graceful)])
  }

  function CloseListener(s: State, side: Side): State
  {
    SetSrv(s, side, Srv(s, side).(ln := Closed))
  }

  function FirstStep(cfg: Config, side: Side): Opening
  {
    if UDS(cfg, side) then MkdirAll else Listen
  }

  /** Where Start goes when newListener returns. */
  function Opened(cfg: Config, side: Side): Pc
  {
    if side.Http? then Opens(Grpc, FirstStep(cfg, Grpc))
    else if cfg.httpUDS then Advertise
    else Launch(Http)
  }

  function OpenFailed(side: Side, err: Error): Pc
  {
    if side.Http? then Returned(Some(err)) else CloseHttp(err)
  }

  function OpenStep(cfg: Config, s: State, side: Side, step: Opening, ok: bool): State
  {
    match step
    case MkdirAll => s.(pc := if ok then Opens(side, RemoveStale) else OpenFailed(side, SocketDirFailed))
    case RemoveStale => s.(pc := if ok then Opens(side, Listen) else OpenFailed(side, StaleSocketFailed))
    case Listen =>
      if !ok then s.(pc := OpenFailed(side, ListenFailed))
      else SetSrv(s, side, Srv(s, side).(ln := Open)).(pc := if UDS(cfg, side) then Opens(side, Chmod) else Opened(cfg, side))
    case Chmod =>
      if ok then s.(pc := Opened(cfg, side))
      else CloseListener(s, side).(pc := OpenFailed(side, ChmodFailed))
  }

  predicate CanMain(s: State, ok: bool)
  {
    match s.pc
    case Returned(_) => false
    case Select => s.chan != [] && ok
    case ErrDrain(_) => s.chan != [] && ok
    case FailDrain => s.chan != [] && ok
    case FailDrainAgain => s.chan != [] && ok
    case Drain => s.chan != [] && ok
    case DrainAgain(_) => s.chan != [] && ok
    case Opens(_, _) => true
    case Advertise => true
    case Shutdown => true
    case _ => ok
  }

  function Receive(s: State): State
    requires s.chan != []
  {
    s.(chan := s.chan[1..], received := s.received + [s.chan[0]])
  }

  function MainStep(cfg: Config, s: State, ok: bool): State
    requires CanMain(s, ok)
  {
    match s.pc
    case Opens(side, step) => OpenStep(cfg, s, side, step, ok)
    case CloseHttp(err) => CloseListener(s, Http).(pc := Returned(Some(err)))
    case Advertise => s.(pc := if ok then Launch(Http) else CloseBoth(AdvertiseFailed))
    case CloseBoth(err) => CloseListener(CloseListener(s, Http), Grpc).(pc := Returned(Some(err)))
    case Launch(side) =>
      SetSrv(s, side, Srv(s, side).(thread := Launched)).(pc := if side.Http? then Launch(Grpc) else Select)
    case Select => Receive(s).(arm := ServeFailed, pc := ErrClose(s.chan[0].err))
    case ErrClose(err) => StopServer(s, Http, false).(pc := ErrStop(err))
    case ErrStop(err) => StopServer(s, Grpc, false).(pc := ErrDrain(err))
    case ErrDrain(err) => Receive(s).(pc := Returned(err))
    case GoDown => s.(events := s.events + [WentDown], pc := Shutdown)
    case Shutdown => StopServer(s, Http, true).(shutdownOk := ok, pc := if ok then GracefulStop else FailStop)
    case FailStop => StopServer(s, Grpc, false).(pc := FailDrain)
    case FailDrain => Receive(s).(pc := FailDrainAgain)
    case FailDrainAgain => Receive(s).(pc := Returned(Some(ShutdownFailed)))
    case GracefulStop => StopServer(s, Grpc, true).(pc := Drain)
    case Drain => Receive(s).(pc := DrainAgain(s.chan[0].err))
    case DrainAgain(first) => Receive(s).(pc := Returned(if first.Some? then first else s.chan[0].err))
  }

  predicate Enabled(s: State, l: Label)
  {
    match l
    case Cancel => !s.ctxDone
    case Main(ok) => CanMain(s, ok)
    case MainCtx => s.pc.Select? && s.ctxDone
    case Serve(side) =>
      (match Srv(s, side).thread
       case Launched => true
       case Serving => Srv(s, side).stopped
       case Leaving(_) => |s.chan| < 2
       case _ => false)
    case Crash(side, _) => Srv(s, side).thread.Serving? && !Srv(s, side).stopped
  }

  /** Serve closes its listener when it returns; its result is nil, after the filtering
      of ErrServerClosed and ErrServerStopped, only if the server was stopped. */
  function ServeStep(s: State, side: Side): State
    requires Enabled(s, Serve(side))
  {
    var srv := Srv(s, side);
    match srv.thread
    case Launched =>
      SetSrv(s, side, if srv.stopped then srv.(thread := Leaving(None), ln := Closed) else srv.(thread := Serving))
    case Serving => SetSrv(s, side, srv.(thread := Leaving(None), ln := Closed))
    case Leaving(err) => SetSrv(s, side, srv.(thread := Gone)).(chan := s.chan + [Msg(side, err)])
  }

  function Next(cfg: Config, s: State, l: Label): State
    requires Enabled(s, l)
  {
    match l
    case Cancel => s.(ctxDone := true)
    case Main(ok) => MainStep(cfg, s, ok)
    case MainCtx => s.(arm := Cancelled, pc := GoDown)
    case Serve(side) => ServeStep(s, side)
    case Crash(side, err) => SetSrv(s, side, Srv(s, side).(thread := Leaving(Some(err)), ln := Closed))
  }

  predicate Init(cfg: Config, s: State)
  {
    var idle := Server(Unopened, Absent, false);
    s == State(Opens(Http, FirstStep(cfg, Http)), idle, idle, [], s.ctxDone, [], [], NotTaken, false)
  }

  // ---- the invariant ----

  /** Start is still acquiring: no goroutine, no message. */
  predicate Acquiring(pc: Pc)
  {
    pc.Opens? || pc.CloseHttp? || pc.Advertise? || pc.CloseBoth?
  }

  /** How many results Start has received at each point past the launch. */
  function Taken(s: State): nat
  {
    match s.pc
    case ErrClose(_) => 1
    case ErrStop(_) => 1
    case ErrDrain(_) => 1
    case FailDrainAgain => 1
    case DrainAgain(_) => 1
    case Returned(_) => if s.arm.NotTaken? then 0 else 2
    case _ => 0
  }

  /** What Start has done to the servers, in order, at each point. */
  function Done(s: State): seq<Event>
  {
    match s.pc
    case ErrStop(_) => [Stopped(Http, false)]
    case ErrDrain(_) => [Stopped(Http, false), Stopped(Grpc, false)]
    case Shutdown => [WentDown]
    case FailStop => [WentDown, Stopped(Http, true)]
    case GracefulStop => [WentDown, Stopped(Http, true)]
    case FailDrain => [WentDown, Stopped(Http, true), Stopped(Grpc, false)]
    case FailDrainAgain => [WentDown, Stopped(Http, true), Stopped(Grpc, false)]
    case Drain => [WentDown, Stopped(Http, true), Stopped(Grpc, true)]
    case DrainAgain(_) => [WentDown, Stopped(Http, true), Stopped(Grpc, true)]
    case Returned(_) =>
      if s.arm.Cancelled? then [WentDown, Stopped(Http, true), Stopped(Grpc, s.shutdownOk)]
      else if s.arm.ServeFailed? then [Stopped(Http, false), Stopped(Grpc, false)]
      else []
    case _ => []
  }

  predicate WasStopped(events: seq<Event>, side: Side)
  {
    Stopped(side, true) in events || Stopped(side, false) in events
  }

  predicate ErrArm(pc: Pc)
  {
    pc.ErrClose? || pc.ErrStop? || pc.ErrDrain?
  }

  predicate CancelArm(pc: Pc)
  {
    || pc.GoDown? || pc.Shutdown? || pc.FailStop? || pc.FailDrain? || pc.FailDrainAgain?
    || pc.GracefulStop? || pc.Drain? || pc.DrainAgain?
  }

  function Sends(s: State): seq<Msg>
  {
    s.received + s.chan
  }

  /** Every message comes from a goroutine that is gone; a clean one from a stopped server. */
  ghost predicate FromGone(s: State, ms: seq<Msg>)
  {
    forall i :: 0 <= i < |ms| ==>
      Srv(s, ms[i].side).thread.Gone? && (ms[i].err == None ==> Srv(s, ms[i].side).stopped)
  }

  ghost predicate DistinctSides(ms: seq<Msg>)
  {
    forall i, j :: 0 <= i < j < |ms| ==> ms[i].side != ms[j].side
  }

  function GoneCount(s: State): nat
  {
    (if s.http.thread.Gone? then 1 else 0) + (if s.grpc.thread.Gone? then 1 else 0)
  }

  /** One message from each goroutine that is gone, none from the others. */
  ghost predicate MessagesOk(s: State)
  {
    && FromGone(s, Sends(s))
    && DistinctSides(Sends(s))
    && |Sends(s)| == GoneCount(s)
    && |s.received| == Taken(s)
  }

  ghost predicate ServerOk(s: State, side: Side)
  {
    var srv := Srv(s, side);
    && (srv.thread.Absent? <==> Acquiring(s.pc) || (s.pc.Launch? && (s.pc.side.Http? || side.Grpc?)) || (s.pc.Returned? && s.arm.NotTaken?))
    && (srv.thread == Leaving(None) ==> srv.stopped)
    && (srv.thread.Leaving? || srv.thread.Gone? ==> srv.ln == Closed)
    && (srv.thread.Launched? ==> srv.ln.Open?)
    && (srv.thread.Serving? ==> if srv.stopped then srv.ln.Closed? else srv.ln.Open?)
    && (srv.stopped <==> WasStopped(s.events, side))
    && (srv.thread.Absent? ==> ListenerAt(s, side))
  }

  /** The listener while Start is still acquiring. */
  ghost predicate ListenerAt(s: State, side: Side)
  {
    var ln := Srv(s, side).ln;
    match s.pc
    case Opens(at, step) =>
      if side.Http? && at.Grpc? then ln.Open?
      else if side == at then (if step.Chmod? then ln.Open? else ln.Unopened?)
      else ln.Unopened?
    case CloseHttp(_) => if side.Http? then ln.Open? else !ln.Open?
    case Returned(_) => !ln.Open?
    case _ => ln.Open?
  }

  ghost predicate ArmOk(s: State)
  {
    && (ErrArm(s.pc) ==> s.arm.ServeFailed? && s.pc.err.Some? && s.received != [] && s.pc.err == s.received[0].err)
    && (CancelArm(s.pc) ==> s.arm.Cancelled?)
    && (s.arm.Cancelled? ==> s.ctxDone)
    && (!ErrArm(s.pc) && !CancelArm(s.pc) && !s.pc.Returned? ==> s.arm.NotTaken?)
    && (s.pc.GracefulStop? || s.pc.Drain? || s.pc.DrainAgain? ==> s.shutdownOk)
    && (s.pc.FailStop? || s.pc.FailDrain? || s.pc.FailDrainAgain? ==> !s.shutdownOk)
    && (s.pc.DrainAgain? ==> |s.received| == 1 && s.pc.first == s.received[0].err)
    && (s.pc.Returned? ==> ResultOk(s))
  }

  ghost predicate ResultOk(s: State)
    requires s.pc.Returned?
  {
    match s.arm
    case NotTaken => s.pc.res.Some?
    case ServeFailed => s.received != [] && s.pc.res == s.received[0].err && s.pc.res.Some?
    case Cancelled =>
      if s.shutdownOk then |s.received| == 2 && s.pc.res == FirstError(s.received[0].err, s.received[1].err)
      else s.pc.res == Some(ShutdownFailed)
  }

  function FirstError(a: Option<Error>, b: Option<Error>): (r: Option<Error>)
    ensures r == None <==> a == None && b == None
  {
    if a.Some? then a else b
  }

  ghost predicate AllClean(ms: seq<Msg>)
  {
    forall i :: 0 <= i < |ms| ==> ms[i].err == None
  }

  ghost predicate Inv(s: State)
  {
    && MessagesOk(s)
    && ServerOk(s, Http) && ServerOk(s, Grpc)
    && s.events == Done(s)
    && ArmOk(s)
  }

  predicate Receives(pc: Pc)
  {
    pc.Select? || pc.ErrDrain? || pc.FailDrain? || pc.FailDrainAgain? || pc.Drain? || pc.DrainAgain?
  }

  /** Neither a message nor the departure of a goroutine. */
  ghost predicate SameMessages(s: State, t: State)
  {
    && t.received == s.received && t.chan == s.chan
    && (t.http.thread.Gone? <==> s.http.thread.Gone?) && (t.grpc.thread.Gone? <==> s.grpc.thread.Gone?)
    && (s.http.stopped ==> t.http.stopped) && (s.grpc.stopped ==> t.grpc.stopped)
  }

  lemma SameMessagesOk(s: State, t: State)
    requires MessagesOk(s) && SameMessages(s, t) && Taken(t) == Taken(s)
    ensures MessagesOk(t)
  {
    assert Sends(t) == Sends(s);
  }

  lemma ReceiveOk(s: State, t: State)
    requires MessagesOk(s) && s.chan != [] && Taken(t) == Taken(s) + 1
    requires t.received == Receive(s).received && t.chan == Receive(s).chan && t.http == s.http && t.grpc == s.grpc
    ensures MessagesOk(t)
  {
    assert Sends(t) == Sends(s);
  }

  lemma FromGoneSnoc(s: State, t: State, ms: seq<Msg>, m: Msg)
    requires FromGone(s, ms) && Srv(s, m.side).thread.Leaving? && (m.err == None ==> Srv(s, m.side).stopped)
    requires t.http == SetSrv(s, m.side, Srv(s, m.side).(thread := Gone)).http
    requires t.grpc == SetSrv(s, m.side, Srv(s, m.side).(thread := Gone)).grpc
    ensures FromGone(t, ms + [m]) && (forall i :: 0 <= i < |ms| ==> ms[i].side != m.side)
    ensures GoneCount(t) == GoneCount(s) + 1
  {
  }

  lemma DistinctSnoc(ms: seq<Msg>, m: Msg)
    requires DistinctSides(ms) && forall i :: 0 <= i < |ms| ==> ms[i].side != m.side
    ensures DistinctSides(ms + [m])
  {
  }

  lemma SendOk(s: State, side: Side, t: State)
    requires MessagesOk(s) && ServerOk(s, side) && Srv(s, side).thread.Leaving?
    requires t == SetSrv(s, side, Srv(s, side).(thread := Gone)).(chan := s.chan + [Msg(side, Srv(s, side).thread.err)])
    ensures MessagesOk(t)
  {
    var ms, m := Sends(s), Msg(side, Srv(s, side).thread.err);
    FromGoneSnoc(s, t, ms, m);
    DistinctSnoc(ms, m);
    assert Sends(t) == ms + [m];
  }

  lemma MainTaken(cfg: Config, s: State, ok: bool)
    requires ArmOk(s) && CanMain(s, ok) && !Receives(s.pc)
    ensures Taken(MainStep(cfg, s, ok)) == Taken(s)
  {
  }

  lemma OpensSameMessages(cfg: Config, s: State, ok: bool)
    requires CanMain(s, ok) && s.pc.Opens?
    ensures SameMessages(s, MainStep(cfg, s, ok))
  {
  }

  lemma MainSameMessages(cfg: Config, s: State, ok: bool)
    requires CanMain(s, ok) && !Receives(s.pc)
    requires s.pc.Launch? ==> Srv(s, s.pc.side).thread.Absent?
    ensures SameMessages(s, MainStep(cfg, s, ok))
  {
    if s.pc.Opens? { OpensSameMessages(cfg, s, ok); }
  }

  lemma ServeMessagesOk(cfg: Config, s: State, l: Label)
    requires MessagesOk(s) && ServerOk(s, Http) && ServerOk(s, Grpc) && Enabled(s, l) && !l.Main? && !l.MainCtx?
    ensures MessagesOk(Next(cfg, s, l))
  {
    if l.Serve? && Srv(s, l.side).thread.Leaving? {
      SendOk(s, l.side, Next(cfg, s, l));
    } else {
      SameMessagesOk(s, Next(cfg, s, l));
    }
  }

  lemma MainMessagesOk(cfg: Config, s: State, ok: bool)
    requires MessagesOk(s) && ArmOk(s) && CanMain(s, ok)
    requires s.pc.Launch? ==> Srv(s, s.pc.side).thread.Absent?
    ensures MessagesOk(MainStep(cfg, s, ok))
  {
    if Receives(s.pc) {
      ReceiveOk(s, MainStep(cfg, s, ok));
    } else {
      MainTaken(cfg, s, ok);
      MainSameMessages(cfg, s, ok);
      SameMessagesOk(s, MainStep(cfg, s, ok));
    }
  }

  lemma StepMessagesOk(cfg: Config, s: State, l: Label)
    requires Inv(s) && Enabled(s, l)
    ensures MessagesOk(Next(cfg, s, l))
  {
    if l.Main? {
      MainMessagesOk(cfg, s, l.ok);
    } else if l.MainCtx? {
      SameMessagesOk(s, Next(cfg, s, l));
    } else {
      ServeMessagesOk(cfg, s, l);
    }
  }

  // ---- the servers ----

  predicate Stops(pc: Pc)
  {
    pc.ErrClose? || pc.ErrStop? || pc.Shutdown? || pc.FailStop? || pc.GracefulStop?
  }

  lemma OpenStepServers(cfg: Config, s: State, ok: bool, side: Side)
    requires CanMain(s, ok) && s.pc.Opens? && s.arm.NotTaken?
    ensures var t := MainStep(cfg, s, ok);
      && t.events == s.events && t.arm == s.arm
      && (Acquiring(t.pc) || (t.pc.Launch? && t.pc.side.Http?) || t.pc.Returned?)
      && Srv(t, side).thread == Srv(s, side).thread && Srv(t, side).stopped == Srv(s, side).stopped
  {
  }

  lemma OpensListener(cfg: Config, s: State, side: Side)
    requires s.pc.Opens? && ListenerAt(s, side)
    ensures ListenerAt(OpenStep(cfg, s, s.pc.side, s.pc.step, true), side)
  {
  }

  lemma OpenFailsListener(cfg: Config, s: State, side: Side)
    requires s.pc.Opens? && ListenerAt(s, side)
    ensures ListenerAt(OpenStep(cfg, s, s.pc.side, s.pc.step, false), side)
  {
    var t := OpenStep(cfg, s, s.pc.side, s.pc.step, false);
    assert if s.pc.side.Http? then t.pc.Returned? else t.pc.CloseHttp?;
  }

  lemma OpenServerOk(cfg: Config, s: State, ok: bool, side: Side)
    requires ServerOk(s, side) && s.events == [] && CanMain(s, ok) && s.pc.Opens? && s.arm.NotTaken?
    ensures ServerOk(MainStep(cfg, s, ok), side)
  {
    OpenStepServers(cfg, s, ok, side);
    if ok { OpensListener(cfg, s, side); } else { OpenFailsListener(cfg, s, side); }
  }

  lemma AcquireServerOk(cfg: Config, s: State, ok: bool, side: Side)
    requires Inv(s) && CanMain(s, ok) && (Acquiring(s.pc) || s.pc.Launch?) && !s.pc.Opens?
    ensures ServerOk(MainStep(cfg, s, ok), side)
  {
    var t := MainStep(cfg, s, ok);
    assert t.events == [] && !Srv(t, side).stopped;
  }

  /** Which server a stopping step stops. */
  function StoppedSide(pc: Pc): Side
  {
    if pc.ErrClose? || pc.Shutdown? then Http else Grpc
  }

  predicate GracefulAt(pc: Pc)
  {
    pc.Shutdown? || pc.GracefulStop?
  }

  lemma StopStep(cfg: Config, s: State, ok: bool)
    requires CanMain(s, ok) && Stops(s.pc)
    ensures var t, side := MainStep(cfg, s, ok), StoppedSide(s.pc); var other := if side.Http? then Grpc else Http;
      && t.events == s.events + [Stopped(side, GracefulAt(s.pc))] && t.arm == s.arm && !Acquiring(t.pc) && !t.pc.Launch? && !t.pc.Returned?
      && Srv(t, other) == Srv(s, other)
      && Srv(t, side) == Srv(StopServer(s, side, true), side)
  {
  }

  lemma StopServerOk(cfg: Config, s: State, ok: bool, side: Side)
    requires ServerOk(s, side) && CanMain(s, ok) && Stops(s.pc)
    ensures ServerOk(MainStep(cfg, s, ok), side)
  {
    StopStep(cfg, s, ok);
  }

  lemma QuietServerOk(cfg: Config, s: State, ok: bool, side: Side)
    requires ServerOk(s, side) && ArmOk(s) && CanMain(s, ok)
    requires !Acquiring(s.pc) && !s.pc.Launch? && !Stops(s.pc)
    ensures ServerOk(MainStep(cfg, s, ok), side)
  {
    var t := MainStep(cfg, s, ok);
    assert Srv(t, side) == Srv(s, side);
    assert WasStopped(t.events, side) <==> WasStopped(s.events, side);
  }

  lemma MainServerOk(cfg: Config, s: State, ok: bool, side: Side)
    requires Inv(s) && CanMain(s, ok)
    ensures ServerOk(MainStep(cfg, s, ok), side)
  {
    if s.pc.Opens? {
      OpenServerOk(cfg, s, ok, side);
    } else if Acquiring(s.pc) || s.pc.Launch? {
      AcquireServerOk(cfg, s, ok, side);
    } else if Stops(s.pc) {
      StopServerOk(cfg, s, ok, side);
    } else {
      QuietServerOk(cfg, s, ok, side);
    }
  }

  lemma ServeServerOk(cfg: Config, s: State, l: Label, side: Side)
    requires ServerOk(s, side) && Enabled(s, l) && (l.Serve? || l.Crash?)
    ensures ServerOk(Next(cfg, s, l), side)
  {
    var t := Next(cfg, s, l);
    assert t.events == s.events && t.pc == s.pc && t.arm == s.arm;
    if l.side != side {
      assert Srv(t, side) == Srv(s, side);
    }
  }

  lemma ContextServerOk(cfg: Config, s: State, l: Label, side: Side)
    requires ServerOk(s, side) && Enabled(s, l) && (l.Cancel? || l.MainCtx?)
    ensures ServerOk(Next(cfg, s, l), side)
  {
    assert Srv(Next(cfg, s, l), side) == Srv(s, side);
  }

  lemma StepServerOk(cfg: Config, s: State, l: Label, side: Side)
    requires Inv(s) && Enabled(s, l)
    ensures ServerOk(Next(cfg, s, l), side)
  {
    if l.Main? {
      MainServerOk(cfg, s, l.ok, side);
    } else if l.Serve? || l.Crash? {
      ServeServerOk(cfg, s, l, side);
    } else {
      ContextServerOk(cfg, s, l, side);
    }
  }

  // ---- the events and the result ----

  /** The steps that add to the events. */
  predicate Acts(pc: Pc)
  {
    Stops(pc) || pc.GoDown?
  }

  lemma QuietEventsOk(cfg: Config, s: State, ok: bool)
    requires ArmOk(s) && CanMain(s, ok) && !Acts(s.pc)
    ensures Done(MainStep(cfg, s, ok)) == Done(s) && MainStep(cfg, s, ok).events == s.events
  {
  }

  lemma ErrEventsOk(cfg: Config, s: State, ok: bool)
    requires s.events == Done(s) && CanMain(s, ok) && (s.pc.ErrClose? || s.pc.ErrStop?)
    ensures MainStep(cfg, s, ok).events == Done(MainStep(cfg, s, ok))
  {
    assert MainStep(cfg, s, ok).events == s.events + [Stopped(if s.pc.ErrClose? then Http else Grpc, false)];
  }

  lemma CancelEventsOk(cfg: Config, s: State, ok: bool)
    requires s.events == Done(s) && CanMain(s, ok) && Acts(s.pc) && !s.pc.ErrClose? && !s.pc.ErrStop?
    ensures MainStep(cfg, s, ok).events == Done(MainStep(cfg, s, ok))
  {
    var t := MainStep(cfg, s, ok);
    if s.pc.GoDown? {
      assert t.events == s.events + [WentDown];
    } else {
      assert t.events == s.events + [Stopped(if s.pc.Shutdown? then Http else Grpc, GracefulAt(s.pc))];
    }
  }

  lemma StepEventsOk(cfg: Config, s: State, l: Label)
    requires ArmOk(s) && s.events == Done(s) && Enabled(s, l)
    ensures Next(cfg, s, l).events == Done(Next(cfg, s, l))
  {
    if !l.Main? {
      assert Next(cfg, s, l).events == s.events;
    } else if !Acts(s.pc) {
      QuietEventsOk(cfg, s, l.ok);
    } else if s.pc.ErrClose? || s.pc.ErrStop? {
      ErrEventsOk(cfg, s, l.ok);
    } else {
      CancelEventsOk(cfg, s, l.ok);
    }
  }

  /** Before the select has chosen, nothing was stopped, so a received result is an error. */
  lemma FirstResultIsError(s: State)
    requires Inv(s) && s.pc.Select? && s.chan != []
    ensures s.chan[0].err.Some?
  {
    assert Sends(s)[|s.received|] == s.chan[0];
  }

  lemma ReceiveArmOk(cfg: Config, s: State, ok: bool)
    requires ArmOk(s) && CanMain(s, ok) && Receives(s.pc) && |s.received| == Taken(s)
    requires s.pc.Select? ==> s.chan[0].err.Some?
    ensures ArmOk(MainStep(cfg, s, ok))
  {
    var t := MainStep(cfg, s, ok);
    assert t.received == s.received + [s.chan[0]];
    if s.pc.DrainAgain? {
      assert t.received[0] == s.received[0] && t.received[1] == s.chan[0];
    }
  }

  lemma AcquireArmOk(cfg: Config, s: State, ok: bool)
    requires ArmOk(s) && CanMain(s, ok) && (Acquiring(s.pc) || s.pc.Launch?)
    ensures ArmOk(MainStep(cfg, s, ok))
  {
    var t := MainStep(cfg, s, ok);
    assert t.arm == s.arm && !ErrArm(t.pc) && !CancelArm(t.pc);
  }

  lemma EndArmOk(cfg: Config, s: State, ok: bool)
    requires ArmOk(s) && CanMain(s, ok) && Acts(s.pc)
    ensures ArmOk(MainStep(cfg, s, ok))
  {
    var t := MainStep(cfg, s, ok);
    assert t.received == s.received && t.arm == s.arm && !t.pc.Returned?;
  }

  lemma ServeArmOk(cfg: Config, s: State, l: Label)
    requires ArmOk(s) && Enabled(s, l) && !l.Main?
    ensures ArmOk(Next(cfg, s, l))
  {
    assert Next(cfg, s, l).received == s.received;
  }

  lemma StepArmOk(cfg: Config, s: State, l: Label)
    requires Inv(s) && Enabled(s, l)
    ensures ArmOk(Next(cfg, s, l))
  {
    if l.Main? && Receives(s.pc) {
      if s.pc.Select? { FirstResultIsError(s); }
      ReceiveArmOk(cfg, s, l.ok);
    } else if l.Main? && Acts(s.pc) {
      EndArmOk(cfg, s, l.ok);
    } else if l.Main? {
      AcquireArmOk(cfg, s, l.ok);
    } else {
      ServeArmOk(cfg, s, l);
    }
  }

  lemma NextInv(cfg: Config, s: State, l: Label)
    requires Inv(s) && Enabled(s, l)
    ensures Inv(Next(cfg, s, l))
  {
    StepMessagesOk(cfg, s, l);
    StepServerOk(cfg, s, l, Http);
    StepServerOk(cfg, s, l, Grpc);
    StepEventsOk(cfg, s, l);
    StepArmOk(cfg, s, l);
  }

  lemma InitInv(cfg: Config, s: State)
    requires Init(cfg, s)
    ensures Inv(s)
  {
  }
}

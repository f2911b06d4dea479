/** server.Health (pkg/server/health.go): one readiness state shown on two surfaces, the
    HTTP handler and the gRPC health service. First the object as called by one goroutine,
    then any number of overlapping calls. */
module Health {
  import opened Base

  /** grpc.health.v1's serving status; Unknown is its zero value. */
  datatype Status = Unknown | Serving | NotServing

  class HealthServer {
    var status: Status

    constructor ()
      ensures status == Serving
    {
      status := Serving;
    }

    method SetServingStatus(s: Status)
      modifies this
      ensures status == s
    {
      status := s;
    }
  }

  class Health {
    var serving: Status
    var grpc: HealthServer?

    /** Both surfaces show the same status. */
    ghost predicate Agree()
      reads this, grpc
    {
      grpc != null ==> grpc.status == serving
    }

    /** The zero value, Health{}. */
    constructor Zero()
      ensures serving == Unknown && grpc == null
    {
      serving, grpc := Unknown, null;
    }

    constructor NewHealth()
      ensures serving == Serving && grpc == null
    {
      serving, grpc := Serving, null;
    }

    /** Uninterrupted, it leaves both surfaces agreed on the status it was given. */
    method SetServing(b: bool)
      modifies this, grpc
      ensures b ==> serving == Serving && (grpc != null ==> grpc.status == Serving)
      ensures !b ==> serving == NotServing && (grpc != null ==> grpc.status == NotServing)
      ensures grpc == old(grpc)
    {
      var status := if b then Serving else NotServing;
      serving := status;
      var gh := grpc;
      if gh != null {
        gh.SetServingStatus(status);
      }
    }

    /** Uninterrupted, the new gRPC surface starts out agreed with the HTTP one. */
    method Attach()
      modifies this
      ensures serving == old(serving) && grpc != null && fresh(grpc) && Agree()
    {
      var gh := new HealthServer();
      gh.SetServingStatus(serving);
      grpc := gh;
    }

    /** The HTTP surface answers 200 for SERVING only: on a zero value it answers 503. */
    method HttpHandler() returns (code: int, body: string)
      ensures code == 200 <==> serving == Serving
      ensures (code, body) == (200, "SERVING\n") || (code, body) == (503, "NOT_SERVING\n")
    {
      if serving == Serving {
        return 200, "SERVING\n";
      }
      return 503, "NOT_SERVING\n";
    }
  }

  /** What a zero value shows: 503 on the HTTP surface, and UNKNOWN on a gRPC surface
      attached to it. A Health from NewHealth shows 200 and SERVING. */
  method FirstAnswers(zero: bool) returns (code: int, status: Status)
    ensures zero ==> code == 503 && status == Unknown
    ensures !zero ==> code == 200 && status == Serving
  {
    var h: Health;
    if zero { h := new Health.Zero(); } else { h := new Health.NewHealth(); }
    var body;
    code, body := h.HttpHandler();
    h.Attach();
    status := h.grpc.status;
  }

  /** What SetServing(b) makes of both surfaces, whatever they showed before: 200 and SERVING
      for true, 503 and NOT_SERVING for false. */
  method AnswersAfter(zero: bool, attachFirst: bool, b: bool) returns (code: int, status: Status)
    ensures b ==> code == 200 && status == Serving
    ensures !b ==> code == 503 && status == NotServing
  {
    var h: Health;
    if zero { h := new Health.Zero(); } else { h := new Health.NewHealth(); }
    if attachFirst { h.Attach(); }
    h.SetServing(b);
    if !attachFirst { h.Attach(); }
    var body;
    code, body := h.HttpHandler();
    status := h.grpc.status;
  }

  // ---- overlapping calls on a Health from NewHealth ----

  datatype Op = Set(status: Status) | Attach

  datatype Pc =
    | Store                             // serving.Store
    | LoadServer                        // gh := h.grpc, under mu
    | Push(server: Option<nat>)         // gh.SetServingStatus
    | NewServer                         // health.NewServer
    | LoadStatus(gh: nat)               // h.status()
    | Seed(gh: nat, seen: Status)       // gh.SetServingStatus
    | Bind(gh: nat)                     // h.grpc = gh, under mu
    | Finished

  datatype Call = Call(op: Op, pc: Pc)

  /** `surfaces` are the gRPC health servers made so far; `last` is history: the status
      most recently stored. */
  datatype State = State(serving: Status, grpc: Option<nat>, surfaces: seq<Status>, calls: map<Cid, Call>, last: Status)

  datatype Label = Spawn(c: Cid, op: Op) | Step(c: Cid)

  predicate Enabled(s: State, l: Label)
  {
    match l
    case Spawn(c, op) => c !in s.calls && (op.Set? ==> op.status != Unknown)
    case Step(c) =>
      && c in s.calls
      && var pc := s.calls[c].pc;
      && !pc.Finished?
      && (pc.Push? && pc.server.Some? ==> pc.server.value < |s.surfaces|)
      && (pc.Seed? ==> pc.gh < |s.surfaces|)
      && (pc.Store? || pc.LoadServer? || pc.Push? ==> s.calls[c].op.Set?)
  }

  function Next(s: State, l: Label): State
    requires Enabled(s, l)
  {
    match l
    case Spawn(c, op) => s.(calls := s.calls[c := Call(op, if op.Set? then Store else NewServer)])
    case Step(c) =>
      var op := s.calls[c].op;
      match s.calls[c].pc
      case Store => AtPc(s, c, LoadServer).(serving := op.status, last := op.status)
      case LoadServer => AtPc(s, c, Push(s.grpc))
      case Push(gh) =>
        if gh.Some? then AtPc(s, c, Finished).(surfaces := s.surfaces[gh.value := op.status]) else AtPc(s, c, Finished)
      case NewServer => AtPc(s, c, LoadStatus(|s.surfaces|)).(surfaces := s.surfaces + [Serving])
      case LoadStatus(gh) => AtPc(s, c, Seed(gh, s.serving))
      case Seed(gh, seen) => AtPc(s, c, Bind(gh)).(surfaces := s.surfaces[gh := seen])
      case Bind(gh) => AtPc(s, c, Finished).(grpc := Some(gh))
  }

  function AtPc(s: State, c: Cid, pc: Pc): State
    requires c in s.calls
  {
    s.(calls := s.calls[c := s.calls[c].(pc := pc)])
  }

  const FRESH := State(Serving, None, [], map[], Serving)

  ghost predicate IsRun(ss: seq<State>, ls: seq<Label>)
  {
    && |ss| == |ls| + 1
    && ss[0] == FRESH
    && forall i :: 0 <= i < |ls| ==> Enabled(ss[i], ls[i]) && ss[i + 1] == Next(ss[i], ls[i])
  }

  /** The initial status, or one some SetServing call was given. */
  ghost predicate Known(s: State, v: Status)
  {
    v == Serving || exists c :: c in s.calls && s.calls[c].op == Set(v)
  }

  ghost predicate CallOk(s: State, call: Call)
  {
    && (call.op.Set? <==> call.pc.Store? || call.pc.LoadServer? || call.pc.Push? || (call.pc.Finished? && call.op.Set?))
    && (call.op.Set? ==> Known(s, call.op.status))
    && (call.pc.Push? && call.pc.server.Some? ==> call.pc.server.value < |s.surfaces|)
    && (call.pc.LoadStatus? || call.pc.Seed? || call.pc.Bind? ==> call.pc.gh < |s.surfaces|)
    && (call.pc.Seed? ==> Known(s, call.pc.seen))
  }

  ghost predicate Inv(s: State)
  {
    && Known(s, s.serving)
    && (forall i :: 0 <= i < |s.surfaces| ==> Known(s, s.surfaces[i]))
    && (s.grpc.Some? ==> s.grpc.value < |s.surfaces|)
    && (forall c :: c in s.calls ==> CallOk(s, s.calls[c]))
  }

  lemma KnownStays(s: State, l: Label, v: Status)
    requires Enabled(s, l) && Known(s, v)
    ensures Known(Next(s, l), v)
  {
    if v != Serving {
      var c :| c in s.calls && s.calls[c].op == Set(v);
      assert Next(s, l).calls[c].op == Set(v);
    }
  }

  /** What was known stays known. */
  ghost predicate Keeps(s: State, t: State)
  {
    forall v :: Known(s, v) ==> Known(t, v)
  }

  lemma StepKeeps(s: State, l: Label)
    requires Enabled(s, l)
    ensures Keeps(s, Next(s, l))
  {
    forall v | Known(s, v)
      ensures Known(Next(s, l), v)
    {
      KnownStays(s, l, v);
    }
  }

  lemma OwnCallOk(s: State, c: Cid)
    requires Inv(s) && Enabled(s, Step(c)) && Keeps(s, Next(s, Step(c)))
    ensures CallOk(Next(s, Step(c)), Next(s, Step(c)).calls[c])
  {
    assert CallOk(s, s.calls[c]);
  }

  lemma OtherCallOk(s: State, l: Label, d: Cid)
    requires Inv(s) && Enabled(s, l) && Keeps(s, Next(s, l)) && d in s.calls && l.c != d
    ensures CallOk(Next(s, l), Next(s, l).calls[d])
  {
    assert CallOk(s, s.calls[d]);
  }

  lemma StepSurfaces(s: State, c: Cid)
    requires Inv(s) && Enabled(s, Step(c)) && Keeps(s, Next(s, Step(c)))
    ensures var t := Next(s, Step(c));
      && Known(t, t.serving)
      && (forall i :: 0 <= i < |t.surfaces| ==> Known(t, t.surfaces[i]))
      && (t.grpc.Some? ==> t.grpc.value < |t.surfaces|)
  {
    assert CallOk(s, s.calls[c]);
  }

  lemma NextInv(s: State, l: Label)
    requires Inv(s) && Enabled(s, l)
    ensures Inv(Next(s, l))
  {
    var t := Next(s, l);
    StepKeeps(s, l);
    if l.Step? {
      OwnCallOk(s, l.c);
      StepSurfaces(s, l.c);
    } else if l.op.Set? {
      assert t.calls[l.c].op == Set(l.op.status);
    }
    forall d | d in t.calls && d != l.c
      ensures CallOk(t, t.calls[d])
    {
      OtherCallOk(s, l, d);
    }
  }

  lemma {:induction false} RunInv(ss: seq<State>, ls: seq<Label>, i: nat)
    requires IsRun(ss, ls) && i < |ss|
    ensures Inv(ss[i])
  {
    if i > 0 {
      RunInv(ss, ls, i - 1);
      NextInv(ss[i - 1], ls[i - 1]);
    }
  }

  /** However the calls overlap, the HTTP surface and every gRPC surface ever made show
      SERVING, the initial status, or a status some SetServing call was given. */
  lemma SurfacesShowWhatWasSet(ss: seq<State>, ls: seq<Label>, i: nat)
    requires IsRun(ss, ls) && i < |ss|
    ensures Known(ss[i], ss[i].serving)
    ensures forall k :: 0 <= k < |ss[i].surfaces| ==> Known(ss[i], ss[i].surfaces[k])
    ensures ss[i].grpc.Some? ==> ss[i].grpc.value < |ss[i].surfaces|
  {
    RunInv(ss, ls, i);
  }

  // ---- which overlaps keep the surfaces agreed ----

  /** SetServing stores one of two statuses. */
  predicate Callable(op: Op)
  {
    op.Set? ==> op.status != Unknown
  }

  predicate InFlight(s: State, c: Cid)
  {
    c in s.calls && !s.calls[c].pc.Finished?
  }

  ghost predicate Quiet(s: State)
  {
    forall c :: c in s.calls ==> !InFlight(s, c)
  }

  /** Both surfaces show the status stored last. */
  ghost predicate Agree(s: State)
  {
    && s.serving == s.last
    && (s.grpc.Some? ==> s.grpc.value < |s.surfaces| && s.surfaces[s.grpc.value] == s.last)
  }

  /** allowed(p, q): a call p may arrive while a call q is in flight. */
  ghost predicate MayArrive(allowed: (Op, Op) -> bool, s: State, op: Op)
  {
    forall c :: c in s.calls && InFlight(s, c) ==> allowed(op, s.calls[c].op)
  }

  ghost predicate Obeys(allowed: (Op, Op) -> bool, ss: seq<State>, ls: seq<Label>)
    requires |ss| == |ls| + 1
  {
    forall i :: 0 <= i < |ls| && ls[i].Spawn? ==> MayArrive(allowed, ss[i], ls[i].op)
  }

  /** The surface an attach is preparing. */
  function Preparing(pc: Pc): Option<nat>
  {
    match pc
    case LoadStatus(gh) => Some(gh)
    case Seed(gh, _) => Some(gh)
    case Bind(gh) => Some(gh)
    case _ => None
  }

  /** An attach prepares a surface of its own and has read the status that is set. */
  ghost predicate AttachFollows(s: State, pc: Pc)
  {
    && (Preparing(pc).Some? ==> Preparing(pc).value < |s.surfaces| && s.grpc != Preparing(pc))
    && (pc.Seed? ==> pc.seen == s.serving)
    && (pc.Bind? ==> s.surfaces[pc.gh] == s.serving)
  }

  /** A SetServing past its store sees its status set, and pushes to the bound surface. */
  ghost predicate SetFollows(s: State, status: Status, pc: Pc)
  {
    && (pc.LoadServer? || pc.Push? ==> s.serving == status)
    && (pc.Push? ==> pc.server == s.grpc)
  }

  /** All calls in flight are alike, and the surfaces agree or are about to. */
  ghost predicate Coherent(s: State, op: Op)
  {
    && s.serving == s.last
    && (forall c :: c in s.calls && InFlight(s, c) ==> s.calls[c].op == op)
    && (if op.Attach? then
          && Agree(s)
          && (forall c :: c in s.calls && InFlight(s, c) ==> AttachFollows(s, s.calls[c].pc))
          && (forall c, d :: c in s.calls && d in s.calls && c != d && InFlight(s, c) && InFlight(s, d) ==>
                Preparing(s.calls[c].pc).Some? ==> Preparing(s.calls[c].pc) != Preparing(s.calls[d].pc))
        else
          && (Quiet(s) ==> Agree(s))
          && (forall c :: c in s.calls && InFlight(s, c) ==> SetFollows(s, op.status, s.calls[c].pc)))
  }

  lemma ArrivalCoherent(s: State, c: Cid, op: Op)
    requires Inv(s) && Enabled(s, Spawn(c, op)) && (Coherent(s, op) || (Quiet(s) && Agree(s)))
    ensures Coherent(Next(s, Spawn(c, op)), op)
  {
    var t := Next(s, Spawn(c, op));
    assert InFlight(t, c);
    forall d | d in t.calls && InFlight(t, d) && d != c
      ensures InFlight(s, d)
    {
    }
  }

  lemma AttachCoherent(s: State, c: Cid)
    requires Inv(s) && Enabled(s, Step(c)) && Coherent(s, Attach)
    ensures Coherent(Next(s, Step(c)), Attach)
  {
    var t := Next(s, Step(c));
    assert InFlight(s, c) && CallOk(s, s.calls[c]);
    forall d | d in t.calls && InFlight(t, d) && d != c
      ensures InFlight(s, d) && t.calls[d] == s.calls[d] && AttachFollows(t, t.calls[d].pc)
    {
      assert AttachFollows(s, s.calls[d].pc);
    }
  }

  lemma SetCoherent(s: State, c: Cid, status: Status)
    requires Inv(s) && Enabled(s, Step(c)) && Coherent(s, Set(status))
    ensures Coherent(Next(s, Step(c)), Set(status))
  {
    var t := Next(s, Step(c));
    assert InFlight(s, c) && CallOk(s, s.calls[c]);
    if !s.calls[c].pc.Push? { assert InFlight(t, c); }
    forall d | d in t.calls && InFlight(t, d) && d != c
      ensures InFlight(s, d) && t.calls[d] == s.calls[d]
    {
    }
  }

  lemma {:induction false} RunCoherent(allowed: (Op, Op) -> bool, ss: seq<State>, ls: seq<Label>, i: nat) returns (op: Op)
    requires IsRun(ss, ls) && Obeys(allowed, ss, ls) && i < |ss|
    requires forall p, q :: Callable(p) && Callable(q) && allowed(p, q) ==> p == q
    ensures Coherent(ss[i], op)
  {
    op := Attach;
    if i > 0 {
      op := RunCoherent(allowed, ss, ls, i - 1);
      RunInv(ss, ls, i - 1);
      var s, l := ss[i - 1], ls[i - 1];
      if l.Spawn? {
        if !Quiet(s) {
          var c :| c in s.calls && InFlight(s, c);
          assert Callable(l.op) && allowed(l.op, s.calls[c].op);
          InFlightCallable(ss, ls, i - 1, c);
        }
        op := l.op;
        ArrivalCoherent(s, l.c, op);
      } else if op.Attach? {
        AttachCoherent(s, l.c);
      } else {
        SetCoherent(s, l.c, op.status);
      }
    }
  }

  lemma {:induction false} InFlightCallable(ss: seq<State>, ls: seq<Label>, i: nat, c: Cid)
    requires IsRun(ss, ls) && i < |ss| && c in ss[i].calls
    ensures Callable(ss[i].calls[c].op)
  {
    if i > 0 && c in ss[i - 1].calls { InFlightCallable(ss, ls, i - 1, c); }
  }

  // ---- the overlaps that part the surfaces ----

  /** t ends a run that obeys. */
  ghost predicate Reachable(allowed: (Op, Op) -> bool, t: State)
  {
    exists ss, ls :: IsRun(ss, ls) && Obeys(allowed, ss, ls) && ss[|ss| - 1] == t
  }

  lemma ReachesNext(allowed: (Op, Op) -> bool, s: State, l: Label)
    requires Reachable(allowed, s) && Enabled(s, l) && (l.Spawn? ==> MayArrive(allowed, s, l.op))
    ensures Reachable(allowed, Next(s, l))
  {
    var ss, ls :| IsRun(ss, ls) && Obeys(allowed, ss, ls) && ss[|ss| - 1] == s;
    var ss', ls' := ss + [Next(s, l)], ls + [l];
    forall i | 0 <= i < |ls'|
      ensures Enabled(ss'[i], ls'[i]) && ss'[i + 1] == Next(ss'[i], ls'[i])
      ensures ls'[i].Spawn? ==> MayArrive(allowed, ss'[i], ls'[i].op)
    {
      if i < |ls| { assert ss'[i] == ss[i] && ss'[i + 1] == ss[i + 1] && ls'[i] == ls[i]; }
    }
    assert IsRun(ss', ls') && Obeys(allowed, ss', ls');
  }

  /** One step of call c, in a state written out. */
  lemma Go(allowed: (Op, Op) -> bool, s: State, c: Cid, t: State)
    requires Reachable(allowed, s) && Enabled(s, Step(c)) && t == Next(s, Step(c))
    ensures Reachable(allowed, t)
  {
    ReachesNext(allowed, s, Step(c));
  }

  lemma Arrive(allowed: (Op, Op) -> bool, s: State, c: Cid, op: Op, t: State)
    requires Reachable(allowed, s) && c !in s.calls && Callable(op) && MayArrive(allowed, s, op)
    requires t == s.(calls := s.calls[c := Call(op, if op.Set? then Store else NewServer)])
    ensures Reachable(allowed, t)
  {
    ReachesNext(allowed, s, Spawn(c, op));
  }

  /** A Health on which one attach has run. */
  function Attached(): State
  {
    State(Serving, Some(0), [Serving], map[0 := Call(Attach, Finished)], Serving)
  }

  lemma ReachesAttached(allowed: (Op, Op) -> bool)
    ensures Reachable(allowed, Attached())
  {
    assert IsRun([FRESH], []) && Obeys(allowed, [FRESH], []);
    var s1 := FRESH.(calls := map[0 := Call(Attach, NewServer)]);
    Arrive(allowed, FRESH, 0, Attach, s1);
    var s2 := State(Serving, None, [Serving], map[0 := Call(Attach, LoadStatus(0))], Serving);
    Go(allowed, s1, 0, s2);
    var s3 := s2.(calls := map[0 := Call(Attach, Seed(0, Serving))]);
    Go(allowed, s2, 0, s3);
    var s4 := s3.(calls := map[0 := Call(Attach, Bind(0))]);
    Go(allowed, s3, 0, s4);
    Go(allowed, s4, 0, Attached());
  }

  /** Two SetServing calls of different statuses: the first to store pushes last. */
  lemma SetsDisagree(allowed: (Op, Op) -> bool, v: Status, w: Status) returns (t: State)
    requires v != w && v != Unknown && w != Unknown && allowed(Set(v), Set(w))
    ensures Reachable(allowed, t) && Quiet(t) && !Agree(t)
  {
    ReachesAttached(allowed);
    var a := map[0 := Call(Attach, Finished)];
    var s := Attached();
    var s1 := s.(calls := a[1 := Call(Set(w), Store)]);
    Arrive(allowed, s, 1, Set(w), s1);
    var s2 := State(w, Some(0), [Serving], a[1 := Call(Set(w), LoadServer)], w);
    Go(allowed, s1, 1, s2);
    var s3 := s2.(calls := a[1 := Call(Set(w), Push(Some(0)))]);
    Go(allowed, s2, 1, s3);
    t := SecondSetFirst(allowed, v, w, s3);
  }

  lemma SecondSetFirst(allowed: (Op, Op) -> bool, v: Status, w: Status, s: State) returns (t: State)
    requires v != w && v != Unknown && w != Unknown && allowed(Set(v), Set(w)) && Reachable(allowed, s)
    requires s == State(w, Some(0), [Serving], map[0 := Call(Attach, Finished), 1 := Call(Set(w), Push(Some(0)))], w)
    ensures Reachable(allowed, t) && Quiet(t) && !Agree(t)
  {
    var b := s.calls;
    var s1 := s.(calls := b[2 := Call(Set(v), Store)]);
    Arrive(allowed, s, 2, Set(v), s1);
    var s2 := State(v, Some(0), [Serving], b[2 := Call(Set(v), LoadServer)], v);
    Go(allowed, s1, 2, s2);
    var s3 := s2.(calls := b[2 := Call(Set(v), Push(Some(0)))]);
    Go(allowed, s2, 2, s3);
    t := FirstPushesLast(allowed, v, w, s3);
  }

  lemma FirstPushesLast(allowed: (Op, Op) -> bool, v: Status, w: Status, s: State) returns (t: State)
    requires v != w && Reachable(allowed, s)
    requires s == State(v, Some(0), [Serving],
      map[0 := Call(Attach, Finished), 1 := Call(Set(w), Push(Some(0))), 2 := Call(Set(v), Push(Some(0)))], v)
    ensures Reachable(allowed, t) && Quiet(t) && !Agree(t)
  {
    var s1 := State(v, Some(0), [v], s.calls[2 := Call(Set(v), Finished)], v);
    Go(allowed, s, 2, s1);
    t := s1.(surfaces := [w], calls := s1.calls[1 := Call(Set(w), Finished)]);
    Go(allowed, s1, 1, t);
  }

  /** A Health on which SetServing has stored v, with nothing attached. */
  function Stored(v: Status): State
  {
    State(v, None, [], map[0 := Call(Set(v), Finished)], v)
  }

  lemma ReachesStored(allowed: (Op, Op) -> bool, v: Status)
    requires v != Unknown
    ensures Reachable(allowed, Stored(v))
  {
    assert IsRun([FRESH], []) && Obeys(allowed, [FRESH], []);
    var s1 := FRESH.(calls := map[0 := Call(Set(v), Store)]);
    Arrive(allowed, FRESH, 0, Set(v), s1);
    var s2 := State(v, None, [], map[0 := Call(Set(v), LoadServer)], v);
    Go(allowed, s1, 0, s2);
    var s3 := s2.(calls := map[0 := Call(Set(v), Push(None))]);
    Go(allowed, s2, 0, s3);
    Go(allowed, s3, 0, Stored(v));
  }

  /** With an attach that has read v and a SetServing of w about to store, the new surface
      is bound showing v. */
  lemma StaleSeedDisagrees(allowed: (Op, Op) -> bool, v: Status, w: Status, s: State) returns (t: State)
    requires v != w && Reachable(allowed, s)
    requires s == State(v, None, [Serving], Stored(v).calls[1 := Call(Attach, Seed(0, v))][2 := Call(Set(w), Store)], v)
    ensures Reachable(allowed, t) && Quiet(t) && !Agree(t)
  {
    var s1 := State(w, None, [Serving], s.calls[2 := Call(Set(w), LoadServer)], w);
    Go(allowed, s, 2, s1);
    var s2 := s1.(calls := s.calls[2 := Call(Set(w), Push(None))]);
    Go(allowed, s1, 2, s2);
    var s3 := s2.(calls := s.calls[2 := Call(Set(w), Finished)]);
    Go(allowed, s2, 2, s3);
    t := StaleBind(allowed, v, w, s3);
  }

  lemma StaleBind(allowed: (Op, Op) -> bool, v: Status, w: Status, s: State) returns (t: State)
    requires v != w && Reachable(allowed, s)
    requires s == State(w, None, [Serving], Stored(v).calls[1 := Call(Attach, Seed(0, v))][2 := Call(Set(w), Finished)], w)
    ensures Reachable(allowed, t) && Quiet(t) && !Agree(t)
  {
    var s1 := State(w, None, [v], s.calls[1 := Call(Attach, Bind(0))], w);
    Go(allowed, s, 1, s1);
    t := s1.(grpc := Some(0), calls := s1.calls[1 := Call(Attach, Finished)]);
    Go(allowed, s1, 1, t);
  }

  function Other(v: Status): Status
  {
    if v == Serving then NotServing else Serving
  }

  /** A SetServing that arrives during an attach. */
  lemma SetDuringAttach(allowed: (Op, Op) -> bool, w: Status) returns (t: State)
    requires w != Unknown && allowed(Set(w), Attach)
    ensures Reachable(allowed, t) && Quiet(t) && !Agree(t)
  {
    var v := Other(w);
    ReachesStored(allowed, v);
    var s, a := Stored(v), Stored(v).calls;
    var s1 := s.(calls := a[1 := Call(Attach, NewServer)]);
    Arrive(allowed, s, 1, Attach, s1);
    var s2 := s.(surfaces := [Serving], calls := a[1 := Call(Attach, LoadStatus(0))]);
    Go(allowed, s1, 1, s2);
    var s3 := s2.(calls := a[1 := Call(Attach, Seed(0, v))]);
    Go(allowed, s2, 1, s3);
    var s4 := s3.(calls := s3.calls[2 := Call(Set(w), Store)]);
    Arrive(allowed, s3, 2, Set(w), s4);
    t := StaleSeedDisagrees(allowed, v, w, s4);
  }

  /** An attach that arrives during a SetServing. */
  lemma AttachDuringSet(allowed: (Op, Op) -> bool, w: Status) returns (t: State)
    requires w != Unknown && allowed(Attach, Set(w))
    ensures Reachable(allowed, t) && Quiet(t) && !Agree(t)
  {
    var v := Other(w);
    ReachesStored(allowed, v);
    var s := Stored(v);
    var s1 := s.(calls := s.calls[2 := Call(Set(w), Store)]);
    Arrive(allowed, s, 2, Set(w), s1);
    var s2 := s.(calls := s1.calls[1 := Call(Attach, NewServer)]);
    Arrive(allowed, s1, 1, Attach, s2);
    t := AttachReadsFirst(allowed, v, w, s2);
  }

  lemma AttachReadsFirst(allowed: (Op, Op) -> bool, v: Status, w: Status, s: State) returns (t: State)
    requires v != w && Reachable(allowed, s)
    requires s == State(v, None, [], Stored(v).calls[2 := Call(Set(w), Store)][1 := Call(Attach, NewServer)], v)
    ensures Reachable(allowed, t) && Quiet(t) && !Agree(t)
  {
    var s1 := s.(surfaces := [Serving], calls := s.calls[1 := Call(Attach, LoadStatus(0))]);
    Go(allowed, s, 1, s1);
    var s2 := s1.(calls := s.calls[1 := Call(Attach, Seed(0, v))]);
    Go(allowed, s1, 1, s2);
    assert s2.calls == Stored(v).calls[1 := Call(Attach, Seed(0, v))][2 := Call(Set(w), Store)];
    t := StaleSeedDisagrees(allowed, v, w, s2);
  }

  /** Let a discipline say which call may arrive while which is in flight. Under it the
      surfaces agree, whenever no call is in flight, in every run that obeys it, if and
      only if it never lets two different calls overlap: attach may overlap attach, and
      SetServing(b) may overlap SetServing(b), but nothing else. */
  lemma AgreementIff(allowed: (Op, Op) -> bool)
    ensures (forall t :: Reachable(allowed, t) && Quiet(t) ==> Agree(t))
       <==> (forall p, q :: Callable(p) && Callable(q) && allowed(p, q) ==> p == q)
  {
    if forall p, q :: Callable(p) && Callable(q) && allowed(p, q) ==> p == q {
      forall t | Reachable(allowed, t) && Quiet(t)
        ensures Agree(t)
      {
        var ss, ls :| IsRun(ss, ls) && Obeys(allowed, ss, ls) && ss[|ss| - 1] == t;
        var op := RunCoherent(allowed, ss, ls, |ss| - 1);
      }
    } else {
      var p, q :| Callable(p) && Callable(q) && allowed(p, q) && p != q;
      var t := Disagreement(allowed, p, q);
    }
  }

  /** Any two different calls, let overlap, can leave the surfaces apart for good. */
  lemma Disagreement(allowed: (Op, Op) -> bool, p: Op, q: Op) returns (t: State)
    requires Callable(p) && Callable(q) && allowed(p, q) && p != q
    ensures Reachable(allowed, t) && Quiet(t) && !Agree(t)
  {
    if p.Attach? {
      t := AttachDuringSet(allowed, q.status);
    } else if q.Attach? {
      t := SetDuringAttach(allowed, p.status);
    } else {
      t := SetsDisagree(allowed, p.status, q.status);
    }
  }
}

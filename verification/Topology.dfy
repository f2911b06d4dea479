/** The load-once topology (pkg/client/topology.go): a state machine for concurrent
    readers against a file that may change, and the sequential bodies over the result. */
module Topology {
  import opened Base

  datatype Peer = Peer(name: Name, kind: string, url: string)

  /** What os.ReadFile and json.Unmarshal would make of the file right now. */
  datatype View = Absent | Unreadable | Malformed | Parsed(peers: seq<Peer>)

  datatype LoadError = NotAvailable | ReadFailed | DecodeFailed

  type Loaded = Result<seq<Peer>, LoadError>

  /** readTopology */
  function ReadTopology(v: View): Loaded
  {
    match v
    case Absent => Err(NotAvailable)
    case Unreadable => Err(ReadFailed)
    case Malformed => Err(DecodeFailed)
    case Parsed(peers) => Ok(peers)
  }

  // ---- concurrent readers ----

  datatype Pc = Enter | Load | Exit | Fetch | Done(got: Loaded)

  /** `loads` counts file reads; it is history. */
  datatype State = State(once: Once, cached: Option<Loaded>, view: View, readers: map<Cid, Pc>, loads: nat)

  datatype Label = Start(r: Cid) | Step(r: Cid) | Rewrite(view: View) | Elsewhere

  predicate Enabled(s: State, l: Label)
  {
    match l
    case Start(r) => r !in s.readers
    case Step(r) =>
      && r in s.readers && !s.readers[r].Done?
      && (s.readers[r].Enter? ==> !s.once.Running?)
      && (s.readers[r].Fetch? ==> s.cached.Some?)
    case Rewrite(_) => true
    case Elsewhere => true
  }

  function Next(s: State, l: Label): State
    requires Enabled(s, l)
  {
    match l
    case Start(r) => s.(readers := s.readers[r := Enter])
    case Rewrite(v) => s.(view := v)
    case Elsewhere => s
    case Step(r) =>
      match s.readers[r]
      case Enter =>
        if s.once.Idle? then s.(once := Running(r), readers := s.readers[r := Load])
        else s.(readers := s.readers[r := Fetch])
      case Load => s.(cached := Some(ReadTopology(s.view)), loads := s.loads + 1, readers := s.readers[r := Exit])
      case Exit => s.(once := Complete(r), readers := s.readers[r := Fetch])
      case Fetch => s.(readers := s.readers[r := Done(s.cached.value)])
  }

  predicate Init(s: State)
  {
    s == State(Idle, None, s.view, map[], 0)
  }

  predicate InBody(pc: Pc)
  {
    pc.Load? || pc.Exit?
  }

  ghost predicate Inv(s: State)
  {
    && (s.once.Running? ==> s.once.runner in s.readers && InBody(s.readers[s.once.runner]))
    && (forall r :: r in s.readers && InBody(s.readers[r]) ==> s.once == Running(r))
    && (s.cached.Some? <==> s.once.Complete? || (s.once.Running? && s.readers[s.once.runner].Exit?))
    && s.loads == (if s.cached.Some? then 1 else 0)
    && (forall r :: r in s.readers && s.readers[r].Fetch? ==> s.once.Complete?)
    && (forall r :: r in s.readers && s.readers[r].Done? ==> s.cached == Some(s.readers[r].got))
  }

  lemma NextInv(s: State, l: Label)
    requires Inv(s) && Enabled(s, l)
    ensures Inv(Next(s, l))
    ensures s.cached.Some? ==> Next(s, l).cached == s.cached
  {
  }

  ghost predicate IsRun(ss: seq<State>, ls: seq<Label>)
  {
    && |ss| == |ls| + 1
    && Init(ss[0])
    && forall i :: 0 <= i < |ls| ==> Enabled(ss[i], ls[i]) && ss[i + 1] == Next(ss[i], ls[i])
  }

  lemma {:induction false} RunInv(ss: seq<State>, ls: seq<Label>, i: nat)
    requires IsRun(ss, ls) && i < |ss|
    ensures Inv(ss[i])
  {
    if i > 0 {
      RunInv(ss, ls, i - 1);
      NextInv(ss[i - 1], ls[i - 1]);
    }
  }

  lemma {:induction false} CachedForever(ss: seq<State>, ls: seq<Label>, i: nat, j: nat)
    requires IsRun(ss, ls) && i <= j < |ss| && ss[i].cached.Some?
    ensures ss[j].cached == ss[i].cached
  {
    if i < j {
      CachedForever(ss, ls, i, j - 1);
      RunInv(ss, ls, j - 1);
      NextInv(ss[j - 1], ls[j - 1]);
    }
  }

  /** The moment k of the one read. */
  lemma {:induction false} LoadMoment(ss: seq<State>, ls: seq<Label>, j: nat) returns (k: nat)
    requires IsRun(ss, ls) && j < |ss| && ss[j].cached.Some?
    ensures k < j && ss[k].cached == None && ss[k + 1].cached == Some(ReadTopology(ss[k].view))
  {
    RunInv(ss, ls, j - 1);
    if ss[j - 1].cached.Some? {
      k := LoadMoment(ss, ls, j - 1);
    } else {
      k := j - 1;
      assert ss[k + 1] == Next(ss[k], ls[k]);
    }
  }

  /** Over any interleaving of readers with changes of the file, every result, an error
      included, comes from one read of the file, at one moment. */
  lemma OneSnapshot(ss: seq<State>, ls: seq<Label>, j: nat) returns (k: nat)
    requires IsRun(ss, ls) && j < |ss|
    ensures ss[j].loads <= 1
    ensures k <= j
    ensures forall i, r :: 0 <= i <= j && r in ss[i].readers && ss[i].readers[r].Done? ==>
      k < i && ss[i].readers[r].got == ReadTopology(ss[k].view)
  {
    RunInv(ss, ls, j);
    k := 0;
    if ss[j].cached.Some? { k := LoadMoment(ss, ls, j); }
    forall i, r | 0 <= i <= j && r in ss[i].readers && ss[i].readers[r].Done?
      ensures k < i && ss[i].readers[r].got == ReadTopology(ss[k].view)
    {
      RunInv(ss, ls, i);
      CachedForever(ss, ls, i, j);
      if i <= k { CachedForever(ss, ls, i, k); }
      CachedForever(ss, ls, k + 1, j);
    }
  }

  // ---- over the loaded value ----

  /** lookupPeer's loop: the first entry with the name. */
  function FindPeer(peers: seq<Peer>, n: Name): (r: Option<Peer>)
    ensures r.Some? ==> r.value in peers && r.value.name == n
    ensures r.None? ==> forall p :: p in peers ==> p.name != n
  {
    if peers == [] then None
    else if peers[0].name == n then Some(peers[0])
    else FindPeer(peers[1..], n)
  }

  lemma {:induction false} FindPeerIsFirst(peers: seq<Peer>, i: nat)
    requires i < |peers| && forall j :: 0 <= j < i ==> peers[j].name != peers[i].name
    ensures FindPeer(peers, peers[i].name) == Some(peers[i])
  {
    if i > 0 {
      assert peers[1..][i - 1] == peers[i];
      FindPeerIsFirst(peers[1..], i - 1);
    }
  }

  function NamesOf(peers: seq<Peer>): (r: seq<Name>)
  {
    seq(|peers|, i requires 0 <= i < |peers| => peers[i].name)
  }

  /** Peers() lists a name iff lookupPeer finds it. */
  lemma {:induction false} ListedIffFound(peers: seq<Peer>, n: Name)
    ensures n in NamesOf(peers) <==> FindPeer(peers, n).Some?
  {
    if n in NamesOf(peers) {
      var i :| 0 <= i < |peers| && NamesOf(peers)[i] == n;
      assert peers[i] in peers;
    }
    if FindPeer(peers, n).Some? {
      var i :| 0 <= i < |peers| && peers[i] == FindPeer(peers, n).value;
      assert NamesOf(peers)[i] == n;
    }
  }

  datatype LookupError = NotLoaded(error: LoadError) | NotFound(name: Name) | NoURL(name: Name)

  /** The package variables topologyOnce, cachedTopology and cachedErr. */
  class Cache {
    var loaded: bool
    var topology: seq<Peer>
    var error: Option<LoadError>

    ghost predicate Fresh()
      reads this
    {
      !loaded
    }

    /** What loadTopology returns, given what the file would read as. */
    ghost function Answer(v: View): Loaded
      reads this
    {
      if !loaded then ReadTopology(v)
      else if error.Some? then Err(error.value)
      else Ok(topology)
    }

    constructor ()
      ensures Fresh()
    {
      loaded, topology, error := false, [], None;
    }

    method LoadTopology(v: View) returns (r: Loaded)
      modifies this
      ensures r == old(Answer(v))
      ensures !old(loaded) ==>
        match v
        case Absent => r == Err(NotAvailable)
        case Unreadable => r == Err(ReadFailed)
        case Malformed => r == Err(DecodeFailed)
        case Parsed(peers) => r == Ok(peers)
      ensures loaded && forall w :: Answer(w) == r
    {
      if !loaded {
        match v {
          case Absent => topology, error := [], Some(NotAvailable);
          case Unreadable => topology, error := [], Some(ReadFailed);
          case Malformed => topology, error := [], Some(DecodeFailed);
          case Parsed(peers) => topology, error := peers, None;
        }
        loaded := true;
      }
      if error.Some? { return Err(error.value); }
      return Ok(topology);
    }

    method LookupPeer(v: View, name: Name) returns (r: Result<Peer, LookupError>)
      modifies this
      ensures loaded && forall w :: Answer(w) == old(Answer(v))
      ensures match old(Answer(v))
              case Err(e) => r == Err(NotLoaded(e))
              case Ok(peers) =>
                match FindPeer(peers, name)
                case None => r == Err(NotFound(name))
                case Some(p) => r == Ok(p)
    {
      var t := LoadTopology(v);
      if t.Err? { return Err(NotLoaded(t.error)); }
      var i := 0;
      while i < |t.value|
        invariant i <= |t.value|
        invariant forall j :: 0 <= j < i ==> t.value[j].name != name
      {
        if t.value[i].name == name {
          FindPeerIsFirst(t.value, i);
          return Ok(t.value[i]);
        }
        i := i + 1;
      }
      return Err(NotFound(name));
    }

    method PeerURL(v: View, name: Name) returns (r: Result<string, LookupError>)
      modifies this
      ensures match old(Answer(v))
              case Err(e) => r == Err(NotLoaded(e))
              case Ok(peers) =>
                match FindPeer(peers, name)
                case None => r == Err(NotFound(name))
                case Some(p) => r == if p.url == "" then Err(NoURL(name)) else Ok(p.url)
    {
      var p := LookupPeer(v, name);
      if p.Err? { return Err(p.error); }
      if p.value.url == "" { return Err(NoURL(name)); }
      return Ok(p.value.url);
    }

    method PeerNames(v: View) returns (r: Result<seq<Name>, LoadError>)
      modifies this
      ensures match old(Answer(v))
              case Err(e) => r == Err(e)
              case Ok(peers) =>
                && r.Ok? && |r.value| == |peers|
                && forall i :: 0 <= i < |peers| ==> r.value[i] == peers[i].name
      ensures loaded && forall w :: Answer(w) == old(Answer(v))
    {
      var t := LoadTopology(v);
      if t.Err? { return Err(t.error); }
      var names: seq<Name> := [];
      for i := 0 to |t.value|
        invariant names == NamesOf(t.value[..i])
      {
        assert t.value[..i + 1] == t.value[..i] + [t.value[i]];
        names := names + [t.value[i].name];
      }
      assert t.value[..|t.value|] == t.value;
      return Ok(names);
    }
  }
}

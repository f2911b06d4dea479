/** How newForPeerCardHeaders decides on TLS and folds the client options
    (pkg/client/client.go). */
module PeerOptions {
  import opened Base
  import opened Topology

  // ---- KYNOMESH_INSECURE_TLS_PEERS ----

  /** The code points strings.TrimSpace strips. */
  predicate IsSpace(c: char)
  {
    || '\t' <= c <= '\r' || c == ' ' || c == '\U{85}' || c == '\U{A0}' || c == '\U{1680}'
    || '\U{2000}' <= c <= '\U{200A}' || c == '\U{2028}' || c == '\U{2029}' || c == '\U{202F}'
    || c == '\U{205F}' || c == '\U{3000}'
  }

  predicate AllSpace(s: string)
  {
    forall i :: 0 <= i < |s| ==> IsSpace(s[i])
  }

  predicate NoComma(s: string)
  {
    forall i :: 0 <= i < |s| ==> s[i] as int != 44
  }

  predicate Trimmed(s: string)
  {
    s != "" ==> !IsSpace(s[0]) && !IsSpace(s[|s| - 1])
  }

  /** The white space of Unicode, as unicode.IsSpace has it, in code points. */
  lemma SpaceCodes(c: char)
    ensures var k := c as int; IsSpace(c) <==>
      k in {9, 10, 11, 12, 13, 32, 133, 160, 5760, 8232, 8233, 8239, 8287, 12288} || 8192 <= k <= 8202
  {
  }

  function TrimLeft(s: string): string
  {
    if s != "" && IsSpace(s[0]) then TrimLeft(s[1..]) else s
  }

  function TrimRight(s: string): string
  {
    if s != "" && IsSpace(s[|s| - 1]) then TrimRight(s[..|s| - 1]) else s
  }

  function TrimSpace(s: string): string
  {
    TrimRight(TrimLeft(s))
  }

  /** strings.Split(s, ",") */
  function Split(s: string): (r: seq<string>)
    ensures r != []
  {
    if s == "" then [""]
    else
      var rest := Split(s[1..]);
      if s[0] == ',' then [""] + rest
      else [[s[0]] + rest[0]] + rest[1..]
  }

  function Join(parts: seq<string>): string
    requires parts != []
  {
    if |parts| == 1 then parts[0] else parts[0] + "," + Join(parts[1..])
  }

  /** The names a list denotes: its segments, trimmed, the blank ones dropped. */
  ghost function Names(parts: seq<string>): set<Name>
  {
    set i | 0 <= i < |parts| && TrimSpace(parts[i]) != "" :: TrimSpace(parts[i])
  }

  /** insecureTLSPeers, over the value of the variable. */
  method InsecureTLSPeers(value: string) returns (names: set<Name>)
    ensures names == Names(Split(value))
  {
    names := {};
    var parts := Split(value);
    for i := 0 to |parts|
      invariant names == Names(parts[..i])
    {
      assert parts[..i + 1] == parts[..i] + [parts[i]];
      var n := TrimSpace(parts[i]);
      NamesSnoc(parts[..i], parts[i]);
      if n != "" {
        names := names + {n};
      }
    }
    assert parts[..|parts|] == parts;
  }

  lemma NamesSnoc(parts: seq<string>, p: string)
    ensures Names(parts + [p]) == Names(parts) + (if TrimSpace(p) != "" then {TrimSpace(p)} else {})
  {
    var all := parts + [p];
    assert forall i :: 0 <= i < |parts| ==> all[i] == parts[i];
    assert all[|parts|] == p;
    forall n
      ensures n in Names(all) <==> n in Names(parts) || (TrimSpace(p) != "" && n == TrimSpace(p))
    {
      if n in Names(parts) {
        var i :| 0 <= i < |parts| && TrimSpace(parts[i]) != "" && n == TrimSpace(parts[i]);
        assert all[i] == parts[i];
      }
    }
  }

  lemma {:induction false} SplitJoin(parts: seq<string>)
    requires parts != [] && forall i :: 0 <= i < |parts| ==> NoComma(parts[i])
    ensures Split(Join(parts)) == parts
    decreases |parts|, |parts[0]|
  {
    var s := Join(parts);
    if parts[0] == "" {
      if |parts| > 1 {
        SplitJoin(parts[1..]);
        assert s[1..] == Join(parts[1..]);
      }
    } else {
      var shorter := [parts[0][1..]] + parts[1..];
      assert forall i :: 0 <= i < |shorter| ==> NoComma(shorter[i]);
      SplitJoin(shorter);
      assert shorter[1..] == parts[1..];
      assert s[1..] == Join(shorter);
      assert [s[0]] + shorter[0] == parts[0];
    }
  }

  lemma {:induction false} SplitParts(s: string)
    ensures forall i :: 0 <= i < |Split(s)| ==> NoComma(Split(s)[i])
    ensures Join(Split(s)) == s
  {
    if s != "" {
      SplitParts(s[1..]);
      var rest := Split(s[1..]);
      if s[0] == ',' {
        assert ([""] + rest)[1..] == rest;
      } else {
        var parts := [[s[0]] + rest[0]] + rest[1..];
        assert parts[1..] == rest[1..];
        assert Join(parts) == [s[0]] + Join(rest);
      }
    }
  }

  lemma {:induction false} TrimLeftPad(w: string, s: string)
    requires AllSpace(w)
    ensures TrimLeft(w + s) == TrimLeft(s)
  {
    if w != "" {
      assert (w + s)[1..] == w[1..] + s;
      TrimLeftPad(w[1..], s);
    } else {
      assert w + s == s;
    }
  }

  lemma {:induction false} TrimRightPad(s: string, w: string)
    requires AllSpace(w)
    ensures TrimRight(s + w) == TrimRight(s)
  {
    if w != "" {
      assert (s + w)[..|s + w| - 1] == s + w[..|w| - 1];
      TrimRightPad(s, w[..|w| - 1]);
    } else {
      assert s + w == s;
    }
  }

  /** Padding a trimmed name on both sides is undone by TrimSpace. */
  lemma TrimPadded(l: string, n: string, r: string)
    requires AllSpace(l) && AllSpace(r) && Trimmed(n)
    ensures TrimSpace(l + n + r) == n
  {
    if n == "" {
      assert l + n + r == l + r && l + r + "" == l + r;
      TrimLeftPad(l + r, "");
    } else {
      assert l + n + r == l + (n + r);
      TrimLeftPad(l, n + r);
      TrimRightPad(n, r);
    }
  }

  lemma {:induction false} TrimLeftSplits(s: string) returns (l: string)
    ensures AllSpace(l) && s == l + TrimLeft(s)
    ensures TrimLeft(s) != "" ==> !IsSpace(TrimLeft(s)[0])
  {
    l := "";
    if s != "" && IsSpace(s[0]) {
      l := TrimLeftSplits(s[1..]);
      l := [s[0]] + l;
    }
  }

  lemma {:induction false} TrimRightSplits(s: string) returns (r: string)
    ensures AllSpace(r) && s == TrimRight(s) + r
    ensures TrimRight(s) != "" ==> !IsSpace(TrimRight(s)[|TrimRight(s)| - 1])
  {
    r := "";
    if s != "" && IsSpace(s[|s| - 1]) {
      r := TrimRightSplits(s[..|s| - 1]);
      r := r + [s[|s| - 1]];
    }
  }

  lemma TrimSplits(s: string) returns (l: string, r: string)
    ensures AllSpace(l) && AllSpace(r) && s == l + TrimSpace(s) + r
    ensures Trimmed(TrimSpace(s))
  {
    l := TrimLeftSplits(s);
    r := TrimRightSplits(TrimLeft(s));
    if TrimSpace(s) != "" {
      assert TrimSpace(s)[0] == TrimLeft(s)[0];
    }
  }

  /** One segment of a list as an operator may write it. A blank one has name "". */
  datatype Segment = Segment(left: string, name: Name, right: string)

  predicate WellWritten(g: Segment)
  {
    AllSpace(g.left) && AllSpace(g.right) && Trimmed(g.name) && NoComma(g.name)
  }

  function Texts(gs: seq<Segment>): seq<string>
  {
    seq(|gs|, i requires 0 <= i < |gs| => gs[i].left + gs[i].name + gs[i].right)
  }

  /** Round trip: for any names, joined by commas with any white space around them and
      any blank segments between them, the parser returns exactly the names. */
  lemma ListRoundTrip(gs: seq<Segment>)
    requires gs != [] && forall i :: 0 <= i < |gs| ==> WellWritten(gs[i])
    ensures Names(Split(Join(Texts(gs)))) == set i | 0 <= i < |gs| && gs[i].name != "" :: gs[i].name
  {
    var parts := Texts(gs);
    forall i | 0 <= i < |parts|
      ensures NoComma(parts[i]) && TrimSpace(parts[i]) == gs[i].name
    {
      assert WellWritten(gs[i]);
      TrimPadded(gs[i].left, gs[i].name, gs[i].right);
    }
    SplitJoin(parts);
  }

  lemma SegmentOf(part: string) returns (g: Segment)
    requires NoComma(part)
    ensures WellWritten(g) && g.name == TrimSpace(part) && g.left + g.name + g.right == part
  {
    var l, r := TrimSplits(part);
    var n := TrimSpace(part);
    assert forall i :: 0 <= i < |n| ==> n[i] == part[|l| + i];
    g := Segment(l, n, r);
  }

  /** The segments write out the parts. */
  ghost predicate WritesOut(gs: seq<Segment>, parts: seq<string>)
  {
    && |gs| == |parts| && Texts(gs) == parts
    && forall i :: 0 <= i < |gs| ==> WellWritten(gs[i]) && gs[i].name == TrimSpace(parts[i])
  }

  lemma WritesOutCons(g: Segment, gs: seq<Segment>, part: string, parts: seq<string>)
    requires WritesOut(gs, parts) && WellWritten(g) && g.name == TrimSpace(part) && g.left + g.name + g.right == part
    ensures WritesOut([g] + gs, [part] + parts)
  {
    TextsCons(g, gs);
    forall i | 0 <= i < |gs| + 1
      ensures WellWritten(([g] + gs)[i]) && ([g] + gs)[i].name == TrimSpace(([part] + parts)[i])
    {
      if i > 0 { assert ([g] + gs)[i] == gs[i - 1] && ([part] + parts)[i] == parts[i - 1]; }
    }
  }

  lemma {:induction false} SegmentsOf(parts: seq<string>) returns (gs: seq<Segment>)
    requires forall i :: 0 <= i < |parts| ==> NoComma(parts[i])
    ensures WritesOut(gs, parts)
  {
    gs := [];
    if parts != [] {
      gs := SegmentsOf(parts[1..]);
      var g := SegmentOf(parts[0]);
      WritesOutCons(g, gs, parts[0], parts[1..]);
      assert [parts[0]] + parts[1..] == parts;
      gs := [g] + gs;
    }
  }

  lemma TextsCons(g: Segment, gs: seq<Segment>)
    ensures Texts([g] + gs) == [g.left + g.name + g.right] + Texts(gs)
  {
  }

  /** And every value is such a list, so the parser's result is determined: each name it
      returns is non-empty, trimmed and comma-free. */
  lemma EveryValueIsAList(value: string) returns (gs: seq<Segment>)
    ensures gs != [] && forall i :: 0 <= i < |gs| ==> WellWritten(gs[i])
    ensures Join(Texts(gs)) == value
    ensures forall n :: n in Names(Split(value)) ==> n != "" && Trimmed(n) && NoComma(n)
  {
    SplitParts(value);
    gs := SegmentsOf(Split(value));
    assert |Texts(gs)| == |gs|;
    forall n | n in Names(Split(value))
      ensures n != "" && Trimmed(n) && NoComma(n)
    {
      var i :| 0 <= i < |Split(value)| && TrimSpace(Split(value)[i]) == n && n != "";
      assert WellWritten(gs[i]);
    }
  }

  // ---- skipsTLSVerify ----

  predicate IsManaged(p: Peer)
  {
    p.kind == "" || p.kind == "Managed"
  }

  /** Managed peers, which an empty kind also means, are always skipped; any other peer
      exactly when the list names it. */
  method SkipsTLSVerify(p: Peer, value: string) returns (skip: bool)
    ensures p.kind == "" || p.kind == "Managed" ==> skip
    ensures p.kind != "" && p.kind != "Managed" ==> (skip <==> p.name in Names(Split(value)))
  {
    if IsManaged(p) { return true; }
    var names := InsecureTLSPeers(value);
    return p.name in names;
  }

  // ---- factory options ----

  datatype Protocol = GRPC | REST | JSONRPC | Custom(id: string)

  datatype Setting = SkipVerify | Given(id: nat)

  /** A factory option sets one protocol's transport, or something else. */
  datatype FactoryOption = Transport(protocol: Protocol, setting: Setting) | Other(id: nat)

  const DEFAULTS := [Transport(GRPC, SkipVerify), Transport(REST, SkipVerify), Transport(JSONRPC, SkipVerify)]

  /** client.go:214-227 */
  function EffectiveOptions(skip: bool, opts: seq<FactoryOption>): seq<FactoryOption>
  {
    if skip then DEFAULTS + opts else opts
  }

  /** NewFromCard applies the options in order to a per-protocol map. */
  function Transports(opts: seq<FactoryOption>): map<Protocol, Setting>
  {
    if opts == [] then map[]
    else
      var front, last := Transports(opts[..|opts| - 1]), opts[|opts| - 1];
      if last.Transport? then front[last.protocol := last.setting] else front
  }

  /** The caller's last setting for the protocol. */
  ghost predicate LastSetting(opts: seq<FactoryOption>, p: Protocol, s: Setting)
  {
    exists i :: 0 <= i < |opts| && opts[i] == Transport(p, s)
      && forall j :: i < j < |opts| ==> !Sets(opts[j], p)
  }

  predicate Sets(o: FactoryOption, p: Protocol)
  {
    o.Transport? && o.protocol == p
  }

  lemma {:induction false} TransportsPrepend(front: seq<FactoryOption>, opts: seq<FactoryOption>)
    ensures Transports(front + opts) == Transports(front) + Transports(opts)
  {
    if opts == [] {
      assert front + opts == front;
    } else {
      TransportsPrepend(front, opts[..|opts| - 1]);
      assert (front + opts)[..|front + opts| - 1] == front + opts[..|opts| - 1];
    }
  }

  lemma {:induction false} TransportsLast(opts: seq<FactoryOption>, p: Protocol)
    ensures p in Transports(opts) ==> LastSetting(opts, p, Transports(opts)[p])
    ensures p !in Transports(opts) ==> forall i :: 0 <= i < |opts| ==> !Sets(opts[i], p)
  {
    if opts != [] {
      var k := |opts| - 1;
      var front, last := opts[..k], opts[k];
      TransportsLast(front, p);
      if Sets(last, p) {
        assert opts[k] == Transport(p, last.setting);
      } else if p in Transports(front) {
        var i :| 0 <= i < |front| && front[i] == Transport(p, Transports(front)[p])
          && forall j :: i < j < |front| ==> !Sets(front[j], p);
        assert opts[i] == front[i];
        assert forall j :: i < j < |opts| ==> j == k || opts[j] == front[j];
      } else {
        assert forall j :: 0 <= j < |opts| ==> j == k || opts[j] == front[j];
      }
    }
  }

  /** The caller's options all arrive, in their order and last; nothing precedes them but,
      for a peer whose TLS is not verified, the three defaults. Each protocol gets the
      caller's last setting if there is one; otherwise the TLS-skipping default, which
      exists only for such a peer. */
  lemma UserOptionsOverride(skip: bool, opts: seq<FactoryOption>, p: Protocol)
    ensures var all := EffectiveOptions(skip, opts);
      && |all| == |opts| + (if skip then 3 else 0) && all[|all| - |opts|..] == opts
      && (skip ==> forall i :: 0 <= i < 3 ==> all[i].Transport? && all[i].setting.SkipVerify?)
    ensures var t := Transports(EffectiveOptions(skip, opts));
      if exists i :: 0 <= i < |opts| && Sets(opts[i], p) then p in t && LastSetting(opts, p, t[p])
      else Get(t, p) == if skip && !p.Custom? then Some(SkipVerify) else None
  {
    TransportsLast(opts, p);
    TransportsPrepend(DEFAULTS, opts);
    DefaultTransports();
  }

  lemma DefaultTransports()
    ensures Transports(DEFAULTS) == map[GRPC := SkipVerify, REST := SkipVerify, JSONRPC := SkipVerify]
  {
    var d := DEFAULTS;
    assert d[..2] == [d[0], d[1]] && d[..2][..1] == [d[0]] && d[..1][..0] == [];
    assert Transports([d[0]]) == map[GRPC := SkipVerify];
    assert Transports(d[..2]) == map[GRPC := SkipVerify, REST := SkipVerify];
  }
}

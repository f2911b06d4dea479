/** newListener and the acquiring part of Start in the source's own form: listeners as
    objects that are produced and closed, and any operation may fail. */
module Listeners {
  import opened Base

  datatype Config = Config(network: string, address: Path)

  predicate IsUDS(cfg: Config)
  {
    cfg.network == "unix"
  }

  class NetListener {
    const cfg: Config
    var open: bool

    constructor (cfg: Config)
      ensures this.cfg == cfg && open
    {
      this.cfg := cfg;
      open := true;
    }

    method Close()
      modifies this
      ensures !open
    {
      open := false;
    }
  }

  /** An operating-system call of the acquiring part, on an address. */
  datatype Operation = MkdirAll(at: Path) | RemoveStale(at: Path) | Listen(at: Path) | Chmod(at: Path) | WriteInfo

  datatype Done = Done(op: Operation, ok: bool)

  /** The operating system. `log` is history: every call, and whether it succeeded. */
  class System {
    ghost var log: seq<Done>

    constructor ()
      ensures log == []
    {
      log := [];
    }

    method Try(op: Operation) returns (ok: bool)
      modifies this
      ensures log == old(log) + [Done(op, ok)]
    {
      ok := *;
      log := log + [Done(op, ok)];
    }
  }

  /** What opens a listener, in order: for a Unix socket its directory is made, a stale
      socket removed, and its mode set once it listens. */
  ghost function Opening(cfg: Config): seq<Operation>
  {
    if cfg.network == "unix"
    then [MkdirAll(cfg.address), RemoveStale(cfg.address), Listen(cfg.address), Chmod(cfg.address)]
    else [Listen(cfg.address)]
  }

  /** Every one of these was called, in order, and succeeded. */
  ghost predicate AllDone(log: seq<Done>, ops: seq<Operation>)
  {
    |log| == |ops| && forall i :: 0 <= i < |ops| ==> log[i] == Done(ops[i], true)
  }

  /** They were called in order and succeeded, up to one that failed, which was the last. */
  ghost predicate FailedAt(log: seq<Done>, ops: seq<Operation>)
  {
    && 0 < |log| <= |ops|
    && log[|log| - 1] == Done(ops[|log| - 1], false)
    && forall i :: 0 <= i < |log| - 1 ==> log[i] == Done(ops[i], true)
  }

  /** `produced` is every listener net.Listen produced on the way. On success every step of
      the opening was done and that is the listener returned, open; on an error one step
      failed, none followed, and what was produced has been closed again. */
  method NewListener(sys: System, cfg: Config) returns (r: Result<NetListener, Error>, ghost produced: set<NetListener>)
    modifies sys
    ensures fresh(produced) && old(sys.log) <= sys.log
    ensures r.Ok? ==> AllDone(sys.log[|old(sys.log)|..], Opening(cfg))
    ensures r.Err? ==> FailedAt(sys.log[|old(sys.log)|..], Opening(cfg))
    ensures r.Ok? ==> produced == {r.value} && r.value.open && r.value.cfg == cfg
    ensures r.Err? ==> forall ln :: ln in produced ==> !ln.open
  {
    produced := {};
    if IsUDS(cfg) {
      var made := sys.Try(MkdirAll(cfg.address));
      if !made { return Err("create socket dir"), produced; }
      var removed := sys.Try(RemoveStale(cfg.address));      // absence is fine
      if !removed { return Err("remove stale socket"), produced; }
    }
    var listening := sys.Try(Listen(cfg.address));
    if !listening { return Err("listen"), produced; }
    var ln := new NetListener(cfg);
    produced := {ln};
    if IsUDS(cfg) {
      var chmod := sys.Try(Chmod(cfg.address));
      if !chmod {
        ln.Close();
        return Err("chmod socket"), produced;
      }
    }
    return Ok(ln), produced;
  }

  /** server.go:98-117: both listeners, and the server-info file exactly when the HTTP one is
      a Unix socket. Either both come back open and all of it was done, or one step failed
      and every listener produced was closed. */
  method OpenBoth(sys: System, httpCfg: Config, grpcCfg: Config)
      returns (r: Result<(NetListener, NetListener), Error>, ghost produced: set<NetListener>)
    modifies sys
    ensures fresh(produced) && old(sys.log) <= sys.log
    ensures var ops := Opening(httpCfg) + Opening(grpcCfg) + (if httpCfg.network == "unix" then [WriteInfo] else []);
      var log := sys.log[|old(sys.log)|..];
      if r.Ok? then AllDone(log, ops) else FailedAt(log, ops)
    ensures r.Ok? ==> produced == {r.value.0, r.value.1} && r.value.0 != r.value.1
    ensures r.Ok? ==> r.value.0.open && r.value.1.open && r.value.0.cfg == httpCfg && r.value.1.cfg == grpcCfg
    ensures r.Err? ==> forall ln :: ln in produced ==> !ln.open
  {
    ghost var log0 := sys.log;
    var httpLn, fromHttp := NewListener(sys, httpCfg);
    ghost var log1 := sys.log;
    produced := fromHttp;
    if httpLn.Err? { return Err(httpLn.error), produced; }
    var grpcLn, fromGrpc := NewListener(sys, grpcCfg);
    assert sys.log[|log0|..] == log1[|log0|..] + sys.log[|log1|..];
    produced := produced + fromGrpc;
    if grpcLn.Err? {
      httpLn.value.Close();
      return Err(grpcLn.error), produced;
    }
    if IsUDS(httpCfg) {
      var written := sys.Try(WriteInfo);                     // writeServerInfo
      if !written {
        httpLn.value.Close();
        grpcLn.value.Close();
        return Err("write server-info"), produced;
      }
    }
    return Ok((httpLn.value, grpcLn.value)), produced;
  }
}

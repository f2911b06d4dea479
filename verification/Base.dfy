/** Vocabulary shared by every part of the model. */
module Base {

  datatype Option<+T> = None | Some(value: T)

  datatype Result<+T, +E> = Ok(value: T) | Err(error: E)

  /** A call, a recorder or a reader: one running goroutine. */
  type Cid = nat

  type Name = string
  type Path = string
  type Bytes = seq<nat>
  type Card = string
  type Error = string
  type Headers = map<string, string>

  /** sync.Once. `runner` names the goroutine whose function runs, or ran.
      Do returns to every caller only in state Complete. */
  datatype Once = Idle | Running(runner: Cid) | Complete(runner: Cid)

  function Get<K, V>(m: map<K, V>, k: K): (r: Option<V>)
  {
    if k in m then Some(m[k]) else None
  }

  /** Sum of the values of a map, the carrier of every termination measure. */
  ghost function Total(m: map<Cid, nat>): nat
    decreases |m|
  {
    if m == map[] then 0
    else
      var c :| c in m;
      m[c] + Total(m - {c})
  }

  lemma {:induction false} TotalSplit(m: map<Cid, nat>, c: Cid)
    requires c in m
    ensures Total(m) == m[c] + Total(m - {c})
    decreases |m|
  {
    var d :| d in m && Total(m) == m[d] + Total(m - {d});
    if d != c {
      assert |m - {d}| < |m| by { assert m.Keys == (m - {d}).Keys + {d}; }
      TotalSplit(m - {d}, c);
      assert |m - {c}| < |m| by { assert m.Keys == (m - {c}).Keys + {c}; }
      TotalSplit(m - {c}, d);
      assert m - {d} - {c} == m - {c} - {d};
    }
  }

  /** Updating one summand changes the sum by exactly that much. */
  lemma {:induction false} TotalUpdate(m: map<Cid, nat>, c: Cid, v: nat)
    ensures Total(m[c := v]) + (if c in m then m[c] else 0) == Total(m) + v
  {
    TotalSplit(m[c := v], c);
    assert m[c := v] - {c} == m - {c};
    if c in m {
      TotalSplit(m, c);
    } else {
      assert m - {c} == m;
    }
  }
}

/** validateHeaders (pkg/client/headers.go) and what the accepted headers do to the
    AgentCard request (pkg/client/client.go). */
module HeaderCheck {
  import opened Base

  datatype HeaderError = BadName | BadValue(name: string) | Duplicate(name: string)

  predicate NameChar(c: char)
  {
    '0' <= c <= '9' || 'A' <= c <= 'Z' || 'a' <= c <= 'z' || c == '_' || c == '.' || c == '-'
  }

  /** headerName: ^[0-9A-Za-z_.-]+$ */
  predicate MatchesName(s: string)
  {
    |s| > 0 && forall i :: 0 <= i < |s| ==> NameChar(s[i])
  }

  /** headerValue: ^[\t\x20-\x7e]*$ */
  predicate MatchesValue(s: string)
  {
    forall i :: 0 <= i < |s| ==> s[i] == '\t' || ' ' <= s[i] <= '~'
  }

  function LowerChar(c: char): char
  {
    if 'A' <= c <= 'Z' then c - 'A' + 'a' else c
  }

  /** strings.ToLower on ASCII; only applied to names that match headerName. */
  function Lower(s: string): (r: string)
    ensures |r| == |s| && forall i :: 0 <= i < |s| ==> r[i] == LowerChar(s[i])
  {
    if s == "" then "" else [LowerChar(s[0])] + Lower(s[1..])
  }

  predicate GoodName(name: string)
  {
    MatchesName(name) && !("grpc-" <= Lower(name))
  }

  // ---- what is promised, in code points ----

  /** An ASCII letter, digit, '-', '_' or '.'. */
  predicate NameCode(k: int)
  {
    65 <= k <= 90 || 97 <= k <= 122 || 48 <= k <= 57 || k == 45 || k == 95 || k == 46
  }

  /** Equal, or the same ASCII letter in two cases. */
  predicate SameLetter(j: int, k: int)
  {
    j == k || (65 <= j <= 90 && k == j + 32) || (65 <= k <= 90 && j == k + 32)
  }

  ghost predicate DifferOnlyInCase(a: string, b: string)
  {
    |a| == |b| && forall i :: 0 <= i < |a| ==> SameLetter(a[i] as int, b[i] as int)
  }

  /** Starts with "grpc-" in any case. */
  predicate Reserved(n: string)
  {
    && |n| >= 5
    && SameLetter(n[0] as int, 103) && SameLetter(n[1] as int, 114) && SameLetter(n[2] as int, 112)
    && SameLetter(n[3] as int, 99) && n[4] as int == 45
  }

  ghost predicate WellNamed(n: string)
  {
    n != "" && (forall i :: 0 <= i < |n| ==> NameCode(n[i] as int)) && !Reserved(n)
  }

  /** Tab, or visible ASCII, or space. */
  ghost predicate WellValued(v: string)
  {
    forall i :: 0 <= i < |v| ==> v[i] as int == 9 || 32 <= v[i] as int <= 126
  }

  /** The headers the documentation promises to accept. */
  ghost predicate Accepts(headers: Headers)
  {
    && (forall n :: n in headers ==> WellNamed(n) && WellValued(headers[n]))
    && (forall a, b :: a in headers && b in headers && a != b ==> !DifferOnlyInCase(a, b))
  }

  /** The error is true of the headers. */
  ghost predicate Justified(headers: Headers, e: HeaderError)
  {
    match e
    case BadName => exists n :: n in headers && !WellNamed(n)
    case BadValue(n) => n in headers && WellNamed(n) && !WellValued(headers[n])
    case Duplicate(n) =>
      && n in headers && WellNamed(n) && WellValued(headers[n])
      && exists m :: m in headers && m != n && DifferOnlyInCase(m, n)
  }

  // ---- what the code computes is what is promised ----

  lemma LowerCharFolds(c: char, d: char)
    ensures LowerChar(c) == LowerChar(d) <==> SameLetter(c as int, d as int)
  {
  }

  /** Lower-cased names are equal exactly when the names differ only in case. */
  lemma LowerFolds(a: string, b: string)
    ensures Lower(a) == Lower(b) <==> DifferOnlyInCase(a, b)
  {
    if Lower(a) == Lower(b) {
      forall i | 0 <= i < |a|
        ensures SameLetter(a[i] as int, b[i] as int)
      {
        LowerCharFolds(a[i], b[i]);
        assert Lower(a)[i] == Lower(b)[i];
      }
    }
    if DifferOnlyInCase(a, b) {
      forall i | 0 <= i < |a|
        ensures Lower(a)[i] == Lower(b)[i]
      {
        LowerCharFolds(a[i], b[i]);
      }
    }
  }

  /** And no upper-case letter is left in them. */
  lemma LowerIsLower(s: string)
    ensures forall i :: 0 <= i < |Lower(s)| ==> !(65 <= Lower(s)[i] as int <= 90)
  {
  }

  lemma ReservedLower(n: string)
    ensures "grpc-" <= Lower(n) <==> Reserved(n)
  {
    var l := Lower(n);
    if |n| >= 5 {
      LowerCharFolds(n[0], 'g');
      LowerCharFolds(n[1], 'r');
      LowerCharFolds(n[2], 'p');
      LowerCharFolds(n[3], 'c');
      LowerCharFolds(n[4], '-');
      assert "grpc-" <= l <==> l[0] == 'g' && l[1] == 'r' && l[2] == 'p' && l[3] == 'c' && l[4] == '-';
    }
  }

  lemma NamesAgree(n: string)
    ensures GoodName(n) <==> WellNamed(n)
  {
    ReservedLower(n);
    forall i | 0 <= i < |n|
      ensures NameChar(n[i]) <==> NameCode(n[i] as int)
    {
    }
  }

  lemma ValuesAgree(v: string)
    ensures MatchesValue(v) <==> WellValued(v)
  {
  }

  /** What the loop checks, in its own terms. */
  ghost predicate Passes(headers: Headers)
  {
    && (forall n :: n in headers ==> GoodName(n) && MatchesValue(headers[n]))
    && (forall a, b :: a in headers && b in headers && Lower(a) == Lower(b) ==> a == b)
  }

  ghost predicate Refuses(headers: Headers, e: HeaderError)
  {
    match e
    case BadName => exists n :: n in headers && !GoodName(n)
    case BadValue(n) => n in headers && GoodName(n) && !MatchesValue(headers[n])
    case Duplicate(n) =>
      && n in headers && GoodName(n) && MatchesValue(headers[n])
      && exists m :: m in headers && m != n && Lower(m) == Lower(n)
  }

  lemma PassesIff(headers: Headers)
    ensures Passes(headers) <==> Accepts(headers)
  {
    forall n | n in headers
      ensures (GoodName(n) <==> WellNamed(n)) && (MatchesValue(headers[n]) <==> WellValued(headers[n]))
    {
      NamesAgree(n);
      ValuesAgree(headers[n]);
    }
    forall a, b | a in headers && b in headers
      ensures Lower(a) == Lower(b) <==> DifferOnlyInCase(a, b)
    {
      LowerFolds(a, b);
    }
  }

  lemma RefusesIff(headers: Headers, e: HeaderError)
    requires Refuses(headers, e)
    ensures Justified(headers, e)
  {
    match e
    case BadName =>
      var n :| n in headers && !GoodName(n);
      NamesAgree(n);
    case BadValue(n) =>
      NamesAgree(n);
      ValuesAgree(headers[n]);
    case Duplicate(n) =>
      NamesAgree(n);
      ValuesAgree(headers[n]);
      var m :| m in headers && m != n && Lower(m) == Lower(n);
      LowerFolds(m, n);
  }

  ghost function LowerSet(names: set<string>): set<string>
  {
    set n | n in names :: Lower(n)
  }

  lemma AcceptsMore(headers: Headers, name: string, value: string)
    requires Passes(headers) && GoodName(name) && MatchesValue(value)
    requires Lower(name) !in LowerSet(headers.Keys)
    ensures Passes(headers[name := value])
    ensures LowerSet(headers[name := value].Keys) == LowerSet(headers.Keys) + {Lower(name)}
  {
    assert headers[name := value].Keys == headers.Keys + {name};
    forall l
      ensures l in LowerSet(headers.Keys + {name}) <==> l in LowerSet(headers.Keys) + {Lower(name)}
    {
    }
  }

  ghost predicate SubMap(part: Headers, whole: Headers)
  {
    forall n :: n in part ==> n in whole && whole[n] == part[n]
  }

  /** What the loop has established when `rest` is still to be visited. */
  ghost predicate Progress(headers: Headers, rest: set<string>, checked: Headers, seen: set<string>)
  {
    && rest <= headers.Keys && checked.Keys == headers.Keys - rest
    && SubMap(checked, headers) && Passes(checked)
    && seen == LowerSet(checked.Keys)
  }

  /** The verdict on one entry, given the lower-cased names already seen. */
  function EntryError(name: string, value: string, seen: set<string>): Option<HeaderError>
  {
    if !MatchesName(name) || "grpc-" <= Lower(name) then Some(BadName)
    else if !MatchesValue(value) then Some(BadValue(name))
    else if Lower(name) in seen then Some(Duplicate(name))
    else None
  }

  lemma NothingSeen(headers: Headers)
    ensures Progress(headers, headers.Keys, map[], {})
  {
  }

  lemma EntryRefused(headers: Headers, rest: set<string>, checked: Headers, seen: set<string>, name: string)
    requires Progress(headers, rest, checked, seen) && name in rest
    requires EntryError(name, headers[name], seen).Some?
    ensures Refuses(headers, EntryError(name, headers[name], seen).value)
    ensures !Passes(headers)
  {
    if EntryError(name, headers[name], seen).value.Duplicate? {
      var m :| m in checked.Keys && Lower(m) == Lower(name);
      assert m in headers && m != name;
    }
  }

  lemma EntryPassed(headers: Headers, rest: set<string>, checked: Headers, seen: set<string>, name: string)
    requires Progress(headers, rest, checked, seen) && name in rest
    requires EntryError(name, headers[name], seen).None?
    ensures Progress(headers, rest - {name}, checked[name := headers[name]], seen + {Lower(name)})
  {
    AcceptsMore(checked, name, headers[name]);
  }

  lemma AllPassed(headers: Headers, checked: Headers, seen: set<string>)
    requires Progress(headers, {}, checked, seen)
    ensures checked == headers && Passes(headers)
  {
    assert checked.Keys == headers.Keys;
  }

  /** Ranges over the map in whatever order; succeeds, in every order, exactly when the
      headers are acceptable, and then returns an equal copy. */
  method ValidateHeaders(headers: Headers) returns (r: Result<Headers, HeaderError>)
    ensures r.Ok? <==> Accepts(headers)
    ensures r.Ok? ==> r.value == headers
    ensures r.Err? ==> Justified(headers, r.error)
  {
    var checked: Headers := map[];
    var seen: set<string> := {};
    var rest := headers.Keys;
    NothingSeen(headers);
    while rest != {}
      invariant Progress(headers, rest, checked, seen)
      decreases |rest|
    {
      var name :| name in rest;
      var value := headers[name];
      var bad := EntryError(name, value, seen);
      if bad.Some? {
        EntryRefused(headers, rest, checked, seen, name);
        RefusesIff(headers, bad.value);
        PassesIff(headers);
        return Err(bad.value);
      }
      EntryPassed(headers, rest, checked, seen, name);
      rest := rest - {name};
      seen := seen + {Lower(name)};
      checked := checked[name := value];
    }
    AllPassed(headers, checked, seen);
    PassesIff(headers);
    return Ok(checked);
  }

  // ---- the request built from the headers ----

  /** The request's header fields after WithRequestHeader for each name in turn. Field
      names are case-insensitive (section 5.1 of RFC 9110); a later value replaces. */
  function Fields(headers: Headers, order: seq<string>): map<string, string>
    requires forall i :: 0 <= i < |order| ==> order[i] in headers
  {
    if order == [] then map[]
    else
      var last := order[|order| - 1];
      Fields(headers, order[..|order| - 1])[Lower(last) := headers[last]]
  }

  /** order lists every header name. */
  ghost predicate Lists(headers: Headers, order: seq<string>)
  {
    && (forall i :: 0 <= i < |order| ==> order[i] in headers)
    && (forall n :: n in headers ==> n in order)
  }

  /** No two names that differ only in case carry different values. */
  ghost predicate Unambiguous(headers: Headers)
  {
    forall a, b :: a in headers && b in headers && DifferOnlyInCase(a, b) ==> headers[a] == headers[b]
  }

  ghost predicate LowerUnambiguous(headers: Headers)
  {
    forall a, b :: a in headers && b in headers && Lower(a) == Lower(b) ==> headers[a] == headers[b]
  }

  lemma UnambiguousLower(headers: Headers)
    ensures Unambiguous(headers) <==> LowerUnambiguous(headers)
  {
    forall a, b | a in headers && b in headers
      ensures Lower(a) == Lower(b) <==> DifferOnlyInCase(a, b)
    {
      LowerFolds(a, b);
    }
  }

  lemma {:induction false} LowerFieldsExact(headers: Headers, order: seq<string>)
    requires LowerUnambiguous(headers) && forall i :: 0 <= i < |order| ==> order[i] in headers
    ensures forall l :: l in Fields(headers, order) <==> exists i :: 0 <= i < |order| && Lower(order[i]) == l
    ensures forall i :: 0 <= i < |order| ==> Get(Fields(headers, order), Lower(order[i])) == Some(headers[order[i]])
  {
    if order != [] {
      var front, last := order[..|order| - 1], order[|order| - 1];
      LowerFieldsExact(headers, front);
      assert forall i :: 0 <= i < |front| ==> order[i] == front[i];
    }
  }

  lemma FieldsExact(headers: Headers, order: seq<string>)
    requires Unambiguous(headers) && forall i :: 0 <= i < |order| ==> order[i] in headers
    ensures forall l :: l in Fields(headers, order) <==> exists i :: 0 <= i < |order| && Lower(order[i]) == l
    ensures forall i :: 0 <= i < |order| ==> Get(Fields(headers, order), Lower(order[i])) == Some(headers[order[i]])
  {
    UnambiguousLower(headers);
    LowerFieldsExact(headers, order);
  }

  /** The order in which Go ranges over the map matters to the request exactly when two
      names that differ only in case carry different values. */
  lemma {:induction false} OrderIrrelevantIff(headers: Headers, full: seq<string>)
    requires Lists(headers, full)
    ensures Unambiguous(headers) <==>
      forall p, q :: Lists(headers, p) && Lists(headers, q) ==> Fields(headers, p) == Fields(headers, q)
  {
    if Unambiguous(headers) {
      forall p, q | Lists(headers, p) && Lists(headers, q)
        ensures Fields(headers, p) == Fields(headers, q)
      {
        SameFields(headers, p, q);
      }
    } else {
      var a, b :| a in headers && b in headers && DifferOnlyInCase(a, b) && headers[a] != headers[b];
      LowerFolds(a, b);
      assert Lists(headers, full + [a]) && Lists(headers, full + [b]);
      LastWins(headers, full, a);
      LastWins(headers, full, b);
    }
  }

  /** Every field under one order is there, with the same value, under another. */
  lemma FieldsWithin(headers: Headers, p: seq<string>, q: seq<string>, l: string)
    requires Unambiguous(headers) && Lists(headers, p) && Lists(headers, q) && l in Fields(headers, p)
    ensures Get(Fields(headers, q), l) == Some(Fields(headers, p)[l])
  {
    FieldsExact(headers, p);
    FieldsExact(headers, q);
    var i :| 0 <= i < |p| && Lower(p[i]) == l;
    assert p[i] in q;
    var j :| 0 <= j < |q| && q[j] == p[i];
    assert Get(Fields(headers, p), Lower(p[i])) == Some(headers[p[i]]);
    assert Get(Fields(headers, q), Lower(q[j])) == Some(headers[q[j]]);
  }

  lemma SameFields(headers: Headers, p: seq<string>, q: seq<string>)
    requires Unambiguous(headers) && Lists(headers, p) && Lists(headers, q)
    ensures Fields(headers, p) == Fields(headers, q)
  {
    var f, g := Fields(headers, p), Fields(headers, q);
    forall l | l in f
      ensures l in g && g[l] == f[l]
    {
      FieldsWithin(headers, p, q, l);
    }
    forall l | l in g
      ensures l in f
    {
      FieldsWithin(headers, q, p, l);
    }
    assert f.Keys == g.Keys;
  }

  lemma LastWins(headers: Headers, order: seq<string>, n: string)
    requires n in headers && forall i :: 0 <= i < |order| ==> order[i] in headers
    ensures Get(Fields(headers, order + [n]), Lower(n)) == Some(headers[n])
  {
    assert (order + [n])[..|order|] == order;
  }

  /** Accepted headers reach the request unchanged, one field each, in any order. */
  lemma AcceptedFields(headers: Headers, order: seq<string>, n: string)
    requires Accepts(headers) && Lists(headers, order) && n in headers
    ensures Get(Fields(headers, order), Lower(n)) == Some(headers[n])
    ensures forall l :: l in Fields(headers, order) <==> exists m :: m in headers && Lower(m) == l
  {
    FieldsExact(headers, order);
    var i :| 0 <= i < |order| && order[i] == n;
    assert Get(Fields(headers, order), Lower(order[i])) == Some(headers[order[i]]);
    forall l
      ensures l in Fields(headers, order) <==> exists m :: m in headers && Lower(m) == l
    {
      if l in Fields(headers, order) {
        var k :| 0 <= k < |order| && Lower(order[k]) == l;
        assert order[k] in headers;
      }
      if exists m :: m in headers && Lower(m) == l {
        var m :| m in headers && Lower(m) == l;
        var k :| 0 <= k < |order| && order[k] == m;
        assert Lower(order[k]) == l;
      }
    }
  }
}

/**
 * The spend counters: one number per (tenant, period), and three durable backends plus the
 * in-memory one that must all count alike. Money is exact (`real`).
 */
module SpendStores {
  import opened Common

  /** `period` is a month ("2026-05"), a session ("session#...") or a run quota ("runs#..."). */
  datatype Key = Key(tenant: string, period: string)
  type Table = map<Key, real>

  function SessionKey(tenant: string, id: string): Key {
    Key(tenant, "session#" + id)
  }

  function RunsKey(tenant: string, month: string): Key {
    Key(tenant, "runs#" + month)
  }

  /** A billing month is "YYYY-MM": in particular it has no '#', so it is no other namespace. */
  predicate IsMonth(period: string) {
    '#' !in period
  }

  lemma NamespacesDisjoint(tenant: string, month: string, other: string, id: string)
    requires IsMonth(month)
    ensures Key(tenant, month) != SessionKey(other, id)
    ensures Key(tenant, month) != RunsKey(other, id)
    ensures SessionKey(tenant, id) != RunsKey(other, month)
  {
    assert ("session#" + id)[7] == '#' && ("runs#" + id)[4] == '#';
    assert ("session#" + id)[0] == 's' && ("runs#" + month)[0] == 'r';
  }

  /** A missing counter reads as zero, on every backend. */
  function Get(t: Table, k: Key): real {
    if k in t then t[k] else 0.0
  }

  function Add(t: Table, k: Key, usd: real): Table {
    t[k := Get(t, k) + usd]
  }

  // ----- one document per key -----------------------------------------------------------------------

  /** The one character a document id may not hold is replaced. */
  function Slashless(s: string): (t: string)
    ensures |t| == |s|
  {
    if s == [] then [] else [if s[0] == '/' then '_' else s[0]] + Slashless(s[1..])
  }

  lemma {:induction false} SlashlessAt(s: string, i: nat)
    requires i < |s|
    ensures Slashless(s)[i] == if s[i] == '/' then '_' else s[i]
  {
    if i > 0 {
      SlashlessAt(s[1..], i - 1);
    }
  }

  function DocId(k: Key): string {
    Slashless(k.tenant + "#" + k.period)
  }

  lemma {:induction false} SlashlessJoined(a: string, b: string)
    ensures Slashless(a + b) == Slashless(a) + Slashless(b)
  {
    if a == [] {
      assert a + b == b;
    } else {
      assert (a + b)[1..] == a[1..] + b;
      SlashlessJoined(a[1..], b);
    }
  }

  lemma DocIdParts(k: Key)
    ensures DocId(k) == Slashless(k.tenant) + ("#" + Slashless(k.period))
  {
    SlashlessJoined(k.tenant + "#", k.period);
    SlashlessJoined(k.tenant, "#");
    assert Slashless("#") == "#";
  }

  /** Texts joined by a `#` that read the same have the same parts, or one's first part reaches into the other's second. */
  lemma SameJoin(a: string, p: string, b: string, q: string)
    requires |a| <= |b|
    ensures a + ("#" + p) == b + ("#" + q)
       <==> if |a| == |b| then a == b && p == q
            else b == a + ("#" + b[|a| + 1..]) && p == b[|a| + 1..] + ("#" + q)
  {
    var n, x, y := |a|, "#" + p, "#" + q;
    if a + x == b + y {
      assert a == (a + x)[..n] == (b + y)[..n] == b[..n];
      assert x == (a + x)[n..] == (b + y)[n..] == b[n..] + y;
      assert x[1..] == p && y[1..] == q;
      if n < |b| {
        assert b[n] == x[0] == '#' && (b[n..] + y)[1..] == b[n + 1..] + y;
      } else {
        assert b[n..] + y == y;
      }
    }
  }

  /**
   * When two counters share a Firestore document: the tenants and the periods are the same up to
   * replaced slashes, or the longer tenant is the shorter one, a `#`, and what the shorter one's
   * period begins with.
   */
  lemma DocumentsShared(a: Key, b: Key)
    requires |a.tenant| <= |b.tenant|
    ensures DocId(a) == DocId(b)
       <==> var s, t := Slashless(a.tenant), Slashless(b.tenant);
            if |s| == |t| then s == t && Slashless(a.period) == Slashless(b.period)
            else t == s + ("#" + t[|s| + 1..]) && Slashless(a.period) == t[|s| + 1..] + ("#" + Slashless(b.period))
  {
    DocIdParts(a);
    DocIdParts(b);
    SameJoin(Slashless(a.tenant), Slashless(a.period), Slashless(b.tenant), Slashless(b.period));
  }

  lemma {:induction false} SlashlessKeeps(s: string)
    requires '/' !in s
    ensures Slashless(s) == s
  {
    if s != [] {
      SlashlessKeeps(s[1..]);
    }
  }

  /** Tenants without a `#`, and names without a slash, never share one. */
  lemma DocumentsApart(a: Key, b: Key)
    requires '#' !in a.tenant && '#' !in b.tenant
    requires '/' !in a.tenant && '/' !in b.tenant && '/' !in a.period && '/' !in b.period
    ensures DocId(a) == DocId(b) <==> a == b
  {
    SlashlessKeeps(a.tenant);
    SlashlessKeeps(b.tenant);
    SlashlessKeeps(a.period);
    SlashlessKeeps(b.period);
    if |a.tenant| <= |b.tenant| {
      DocumentsShared(a, b);
    } else {
      DocumentsShared(b, a);
    }
  }

  /** A session's counter and a month's of another tenant, in one document. */
  lemma SharedDocument()
    ensures DocId(SessionKey("a", "s#2026-05")) == DocId(Key("a#session#s", "2026-05"))
  {
    assert "a" + "#" + ("session#" + "s#2026-05") == "a#session#s" + "#" + "2026-05";
  }

  // ----- the backends ---------------------------------------------------------------------------------

  datatype Backend = Memory | Dynamo | Postgres | Firestore

  datatype Reserved = Reserved(total: Option<real>, table: Table)

  /** What the `SpendStore` port promises: add iff the new total stays within the ceiling. */
  function ConditionalAdd(t: Table, k: Key, delta: real, ceiling: real): Reserved {
    if Get(t, k) + delta > ceiling then Reserved(None, t)
    else Reserved(Some(Get(t, k) + delta), Add(t, k, delta))
  }

  /** What each backend's own condition says, for any arguments. */
  function ReserveBy(b: Backend, t: Table, k: Key, delta: real, ceiling: real): Reserved {
    match b
    case Memory =>
      var next := Get(t, k) + delta;
      if next > ceiling then Reserved(None, t) else Reserved(Some(next), t[k := next])
    case Firestore =>
      var next := Get(t, k) + delta;
      if next > ceiling then Reserved(None, t) else Reserved(Some(next), t[k := next])
    case Dynamo =>
      // attribute_not_exists(spentUsd) OR spentUsd <= :ceil, with :ceil = ceiling - delta
      if k !in t || t[k] <= ceiling - delta
      then Reserved(Some(Get(t, k) + delta), t[k := Get(t, k) + delta])
      else Reserved(None, t)
    case Postgres =>
      // INSERT, or ON CONFLICT UPDATE guarded by the ceiling
      if k !in t then Reserved(Some(delta), t[k := delta])
      else if t[k] + delta <= ceiling then Reserved(Some(t[k] + delta), t[k := t[k] + delta])
      else Reserved(None, t)
  }

  /**
   * The first write is where the backends can differ: Dynamo and Postgres admit it unchecked.
   * A backend keeps the port's promise exactly when the caller pre-checked the delta, or the
   * counter already exists, or the backend checks the first write as well.
   */
  lemma ReserveKeepsPromise(b: Backend, t: Table, k: Key, delta: real, ceiling: real)
    ensures ReserveBy(b, t, k, delta, ceiling) == ConditionalAdd(t, k, delta, ceiling)
       <==> delta <= ceiling || k in t || b.Memory? || b.Firestore?
  {
    assert ReserveBy(Memory, t, k, delta, ceiling) == ConditionalAdd(t, k, delta, ceiling);
  }

  datatype Op =
    | GetOp(k: Key)
    | AddOp(k: Key, usd: real)
    | ReserveOp(k: Key, delta: real, ceiling: real)

  /** Every answer a backend gives over a run of operations, and the table it ends with. */
  function RunOps(b: Backend, t: Table, ops: seq<Op>): (seq<Option<real>>, Table) {
    if ops == [] then ([], t)
    else
      var (answers, u) := RunOps(b, t, ops[..|ops| - 1]);
      match ops[|ops| - 1]
      case GetOp(k) => (answers + [Some(Get(u, k))], u)
      case AddOp(k, usd) => (answers + [Some(Get(u, k) + usd)], Add(u, k, usd))
      case ReserveOp(k, delta, ceiling) =>
        var r := ReserveBy(b, u, k, delta, ceiling);
        (answers + [r.total], r.table)
  }

  /** What an operation answers is what its counter stands at afterwards, unless it was refused. */
  lemma LastAnswer(b: Backend, t: Table, ops: seq<Op>)
    requires ops != []
    ensures var (answers, u) := RunOps(b, t, ops);
            answers != [] && var last := answers[|answers| - 1];
            (last.None? ==> ops[|ops| - 1].ReserveOp?) && (last.Some? ==> last.value == Get(u, ops[|ops| - 1].k))
  {
  }

  predicate PreChecked(ops: seq<Op>) {
    forall i :: 0 <= i < |ops| && ops[i].ReserveOp? ==> ops[i].delta <= ops[i].ceiling
  }

  /** Swapping engines changes no answer and no total, over any pre-checked run of operations. */
  lemma {:induction false} BackendsEquivalent(a: Backend, b: Backend, t: Table, ops: seq<Op>)
    requires PreChecked(ops)
    ensures RunOps(a, t, ops) == RunOps(b, t, ops)
  {
    if ops != [] {
      BackendsEquivalent(a, b, t, ops[..|ops| - 1]);
      var u := RunOps(a, t, ops[..|ops| - 1]).1;
      match ops[|ops| - 1]
      case ReserveOp(k, delta, ceiling) =>
        ReserveKeepsPromise(a, u, k, delta, ceiling);
        ReserveKeepsPromise(b, u, k, delta, ceiling);
      case _ =>
    }
  }

  /**
   * A spend store over one of the backends. `Reserve` demands what the port demands of its
   * callers: the delta was pre-checked against the ceiling.
   */
  class SpendStore {
    const backend: Backend
    var table: Table

    constructor (backend: Backend)
      ensures this.backend == backend && table == map[]
    {
      this.backend := backend;
      table := map[];
    }

    method Read(k: Key) returns (total: real)
      ensures total == Get(table, k)
    {
      total := if k in table then table[k] else 0.0;
    }

    method AddSpend(k: Key, usd: real) returns (total: real)
      modifies this
      ensures table == Add(old(table), k, usd) && total == Get(table, k)
    {
      total := (if k in table then table[k] else 0.0) + usd;
      table := table[k := total];
    }

    method Reserve(k: Key, delta: real, ceiling: real) returns (total: Option<real>)
      requires delta <= ceiling
      modifies this
      ensures Reserved(total, table) == ConditionalAdd(old(table), k, delta, ceiling)
    {
      match backend
      case Dynamo =>
        if k !in table || table[k] <= ceiling - delta {
          var next := Get(table, k) + delta;
          table := table[k := next];
          total := Some(next);
        } else {
          total := None;
        }
      case Postgres =>
        if k !in table {
          table := table[k := delta];
          total := Some(delta);
        } else if table[k] + delta <= ceiling {
          table := table[k := table[k] + delta];
          total := Some(table[k]);
        } else {
          total := None;
        }
      case _ =>
        var next := Get(table, k) + delta;
        if next > ceiling {
          return None;
        }
        table := table[k := next];
        total := Some(next);
    }
  }
}

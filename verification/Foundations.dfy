/** The conventional optional value; `None` is also how a failed transaction is reported. */
module Options {
  datatype Option<+T> = None | Some(value: T) {
    predicate IsFailure() { None? }

    function PropagateFailure<U>(): Option<U>
      requires None?
    {
      None
    }

    function Extract(): T
      requires Some?
    {
      value
    }
  }
}

/** Sums over the rows of a table: `SELECT SUM(...)` as a function of a finite map. */
module Totals {
  ghost function Total<K(!new)>(m: map<K, nat>): (t: nat)
    ensures m == map[] ==> t == 0
  {
    if m == map[] then 0 else
    var k :| k in m;
    m[k] + Total(m - {k})
  }

  /** Any row may be taken out first. */
  lemma {:induction false} TotalSplit<K(!new)>(m: map<K, nat>, k: K)
    requires k in m
    ensures Total(m) == m[k] + Total(m - {k})
    decreases |m|
  {
    var j :| j in m && Total(m) == m[j] + Total(m - {j});
    if j != k {
      TotalSplit(m - {j}, k);
      TotalSplit(m - {k}, j);
      assert (m - {j}) - {k} == (m - {k}) - {j};
    }
  }

  lemma TotalInsert<K(!new)>(m: map<K, nat>, k: K, v: nat)
    requires k !in m
    ensures Total(m[k := v]) == Total(m) + v
  {
    TotalSplit(m[k := v], k);
    assert m[k := v] - {k} == m;
  }

  lemma TotalReplace<K(!new)>(m: map<K, nat>, k: K, v: nat)
    requires k in m
    ensures Total(m[k := v]) == Total(m) - m[k] + v
  {
    TotalSplit(m, k);
    TotalSplit(m[k := v], k);
    assert m[k := v] - {k} == m - {k};
  }

  /** Dropping rows or lowering values never raises the sum. */
  lemma {:induction false} TotalMonotone<K(!new)>(small: map<K, nat>, large: map<K, nat>)
    requires forall k :: k in small ==> k in large && small[k] <= large[k]
    ensures Total(small) <= Total(large)
    decreases |small|
  {
    if small != map[] {
      var k :| k in small;
      TotalSplit(small, k);
      TotalSplit(large, k);
      TotalMonotone(small - {k}, large - {k});
    }
  }

  lemma UnionWithout<K(!new)>(m: map<K, nat>, more: map<K, nat>, k: K)
    requires m.Keys !! more.Keys && k in more
    ensures (m + more) - {k} == m + (more - {k}) && (m + more)[k] == more[k] && m.Keys !! (more - {k}).Keys
  {
  }

  /** Two tables without a common key are summed together or one after the other. */
  lemma {:induction false} TotalUnion<K(!new)>(m: map<K, nat>, more: map<K, nat>)
    requires m.Keys !! more.Keys
    ensures Total(m + more) == Total(m) + Total(more)
    decreases more.Keys
  {
    hide Total;
    if more == map[] {
      assert m + more == m;
    } else {
      var k :| k in more;
      UnionWithout(m, more, k);
      TotalSplit(more, k);
      TotalSplit(m + more, k);
      TotalUnion(m, more - {k});
    }
  }

  /** A table summed row by row in any listing order. */
  function SumSeq(values: seq<nat>): nat {
    if values == [] then 0 else SumSeq(values[..|values| - 1]) + values[|values| - 1]
  }

  lemma ListedInit<K(!new)>(m: map<K, nat>, keys: seq<K>)
    requires keys != [] && forall k :: k in m ==> k in keys
    ensures forall k :: k in m && k != keys[|keys| - 1] ==> k in keys[..|keys| - 1]
  {
    var n := |keys| - 1;
    forall k | k in m && k != keys[n] ensures k in keys[..n] {
      var i :| 0 <= i < |keys| && keys[i] == k;
      assert keys[..n][i] == k;
    }
  }

  lemma {:induction false} TotalOfListing<K(!new)>(m: map<K, nat>, keys: seq<K>, values: seq<nat>)
    requires |values| == |keys|
    requires forall i :: 0 <= i < |keys| ==> keys[i] in m && m[keys[i]] == values[i]
    requires forall i, j :: 0 <= i < j < |keys| ==> keys[i] != keys[j]
    requires forall k :: k in m ==> k in keys
    ensures SumSeq(values) == Total(m)
  {
    if keys == [] {
      assert m == map[];
    } else {
      var n := |keys| - 1;
      var k := keys[n];
      TotalSplit(m, k);
      ListedInit(m, keys);
      TotalOfListing(m - {k}, keys[..n], values[..n]);
    }
  }
}

/** `SELECT COALESCE(MAX(...),0)`: the largest member of a finite set of numbers. */
module Maxima {
  function MaxOf(values: set<nat>): (m: nat)
    ensures forall x :: x in values ==> x <= m
    ensures if values == {} then m == 0 else m in values
  {
    if values == {} then 0 else
    assert exists m: nat :: IsMax(m, values) by {
      var m := Largest(values);
    }
    var m: nat :| IsMax(m, values);
    m
  }

  predicate IsMax(m: nat, values: set<nat>) {
    m in values && forall x :: x in values ==> x <= m
  }

  lemma {:induction false} Largest(values: set<nat>) returns (m: nat)
    requires values != {}
    ensures IsMax(m, values)
    decreases |values|
  {
    m :| m in values;
    var rest := values - {m};
    assert forall x :: x in values ==> x == m || x in rest;
    if rest != {} {
      var other := Largest(rest);
      m := if other > m then other else m;
    }
  }
}

/** `ORDER BY major, minor, id`: listing a finite set of rows in key order. */
module Listings {
  datatype Row = Row(id: nat, major: int, minor: int)

  predicate Before(x: Row, y: Row) {
    x.major < y.major
    || (x.major == y.major && (x.minor < y.minor || (x.minor == y.minor && x.id < y.id)))
  }

  predicate Sorted(rows: seq<Row>) {
    forall i, j :: 0 <= i < j < |rows| ==> Before(rows[i], rows[j])
  }

  predicate IsFirst(m: Row, rows: set<Row>) {
    m in rows && forall x :: x in rows ==> x == m || Before(m, x)
  }

  lemma {:induction false} FirstRow(rows: set<Row>) returns (m: Row)
    requires rows != {}
    ensures IsFirst(m, rows)
    decreases |rows|
  {
    var c :| c in rows;
    assert forall x :: x in rows ==> x == c || x in rows - {c};
    if rows - {c} == {} {
      m := c;
    } else {
      var d := FirstRow(rows - {c});
      m := if Before(c, d) then c else d;
    }
  }

  function Listing(rows: set<Row>): (s: seq<Row>)
    ensures forall x :: x in s <==> x in rows
    ensures Sorted(s)
    decreases |rows|
  {
    if rows == {} then [] else
    assert exists m :: IsFirst(m, rows) by {
      var m := FirstRow(rows);
    }
    var m :| m in rows && IsFirst(m, rows);
    [m] + Listing(rows - {m})
  }

  /** The identifiers of the listed rows, in order. */
  function Ids(rows: seq<Row>): (s: seq<nat>)
    ensures |s| == |rows|
    ensures forall i :: 0 <= i < |rows| ==> s[i] == rows[i].id
  {
    seq(|rows|, i requires 0 <= i < |rows| => rows[i].id)
  }

  /** The table's values in the order of `keys`. */
  function Select<V>(m: map<nat, V>, keys: seq<nat>): (s: seq<V>)
    requires forall k :: k in keys ==> k in m
    ensures |s| == |keys|
    ensures forall i :: 0 <= i < |keys| ==> keys[i] in m && s[i] == m[keys[i]]
  {
    assert forall i :: 0 <= i < |keys| ==> keys[i] in keys;
    seq(|keys|, i requires 0 <= i < |keys| => m[keys[i]])
  }

  function Members(s: seq<nat>): set<nat> {
    set x | x in s
  }

  predicate Distinct(s: seq<nat>) {
    forall i, j :: 0 <= i < j < |s| ==> s[i] != s[j]
  }

  /** Every key of a table exactly once, in the order of its sort row. */
  function ListBy(keyed: map<nat, Row>): (s: seq<nat>)
    requires forall k :: k in keyed ==> keyed[k].id == k
    ensures Distinct(s)
    ensures forall k :: k in s <==> k in keyed
  {
    var rows := Listing(keyed.Values);
    assert forall i, j :: 0 <= i < j < |rows| ==> rows[i].id != rows[j].id by {
      forall i, j | 0 <= i < j < |rows| ensures rows[i].id != rows[j].id {
        assert rows[i] in keyed.Values && rows[j] in keyed.Values && Before(rows[i], rows[j]);
      }
    }
    assert forall k :: k in Ids(rows) <==> k in keyed by {
      forall k | k in keyed ensures k in Ids(rows) {
        assert keyed[k] in rows;
        var i :| 0 <= i < |rows| && rows[i] == keyed[k];
        assert Ids(rows)[i] == k;
      }
      forall k | k in Ids(rows) ensures k in keyed {
        var i :| 0 <= i < |rows| && Ids(rows)[i] == k;
        assert rows[i] in keyed.Values;
      }
    }
    Ids(rows)
  }

  predicate StandsBefore(s: seq<nat>, x: nat, y: nat) {
    exists i, j :: 0 <= i < j < |s| && s[i] == x && s[j] == y
  }

  /** A listing really is in the order of its sort rows. */
  lemma ListByOrder(keyed: map<nat, Row>, x: nat, y: nat)
    requires forall k :: k in keyed ==> keyed[k].id == k
    requires x in keyed && y in keyed && x != y
    ensures StandsBefore(ListBy(keyed), x, y) <==> Before(keyed[x], keyed[y])
  {
    var s := ListBy(keyed);
    ListBySorted(keyed);
    assert x in s && y in s;
    hide ListBy;
    var i :| 0 <= i < |s| && s[i] == x;
    var j :| 0 <= j < |s| && s[j] == y;
    if i < j {
      assert StandsBefore(s, x, y);
    }
  }

  lemma ListBySorted(keyed: map<nat, Row>)
    requires forall k :: k in keyed ==> keyed[k].id == k
    ensures var s := ListBy(keyed);
      forall i, j :: 0 <= i < j < |s| ==> s[i] in keyed && s[j] in keyed && Before(keyed[s[i]], keyed[s[j]])
  {
    var s, rows := ListBy(keyed), Listing(keyed.Values);
    forall i | 0 <= i < |s| ensures s[i] in keyed && keyed[s[i]] == rows[i] {
      assert rows[i] in keyed.Values;
    }
  }
}

/** Resource vectors (src/model.rs) seen one dimension at a time. */
module ResourceVectors {
  import opened Options
  import opened Totals

  type Uuid = nat

  /** Guaranteed work keeps its place; opportunistic work yields. */
  datatype Class = Guaranteed | Opportunistic

  const U64_MAX: nat := 0xFFFF_FFFF_FFFF_FFFF

  /** 1000 millicores are one logical CPU; GPU memory is kept per device UUID. */
  datatype Resources = Resources(cpu: nat, ram: nat, gpu: map<Uuid, nat>)

  const ZERO := Resources(0, 0, map[])

  /** One independently accounted scope. */
  datatype Dim = Cpu | Ram | Gpu(uuid: Uuid)

  function Get(m: map<Uuid, nat>, u: Uuid): nat {
    if u in m then m[u] else 0
  }

  /** What `r` holds in scope `d`; a device that is not named holds nothing. */
  function Amount(r: Resources, d: Dim): nat {
    match d
    case Cpu => r.cpu
    case Ram => r.ram
    case Gpu(u) => Get(r.gpu, u)
  }

  /** Checked addition: `None` where the original reports an overflow. */
  function Add(a: Resources, b: Resources): (r: Option<Resources>)
    ensures r.Some? ==> forall d :: Amount(r.value, d) == Amount(a, d) + Amount(b, d)
  {
    if a.cpu + b.cpu > U64_MAX || a.ram + b.ram > U64_MAX
       || exists u :: u in b.gpu && Get(a.gpu, u) + b.gpu[u] > U64_MAX then None
    else Some(Resources(a.cpu + b.cpu, a.ram + b.ram,
                        map u | u in a.gpu.Keys + b.gpu.Keys :: Get(a.gpu, u) + Get(b.gpu, u)))
  }

  function Monus(x: nat, y: nat): nat {
    if x > y then x - y else 0
  }

  /** Saturating subtraction, dimension by dimension. */
  function Subtract(a: Resources, b: Resources): (r: Resources)
    ensures forall d :: Amount(r, d) == Monus(Amount(a, d), Amount(b, d))
  {
    Resources(Monus(a.cpu, b.cpu), Monus(a.ram, b.ram),
              map u | u in a.gpu.Keys + b.gpu.Keys :: Monus(Get(a.gpu, u), Get(b.gpu, u)))
  }

  function Max(x: nat, y: nat): nat {
    if x < y then y else x
  }

  function Min(x: nat, y: nat): nat {
    if x < y then x else y
  }

  /** max(reservation, observation) in every dimension. */
  function Maximum(a: Resources, b: Resources): (r: Resources)
    ensures forall d :: Amount(r, d) == Max(Amount(a, d), Amount(b, d))
  {
    Resources(Max(a.cpu, b.cpu), Max(a.ram, b.ram),
              map u | u in a.gpu.Keys + b.gpu.Keys :: Max(Get(a.gpu, u), Get(b.gpu, u)))
  }

  /** CPU and RAM are shared by all work; GPU scopes count only where the request names them. */
  predicate InScope(request: Resources, d: Dim) {
    match d
    case Gpu(u) => u in request.gpu
    case _ => true
  }

  predicate FitsRequested(total: Resources, budget: Resources, request: Resources)
    ensures FitsRequested(total, budget, request)
            <==> forall d :: InScope(request, d) ==> Amount(total, d) <= Amount(budget, d)
  {
    var fits := total.cpu <= budget.cpu && total.ram <= budget.ram
                && forall u :: u in request.gpu ==> Get(total.gpu, u) <= Get(budget.gpu, u);
    assert !fits ==> exists d :: InScope(request, d) && Amount(total, d) > Amount(budget, d) by {
      if total.cpu > budget.cpu {
        assert InScope(request, Cpu) && Amount(total, Cpu) > Amount(budget, Cpu);
      } else if total.ram > budget.ram {
        assert InScope(request, Ram) && Amount(total, Ram) > Amount(budget, Ram);
      } else if !fits {
        var u :| u in request.gpu && Get(total.gpu, u) > Get(budget.gpu, u);
        assert InScope(request, Gpu(u)) && Amount(total, Gpu(u)) > Amount(budget, Gpu(u));
      }
    }
    fits
  }

  /** The amounts a table of charges holds in one dimension. */
  function Column<K>(rows: map<K, Resources>, d: Dim): (c: map<K, nat>)
    ensures c.Keys == rows.Keys
    ensures forall k :: k in rows ==> c[k] == Amount(rows[k], d)
  {
    map k | k in rows :: Amount(rows[k], d)
  }

  ghost function TotalIn<K(!new)>(rows: map<K, Resources>, d: Dim): nat {
    Total(Column(rows, d))
  }

  lemma TotalInInsert<K(!new)>(rows: map<K, Resources>, k: K, r: Resources, d: Dim)
    requires k !in rows
    ensures TotalIn(rows[k := r], d) == TotalIn(rows, d) + Amount(r, d)
  {
    TotalInsert(Column(rows, d), k, Amount(r, d));
    assert Column(rows[k := r], d) == Column(rows, d)[k := Amount(r, d)];
  }

  lemma TotalInRemove<K(!new)>(rows: map<K, Resources>, k: K, d: Dim)
    requires k in rows
    ensures TotalIn(rows, d) == TotalIn(rows - {k}, d) + Amount(rows[k], d)
  {
    TotalSplit(Column(rows, d), k);
    assert Column(rows - {k}, d) == Column(rows, d) - {k};
  }

  lemma TotalInSubset<K(!new)>(small: map<K, Resources>, large: map<K, Resources>, d: Dim)
    requires forall k :: k in small ==> k in large && small[k] == large[k]
    ensures TotalIn(small, d) <= TotalIn(large, d)
  {
    TotalMonotone(Column(small, d), Column(large, d));
  }

  /** The running checked sum of a list of charges, as the accounting loops compute it. */
  function AddAll(start: Resources, rows: seq<Resources>): (r: Option<Resources>)
    ensures r.Some? ==> forall d :: Amount(r.value, d) == Amount(start, d) + SumIn(rows, d)
  {
    if rows == [] then Some(start) else
    var n := |rows| - 1;
    var before := AddAll(start, rows[..n]);
    assert forall d :: SumIn(rows, d) == SumIn(rows[..n], d) + Amount(rows[n], d) by {
      forall d { SumInStep(rows, d); }
    }
    if before.None? then None else Add(before.value, rows[n])
  }

  function Amounts(rows: seq<Resources>, d: Dim): (s: seq<nat>)
    ensures |s| == |rows|
    ensures forall i :: 0 <= i < |rows| ==> s[i] == Amount(rows[i], d)
  {
    seq(|rows|, i requires 0 <= i < |rows| => Amount(rows[i], d))
  }

  function SumIn(rows: seq<Resources>, d: Dim): nat {
    SumSeq(Amounts(rows, d))
  }

  lemma SumInStep(rows: seq<Resources>, d: Dim)
    requires rows != []
    ensures SumIn(rows, d) == SumIn(rows[..|rows| - 1], d) + Amount(rows[|rows| - 1], d)
  {
    assert Amounts(rows, d)[..|rows| - 1] == Amounts(rows[..|rows| - 1], d);
  }

  /** A list that names every row of a table once sums to the table's total. */
  lemma SumInOfListing<K(!new)>(
      table: map<K, Resources>, keys: seq<K>, rows: seq<Resources>, d: Dim)
    requires |rows| == |keys|
    requires forall i :: 0 <= i < |keys| ==> keys[i] in table && table[keys[i]] == rows[i]
    requires forall i, j :: 0 <= i < j < |keys| ==> keys[i] != keys[j]
    requires forall k :: k in table ==> k in keys
    ensures SumIn(rows, d) == TotalIn(table, d)
  {
    TotalOfListing(Column(table, d), keys, Amounts(rows, d));
  }

  /** The in-place addition loop over the devices of `b`. */
  method AddLoop(a: Resources, b: Resources) returns (r: Option<Resources>)
    ensures r == Add(a, b)
  {
    if a.cpu + b.cpu > U64_MAX || a.ram + b.ram > U64_MAX {
      return None;
    }
    var gpu := a.gpu;
    var rest := b.gpu.Keys;
    while rest != {}
      invariant rest <= b.gpu.Keys
      invariant gpu.Keys == a.gpu.Keys + (b.gpu.Keys - rest)
      invariant forall u :: u in gpu ==>
        gpu[u] == Get(a.gpu, u) + (if u in rest then 0 else Get(b.gpu, u))
      invariant forall u :: u in b.gpu.Keys - rest ==> Get(a.gpu, u) + b.gpu[u] <= U64_MAX
      decreases rest
    {
      var u :| u in rest;
      if Get(gpu, u) + b.gpu[u] > U64_MAX {
        return None;
      }
      gpu := gpu[u := Get(gpu, u) + b.gpu[u]];
      rest := rest - {u};
    }
    assert gpu == map u | u in a.gpu.Keys + b.gpu.Keys :: Get(a.gpu, u) + Get(b.gpu, u);
    return Some(Resources(a.cpu + b.cpu, a.ram + b.ram, gpu));
  }

  lemma {:induction false} AddAllStops(start: Resources, rows: seq<Resources>, i: nat)
    requires i <= |rows| && AddAll(start, rows[..i]).None?
    ensures AddAll(start, rows).None?
    decreases |rows| - i
  {
    if i < |rows| {
      assert rows[..i + 1][..i] == rows[..i];
      AddAllStops(start, rows, i + 1);
    } else {
      assert rows[..i] == rows;
    }
  }

  /** The accounting loops: a running checked sum over the rows of a table. */
  method AddLoopAll(start: Resources, rows: seq<Resources>) returns (charged: Option<Resources>)
    ensures charged == AddAll(start, rows)
  {
    var total := start;
    var i := 0;
    while i < |rows|
      invariant 0 <= i <= |rows|
      invariant AddAll(start, rows[..i]) == Some(total)
    {
      assert rows[..i + 1][..i] == rows[..i];
      var next := AddLoop(total, rows[i]);
      if next.None? {
        AddAllStops(start, rows, i + 1);
        return None;
      }
      total := next.value;
      i := i + 1;
    }
    assert rows[..i] == rows;
    return Some(total);
  }

  /** The in-place saturating subtraction loop over the devices of `b`. */
  method SubtractLoop(a: Resources, b: Resources) returns (r: Resources)
    ensures r == Subtract(a, b)
  {
    var gpu := a.gpu;
    var rest := b.gpu.Keys;
    while rest != {}
      invariant rest <= b.gpu.Keys
      invariant gpu.Keys == a.gpu.Keys + (b.gpu.Keys - rest)
      invariant forall u :: u in gpu ==>
        gpu[u] == Monus(Get(a.gpu, u), if u in rest then 0 else Get(b.gpu, u))
      decreases rest
    {
      var u :| u in rest;
      gpu := gpu[u := Monus(Get(gpu, u), b.gpu[u])];
      rest := rest - {u};
    }
    assert gpu == map u | u in a.gpu.Keys + b.gpu.Keys :: Monus(Get(a.gpu, u), Get(b.gpu, u));
    return Resources(Monus(a.cpu, b.cpu), Monus(a.ram, b.ram), gpu);
  }
}

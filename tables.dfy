/**
 * One SQLite table with an AUTOINCREMENT integer primary key, as Room uses it:
 * a map from key to row plus the table's next-key counter, the table
 * operations the DAO annotations declare (`@Insert` with ABORT or REPLACE,
 * `@Update`, `@Delete`, `DELETE FROM`, `insertAll`), and the generic
 * machinery the queries need: SUM over a set of rows and ordered listings.
 */
module Tables {
  import opened Wrappers
  import opened Entities
  import opened Lists

  /** The primary key of a row, as an ordering key. */
  function Id<D>(r: Row<D>): int { r.id }

  /** The rows by key, and the key the next id-less insert receives. */
  datatype Table<D> = Table(rows: map<int, Row<D>>, next: int)
  {
    /** Every row sits under its own id, 0 is never a key, and every key is below the counter. */
    ghost predicate Valid() {
      next >= 1 && 0 !in rows && forall k | k in rows :: rows[k].id == k && k < next
    }

    /** The key an insert of `r` writes: a fresh one for id 0, else the row's own id. */
    function AssignedId(r: Row<D>): (k: int)
      requires Valid()
      ensures k != 0
      ensures r.id != 0 ==> k == r.id
      ensures r.id == 0 ==> k !in rows && k >= next - 1
    {
      if r.id == 0 then next else r.id
    }

    /** `@Insert(onConflict = REPLACE)`: writes the row under its key, overwriting any row already there. */
    function InsertReplace(r: Row<D>): (t: Table<D>)
      requires Valid()
      ensures t.Valid()
      ensures t.rows.Keys == rows.Keys + {AssignedId(r)}
      ensures t.rows[AssignedId(r)] == Row(AssignedId(r), r.fields)
      ensures forall k | k in rows && k != AssignedId(r) :: t.rows[k] == rows[k]
      ensures next <= t.next
    {
      var k := AssignedId(r);
      Table(rows[k := Row(k, r.fields)], if k >= next then k + 1 else next)
    }

    /** Plain `@Insert` (conflict strategy ABORT): a row whose id already exists is refused and nothing changes. */
    function InsertAbort(r: Row<D>): (res: (Table<D>, bool))
      requires Valid()
      ensures res.0.Valid()
      ensures res.1 <==> r.id == 0 || r.id !in rows
      ensures res.1 ==> res.0 == InsertReplace(r)
      ensures !res.1 ==> res.0 == this
    {
      if r.id != 0 && r.id in rows then (this, false) else (InsertReplace(r), true)
    }

    /** `@Update`: replaces the row with the same id; an absent id changes nothing. */
    function Update(r: Row<D>): (t: Table<D>)
      requires Valid()
      ensures t.Valid() && t.next == next && t.rows.Keys == rows.Keys
      ensures r.id in rows ==> t.rows[r.id] == r
      ensures forall k | k in rows && k != r.id :: t.rows[k] == rows[k]
      ensures r.id !in rows ==> t == this
    {
      if r.id in rows then Table(rows[r.id := r], next) else this
    }

    /** `@Delete`: removes the row whose key is the argument's id, matched on the key alone. */
    function Delete(r: Row<D>): (t: Table<D>)
      requires Valid()
      ensures t.Valid() && t.next == next
      ensures t.rows.Keys == rows.Keys - {r.id}
      ensures forall k | k in t.rows :: t.rows[k] == rows[k]
    {
      Table(rows - {r.id}, next)
    }

    /** `DELETE FROM table`: no rows remain; the AUTOINCREMENT counter is kept. */
    function DeleteAll(): (t: Table<D>)
      requires Valid()
      ensures t.Valid() && t.rows == map[] && t.next == next
    {
      Table(map[], next)
    }

    /** `insertAll` with REPLACE: the rows are inserted one after another, in list order. */
    function InsertAll(rs: seq<Row<D>>): (t: Table<D>)
      requires Valid()
      ensures t.Valid() && next <= t.next
      ensures rows.Keys <= t.rows.Keys
      decreases |rs|
    {
      if rs == [] then this
      else InsertAll(rs[..|rs| - 1]).InsertReplace(rs[|rs| - 1])
    }

    /** `SELECT COUNT(*)`: the number of rows. */
    function Count(): (n: nat)
      ensures n == |rows|
    {
      |rows|
    }
  }

  /** A key under which a map holds a given value. */
  lemma KeyOf<K, V>(m: map<K, V>, x: V) returns (k: K)
    requires x in m.Values
    ensures k in m && m[k] == x
  {
    k :| k in m.Keys && m[k] == x;
  }

  /** Some element of a non-empty set. */
  lemma AnyElement<T>(s: set<T>) returns (x: T)
    requires s != {}
    ensures x in s
  {
    x :| x in s;
  }

  /** Some key of a non-empty map. */
  lemma AnyKey<K, V>(m: map<K, V>) returns (k: K)
    requires m != map[]
    ensures k in m
  {
    assert m.Keys != {};
    k :| k in m.Keys;
  }

  /** In a valid table every row sits under its own id. */
  lemma RowAtId<D>(t: Table<D>, x: Row<D>)
    requires t.Valid() && x in t.rows.Values
    ensures x.id in t.rows && t.rows[x.id] == x
  {
    var k := KeyOf(t.rows, x);
  }

  /** In a valid table each key holds a different row, so there are as many rows as keys. */
  lemma {:induction false} ValuesCardinality<D>(t: Table<D>)
    requires t.Valid()
    ensures |t.rows.Values| == |t.rows|
    decreases |t.rows|
  {
    if t.rows != map[] {
      var k := AnyKey(t.rows);
      var smaller := Table(t.rows - {k}, t.next);
      ValuesCardinality(smaller);
      assert t.rows.Values == smaller.rows.Values + {t.rows[k]} by {
        forall x | x in t.rows.Values ensures x in smaller.rows.Values + {t.rows[k]} {
          RowAtId(t, x);
          if x.id != k { assert smaller.rows[x.id] == x; }
        }
        forall x | x in smaller.rows.Values ensures x in t.rows.Values {
          RowAtId(smaller, x);
          assert t.rows[x.id] == x;
        }
      }
      assert t.rows[k] !in smaller.rows.Values by {
        if t.rows[k] in smaller.rows.Values { RowAtId(smaller, t.rows[k]); }
      }
      assert t.rows.Keys == smaller.rows.Keys + {k};
    }
  }

  /** A listing of a valid table by id holds each key's row once, in strictly increasing id order. */
  lemma IdListing<D>(t: Table<D>, rs: seq<Row<D>>)
    requires t.Valid() && IsListing(rs, t.rows.Values, Id, false)
    ensures |rs| == |t.rows|
    ensures forall i | 0 <= i < |rs| :: rs[i].id in t.rows && t.rows[rs[i].id] == rs[i]
    ensures forall k | k in t.rows :: exists i | 0 <= i < |rs| :: rs[i].id == k
    ensures forall i, j | 0 <= i < j < |rs| :: rs[i].id < rs[j].id
  {
    ListingLength(rs, t.rows.Values, Id, false);
    ValuesCardinality(t);
    forall i | 0 <= i < |rs| ensures rs[i].id in t.rows && t.rows[rs[i].id] == rs[i] {
      assert rs[i] in Elements(rs);
      RowAtId(t, rs[i]);
    }
    forall k | k in t.rows ensures exists i | 0 <= i < |rs| :: rs[i].id == k {
      assert t.rows[k] in Elements(rs);
      var i := IndexOf(rs, t.rows[k]);
      assert rs[i].id == k;
    }
    forall i, j | 0 <= i < j < |rs| ensures rs[i].id < rs[j].id {
      assert rs[i] in Elements(rs) && rs[j] in Elements(rs);
      RowAtId(t, rs[i]);
      RowAtId(t, rs[j]);
    }
  }

  /** The empty table of a fresh database. */
  function EmptyTable<D>(): (t: Table<D>)
    ensures t.Valid() && t.rows == map[]
  {
    Table(map[], 1)
  }

  /** The map a list of rows denotes when written by id, a later row overriding an earlier one. */
  function MapOf<D>(rs: seq<Row<D>>): map<int, Row<D>>
    decreases |rs|
  {
    if rs == [] then map[] else MapOf(rs[..|rs| - 1])[rs[|rs| - 1].id := rs[|rs| - 1]]
  }

  /** `MapOf` holds exactly the listed ids, each under a listed row with that id. */
  lemma {:induction false} MapOfFacts<D>(rs: seq<Row<D>>)
    ensures MapOf(rs).Keys == set r | r in rs :: r.id
    ensures forall k | k in MapOf(rs) :: MapOf(rs)[k] in rs && MapOf(rs)[k].id == k
    decreases |rs|
  {
    if rs != [] {
      var init := rs[..|rs| - 1];
      MapOfFacts(init);
      assert rs == init + [rs[|rs| - 1]];
      assert (set r | r in rs :: r.id) == (set r | r in init :: r.id) + {rs[|rs| - 1].id};
    }
  }

  /** Inserting rows that all carry an id overrides the table by `MapOf`; ids below the counter keep it. */
  lemma {:induction false} InsertAllKnownIds<D>(t: Table<D>, rs: seq<Row<D>>)
    requires t.Valid()
    requires forall r | r in rs :: r.id != 0
    ensures t.InsertAll(rs).rows == t.rows + MapOf(rs)
    ensures (forall r | r in rs :: r.id < t.next) ==> t.InsertAll(rs).next == t.next
    decreases |rs|
  {
    if rs != [] {
      var init := rs[..|rs| - 1];
      var last := rs[|rs| - 1];
      assert forall r | r in init :: r in rs;
      InsertAllKnownIds(t, init);
      var u := t.InsertAll(init);
      assert u.InsertReplace(last).rows == u.rows[last.id := last];
    }
  }

  /** `deleteAll` then `insertAll` of rows that all carry an id: exactly those rows, keyed by id, the last one winning. */
  lemma RestoreListed<D>(u: Table<D>, rs: seq<Row<D>>)
    requires u.Valid()
    requires forall r | r in rs :: r.id != 0
    ensures u.DeleteAll().InsertAll(rs).rows == MapOf(rs)
  {
    InsertAllKnownIds(u.DeleteAll(), rs);
    assert map[] + MapOf(rs) == MapOf(rs);
  }

  /** `t` holds exactly the rows of `rs`, the one at position `i` under key `next + i`. */
  ghost predicate FilledFresh<D>(t: Table<D>, next: int, rs: seq<Row<D>>) {
    && (forall k :: k in t.rows <==> next <= k < next + |rs|)
    && (forall k | next <= k < next + |rs| :: t.rows[k] == Row(k, rs[k - next].fields))
  }

  /**
   * Inserting rows without an id into any table keeps its rows and its keys
   * and adds exactly the keys `next`, ..., `next + |rs| - 1`, the row at list
   * position `i` under `next + i`.
   */
  lemma {:induction false} InsertAllFreshKeys<D>(t: Table<D>, rs: seq<Row<D>>)
    requires t.Valid()
    requires forall i | 0 <= i < |rs| :: rs[i].id == 0
    ensures forall k :: k in t.InsertAll(rs).rows <==> k in t.rows || t.next <= k < t.next + |rs|
    ensures forall k | k in t.rows :: t.InsertAll(rs).rows[k] == t.rows[k]
    ensures forall k | t.next <= k < t.next + |rs| :: t.InsertAll(rs).rows[k] == Row(k, rs[k - t.next].fields)
    ensures t.InsertAll(rs).next == t.next + |rs|
    decreases |rs|
  {
    if rs != [] {
      var init := rs[..|rs| - 1];
      var last := rs[|rs| - 1];
      InsertAllFreshKeys(t, init);
      var u := t.InsertAll(init);
      var v := u.InsertReplace(last);
      assert t.InsertAll(rs) == v;
      var k := t.next + |init|;
      assert u.AssignedId(last) == k;
      forall j | t.next <= j < k
        ensures v.rows[j] == Row(j, rs[j - t.next].fields)
      {
        assert rs[j - t.next] == init[j - t.next];
      }
    }
  }

  /**
   * Inserting rows without an id into an empty table writes the row at list
   * position `i` under the fresh key `next + i`: distinct keys, from the
   * counter on, in list order.
   */
  lemma InsertAllFresh<D>(t: Table<D>, rs: seq<Row<D>>)
    requires t.Valid() && t.rows == map[]
    requires forall i | 0 <= i < |rs| :: rs[i].id == 0
    ensures FilledFresh(t.InsertAll(rs), t.next, rs)
    ensures t.InsertAll(rs).next == t.next + |rs|
  {
    InsertAllFreshKeys(t, rs);
  }

  /**
   * Whatever ids the rows carry: every row with an id ends up under that id,
   * every key comes from the table, from a row's id or from the counter, and
   * each row adds at most one key.
   */
  lemma {:induction false} InsertAllKeys<D>(t: Table<D>, rs: seq<Row<D>>)
    requires t.Valid()
    ensures forall r | r in rs && r.id != 0 :: r.id in t.InsertAll(rs).rows
    ensures forall k | k in t.InsertAll(rs).rows :: k in t.rows || k in (set r | r in rs :: r.id) || t.next <= k
    ensures |t.InsertAll(rs).rows| <= |t.rows| + |rs|
    decreases |rs|
  {
    if rs != [] {
      var init := rs[..|rs| - 1];
      var last := rs[|rs| - 1];
      assert rs == init + [last];
      InsertAllKeys(t, init);
      var u := t.InsertAll(init);
      var v := u.InsertReplace(last);
      assert v.rows.Keys == u.rows.Keys + {u.AssignedId(last)};
      assert (set r | r in rs :: r.id) == (set r | r in init :: r.id) + {last.id};
      assert |v.rows.Keys| <= |u.rows.Keys| + 1;
    }
  }

  /** `deleteAll` then `insertAll` of id-less rows: the rows get fresh keys from the old counter on, in list order. */
  lemma RestoreFresh<D>(u: Table<D>, rs: seq<Row<D>>)
    requires u.Valid()
    requires forall r | r in rs :: r.id == 0
    ensures FilledFresh(u.DeleteAll().InsertAll(rs), u.next, rs)
  {
    InsertAllFresh(u.DeleteAll(), rs);
  }

  /**
   * The keys of `t` after writing `rs`: every row with an id is there under
   * it, every other key is at least `next`, and there are no more keys than rows.
   */
  ghost predicate KeysFrom<D>(t: Table<D>, next: int, rs: seq<Row<D>>) {
    && (forall r | r in rs && r.id != 0 :: r.id in t.rows)
    && (forall k | k in t.rows :: k in (set r | r in rs :: r.id) || next <= k)
    && |t.rows| <= |rs|
  }

  /** `deleteAll` then `insertAll` of any rows: ids are kept, the other keys are fresh. */
  lemma RestoreKeysOf<D>(u: Table<D>, rs: seq<Row<D>>)
    requires u.Valid()
    ensures KeysFrom(u.DeleteAll().InsertAll(rs), u.next, rs)
  {
    InsertAllKeys(u.DeleteAll(), rs);
  }

  /** A list holding every row of a valid table, and nothing else, writes back exactly that table's rows. */
  lemma MapOfEnumeration<D>(t: Table<D>, rs: seq<Row<D>>)
    requires t.Valid()
    requires forall r | r in rs :: r.id in t.rows && t.rows[r.id] == r
    requires forall k | k in t.rows :: t.rows[k] in rs
    ensures MapOf(rs) == t.rows
  {
    MapOfFacts(rs);
    forall k | k in t.rows ensures k in MapOf(rs) {
      assert t.rows[k] in rs && t.rows[k].id == k;
    }
  }

  /** Emptying a table and inserting a listing of it gives the same table back, counter included. */
  lemma RestoreSame<D>(t: Table<D>, rs: seq<Row<D>>)
    requires t.Valid()
    requires forall r | r in rs :: r.id in t.rows && t.rows[r.id] == r
    requires forall k | k in t.rows :: t.rows[k] in rs
    ensures t.DeleteAll().InsertAll(rs) == t
  {
    InsertAllKnownIds(t.DeleteAll(), rs);
    MapOfEnumeration(t, rs);
    assert map[] + t.rows == t.rows;
  }

  /** Emptying any table and inserting a listing of `t` leaves exactly `t`'s rows. */
  lemma RestoreInto<D>(u: Table<D>, t: Table<D>, rs: seq<Row<D>>)
    requires u.Valid() && t.Valid()
    requires forall r | r in rs :: r.id in t.rows && t.rows[r.id] == r
    requires forall k | k in t.rows :: t.rows[k] in rs
    ensures u.DeleteAll().InsertAll(rs).rows == t.rows
  {
    InsertAllKnownIds(u.DeleteAll(), rs);
    MapOfEnumeration(t, rs);
    assert map[] + t.rows == t.rows;
  }

  // ---------------------------------------------------------------- SUM

  /** The sum of `f` over a finite set (SQL `SUM`, which does not depend on row order). */
  ghost function SumOf<T>(s: set<T>, f: T -> real): real
    decreases s
  {
    if s == {} then 0.0 else var x :| x in s; f(x) + SumOf(s - {x}, f)
  }

  /** Any element can be taken out first. */
  lemma {:induction false} SumOfRemove<T>(s: set<T>, f: T -> real, y: T)
    requires y in s
    ensures SumOf(s, f) == f(y) + SumOf(s - {y}, f)
    decreases s
  {
    var x :| x in s && SumOf(s, f) == f(x) + SumOf(s - {x}, f);
    if x != y {
      SumOfRemove(s - {x}, f, y);
      SumOfRemove(s - {y}, f, x);
      assert s - {x} - {y} == s - {y} - {x};
    }
  }

  /** The sum over a disjoint union is the sum of the sums. */
  lemma {:induction false} SumOfUnion<T>(a: set<T>, b: set<T>, f: T -> real)
    requires a !! b
    ensures SumOf(a + b, f) == SumOf(a, f) + SumOf(b, f)
    decreases a
  {
    if a != {} {
      var x :| x in a;
      SumOfRemove(a, f, x);
      SumOfRemove(a + b, f, x);
      assert (a + b) - {x} == (a - {x}) + b;
      SumOfUnion(a - {x}, b, f);
    } else {
      assert a + b == b;
    }
  }

  /** Two functions that agree on the set have the same sum over it. */
  lemma {:induction false} SumOfCongruent<T>(s: set<T>, f: T -> real, g: T -> real)
    requires forall x | x in s :: f(x) == g(x)
    ensures SumOf(s, f) == SumOf(s, g)
    decreases s
  {
    if s != {} {
      var x :| x in s;
      SumOfRemove(s, f, x);
      SumOfRemove(s, g, x);
      SumOfCongruent(s - {x}, f, g);
    }
  }

  /** Negating every term negates the sum. */
  lemma {:induction false} SumOfNegate<T>(s: set<T>, f: T -> real, g: T -> real)
    requires forall x | x in s :: g(x) == -f(x)
    ensures SumOf(s, g) == -SumOf(s, f)
    decreases s
  {
    if s != {} {
      var x :| x in s;
      SumOfRemove(s, f, x);
      SumOfRemove(s, g, x);
      SumOfNegate(s - {x}, f, g);
    }
  }

  /** Kotlin's `sumOf` over a list, front to back. */
  function SeqSum<T>(r: seq<T>, f: T -> real): real
    decreases |r|
  {
    if r == [] then 0.0 else f(r[0]) + SeqSum(r[1..], f)
  }

  /** Summing a list without repeats gives the sum over its set of elements, whatever the order. */
  lemma {:induction false} SeqSumIsSumOf<T>(r: seq<T>, f: T -> real)
    requires Distinct(r)
    ensures SeqSum(r, f) == SumOf(Elements(r), f)
    decreases |r|
  {
    if r != [] {
      var tail := r[1..];
      assert Distinct(tail) by {
        forall i, j | 0 <= i < j < |tail| ensures tail[i] != tail[j] {
          assert r[i + 1] != r[j + 1];
        }
      }
      SeqSumIsSumOf(tail, f);
      assert r[0] in Elements(r);
      SumOfRemove(Elements(r), f, r[0]);
      assert Elements(r) - {r[0]} == Elements(tail) by {
        forall x | x in Elements(tail) ensures x != r[0] {
          var j := IndexOf(tail, x);
          assert r[j + 1] != r[0];
        }
        assert Elements(r) == {r[0]} + Elements(tail);
      }
    }
  }

  /** SQL `SUM`: absent on no rows, the sum otherwise. */
  ghost function SumOrNull<T>(s: set<T>, f: T -> real): (r: Option<real>)
    ensures r.None? <==> s == {}
    ensures OrZero(r) == SumOf(s, f)
  {
    if s == {} then None else Some(SumOf(s, f))
  }

  /** Computes SQL `SUM` by visiting the rows one at a time, in any order. */
  method SumBy<T(==)>(s: set<T>, f: T -> real) returns (total: Option<real>)
    ensures total == SumOrNull(s, f)
  {
    var acc := 0.0;
    var rest := s;
    while rest != {}
      invariant rest <= s
      invariant acc + SumOf(rest, f) == SumOf(s, f)
      decreases rest
    {
      var x :| x in rest;
      SumOfRemove(rest, f, x);
      acc := acc + f(x);
      rest := rest - {x};
    }
    total := if s == {} then None else Some(acc);
  }

  // ---------------------------------------------------------------- ORDER BY

  /** `x` may come before `y` under `ORDER BY key ASC` or `DESC`. */
  predicate Before<T>(key: T -> int, descending: bool, x: T, y: T) {
    if descending then key(x) >= key(y) else key(x) <= key(y)
  }

  predicate Ordered<T>(r: seq<T>, key: T -> int, descending: bool) {
    forall i, j | 0 <= i < j < |r| :: Before(key, descending, r[i], r[j])
  }

  /** Filtering keeps a list sorted. */
  lemma {:induction false} FilterOrdered<T>(xs: seq<T>, p: T -> bool, key: T -> int, descending: bool)
    requires Ordered(xs, key, descending)
    ensures Ordered(Filter(xs, p), key, descending)
    decreases |xs|
  {
    if xs != [] {
      var tail := xs[1..];
      assert Ordered(tail, key, descending) by {
        forall i, j | 0 <= i < j < |tail| ensures Before(key, descending, tail[i], tail[j]) {
          assert tail[i] == xs[i + 1] && tail[j] == xs[j + 1];
        }
      }
      FilterOrdered(tail, p, key, descending);
      if p(xs[0]) {
        var r := Filter(xs, p);
        assert r == [xs[0]] + Filter(tail, p);
        forall j | 1 <= j < |r| ensures Before(key, descending, r[0], r[j]) {
          var k := IndexOf(tail, r[j]);
          assert xs[k + 1] == r[j];
        }
      }
    }
  }

  predicate Distinct<T(==)>(r: seq<T>) {
    forall i, j | 0 <= i < j < |r| :: r[i] != r[j]
  }

  ghost function Elements<T>(r: seq<T>): set<T> {
    set x | x in r
  }

  /** `r` lists every element of `s` once, sorted by `key`; ties may come in any order. */
  ghost predicate IsListing<T>(r: seq<T>, s: set<T>, key: T -> int, descending: bool) {
    Ordered(r, key, descending) && Distinct(r) && Elements(r) == s
  }

  /** A listing has as many entries as the set has elements. */
  lemma {:induction false} ListingLength<T>(r: seq<T>, s: set<T>, key: T -> int, descending: bool)
    requires IsListing(r, s, key, descending)
    ensures |r| == |s|
    decreases |r|
  {
    if r != [] {
      var init := r[..|r| - 1];
      var last := r[|r| - 1];
      assert r == init + [last];
      assert Elements(r) == Elements(init) + {last};
      assert last !in Elements(init) by {
        forall i | 0 <= i < |init| ensures init[i] != last {
          assert r[i] != r[|r| - 1];
        }
      }
      ListingLength(init, Elements(init), key, descending);
    }
  }

  /** Every non-empty finite set has an element that may come first. */
  lemma {:induction false} FirstExists<T>(s: set<T>, key: T -> int, descending: bool)
    requires s != {}
    ensures exists x :: x in s && forall y | y in s :: Before(key, descending, x, y)
    decreases s
  {
    var x :| x in s;
    if s != {x} {
      FirstExists(s - {x}, key, descending);
      var m :| m in s - {x} && forall y | y in s - {x} :: Before(key, descending, m, y);
      if !Before(key, descending, m, x) {
        forall y | y in s ensures Before(key, descending, x, y) {
          if y != x {
            assert Before(key, descending, m, y);
          }
        }
      } else {
        assert forall y | y in s :: Before(key, descending, m, y);
      }
    } else {
      assert forall y | y in s :: Before(key, descending, x, y);
    }
  }

  /** Produces a listing of `s` in `key` order by repeatedly taking an element that may come first. */
  method ListBy<T(==)>(s: set<T>, key: T -> int, descending: bool) returns (r: seq<T>)
    ensures IsListing(r, s, key, descending)
  {
    r := [];
    var rest := s;
    while rest != {}
      invariant rest <= s
      invariant Elements(r) + rest == s && Elements(r) !! rest
      invariant Ordered(r, key, descending) && Distinct(r)
      invariant forall i, y | 0 <= i < |r| && y in rest :: Before(key, descending, r[i], y)
      decreases rest
    {
      FirstExists(rest, key, descending);
      var x :| x in rest && forall y | y in rest :: Before(key, descending, x, y);
      assert Elements(r + [x]) == Elements(r) + {x};
      r := r + [x];
      rest := rest - {x};
    }
  }

  /** Filtering a listing of `s` gives a listing, in the same order, of the part of `s` that passes. */
  lemma {:induction false} FilterListing<T>(r: seq<T>, s: set<T>, key: T -> int, descending: bool, p: T -> bool)
    requires IsListing(r, s, key, descending)
    ensures IsListing(Filter(r, p), (set x | x in s && p(x)), key, descending)
    decreases |r|
  {
    if r != [] {
      var tail := r[1..];
      assert Elements(r) == {r[0]} + Elements(tail);
      assert r[0] !in Elements(tail) by {
        forall j | 0 <= j < |tail| ensures tail[j] != r[0] {
          assert r[j + 1] != r[0];
        }
      }
      assert Ordered(tail, key, descending) by {
        forall i, j | 0 <= i < j < |tail| ensures Before(key, descending, tail[i], tail[j]) {
          assert Before(key, descending, r[i + 1], r[j + 1]);
        }
      }
      FilterListing(tail, Elements(tail), key, descending, p);
      var ft := Filter(tail, p);
      if p(r[0]) {
        var f := [r[0]] + ft;
        forall j | 0 <= j < |ft| ensures Before(key, descending, r[0], ft[j]) && ft[j] != r[0] {
          var k := IndexOf(tail, ft[j]);
          assert Before(key, descending, r[0], r[k + 1]);
        }
        assert Ordered(f, key, descending) by {
          forall i, j | 0 <= i < j < |f| ensures Before(key, descending, f[i], f[j]) {
            if i > 0 {
              assert Before(key, descending, ft[i - 1], ft[j - 1]);
            }
          }
        }
        assert Distinct(f) by {
          forall i, j | 0 <= i < j < |f| ensures f[i] != f[j] {
            if i > 0 {
              assert ft[i - 1] != ft[j - 1];
            }
          }
        }
        assert Elements(f) == {r[0]} + Elements(ft);
      }
    } else {
      assert (set x | x in s && p(x)) == {};
    }
  }

  /** Summing the filtered listing is summing the part of the set that passes the filter. */
  lemma FilterSum<T>(r: seq<T>, s: set<T>, key: T -> int, descending: bool, p: T -> bool, f: T -> real, part: set<T>)
    requires IsListing(r, s, key, descending)
    requires part <= s && forall x | x in s :: x in part <==> p(x)
    ensures SeqSum(Filter(r, p), f) == SumOf(part, f)
  {
    FilterListing(r, s, key, descending, p);
    assert part == set x | x in s && p(x);
    SeqSumIsSumOf(Filter(r, p), f);
  }
}

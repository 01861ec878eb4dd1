/** A database table as the store keeps it: rows keyed by their integer primary
    key, and the next value of the table's auto-increment counter. The delete
    rules of the schema are carried out by scanning a child table for the rows
    whose foreign key names a removed parent (SweepRefs, ClearRefs). */
module Tables {

  datatype Option<T> = None | Some(value: T)

  datatype Table<T> = Table(rows: map<int, T>, next: int)
  {
    /** Every key was handed out by the counter: keys start at 1 and stay below `next`. */
    ghost predicate Fresh()
    {
      1 <= next && forall k :: k in rows ==> 1 <= k < next
    }

    /** INSERT with an auto-increment key: the row gets the counter's value. */
    function Insert(r: T): (t: Table<T>)
      requires Fresh()
      ensures t.Fresh()
      ensures next !in rows && t.rows.Keys == rows.Keys + {next}
      ensures t.rows[next] == r
      ensures forall k :: k in rows ==> k < next && t.rows[k] == rows[k]
    {
      Table(rows[next := r], next + 1)
    }

    /** UPDATE of the row with key `k`. */
    function Put(k: int, r: T): Table<T>
    {
      this.(rows := rows[k := r])
    }

    /** DELETE of the rows whose keys are in `ks`. */
    function Drop(ks: set<int>): Table<T>
    {
      this.(rows := rows - ks)
    }
  }

  function Empty<T>(): (t: Table<T>)
    ensures t.Fresh() && t.rows == map[]
  {
    Table(map[], 1)
  }

  /** Every row of `rows` meets `ok`: what the column definitions keep. */
  ghost predicate Every<T>(rows: map<int, T>, ok: T -> bool)
  {
    forall k :: k in rows ==> ok(rows[k])
  }

  /** Writing `r` under `at` keeps every row acceptable exactly when `r` is. */
  lemma EveryPut<T>(rows: map<int, T>, at: int, r: T, ok: T -> bool)
    requires Every(rows, ok)
    ensures Every(rows[at := r], ok) <==> ok(r)
  {
    assert at in rows[at := r];
  }

  /** No two distinct rows of `rows` clash: what a unique column or index keeps. */
  ghost predicate Distinct<T>(rows: map<int, T>, clash: (T, T) -> bool)
  {
    forall a, b :: a in rows && b in rows && a != b ==> !clash(rows[a], rows[b])
  }

  /** Whether some row other than the one under key `at` clashes with `r`:
      the duplicate-key check the database makes when it writes `r` there. */
  function Clashes<T>(rows: map<int, T>, at: int, r: T, clash: (T, T) -> bool): bool
  {
    exists k :: k in rows && k != at && clash(rows[k], r)
  }

  /** Writing `r` under `at` keeps a table free of clashes exactly when the
      duplicate-key check finds none. */
  lemma DistinctPut<T>(rows: map<int, T>, at: int, r: T, clash: (T, T) -> bool)
    requires Distinct(rows, clash)
    requires forall x, y :: clash(x, y) == clash(y, x)
    ensures Distinct(rows[at := r], clash) <==> !Clashes(rows, at, r, clash)
  {
    var m := rows[at := r];
    if Clashes(rows, at, r, clash) {
      var k :| k in rows && k != at && clash(rows[k], r);
      assert m[k] == rows[k] && m[at] == r;
    } else {
      forall a, b | a in m && b in m && a != b
        ensures !clash(m[a], m[b])
      {
        if a == at {
          assert clash(m[a], m[b]) == clash(m[b], m[a]);
        }
      }
    }
  }

  /** A nullable foreign-key value that names one of the keys `ks`. */
  predicate RefersTo(x: Option<int>, ks: set<int>)
  {
    x.Some? && x.value in ks
  }

  /** Every non-null foreign key `fk` of `child` names a row of `parent`. */
  ghost predicate Refs<C, P>(child: map<int, C>, fk: C -> Option<int>, parent: map<int, P>)
  {
    forall k :: k in child && fk(child[k]).Some? ==> fk(child[k]).value in parent
  }

  /** Deleting rows keeps the counter ahead of every key. */
  lemma DropFresh<T>(t: Table<T>, ks: set<int>)
    requires t.Fresh()
    ensures t.Drop(ks).Fresh() && t.Drop(ks).rows.Keys == t.rows.Keys - ks
  {
  }

  /** Deleting rows keeps every remaining row acceptable. */
  lemma EveryDrop<T>(rows: map<int, T>, ks: set<int>, ok: T -> bool)
    requires Every(rows, ok)
    ensures Every(rows - ks, ok)
  {
  }

  /** Deleting rows cannot create a duplicate. */
  lemma DistinctDrop<T>(rows: map<int, T>, ks: set<int>, clash: (T, T) -> bool)
    requires Distinct(rows, clash)
    ensures Distinct(rows - ks, clash)
  {
  }

  /** Deleting child rows cannot leave a dangling reference. */
  lemma RefsDropChild<C, P>(child: map<int, C>, fk: C -> Option<int>, parent: map<int, P>, gone: set<int>)
    requires Refs(child, fk, parent)
    ensures Refs(child - gone, fk, parent)
  {
  }

  /** The keys of the rows of `rows` whose foreign key `fk` names one of `ks`. */
  function Referencing<T>(rows: map<int, T>, fk: T -> Option<int>, ks: set<int>): (hit: set<int>)
    ensures hit <= rows.Keys
  {
    set k | k in rows && RefersTo(fk(rows[k]), ks)
  }

  /** Deleting the parents `ks` together with every child row that names one
      of them leaves no dangling reference: why `ON DELETE CASCADE` keeps
      referential integrity. */
  lemma RefsDropParent<C, P>(child: map<int, C>, fk: C -> Option<int>, parent: map<int, P>, ks: set<int>)
    requires Refs(child, fk, parent)
    ensures Refs(child - Referencing(child, fk, ks), fk, parent - ks)
  {
    var kept := child - Referencing(child, fk, ks);
    forall k | k in kept && fk(kept[k]).Some?
      ensures fk(kept[k]).value in parent - ks
    {
      assert k !in Referencing(child, fk, ks);
    }
  }

  /** A reference names one of the rows selected by `Referencing` exactly when
      it names a row of `parent` whose own foreign key names one of `ks`:
      how a cascade reaches grandchildren. */
  lemma RefersToReferencing<T>(x: Option<int>, parent: map<int, T>, fk: T -> Option<int>, ks: set<int>)
    ensures RefersTo(x, Referencing(parent, fk, ks)) <==>
      x.Some? && x.value in parent && RefersTo(fk(parent[x.value]), ks)
  {
  }

  /** The rows of `rows` with `clear` applied to those whose foreign key `fk`
      names one of `ks`: what `ON DELETE SET NULL` leaves behind. */
  function Cleared<T>(rows: map<int, T>, fk: T -> Option<int>, ks: set<int>, clear: T -> T): map<int, T>
  {
    map k | k in rows :: if RefersTo(fk(rows[k]), ks) then clear(rows[k]) else rows[k]
  }

  /** Scans a child table in primary-key order and deletes the rows whose
      foreign key names one of the removed parents `ks`: `ON DELETE CASCADE`. */
  method SweepRefs<T>(t: Table<T>, fk: T -> Option<int>, ks: set<int>) returns (kept: Table<T>, gone: set<int>)
    requires t.Fresh()
    ensures gone == Referencing(t.rows, fk, ks)
    ensures kept == t.Drop(gone) && kept.Fresh()
  {
    gone := {};
    for i := 1 to t.next
      invariant gone == set k | k in t.rows && k < i && RefersTo(fk(t.rows[k]), ks)
    {
      if i in t.rows && RefersTo(fk(t.rows[i]), ks) {
        gone := gone + {i};
      }
    }
    kept := t.Drop(gone);
  }

  /** Scans a child table in primary-key order and applies `clear` to the rows
      whose foreign key names one of the removed parents `ks`: `ON DELETE SET NULL`. */
  method ClearRefs<T>(t: Table<T>, fk: T -> Option<int>, ks: set<int>, clear: T -> T) returns (out: Table<T>)
    requires t.Fresh()
    ensures out == t.(rows := Cleared(t.rows, fk, ks, clear)) && out.Fresh()
  {
    out := t;
    for i := 1 to t.next
      invariant out.next == t.next && out.rows.Keys == t.rows.Keys
      invariant forall k :: k in t.rows && k < i ==> out.rows[k] == if RefersTo(fk(t.rows[k]), ks) then clear(t.rows[k]) else t.rows[k]
      invariant forall k :: k in t.rows && i <= k ==> out.rows[k] == t.rows[k]
    {
      if i in t.rows && RefersTo(fk(t.rows[i]), ks) {
        out := out.Put(i, clear(t.rows[i]));
      }
    }
    var want := Cleared(t.rows, fk, ks, clear);
    assert out.rows.Keys == want.Keys;
    forall k | k in t.rows
      ensures out.rows[k] == want[k]
    {
      assert k < t.next;
    }
    assert out.rows == want;
  }

  /** `findAll()` without an order: every row once, with its key, in
      primary-key order. */
  method Scan<T>(t: Table<T>) returns (out: seq<(int, T)>)
    requires t.Fresh()
    ensures forall i :: 0 <= i < |out| ==> out[i].0 in t.rows && t.rows[out[i].0] == out[i].1
    ensures forall i, j :: 0 <= i < j < |out| ==> out[i].0 < out[j].0
    ensures forall k :: k in t.rows ==> exists i :: 0 <= i < |out| && out[i].0 == k
  {
    out := [];
    for n := 1 to t.next
      invariant forall i :: 0 <= i < |out| ==> out[i].0 in t.rows && t.rows[out[i].0] == out[i].1 && out[i].0 < n
      invariant forall i, j :: 0 <= i < j < |out| ==> out[i].0 < out[j].0
      invariant forall k :: k in t.rows && k < n ==> exists i :: 0 <= i < |out| && out[i].0 == k
    {
      ghost var prev := out;
      if n in t.rows {
        out := out + [(n, t.rows[n])];
      }
      forall k | k in t.rows && k < n + 1
        ensures exists i :: 0 <= i < |out| && out[i].0 == k
      {
        if k < n {
          var i :| 0 <= i < |prev| && prev[i].0 == k;
          assert out[i] == prev[i];
        } else {
          assert out[|out| - 1].0 == k;
        }
      }
    }
  }

  /** The first row in primary-key order, from key `from` on, whose foreign key
      `fk` is `k`: what `findOne({ where: { fk: k } })` answers. */
  function FirstRef<T>(t: Table<T>, fk: T -> Option<int>, k: int, from: int): (r: Option<int>)
    requires t.Fresh() && 1 <= from
    ensures r.Some? ==> from <= r.value && r.value in t.rows && fk(t.rows[r.value]) == Some(k)
    ensures r.Some? ==> forall j :: from <= j < r.value && j in t.rows ==> fk(t.rows[j]) != Some(k)
    ensures r.None? ==> forall j :: from <= j && j in t.rows ==> fk(t.rows[j]) != Some(k)
    decreases t.next - from
  {
    if t.next <= from then None
    else if from in t.rows && fk(t.rows[from]) == Some(k) then Some(from)
    else FirstRef(t, fk, k, from + 1)
  }
}

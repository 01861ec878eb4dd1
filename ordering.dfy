/** `ORDER BY col1 ASC, col2 ASC, ...` over text columns. A sort key is the
    list of a row's ordering columns; NULL sorts before every value, and text
    compares character by character. */
module Ordering {
  import opened Tables

  type SortKey = seq<Option<string>>

  /** Text order: a prefix comes first, otherwise the first differing character decides. */
  predicate TextLe(a: string, b: string)
    decreases |a|
  {
    |a| == 0 || (|b| > 0 && (a[0] < b[0] || (a[0] == b[0] && TextLe(a[1..], b[1..]))))
  }

  /** Order of one nullable column under ASC: NULL first. */
  predicate FieldLe(a: Option<string>, b: Option<string>)
  {
    a.None? || (b.Some? && TextLe(a.value, b.value))
  }

  /** Order of whole sort keys: the first column that differs decides. */
  predicate KeyLe(a: SortKey, b: SortKey)
    decreases |a|
  {
    |a| == 0
    || (|b| > 0 && ((a[0] != b[0] && FieldLe(a[0], b[0])) || (a[0] == b[0] && KeyLe(a[1..], b[1..]))))
  }

  lemma {:induction false} TextLeTotal(a: string, b: string)
    ensures TextLe(a, b) || TextLe(b, a)
    decreases |a|
  {
    if |a| > 0 && |b| > 0 && a[0] == b[0] {
      TextLeTotal(a[1..], b[1..]);
    }
  }

  lemma {:induction false} TextLeAntisymmetric(a: string, b: string)
    requires TextLe(a, b) && TextLe(b, a)
    ensures a == b
    decreases |a|
  {
    if |a| > 0 {
      TextLeAntisymmetric(a[1..], b[1..]);
      assert a == [a[0]] + a[1..] && b == [b[0]] + b[1..];
    }
  }

  lemma {:induction false} TextLeTransitive(a: string, b: string, c: string)
    requires TextLe(a, b) && TextLe(b, c)
    ensures TextLe(a, c)
    decreases |a|
  {
    if |a| > 0 && a[0] == b[0] && b[0] == c[0] {
      TextLeTransitive(a[1..], b[1..], c[1..]);
    }
  }

  lemma FieldLeTotal(a: Option<string>, b: Option<string>)
    ensures FieldLe(a, b) || FieldLe(b, a)
  {
    if a.Some? && b.Some? {
      TextLeTotal(a.value, b.value);
    }
  }

  lemma FieldLeAntisymmetric(a: Option<string>, b: Option<string>)
    requires FieldLe(a, b) && FieldLe(b, a)
    ensures a == b
  {
    if a.Some? && b.Some? {
      TextLeAntisymmetric(a.value, b.value);
    }
  }

  lemma FieldLeTransitive(a: Option<string>, b: Option<string>, c: Option<string>)
    requires FieldLe(a, b) && FieldLe(b, c)
    ensures FieldLe(a, c)
  {
    if a.Some? {
      TextLeTransitive(a.value, b.value, c.value);
    }
  }

  /** Any two keys of the same columns are ordered one way or the other. */
  lemma {:induction false} KeyLeTotal(a: SortKey, b: SortKey)
    ensures KeyLe(a, b) || KeyLe(b, a)
    decreases |a|
  {
    if |a| > 0 && |b| > 0 {
      if a[0] == b[0] {
        KeyLeTotal(a[1..], b[1..]);
      } else {
        FieldLeTotal(a[0], b[0]);
      }
    }
  }

  lemma {:induction false} KeyLeTransitive(a: SortKey, b: SortKey, c: SortKey)
    requires KeyLe(a, b) && KeyLe(b, c)
    ensures KeyLe(a, c)
    decreases |a|
  {
    if |a| > 0 {
      if a[0] == b[0] && b[0] == c[0] {
        KeyLeTransitive(a[1..], b[1..], c[1..]);
      } else if a[0] == b[0] {
        assert FieldLe(a[0], c[0]);
      } else if b[0] == c[0] {
        assert FieldLe(a[0], c[0]);
      } else {
        FieldLeTransitive(a[0], b[0], c[0]);
        if a[0] == c[0] {
          FieldLeAntisymmetric(a[0], b[0]);
        }
      }
    }
  }

  /** A listing of `(id, row)` entries in ascending key order. */
  ghost predicate Sorted<T>(xs: seq<(int, T)>, key: T -> SortKey)
  {
    forall i, j :: 0 <= i < j < |xs| ==> KeyLe(key(xs[i].1), key(xs[j].1))
  }

  /** Every entry of `xs` has a key no smaller than `low`. */
  ghost predicate AllFrom<T>(low: SortKey, xs: seq<(int, T)>, key: T -> SortKey)
  {
    forall i :: 0 <= i < |xs| ==> KeyLe(low, key(xs[i].1))
  }

  /** The head of a sorted listing comes no later than any entry after it. */
  lemma SortedHead<T>(xs: seq<(int, T)>, key: T -> SortKey)
    requires Sorted(xs, key) && |xs| > 0
    ensures AllFrom(key(xs[0].1), xs[1..], key)
  {
    forall i | 0 <= i < |xs[1..]|
      ensures KeyLe(key(xs[0].1), key(xs[1..][i].1))
    {
      assert xs[1..][i] == xs[i + 1];
    }
  }

  /** Inserts entry `e` into a sorted listing, before the first entry whose
      key is not smaller than its own. */
  function Place<T>(xs: seq<(int, T)>, e: (int, T), key: T -> SortKey): (ys: seq<(int, T)>)
    requires Sorted(xs, key)
    ensures Sorted(ys, key)
    ensures multiset(ys) == multiset(xs) + multiset{e}
    ensures forall i :: 0 <= i < |ys| ==> ys[i] in xs || ys[i] == e
    ensures forall low :: AllFrom(low, xs, key) && KeyLe(low, key(e.1)) ==> AllFrom(low, ys, key)
    decreases |xs|
  {
    if |xs| == 0 then [e]
    else if KeyLe(key(e.1), key(xs[0].1)) then
      SortedHead(xs, key);
      assert AllFrom(key(e.1), xs, key) by {
        forall i | 0 < i < |xs|
          ensures KeyLe(key(e.1), key(xs[i].1))
        {
          assert xs[1..][i - 1] == xs[i];
          KeyLeTransitive(key(e.1), key(xs[0].1), key(xs[i].1));
        }
      }
      [e] + xs
    else
      KeyLeTotal(key(e.1), key(xs[0].1));
      SortedHead(xs, key);
      assert xs == [xs[0]] + xs[1..];
      [xs[0]] + Place(xs[1..], e, key)
  }

  /** `findAll({ order })` over a table: every row exactly once, with its id,
      in ascending key order. Rows come in primary-key order and each is
      placed into the listing built so far. */
  method OrderBy<T>(t: Table<T>, key: T -> SortKey) returns (out: seq<(int, T)>)
    requires t.Fresh()
    ensures Sorted(out, key)
    ensures forall x :: x in out ==> x.0 in t.rows && t.rows[x.0] == x.1
    ensures forall k :: k in t.rows ==> multiset(out)[(k, t.rows[k])] == 1
  {
    out := [];
    for i := 1 to t.next
      invariant Sorted(out, key)
      invariant forall x :: x in out ==> x.0 in t.rows && x.0 < i && t.rows[x.0] == x.1
      invariant forall k :: k in t.rows && k < i ==> multiset(out)[(k, t.rows[k])] == 1
    {
      if i in t.rows {
        var e := (i, t.rows[i]);
        assert e !in out;
        out := Place(out, e, key);
      }
    }
  }
}

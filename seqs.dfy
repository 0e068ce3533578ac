/** Sequence helpers standing for the lodash functions the source uses
    (`uniq`, `flatten`, `filter`) and for `Array.prototype.includes`. */
module Seqs {
  import opened Common

  predicate NoDuplicates<T(==)>(s: seq<T>)
  {
    forall i, j :: 0 <= i < j < |s| ==> s[i] != s[j]
  }

  /** Appends each element of `xs`, in order, unless it is already present:
      the "push if not included" idiom. */
  function AppendNew<T(==)>(acc: seq<T>, xs: seq<T>): seq<T>
  {
    if xs == [] then acc
    else
      var r := AppendNew(acc, xs[..|xs| - 1]);
      if xs[|xs| - 1] in r then r else r + [xs[|xs| - 1]]
  }

  lemma {:induction false} AppendNewKeepsPrefix<T>(acc: seq<T>, xs: seq<T>)
    ensures acc <= AppendNew(acc, xs)
  {
    if xs != [] {
      AppendNewKeepsPrefix(acc, xs[..|xs| - 1]);
    }
  }

  lemma {:induction false} AppendNewElements<T>(acc: seq<T>, xs: seq<T>)
    ensures forall x :: x in AppendNew(acc, xs) <==> x in acc || x in xs
  {
    if xs != [] {
      AppendNewElements(acc, xs[..|xs| - 1]);
      assert xs == xs[..|xs| - 1] + [xs[|xs| - 1]];
    }
  }

  lemma {:induction false} AppendNewNoDuplicates<T>(acc: seq<T>, xs: seq<T>)
    requires NoDuplicates(acc)
    ensures NoDuplicates(AppendNew(acc, xs))
  {
    if xs != [] {
      AppendNewNoDuplicates(acc, xs[..|xs| - 1]);
    }
  }

  /** The position of the first occurrence of `x` in `xs`, or `|xs|` when there is none. */
  function FirstIndex<T(==)>(xs: seq<T>, x: T): (i: nat)
    ensures i <= |xs| && (i < |xs| <==> x in xs)
    ensures i < |xs| ==> xs[i] == x
    ensures x !in xs[..i]
  {
    if xs == [] then 0
    else if x in xs[..|xs| - 1] then FirstIndex(xs[..|xs| - 1], x)
    else if xs[|xs| - 1] == x then |xs| - 1
    else |xs|
  }

  /** `AppendNewElements` for one value. */
  lemma AppendNewMember<T>(acc: seq<T>, xs: seq<T>, x: T)
    ensures x in AppendNew(acc, xs) <==> x in acc || x in xs
  {
    AppendNewElements(acc, xs);
  }

  /** A value occurring before the last position has its first occurrence there. */
  lemma FirstIndexInPrefix<T>(xs: seq<T>, y: T)
    requires xs != [] && y in xs[..|xs| - 1]
    ensures FirstIndex(xs, y) == FirstIndex(xs[..|xs| - 1], y) < |xs| - 1
  {
  }

  /** Pushing the elements of `xs` onto nothing unless present lists them in
      the order of their first occurrences in `xs`. */
  lemma {:induction false} AppendNewFirstOrder<T>(xs: seq<T>)
    ensures var r := AppendNew([], xs);
      forall i, j :: 0 <= i < j < |r| ==> FirstIndex(xs, r[i]) < FirstIndex(xs, r[j]) < |xs|
  {
    var none: seq<T> := [];
    if xs != [] {
      var p := xs[..|xs| - 1];
      var last := xs[|xs| - 1];
      var q := AppendNew(none, p);
      var r := AppendNew(none, xs);
      assert r == if last in q then q else q + [last];
      AppendNewFirstOrder(p);
      forall i, j | 0 <= i < j < |r|
        ensures FirstIndex(xs, r[i]) < FirstIndex(xs, r[j]) < |xs|
      {
        assert r[i] == q[i];
        AppendNewMember(none, p, q[i]);
        FirstIndexInPrefix(xs, q[i]);
        if j < |q| {
          assert r[j] == q[j];
          AppendNewMember(none, p, q[j]);
          FirstIndexInPrefix(xs, q[j]);
        } else {
          AppendNewMember(none, p, last);
          assert r[j] == last && last !in p;
        }
      }
    }
  }

  /** lodash `uniq`: the values of `xs`, each once, in the order of their first
      occurrences. */
  function Uniq<T(==, !new)>(xs: seq<T>): (r: seq<T>)
    ensures NoDuplicates(r)
    ensures forall x :: x in r <==> x in xs
    ensures forall i, j :: 0 <= i < j < |r| ==> FirstIndex(xs, r[i]) < FirstIndex(xs, r[j])
  {
    var none: seq<T> := [];
    AppendNewNoDuplicates(none, xs);
    AppendNewElements(none, xs);
    AppendNewFirstOrder(xs);
    assert AppendNew([], xs) == AppendNew(none, xs);
    AppendNew(none, xs)
  }

  /** lodash `flatten` (one level). */
  function Flatten<T>(xss: seq<seq<T>>): seq<T>
  {
    if xss == [] then [] else Flatten(xss[..|xss| - 1]) + xss[|xss| - 1]
  }

  /** `Array.prototype.map`. */
  function Map<T, U>(s: seq<T>, f: T -> U): (r: seq<U>)
    ensures |r| == |s|
  {
    if s == [] then [] else Map(s[..|s| - 1], f) + [f(s[|s| - 1])]
  }

  /** The map of one more element of a list. */
  lemma MapNext<T, U>(s: seq<T>, f: T -> U, k: nat)
    requires k < |s|
    ensures Map(s[..k + 1], f) == Map(s[..k], f) + [f(s[k])]
  {
    assert s[..k + 1][..k] == s[..k];
  }

  /** Each element is mapped in place. */
  lemma {:induction false} MapAt<T, U>(s: seq<T>, f: T -> U, i: nat)
    requires i < |s|
    ensures Map(s, f)[i] == f(s[i])
  {
    if i < |s| - 1 {
      assert s[..|s| - 1][i] == s[i];
      MapAt(s[..|s| - 1], f, i);
    }
  }

  /** A value is in the map exactly when some element maps to it. */
  lemma {:induction false} MapMember<T, U>(s: seq<T>, f: T -> U, x: U)
    ensures x in Map(s, f) <==> exists i :: 0 <= i < |s| && f(s[i]) == x
  {
    if s != [] {
      var p := s[..|s| - 1];
      MapMember(p, f, x);
      assert Map(s, f) == Map(p, f) + [f(s[|s| - 1])];
      if exists i :: 0 <= i < |s| && f(s[i]) == x {
        var i :| 0 <= i < |s| && f(s[i]) == x;
        if i < |p| {
          assert p[i] == s[i];
        }
      }
    }
  }

  /** A sequence that agrees with `f` at every position is the map of `f`. */
  lemma MapOf<T, U>(s: seq<T>, f: T -> U, r: seq<U>)
    requires |r| == |s| && forall i :: 0 <= i < |s| ==> r[i] == f(s[i])
    ensures r == Map(s, f)
  {
    forall i | 0 <= i < |s|
      ensures r[i] == Map(s, f)[i]
    {
      MapAt(s, f, i);
    }
  }

  /** `Array.prototype.filter`, keeping order. */
  function Filter<T>(s: seq<T>, keep: T -> bool): (r: seq<T>)
    ensures |r| <= |s|
  {
    if s == [] then [] else
      Filter(s[..|s| - 1], keep) + (if keep(s[|s| - 1]) then [s[|s| - 1]] else [])
  }

  /** The filter keeps exactly the elements that pass. */
  lemma {:induction false} FilterMember<T>(s: seq<T>, keep: T -> bool, x: T)
    ensures x in Filter(s, keep) <==> x in s && keep(x)
  {
    if s != [] {
      var p := s[..|s| - 1];
      FilterMember(p, keep, x);
      assert s == p + [s[|s| - 1]];
    }
  }

  /** A filter that keeps everything returns its input. */
  lemma {:induction false} FilterAll<T>(s: seq<T>, keep: T -> bool)
    requires forall k :: 0 <= k < |s| ==> keep(s[k])
    ensures Filter(s, keep) == s
  {
    if s != [] {
      var p := s[..|s| - 1];
      forall k | 0 <= k < |p|
        ensures keep(p[k])
      {
        assert p[k] == s[k];
      }
      FilterAll(p, keep);
      assert s == p + [s[|s| - 1]];
    }
  }

  /** `filter` then `map`: a value is produced exactly when some element passes
      and maps to it. */
  lemma MapFilterMember<T, U>(s: seq<T>, keep: T -> bool, f: T -> U, x: U)
    ensures x in Map(Filter(s, keep), f) <==> exists k :: 0 <= k < |s| && keep(s[k]) && f(s[k]) == x
  {
    var t := Filter(s, keep);
    MapMember(t, f, x);
    if x in Map(t, f) {
      var i :| 0 <= i < |t| && f(t[i]) == x;
      assert t[i] in t;
      FilterMember(s, keep, t[i]);
      var k :| 0 <= k < |s| && s[k] == t[i];
      assert keep(s[k]) && f(s[k]) == x;
    }
    if exists k :: 0 <= k < |s| && keep(s[k]) && f(s[k]) == x {
      var k :| 0 <= k < |s| && keep(s[k]) && f(s[k]) == x;
      FilterMember(s, keep, s[k]);
      var i :| 0 <= i < |t| && t[i] == s[k];
      assert f(t[i]) == x;
    }
  }

  /** The filter of one more element of a list. */
  lemma FilterNext<T>(s: seq<T>, keep: T -> bool, k: nat)
    requires k < |s|
    ensures Filter(s[..k + 1], keep) == Filter(s[..k], keep) + (if keep(s[k]) then [s[k]] else [])
  {
    assert s[..k + 1][..k] == s[..k];
  }

  lemma FilterAppend<T>(s: seq<T>, t: seq<T>, keep: T -> bool)
    ensures Filter(s + t, keep) == Filter(s, keep) + Filter(t, keep)
  {
    if t != [] {
      assert (s + t)[..|s + t| - 1] == s + t[..|t| - 1];
      FilterAppend(s, t[..|t| - 1], keep);
    } else {
      assert s + t == s;
    }
  }

  /** The "record unless already present" idiom: `value(row)` is stored under
      `key(row)` only when the key is new. */
  function Record<R, K, V>(m: map<K, V>, row: R, key: R -> K, value: R -> V): map<K, V>
  {
    if key(row) in m then m else m[key(row) := value(row)]
  }

  /** `m` after every row in order. */
  function RecordAll<R, K, V>(m: map<K, V>, rows: seq<R>, key: R -> K, value: R -> V): map<K, V>
  {
    if rows == [] then m else Record(RecordAll(m, rows[..|rows| - 1], key, value), rows[|rows| - 1], key, value)
  }

  /** Recording two runs of rows is recording their concatenation. */
  lemma {:induction false} RecordAllAppend<R, K, V>(m: map<K, V>, a: seq<R>, b: seq<R>, key: R -> K, value: R -> V)
    ensures RecordAll(m, a + b, key, value) == RecordAll(RecordAll(m, a, key, value), b, key, value)
  {
    if b == [] {
      assert a + b == a;
    } else {
      assert (a + b)[..|a + b| - 1] == a + b[..|b| - 1];
      RecordAllAppend(m, a, b[..|b| - 1], key, value);
    }
  }

  /** One more row is recorded on top of the rows before it. */
  lemma RecordAllNext<R, K, V>(m: map<K, V>, rows: seq<R>, j: nat, key: R -> K, value: R -> V)
    requires j < |rows|
    ensures RecordAll(m, rows[..j + 1], key, value) == Record(RecordAll(m, rows[..j], key, value), rows[j], key, value)
  {
    assert rows[..j + 1][..j] == rows[..j];
  }

  /** The map the rows give, from empty. */
  function FirstByKey<R, K, V>(rows: seq<R>, key: R -> K, value: R -> V): map<K, V>
  {
    RecordAll(map[], rows, key, value)
  }

  /** Rows that come in batches: the next batch is recorded on top of the earlier ones. */
  lemma FirstByKeyNext<R, K, V>(batches: seq<seq<R>>, i: nat, key: R -> K, value: R -> V)
    requires i < |batches|
    ensures FirstByKey(Flatten(batches[..i + 1]), key, value) == RecordAll(FirstByKey(Flatten(batches[..i]), key, value), batches[i], key, value)
  {
    assert batches[..i + 1][..i] == batches[..i];
    RecordAllAppend(map[], Flatten(batches[..i]), batches[i], key, value);
  }

  /** The keys recorded are exactly the keys of the rows. */
  lemma {:induction false} FirstByKeyKeys<R, K, V>(rows: seq<R>, key: R -> K, value: R -> V, n: K)
    ensures n in FirstByKey(rows, key, value) <==> exists i :: 0 <= i < |rows| && key(rows[i]) == n
  {
    if rows != [] {
      var p := rows[..|rows| - 1];
      FirstByKeyKeys(p, key, value, n);
      if n in FirstByKey(p, key, value) {
        var i :| 0 <= i < |p| && key(p[i]) == n;
        assert rows[i] == p[i];
      }
      if exists i :: 0 <= i < |rows| && key(rows[i]) == n {
        var i :| 0 <= i < |rows| && key(rows[i]) == n;
        if i < |p| {
          assert p[i] == rows[i];
        }
      }
    }
  }

  /** A key keeps the value of its first row: later rows with the same key do
      not overwrite it. */
  lemma {:induction false} FirstByKeyWins<R, K, V>(rows: seq<R>, key: R -> K, value: R -> V, i: nat)
    requires i < |rows|
    requires forall j :: 0 <= j < i ==> key(rows[j]) != key(rows[i])
    ensures key(rows[i]) in FirstByKey(rows, key, value)
    ensures FirstByKey(rows, key, value)[key(rows[i])] == value(rows[i])
  {
    var p := rows[..|rows| - 1];
    if i < |p| {
      assert p[i] == rows[i];
      forall j | 0 <= j < i
        ensures key(p[j]) != key(p[i])
      {
        assert p[j] == rows[j];
      }
      FirstByKeyWins(p, key, value, i);
    } else {
      assert key(rows[i]) !in FirstByKey(p, key, value) by {
        FirstByKeyKeys(p, key, value, key(rows[i]));
      }
    }
  }

  /** The "assign when defined" idiom: `value(row)` is stored under `key(row)`
      unless it is `None`; a later row overwrites an earlier one. */
  function Assign<R, K, V>(m: map<K, Option<V>>, row: R, key: R -> K, value: R -> Option<V>): map<K, Option<V>>
  {
    if value(row).None? then m else m[key(row) := value(row)]
  }

  /** `m` after assigning every row in order. */
  function AssignAll<R, K, V>(m: map<K, Option<V>>, rows: seq<R>, key: R -> K, value: R -> Option<V>): map<K, Option<V>>
  {
    if rows == [] then m else Assign(AssignAll(m, rows[..|rows| - 1], key, value), rows[|rows| - 1], key, value)
  }

  lemma {:induction false} AssignAllAppend<R, K, V>(m: map<K, Option<V>>, a: seq<R>, b: seq<R>, key: R -> K, value: R -> Option<V>)
    ensures AssignAll(m, a + b, key, value) == AssignAll(AssignAll(m, a, key, value), b, key, value)
  {
    if b == [] {
      assert a + b == a;
    } else {
      assert (a + b)[..|a + b| - 1] == a + b[..|b| - 1];
      AssignAllAppend(m, a, b[..|b| - 1], key, value);
    }
  }

  lemma AssignAllNext<R, K, V>(m: map<K, Option<V>>, rows: seq<R>, j: nat, key: R -> K, value: R -> Option<V>)
    requires j < |rows|
    ensures AssignAll(m, rows[..j + 1], key, value) == Assign(AssignAll(m, rows[..j], key, value), rows[j], key, value)
  {
    assert rows[..j + 1][..j] == rows[..j];
  }

  /** The map the rows give, from empty. */
  function LastByKey<R, K, V>(rows: seq<R>, key: R -> K, value: R -> Option<V>): map<K, Option<V>>
  {
    AssignAll(map[], rows, key, value)
  }

  lemma LastByKeyNext<R, K, V>(batches: seq<seq<R>>, i: nat, key: R -> K, value: R -> Option<V>)
    requires i < |batches|
    ensures LastByKey(Flatten(batches[..i + 1]), key, value) == AssignAll(LastByKey(Flatten(batches[..i]), key, value), batches[i], key, value)
  {
    assert batches[..i + 1][..i] == batches[..i];
    AssignAllAppend(map[], Flatten(batches[..i]), batches[i], key, value);
  }

  /** The keys assigned are exactly the keys of the rows with a value. */
  lemma {:induction false} LastByKeyKeys<R, K, V>(rows: seq<R>, key: R -> K, value: R -> Option<V>, n: K)
    ensures n in LastByKey(rows, key, value) <==> exists i :: 0 <= i < |rows| && key(rows[i]) == n && value(rows[i]).Some?
  {
    if rows != [] {
      var p := rows[..|rows| - 1];
      LastByKeyKeys(p, key, value, n);
      if n in LastByKey(p, key, value) {
        var i :| 0 <= i < |p| && key(p[i]) == n && value(p[i]).Some?;
        assert rows[i] == p[i];
      }
      if exists i :: 0 <= i < |rows| && key(rows[i]) == n && value(rows[i]).Some? {
        var i :| 0 <= i < |rows| && key(rows[i]) == n && value(rows[i]).Some?;
        if i < |p| {
          assert p[i] == rows[i];
        }
      }
    }
  }

  /** A key holds the value of its last row with a value: a later row with the
      same key overwrites an earlier one, and a row without value changes nothing. */
  lemma {:induction false} LastByKeyWins<R, K, V>(rows: seq<R>, key: R -> K, value: R -> Option<V>, i: nat)
    requires i < |rows| && value(rows[i]).Some?
    requires forall j :: i < j < |rows| && key(rows[j]) == key(rows[i]) ==> value(rows[j]).None?
    ensures key(rows[i]) in LastByKey(rows, key, value)
    ensures LastByKey(rows, key, value)[key(rows[i])] == value(rows[i])
  {
    var p := rows[..|rows| - 1];
    if i < |p| {
      assert p[i] == rows[i];
      forall j | i < j < |p| && key(p[j]) == key(p[i])
        ensures value(p[j]).None?
      {
        assert p[j] == rows[j];
      }
      LastByKeyWins(p, key, value, i);
    }
  }

  /** Every value assigned is defined. */
  lemma {:induction false} LastByKeyDefined<R, K, V>(rows: seq<R>, key: R -> K, value: R -> Option<V>, n: K)
    requires n in LastByKey(rows, key, value)
    ensures LastByKey(rows, key, value)[n].Some?
  {
    if rows != [] {
      var p := rows[..|rows| - 1];
      if n in LastByKey(p, key, value) {
        LastByKeyDefined(p, key, value, n);
      }
    }
  }

  /** A value lies in a flattened list exactly when it lies in one of its parts. */
  lemma {:induction false} FlattenMember<T>(xss: seq<seq<T>>, x: T)
    ensures x in Flatten(xss) <==> exists i :: 0 <= i < |xss| && x in xss[i]
  {
    if xss != [] {
      var p, last := xss[..|xss| - 1], xss[|xss| - 1];
      FlattenMember(p, x);
      assert Flatten(xss) == Flatten(p) + last;
      assert x in Flatten(xss) <==> x in Flatten(p) || x in last;
      if exists i :: 0 <= i < |xss| && x in xss[i] {
        var i :| 0 <= i < |xss| && x in xss[i];
        if i < |p| {
          assert p[i] == xss[i];
        }
      }
    }
  }

  /** `filter(n => n)` on a list of optional values: the defined ones, in order. */
  function Present<T>(s: seq<Option<T>>): (r: seq<T>)
    ensures |r| <= |s|
  {
    if s == [] then [] else Present(s[..|s| - 1]) + (if s[|s| - 1].Some? then [s[|s| - 1].value] else [])
  }

  /** Exactly the defined values are kept. */
  lemma {:induction false} PresentMember<T>(s: seq<Option<T>>, x: T)
    ensures x in Present(s) <==> Some(x) in s
  {
    if s != [] {
      var p := s[..|s| - 1];
      PresentMember(p, x);
      assert s == p + [s[|s| - 1]];
    }
  }

  /** Nothing is kept exactly when nothing is defined. */
  lemma {:induction false} PresentEmpty<T>(s: seq<Option<T>>)
    ensures Present(s) == [] <==> forall k :: 0 <= k < |s| ==> s[k].None?
  {
    if s != [] {
      var p := s[..|s| - 1];
      PresentEmpty(p);
      if Present(s) == [] {
        forall k | 0 <= k < |s|
          ensures s[k].None?
        {
          if k < |p| {
            assert p[k] == s[k];
          }
        }
      }
    }
  }
}

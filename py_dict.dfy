/** The Firestore documents the migration script in
    linebot/scripts/firestore_migrate_snake_case.py rewrites, as Python values: a dict is kept
    as its list of (key, value) pairs in insertion order, so that the operations the script
    uses (`in`, `d[k]`, `d[k] = v`, `d.pop(k)`) can be stated with Python's own ordering.
    Strings, numbers, booleans, None and timestamps are all an `Atom`. */
module PyDict {
  import opened Wrappers

  datatype Value = Atom(text: string) | List(items: seq<Value>) | Dict(entries: seq<(string, Value)>)

  type Items = seq<(string, Value)>

  /** `d.get(k)`: the value of the first entry with key `k`. */
  function Get(d: Items, k: string): Option<Value> {
    if d == [] then None else if d[0].0 == k then Some(d[0].1) else Get(d[1..], k)
  }

  /** `k in d`. */
  predicate Has(d: Items, k: string) {
    Get(d, k).Some?
  }

  /** `d[k] = v`: an existing key keeps its place, a new one goes at the end. */
  function Put(d: Items, k: string, v: Value): Items {
    if d == [] then [(k, v)]
    else if d[0].0 == k then [(k, v)] + d[1..]
    else [d[0]] + Put(d[1..], k, v)
  }

  /** `d.pop(k, None)`, the value dropped. */
  function Pop(d: Items, k: string): Items {
    if d == [] then []
    else if d[0].0 == k then Pop(d[1..], k)
    else [d[0]] + Pop(d[1..], k)
  }

  /** A Python dict never holds a key twice. */
  predicate UniqueKeys(d: Items) {
    forall i, j :: 0 <= i < j < |d| ==> d[i].0 != d[j].0
  }

  /** A value a Python program can hold: no dict in it, however deep, repeats a key. */
  predicate Wellformed(v: Value) {
    match v
    case Atom(_) => true
    case List(items) => forall i :: 0 <= i < |items| ==> Wellformed(items[i])
    case Dict(entries) => UniqueKeys(entries) && forall i :: 0 <= i < |entries| ==> Wellformed(entries[i].1)
  }

  /** `d[k]` is the value of the first entry keyed `k`, and exists exactly when one does. */
  lemma {:induction false} GetSpec(d: Items, k: string)
    ensures Has(d, k) <==> exists i :: 0 <= i < |d| && d[i].0 == k
    ensures Has(d, k) ==> exists i :: 0 <= i < |d| && d[i] == (k, Get(d, k).value)
                                      && forall j :: 0 <= j < i ==> d[j].0 != k
  {
    if d != [] && d[0].0 != k {
      GetSpec(d[1..], k);
      if Has(d, k) {
        var i :| 0 <= i < |d[1..]| && d[1..][i] == (k, Get(d, k).value)
                 && forall j :: 0 <= j < i ==> d[1..][j].0 != k;
        assert d[i + 1] == (k, Get(d, k).value);
      }
    }
  }

  /** With unique keys, each entry is what its key reads. */
  lemma GetEntry(d: Items, i: nat)
    requires UniqueKeys(d) && i < |d|
    ensures Get(d, d[i].0) == Some(d[i].1)
  {
    GetSpec(d, d[i].0);
    var j :| 0 <= j < |d| && d[j] == (d[i].0, Get(d, d[i].0).value) && forall j' :: 0 <= j' < j ==> d[j'].0 != d[i].0;
    assert j == i;
  }

  /** After `d[k] = v`, `k` reads `v` and every other key reads as before. */
  lemma {:induction false} GetPut(d: Items, k: string, v: Value, j: string)
    ensures Get(Put(d, k, v), j) == if j == k then Some(v) else Get(d, j)
  {
    if d != [] && d[0].0 != k {
      GetPut(d[1..], k, v, j);
    }
  }

  /** After `d.pop(k)`, `k` is absent and every other key reads as before. */
  lemma {:induction false} GetPop(d: Items, k: string, j: string)
    ensures Get(Pop(d, k), j) == if j == k then None else Get(d, j)
  {
    if d != [] {
      GetPop(d[1..], k, j);
    }
  }

  /** Assigning an existing key, or a new one, keeps the keys unique. */
  lemma {:induction false} PutUnique(d: Items, k: string, v: Value)
    requires UniqueKeys(d)
    ensures UniqueKeys(Put(d, k, v))
  {
    if d != [] && d[0].0 != k {
      PutUnique(d[1..], k, v);
      PutKeys(d[1..], k, v);
    }
  }

  /** The keys after `d[k] = v` are those of `d` together with `k`. */
  lemma {:induction false} PutKeys(d: Items, k: string, v: Value)
    ensures forall i :: 0 <= i < |Put(d, k, v)| ==> Put(d, k, v)[i].0 == k || exists j :: 0 <= j < |d| && d[j].0 == Put(d, k, v)[i].0
  {
    if d != [] && d[0].0 != k {
      PutKeys(d[1..], k, v);
      var r := Put(d, k, v);
      forall i | 0 <= i < |r| && r[i].0 != k ensures exists j :: 0 <= j < |d| && d[j].0 == r[i].0 {
        if i > 0 {
          var j :| 0 <= j < |d[1..]| && d[1..][j].0 == r[i].0;
          assert d[j + 1].0 == r[i].0;
        } else {
          assert d[0].0 == r[i].0;
        }
      }
    }
  }

  /** Writing a new key then popping another gives the same dict as the other way round. */
  lemma {:induction false} PopPut(d: Items, oldKey: string, newKey: string, v: Value)
    requires oldKey != newKey && !Has(d, newKey)
    ensures Pop(Put(d, newKey, v), oldKey) == Put(Pop(d, oldKey), newKey, v)
  {
    if d != [] {
      PopPut(d[1..], oldKey, newKey, v);
      if d[0].0 == oldKey {
        assert Pop(d, oldKey) == Pop(d[1..], oldKey);
      }
    }
  }

  /** With unique keys, `d[k] = v` for the key of entry i replaces that entry where it
      stands. */
  lemma {:induction false} PutAt(d: Items, i: nat, v: Value)
    requires UniqueKeys(d) && i < |d|
    ensures Put(d, d[i].0, v) == d[i := (d[i].0, v)]
  {
    if i > 0 {
      assert d[0].0 != d[i].0;
      assert UniqueKeys(d[1..]) by {
        forall a, b | 0 <= a < b < |d[1..]| ensures d[1..][a].0 != d[1..][b].0 {
          assert d[1..][a] == d[a + 1] && d[1..][b] == d[b + 1];
        }
      }
      assert d[1..][i - 1] == d[i];
      PutAt(d[1..], i - 1, v);
      assert [d[0]] + d[1..][i - 1 := (d[i].0, v)] == d[i := (d[i].0, v)];
    }
  }
}

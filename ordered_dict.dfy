/** Python's `dict` with string keys: an insertion-ordered table. Assigning to an
    existing key keeps its position, assigning a new key appends it, deleting a key
    removes its entry and keeps the others in order. */
module OrderedDict {
  import opened Common

  datatype Entry<V> = Entry(key: string, value: V)

  /** A table whose iteration order is the order of the sequence. */
  type Dict<V> = seq<Entry<V>>

  function Keys<V>(d: Dict<V>): seq<string> {
    seq(|d|, i requires 0 <= i < |d| => d[i].key)
  }

  lemma KeysCons<V>(e: Entry<V>, d: Dict<V>)
    ensures Keys([e] + d) == [e.key] + Keys(d)
  {
  }

  function KeySet<V>(d: Dict<V>): set<string> {
    set i | 0 <= i < |d| :: d[i].key
  }

  /** `list(d.values())`. */
  function Values<V>(d: Dict<V>): seq<V> {
    seq(|d|, i requires 0 <= i < |d| => d[i].value)
  }

  /** No key occurs twice: what every Python dict satisfies. */
  ghost predicate DistinctKeys<V>(d: Dict<V>) {
    forall i, j :: 0 <= i < j < |d| ==> d[i].key != d[j].key
  }

  /** `d.get(k)`: the value stored under `k`, or `None`. */
  function Get<V>(d: Dict<V>, k: string): (r: Option<V>)
    ensures r.None? <==> k !in Keys(d)
    ensures r.Some? ==> Entry(k, r.value) in d
  {
    if d == [] then None
    else
      assert d == [d[0]] + d[1..];
      KeysCons(d[0], d[1..]);
      if d[0].key == k then Some(d[0].value) else Get(d[1..], k)
  }

  /** `d.get(k, default)`. */
  function GetOr<V>(d: Dict<V>, k: string, default: V): V {
    Get(d, k).GetOr(default)
  }

  /** A lookup finds the first entry under its key. */
  lemma {:induction false} GetFirst<V>(d: Dict<V>, i: nat)
    requires i < |d| && forall j :: 0 <= j < i ==> d[j].key != d[i].key
    ensures Get(d, d[i].key) == Some(d[i].value)
  {
    if i > 0 {
      assert d[i] == d[1..][i - 1];
      GetFirst(d[1..], i - 1);
    }
  }

  /** In a table without repeated keys, each entry is what a lookup of its key finds. */
  lemma GetEntry<V>(d: Dict<V>, i: nat)
    requires DistinctKeys(d) && i < |d|
    ensures Get(d, d[i].key) == Some(d[i].value)
  {
    GetFirst(d, i);
  }

  /** In a table without repeated keys, an entry present is what a lookup finds. */
  lemma EntryLookup<V>(d: Dict<V>, k: string, v: V)
    requires DistinctKeys(d) && Entry(k, v) in d
    ensures Get(d, k) == Some(v)
  {
    var i :| 0 <= i < |d| && d[i] == Entry(k, v);
    GetEntry(d, i);
  }

  /** `d[k] = v`: replaces the value in place when `k` is present, else appends. */
  function Set<V>(d: Dict<V>, k: string, v: V): (r: Dict<V>)
    ensures Get(r, k) == Some(v)
    ensures forall k' :: k' != k ==> Get(r, k') == Get(d, k')
    ensures Keys(r) == if k in Keys(d) then Keys(d) else Keys(d) + [k]
  {
    if d == [] then [Entry(k, v)]
    else
      assert d == [d[0]] + d[1..];
      KeysCons(d[0], d[1..]);
      if d[0].key == k then
        KeysCons(Entry(k, v), d[1..]);
        [Entry(k, v)] + d[1..]
      else
        KeysCons(d[0], Set(d[1..], k, v));
        assert k in Keys(d) <==> k in Keys(d[1..]);
        assert k !in Keys(d) ==> [d[0].key] + (Keys(d[1..]) + [k]) == Keys(d) + [k];
        [d[0]] + Set(d[1..], k, v)
  }

  /** `del d[k]` (for a present key) and its no-op for an absent one: every entry
      under `k` goes, the others stay in order. */
  function Delete<V>(d: Dict<V>, k: string): Dict<V> {
    if d == [] then []
    else if d[0].key == k then Delete(d[1..], k)
    else [d[0]] + Delete(d[1..], k)
  }

  /** After deletion the key is absent, every other lookup is unchanged, no entry is
      new, and deleting an absent key changes nothing. */
  lemma {:induction false} DeleteFacts<V>(d: Dict<V>, k: string)
    ensures Get(Delete(d, k), k) == None
    ensures forall k' :: k' != k ==> Get(Delete(d, k), k') == Get(d, k')
    ensures forall e :: e in Delete(d, k) ==> e in d
    ensures k !in Keys(d) ==> Delete(d, k) == d
  {
    if d != [] {
      var tail := d[1..];
      DeleteFacts(tail, k);
      assert d == [d[0]] + tail;
      KeysCons(d[0], tail);
      var rest := Delete(tail, k);
      if d[0].key != k {
        var r := [d[0]] + rest;
        assert Delete(d, k) == r;
        assert r[1..] == rest;
        KeysCons(d[0], rest);
      }
    }
  }

  lemma DistinctTail<V>(d: Dict<V>)
    requires DistinctKeys(d) && d != []
    ensures DistinctKeys(d[1..]) && d[0].key !in Keys(d[1..])
  {
    forall i, j | 0 <= i < j < |d[1..]| ensures d[1..][i].key != d[1..][j].key {
      assert d[1..][i] == d[i + 1] && d[1..][j] == d[j + 1];
    }
    forall i | 0 <= i < |d[1..]| ensures d[1..][i].key != d[0].key {
      assert d[1..][i] == d[i + 1];
    }
  }

  lemma DistinctCons<V>(e: Entry<V>, d: Dict<V>)
    requires DistinctKeys(d) && e.key !in Keys(d)
    ensures DistinctKeys([e] + d)
  {
    var r := [e] + d;
    forall i, j | 0 <= i < j < |r| ensures r[i].key != r[j].key {
      assert r[j] == d[j - 1];
      if i == 0 {
        assert Keys(d)[j - 1] == r[j].key;
      } else {
        assert r[i] == d[i - 1];
      }
    }
  }

  /** Assignment keeps keys distinct, and changes no entry under another key. */
  lemma SetDistinct<V>(d: Dict<V>, k: string, v: V)
    requires DistinctKeys(d)
    ensures DistinctKeys(Set(d, k, v))
    ensures forall i :: 0 <= i < |d| && d[i].key != k ==> Set(d, k, v)[i] == d[i]
  {
    SetKeepsDistinct(d, k, v);
    SetKeepsOthers(d, k, v);
  }

  /** Assignment keeps keys distinct. */
  lemma {:induction false} SetKeepsDistinct<V>(d: Dict<V>, k: string, v: V)
    requires DistinctKeys(d)
    ensures DistinctKeys(Set(d, k, v))
  {
    if d != [] {
      DistinctTail(d);
      if d[0].key == k {
        SetAtFirst(d, k, v);
        DistinctCons(Entry(k, v), d[1..]);
      } else {
        SetKeepsDistinct(d[1..], k, v);
        SetPastFirst(d, k, v);
        SetKeysMembership(d[1..], k, v, d[0].key);
        DistinctCons(d[0], Set(d[1..], k, v));
      }
    }
  }

  /** Assigning the first key replaces the first entry. */
  lemma SetAtFirst<V>(d: Dict<V>, k: string, v: V)
    requires d != [] && d[0].key == k
    ensures Set(d, k, v) == [Entry(k, v)] + d[1..]
  {
  }

  /** The keys after an assignment are the keys before it and the key assigned. */
  lemma SetKeysMembership<V>(d: Dict<V>, k: string, v: V, x: string)
    ensures x in Keys(Set(d, k, v)) <==> x in Keys(d) || x == k
  {
  }

  /** Assignment changes no entry under another key. */
  lemma {:induction false} SetKeepsOthers<V>(d: Dict<V>, k: string, v: V)
    ensures forall i :: 0 <= i < |d| && d[i].key != k ==> Set(d, k, v)[i] == d[i]
  {
    if d != [] {
      var tail := d[1..];
      if d[0].key == k {
        var r := [Entry(k, v)] + tail;
        assert Set(d, k, v) == r;
        forall i | 0 < i < |d| ensures r[i] == d[i] {
          assert r[i] == tail[i - 1];
        }
      } else {
        SetKeepsOthers(tail, k, v);
        var rest := Set(tail, k, v);
        var r := [d[0]] + rest;
        assert Set(d, k, v) == r;
        forall i | 0 < i < |d| && d[i].key != k ensures r[i] == d[i] {
          assert r[i] == rest[i - 1] && d[i] == tail[i - 1];
        }
      }
    }
  }

  /** Deletion keeps keys distinct. */
  lemma {:induction false} DeleteDistinct<V>(d: Dict<V>, k: string)
    requires DistinctKeys(d)
    ensures DistinctKeys(Delete(d, k))
  {
    if d != [] {
      DistinctTail(d);
      DeleteDistinct(d[1..], k);
      DeleteFacts(d[1..], k);
      var rest := Delete(d[1..], k);
      if d[0].key != k {
        assert Delete(d, k) == [d[0]] + rest;
        forall m | 0 <= m < |rest| ensures Keys(rest)[m] != d[0].key {
          assert rest[m] in d[1..];
        }
        DistinctCons(d[0], rest);
      }
    }
  }

  /** The keys of a table without repeats are as many as its entries, so Python's
      `len(d)` is the length of the sequence. */
  lemma {:induction false} DistinctKeysCount<V>(d: Dict<V>)
    requires DistinctKeys(d)
    ensures |KeySet(d)| == |d|
  {
    if d != [] {
      DistinctKeysCount(d[1..]);
      assert KeySet(d) == {d[0].key} + KeySet(d[1..]) by {
        forall k | k in KeySet(d) ensures k in {d[0].key} + KeySet(d[1..]) {
          var i :| 0 <= i < |d| && d[i].key == k;
          if i > 0 { assert d[1..][i - 1].key == k; }
        }
        forall k | k in KeySet(d[1..]) ensures k in KeySet(d) {
          var i :| 0 <= i < |d[1..]| && d[1..][i].key == k;
          assert d[i + 1].key == k;
        }
      }
      assert d[0].key !in KeySet(d[1..]) by {
        forall i | 0 <= i < |d[1..]| ensures d[1..][i].key != d[0].key {
          assert d[1..][i] == d[i + 1];
        }
      }
    }
  }

  /** Assignment adds the new entry and otherwise keeps only entries already there. */
  lemma {:induction false} SetEntries<V>(d: Dict<V>, k: string, v: V)
    ensures forall e :: e in Set(d, k, v) ==> e in d || e == Entry(k, v)
  {
    if d != [] && d[0].key != k {
      SetEntries(d[1..], k, v);
      assert Set(d, k, v) == [d[0]] + Set(d[1..], k, v);
    }
  }

  /** A key missing from a non-empty table is neither its first key nor a key of the
      rest. */
  lemma MissingKeyTail<V>(d: Dict<V>, k: string)
    requires d != [] && k !in Keys(d)
    ensures d[0].key != k && k !in Keys(d[1..])
  {
    assert Keys(d)[0] == d[0].key;
    forall i | 0 <= i < |d| - 1 ensures Keys(d[1..])[i] != k {
      assert Keys(d[1..])[i] == Keys(d)[i + 1];
    }
  }

  /** Assigning a key other than the first leaves the first entry in front. */
  lemma SetPastFirst<V>(d: Dict<V>, k: string, v: V)
    requires d != [] && d[0].key != k
    ensures Set(d, k, v) == [d[0]] + Set(d[1..], k, v)
  {
  }

  /** Putting the head back in front of the tail with an element appended is
      appending that element to the whole sequence. */
  lemma ConsAppend<T>(s: seq<T>, x: T)
    requires s != []
    ensures [s[0]] + (s[1..] + [x]) == s + [x]
  {
  }

  /** Assigning a key not yet present appends its entry at the end. */
  lemma {:induction false} SetNewKeyAppends<V>(d: Dict<V>, k: string, v: V)
    requires k !in Keys(d)
    ensures Set(d, k, v) == d + [Entry(k, v)]
  {
    if d != [] {
      MissingKeyTail(d, k);
      SetNewKeyAppends(d[1..], k, v);
      SetPastFirst(d, k, v);
      ConsAppend(d, Entry(k, v));
    }
  }

  /** Deleting from two tables joined is deleting from each. */
  lemma {:induction false} DeleteConcat<V>(a: Dict<V>, c: Dict<V>, k: string)
    ensures Delete(a + c, k) == Delete(a, k) + Delete(c, k)
  {
    if a == [] {
      assert a + c == c;
    } else {
      var ac := a + c;
      var tail := a[1..];
      assert ac != [] && ac[0] == a[0] && ac[1..] == tail + c;
      DeleteConcat(tail, c, k);
      var left := Delete(tail, k);
      var right := Delete(c, k);
      if a[0].key == k {
        assert Delete(ac, k) == Delete(tail + c, k);
        assert Delete(a, k) == left;
      } else {
        assert Delete(ac, k) == [a[0]] + (left + right);
        assert Delete(a, k) == [a[0]] + left;
        assert [a[0]] + (left + right) == ([a[0]] + left) + right;
      }
    }
  }

  /** `{k: f(v) for k, v in d.items()}`. */
  function MapValues<V, W>(d: Dict<V>, f: V -> W): (r: Dict<W>)
    ensures |r| == |d| && Keys(r) == Keys(d)
    ensures forall i :: 0 <= i < |d| ==> r[i] == Entry(d[i].key, f(d[i].value))
  {
    seq(|d|, i requires 0 <= i < |d| => Entry(d[i].key, f(d[i].value)))
  }

  /** A lookup in the mapped table is the mapped lookup. */
  lemma {:induction false} GetMapValues<V, W>(d: Dict<V>, f: V -> W, k: string)
    ensures Get(MapValues(d, f), k) == if Get(d, k).Some? then Some(f(Get(d, k).value)) else None
  {
    if d != [] {
      assert MapValues(d, f)[1..] == MapValues(d[1..], f);
      GetMapValues(d[1..], f, k);
    }
  }

  /** Mapping a table one entry longer appends that entry, mapped. */
  lemma MapValuesPrefix<V, W>(d: Dict<V>, f: V -> W, i: nat)
    requires i < |d|
    ensures MapValues(d[..i + 1], f) == MapValues(d[..i], f) + [Entry(d[i].key, f(d[i].value))]
  {
    var m := MapValues(d[..i], f);
    var m' := MapValues(d[..i + 1], f);
    forall k | 0 <= k < |m'| ensures m'[k] == (m + [Entry(d[i].key, f(d[i].value))])[k] {
      assert d[..i + 1][k] == d[k];
      if k < i {
        assert d[..i][k] == d[k];
      }
    }
  }

  /** Mapping one more entry of a table with distinct keys is one more assignment. */
  lemma MapValuesSnoc<V, W>(d: Dict<V>, f: V -> W, i: nat)
    requires DistinctKeys(d) && i < |d|
    ensures MapValues(d[..i + 1], f) == Set(MapValues(d[..i], f), d[i].key, f(d[i].value))
  {
    var m := MapValues(d[..i], f);
    assert d[i].key !in Keys(m) by {
      forall j | 0 <= j < i ensures Keys(m)[j] != d[i].key {
        assert Keys(m)[j] == d[j].key;
      }
    }
    SetNewKeyAppends(m, d[i].key, f(d[i].value));
    MapValuesPrefix(d, f, i);
  }
}

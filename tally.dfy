/**
 * A `Record<string, number>` built by the client's accumulation idiom
 *
 *     items.forEach(x => { if (!rec[key(x)]) rec[key(x)] = 0; rec[key(x)] += amount(x); });
 *
 * modelled as an association list in property insertion order (the order
 * `Object.entries` and `Object.keys` return).
 */
module Tally {
  import opened Seqs

  datatype Entry<K> = Entry(key: K, total: real)

  function EntryTotal<K>(e: Entry<K>): real { e.total }

  /** The keys of the record in insertion order. */
  function Keys<K>(t: seq<Entry<K>>): (r: seq<K>)
    ensures |r| == |t|
    ensures forall i :: 0 <= i < |t| ==> r[i] == t[i].key
  {
    if t == [] then [] else [t[0].key] + Keys(t[1..])
  }

  /** `rec[k] || 0`: the total under `k`, and 0 when `k` is absent. */
  function TotalFor<K(==,!new)>(t: seq<Entry<K>>, k: K): real
  {
    if t == [] then 0.0 else if t[0].key == k then t[0].total else TotalFor(t[1..], k)
  }

  /** The sum of all the record's values. */
  function Grand<K>(t: seq<Entry<K>>): real
  {
    if t == [] then 0.0 else t[0].total + Grand(t[1..])
  }

  /**
   * One accumulation step. A key already present keeps its place and gains `a`
   * (the reset to 0 only happens when the total is already 0); a new key is
   * appended with total `a`.
   */
  function Add<K(==,!new)>(t: seq<Entry<K>>, k: K, a: real): (r: seq<Entry<K>>)
    ensures Keys(r) == if k in Keys(t) then Keys(t) else Keys(t) + [k]
    ensures forall k' :: TotalFor(r, k') == TotalFor(t, k') + (if k' == k then a else 0.0)
    ensures Grand(r) == Grand(t) + a
  {
    if t == [] then [Entry(k, a)]
    else if t[0].key == k then [Entry(k, t[0].total + a)] + t[1..]
    else
      assert Keys(t) == [t[0].key] + Keys(t[1..]);
      [t[0]] + Add(t[1..], k, a)
  }

  /** The record after the `forEach` over `s` (a left fold of `Add`). */
  function TallyOf<T, K(==,!new)>(s: seq<T>, key: T -> K, amount: T -> real): seq<Entry<K>>
  {
    if s == [] then []
    else Add(TallyOf(s[..|s| - 1], key, amount), key(s[|s| - 1]), amount(s[|s| - 1]))
  }

  /** The sum of `amount(x)` over the items of `s` whose key is `k`. */
  function SumWhere<T, K(==,!new)>(s: seq<T>, key: T -> K, amount: T -> real, k: K): real
  {
    if s == [] then 0.0
    else SumWhere(s[..|s| - 1], key, amount, k) + (if key(s[|s| - 1]) == k then amount(s[|s| - 1]) else 0.0)
  }

  /** The record's keys are pairwise distinct. */
  lemma {:induction false} TallyKeysDistinct<T, K(!new)>(s: seq<T>, key: T -> K, amount: T -> real)
    ensures Distinct(Keys(TallyOf(s, key, amount)))
  {
    if s != [] {
      var n := |s| - 1;
      TallyKeysDistinct(s[..n], key, amount);
      var ks0 := Keys(TallyOf(s[..n], key, amount));
      var ks := Keys(TallyOf(s, key, amount));
      if key(s[n]) !in ks0 {
        forall i, j | 0 <= i < j < |ks| ensures ks[i] != ks[j] {
          assert ks[i] == ks0[i];
          if j < |ks| - 1 {
            assert ks[j] == ks0[j];
          }
        }
      }
    }
  }

  /** The record has exactly one key per distinct key present in `s`: no zero-filled extras. */
  lemma {:induction false} TallyKeysPresent<T, K(!new)>(s: seq<T>, key: T -> K, amount: T -> real)
    ensures forall i :: 0 <= i < |s| ==> key(s[i]) in Keys(TallyOf(s, key, amount))
    ensures forall k :: k in Keys(TallyOf(s, key, amount)) ==> exists i :: 0 <= i < |s| && key(s[i]) == k
  {
    if s != [] {
      var n := |s| - 1;
      var p := s[..n];
      TallyKeysPresent(p, key, amount);
      var ks0 := Keys(TallyOf(p, key, amount));
      var ks := Keys(TallyOf(s, key, amount));
      forall i | 0 <= i < |s| ensures key(s[i]) in ks {
        if i < n {
          assert p[i] == s[i];
        }
      }
      forall k | k in ks ensures exists i :: 0 <= i < |s| && key(s[i]) == k {
        if k != key(s[n]) {
          assert k in ks0;
          var i :| 0 <= i < |p| && key(p[i]) == k;
          assert p[i] == s[i];
        }
      }
    }
  }

  /** Each key's value is the sum of the amounts of the items filed under it. */
  lemma {:induction false} TallyTotals<T, K(!new)>(s: seq<T>, key: T -> K, amount: T -> real, k: K)
    ensures TotalFor(TallyOf(s, key, amount), k) == SumWhere(s, key, amount, k)
  {
    if s != [] {
      TallyTotals(s[..|s| - 1], key, amount, k);
    }
  }

  /** Sum conservation: the values add up to the sum of all amounts, so every item counts once. */
  lemma {:induction false} TallyGrand<T, K(!new)>(s: seq<T>, key: T -> K, amount: T -> real)
    ensures Grand(TallyOf(s, key, amount)) == SumBy(s, amount)
  {
    if s != [] {
      var n := |s| - 1;
      TallyGrand(s[..n], key, amount);
      assert s == s[..n] + [s[n]];
      SumByAppend(s[..n], [s[n]], amount);
      assert SumBy([s[n]], amount) == amount(s[n]) + SumBy([s[n]][1..], amount);
    }
  }

  /** A key the record does not have reads as 0. */
  lemma {:induction false} TotalForAbsent<K(!new)>(t: seq<Entry<K>>, k: K)
    requires k !in Keys(t)
    ensures TotalFor(t, k) == 0.0
  {
    if t != [] {
      assert Keys(t) == [t[0].key] + Keys(t[1..]);
      TotalForAbsent(t[1..], k);
    }
  }

  /** `labels.map(l => rec[l] || 0)` summed. */
  function SumOfTotals<K(==,!new)>(labels: seq<K>, t: seq<Entry<K>>): real
  {
    if labels == [] then 0.0 else TotalFor(t, labels[0]) + SumOfTotals(labels[1..], t)
  }

  lemma {:induction false} SumOfTotalsHead<K(!new)>(labels: seq<K>, e: Entry<K>, t: seq<Entry<K>>)
    requires Distinct(labels)
    requires e.key !in Keys(t)
    ensures SumOfTotals(labels, [e] + t) == SumOfTotals(labels, t) + (if e.key in labels then e.total else 0.0)
  {
    if labels != [] {
      var rest := labels[1..];
      assert Distinct(rest) by {
        forall i, j | 0 <= i < j < |rest| ensures rest[i] != rest[j] {
          assert rest[i] == labels[i + 1] && rest[j] == labels[j + 1];
        }
      }
      SumOfTotalsHead(rest, e, t);
      assert ([e] + t)[1..] == t;
      TotalForAbsent(t, e.key);
      if labels[0] == e.key {
        assert e.key !in rest by {
          forall k | 0 <= k < |rest| ensures rest[k] != e.key {
            assert rest[k] == labels[k + 1];
          }
        }
      }
      assert labels == [labels[0]] + rest;
    }
  }

  /**
   * Reading the record under a list of distinct labels that covers all its
   * keys gives back every value exactly once, so the reads add up to the total.
   */
  lemma {:induction false} SumOfTotalsCovers<K(!new)>(labels: seq<K>, t: seq<Entry<K>>)
    requires Distinct(labels)
    requires Distinct(Keys(t))
    requires forall i :: 0 <= i < |t| ==> t[i].key in labels
    ensures SumOfTotals(labels, t) == Grand(t)
  {
    if t != [] {
      var rest := t[1..];
      assert Keys(t) == [t[0].key] + Keys(rest);
      assert Distinct(Keys(rest)) by {
        forall i, j | 0 <= i < j < |Keys(rest)| ensures Keys(rest)[i] != Keys(rest)[j] {
          assert Keys(rest)[i] == Keys(t)[i + 1] && Keys(rest)[j] == Keys(t)[j + 1];
        }
      }
      assert t[0].key !in Keys(rest) by {
        forall k | 0 <= k < |Keys(rest)| ensures Keys(rest)[k] != t[0].key {
          assert Keys(rest)[k] == Keys(t)[k + 1];
        }
      }
      assert forall i :: 0 <= i < |rest| ==> rest[i] == t[i + 1];
      SumOfTotalsCovers(labels, rest);
      assert t == [t[0]] + rest;
      SumOfTotalsHead(labels, t[0], rest);
    } else {
      TotalsOfEmpty(labels);
    }
  }

  lemma {:induction false} TotalsOfEmpty<K(!new)>(labels: seq<K>)
    ensures SumOfTotals(labels, []) == 0.0
  {
    if labels != [] {
      TotalsOfEmpty(labels[1..]);
    }
  }

  /**
   * The `forEach` loop itself: the record it leaves behind is `TallyOf(s)`.
   */
  method Accumulate<T, K(==,!new)>(s: seq<T>, key: T -> K, amount: T -> real) returns (t: seq<Entry<K>>)
    ensures t == TallyOf(s, key, amount)
  {
    t := [];
    for i := 0 to |s|
      invariant t == TallyOf(s[..i], key, amount)
    {
      assert s[..i + 1][..i] == s[..i];
      t := Add(t, key(s[i]), amount(s[i]));
    }
    assert s[..|s|] == s;
  }
}

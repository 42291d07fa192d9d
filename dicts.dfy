/**
 * Ordered dictionaries as association lists.
 *
 * Python dicts and JavaScript objects both remember insertion order, and the
 * modelled code depends on that order (the submitted payload puts `student_id`
 * first, the analyzer walks a profile in order).  A dictionary is therefore a
 * sequence of key/value pairs; `Put` is the assignment `d[k] = v` of both
 * languages: it replaces the value of an existing key in place and appends a
 * new key at the end.
 */
module Dicts {
  import opened Outcomes

  type Dict<V> = seq<(string, V)>

  /** The keys, in insertion order. */
  function Keys<V>(d: Dict<V>): (ks: seq<string>)
    ensures |ks| == |d|
    ensures forall i {:trigger ks[i]} :: 0 <= i < |d| ==> ks[i] == d[i].0
  {
    if d == [] then [] else [d[0].0] + Keys(d[1..])
  }

  /** No key occurs twice (true of every Python dict and JavaScript object). */
  predicate Distinct(ks: seq<string>)
  {
    forall i, j :: 0 <= i < j < |ks| ==> ks[i] != ks[j]
  }

  /** Dropping the first key of a distinct list leaves a distinct list without it. */
  lemma DistinctTail(ks: seq<string>)
    requires Distinct(ks) && ks != []
    ensures Distinct(ks[1..]) && ks[0] !in ks[1..]
  {
  }

  /** `d.get(k)`: the value stored under `k`, if any. */
  function Lookup<V>(d: Dict<V>, k: string): (r: Option<V>)
    ensures r.None? <==> k !in Keys(d)
    ensures r.Some? ==> (k, r.value) in d
  {
    if d == [] then None
    else if d[0].0 == k then Some(d[0].1)
    else Lookup(d[1..], k)
  }

  /** `d.get(k, default)`. */
  function Get<V>(d: Dict<V>, k: string, default: V): (r: V)
    ensures k !in Keys(d) ==> r == default
    ensures k in Keys(d) ==> Lookup(d, k) == Some(r)
  {
    match Lookup(d, k)
    case Some(v) => v
    case None => default
  }

  /** `d[k] = v`: replace in place when `k` is present, append otherwise. */
  function Put<V>(d: Dict<V>, k: string, v: V): (r: Dict<V>)
    ensures Lookup(r, k) == Some(v)
    ensures forall k' :: k' != k ==> Lookup(r, k') == Lookup(d, k')
    ensures k in Keys(d) ==> Keys(r) == Keys(d)
    ensures k !in Keys(d) ==> Keys(r) == Keys(d) + [k]
  {
    if d == [] then [(k, v)]
    else if d[0].0 == k then [(k, v)] + d[1..]
    else
      var rest := Put(d[1..], k, v);
      assert ([d[0]] + rest)[1..] == rest;
      [d[0]] + rest
  }

  /** Assignment keeps the keys distinct. */
  lemma PutKeepsDistinct<V>(d: Dict<V>, k: string, v: V)
    requires Distinct(Keys(d))
    ensures Distinct(Keys(Put(d, k, v)))
  {
  }

  /** `{key: v for key, v in d.items() if key != k}`. */
  function Remove<V>(d: Dict<V>, k: string): (r: Dict<V>)
    ensures Lookup(r, k) == None
    ensures forall k' :: k' != k ==> Lookup(r, k') == Lookup(d, k')
    ensures forall i :: 0 <= i < |r| ==> r[i] in d && r[i].0 != k
    ensures forall i :: 0 <= i < |d| && d[i].0 != k ==> d[i] in r
  {
    if d == [] then []
    else if d[0].0 == k then Remove(d[1..], k)
    else [d[0]] + Remove(d[1..], k)
  }

  /** Assigning a new key appends it. */
  lemma PutAbsentAppends<V>(d: Dict<V>, k: string, v: V)
    requires k !in Keys(d)
    ensures Put(d, k, v) == d + [(k, v)]
  {
    if d != [] {
      assert Keys(d) == [d[0].0] + Keys(d[1..]);
      PutAbsentAppends(d[1..], k, v);
      assert d == [d[0]] + d[1..];
    }
  }

  /** With distinct keys, each entry is what looking up its key finds. */
  lemma {:induction false} LookupAt<V>(d: Dict<V>, i: nat)
    requires Distinct(Keys(d)) && i < |d|
    ensures Lookup(d, d[i].0) == Some(d[i].1)
  {
    var ks := Keys(d);
    if i > 0 {
      assert ks[0] != ks[i];
      assert Keys(d[1..]) == ks[1..];
      DistinctTail(ks);
      LookupAt(d[1..], i - 1);
      assert d[1..][i - 1] == d[i];
    }
  }

  /** The first entry with a key is the one found under it. */
  lemma {:induction false} LookupFirst<V>(d: Dict<V>, i: nat)
    requires i < |d|
    requires forall j :: 0 <= j < i ==> d[j].0 != d[i].0
    ensures Lookup(d, d[i].0) == Some(d[i].1)
  {
    if i > 0 {
      assert d[0].0 != d[i].0;
      assert d[1..][i - 1] == d[i];
      LookupFirst(d[1..], i - 1);
    }
  }

  /** Keys of a concatenation. */
  lemma KeysConcat<V>(a: Dict<V>, b: Dict<V>)
    ensures Keys(a + b) == Keys(a) + Keys(b)
  {
    assert forall i :: 0 <= i < |a + b| ==> Keys(a + b)[i] == (Keys(a) + Keys(b))[i];
  }

  /** Two distinct key lists with nothing in common concatenate to a distinct list. */
  lemma DistinctConcat(a: seq<string>, b: seq<string>)
    requires Distinct(a) && Distinct(b)
    requires forall x :: x in a ==> x !in b
    ensures Distinct(a + b)
  {
    forall i, j | 0 <= i < j < |a + b|
      ensures (a + b)[i] != (a + b)[j]
    {
      if j < |a| {
      } else if i >= |a| {
        assert (a + b)[i] == b[i - |a|] && (a + b)[j] == b[j - |a|];
      } else {
        assert (a + b)[i] in a && (a + b)[j] == b[j - |a|];
      }
    }
  }

  /** `{...d, ...es}`: assigning the entries of `es` one after another. */
  function PutAll<V>(d: Dict<V>, es: Dict<V>): Dict<V>
    decreases |es|
  {
    if es == [] then d else Put(PutAll(d, es[..|es| - 1]), es[|es| - 1].0, es[|es| - 1].1)
  }

  /** Assigning entries whose keys are all new appends them, in order. */
  lemma {:induction false} PutAllFresh<V>(d: Dict<V>, es: Dict<V>)
    requires Distinct(Keys(d + es))
    ensures PutAll(d, es) == d + es
    decreases |es|
  {
    if es != [] {
      var init := es[..|es| - 1];
      var last := es[|es| - 1];
      assert d + es == (d + init) + [last];
      KeysConcat(d + init, [last]);
      assert Keys(d + es)[..|d + init|] == Keys(d + init);
      assert Distinct(Keys(d + init));
      PutAllFresh(d, init);
      assert last.0 == Keys(d + es)[|d + init|];
      assert last.0 !in Keys(d + init);
      PutAbsentAppends(d + init, last.0, last.1);
    }
  }

  /** Removing a key keeps the other keys distinct and adds none. */
  lemma {:induction false} RemoveKeys<V>(d: Dict<V>, k: string)
    requires Distinct(Keys(d))
    ensures Distinct(Keys(Remove(d, k)))
    ensures forall x :: x in Keys(Remove(d, k)) ==> x in Keys(d) && x != k
  {
    if d != [] {
      assert Keys(d) == [d[0].0] + Keys(d[1..]);
      DistinctTail(Keys(d));
      RemoveKeys(d[1..], k);
      if d[0].0 != k {
        assert Remove(d, k) == [d[0]] + Remove(d[1..], k);
        assert Keys(Remove(d, k)) == [d[0].0] + Keys(Remove(d[1..], k));
      }
    }
  }

  /** Concatenation regrouped (Dafny does not apply associativity unaided). */
  lemma AppendAssoc<T>(a: seq<T>, b: seq<T>, c: seq<T>)
    ensures a + (b + c) == (a + b) + c
  {
  }

  /** Dropping the last key of a distinct list leaves a distinct list without it. */
  lemma DistinctDropLast(ks: seq<string>)
    requires Distinct(ks) && ks != []
    ensures Distinct(ks[..|ks| - 1]) && ks[|ks| - 1] !in ks[..|ks| - 1]
  {
  }

  /** One more element of a prefix (the step of a loop over `s`). */
  lemma PrefixStep<T>(s: seq<T>, i: nat)
    requires i < |s|
    ensures s[..i + 1] == s[..i] + [s[i]] && s[..i + 1][..i] == s[..i]
  {
  }

  /** The whole prefix (the end of a loop over `s`). */
  lemma PrefixAll<T>(s: seq<T>)
    ensures s[..|s|] == s
  {
  }

  /** In a dictionary built by concatenation, an entry of the first part is found. */
  lemma LookupInFirst<V>(a: Dict<V>, b: Dict<V>, i: nat)
    requires Distinct(Keys(a + b)) && i < |a|
    ensures Lookup(a + b, a[i].0) == Some(a[i].1)
  {
    var d := a + b;
    assert d[i] == a[i];
    LookupAt(d, i);
  }

  /** In a dictionary built by concatenation, an entry of the second part is found. */
  lemma LookupInSecond<V>(a: Dict<V>, b: Dict<V>, j: nat)
    requires Distinct(Keys(a + b)) && j < |b|
    ensures Lookup(a + b, b[j].0) == Some(b[j].1)
  {
    SecondPartAt(a, b, j);
    LookupAt(a + b, |a| + j);
  }

  /** Indexing a sequence with one element appended. */
  lemma SnocAt<T>(a: seq<T>, x: T, j: nat)
    requires j <= |a|
    ensures |a + [x]| == |a| + 1
    ensures (a + [x])[j] == if j < |a| then a[j] else x
  {
  }

  lemma SecondPartAt<T>(a: seq<T>, b: seq<T>, j: nat)
    requires j < |b|
    ensures |a| + j < |a + b| && (a + b)[|a| + j] == b[j]
  {
  }
}

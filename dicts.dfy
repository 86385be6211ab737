/** Python dictionaries of strings, kept as the sequence of their entries in insertion
    order (the order `urlencode` and `json.dumps` write them in). */
module Dicts {
  import opened Basics

  type Pairs = seq<(string, string)>

  /** `d.get(k)`. */
  function Lookup(d: Pairs, k: string): Option<string>
  {
    if d == [] then None
    else if d[0].0 == k then Some(d[0].1)
    else Lookup(d[1..], k)
  }

  /** No key occurs twice, as in every Python dict. */
  predicate DistinctKeys(d: Pairs)
  {
    d == [] || (Lookup(d[1..], d[0].0).None? && DistinctKeys(d[1..]))
  }

  /** The entries of `d` other than the one for `k`, in their order. */
  function Without(d: Pairs, k: string): (r: Pairs)
    ensures forall x :: Lookup(r, x) == if x == k then None else Lookup(d, x)
    ensures Lookup(d, k).None? ==> r == d
    ensures |r| <= |d|
    ensures DistinctKeys(d) ==> DistinctKeys(r)
    ensures DistinctKeys(d) ==> |r| == |d| - (if Lookup(d, k).Some? then 1 else 0)
  {
    if d == [] then []
    else if d[0].0 == k then Without(d[1..], k)
    else [d[0]] + Without(d[1..], k)
  }

  /** `{k: v, **d}`: the entry for `k` comes first, and an entry of `d` for the same key
      overrides its value without moving it. */
  function Prepend(k: string, v: string, d: Pairs): (r: Pairs)
    ensures |r| > 0 && r[0].0 == k
    ensures r[1..] == Without(d, k)
    ensures forall x :: Lookup(r, x) ==
                          if Lookup(d, x).Some? then Lookup(d, x) else if x == k then Some(v) else None
    ensures DistinctKeys(d) ==> DistinctKeys(r)
  {
    var first := match Lookup(d, k) case Some(w) => w case None => v;
    [(k, first)] + Without(d, k)
  }
}

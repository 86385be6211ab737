/** The shape shared by both `_response` loops: walk the raw items in order, append what
    each one yields, skip the items that yield nothing, and stop at the first exception. */
module ResponseLoop {
  import opened Basics

  /** The list a `_response` loop builds from `xs` when one iteration on `x` does `step(x)`:
      `Ok(Some(r))` appends `r`, `Ok(None)` is a `continue` without an append, `Raise(e)`
      leaves the loop with the exception `e`. */
  function Collect<X, R>(step: X -> Try<Option<R>>, xs: seq<X>): Try<seq<R>>
    decreases |xs|
  {
    if xs == [] then Ok([])
    else
      var init :- Collect(step, xs[..|xs| - 1]);
      var last :- step(xs[|xs| - 1]);
      Ok(init + Emitted(last))
  }

  /** What one successful iteration appends. */
  function Emitted<R>(o: Option<R>): seq<R>
  {
    match o
    case Some(r) => [r]
    case None => []
  }

  /** The positions of the items that yield a value, in increasing order. */
  function Kept<X, R>(step: X -> Try<Option<R>>, xs: seq<X>): (ks: seq<nat>)
    decreases |xs|
    ensures |ks| <= |xs|
    ensures forall k :: 0 <= k < |ks| ==> ks[k] < |xs| && step(xs[ks[k]]).Ok? && step(xs[ks[k]]).value.Some?
    ensures forall k, l :: 0 <= k < l < |ks| ==> ks[k] < ks[l]
    ensures forall i :: 0 <= i < |xs| && step(xs[i]).Ok? && step(xs[i]).value.Some? ==> i in ks
  {
    if xs == [] then []
    else
      var init := Kept(step, xs[..|xs| - 1]);
      var last := step(xs[|xs| - 1]);
      if last.Ok? && last.value.Some? then init + [|xs| - 1] else init
  }

  /** One more iteration of the loop, as the loop invariants of the two methods use it. */
  lemma {:induction false} CollectSnoc<X, R>(step: X -> Try<Option<R>>, xs: seq<X>, i: nat)
    requires i < |xs|
    ensures Collect(step, xs[..i + 1]) ==
              match Collect(step, xs[..i])
              case Raise(e) => Raise(e)
              case Ok(init) =>
                match step(xs[i])
                case Raise(e) => Raise(e)
                case Ok(last) => Ok(init + Emitted(last))
  {
    assert xs[..i + 1][..i] == xs[..i];
  }

  /** The loop succeeds exactly when no item raises. */
  lemma {:induction false} CollectOk<X, R>(step: X -> Try<Option<R>>, xs: seq<X>)
    ensures Collect(step, xs).Ok? <==> forall i :: 0 <= i < |xs| ==> step(xs[i]).Ok?
    decreases |xs|
  {
    if xs != [] {
      var init := xs[..|xs| - 1];
      CollectOk(step, init);
      assert forall i :: 0 <= i < |init| ==> init[i] == xs[i];
    }
  }

  /** A failing loop raises the exception of the first item that raises. */
  lemma {:induction false} CollectFailure<X, R>(step: X -> Try<Option<R>>, xs: seq<X>)
    requires Collect(step, xs).Raise?
    ensures exists i :: 0 <= i < |xs| && step(xs[i]) == Raise(Collect(step, xs).error) &&
                        forall j :: 0 <= j < i ==> step(xs[j]).Ok?
    decreases |xs|
  {
    var init := xs[..|xs| - 1];
    assert forall i :: 0 <= i < |init| ==> init[i] == xs[i];
    if Collect(step, init).Raise? {
      CollectFailure(step, init);
      var i :| 0 <= i < |init| && step(init[i]) == Raise(Collect(step, init).error) &&
               forall j :: 0 <= j < i ==> step(init[j]).Ok?;
      assert step(xs[i]) == Raise(Collect(step, xs).error);
    } else {
      CollectOk(step, init);
      assert step(xs[|xs| - 1]) == Raise(Collect(step, xs).error);
    }
  }

  /** Once the item at `i` raises after a clean prefix, the whole loop raises that exception. */
  lemma {:induction false} CollectStopsAt<X, R>(step: X -> Try<Option<R>>, xs: seq<X>, i: nat)
    requires i < |xs|
    requires Collect(step, xs[..i]).Ok?
    requires step(xs[i]).Raise?
    ensures Collect(step, xs) == Raise(step(xs[i]).error)
    decreases |xs|
  {
    if i == |xs| - 1 {
      assert xs[..|xs| - 1] == xs[..i];
    } else {
      var init := xs[..|xs| - 1];
      assert init[..i] == xs[..i];
      assert init[i] == xs[i];
      CollectStopsAt(step, init, i);
    }
  }

  /** A successful loop yields, in order, the value of every item that yields one. */
  lemma {:induction false} CollectKept<X, R>(step: X -> Try<Option<R>>, xs: seq<X>)
    requires Collect(step, xs).Ok?
    ensures var out := Collect(step, xs).value;
            var ks := Kept(step, xs);
            |out| == |ks| &&
            forall k :: 0 <= k < |ks| ==> step(xs[ks[k]]) == Ok(Some(out[k]))
    decreases |xs|
  {
    if xs != [] {
      var init := xs[..|xs| - 1];
      CollectKept(step, init);
      assert forall i :: 0 <= i < |init| ==> init[i] == xs[i];
    }
  }

  /** The loop never yields more values than it reads items. */
  lemma CollectShorter<X, R>(step: X -> Try<Option<R>>, xs: seq<X>)
    requires Collect(step, xs).Ok?
    ensures |Collect(step, xs).value| <= |xs|
  {
    CollectKept(step, xs);
  }

  /** When no item is skipped, the loop yields one value per item, item by item. */
  lemma CollectNoSkips<X, R>(step: X -> Try<Option<R>>, xs: seq<X>)
    requires Collect(step, xs).Ok?
    requires forall i :: 0 <= i < |xs| ==> step(xs[i]) != Ok(None)
    ensures |Collect(step, xs).value| == |xs|
    ensures forall i :: 0 <= i < |xs| ==> step(xs[i]) == Ok(Some(Collect(step, xs).value[i]))
  {
    CollectOk(step, xs);
    CollectKept(step, xs);
    KeptAll(step, xs);
  }

  lemma {:induction false} KeptAll<X, R>(step: X -> Try<Option<R>>, xs: seq<X>)
    requires forall i :: 0 <= i < |xs| ==> step(xs[i]).Ok? && step(xs[i]).value.Some?
    ensures |Kept(step, xs)| == |xs|
    ensures forall k :: 0 <= k < |xs| ==> Kept(step, xs)[k] == k
    decreases |xs|
  {
    if xs != [] {
      var init := xs[..|xs| - 1];
      assert forall i :: 0 <= i < |init| ==> init[i] == xs[i];
      KeptAll(step, init);
      assert Kept(step, xs) == Kept(step, init) + [|xs| - 1];
    }
  }
}

/** Gathering the results of a loop that stops at its first error. */
module Results {
  import opened Common

  /** The results for all elements, one after the other, or the first error. */
  function Collect<A, B>(f: A -> Result<seq<B>, Error>, xs: seq<A>): Result<seq<B>, Error> {
    if xs == [] then Ok([])
    else
      match Collect(f, xs[..|xs| - 1])
      case Err(e) => Err(e)
      case Ok(before) =>
        match f(xs[|xs| - 1])
        case Err(e) => Err(e)
        case Ok(last) => Ok(before + last)
  }

  lemma CollectNext<A, B>(f: A -> Result<seq<B>, Error>, xs: seq<A>, k: nat)
    requires k < |xs| && Collect(f, xs[..k]).Ok? && f(xs[k]).Ok?
    ensures Collect(f, xs[..k + 1]) == Ok(Collect(f, xs[..k]).value + f(xs[k]).value)
  {
    assert xs[..k + 1][..k] == xs[..k];
  }

  /** An error in the middle is the error of the whole list. */
  lemma {:induction false} CollectStops<A, B>(f: A -> Result<seq<B>, Error>, xs: seq<A>, k: nat)
    requires k < |xs| && Collect(f, xs[..k]).Ok? && f(xs[k]).Err?
    ensures Collect(f, xs) == Err(f(xs[k]).error)
    decreases |xs|
  {
    if k < |xs| - 1 {
      var before := xs[..|xs| - 1];
      assert before[..k] == xs[..k] && before[k] == xs[k];
      CollectStops(f, before, k);
    }
  }

  /** It succeeds exactly when every element does, and otherwise gives the first error. */
  lemma {:induction false} CollectMeaning<A, B>(f: A -> Result<seq<B>, Error>, xs: seq<A>)
    ensures Collect(f, xs).Ok? <==> forall i :: 0 <= i < |xs| ==> f(xs[i]).Ok?
    ensures Collect(f, xs).Err? ==>
      exists k :: 0 <= k < |xs| && f(xs[k]) == Err(Collect(f, xs).error) && forall i :: 0 <= i < k ==> f(xs[i]).Ok?
  {
    if xs != [] {
      var before := xs[..|xs| - 1];
      CollectMeaning(f, before);
      assert forall i :: 0 <= i < |before| ==> before[i] == xs[i];
      if Collect(f, before).Err? {
        var k :| 0 <= k < |before| && f(before[k]) == Err(Collect(f, before).error)
          && forall i :: 0 <= i < k ==> f(before[i]).Ok?;
        assert f(xs[k]) == Err(Collect(f, xs).error);
      }
    }
  }

  /** Where every element gives one result, result i is element i's. */
  lemma {:induction false} CollectSingles<A, B>(f: A -> Result<seq<B>, Error>, xs: seq<A>)
    requires Collect(f, xs).Ok?
    requires forall i :: 0 <= i < |xs| && f(xs[i]).Ok? ==> |f(xs[i]).value| == 1
    ensures |Collect(f, xs).value| == |xs|
    ensures forall i :: 0 <= i < |xs| ==> f(xs[i]) == Ok([Collect(f, xs).value[i]])
  {
    if xs != [] {
      var before := xs[..|xs| - 1];
      assert forall i :: 0 <= i < |before| ==> before[i] == xs[i];
      CollectSingles(f, before);
      var last := f(xs[|xs| - 1]);
      assert last.Ok? && Collect(f, xs).value == Collect(f, before).value + last.value;
      assert last.value == [last.value[0]];
    }
  }

  lemma {:induction false} CollectPointwise<A, C, B>(f: A -> Result<seq<B>, Error>, xs: seq<A>,
                                                     g: C -> Result<seq<B>, Error>, ys: seq<C>)
    requires |xs| == |ys|
    requires forall i :: 0 <= i < |xs| ==> f(xs[i]) == g(ys[i])
    ensures Collect(f, xs) == Collect(g, ys)
  {
    if xs != [] {
      assert forall i :: 0 <= i < |xs| - 1 ==> xs[..|xs| - 1][i] == xs[i] && ys[..|ys| - 1][i] == ys[i];
      CollectPointwise(f, xs[..|xs| - 1], g, ys[..|ys| - 1]);
    }
  }
}

/** Option and Result: "no value" and "value or error" as the plugin code uses them. */
module Wrappers {

  datatype Option<+T> = None | Some(value: T)
  {
    /** The value, or `default` when there is none (Kotlin `?:`, Swift `??`). */
    function GetOr(default: T): T
    {
      match this
      case Some(v) => v
      case None => default
    }
  }

  datatype Result<+T, +E> = Ok(value: T) | Err(error: E)

  /**
   * A `for` loop that builds one output per input and stops at the first
   * failure: the outputs in order, or that failure.
   */
  function MapUntilError<A, B, E>(f: A -> Result<B, E>, xs: seq<A>): Result<seq<B>, E>
  {
    if |xs| == 0 then Ok([])
    else
      match f(xs[0])
      case Err(e) => Err(e)
      case Ok(y) =>
        match MapUntilError(f, xs[1..])
        case Err(e) => Err(e)
        case Ok(ys) => Ok([y] + ys)
  }

  /** One more input either adds its output at the end or ends in its failure. */
  lemma {:induction false} MapUntilErrorSnoc<A, B, E>(f: A -> Result<B, E>, xs: seq<A>, x: A)
    requires MapUntilError(f, xs).Ok?
    ensures f(x).Ok? ==> MapUntilError(f, xs + [x]) == Ok(MapUntilError(f, xs).value + [f(x).value])
    ensures f(x).Err? ==> MapUntilError(f, xs + [x]) == Err(f(x).error)
  {
    if |xs| > 0 {
      assert (xs + [x])[0] == xs[0];
      assert (xs + [x])[1..] == xs[1..] + [x];
      MapUntilErrorSnoc(f, xs[1..], x);
      if f(x).Ok? {
        var y, rest := f(xs[0]).value, MapUntilError(f, xs[1..]).value;
        assert [y] + (rest + [f(x).value]) == ([y] + rest) + [f(x).value];
      }
    } else {
      assert xs + [x] == [x];
      assert [x][1..] == [];
      if f(x).Ok? {
        assert [f(x).value] + [] == MapUntilError(f, xs).value + [f(x).value];
      }
    }
  }

  /** One step of the loop over `xs`: the next input extends the prefix's outputs or ends the loop. */
  lemma MapUntilErrorStep<A, B, E>(f: A -> Result<B, E>, xs: seq<A>, i: nat)
    requires i < |xs| && MapUntilError(f, xs[..i]).Ok?
    ensures f(xs[i]).Ok? ==> MapUntilError(f, xs[..i + 1]) == Ok(MapUntilError(f, xs[..i]).value + [f(xs[i]).value])
    ensures f(xs[i]).Err? ==> MapUntilError(f, xs) == Err(f(xs[i]).error)
  {
    assert xs[..i + 1] == xs[..i] + [xs[i]];
    MapUntilErrorSnoc(f, xs[..i], xs[i]);
    if f(xs[i]).Err? {
      MapUntilErrorFailurePersists(f, xs[..i + 1], xs[i + 1..]);
      assert xs == xs[..i + 1] + xs[i + 1..];
    }
  }

  /** A failure of a prefix is the failure of the whole sequence. */
  lemma {:induction false} MapUntilErrorFailurePersists<A, B, E>(f: A -> Result<B, E>, xs: seq<A>, rest: seq<A>)
    requires MapUntilError(f, xs).Err?
    ensures MapUntilError(f, xs + rest) == MapUntilError(f, xs)
  {
    assert (xs + rest)[0] == xs[0];
    assert (xs + rest)[1..] == xs[1..] + rest;
    if f(xs[0]).Ok? {
      MapUntilErrorFailurePersists(f, xs[1..], rest);
    }
  }

  /** A failing loop fails with the failure of its first failing input. */
  lemma {:induction false} MapUntilErrorFirstFailure<A, B, E>(f: A -> Result<B, E>, xs: seq<A>)
    requires MapUntilError(f, xs).Err?
    ensures exists i :: 0 <= i < |xs| && f(xs[i]) == Err(MapUntilError(f, xs).error) && forall j :: 0 <= j < i ==> f(xs[j]).Ok?
  {
    if f(xs[0]).Err? {
      assert f(xs[0]) == Err(MapUntilError(f, xs).error);
    } else {
      var rest := xs[1..];
      MapUntilErrorFirstFailure(f, rest);
      var i :| 0 <= i < |rest| && f(rest[i]) == Err(MapUntilError(f, rest).error) && forall j :: 0 <= j < i ==> f(rest[j]).Ok?;
      assert rest[i] == xs[i + 1];
      forall j | 0 <= j < i + 1
        ensures f(xs[j]).Ok?
      {
        if j > 0 {
          assert rest[j - 1] == xs[j];
        }
      }
      assert f(xs[i + 1]) == Err(MapUntilError(f, xs).error);
    }
  }

  /**
   * The loop succeeds exactly when every input succeeds, and then its
   * outputs are the inputs' outputs, one each, in order.
   */
  lemma {:induction false} MapUntilErrorShape<A, B, E>(f: A -> Result<B, E>, xs: seq<A>)
    ensures MapUntilError(f, xs).Ok? <==> forall i :: 0 <= i < |xs| ==> f(xs[i]).Ok?
    ensures MapUntilError(f, xs).Ok? ==>
              && |MapUntilError(f, xs).value| == |xs|
              && forall i :: 0 <= i < |xs| ==> f(xs[i]) == Ok(MapUntilError(f, xs).value[i])
  {
    if |xs| > 0 {
      MapUntilErrorShape(f, xs[1..]);
      if forall i :: 0 <= i < |xs| ==> f(xs[i]).Ok? {
        assert forall i :: 0 <= i < |xs[1..]| ==> f(xs[1..][i]).Ok? by {
          forall i | 0 <= i < |xs[1..]|
            ensures f(xs[1..][i]).Ok?
          {
            assert xs[1..][i] == xs[i + 1];
          }
        }
      }
      if MapUntilError(f, xs).Ok? {
        var ys := MapUntilError(f, xs).value;
        var rest := MapUntilError(f, xs[1..]).value;
        assert ys == [f(xs[0]).value] + rest;
        forall i | 0 <= i < |xs|
          ensures f(xs[i]) == Ok(ys[i])
        {
          if i > 0 {
            assert xs[1..][i - 1] == xs[i];
          }
        }
      }
    }
  }
}

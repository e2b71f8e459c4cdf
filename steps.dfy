/** A loop that runs one step per item, in order, appending what each step
    writes, and stops after the first step that fails. The step is a
    parameter, so these facts hold whatever a step writes. */
module Steps {
  import opened Wrappers

  /** What the steps over `xs` write, and the failure that stopped them, if any. */
  function Chain<T, S, E>(xs: seq<T>, step: T -> (seq<S>, Option<E>)): (seq<S>, Option<E>)
    decreases |xs|
  {
    if xs == [] then ([], None)
    else
      var prev := Chain(xs[..|xs| - 1], step);
      if prev.1.Some? then prev
      else
        var last := step(xs[|xs| - 1]);
        (prev.0 + last.0, last.1)
  }

  /** One more step after a prefix that did not fail. */
  lemma ChainExtend<T, S, E>(xs: seq<T>, step: T -> (seq<S>, Option<E>), n: nat)
    requires n < |xs| && Chain(xs[..n], step).1.None?
    ensures Chain(xs[..n + 1], step) == (Chain(xs[..n], step).0 + step(xs[n]).0, step(xs[n]).1)
  {
    assert xs[..n + 1][..n] == xs[..n];
  }

  /** Once a step has failed, the later items change nothing. */
  lemma {:induction false} ChainSticks<T, S, E>(xs: seq<T>, step: T -> (seq<S>, Option<E>), n: nat)
    requires n <= |xs| && Chain(xs[..n], step).1.Some?
    ensures Chain(xs, step) == Chain(xs[..n], step)
    decreases |xs|
  {
    if n < |xs| {
      var init := xs[..|xs| - 1];
      assert init[..n] == xs[..n];
      ChainSticks(init, step, n);
    } else {
      assert xs[..n] == xs;
    }
  }

  /** The loop gets to the end exactly when no step fails. */
  lemma {:induction false} ChainCompletes<T, S, E>(xs: seq<T>, step: T -> (seq<S>, Option<E>))
    ensures Chain(xs, step).1.None? <==> forall k :: 0 <= k < |xs| ==> step(xs[k]).1.None?
    decreases |xs|
  {
    if xs != [] {
      var init := xs[..|xs| - 1];
      ChainCompletes(init, step);
      assert forall k :: 0 <= k < |init| ==> init[k] == xs[k];
    }
  }

  /** In a loop that got to the end, step k did not fail. */
  lemma ChainNoneAt<T, S, E>(xs: seq<T>, step: T -> (seq<S>, Option<E>), k: nat)
    requires k < |xs| && Chain(xs, step).1.None?
    ensures step(xs[k]).1.None?
  {
    ChainCompletes(xs, step);
  }

  /** When every step that succeeds writes `width` items, a loop that got to
      the end wrote `width` items per step. */
  lemma {:induction false} ChainLength<T, S, E>(xs: seq<T>, step: T -> (seq<S>, Option<E>), width: nat)
    requires Chain(xs, step).1.None?
    requires forall x :: step(x).1.None? ==> |step(x).0| == width
    ensures |Chain(xs, step).0| == width * |xs|
    decreases |xs|
  {
    if xs != [] {
      var init := xs[..|xs| - 1];
      ChainLength(init, step, width);
      assert width * |xs| == width * |init| + width;
    }
  }

  /** What the steps over a prefix write is a prefix of what the whole loop writes. */
  lemma {:induction false} ChainPrefix<T, S, E>(xs: seq<T>, step: T -> (seq<S>, Option<E>), n: nat)
    requires n <= |xs|
    ensures Chain(xs[..n], step).0 <= Chain(xs, step).0
    decreases |xs|
  {
    if n < |xs| {
      var init := xs[..|xs| - 1];
      assert init[..n] == xs[..n];
      ChainPrefix(init, step, n);
    } else {
      assert xs[..n] == xs;
    }
  }

  /** In a loop that got to the end, the items written by step k follow those
      written by the steps before it. */
  lemma ChainAt<T, S, E>(xs: seq<T>, step: T -> (seq<S>, Option<E>), k: nat)
    requires k < |xs| && Chain(xs, step).1.None?
    ensures var start := |Chain(xs[..k], step).0|;
      && start + |step(xs[k]).0| <= |Chain(xs, step).0|
      && Chain(xs, step).0[start..start + |step(xs[k]).0|] == step(xs[k]).0
  {
    ChainCompletes(xs, step);
    ChainCompletes(xs[..k], step);
    ChainExtend(xs, step, k);
    ChainPrefix(xs, step, k + 1);
    var before := Chain(xs[..k], step).0;
    var mine := step(xs[k]).0;
    var upTo := Chain(xs[..k + 1], step).0;
    assert upTo == before + mine;
    assert upTo[|before|..|before| + |mine|] == mine;
  }

  /** When every step that succeeds writes `width` items and the loop got to
      the end, the items of step k are those from width * k on. */
  lemma ChainAtWidth<T, S, E>(xs: seq<T>, step: T -> (seq<S>, Option<E>), width: nat, k: nat)
    requires k < |xs| && Chain(xs, step).1.None?
    requires forall x :: step(x).1.None? ==> |step(x).0| == width
    ensures step(xs[k]).1.None?
    ensures |Chain(xs, step).0| == width * |xs|
    ensures width * k + width <= width * |xs|
    ensures Chain(xs, step).0[width * k..width * k + width] == step(xs[k]).0
  {
    ChainLength(xs, step, width);
    ChainNoneAt(xs, step, k);
    ChainCompletes(xs[..k], step);
    ChainCompletes(xs, step);
    assert forall j :: 0 <= j < k ==> xs[..k][j] == xs[j];
    ChainLength(xs[..k], step, width);
    ChainAt(xs, step, k);
    assert width * k + width == width * (k + 1) <= width * |xs|;
  }

  /** When step i is the first that fails, the loop writes what the steps before
      it write and what step i writes, and stops with the failure of step i. */
  lemma ChainStopsAt<T, S, E>(xs: seq<T>, step: T -> (seq<S>, Option<E>), i: nat)
    requires i < |xs| && step(xs[i]).1.Some?
    requires forall k :: 0 <= k < i ==> step(xs[k]).1.None?
    ensures Chain(xs[..i], step).1.None?
    ensures Chain(xs, step) == (Chain(xs[..i], step).0 + step(xs[i]).0, step(xs[i]).1)
  {
    var before := xs[..i];
    assert forall k :: 0 <= k < |before| ==> before[k] == xs[k];
    ChainCompletes(before, step);
    ChainExtend(xs, step, i);
    ChainSticks(xs, step, i + 1);
  }

  /** One pass of a loop that writes `written` and keeps it equal to what the
      steps so far wrote after a fixed `header`. */
  lemma ChainLoopStep<T, S, E>(xs: seq<T>, step: T -> (seq<S>, Option<E>), i: nat,
                               header: seq<S>, written: seq<S>, chunks: seq<S>, failure: Option<E>)
    requires i < |xs| && Chain(xs[..i], step).1.None? && written == header + Chain(xs[..i], step).0
    requires (chunks, failure) == step(xs[i])
    ensures written + chunks == header + Chain(xs[..i + 1], step).0
    ensures Chain(xs[..i + 1], step).1 == failure
    ensures failure.Some? ==> Chain(xs, step) == Chain(xs[..i + 1], step)
  {
    ChainExtend(xs, step, i);
    AppendAssoc(header, Chain(xs[..i], step).0, chunks);
    if failure.Some? {
      ChainSticks(xs, step, i + 1);
    }
  }

  /** Regrouping a concatenation, stated apart from ChainLoopStep so that the
      regrouping is proved without Chain's definition in view. */
  lemma AppendAssoc<S>(a: seq<S>, b: seq<S>, c: seq<S>)
    ensures (a + b) + c == a + (b + c)
  {
  }
}

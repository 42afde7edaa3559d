// Runs of a state machine: a step takes a state and an input to a new state and the
// events it emits; a run folds the steps and concatenates the events.
module Machine {

  datatype Step<+S, +E> = Step(state: S, events: seq<E>)

  function Run<S, I, E>(step: (S, I) -> Step<S, E>, s: S, inputs: seq<I>): Step<S, E> {
    if inputs == [] then Step(s, [])
    else
      var before := Run(step, s, inputs[..|inputs| - 1]);
      var last := step(before.state, inputs[|inputs| - 1]);
      Step(last.state, before.events + last.events)
  }

  lemma {:induction false} RunConcat<S, I, E>(step: (S, I) -> Step<S, E>, s: S, xs: seq<I>, ys: seq<I>)
    ensures var a := Run(step, s, xs);
            var b := Run(step, a.state, ys);
            Run(step, s, xs + ys) == Step(b.state, a.events + b.events)
  {
    if ys == [] {
      assert xs + ys == xs;
    } else {
      var zs := xs + ys;
      assert zs[..|zs| - 1] == xs + ys[..|ys| - 1] && zs[|zs| - 1] == ys[|ys| - 1];
      RunConcat(step, s, xs, ys[..|ys| - 1]);
    }
  }

  // The same run, one input longer; and a run of one input.
  lemma RunSnoc<S, I, E>(step: (S, I) -> Step<S, E>, s: S, xs: seq<I>, x: I)
    ensures var a := Run(step, s, xs);
            var b := step(a.state, x);
            Run(step, s, xs + [x]) == Step(b.state, a.events + b.events)
  {
    assert (xs + [x])[..|xs|] == xs;
  }

  lemma RunOne<S, I, E>(step: (S, I) -> Step<S, E>, s: S, x: I)
    ensures Run(step, s, [x]) == step(s, x)
  {
    assert [x][..0] == [];
    assert step(s, x).events == [] + step(s, x).events;
  }

  lemma RunThree<S, I, E>(step: (S, I) -> Step<S, E>, s: S, x: I, y: I, z: I)
    ensures var a := step(s, x);
            var b := step(a.state, y);
            var c := step(b.state, z);
            Run(step, s, [x, y, z]) == Step(c.state, a.events + b.events + c.events)
  {
    RunOne(step, s, x);
    RunSnoc(step, s, [x], y);
    RunSnoc(step, s, [x] + [y], z);
    assert [x, y, z] == [x] + [y] + [z];
  }

  // The outputs of `f` on each input, one after the other.
  function FlatMap<I, O>(f: I -> seq<O>, xs: seq<I>): seq<O> {
    if xs == [] then [] else FlatMap(f, xs[..|xs| - 1]) + f(xs[|xs| - 1])
  }

  // For joining sequences that are outputs already.
  function AsIs<O>(xs: seq<O>): seq<O> {
    xs
  }

  lemma {:induction false} FlatMapConcat<I, O>(f: I -> seq<O>, xs: seq<I>, ys: seq<I>)
    ensures FlatMap(f, xs + ys) == FlatMap(f, xs) + FlatMap(f, ys)
  {
    if ys == [] {
      assert xs + ys == xs;
    } else {
      assert (xs + ys)[..|xs + ys| - 1] == xs + ys[..|ys| - 1];
      FlatMapConcat(f, xs, ys[..|ys| - 1]);
    }
  }

  lemma FlatMapOne<I, O>(f: I -> seq<O>, x: I)
    ensures FlatMap(f, [x]) == f(x)
  {
    assert [x][..0] == [];
    assert FlatMap(f, [x][..0]) == [];
  }

  // A run without output: the state after all inputs.
  function Fold<S, I>(f: (S, I) -> S, s: S, xs: seq<I>): S {
    if xs == [] then s else f(Fold(f, s, xs[..|xs| - 1]), xs[|xs| - 1])
  }

  lemma {:induction false} FoldConcat<S, I>(f: (S, I) -> S, s: S, xs: seq<I>, ys: seq<I>)
    ensures Fold(f, s, xs + ys) == Fold(f, Fold(f, s, xs), ys)
  {
    if ys == [] {
      assert xs + ys == xs;
    } else {
      assert (xs + ys)[..|xs + ys| - 1] == xs + ys[..|ys| - 1];
      FoldConcat(f, s, xs, ys[..|ys| - 1]);
    }
  }

  lemma FoldOne<S, I>(f: (S, I) -> S, s: S, x: I)
    ensures Fold(f, s, [x]) == f(s, x)
  {
    assert [x][..0] == [];
    assert Fold(f, s, [x][..0]) == s;
  }

  lemma FoldSnoc<S, I>(f: (S, I) -> S, s: S, xs: seq<I>, x: I)
    ensures Fold(f, s, xs + [x]) == f(Fold(f, s, xs), x)
  {
    assert (xs + [x])[..|xs|] == xs;
  }

  lemma FlatMapThree<I, O>(f: I -> seq<O>, x: I, y: I, z: I)
    ensures FlatMap(f, [x, y, z]) == f(x) + f(y) + f(z)
  {
    assert [x, y, z][..2] == [x, y] && [x, y][..1] == [x];
    FlatMapOne(f, x);
  }

  lemma {:induction false} InFlatMap<I, O>(f: I -> seq<O>, xs: seq<I>, o: O)
    ensures o in FlatMap(f, xs) <==> exists x :: x in xs && o in f(x)
  {
    if xs != [] {
      var before, last := xs[..|xs| - 1], xs[|xs| - 1];
      InFlatMap(f, before, o);
      assert forall x :: x in xs <==> x in before || x == last;
    }
  }

  // Loops over a sequence, one element at a time.
  lemma NothingFolded<S, I>(f: (S, I) -> S, s: S)
    ensures Fold(f, s, []) == s
  {
  }

  lemma FlatMapOneMore<I, O>(f: I -> seq<O>, xs: seq<I>, i: nat)
    requires i < |xs|
    ensures FlatMap(f, xs[..i + 1]) == FlatMap(f, xs[..i]) + f(xs[i])
  {
    assert xs[..i + 1][..i] == xs[..i];
  }

  lemma FoldOneMore<S, I>(f: (S, I) -> S, s: S, xs: seq<I>, i: nat)
    requires i < |xs|
    ensures Fold(f, s, xs[..i + 1]) == f(Fold(f, s, xs[..i]), xs[i])
  {
    assert xs[..i + 1][..i] == xs[..i];
  }
}

/**
  Laws of running an `IO`: each node and combinator of IO.java, stated as
  what a run yields (outcome and side effects) in terms of what its parts
  yield.
 */
module IOLaws {
  import opened Algebra
  import opened Interp
  import Closures
  import Effects

  /** More fuel never changes a finished run. */
  lemma {:induction false} RunMonotone(io: IO, f1: nat, f2: nat)
    requires f1 <= f2 && Run(io, f1).Done?
    ensures Run(io, f2) == Run(io, f1)
    decreases f1
  {
    match io {
      case Suspend(r) =>
        RunMonotone(Closures.ResumeThunk(r).0, f1 - 1, f2 - 1);
      case Recover(src, h) =>
        RunMonotone(src, f1 - 1, f2 - 1);
        var r := Run(src, f1 - 1);
        if r.out.Fail? && h(r.out.e).Some? {
          RunMonotone(h(r.out.e).value, f1 - 1, f2 - 1);
        }
      case Bind(src, k) =>
        RunMonotone(src, f1 - 1, f2 - 1);
        var r := Run(src, f1 - 1);
        if r.out.Ok? {
          RunMonotone(Closures.ApplyKont(k, r.out.v), f1 - 1, f2 - 1);
        }
      case _ =>
    }
  }

  /** A finished run, as a `Yields` fact. */
  lemma {:induction false} RunYields(io: IO, fuel: nat)
    requires Run(io, fuel).Done?
    ensures Yields(io, Run(io, fuel).out, Run(io, fuel).log)
  {
    assert Run(io, fuel) == Done(Run(io, fuel).out, Run(io, fuel).log);
  }

  /** A run has one outcome and one sequence of side effects. */
  lemma {:induction false} YieldsUnique(io: IO, o1: Outcome, l1: seq<EffectId>, o2: Outcome, l2: seq<EffectId>)
    requires Yields(io, o1, l1) && Yields(io, o2, l2)
    ensures o1 == o2 && l1 == l2
  {
    var f1: nat :| Run(io, f1) == Done(o1, l1);
    var f2: nat :| Run(io, f2) == Done(o2, l2);
    if f1 <= f2 {
      RunMonotone(io, f1, f2);
    } else {
      RunMonotone(io, f2, f1);
    }
  }

  /** `pure(v)` yields `v` and runs nothing. */
  lemma {:induction false} PureYields(v: Val, o: Outcome, l: seq<EffectId>)
    ensures Yields(Pure(v), o, l) <==> o == Ok(v) && l == []
  {
    if o == Ok(v) && l == [] {
      assert Run(Pure(v), 1) == Done(o, l);
    }
  }

  /** `raiseError(e)` fails with `e` and runs nothing. */
  lemma {:induction false} RaiseErrorYields(e: Error, o: Outcome, l: seq<EffectId>)
    ensures Yields(RaiseError(e), o, l) <==> o == Fail(e) && l == []
  {
    if o == Fail(e) && l == [] {
      assert Run(RaiseError(e), 1) == Done(o, l);
    }
  }

  /** `delay(thunk)` runs its user thunk exactly once, when reached: the run
      ends as the thunk does, after the thunk's one side effect. */
  lemma {:induction false} DelayYields(id: EffectId, result: Outcome, o: Outcome, l: seq<EffectId>)
    ensures Yields(Delay(Effect(id, result)), o, l) <==> o == result && l == [id]
  {
    if o == result && l == [id] {
      assert Run(Delay(Effect(id, result)), 1) == Done(o, l);
    }
  }

  /** A `Delay` node calls its thunk once and ends as the thunk does. */
  lemma {:induction false} ForceYields(t: Thunk)
    ensures Yields(Delay(t), Closures.Force(t).0, Closures.Force(t).1)
  {
    assert Run(Delay(t), 1) == Done(Closures.Force(t).0, Closures.Force(t).1);
  }

  /** `delay(Run)`: the action runs once and the result is Unit, unless the
      action throws. */
  lemma {:induction false} DelayActionYields(id: EffectId, failure: Option<Error>, o: Outcome, l: seq<EffectId>)
    ensures Yields(Effects.DelayAction(id, failure), o, l) <==>
      l == [id] && o == (if failure.Some? then Fail(failure.value) else Ok(D(Unit)))
  {
    DelayYields(id, if failure.Some? then Fail(failure.value) else Ok(D(Unit)), o, l);
  }

  /** `IO.unit` yields Unit and runs nothing. */
  lemma {:induction false} UnitYields()
    ensures Yields(Effects.UnitIO, Ok(D(Unit)), [])
  {
    assert Run(Effects.UnitIO, 1) == Done(Ok(D(Unit)), []);
  }

  /** A `Suspend` node calls its thunk, then runs the `IO` it returned. */
  lemma {:induction false} SuspendYields(r: Resume, o: Outcome, l: seq<EffectId>)
    requires Yields(Closures.ResumeThunk(r).0, o, l)
    ensures Yields(Suspend(r), o, Closures.ResumeThunk(r).1 + l)
  {
    var f: nat :| Run(Closures.ResumeThunk(r).0, f) == Done(o, l);
    assert Run(Suspend(r), f + 1) == Done(o, Closures.ResumeThunk(r).1 + l);
  }

  /** flatMap: the source runs first, then the continuation on its value;
      side effects happen in that order. */
  lemma {:induction false} BindOk(src: IO, k: Kont, v: Val, l1: seq<EffectId>, o: Outcome, l2: seq<EffectId>)
    requires Yields(src, Ok(v), l1)
    requires Yields(Closures.ApplyKont(k, v), o, l2)
    ensures Yields(Bind(src, k), o, l1 + l2)
  {
    var f1: nat :| Run(src, f1) == Done(Ok(v), l1);
    var f2: nat :| Run(Closures.ApplyKont(k, v), f2) == Done(o, l2);
    var f := if f1 < f2 then f2 else f1;
    RunMonotone(src, f1, f);
    RunMonotone(Closures.ApplyKont(k, v), f2, f);
    assert Run(Bind(src, k), f + 1) == Done(o, l1 + l2);
  }

  /** flatMap: a failing source fails the whole, and the continuation is
      never called. */
  lemma {:induction false} BindFail(src: IO, k: Kont, e: Error, l: seq<EffectId>)
    requires Yields(src, Fail(e), l)
    ensures Yields(Bind(src, k), Fail(e), l)
  {
    var f: nat :| Run(src, f) == Done(Fail(e), l);
    assert Run(Bind(src, k), f + 1) == Done(Fail(e), l);
  }

  /** Every run of a `Bind` is one of the two runs above. */
  lemma {:induction false} BindInverse(src: IO, k: Kont, o: Outcome, l: seq<EffectId>)
    requires Yields(Bind(src, k), o, l)
    ensures exists r: Res ::
      (r.Done? && Yields(src, r.out, r.log) &&
       if r.out.Fail? then o == r.out && l == r.log
       else exists l2 :: Yields(Closures.ApplyKont(k, r.out.v), o, l2) && l == r.log + l2)
  {
    var f: nat :| Run(Bind(src, k), f) == Done(o, l);
    var r := Run(src, f - 1);
    RunYields(src, f - 1);
    if r.out.Ok? {
      var r2 := Run(Closures.ApplyKont(k, r.out.v), f - 1);
      RunYields(Closures.ApplyKont(k, r.out.v), f - 1);
      assert l == r.log + r2.log;
    }
  }

  /** `map(f)` is `flatMap` with `f.andThen(pure)`: the value is transformed,
      a failure passes through unchanged, and the side effects are the source's. */
  lemma {:induction false} MapYields(io: IO, g: ValFn, o: Outcome, l: seq<EffectId>)
    requires Yields(io, o, l)
    ensures Yields(Effects.Map(io, g), if o.Ok? then Ok(Closures.ApplyFn(g, o.v)) else o, l)
  {
    if o.Ok? {
      PureYields(Closures.ApplyFn(g, o.v), Ok(Closures.ApplyFn(g, o.v)), []);
      BindOk(io, AndThenPure(g), o.v, l, Ok(Closures.ApplyFn(g, o.v)), []);
      assert l + [] == l;
    } else {
      BindFail(io, AndThenPure(g), o.e, l);
    }
  }

  /** `map` with a user function on a successful source. */
  lemma {:induction false} MapDataYields(io: IO, f: Data -> Data, d: Data, l: seq<EffectId>)
    requires Yields(io, Ok(D(d)), l)
    ensures Yields(Effects.Map(io, UserFn(f)), Ok(D(f(d))), l)
  {
    MapYields(io, UserFn(f), Ok(D(d)), l);
  }

  /** `then(f)`: the source runs, its value is dropped, and the supplied `IO`
      runs after it; a failing source means the supplied `IO` never runs. */
  lemma {:induction false} ThenYields(io: IO, next: IO, o1: Outcome, l1: seq<EffectId>, o2: Outcome, l2: seq<EffectId>)
    requires Yields(io, o1, l1)
    requires o1.Ok? ==> Yields(next, o2, l2)
    ensures o1.Ok? ==> Yields(Effects.Then(io, next), o2, l1 + l2)
    ensures o1.Fail? ==> Yields(Effects.Then(io, next), o1, l1)
  {
    if o1.Ok? {
      BindOk(io, ThenK(next), o1.v, l1, o2, l2);
    } else {
      BindFail(io, ThenK(next), o1.e, l1);
    }
  }

  /** recoverWith on a successful source: the handler is not consulted. */
  lemma {:induction false} RecoverOk(src: IO, h: Error -> Option<IO>, v: Val, l: seq<EffectId>)
    requires Yields(src, Ok(v), l)
    ensures Yields(Recover(src, h), Ok(v), l)
  {
    var f: nat :| Run(src, f) == Done(Ok(v), l);
    assert Run(Recover(src, h), f + 1) == Done(Ok(v), l);
  }

  /** recoverWith on a failing source: a replacement from the handler runs
      next; without one the same error propagates. */
  lemma {:induction false} RecoverFail(src: IO, h: Error -> Option<IO>, e: Error, l1: seq<EffectId>, o: Outcome, l2: seq<EffectId>)
    requires Yields(src, Fail(e), l1)
    requires h(e).Some? ==> Yields(h(e).value, o, l2)
    ensures h(e).Some? ==> Yields(Recover(src, h), o, l1 + l2)
    ensures h(e).None? ==> Yields(Recover(src, h), Fail(e), l1)
  {
    var f1: nat :| Run(src, f1) == Done(Fail(e), l1);
    if h(e).Some? {
      var f2: nat :| Run(h(e).value, f2) == Done(o, l2);
      var f := if f1 < f2 then f2 else f1;
      RunMonotone(src, f1, f);
      RunMonotone(h(e).value, f2, f);
      assert Run(Recover(src, h), f + 1) == Done(o, l1 + l2);
    } else {
      assert Run(Recover(src, h), f1 + 1) == Done(Fail(e), l1);
    }
  }

  /** `raiseError(e).recoverWith(h)` continues exactly as `h(e)` when the
      handler gives one, and otherwise fails with the same `e`. */
  lemma {:induction false} RaiseRecoverWith(e: Error, h: Error -> Option<IO>, o: Outcome, l: seq<EffectId>)
    ensures Yields(Recover(RaiseError(e), h), o, l) <==>
      if h(e).Some? then Yields(h(e).value, o, l) else o == Fail(e) && l == []
  {
    if Yields(Recover(RaiseError(e), h), o, l) {
      var f: nat :| Run(Recover(RaiseError(e), h), f) == Done(o, l);
      assert Run(Recover(RaiseError(e), h), 1) == OutOfFuel;
      assert Run(RaiseError(e), f - 1) == Done(Fail(e), []);
      if h(e).Some? {
        var r := Run(h(e).value, f - 1);
        assert After([], r) == Done(o, l);
        assert r.log == [] + r.log;
        assert r == Done(o, l);
      }
    }
    if h(e).Some? && Yields(h(e).value, o, l) {
      var f: nat :| Run(h(e).value, f) == Done(o, l);
      RunMonotone(h(e).value, f, f + 1);
      assert Run(Recover(RaiseError(e), h), f + 2) == Done(o, l);
    }
    if h(e).None? && o == Fail(e) && l == [] {
      assert Run(Recover(RaiseError(e), h), 2) == Done(o, l);
    }
  }

  /** `raiseError(e).recover(r)`: `Some(v)` becomes the value, `None` keeps
      the error. */
  lemma {:induction false} RaiseRecover(e: Error, r: Error -> Option<Val>, o: Outcome, l: seq<EffectId>)
    ensures Yields(Effects.RecoverValue(RaiseError(e), r), o, l) <==>
      l == [] && o == (if r(e).Some? then Ok(r(e).value) else Fail(e))
  {
    var h := Effects.PureHandler(r);
    RaiseRecoverWith(e, h, o, l);
    if r(e).Some? {
      PureYields(r(e).value, o, l);
    }
  }
}

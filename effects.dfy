/**
  The combinators of IO.java. `pure`, `delay`, `raiseError`, `flatMap` and
  `recoverWith` allocate one node each and are the constructors `Pure`,
  `Delay`, `RaiseError`, `Bind` and `Recover` of `Algebra.IO`; the derived
  combinators below rewrite into those nodes and call nothing.
 */
module Effects {
  import opened Algebra

  /** `IO.unit`: `pure(Unit.unit)`. */
  const UnitIO: IO := Pure(D(Unit))

  /** `delay(Run action)` and `IO(Run action)`: a Delay whose thunk runs the
      action (side effect `id`, throwing `failure` if present) and yields Unit. */
  function DelayAction(id: EffectId, failure: Option<Error>): IO {
    Delay(Effect(id, if failure.Some? then Fail(failure.value) else Ok(D(Unit))))
  }

  /** `map(f)`: `flatMap(f.andThen(IO::pure))`. */
  function Map(io: IO, g: ValFn): IO {
    Bind(io, AndThenPure(g))
  }

  /** `then(f)`: `flatMap(t -> f.get())`; the supplier gives `next`. */
  function Then(io: IO, next: IO): IO {
    Bind(io, ThenK(next))
  }

  /** The handler `r.andThen(opt -> opt.map(IO::pure))` built by `recover(r)`. */
  function PureHandler(r: Error -> Option<Val>): Error -> Option<IO> {
    e => if r(e).Some? then Some(Pure(r(e).value)) else None
  }

  /** `recover(r)`: `recoverWith` with each recovered value lifted by `pure`. */
  function RecoverValue(io: IO, r: Error -> Option<Val>): IO {
    Recover(io, PureHandler(r))
  }
}

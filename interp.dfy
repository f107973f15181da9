/**
  A reference evaluator for `IO`. The library's own interpreter (IORun) is not
  part of this model; this big-step evaluator states the semantics that the
  node descriptions promise, with a fuel bound in place of the trampoline's
  loop (a continuation is arbitrary, so nothing structural decreases).
 */
module Interp {
  import opened Algebra
  import Closures

  /** The end of a run: an outcome with the side effects in the order they
      happened, or fuel ran out first. */
  datatype Res = Done(out: Outcome, log: seq<EffectId>) | OutOfFuel

  /** `r` preceded by the side effects `log`. */
  function After(log: seq<EffectId>, r: Res): Res {
    match r
    case Done(o, l) => Done(o, log + l)
    case OutOfFuel => OutOfFuel
  }

  /** Runs `io` with at most `fuel` nested steps.
      Pure yields its value; Delay calls its thunk once; Suspend calls its
      thunk and continues with the `IO` it returns; RaiseError fails; Recover
      runs its source and, on failure, continues with the handler's
      replacement or keeps failing with the same error; Bind runs its source
      and continues with the continuation applied to the value, and a failure
      of the source skips the continuation. */
  function Run(io: IO, fuel: nat): Res
    decreases fuel
  {
    if fuel == 0 then OutOfFuel
    else
      match io
      case Pure(v) => Done(Ok(v), [])
      case Delay(t) => var (o, l) := Closures.Force(t); Done(o, l)
      case Suspend(r) =>
        var (next, l) := Closures.ResumeThunk(r);
        After(l, Run(next, fuel - 1))
      case RaiseError(e) => Done(Fail(e), [])
      case Recover(src, h) =>
        var r := Run(src, fuel - 1);
        if r.Done? && r.out.Fail? && h(r.out.e).Some? then After(r.log, Run(h(r.out.e).value, fuel - 1))
        else r
      case Bind(src, k) =>
        var r := Run(src, fuel - 1);
        if r.Done? && r.out.Ok? then After(r.log, Run(Closures.ApplyKont(k, r.out.v), fuel - 1))
        else r
  }

  /** `io`, when run, ends with `out` after exactly the side effects `log`. */
  ghost predicate Yields(io: IO, out: Outcome, log: seq<EffectId>) {
    exists fuel: nat :: Run(io, fuel) == Done(out, log)
  }
}

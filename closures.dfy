/**
  What the library's own lambdas do when they are called: the bodies of the
  continuations, map functions, fold steps and thunks that IO.java and
  Stream.java build. Calling one only builds a new `IO` or `Stream`, except a
  user `Effect` thunk, whose side effect is reported as its id.
 */
module Closures {
  import opened Algebra
  import Effects
  import Streams

  /** The collector `(elem, acc) -> Pure(SCons(elem, Defer(acc)))`. */
  function Collect(f: Collector, elem: IO, acc: IO): IO {
    match f
    case Restack => Pure(StreamV(Cons(elem, Defer(acc))))
  }

  /** Calls the function given to IO.map. */
  function ApplyFn(g: ValFn, v: Val): Val {
    match g
    case UserFn(f) => D(f(AsData(v)))
    case SomeOf => Found(Some(AsData(v)))
    case Convert(op) => StreamV(Streams.Transform(op, AsStream(v)))
    case FoldStep(f, t) => D(f(t, AsData(v)))
    case FilterStep(p, tail) =>
      var h := AsData(v);
      StreamV(if p(h) then Streams.ConsValue(h, Streams.Filter(tail, p)) else Streams.Filter(tail, p))
    case TakeWhileStep(p, inc, tail, passOn) =>
      var h := AsData(v);
      StreamV(if p(h) then Streams.ConsValue(h, Streams.TakeWhileVia(tail, p, passOn && inc, passOn))
              else if inc then Streams.ConsValue(h, Nil)
              else Nil)
    case DropWhileStep(p, head, tail) =>
      var h := AsData(v);
      StreamV(if p(h) then Streams.DropWhile(tail, p) else Cons(head, tail))
    case FlatMapStep(f, tail) =>
      StreamV(Streams.Append(f(AsData(v)), Streams.FlatMap(tail, f)))
  }

  /** Calls the `Fn2<T, IO<R>, IO<R>>` of the effectful foldRight. */
  function ApplyStep(f: RStep, elem: Data, acc: IO): IO {
    match f
    case LiftStep(g) => Effects.Map(acc, FoldStep(g, elem))
    case ExistsStep(p) => if p(elem) then Pure(D(Bool(true))) else acc
    case ForallStep(p) => if p(elem) then acc else Pure(D(Bool(false)))
  }

  /** Calls the continuation of a `Bind` node on the source's value. */
  function ApplyKont(k: Kont, v: Val): IO {
    match k
    case AndThenPure(g) => Pure(ApplyFn(g, v))
    case UserBind(f) => f(AsData(v))
    case ThenK(next) => next
    case FoldRightK(f, tail, z) => ApplyStep(f, AsData(v), Streams.FoldRight(tail, z, f))
    case FoldRightS(f, z) => Streams.FoldRight(AsStream(v), z, f)
    case FoldLeftK(f, tail, z) => Streams.FoldLeft(tail, f(z, AsData(v)), f)
    case FoldLeftS(f, z) => Streams.FoldLeft(AsStream(v), z, f)
    case CollectRightS(f, z) => Streams.CollectRight(AsStream(v), z, f)
    case CollectLeftS(f, z) => Streams.CollectLeft(AsStream(v), z, f)
    case LazyHeadK => Streams.LazyHead(AsStream(v))
    case HeadOptionK => Streams.HeadOption(AsStream(v))
  }

  /** Calls the thunk of a `Delay` node: its outcome and the side effects it had. */
  function Force(t: Thunk): (Outcome, seq<EffectId>) {
    match t
    case Effect(id, result) => (result, [id])
    case TransformT(op, s) => (Ok(StreamV(Streams.Transform(op, s))), [])
    case UnfoldT(z, f) => (Ok(StreamV(Streams.UnfoldEager(z, f))), [])
  }

  /** Calls the thunk of a `Suspend` node: the `IO` to continue with and the
      side effects the call had. */
  function ResumeThunk(r: Resume): (IO, seq<EffectId>) {
    match r
    case UserResume(id, next) => (next, [id])
    case CollectRightR(f, head, tail, z) => (Collect(f, head, Streams.CollectRight(tail, z, f)), [])
    case CollectLeftR(f, acc, elem) => (Collect(f, elem, acc), [])
  }
}

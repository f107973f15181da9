/**
  The values of the jeff effect-and-stream library, as one family of mutually
  recursive datatypes.

  `IO` is the closed sum of the six effect nodes of IO.java and `Stream` the
  three stream nodes of Stream.java. Java builds continuations, handlers and
  thunks as lambdas; the lambdas the library builds itself are named here
  (defunctionalised), and the library's behaviour when one of them is called
  lives in module Closures. Functions supplied by a library user stay Dafny
  functions over `Data`, the values a user sees.
 */
module Algebra {

  datatype Option<+T> = None | Some(value: T)

  /** Identifies a user side effect; running the effect appends it to the log. */
  type EffectId = nat

  /** A `Throwable`, identified by a code. */
  datatype Error = Error(code: int)

  /** The values that stream elements and user callbacks work with. */
  datatype Data = Int(i: int) | Bool(b: bool) | Unit | List(items: seq<Data>)

  /** Everything an `IO` can produce: user data, a stream (the result of the
      `IO<Stream<T>>` inside `Defer`), an `Optional<T>` (headOption) or an
      `Optional<IO<T>>` (lazyHead). */
  datatype Val =
    | D(d: Data)
    | StreamV(s: Stream)
    | Found(found: Option<Data>)
    | HeadIO(headIO: Option<IO>)

  /** How a computation ends: with a value, or with an error (a thrown
      `Throwable`). Both a user thunk and a whole run end this way. */
  datatype Outcome = Ok(v: Val) | Fail(e: Error)

  /** IO<T>: a description of a computation; building one runs nothing. */
  datatype IO =
    | Pure(value: Val)
    | Delay(thunk: Thunk)
    | Suspend(resume: Resume)
    | RaiseError(error: Error)
    | Recover(io: IO, handler: Error -> Option<IO>)
    | Bind(source: IO, f: Kont)

  /** Stream<T>: `Nil`, an element whose head is an unevaluated `IO`, or a
      stream still to be produced by an `IO`. */
  datatype Stream =
    | Nil
    | Cons(head: IO, tail: Stream)
    | Defer(evalStream: IO)

  /** The thunk of a `Delay` node. */
  datatype Thunk =
      /** A user thunk with an observable side effect `id`. */
    | Effect(id: EffectId, result: Outcome)
      /** `() -> conv.apply(this)` built by lazyTransform. */
    | TransformT(op: Op, target: Stream)
      /** `() -> unfoldEager(z, f)` built by unfold. */
    | UnfoldT(seed: Data, step: Data -> Option<(Data, Data)>)

  /** The thunk of a `Suspend` node. */
  datatype Resume =
      /** A user thunk with side effect `id` that continues with `next`
          (a thunk that throws continues with a `RaiseError`). */
    | UserResume(id: EffectId, next: IO)
      /** `() -> f.ap(head, tail.collectRight(z, f))` in Cons.collectRight. */
    | CollectRightR(cf: Collector, head: IO, tail: Stream, z: IO)
      /** `() -> f.ap(z, head)` in Cons.collectLeft. */
    | CollectLeftR(lf: Collector, acc: IO, elem: IO)

  /** The continuation of a `Bind` node. */
  datatype Kont =
      /** `f.andThen(IO::pure)`, built by IO.map. */
    | AndThenPure(g: ValFn)
      /** A user continuation (IO.flatMap, and the mapEval function on a head). */
    | UserBind(uf: Data -> IO)
      /** `t -> f.get()`, built by IO.then. */
    | ThenK(next: IO)
      /** `h -> f.ap(h, tail.foldRight(z, f))` in Cons.foldRight. */
    | FoldRightK(rf: RStep, rtail: Stream, rz: IO)
      /** `s -> s.foldRight(z, f)` in Defer.foldRight. */
    | FoldRightS(sf: RStep, sz: IO)
      /** `h -> tail.foldLeft(f.ap(z, h), f)` in Cons.foldLeft. */
    | FoldLeftK(lstep: (Data, Data) -> Data, ltail: Stream, lz: Data)
      /** `s -> s.foldLeft(z, f)` in Defer.foldLeft. */
    | FoldLeftS(dstep: (Data, Data) -> Data, dz: Data)
      /** `s -> s.collectRight(z, f)` in Defer.collectRight. */
    | CollectRightS(crf: Collector, crz: IO)
      /** `s -> s.collectLeft(z, f)` in Defer.collectLeft. */
    | CollectLeftS(clf: Collector, clz: IO)
      /** `Stream::lazyHead` in Defer.lazyHead. */
    | LazyHeadK
      /** `Stream::headOption` in Defer.headOption. */
    | HeadOptionK

  /** The function given to IO.map. */
  datatype ValFn =
      /** A user function on element values. */
    | UserFn(uf: Data -> Data)
      /** `Optional::of` in Cons.headOption. */
    | SomeOf
      /** `s -> s.take(n)` and the like, in the Defer overrides. */
    | Convert(op: Op)
      /** `r -> f.ap(t, r)` in foldRight(R z, f). */
    | FoldStep(ff: (Data, Data) -> Data, elem: Data)
      /** The head continuation of Cons.filter. */
    | FilterStep(fp: Data -> bool, ftail: Stream)
      /** The head continuation of Cons.takeWhile; `passOn` says whether the
          rest is taken with the same `includeFailure` (the corrected
          behaviour) or with `takeWhile(p)`, as the source does. */
    | TakeWhileStep(tp: Data -> bool, includeFailure: bool, ttail: Stream, passOn: bool)
      /** The head continuation of Cons.dropWhile; it may return `this`. */
    | DropWhileStep(dp: Data -> bool, dhead: IO, dtail: Stream)
      /** The head continuation of Cons.flatMap. */
    | FlatMapStep(mf: Data -> Stream, mtail: Stream)

  /** The `Fn2<T, IO<R>, IO<R>>` given to the effectful foldRight. */
  datatype RStep =
      /** `(t, ior) -> ior.map(r -> f.ap(t, r))`, built by foldRight(R z, f). */
    | LiftStep(f: (Data, Data) -> Data)
      /** `(elem, searchMore) -> p.ap(elem) ? Pure(true) : searchMore`. */
    | ExistsStep(ep: Data -> bool)
      /** `(elem, searchMore) -> p.ap(elem) ? searchMore : Pure(false)`. */
    | ForallStep(ap: Data -> bool)

  /** The `Fn2` given to collectRight and collectLeft: append and reverse both
      use `Pure(SCons(elem, Defer(acc)))`. */
  datatype Collector = Restack

  /** A stream-to-stream conversion `s -> s.op(...)`. */
  datatype Op =
    | TakeOp(tn: int)
    | DropOp(dn: int)
    | TakeWhileOp(wp: Data -> bool, winclude: bool, wpassOn: bool)
    | DropWhileOp(dwp: Data -> bool)
    | FilterOp(filt: Data -> bool)
    | MapOp(mapf: Data -> Data)
    | MapEvalOp(evalf: Data -> IO)
    | FlatMapOp(flat: Data -> Stream)

  /** A user callback sees the data inside a value. Java's types guarantee the
      value is data; the model gives `Unit` otherwise. */
  function AsData(v: Val): Data {
    if v.D? then v.d else Unit
  }

  /** The stream inside a value (`Nil` for a value Java's types rule out). */
  function AsStream(v: Val): Stream {
    if v.StreamV? then v.s else Nil
  }
}

/**
  Stream.java: constructors, the structural combinators (each a rewrite of the
  stream tree that runs nothing) and the folds and collects (each builds the
  `IO` that traverses the stream when it is run). The behaviour of the
  library's own lambdas, once an evaluator calls them, is in module Closures.
 */
module Streams {
  import opened Algebra
  import Effects

  /** `Lazy(streamEval)`: `Defer(IO(streamEval))`. */
  function Lazy(t: Thunk): Stream {
    Defer(Delay(t))
  }

  /** The static `Cons(T head, tail)`: `SCons(Pure(head), tail)`. */
  function ConsValue(d: Data, tail: Stream): Stream {
    Cons(PureData(d), tail)
  }

  /** `IO::Pure` on an element value. */
  function PureData(d: Data): IO {
    Pure(D(d))
  }

  /** The identity used by `eval`. */
  function SameIO(io: IO): IO {
    io
  }

  /** `f` applied to every element of `list`, in order. */
  function MapHeads<M>(list: seq<M>, f: M -> IO): seq<IO> {
    seq(|list|, k requires 0 <= k < |list| => f(list[k]))
  }

  /** The stream fromList builds: one `Cons` per head, in list order. */
  function Chain(hs: seq<IO>): Stream {
    if |hs| == 0 then Nil else Cons(hs[0], Chain(hs[1..]))
  }

  /** `fromList(list, f)`: walks the list from the back, consing each mapped
      element onto the stream built so far. */
  method FromList<M>(list: seq<M>, f: M -> IO) returns (s: Stream)
    ensures s == Chain(MapHeads(list, f))
  {
    s := Nil;
    var i := |list|;
    while i > 0
      invariant 0 <= i <= |list|
      invariant s == Chain(MapHeads(list[i..], f))
    {
      i := i - 1;
      assert MapHeads(list[i..], f)[1..] == MapHeads(list[i + 1..], f);
      s := Cons(f(list[i]), s);
    }
    assert list[0..] == list;
  }

  /** `of(elements)`: `fromList(elements, IO::Pure)`. */
  method Of(xs: seq<Data>) returns (s: Stream)
    ensures s == Chain(MapHeads(xs, PureData))
  {
    s := FromList(xs, PureData);
  }

  /** `eval(ios)`: `fromList(ios, identity)`; the heads are the given effects. */
  method Eval(ios: seq<IO>) returns (s: Stream)
    ensures s == Chain(ios)
  {
    s := FromList(ios, SameIO);
    assert MapHeads(ios, SameIO) == ios;
  }

  /** `unfold(z, f)`: defers even the first step. */
  function Unfold(z: Data, f: Data -> Option<(Data, Data)>): Stream {
    Lazy(UnfoldT(z, f))
  }

  /** `unfoldEager(z, f)`: takes one step now and defers the rest. */
  function UnfoldEager(z: Data, f: Data -> Option<(Data, Data)>): Stream {
    match f(z)
    case Some(p) => Cons(PureData(p.0), Lazy(UnfoldT(p.1, f)))
    case None => Nil
  }

  /** `lazyTransform(conv)`: a `Cons` is converted only when the result is
      forced; anything else is converted now. */
  function LazyTransform(s: Stream, op: Op): Stream
    decreases s, 2
  {
    if s.Cons? then Lazy(TransformT(op, s)) else Transform(op, s)
  }

  /** `conv.apply(s)` for the conversion `op`. */
  function Transform(op: Op, s: Stream): Stream
    decreases s, 1
  {
    match op
    case TakeOp(n) => Take(s, n)
    case DropOp(n) => Drop(s, n)
    case TakeWhileOp(p, inc, passOn) => TakeWhileVia(s, p, inc, passOn)
    case DropWhileOp(p) => DropWhile(s, p)
    case FilterOp(p) => Filter(s, p)
    case MapOp(f) => Map(s, f)
    case MapEvalOp(f) => MapEval(s, f)
    case FlatMapOp(f) => FlatMap(s, f)
  }

  function Take(s: Stream, n: int): Stream
    decreases s, 0
  {
    match s
    case Nil => Nil
    case Cons(h, t) => if n == 0 then Nil else Cons(h, LazyTransform(t, TakeOp(n - 1)))
    case Defer(io) => Defer(Effects.Map(io, Convert(TakeOp(n))))
  }

  function Drop(s: Stream, n: int): Stream
    decreases s, 0
  {
    match s
    case Nil => Nil
    case Cons(_, t) => if n == 0 then s else LazyTransform(t, DropOp(n - 1))
    case Defer(io) => Defer(Effects.Map(io, Convert(DropOp(n))))
  }

  function Map(s: Stream, f: Data -> Data): Stream
    decreases s, 0
  {
    match s
    case Nil => Nil
    case Cons(h, t) => Cons(Effects.Map(h, UserFn(f)), LazyTransform(t, MapOp(f)))
    case Defer(io) => Defer(Effects.Map(io, Convert(MapOp(f))))
  }

  function MapEval(s: Stream, f: Data -> IO): Stream
    decreases s, 0
  {
    match s
    case Nil => Nil
    case Cons(h, t) => Cons(Bind(h, UserBind(f)), LazyTransform(t, MapEvalOp(f)))
    case Defer(io) => Defer(Effects.Map(io, Convert(MapEvalOp(f))))
  }

  /** `takeWhile(p, includeFailure)` as written: after an element that
      passes, the rest is taken with `takeWhile(p)`, so only a failing first
      element is ever included. */
  function TakeWhile(s: Stream, p: Data -> bool, includeFailure: bool): Stream {
    TakeWhileVia(s, p, includeFailure, false)
  }

  /** `takeWhile(p, includeFailure)` with `includeFailure` passed on to the
      rest, so that the first failing element is included wherever it is. */
  function TakeWhileFixed(s: Stream, p: Data -> bool, includeFailure: bool): Stream {
    TakeWhileVia(s, p, includeFailure, true)
  }

  /** The Cons, Defer and Nil overrides of takeWhile, for either behaviour. */
  function TakeWhileVia(s: Stream, p: Data -> bool, includeFailure: bool, passOn: bool): Stream {
    match s
    case Nil => Nil
    case Cons(h, t) => Defer(Effects.Map(h, TakeWhileStep(p, includeFailure, t, passOn)))
    case Defer(io) => Defer(Effects.Map(io, Convert(TakeWhileOp(p, includeFailure, passOn))))
  }

  function DropWhile(s: Stream, p: Data -> bool): Stream {
    match s
    case Nil => Nil
    case Cons(h, t) => Defer(Effects.Map(h, DropWhileStep(p, h, t)))
    case Defer(io) => Defer(Effects.Map(io, Convert(DropWhileOp(p))))
  }

  function Filter(s: Stream, p: Data -> bool): Stream {
    match s
    case Nil => Nil
    case Cons(h, t) => Defer(Effects.Map(h, FilterStep(p, t)))
    case Defer(io) => Defer(Effects.Map(io, Convert(FilterOp(p))))
  }

  function FlatMap(s: Stream, f: Data -> Stream): Stream {
    match s
    case Nil => Nil
    case Cons(h, t) => Defer(Effects.Map(h, FlatMapStep(f, t)))
    case Defer(io) => Defer(Effects.Map(io, Convert(FlatMapOp(f))))
  }

  /** `head()`: `take(1)`. */
  function Head(s: Stream): Stream {
    Take(s, 1)
  }

  /** `tail()`: `drop(1)`. */
  function Tail(s: Stream): Stream {
    Drop(s, 1)
  }

  /** `takeWhile(p)`: `takeWhile(p, false)`. */
  function TakeWhileExcl(s: Stream, p: Data -> bool): Stream {
    TakeWhile(s, p, false)
  }

  function Append(s: Stream, other: Stream): Stream {
    if other.Nil? then s
    else if s.Nil? then other
    else Defer(CollectRight(s, Pure(StreamV(other)), Restack))
  }

  function Reverse(s: Stream): Stream {
    Defer(CollectLeft(s, Pure(StreamV(Nil)), Restack))
  }

  /** collectRight: like foldRight, but hands `f` the unevaluated head. */
  function CollectRight(s: Stream, z: IO, f: Collector): IO {
    match s
    case Nil => z
    case Cons(h, t) => Suspend(CollectRightR(f, h, t, z))
    case Defer(io) => Bind(io, CollectRightS(f, z))
  }

  /** collectLeft: like foldLeft, but hands `f` the unevaluated head. */
  function CollectLeft(s: Stream, z: IO, f: Collector): IO {
    match s
    case Nil => z
    case Cons(h, t) => CollectLeft(t, Suspend(CollectLeftR(f, z, h)), f)
    case Defer(io) => Bind(io, CollectLeftS(f, z))
  }

  /** The effectful `foldRight(IO<R> z, f)`. */
  function FoldRight(s: Stream, z: IO, f: RStep): IO {
    match s
    case Nil => z
    case Cons(h, t) => Bind(h, FoldRightK(f, t, z))
    case Defer(io) => Bind(io, FoldRightS(f, z))
  }

  /** `foldRight(R z, f)`: the effectful fold with `(t, ior) -> ior.map(r -> f.ap(t, r))`. */
  function FoldRightValue(s: Stream, z: Data, f: (Data, Data) -> Data): IO {
    FoldRight(s, Pure(D(z)), LiftStep(f))
  }

  function FoldLeft(s: Stream, z: Data, f: (Data, Data) -> Data): IO {
    match s
    case Nil => Pure(D(z))
    case Cons(h, t) => Bind(h, FoldLeftK(f, t, z))
    case Defer(io) => Bind(io, FoldLeftS(f, z))
  }

  function Exists(s: Stream, p: Data -> bool): IO {
    FoldRight(s, Pure(D(Bool(false))), ExistsStep(p))
  }

  function Forall(s: Stream, p: Data -> bool): IO {
    FoldRight(s, Pure(D(Bool(true))), ForallStep(p))
  }

  /** The elements of an `LList` value. */
  function Items(l: Data): seq<Data> {
    if l.List? then l.items else []
  }

  /** `LList.prepend`: `l.prepend(el)`. */
  function Prepend(el: Data, l: Data): Data {
    List([el] + Items(l))
  }

  /** `LList::prepend` as a foldLeft step: `(acc, el) -> acc.prepend(el)`. */
  function PrependTo(acc: Data, el: Data): Data {
    Prepend(el, acc)
  }

  /** `toLList()`: `foldRight(LNil, (el, l) -> l.prepend(el))`. */
  function ToLList(s: Stream): IO {
    FoldRightValue(s, List([]), Prepend)
  }

  function LazyHead(s: Stream): IO {
    match s
    case Nil => Pure(HeadIO(None))
    case Cons(h, _) => Pure(HeadIO(Some(h)))
    case Defer(io) => Bind(io, LazyHeadK)
  }

  function HeadOption(s: Stream): IO {
    match s
    case Nil => Pure(Found(None))
    case Cons(h, _) => Effects.Map(h, SomeOf)
    case Defer(io) => Bind(io, HeadOptionK)
  }
}

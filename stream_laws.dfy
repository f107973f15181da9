/**
  The structural combinators of Stream.java: what the rewritten stream
  unrolls to, in terms of what the original unrolls to. None of them runs an
  element; each `Defer` of the original is still forced, once, where the
  rewritten stream reaches it.
 */
module StreamLaws {
  import opened Algebra
  import opened Interp
  import Closures
  import Effects
  import Streams
  import IOLaws
  import opened Spines

  /** take(n): side effects pass through, the first `n` elements are kept and
      unrolling stops at the `n+1`-th element without forcing anything after
      it; with `n < 0` the count never reaches zero. */
  function TakeSteps(st: seq<Step>, n: int): seq<Step>
    decreases |st|
  {
    if |st| == 0 then []
    else match st[0]
      case Ev(_) => [st[0]] + TakeSteps(st[1..], n)
      case El(_) => if n == 0 then [] else [st[0]] + TakeSteps(st[1..], n - 1)
  }

  /** drop(n): side effects pass through, the first `n` elements are skipped
      unevaluated, then the rest is unrolled as it was. */
  function DropSteps(st: seq<Step>, n: int): seq<Step>
    decreases |st|
  {
    if |st| == 0 then []
    else match st[0]
      case Ev(_) => [st[0]] + DropSteps(st[1..], n)
      case El(_) => if n == 0 then st else DropSteps(st[1..], n - 1)
  }

  /** Every element head `h` becomes `h.flatMap(k)`. */
  function BindEach(st: seq<Step>, k: Kont): seq<Step>
    decreases |st|
  {
    if |st| == 0 then []
    else match st[0]
      case Ev(_) => [st[0]] + BindEach(st[1..], k)
      case El(h) => [El(Bind(h, k))] + BindEach(st[1..], k)
  }

  /** The first `n` elements (all of them when `n` is too large or negative). */
  function Prefix<T>(xs: seq<T>, n: int): seq<T> {
    if 0 <= n <= |xs| then xs[..n] else xs
  }

  /** What is left after dropping `n` elements (nothing when `n` is too large
      or negative). */
  function Suffix<T>(xs: seq<T>, n: int): seq<T> {
    if 0 <= n <= |xs| then xs[n..] else []
  }

  function Reversed<T>(xs: seq<T>): seq<T> {
    if |xs| == 0 then [] else Reversed(xs[1..]) + [xs[0]]
  }

  lemma {:induction false} TakeStepsAfterEvs(l: seq<EffectId>, st: seq<Step>, n: int)
    ensures TakeSteps(Evs(l) + st, n) == Evs(l) + TakeSteps(st, n)
    decreases |l|
  {
    if |l| == 0 {
      assert Evs(l) + st == st;
    } else {
      EvsStep(l, st);
      TakeStepsAfterEvs(l[1..], st, n);
    }
  }

  lemma {:induction false} DropStepsAfterEvs(l: seq<EffectId>, st: seq<Step>, n: int)
    ensures DropSteps(Evs(l) + st, n) == Evs(l) + DropSteps(st, n)
    decreases |l|
  {
    if |l| == 0 {
      assert Evs(l) + st == st;
    } else {
      EvsStep(l, st);
      assert DropSteps(Evs(l) + st, n) == [Ev(l[0])] + DropSteps(Evs(l[1..]) + st, n);
      DropStepsAfterEvs(l[1..], st, n);
      assert Evs(l) == [Ev(l[0])] + Evs(l[1..]);
    }
  }

  lemma {:induction false} BindEachAfterEvs(l: seq<EffectId>, st: seq<Step>, k: Kont)
    ensures BindEach(Evs(l) + st, k) == Evs(l) + BindEach(st, k)
    decreases |l|
  {
    if |l| == 0 {
      assert Evs(l) + st == st;
    } else {
      EvsStep(l, st);
      BindEachAfterEvs(l[1..], st, k);
    }
  }

  /** take(n) keeps the first `n` heads, in order and unevaluated. */
  lemma {:induction false} TakeStepsHeads(st: seq<Step>, n: int)
    ensures Heads(TakeSteps(st, n)) == Prefix(Heads(st), n)
    decreases |st|
  {
    if |st| > 0 {
      TakeStepsHeads(st[1..], if st[0].El? then n - 1 else n);
      if st[0].El? && n != 0 {
        HeadsConcat([st[0]], TakeSteps(st[1..], n - 1));
      } else if st[0].Ev? {
        HeadsConcat([st[0]], TakeSteps(st[1..], n));
      }
    }
  }

  /** drop(n) keeps the heads after the first `n`, in order and unevaluated. */
  lemma {:induction false} DropStepsHeads(st: seq<Step>, n: int)
    ensures Heads(DropSteps(st, n)) == Suffix(Heads(st), n)
    decreases |st|
  {
    if |st| > 0 {
      DropStepsHeads(st[1..], if st[0].El? then n - 1 else n);
      if st[0].Ev? {
        HeadsConcat([st[0]], DropSteps(st[1..], n));
      }
    }
  }

  /** take with a negative count keeps the whole stream. */
  lemma {:induction false} TakeNegativeKeepsAll(st: seq<Step>, n: int)
    requires n < 0
    ensures TakeSteps(st, n) == st
    decreases |st|
  {
    if |st| > 0 {
      TakeNegativeKeepsAll(st[1..], if st[0].El? then n - 1 else n);
    }
  }

  /** drop with a negative count drops every element, yet still forces every
      `Defer`. */
  lemma {:induction false} DropNegativeDropsAll(st: seq<Step>, n: int)
    requires n < 0
    ensures DropSteps(st, n) == EvsOnly(st)
    decreases |st|
  {
    if |st| > 0 {
      DropNegativeDropsAll(st[1..], if st[0].El? then n - 1 else n);
    }
  }

  /** take(n) and head(): the rewritten stream unrolls to `TakeSteps`. */
  lemma {:induction false} TakeUnrolls(s: Stream, fuel: nat, st: seq<Step>, n: int)
    requires Spine(s, fuel) == Some(st)
    ensures Unrolls(Streams.Take(s, n), TakeSteps(st, n))
    decreases fuel, s
  {
    match s {
      case Nil =>
        UnrollsNil([]);
      case Cons(h, t) =>
        var rest := Spine(t, fuel).value;
        assert st[1..] == rest;
        if n == 0 {
          UnrollsNil([]);
        } else {
          TakeUnrolls(t, fuel, rest, n - 1);
          LazyTransformUnrolls(t, TakeOp(n - 1), TakeSteps(rest, n - 1));
          UnrollsCons(h, Streams.LazyTransform(t, TakeOp(n - 1)), TakeSteps(rest, n - 1));
        }
      case Defer(io) =>
        UnrollsDeferInverse(io, fuel, st);
        var r := Run(io, fuel);
        var rest := Spine(r.out.v.s, fuel - 1).value;
        TakeUnrolls(r.out.v.s, fuel - 1, rest, n);
        UnrollsDeferMap(io, Convert(TakeOp(n)), r.out.v, r.log, Streams.Take(r.out.v.s, n), TakeSteps(rest, n));
        TakeStepsAfterEvs(r.log, rest, n);
    }
  }

  /** drop(n) and tail(): the rewritten stream unrolls to `DropSteps`. */
  lemma {:induction false} DropUnrolls(s: Stream, fuel: nat, st: seq<Step>, n: int)
    requires Spine(s, fuel) == Some(st)
    ensures Unrolls(Streams.Drop(s, n), DropSteps(st, n))
    decreases fuel, s
  {
    match s {
      case Nil =>
        UnrollsNil([]);
      case Cons(h, t) =>
        var rest := Spine(t, fuel).value;
        assert st[1..] == rest;
        if n == 0 {
          SpineUnrolls(s, fuel);
        } else {
          DropUnrolls(t, fuel, rest, n - 1);
          LazyTransformUnrolls(t, DropOp(n - 1), DropSteps(rest, n - 1));
        }
      case Defer(io) =>
        UnrollsDeferInverse(io, fuel, st);
        var r := Run(io, fuel);
        var rest := Spine(r.out.v.s, fuel - 1).value;
        DropUnrolls(r.out.v.s, fuel - 1, rest, n);
        UnrollsDeferMap(io, Convert(DropOp(n)), r.out.v, r.log, Streams.Drop(r.out.v.s, n), DropSteps(rest, n));
        DropStepsAfterEvs(r.log, rest, n);
    }
  }

  /** head() keeps the first head only and tail() skips it. */
  lemma {:induction false} HeadTailUnroll(s: Stream, fuel: nat, st: seq<Step>)
    requires Spine(s, fuel) == Some(st)
    ensures Unrolls(Streams.Head(s), TakeSteps(st, 1))
    ensures Heads(TakeSteps(st, 1)) == Prefix(Heads(st), 1)
    ensures Unrolls(Streams.Tail(s), DropSteps(st, 1))
    ensures Heads(DropSteps(st, 1)) == Suffix(Heads(st), 1)
  {
    TakeUnrolls(s, fuel, st, 1);
    TakeStepsHeads(st, 1);
    DropUnrolls(s, fuel, st, 1);
    DropStepsHeads(st, 1);
  }

  /** `Effects.Map` with a user function is a `Bind` on `AndThenPure`. */
  lemma {:induction false} MapUnrolls(s: Stream, fuel: nat, st: seq<Step>, f: Data -> Data)
    requires Spine(s, fuel) == Some(st)
    ensures Unrolls(Streams.Map(s, f), BindEach(st, AndThenPure(UserFn(f))))
    decreases fuel, s
  {
    var k := AndThenPure(UserFn(f));
    match s {
      case Nil =>
        UnrollsNil([]);
      case Cons(h, t) =>
        var rest := Spine(t, fuel).value;
        assert st[1..] == rest;
        MapUnrolls(t, fuel, rest, f);
        LazyTransformUnrolls(t, MapOp(f), BindEach(rest, k));
        UnrollsCons(Bind(h, k), Streams.LazyTransform(t, MapOp(f)), BindEach(rest, k));
      case Defer(io) =>
        UnrollsDeferInverse(io, fuel, st);
        var r := Run(io, fuel);
        var rest := Spine(r.out.v.s, fuel - 1).value;
        MapUnrolls(r.out.v.s, fuel - 1, rest, f);
        UnrollsDeferMap(io, Convert(MapOp(f)), r.out.v, r.log, Streams.Map(r.out.v.s, f), BindEach(rest, k));
        BindEachAfterEvs(r.log, rest, k);
    }
  }

  /** mapEval(f): every head `h` becomes `h.flatMap(f)`, not yet run. */
  lemma {:induction false} MapEvalUnrolls(s: Stream, fuel: nat, st: seq<Step>, f: Data -> IO)
    requires Spine(s, fuel) == Some(st)
    ensures Unrolls(Streams.MapEval(s, f), BindEach(st, UserBind(f)))
    decreases fuel, s
  {
    var k := UserBind(f);
    match s {
      case Nil =>
        UnrollsNil([]);
      case Cons(h, t) =>
        var rest := Spine(t, fuel).value;
        assert st[1..] == rest;
        MapEvalUnrolls(t, fuel, rest, f);
        LazyTransformUnrolls(t, MapEvalOp(f), BindEach(rest, k));
        UnrollsCons(Bind(h, k), Streams.LazyTransform(t, MapEvalOp(f)), BindEach(rest, k));
      case Defer(io) =>
        UnrollsDeferInverse(io, fuel, st);
        var r := Run(io, fuel);
        var rest := Spine(r.out.v.s, fuel - 1).value;
        MapEvalUnrolls(r.out.v.s, fuel - 1, rest, f);
        UnrollsDeferMap(io, Convert(MapEvalOp(f)), r.out.v, r.log, Streams.MapEval(r.out.v.s, f), BindEach(rest, k));
        BindEachAfterEvs(r.log, rest, k);
    }
  }

  /** A head of a mapped stream yields the function of what the original head
      yields, with the same side effects. */
  lemma {:induction false} BindEachHeads(st: seq<Step>, k: Kont, i: nat)
    requires i < |Heads(st)|
    ensures |Heads(BindEach(st, k))| == |Heads(st)|
    ensures Heads(BindEach(st, k))[i] == Bind(Heads(st)[i], k)
    decreases |st|
  {
    BindEachHeadsAll(st, k);
  }

  lemma {:induction false} BindEachHeadsAll(st: seq<Step>, k: Kont)
    ensures |Heads(BindEach(st, k))| == |Heads(st)|
    ensures forall i :: 0 <= i < |Heads(st)| ==> Heads(BindEach(st, k))[i] == Bind(Heads(st)[i], k)
    decreases |st|
  {
    if |st| > 0 {
      BindEachHeadsAll(st[1..], k);
      var first := if st[0].El? then [El(Bind(st[0].head, k))] else [st[0]];
      HeadsConcat(first, BindEach(st[1..], k));
    }
  }

  /** collectRight with the restacking collector rebuilds `s` followed by
      the stream `z` yields: the heads of `s` stay unevaluated. */
  lemma {:induction false} CollectRightUnrolls(s: Stream, fuel: nat, st: seq<Step>,
                                                z: IO, other: Stream, lz: seq<EffectId>, st2: seq<Step>)
    requires Spine(s, fuel) == Some(st)
    requires Yields(z, Ok(StreamV(other)), lz) && Unrolls(other, st2)
    ensures Unrolls(Defer(Streams.CollectRight(s, z, Restack)), st + (Evs(lz) + st2))
    decreases fuel, s
  {
    var tailSteps := Evs(lz) + st2;
    match s {
      case Nil =>
        UnrollsDefer(z, other, lz, st2);
        EmptyAppend(st, tailSteps);
      case Cons(h, t) =>
        var rest := Spine(t, fuel).value;
        CollectRightUnrolls(t, fuel, rest, z, other, lz, st2);
        var inner := Defer(Streams.CollectRight(t, z, Restack));
        UnrollsCons(h, inner, rest + tailSteps);
        var built := Cons(h, inner);
        IOLaws.PureYields(StreamV(built), Ok(StreamV(built)), []);
        IOLaws.SuspendYields(CollectRightR(Restack, h, t, z), Ok(StreamV(built)), []);
        UnrollsDefer(Suspend(CollectRightR(Restack, h, t, z)), built, [], [El(h)] + (rest + tailSteps));
        NoEvs([El(h)] + (rest + tailSteps));
        AppendAssoc([El(h)], rest, tailSteps);
      case Defer(io) =>
        UnrollsDeferInverse(io, fuel, st);
        var r := Run(io, fuel);
        var rest := Spine(r.out.v.s, fuel - 1).value;
        CollectRightUnrolls(r.out.v.s, fuel - 1, rest, z, other, lz, st2);
        UnrollsDeferBind(io, CollectRightS(Restack, z), r.out.v.s, r.log, rest + tailSteps);
        AppendAssoc(Evs(r.log), rest, tailSteps);
    }
  }

  /** append(other): the steps of `this`, then those of `other`. */
  lemma {:induction false} AppendUnrolls(s: Stream, st1: seq<Step>, other: Stream, st2: seq<Step>)
    requires Unrolls(s, st1) && Unrolls(other, st2)
    ensures Unrolls(Streams.Append(s, other), st1 + st2)
  {
    if other.Nil? {
      UnrollsNil(st2);
      assert st1 + st2 == st1;
    } else if s.Nil? {
      UnrollsNil(st1);
      assert st1 + st2 == st2;
    } else {
      var fuel: nat :| Spine(s, fuel) == Some(st1);
      IOLaws.PureYields(StreamV(other), Ok(StreamV(other)), []);
      CollectRightUnrolls(s, fuel, st1, Pure(StreamV(other)), other, [], st2);
      NoEvs(st2);
    }
  }

  lemma {:induction false} EvsOnlyAfterEvs(l: seq<EffectId>, st: seq<Step>)
    ensures EvsOnly(Evs(l) + st) == Evs(l) + EvsOnly(st)
    ensures RevEls(Evs(l) + st) == RevEls(st)
    decreases |l|
  {
    if |l| == 0 {
      assert Evs(l) + st == st;
    } else {
      EvsStep(l, st);
      EvsOnlyAfterEvs(l[1..], st);
    }
  }

  /** One collectLeft step: the accumulator `z` becomes one that yields
      `SCons(h, Defer(z))`. */
  lemma {:induction false} RestackUnrolls(h: IO, z: IO, acc: seq<Step>)
    requires Unrolls(Defer(z), acc)
    ensures Unrolls(Defer(Suspend(CollectLeftR(Restack, z, h))), [El(h)] + acc)
  {
    var built := Cons(h, Defer(z));
    UnrollsCons(h, Defer(z), acc);
    IOLaws.PureYields(StreamV(built), Ok(StreamV(built)), []);
    IOLaws.SuspendYields(CollectLeftR(Restack, z, h), Ok(StreamV(built)), []);
    UnrollsDefer(Suspend(CollectLeftR(Restack, z, h)), built, [], [El(h)] + acc);
    NoEvs([El(h)] + acc);
  }

  lemma {:induction false} ReverseConsSteps(h: IO, rest: seq<Step>, acc: seq<Step>)
    ensures EvsOnly(rest) + RevEls(rest) + ([El(h)] + acc) ==
            EvsOnly([El(h)] + rest) + RevEls([El(h)] + rest) + acc
  {
    var o, r := EvsOnly(rest), RevEls(rest);
    SplitFirst([El(h)], rest);
    EmptyAppend([], o);
    calc {
      EvsOnly([El(h)] + rest) + RevEls([El(h)] + rest) + acc;
      o + (r + [El(h)]) + acc;
      { AppendAssoc(o, r, [El(h)]); }
      (o + r) + [El(h)] + acc;
      { AppendAssoc(o + r, [El(h)], acc); }
      o + r + ([El(h)] + acc);
    }
  }

  /** collectLeft with the restacking collector pushes every head, still
      unevaluated, in front of what `z` yields: all of `s` is forced first. */
  lemma {:induction false} CollectLeftUnrolls(s: Stream, fuel: nat, st: seq<Step>, z: IO, acc: seq<Step>)
    requires Spine(s, fuel) == Some(st)
    requires Unrolls(Defer(z), acc)
    ensures Unrolls(Defer(Streams.CollectLeft(s, z, Restack)), EvsOnly(st) + RevEls(st) + acc)
    decreases fuel, s
  {
    match s {
      case Nil =>
        assert EvsOnly(st) + RevEls(st) == [];
        EmptyAppend(EvsOnly(st) + RevEls(st), acc);
      case Cons(h, t) =>
        var rest := Spine(t, fuel).value;
        RestackUnrolls(h, z, acc);
        CollectLeftUnrolls(t, fuel, rest, Suspend(CollectLeftR(Restack, z, h)), [El(h)] + acc);
        ReverseConsSteps(h, rest, acc);
      case Defer(io) =>
        UnrollsDeferInverse(io, fuel, st);
        var r := Run(io, fuel);
        var rest := Spine(r.out.v.s, fuel - 1).value;
        CollectLeftUnrolls(r.out.v.s, fuel - 1, rest, z, acc);
        UnrollsDeferBind(io, CollectLeftS(Restack, z), r.out.v.s, r.log, EvsOnly(rest) + RevEls(rest) + acc);
        EvsOnlyAfterEvs(r.log, rest);
        AppendAssoc(Evs(r.log), EvsOnly(rest), RevEls(rest));
        AppendAssoc(Evs(r.log), EvsOnly(rest) + RevEls(rest), acc);
    }
  }

  /** reverse(): forcing the result forces the whole of `s` (all its side
      effects first), then exposes its heads in reverse order, unevaluated. */
  lemma {:induction false} ReverseUnrolls(s: Stream, fuel: nat, st: seq<Step>)
    requires Spine(s, fuel) == Some(st)
    ensures Unrolls(Streams.Reverse(s), EvsOnly(st) + RevEls(st))
    ensures Heads(EvsOnly(st) + RevEls(st)) == Reversed(Heads(st))
  {
    UnrollsNil([]);
    IOLaws.PureYields(StreamV(Nil), Ok(StreamV(Nil)), []);
    UnrollsDefer(Pure(StreamV(Nil)), Nil, [], []);
    NoEvs([]);
    CollectLeftUnrolls(s, fuel, st, Pure(StreamV(Nil)), []);
    assert EvsOnly(st) + RevEls(st) + [] == EvsOnly(st) + RevEls(st);
    ReversedHeads(st);
  }

  lemma {:induction false} ReversedHeads(st: seq<Step>)
    ensures Heads(EvsOnly(st)) == []
    ensures Heads(RevEls(st)) == Reversed(Heads(st))
    ensures Heads(EvsOnly(st) + RevEls(st)) == Reversed(Heads(st))
    decreases |st|
  {
    if |st| > 0 {
      ReversedHeads(st[1..]);
      var first := if st[0].Ev? then [st[0]] else [];
      HeadsConcat(first, EvsOnly(st[1..]));
      var last := if st[0].El? then [st[0]] else [];
      HeadsConcat(RevEls(st[1..]), last);
      var hs := Heads(st[1..]);
      if st[0].El? {
        assert [st[0]][1..] == [];
        assert Heads(last) == [st[0].head];
        assert Heads(st) == [st[0].head] + hs;
        assert ([st[0].head] + hs)[1..] == hs;
        assert Reversed(Heads(st)) == Reversed(hs) + [st[0].head];
        assert RevEls(st) == RevEls(st[1..]) + last;
      } else {
        assert RevEls(st) == RevEls(st[1..]) + [];
        assert Heads(st) == [] + hs;
        assert Heads(st) == hs;
        assert Heads(last) == [];
        assert Heads(RevEls(st)) == Heads(RevEls(st[1..]));
      }
    }
    HeadsConcat(EvsOnly(st), RevEls(st));
  }

  /** The first `n` values of `unfold(z, f)`: `f` is applied to the seed
      until it gives no pair or `n` values have been produced. */
  function UnfoldValues(z: Data, f: Data -> Option<(Data, Data)>, n: nat): seq<Data>
    decreases n
  {
    if n == 0 then []
    else match f(z)
      case None => []
      case Some(p) => [p.0] + UnfoldValues(p.1, f, n - 1)
  }

  /** unfold(z, f).take(n): a bounded prefix of the (possibly infinite)
      unfolded stream, with pure heads and no side effects. The unfold
      function is called once per element taken and, whenever the stream
      has not ended before, once more: `take(0)` of the `Defer` that follows
      the n-th element still runs its thunk. */
  lemma {:induction false} UnfoldTakeUnrolls(z: Data, f: Data -> Option<(Data, Data)>, n: nat)
    ensures Unrolls(Streams.Take(Streams.Unfold(z, f), n),
                    Els(Streams.MapHeads(UnfoldValues(z, f, n), Streams.PureData)))
    decreases n
  {
    var thunk := UnfoldT(z, f);
    var eager := Streams.UnfoldEager(z, f);
    IOLaws.ForceYields(thunk);
    var vals := UnfoldValues(z, f, n);
    var hs := Streams.MapHeads(vals, Streams.PureData);
    var taken := Streams.Take(eager, n);
    if n == 0 || f(z).None? {
      assert taken == Nil;
      UnrollsNil([]);
      UnrollsDeferMap(Delay(thunk), Convert(TakeOp(n)), StreamV(eager), [], taken, []);
      assert Els(hs) == [];
    } else {
      var p := f(z).value;
      UnfoldTakeUnrolls(p.1, f, n - 1);
      var restVals := UnfoldValues(p.1, f, n - 1);
      var restHs := Streams.MapHeads(restVals, Streams.PureData);
      var next := Streams.Unfold(p.1, f);
      assert Streams.LazyTransform(next, TakeOp(n - 1)) == Streams.Take(next, n - 1);
      UnrollsCons(Streams.PureData(p.0), Streams.Take(next, n - 1), Els(restHs));
      assert hs == [Streams.PureData(p.0)] + restHs;
      assert hs[1..] == restHs;
      UnrollsDeferMap(Delay(thunk), Convert(TakeOp(n)), StreamV(eager), [], taken, Els(hs));
    }
    NoEvs(Els(hs));
  }

  /** take(n) on a stream built by of/eval keeps the first `n` heads (all
      of them when `n` is negative or at least the length). */
  lemma {:induction false} TakeEls(hs: seq<IO>, n: int)
    ensures TakeSteps(Els(hs), n) == Els(Prefix(hs, n))
    decreases |hs|
  {
    if |hs| > 0 {
      assert Els(hs)[0] == El(hs[0]);
      assert Els(hs)[1..] == Els(hs[1..]);
      if n != 0 {
        TakeEls(hs[1..], n - 1);
        if 0 < n <= |hs| {
          assert hs[..n] == [hs[0]] + hs[1..][..n - 1];
        } else {
          assert hs == [hs[0]] + hs[1..];
        }
      }
    }
  }

  /** drop(n) on a stream built by of/eval skips the first `n` heads
      (everything when `n` is negative or above the length). */
  lemma {:induction false} DropEls(hs: seq<IO>, n: int)
    ensures DropSteps(Els(hs), n) == Els(Suffix(hs, n))
    decreases |hs|
  {
    if |hs| > 0 {
      assert Els(hs)[0] == El(hs[0]);
      assert Els(hs)[1..] == Els(hs[1..]);
      if n == 0 {
        assert hs[0..] == hs;
      } else {
        DropEls(hs[1..], n - 1);
        if 0 < n <= |hs| {
          assert hs[n..] == hs[1..][n - 1..];
        }
      }
    }
  }

  /** map/mapEval on a stream built by of/eval binds every head. */
  lemma {:induction false} BindEachEls(hs: seq<IO>, k: Kont)
    ensures BindEach(Els(hs), k) == Els(seq(|hs|, i requires 0 <= i < |hs| => Bind(hs[i], k)))
    decreases |hs|
  {
    if |hs| > 0 {
      BindEachEls(hs[1..], k);
      assert seq(|hs|, i requires 0 <= i < |hs| => Bind(hs[i], k))[1..]
          == seq(|hs| - 1, i requires 0 <= i < |hs| - 1 => Bind(hs[1..][i], k));
    }
  }

  /** The Nil overrides: every structural combinator gives `Nil`, the folds
      and collects give their seed, the head queries give an empty
      `Optional`, and `append` with an empty side gives the other side. */
  lemma {:induction false} NilAbsorbs(n: int, p: Data -> bool, inc: bool, passOn: bool, f: Data -> Data, g: Data -> IO,
                   m: Data -> Stream, z: IO, r: RStep, zd: Data, fl: (Data, Data) -> Data, other: Stream)
    ensures Streams.Take(Nil, n) == Nil && Streams.Drop(Nil, n) == Nil
    ensures Streams.TakeWhileVia(Nil, p, inc, passOn) == Nil && Streams.DropWhile(Nil, p) == Nil
    ensures Streams.Filter(Nil, p) == Nil && Streams.Map(Nil, f) == Nil
    ensures Streams.MapEval(Nil, g) == Nil && Streams.FlatMap(Nil, m) == Nil
    ensures Streams.FoldRight(Nil, z, r) == z && Streams.FoldLeft(Nil, zd, fl) == Pure(D(zd))
    ensures Streams.CollectRight(Nil, z, Restack) == z && Streams.CollectLeft(Nil, z, Restack) == z
    ensures Streams.LazyHead(Nil) == Pure(HeadIO(None)) && Streams.HeadOption(Nil) == Pure(Found(None))
    ensures Streams.Append(Nil, other) == other && Streams.Append(other, Nil) == other
  {
  }

  /** take(0) of a `Cons` is `Nil` and drop(0) is the very same stream. */
  lemma {:induction false} ZeroCounts(h: IO, t: Stream)
    ensures Streams.Take(Cons(h, t), 0) == Nil
    ensures Streams.Drop(Cons(h, t), 0) == Cons(h, t)
  {
  }
}

/**
  Worked examples from StreamTest.java, derived from the general laws. A
  user effect `IO(() -> { flag.set(true); return n; })` is `Flagged(n)`:
  a flag is set exactly when `n` appears in the side effects of a run.
 */
module Scenarios {
  import opened Algebra
  import opened Interp
  import Closures
  import Effects
  import Streams
  import IOLaws
  import opened Spines
  import StreamLaws
  import ElementLaws
  import FoldLaws

  /** `Pure(n)`. */
  function P(n: int): IO {
    Streams.PureData(Int(n))
  }

  /** A user effect that sets flag `n` and returns `n`. */
  function Flagged(n: nat): IO {
    Delay(Effect(n, Ok(D(Int(n)))))
  }

  /** Pure heads observe their values and run nothing. */
  function Quiet(xs: seq<Data>): seq<Observed> {
    seq(|xs|, i requires 0 <= i < |xs| => Observed(xs[i], []))
  }

  lemma {:induction false} QuietObserved(xs: seq<Data>)
    ensures Values(Quiet(xs)) == xs
    ensures Logs(Quiet(xs)) == []
    decreases |xs|
  {
    if |xs| > 0 {
      QuietObserved(xs[1..]);
      assert Quiet(xs)[1..] == Quiet(xs[1..]);
    }
  }

  lemma {:induction false} PuresYield(hs: seq<IO>, xs: seq<Data>)
    requires |hs| == |xs| && forall i :: 0 <= i < |xs| ==> hs[i] == Streams.PureData(xs[i])
    ensures HeadsYield(hs, Quiet(xs))
  {
    forall i | 0 <= i < |hs|
      ensures Yields(hs[i], Ok(D(Quiet(xs)[i].value)), Quiet(xs)[i].log)
    {
      IOLaws.PureYields(D(xs[i]), Ok(D(xs[i])), []);
    }
  }

  /** toLList on a stream that unrolls to the side effects `l`, then the
      heads `hs`, which yield `rs`. */
  lemma {:induction false} ToLListAfter(s: Stream, l: seq<EffectId>, hs: seq<IO>, rs: seq<Observed>)
    requires Unrolls(s, Evs(l) + Els(hs))
    requires HeadsYield(hs, rs)
    ensures Yields(Streams.ToLList(s), Ok(D(List(Values(rs)))), l + Logs(rs))
  {
    var st := Evs(l) + Els(hs);
    var f: nat :| Spine(s, f) == Some(st);
    HeadsAfterEvs(l, Els(hs));
    HeadsEls(hs);
    FoldLaws.ToLListYields(s, f, st, rs);
    ExpandAfterEvs(l, Els(hs), rs);
    FoldLaws.ExpandEls(hs, rs);
  }

  lemma {:induction false} ToLListEls(s: Stream, hs: seq<IO>, rs: seq<Observed>)
    requires Unrolls(s, Els(hs))
    requires HeadsYield(hs, rs)
    ensures Yields(Streams.ToLList(s), Ok(D(List(Values(rs)))), Logs(rs))
  {
    NoEvs(Els(hs));
    ToLListAfter(s, [], hs, rs);
  }

  lemma {:induction false} TakeU(s: Stream, st: seq<Step>, n: int)
    requires Unrolls(s, st)
    ensures Unrolls(Streams.Take(s, n), StreamLaws.TakeSteps(st, n))
  {
    var f: nat :| Spine(s, f) == Some(st);
    StreamLaws.TakeUnrolls(s, f, st, n);
  }

  lemma {:induction false} DropU(s: Stream, st: seq<Step>, n: int)
    requires Unrolls(s, st)
    ensures Unrolls(Streams.Drop(s, n), StreamLaws.DropSteps(st, n))
  {
    var f: nat :| Spine(s, f) == Some(st);
    StreamLaws.DropUnrolls(s, f, st, n);
  }

  /** `Stream(xs).toLList()` is the list `xs`, with nothing run
      (testToLList, testStreamOf). */
  lemma {:induction false} OfToLList(xs: seq<Data>)
    ensures Yields(Streams.ToLList(Streams.Chain(Streams.MapHeads(xs, Streams.PureData))), Ok(D(List(xs))), [])
  {
    var hs := Streams.MapHeads(xs, Streams.PureData);
    ChainUnrolls(hs);
    PuresYield(hs, xs);
    QuietObserved(xs);
    ToLListEls(Streams.Chain(hs), hs, Quiet(xs));
  }

  /** `Stream(xs).take(n).toLList()` is the first `n` values (testTake). */
  lemma {:induction false} OfTakeToLList(xs: seq<Data>, n: int)
    ensures Yields(Streams.ToLList(Streams.Take(Streams.Chain(Streams.MapHeads(xs, Streams.PureData)), n)),
                   Ok(D(List(StreamLaws.Prefix(xs, n)))), [])
  {
    var hs := Streams.MapHeads(xs, Streams.PureData);
    ChainUnrolls(hs);
    TakeU(Streams.Chain(hs), Els(hs), n);
    StreamLaws.TakeEls(hs, n);
    var ys := StreamLaws.Prefix(xs, n);
    PuresYield(StreamLaws.Prefix(hs, n), ys);
    QuietObserved(ys);
    ToLListEls(Streams.Take(Streams.Chain(hs), n), StreamLaws.Prefix(hs, n), Quiet(ys));
  }

  /** `Stream(xs).drop(n).toLList()` is the values after the first `n`
      (testDrop). */
  lemma {:induction false} OfDropToLList(xs: seq<Data>, n: int)
    ensures Yields(Streams.ToLList(Streams.Drop(Streams.Chain(Streams.MapHeads(xs, Streams.PureData)), n)),
                   Ok(D(List(StreamLaws.Suffix(xs, n)))), [])
  {
    var hs := Streams.MapHeads(xs, Streams.PureData);
    ChainUnrolls(hs);
    DropU(Streams.Chain(hs), Els(hs), n);
    StreamLaws.DropEls(hs, n);
    var ys := StreamLaws.Suffix(xs, n);
    PuresYield(StreamLaws.Suffix(hs, n), ys);
    QuietObserved(ys);
    ToLListEls(Streams.Drop(Streams.Chain(hs), n), StreamLaws.Suffix(hs, n), Quiet(ys));
  }

  /** testStreamEval1: in `SCons(Pure(3), SCons(io, SCons(Pure(6), Nil)))`,
      `tail().tail().toLList()` is [6] and `io` is never run, whatever it is. */
  lemma {:induction false} TailTailSkipsHead(io: IO)
    ensures Yields(Streams.ToLList(Streams.Tail(Streams.Tail(Streams.Chain([P(3), io, P(6)])))),
                   Ok(D(List([Int(6)]))), [])
  {
    var hs := [P(3), io, P(6)];
    ChainUnrolls(hs);
    DropU(Streams.Chain(hs), Els(hs), 1);
    StreamLaws.DropEls(hs, 1);
    DropU(Streams.Tail(Streams.Chain(hs)), Els(hs[1..]), 1);
    StreamLaws.DropEls(hs[1..], 1);
    assert hs[1..][1..] == [P(6)];
    PuresYield([P(6)], [Int(6)]);
    QuietObserved([Int(6)]);
    ToLListEls(Streams.Tail(Streams.Tail(Streams.Chain(hs))), [P(6)], Quiet([Int(6)]));
  }

  /** The stream of testStreamLazinessTakeDrop:
      `Pure(2), Pure(3), io4, Pure(5), io6, Pure(7)`. */
  function Six(): seq<IO> {
    [P(2), P(3), Flagged(4), P(5), Flagged(6), P(7)]
  }

  /** What running each of its heads gives. */
  function SixRuns(): seq<Observed> {
    [Observed(Int(2), []), Observed(Int(3), []), Observed(Int(4), [4]),
     Observed(Int(5), []), Observed(Int(6), [6]), Observed(Int(7), [])]
  }

  /** Each head of the six-element stream yields its observation. */
  lemma {:induction false} SixYields(i: nat)
    requires i < 6
    ensures Yields(Six()[i], Ok(D(SixRuns()[i].value)), SixRuns()[i].log)
  {
    if i == 2 || i == 4 {
      IOLaws.DelayYields(i + 2, Ok(D(Int(i + 2))), Ok(D(Int(i + 2))), [i + 2]);
    } else {
      IOLaws.PureYields(D(Int(i + 2)), Ok(D(Int(i + 2))), []);
    }
  }

  lemma {:induction false} SixSlice(a: nat, b: nat)
    requires a <= b <= 6
    ensures HeadsYield(Six()[a..b], SixRuns()[a..b])
  {
    forall i | 0 <= i < 6
      ensures Yields(Six()[i], Ok(D(SixRuns()[i].value)), SixRuns()[i].log)
    {
      SixYields(i);
    }
  }

  /** `head()` of a stream that unrolls to the side effects `l`, then the
      heads `hs`: the same side effects, then the first head alone. */
  lemma {:induction false} HeadAfter(s: Stream, l: seq<EffectId>, hs: seq<IO>)
    requires Unrolls(s, Evs(l) + Els(hs)) && |hs| > 0
    ensures Unrolls(Streams.Head(s), Evs(l) + Els([hs[0]]))
  {
    TakeU(s, Evs(l) + Els(hs), 1);
    StreamLaws.TakeStepsAfterEvs(l, Els(hs), 1);
    StreamLaws.TakeEls(hs, 1);
    assert StreamLaws.Prefix(hs, 1) == [hs[0]];
  }

  /** `tail()` of such a stream: the same side effects, then the other heads. */
  lemma {:induction false} TailAfter(s: Stream, l: seq<EffectId>, hs: seq<IO>)
    requires Unrolls(s, Evs(l) + Els(hs)) && |hs| > 0
    ensures Unrolls(Streams.Tail(s), Evs(l) + Els(hs[1..]))
  {
    DropU(s, Evs(l) + Els(hs), 1);
    StreamLaws.DropStepsAfterEvs(l, Els(hs), 1);
    StreamLaws.DropEls(hs, 1);
  }

  lemma {:induction false} HeadOf(s: Stream, hs: seq<IO>)
    requires Unrolls(s, Els(hs)) && |hs| > 0
    ensures Unrolls(Streams.Head(s), Evs([]) + Els([hs[0]]))
  {
    NoEvs(Els(hs));
    HeadAfter(s, [], hs);
  }

  lemma {:induction false} TailOf(s: Stream, hs: seq<IO>)
    requires Unrolls(s, Els(hs)) && |hs| > 0
    ensures Unrolls(Streams.Tail(s), Els(hs[1..]))
  {
    NoEvs(Els(hs));
    TailAfter(s, [], hs);
    NoEvs(Els(hs[1..]));
  }

  /** toLList on a stream of one head, after the side effects `l`. */
  lemma {:induction false} OneToLList(s: Stream, l: seq<EffectId>, h: IO, r: Observed)
    requires Unrolls(s, Evs(l) + Els([h]))
    requires Yields(h, Ok(D(r.value)), r.log)
    ensures Yields(Streams.ToLList(s), Ok(D(List([r.value]))), l + r.log)
  {
    assert HeadsYield([h], [r]);
    ToLListAfter(s, l, [h], [r]);
    assert Values([r]) == [r.value];
    assert Logs([r]) == r.log + Logs([]);
  }

  /** take(1) after drop(n) on the six-element stream: only the head at `n`
      is run. */
  lemma {:induction false} SixDropHead(n: nat)
    requires n < 6
    ensures Yields(Streams.ToLList(Streams.Head(Streams.Drop(Streams.Chain(Six()), n))),
                   Ok(D(List([SixRuns()[n].value]))), SixRuns()[n].log)
  {
    var hs := Six();
    var d := Streams.Drop(Streams.Chain(hs), n);
    ChainUnrolls(hs);
    DropU(Streams.Chain(hs), Els(hs), n);
    StreamLaws.DropEls(hs, n);
    HeadOf(d, hs[n..]);
    assert hs[n..][0] == hs[n];
    SixYields(n);
    OneToLList(Streams.Head(d), [], hs[n], SixRuns()[n]);
    EmptyAppend([], SixRuns()[n].log);
  }

  /** testStreamLazinessTakeDrop, the take/drop half: `head()`,
      `tail().head()` and `tail().tail().tail().head()` run neither io4 nor
      io6; `drop(4).head()` runs io6 only; `drop(2).head()` runs io4 only. */
  lemma {:induction false} LazinessTakeDrop()
    ensures Yields(Streams.ToLList(Streams.Head(Streams.Chain(Six()))), Ok(D(List([Int(2)]))), [])
    ensures Yields(Streams.ToLList(Streams.Head(Streams.Tail(Streams.Chain(Six())))), Ok(D(List([Int(3)]))), [])
    ensures Yields(Streams.ToLList(Streams.Head(Streams.Drop(Streams.Chain(Six()), 4))), Ok(D(List([Int(6)]))), [6])
    ensures Yields(Streams.ToLList(Streams.Head(Streams.Drop(Streams.Chain(Six()), 2))), Ok(D(List([Int(4)]))), [4])
  {
    SixDropHead(0);
    assert Streams.Drop(Streams.Chain(Six()), 0) == Streams.Chain(Six());
    SixDropHead(1);
    SixDropHead(2);
    SixDropHead(4);
  }

  /** `tail().tail().tail().head()` reaches Pure(5) without running io4. */
  lemma {:induction false} LazinessTailsHead()
    ensures Yields(Streams.ToLList(Streams.Head(Streams.Tail(Streams.Tail(Streams.Tail(Streams.Chain(Six())))))),
                   Ok(D(List([Int(5)]))), [])
  {
    var s := Streams.Chain(Six());
    ChainUnrolls(Six());
    TailOf(s, Six());
    TailOf(Streams.Tail(s), Six()[1..]);
    TailOf(Streams.Tail(Streams.Tail(s)), Six()[1..][1..]);
    var t3 := Streams.Tail(Streams.Tail(Streams.Tail(s)));
    HeadOf(t3, Six()[1..][1..][1..]);
    assert Six()[1..][1..][1..][0] == Six()[3];
    SixYields(3);
    OneToLList(Streams.Head(t3), [], Six()[3], SixRuns()[3]);
  }

  /** The test `i -> i <= 4`. */
  function AtMost4(d: Data): bool {
    d.Int? && d.i <= 4
  }

  /** The test `i -> i <= 3`. */
  function AtMost3(d: Data): bool {
    d.Int? && d.i <= 3
  }

  /** The test `i -> i < 3`. */
  function Below3(d: Data): bool {
    d.Int? && d.i < 3
  }

  lemma {:induction false} DropWhileU(s: Stream, st: seq<Step>, rs: seq<Observed>, p: Data -> bool)
    requires Unrolls(s, st) && HeadsYieldWhile(Heads(st), rs, p)
    ensures Unrolls(Streams.DropWhile(s, p), ElementLaws.DropWhileSteps(st, rs, p))
  {
    var f: nat :| Spine(s, f) == Some(st);
    ElementLaws.DropWhileUnrolls(s, f, st, rs, p);
  }

  lemma {:induction false} TakeWhileU(s: Stream, st: seq<Step>, rs: seq<Observed>, p: Data -> bool, inc: bool, passOn: bool)
    requires Unrolls(s, st) && HeadsYieldWhile(Heads(st), rs, p)
    ensures Unrolls(Streams.TakeWhileVia(s, p, inc, passOn), ElementLaws.TakeWhileSteps(st, rs, p, inc, passOn))
  {
    var f: nat :| Spine(s, f) == Some(st);
    ElementLaws.TakeWhileUnrolls(s, f, st, rs, p, inc, passOn);
  }

  /** `dropWhile(i -> i <= 4)` on the six-element stream runs io4 while
      skipping, then exposes Pure(5), io6 and Pure(7) unevaluated. */
  lemma {:induction false} DropWhileSix()
    ensures Unrolls(Streams.DropWhile(Streams.Chain(Six()), AtMost4), Evs([4]) + Els(Six()[3..]))
  {
    var hs := Six();
    var rs := SixRuns();
    ChainUnrolls(hs);
    SixAll();
    HeadsYieldWhileAll(Heads(Els(hs)), rs, AtMost4);
    DropWhileU(Streams.Chain(hs), Els(hs), rs, AtMost4);
    ElementLaws.DropWhileChain(hs, rs, AtMost4);
    SixPassAtMost4();
  }

  /** Every head of the six-element stream, with what it yields. */
  lemma {:induction false} SixAll()
    ensures HeadsYield(Heads(Els(Six())), SixRuns())
  {
    HeadsEls(Six());
    SixSlice(0, 6);
    assert Six()[0..6] == Six() && SixRuns()[0..6] == SixRuns();
  }

  /** 2, 3 and 4 pass `i <= 4`, 5 does not; running the first four heads
      runs io4 alone. */
  lemma {:induction false} SixPassAtMost4()
    ensures ElementLaws.PrefixLen(Values(SixRuns()), AtMost4) == 3
    ensures Logs(SixRuns()[..ElementLaws.Forced(3, 6)]) == [4]
  {
    var vals := Values(SixRuns());
    assert AtMost4(vals[0]) && AtMost4(vals[1]) && AtMost4(vals[2]) && !AtMost4(vals[3]);
    PrefixLenAt(vals, AtMost4, 3);
    SixFirstLogs();
  }

  /** testStreamLazinessTakeDrop, the dropWhile half: `head()` gives 5 and
      runs io4 only; `tail().head()` runs io4 and io6; `tail().tail().head()`
      gives [7] and runs io4 only. */
  lemma {:induction false} LazinessDropWhileHead()
    ensures Yields(Streams.ToLList(Streams.Head(Streams.DropWhile(Streams.Chain(Six()), AtMost4))),
                   Ok(D(List([Int(5)]))), [4])
  {
    var dw := Streams.DropWhile(Streams.Chain(Six()), AtMost4);
    DropWhileSix();
    HeadAfter(dw, [4], Six()[3..]);
    assert Six()[3..][0] == Six()[3];
    SixYields(3);
    OneToLList(Streams.Head(dw), [4], Six()[3], SixRuns()[3]);
  }

  lemma {:induction false} LazinessDropWhileTailHead()
    ensures Yields(Streams.ToLList(Streams.Head(Streams.Tail(Streams.DropWhile(Streams.Chain(Six()), AtMost4)))),
                   Ok(D(List([Int(6)]))), [4, 6])
  {
    var dw := Streams.DropWhile(Streams.Chain(Six()), AtMost4);
    DropWhileSix();
    TailAfter(dw, [4], Six()[3..]);
    HeadAfter(Streams.Tail(dw), [4], Six()[3..][1..]);
    assert Six()[3..][1..][0] == Six()[4];
    SixYields(4);
    OneToLList(Streams.Head(Streams.Tail(dw)), [4], Six()[4], SixRuns()[4]);
  }

  lemma {:induction false} LazinessDropWhileTailTailHead()
    ensures Yields(Streams.ToLList(Streams.Head(Streams.Tail(Streams.Tail(
                     Streams.DropWhile(Streams.Chain(Six()), AtMost4))))),
                   Ok(D(List([Int(7)]))), [4])
  {
    var dw := Streams.DropWhile(Streams.Chain(Six()), AtMost4);
    DropWhileSix();
    TailAfter(dw, [4], Six()[3..]);
    TailAfter(Streams.Tail(dw), [4], Six()[3..][1..]);
    HeadAfter(Streams.Tail(Streams.Tail(dw)), [4], Six()[3..][1..][1..]);
    assert Six()[3..][1..][1..][0] == Six()[5];
    SixYields(5);
    OneToLList(Streams.Head(Streams.Tail(Streams.Tail(dw))), [4], Six()[5], SixRuns()[5]);
  }

  /** `takeWhile(i -> i <= 4)` on the six-element stream unrolls to 2 and 3,
      then the side effect of io4, then 4; Pure(5) is run and dropped. */
  lemma {:induction false} TakeWhileSix()
    ensures Unrolls(Streams.TakeWhileExcl(Streams.Chain(Six()), AtMost4), [El(P(2)), El(P(3)), Ev(4), El(P(4))])
  {
    var hs := Six();
    var rs := SixRuns();
    ChainUnrolls(hs);
    SixAll();
    HeadsYieldWhileAll(Heads(Els(hs)), rs, AtMost4);
    TakeWhileU(Streams.Chain(hs), Els(hs), rs, AtMost4, false, false);
    TakeWhileSixFrom(0);
    assert hs[0..] == hs && rs[0..] == rs;
    TakeWhileSixWhole();
    assert Streams.TakeWhileExcl(Streams.Chain(hs), AtMost4) == Streams.TakeWhileVia(Streams.Chain(hs), AtMost4, false, false);
  }

  /** The steps of that takeWhile over the heads from `k` on. */
  function TakeWhileSixTail(k: nat): seq<Step>
    requires k <= 3
    decreases 3 - k
  {
    if k == 3 then []
    else if k == 2 then [Ev(4), El(P(4))]
    else [El(P(k + 2))] + TakeWhileSixTail(k + 1)
  }

  lemma {:induction false} TakeWhileSixWhole()
    ensures TakeWhileSixTail(0) == [El(P(2)), El(P(3)), Ev(4), El(P(4))]
  {
    assert TakeWhileSixTail(1) == [El(P(3)), Ev(4), El(P(4))];
  }

  lemma {:induction false} TakeWhileSixFrom(k: nat)
    requires k <= 3
    ensures ElementLaws.TakeWhileSteps(Els(Six()[k..]), SixRuns()[k..], AtMost4, false, false) == TakeWhileSixTail(k)
    decreases 3 - k
  {
    var hs := Six()[k..];
    var rs := SixRuns()[k..];
    ElementLaws.TakeWhileChainStep(hs, rs, AtMost4, false, false);
    assert rs[0] == SixRuns()[k];
    if k == 3 {
      assert Evs([]) == [];
    } else {
      TakeWhileSixFrom(k + 1);
      assert hs[1..] == Six()[k + 1..] && rs[1..] == SixRuns()[k + 1..];
      var t := TakeWhileSixTail(k + 1);
      if k == 2 {
        assert Evs([4]) == [Ev(4)];
        assert t == [];
      } else {
        assert rs[0].log == [];
        EmptyAppend(Evs(rs[0].log), [El(P(k + 2))] + t);
      }
    }
  }

  /** testStreamLazinessTakeDrop: `takeWhile(i -> i <= 4).toLList()` is
      [2, 3, 4] and runs io4 but not io6. */
  lemma {:induction false} LazinessTakeWhile()
    ensures Yields(Streams.ToLList(Streams.TakeWhileExcl(Streams.Chain(Six()), AtMost4)),
                   Ok(D(List([Int(2), Int(3), Int(4)]))), [4])
  {
    var st := [El(P(2)), El(P(3)), Ev(4), El(P(4))];
    var tw := Streams.TakeWhileExcl(Streams.Chain(Six()), AtMost4);
    TakeWhileSix();
    var f: nat :| Spine(tw, f) == Some(st);
    TakeWhileSixHeads();
    FoldLaws.ToLListYields(tw, f, st, PureRuns());
    TakeWhileSixExpand();
  }

  /** Running Pure(2), Pure(3) and Pure(4). */
  function PureRuns(): seq<Observed> {
    [Observed(Int(2), []), Observed(Int(3), []), Observed(Int(4), [])]
  }

  /** The heads of that takeWhile are pure and yield 2, 3 and 4. */
  lemma {:induction false} TakeWhileSixHeads()
    ensures HeadsYield(Heads([El(P(2)), El(P(3)), Ev(4), El(P(4))]), PureRuns())
    ensures Values(PureRuns()) == [Int(2), Int(3), Int(4)]
  {
    var st := [El(P(2)), El(P(3)), Ev(4), El(P(4))];
    assert st[1..][1..][1..][1..] == [];
    assert Heads(st) == [P(2), P(3), P(4)];
    var rs := PureRuns();
    forall i | 0 <= i < 3
      ensures Yields([P(2), P(3), P(4)][i], Ok(D(rs[i].value)), rs[i].log)
    {
      IOLaws.PureYields(D(Int(i + 2)), Ok(D(Int(i + 2))), []);
    }
  }

  /** Only io4 is run: it is the one side effect among those steps. */
  lemma {:induction false} TakeWhileSixExpand()
    ensures Expand([El(P(2)), El(P(3)), Ev(4), El(P(4))], PureRuns()) == [4]
  {
    var rs := PureRuns();
    calc {
      Expand([El(P(2)), El(P(3)), Ev(4), El(P(4))], rs);
      { assert [El(P(2)), El(P(3)), Ev(4), El(P(4))][1..] == [El(P(3)), Ev(4), El(P(4))]; }
      rs[0].log + Expand([El(P(3)), Ev(4), El(P(4))], rs[1..]);
      { assert [El(P(3)), Ev(4), El(P(4))][1..] == [Ev(4), El(P(4))]; }
      rs[0].log + (rs[1].log + Expand([Ev(4), El(P(4))], rs[1..][1..]));
      { assert [Ev(4), El(P(4))][1..] == [El(P(4))]; }
      [] + ([] + ([4] + Expand([El(P(4))], rs[1..][1..])));
      { assert [El(P(4))][1..] == []; assert rs[1..][1..][1..] == []; }
      [4];
    }
  }

  /** dropWhile hands back the first failing element with its head
      unevaluated, so that head runs again when the result is consumed:
      `dropWhile(i -> i <= 3).toLList()` runs io4 twice. */
  lemma {:induction false} DropWhileRerunsFailingHead()
    ensures Yields(Streams.ToLList(Streams.DropWhile(Streams.Chain(Six()), AtMost3)),
                   Ok(D(List([Int(4), Int(5), Int(6), Int(7)]))), [4, 4, 6])
  {
    DropWhileSixAtMost3();
    SixFrom(2);
    SixTailObserved();
    assert [4] + [4, 6] == [4, 4, 6];
    ToLListGives(Streams.DropWhile(Streams.Chain(Six()), AtMost3), [4], Six()[2..], SixRuns()[2..],
                 [Int(4), Int(5), Int(6), Int(7)], [4, 4, 6]);
  }

  /** ToLListAfter with the values and the side effects named. */
  lemma {:induction false} ToLListGives(s: Stream, l: seq<EffectId>, hs: seq<IO>, rs: seq<Observed>,
                                        vals: seq<Data>, log: seq<EffectId>)
    requires Unrolls(s, Evs(l) + Els(hs))
    requires HeadsYield(hs, rs)
    requires Values(rs) == vals && l + Logs(rs) == log
    ensures Yields(Streams.ToLList(s), Ok(D(List(vals))), log)
  {
    ToLListAfter(s, l, hs, rs);
  }

  lemma {:induction false} DropWhileSixAtMost3()
    ensures Unrolls(Streams.DropWhile(Streams.Chain(Six()), AtMost3), Evs([4]) + Els(Six()[2..]))
  {
    var hs := Six();
    var rs := SixRuns();
    ChainUnrolls(hs);
    SixAll();
    HeadsYieldWhileAll(Heads(Els(hs)), rs, AtMost3);
    DropWhileU(Streams.Chain(hs), Els(hs), rs, AtMost3);
    ElementLaws.DropWhileChain(hs, rs, AtMost3);
    SixPassAtMost3();
  }

  lemma {:induction false} SixPassAtMost3()
    ensures ElementLaws.PrefixLen(Values(SixRuns()), AtMost3) == 2
    ensures Logs(SixRuns()[..ElementLaws.Forced(2, 6)]) == [4]
  {
    var vals := Values(SixRuns());
    assert AtMost3(vals[0]) && AtMost3(vals[1]) && !AtMost3(vals[2]);
    PrefixLenAt(vals, AtMost3, 2);
    SixFirstLogs();
  }

  /** The first `k` values pass and the next one fails. */
  lemma {:induction false} PrefixLenAt(vals: seq<Data>, p: Data -> bool, k: nat)
    requires k < |vals|
    requires forall i :: 0 <= i < k ==> p(vals[i])
    requires !p(vals[k])
    ensures ElementLaws.PrefixLen(vals, p) == k
    decreases k
  {
    if k > 0 {
      PrefixLenAt(vals[1..], p, k - 1);
    }
  }

  lemma {:induction false} LogsTake(rs: seq<Observed>, k: nat)
    requires k < |rs|
    ensures Logs(rs[..k + 1]) == Logs(rs[..k]) + rs[k].log
  {
    assert rs[..k + 1] == rs[..k] + [rs[k]];
    LogsSnoc(rs[..k], rs[k]);
  }

  /** Running the first three or four heads runs io4 alone. */
  lemma {:induction false} SixFirstLogs()
    ensures Logs(SixRuns()[..3]) == [4]
    ensures Logs(SixRuns()[..4]) == [4]
  {
    var rs := SixRuns();
    assert Logs(rs[..0]) == [];
    LogsTake(rs, 0);
    LogsTake(rs, 1);
    LogsTake(rs, 2);
    LogsTake(rs, 3);
  }

  /** Every head from `a` on, with what it yields. */
  lemma {:induction false} SixFrom(a: nat)
    requires a <= 6
    ensures HeadsYield(Six()[a..], SixRuns()[a..])
  {
    forall i | 0 <= i < 6 - a
      ensures Yields(Six()[a..][i], Ok(D(SixRuns()[a..][i].value)), SixRuns()[a..][i].log)
    {
      SixYields(a + i);
    }
  }

  lemma {:induction false} SixTailObserved()
    ensures Values(SixRuns()[2..]) == [Int(4), Int(5), Int(6), Int(7)]
    ensures Logs(SixRuns()[2..]) == [4, 6]
  {
    var rs := SixRuns();
    assert rs[2..] == [rs[2]] + rs[3..];
    assert rs[3..] == [rs[3]] + rs[4..];
    assert rs[4..] == [rs[4]] + rs[5..];
    assert rs[5..][1..] == [];
    assert Logs(rs[5..]) == [];
    assert Logs(rs[4..]) == [6];
  }

  /** The effect id of the shared counter of testExists. */
  const Counter: EffectId := 0

  /** `i -> IO(() -> { counter.incrementAndGet(); return i; })`. */
  function Tick(d: Data): IO {
    Delay(Effect(Counter, Ok(D(d))))
  }

  /** `Stream(1, 2, 3, 4, 5)`'s heads. */
  function OneToFive(): seq<IO> {
    seq(5, i requires 0 <= i < 5 => P(i + 1))
  }

  /** The heads of `mapEval(Tick)` over it. */
  function Ticked(): seq<IO> {
    seq(5, i requires 0 <= i < 5 => Bind(P(i + 1), UserBind(Tick)))
  }

  /** Each of those heads returns its value and bumps the counter once. */
  function TickedRuns(): seq<Observed> {
    seq(5, i requires 0 <= i < 5 => Observed(Int(i + 1), [Counter]))
  }

  /** The stream `Stream(1, 2, 3, 4, 5).mapEval(Tick)` of testExists. */
  lemma {:induction false} TickedUnrolls()
    ensures Unrolls(Streams.MapEval(Streams.Chain(OneToFive()), Tick), Els(Ticked()))
    ensures HeadsYield(Heads(Els(Ticked())), TickedRuns())
  {
    var hs := OneToFive();
    ChainUnrolls(hs);
    var f: nat :| Spine(Streams.Chain(hs), f) == Some(Els(hs));
    StreamLaws.MapEvalUnrolls(Streams.Chain(hs), f, Els(hs), Tick);
    StreamLaws.BindEachEls(hs, UserBind(Tick));
    TickedHeads();
    HeadsEls(Ticked());
    forall i | 0 <= i < 5
      ensures Yields(Ticked()[i], Ok(D(TickedRuns()[i].value)), TickedRuns()[i].log)
    {
      TickedYields(i);
    }
  }

  lemma {:induction false} TickedHeads()
    ensures var hs := OneToFive();
      seq(|hs|, i requires 0 <= i < |hs| => Bind(hs[i], UserBind(Tick))) == Ticked()
  {
  }

  /** Each ticked head returns its value and bumps the counter once. */
  lemma {:induction false} TickedYields(i: nat)
    requires i < 5
    ensures Yields(Ticked()[i], Ok(D(Int(i + 1))), [Counter])
  {
    IOLaws.PureYields(D(Int(i + 1)), Ok(D(Int(i + 1))), []);
    IOLaws.DelayYields(Counter, Ok(D(Int(i + 1))), Ok(D(Int(i + 1))), [Counter]);
    IOLaws.BindOk(P(i + 1), UserBind(Tick), D(Int(i + 1)), [], Ok(D(Int(i + 1))), [Counter]);
  }

  /** The number of counter ticks in `k` runs of ticked heads. */
  lemma {:induction false} TickLogs(k: nat)
    requires k <= 5
    ensures Logs(TickedRuns()[..k]) == seq(k, _ => Counter)
    decreases k
  {
    if k > 0 {
      var rs := TickedRuns();
      TickLogs(k - 1);
      LogsSnoc(rs[..k - 1], rs[k - 1]);
      assert rs[..k] == rs[..k - 1] + [rs[k - 1]];
    }
  }

  lemma {:induction false} LogsSnoc(rs: seq<Observed>, r: Observed)
    ensures Logs(rs + [r]) == Logs(rs) + r.log
    decreases |rs|
  {
    if |rs| == 0 {
      assert [] + [r] == [r];
    } else {
      assert (rs + [r])[1..] == rs[1..] + [r];
      LogsSnoc(rs[1..], r);
    }
  }

  lemma {:induction false} ExistsU(s: Stream, st: seq<Step>, rs: seq<Observed>, p: Data -> bool)
    requires Unrolls(s, st) && HeadsYieldWhile(Heads(st), rs, FoldLaws.Undecided(p, true))
    ensures Yields(Streams.Exists(s, p),
                   Ok(D(Bool(exists i :: 0 <= i < |rs| && p(rs[i].value)))), FoldLaws.SearchLog(st, rs, p, true))
  {
    var f: nat :| Spine(s, f) == Some(st);
    FoldLaws.ExistsYields(s, f, st, rs, p);
  }

  /** The test `elem -> elem == 3`. */
  function Is3(d: Data): bool {
    d == Int(3)
  }

  /** The test `elem -> elem < 0`. */
  function Negative(d: Data): bool {
    d.Int? && d.i < 0
  }

  /** testExists: `exists(elem -> elem == 3)` is true and ticks the counter
      three times: the heads after 3 are never run. */
  lemma {:induction false} ExistsStopsAtFirstHit()
    ensures Yields(Streams.Exists(Streams.MapEval(Streams.Chain(OneToFive()), Tick), Is3),
                   Ok(D(Bool(true))), [Counter, Counter, Counter])
  {
    TickedUnrolls();
    var rs := TickedRuns();
    HeadsYieldWhileAll(Heads(Els(Ticked())), rs, FoldLaws.Undecided(Is3, true));
    ExistsU(Streams.MapEval(Streams.Chain(OneToFive()), Tick), Els(Ticked()), rs, Is3);
    assert Is3(rs[2].value);
    HitRunsThree();
  }

  lemma {:induction false} HitRunsThree()
    ensures FoldLaws.SearchLog(Els(Ticked()), TickedRuns(), Is3, true) == [Counter, Counter, Counter]
  {
    var rs := TickedRuns();
    calc {
      FoldLaws.SearchLog(Els(Ticked()), rs, Is3, true);
      { FoldLaws.SearchLogEls(Ticked(), rs, Is3, true); FirstHitAt2(); }
      Logs(rs[..ElementLaws.Forced(2, 5)]);
      { TickLogs(3); }
      seq(3, _ => Counter);
      [Counter, Counter, Counter];
    }
  }

  /** 1 and 2 leave the search undecided; 3 decides it. */
  lemma {:induction false} FirstHitAt2()
    ensures ElementLaws.PrefixLen(Values(TickedRuns()), FoldLaws.Undecided(Is3, true)) == 2
  {
    var q := FoldLaws.Undecided(Is3, true);
    var rs := TickedRuns();
    var vals := Values(rs);
    assert vals[0] == Int(1) && vals[1] == Int(2) && vals[2] == Int(3);
    assert q(vals[0]) && q(vals[1]) && !q(vals[2]);
    PrefixLenAt(vals, q, 2);
  }

  /** testExists: `exists(elem -> elem < 0)` is false and ticks the counter
      five times: every head is run. */
  lemma {:induction false} ExistsRunsAllOnMiss()
    ensures Yields(Streams.Exists(Streams.MapEval(Streams.Chain(OneToFive()), Tick), Negative),
                   Ok(D(Bool(false))), [Counter, Counter, Counter, Counter, Counter])
  {
    TickedUnrolls();
    HeadsYieldWhileAll(Heads(Els(Ticked())), TickedRuns(), FoldLaws.Undecided(Negative, true));
    ExistsU(Streams.MapEval(Streams.Chain(OneToFive()), Tick), Els(Ticked()), TickedRuns(), Negative);
    NoneNegative();
    MissRunsAll();
  }

  lemma {:induction false} MissRunsAll()
    ensures FoldLaws.SearchLog(Els(Ticked()), TickedRuns(), Negative, true)
         == [Counter, Counter, Counter, Counter, Counter]
  {
    var rs := TickedRuns();
    calc {
      FoldLaws.SearchLog(Els(Ticked()), rs, Negative, true);
      { FoldLaws.SearchLogEls(Ticked(), rs, Negative, true); NoneNegative(); }
      Logs(rs[..ElementLaws.Forced(5, 5)]);
      { TickLogs(5); }
      seq(5, _ => Counter);
      [Counter, Counter, Counter, Counter, Counter];
    }
  }

  /** No value of `Stream(1, 2, 3, 4, 5)` is negative, so the search never
      stops early. */
  lemma {:induction false} NoneNegative()
    ensures !exists i :: 0 <= i < |TickedRuns()| && Negative(TickedRuns()[i].value)
    ensures ElementLaws.PrefixLen(Values(TickedRuns()), FoldLaws.Undecided(Negative, true)) == 5
  {
    var q := FoldLaws.Undecided(Negative, true);
    var rs := TickedRuns();
    var vals := Values(rs);
    forall i | 0 <= i < 5
      ensures q(vals[i]) && !Negative(rs[i].value)
    {
      assert vals[i] == rs[i].value == Int(i + 1);
      assert !Negative(vals[i]);
      assert q(vals[i]) == (Negative(vals[i]) != true);
    }
    AllPass(vals, q);
  }

  /** When every value passes, the first failure is past the end. */
  lemma {:induction false} AllPass(vals: seq<Data>, p: Data -> bool)
    requires forall i :: 0 <= i < |vals| ==> p(vals[i])
    ensures ElementLaws.PrefixLen(vals, p) == |vals|
    decreases |vals|
  {
    if |vals| > 0 {
      AllPass(vals[1..], p);
    }
  }

  /** A failing element fails the whole fold: `toLList` of
      `Stream.eval(Pure(1), raiseError(e), Pure(3))` fails with `e`, and the
      third head never runs. */
  lemma {:induction false} ToLListStopsAtFailure(e: Error)
    ensures Yields(Streams.ToLList(Streams.Chain([P(1), RaiseError(e), P(3)])), Fail(e), [])
  {
    var hs := [P(1), RaiseError(e), P(3)];
    var rs := [Observed(Int(1), [])];
    ChainUnrolls(hs);
    HeadsEls(hs);
    IOLaws.PureYields(D(Int(1)), Ok(D(Int(1))), []);
    IOLaws.RaiseErrorYields(e, Fail(e), []);
    assert HeadsFail(Heads(Els(hs)), rs, e, []);
    var f: nat :| Spine(Streams.Chain(hs), f) == Some(Els(hs));
    FoldLaws.ToLListFails(Streams.Chain(hs), f, Els(hs), rs, e, []);
    assert Els(hs) == [El(hs[0])] + Els(hs[1..]);
    assert Els(hs[1..]) == [El(hs[1])] + Els(hs[2..]);
    assert FailLog(Els(hs), rs, []) == [] + FailLog(Els(hs[1..]), [], []);
  }

  /** exists fails when an element fails before any satisfies the test:
      in `Stream.eval(Pure(1), raiseError(e))`, `exists(elem -> elem == 3)`
      fails with `e`. */
  lemma {:induction false} ExistsStopsAtFailure(e: Error)
    ensures Yields(Streams.Exists(Streams.Chain([P(1), RaiseError(e)]), Is3), Fail(e), [])
  {
    var hs := [P(1), RaiseError(e)];
    var rs := [Observed(Int(1), [])];
    ChainUnrolls(hs);
    HeadsEls(hs);
    IOLaws.PureYields(D(Int(1)), Ok(D(Int(1))), []);
    IOLaws.RaiseErrorYields(e, Fail(e), []);
    assert HeadsFail(Heads(Els(hs)), rs, e, []);
    assert !Is3(rs[0].value);
    assert FoldLaws.Continues(ExistsStep(Is3), rs[0].value);
    var f: nat :| Spine(Streams.Chain(hs), f) == Some(Els(hs));
    FoldLaws.FoldRightFails(Streams.Chain(hs), f, Els(hs), rs, Pure(D(Bool(false))), ExistsStep(Is3), e, []);
    assert Els(hs) == [El(hs[0])] + Els(hs[1..]);
    assert Els(hs[1..]) == [El(hs[1])] + Els(hs[2..]);
    assert FailLog(Els(hs), rs, []) == [] + FailLog(Els(hs[1..]), [], []);
  }

  /** The heads after the deciding one are never run: in
      `Stream.eval(Pure(3), raiseError(e))`, `exists(elem -> elem == 3)` is
      true and runs nothing, whatever `e` is. */
  lemma {:induction false} ExistsSkipsFailingTail(e: Error)
    ensures Yields(Streams.Exists(Streams.Chain([P(3), RaiseError(e)]), Is3), Ok(D(Bool(true))), [])
  {
    var hs := [P(3), RaiseError(e)];
    var rs := [Observed(Int(3), [])];
    ChainUnrolls(hs);
    HeadsEls(hs);
    IOLaws.PureYields(D(Int(3)), Ok(D(Int(3))), []);
    assert Is3(rs[0].value);
    assert FoldLaws.Undecided(Is3, true)(rs[0].value) == (Is3(rs[0].value) != true);
    assert HeadsYieldWhile(Heads(Els(hs)), rs, FoldLaws.Undecided(Is3, true));
    ExistsU(Streams.Chain(hs), Els(hs), rs, Is3);
    FoldLaws.SearchLogElsStep(hs, rs, Is3, true);
    assert rs[0].log + [] == [];
  }

  /** Likewise `Stream.eval(Pure(5), raiseError(e)).takeWhile(i -> i < 3)`
      stops at 5 and never runs the failing head: it unrolls to nothing. */
  lemma {:induction false} TakeWhileSkipsFailingTail(e: Error)
    ensures Unrolls(Streams.TakeWhileExcl(Streams.Chain([P(5), RaiseError(e)]), Below3), [])
  {
    var hs := [P(5), RaiseError(e)];
    var rs := [Observed(Int(5), [])];
    ChainUnrolls(hs);
    HeadsEls(hs);
    IOLaws.PureYields(D(Int(5)), Ok(D(Int(5))), []);
    assert !Below3(rs[0].value);
    assert HeadsYieldWhile(Heads(Els(hs)), rs, Below3);
    TakeWhileU(Streams.Chain(hs), Els(hs), rs, Below3, false, false);
    ElementLaws.TakeWhileChainStep(hs, rs, Below3, false, false);
    assert Evs([]) == [];
    assert Streams.TakeWhileExcl(Streams.Chain(hs), Below3) == Streams.TakeWhileVia(Streams.Chain(hs), Below3, false, false);
  }

  /** `Stream.eval(Pure(1), Pure(5), raiseError(e)).takeWhile(i -> i < 3)`
      keeps `1` alone and runs no effect: the test stops at `5`, and the
      failing third head is never run. */
  lemma {:induction false} TakeWhileKeepsBeforeFailingTail(e: Error)
    ensures var st := ElementLaws.TakeWhileSteps(Els([P(1), P(5), RaiseError(e)]),
                                                 [Observed(Int(1), []), Observed(Int(5), [])], Below3, false, false);
      Unrolls(Streams.TakeWhileExcl(Streams.Chain([P(1), P(5), RaiseError(e)]), Below3), st) &&
      Heads(st) == [P(1)] && EvsOnly(st) == []
  {
    var hs := [P(1), P(5), RaiseError(e)];
    var rs := [Observed(Int(1), []), Observed(Int(5), [])];
    ChainUnrolls(hs);
    HeadsEls(hs);
    IOLaws.PureYields(D(Int(1)), Ok(D(Int(1))), []);
    IOLaws.PureYields(D(Int(5)), Ok(D(Int(5))), []);
    assert Below3(rs[0].value) && !Below3(rs[1].value);
    assert HeadsYieldWhile(Heads(Els(hs)), rs, Below3);
    TakeWhileU(Streams.Chain(hs), Els(hs), rs, Below3, false, false);
    assert Streams.TakeWhileExcl(Streams.Chain(hs), Below3) == Streams.TakeWhileVia(Streams.Chain(hs), Below3, false, false);
    var vals := Values(rs);
    assert vals == [Int(1), Int(5)];
    ElementLaws.TakeWhileHeads(Els(hs), rs, Below3, false, false);
    assert ElementLaws.TakeWhileValues(vals[1..], Below3, false) == [];
    assert ElementLaws.TakeWhileValues(vals, Below3, false) == [Int(1)];
    assert Pures([Int(1)]) == [P(1)];
    ElementLaws.TakeWhileChainRuns(hs, rs, Below3, false, false);
    assert ElementLaws.PrefixLen(vals[1..], Below3) == 0;
    assert ElementLaws.PrefixLen(vals, Below3) == 1;
    assert rs[..ElementLaws.Forced(1, 2)] == rs;
    assert Logs(rs[1..]) == [];
    assert Logs(rs) == [];
    assert Evs([]) == [];
  }

  /** The heads of `Stream(1, 5)`, with what they yield. */
  lemma {:induction false} OneFive()
    ensures Unrolls(Streams.Chain([P(1), P(5)]), Els([P(1), P(5)]))
    ensures HeadsYield(Heads(Els([P(1), P(5)])), Quiet([Int(1), Int(5)]))
  {
    ChainUnrolls([P(1), P(5)]);
    HeadsEls([P(1), P(5)]);
    PuresYield([P(1), P(5)], [Int(1), Int(5)]);
  }

  /** `Stream(1, 5).takeWhile(i -> i < 3, true)` as written unrolls to the
      single element 1: the failing 5 is lost because the rest was taken
      with `takeWhile(p)`. */
  lemma {:induction false} TakeWhileLosesFailure()
    ensures Unrolls(Streams.TakeWhile(Streams.Chain([P(1), P(5)]), Below3, true), [El(P(1))])
  {
    var hs := [P(1), P(5)];
    var rs := Quiet([Int(1), Int(5)]);
    OneFive();
    HeadsYieldWhileAll(Heads(Els(hs)), rs, Below3);
    TakeWhileU(Streams.Chain(hs), Els(hs), rs, Below3, true, false);
    ElementLaws.TakeWhileChainStep(hs, rs, Below3, true, false);
    ElementLaws.TakeWhileChainStep(hs[1..], rs[1..], Below3, false, false);
    assert rs[1..][0].value == Int(5) && rs[0].value == Int(1);
    assert ElementLaws.TakeWhileSteps(Els(hs[1..]), rs[1..], Below3, false, false) == [];
    assert Evs([]) == [];
    assert ElementLaws.TakeWhileSteps(Els(hs), rs, Below3, true, false) == [El(P(1))];
    assert Streams.TakeWhile(Streams.Chain(hs), Below3, true) == Streams.TakeWhileVia(Streams.Chain(hs), Below3, true, false);
  }

  /** The corrected takeWhile keeps the first failing element wherever it
      is: `Stream(1, 5).takeWhile(i -> i < 3, true)` unrolls to 1 then 5. */
  lemma {:induction false} TakeWhileFixedKeepsFailure()
    ensures Unrolls(Streams.TakeWhileFixed(Streams.Chain([P(1), P(5)]), Below3, true), [El(P(1)), El(P(5))])
  {
    var hs := [P(1), P(5)];
    var rs := Quiet([Int(1), Int(5)]);
    OneFive();
    HeadsYieldWhileAll(Heads(Els(hs)), rs, Below3);
    TakeWhileU(Streams.Chain(hs), Els(hs), rs, Below3, true, true);
    ElementLaws.TakeWhileChainStep(hs, rs, Below3, true, true);
    ElementLaws.TakeWhileChainStep(hs[1..], rs[1..], Below3, true, true);
    assert rs[1..][0].value == Int(5) && rs[0].value == Int(1);
    assert Evs([]) == [];
    assert ElementLaws.TakeWhileSteps(Els(hs[1..]), rs[1..], Below3, true, true) == [El(P(5))];
    assert ElementLaws.TakeWhileSteps(Els(hs), rs, Below3, true, true) == [El(P(1)), El(P(5))];
    assert Streams.TakeWhileFixed(Streams.Chain(hs), Below3, true) == Streams.TakeWhileVia(Streams.Chain(hs), Below3, true, true);
  }

  /** As written, a failing FIRST element is still included:
      `Stream(5).takeWhile(i -> i < 3, true)` unrolls to 5. */
  lemma {:induction false} TakeWhileKeepsFailingFirst()
    ensures Unrolls(Streams.TakeWhile(Streams.Chain([P(5)]), Below3, true), [El(P(5))])
  {
    var hs := [P(5)];
    var rs := Quiet([Int(5)]);
    ChainUnrolls(hs);
    HeadsEls(hs);
    PuresYield(hs, [Int(5)]);
    HeadsYieldWhileAll(Heads(Els(hs)), rs, Below3);
    TakeWhileU(Streams.Chain(hs), Els(hs), rs, Below3, true, false);
    ElementLaws.TakeWhileChainStep(hs, rs, Below3, true, false);
    assert rs[0].value == Int(5);
    assert Evs([]) == [];
    assert ElementLaws.TakeWhileSteps(Els(hs), rs, Below3, true, false) == [El(P(5))];
    assert Streams.TakeWhile(Streams.Chain(hs), Below3, true) == Streams.TakeWhileVia(Streams.Chain(hs), Below3, true, false);
  }
}

/**
  What can be observed of a stream without running its elements: unrolling
  it from the front, each `Defer` runs its `IO` (whose side effects are
  recorded) and each `Cons` exposes one head, still unevaluated. A stream
  "unrolls" to the sequence of these steps. Running the heads is a separate
  matter, which the folds do.
 */
module Spines {
  import opened Algebra
  import opened Interp
  import Closures
  import Effects
  import Streams
  import IOLaws

  /** One step of unrolling: a side effect of forcing a `Defer`, or an element
      whose head `IO` has not been run. */
  datatype Step = Ev(id: EffectId) | El(head: IO)

  /** The side effects `log` as steps. */
  function Evs(log: seq<EffectId>): seq<Step> {
    if |log| == 0 then [] else [Ev(log[0])] + Evs(log[1..])
  }

  /** The heads `hs` as element steps, in order. */
  function Els(hs: seq<IO>): seq<Step> {
    if |hs| == 0 then [] else [El(hs[0])] + Els(hs[1..])
  }

  /** The element heads among the steps, in order. */
  function Heads(st: seq<Step>): seq<IO> {
    if |st| == 0 then []
    else (if st[0].El? then [st[0].head] else []) + Heads(st[1..])
  }

  /** The side-effect steps among the steps, in order. */
  function EvsOnly(st: seq<Step>): seq<Step> {
    if |st| == 0 then []
    else (if st[0].Ev? then [st[0]] else []) + EvsOnly(st[1..])
  }

  /** The element steps in reverse order. */
  function RevEls(st: seq<Step>): seq<Step> {
    if |st| == 0 then []
    else RevEls(st[1..]) + (if st[0].El? then [st[0]] else [])
  }

  /** Unrolls `s` completely, running each `Defer` with `fuel`; `None` when
      fuel runs out or a `Defer` does not yield a stream. */
  function Spine(s: Stream, fuel: nat): Option<seq<Step>>
    decreases fuel, s
  {
    match s
    case Nil => Some([])
    case Cons(h, t) =>
      var rest := Spine(t, fuel);
      if rest.Some? then Some([El(h)] + rest.value) else None
    case Defer(io) =>
      if fuel == 0 then None
      else
        var r := Run(io, fuel);
        if r.Done? && r.out.Ok? && r.out.v.StreamV? then
          var rest := Spine(r.out.v.s, fuel - 1);
          if rest.Some? then Some(Evs(r.log) + rest.value) else None
        else None
  }

  /** `s` is finite and unrolls to exactly the steps `st`. */
  ghost predicate Unrolls(s: Stream, st: seq<Step>) {
    exists fuel: nat :: Spine(s, fuel) == Some(st)
  }

  /** The value of an element and the side effects of running its head. */
  datatype Observed = Observed(value: Data, log: seq<EffectId>)

  /** Running each head `hs[i]` yields `rs[i]`. */
  ghost predicate HeadsYield(hs: seq<IO>, rs: seq<Observed>) {
    |hs| == |rs| &&
    forall i :: 0 <= i < |hs| ==> Yields(hs[i], Ok(D(rs[i].value)), rs[i].log)
  }

  /** Running the heads `hs` in order, up to and including the first one
      whose value fails `go`, yields `rs`; when no value fails, every head
      is run. The heads after the failing one are never run, so nothing is
      asked of them: they may fail, or never finish. */
  ghost predicate HeadsYieldWhile(hs: seq<IO>, rs: seq<Observed>, go: Data -> bool) {
    ObservesWhile(|hs|, rs, go) &&
    forall i :: 0 <= i < |rs| ==> Yields(hs[i], Ok(D(rs[i].value)), rs[i].log)
  }

  /** `rs` covers the first of `n` heads up to and including the first one
      whose value fails `go`, or all `n` heads when no value fails. */
  predicate ObservesWhile(n: nat, rs: seq<Observed>, go: Data -> bool) {
    |rs| <= n && (|rs| < n ==> |rs| > 0 && !go(rs[|rs| - 1].value))
  }

  /** Heads that all yield certainly yield up to the first failing one. */
  lemma {:induction false} HeadsYieldWhileAll(hs: seq<IO>, rs: seq<Observed>, go: Data -> bool)
    requires HeadsYield(hs, rs)
    ensures HeadsYieldWhile(hs, rs, go)
  {
  }

  /** Running the heads `hs` in order, the first `|rs|` yield `rs` and the
      next one fails with `e`, having had the side effects `l`. The heads
      after it are never run, so nothing is asked of them. */
  ghost predicate HeadsFail(hs: seq<IO>, rs: seq<Observed>, e: Error, l: seq<EffectId>) {
    |rs| < |hs| &&
    (forall i :: 0 <= i < |rs| ==> Yields(hs[i], Ok(D(rs[i].value)), rs[i].log)) &&
    Yields(hs[|rs|], Fail(e), l)
  }

  /** The side effects of running a stream up to a failing head: unrolling
      it, with each head before the failing one run where it appears
      (`rs`), then the failing head's own `l`. */
  function FailLog(st: seq<Step>, rs: seq<Observed>, l: seq<EffectId>): seq<EffectId> {
    if |st| == 0 then []
    else match st[0]
      case Ev(e) => [e] + FailLog(st[1..], rs, l)
      case El(_) => if |rs| == 0 then l else rs[0].log + FailLog(st[1..], rs[1..], l)
  }

  /** Past a first value that passes `go`, the rest of `rs` covers the
      remaining heads in the same way. */
  lemma {:induction false} ObservesWhileTail(n: nat, rs: seq<Observed>, go: Data -> bool)
    requires ObservesWhile(n, rs, go) && n > 0
    ensures |rs| > 0
    ensures go(rs[0].value) ==> ObservesWhile(n - 1, rs[1..], go)
  {
    if |rs| > 1 {
      assert rs[1..][|rs| - 2] == rs[|rs| - 1];
    }
  }

  /** The element values of `rs`. */
  function Values(rs: seq<Observed>): (vals: seq<Data>)
    ensures |vals| == |rs|
    ensures forall i :: 0 <= i < |rs| ==> vals[i] == rs[i].value
  {
    if |rs| == 0 then [] else [rs[0].value] + Values(rs[1..])
  }

  lemma {:induction false} ValuesTail(rs: seq<Observed>)
    requires |rs| > 0
    ensures Values(rs)[1..] == Values(rs[1..])
  {
  }

  /** All the side effects of `rs`, in order. */
  function Logs(rs: seq<Observed>): seq<EffectId> {
    if |rs| == 0 then [] else rs[0].log + Logs(rs[1..])
  }

  /** Pure heads holding `vals`, in order. */
  function Pures(vals: seq<Data>): seq<IO> {
    if |vals| == 0 then [] else [Streams.PureData(vals[0])] + Pures(vals[1..])
  }

  /** The side effects of a traversal that unrolls `st` and runs every head
      where it appears, the heads yielding `rs`. */
  function Expand(st: seq<Step>, rs: seq<Observed>): seq<EffectId> {
    if |st| == 0 then []
    else match st[0]
      case Ev(e) => [e] + Expand(st[1..], rs)
      case El(_) => if |rs| == 0 then [] else rs[0].log + Expand(st[1..], rs[1..])
  }

  /** The first head of a `Cons` yields the first observation, and the other
      heads the others. */
  lemma {:induction false} ConsHeadsYield(h: IO, st: seq<Step>, rs: seq<Observed>)
    requires HeadsYield(Heads([El(h)] + st), rs)
    ensures |rs| > 0 && Yields(h, Ok(D(rs[0].value)), rs[0].log)
    ensures HeadsYield(Heads(st), rs[1..])
  {
    assert ([El(h)] + st)[1..] == st;
    var hs := Heads(st);
    assert Heads([El(h)] + st) == [h] + hs;
    assert ([h] + hs)[0] == h;
    forall i | 0 <= i < |hs|
      ensures Yields(hs[i], Ok(D(rs[1..][i].value)), rs[1..][i].log)
    {
      assert ([h] + hs)[i + 1] == hs[i];
      assert rs[1..][i] == rs[i + 1];
    }
  }

  /** The first head of a `Cons` is always run; the others are run only
      when its value passes `go`. */
  lemma {:induction false} ConsHeadsYieldWhile(h: IO, st: seq<Step>, rs: seq<Observed>, go: Data -> bool)
    requires HeadsYieldWhile(Heads([El(h)] + st), rs, go)
    ensures |rs| > 0 && Yields(h, Ok(D(rs[0].value)), rs[0].log)
    ensures go(rs[0].value) ==> HeadsYieldWhile(Heads(st), rs[1..], go)
  {
    assert ([El(h)] + st)[1..] == st;
    var hs := Heads(st);
    assert Heads([El(h)] + st) == [h] + hs;
    assert ([h] + hs)[0] == h;
    forall i | 0 <= i < |rs| - 1
      ensures Yields(hs[i], Ok(D(rs[1..][i].value)), rs[1..][i].log)
    {
      assert ([h] + hs)[i + 1] == hs[i];
      assert rs[1..][i] == rs[i + 1];
    }
    if |rs| > 1 {
      assert rs[1..][|rs| - 2] == rs[|rs| - 1];
    }
  }

  /** The first head of a `Cons` either is the failing one or yields the
      first observation, and the failure is then further on. */
  lemma {:induction false} ConsHeadsFail(h: IO, st: seq<Step>, rs: seq<Observed>, e: Error, l: seq<EffectId>)
    requires HeadsFail(Heads([El(h)] + st), rs, e, l)
    ensures |rs| == 0 ==> Yields(h, Fail(e), l)
    ensures |rs| > 0 ==> Yields(h, Ok(D(rs[0].value)), rs[0].log) && HeadsFail(Heads(st), rs[1..], e, l)
    ensures FailLog([El(h)] + st, rs, l) == if |rs| == 0 then l else rs[0].log + FailLog(st, rs[1..], l)
  {
    assert ([El(h)] + st)[1..] == st;
    var hs := Heads(st);
    assert Heads([El(h)] + st) == [h] + hs;
    assert ([h] + hs)[0] == h;
    forall i | 0 <= i < |rs| - 1
      ensures Yields(hs[i], Ok(D(rs[1..][i].value)), rs[1..][i].log)
    {
      assert ([h] + hs)[i + 1] == hs[i];
      assert rs[1..][i] == rs[i + 1];
    }
    if |rs| > 0 {
      assert ([h] + hs)[|rs|] == hs[|rs| - 1];
    }
  }

  lemma {:induction false} EvsConcat(a: seq<EffectId>, b: seq<EffectId>)
    ensures Evs(a + b) == Evs(a) + Evs(b)
    decreases |a|
  {
    if |a| == 0 {
      assert a + b == b;
    } else {
      assert (a + b)[1..] == a[1..] + b;
      EvsConcat(a[1..], b);
    }
  }

  lemma {:induction false} HeadsConcat(a: seq<Step>, b: seq<Step>)
    ensures Heads(a + b) == Heads(a) + Heads(b)
    decreases |a|
  {
    if |a| == 0 {
      assert a + b == b;
    } else {
      var first := if a[0].El? then [a[0].head] else [];
      calc {
        Heads(a + b);
        { SplitFirst(a, b); }
        first + Heads(a[1..] + b);
        { HeadsConcat(a[1..], b); }
        first + (Heads(a[1..]) + Heads(b));
        { AppendAssoc(first, Heads(a[1..]), Heads(b)); }
        Heads(a) + Heads(b);
      }
    }
  }

  lemma {:induction false} HeadsEvs(l: seq<EffectId>)
    ensures Heads(Evs(l)) == []
    decreases |l|
  {
    if |l| > 0 {
      HeadsConcat([Ev(l[0])], Evs(l[1..]));
      HeadsEvs(l[1..]);
    }
  }

  /** The heads of steps are those of the first step, then those of the rest. */
  lemma {:induction false} HeadsStep(st: seq<Step>)
    requires |st| > 0
    ensures st[0].El? ==> Heads(st) == [st[0].head] + Heads(st[1..]) && Heads(st)[1..] == Heads(st[1..])
    ensures st[0].Ev? ==> Heads(st) == Heads(st[1..])
  {
  }

  lemma {:induction false} HeadsEls(hs: seq<IO>)
    ensures Heads(Els(hs)) == hs
    decreases |hs|
  {
    if |hs| > 0 {
      HeadsConcat([El(hs[0])], Els(hs[1..]));
      HeadsEls(hs[1..]);
    }
  }

  /** No side effects in front change nothing. */
  lemma {:induction false} NoEvs(st: seq<Step>)
    ensures Evs([]) + st == st
  {
    assert Evs([]) == [];
  }

  /** Unrolling past the first of some side effects. */
  lemma {:induction false} EvsStep(l: seq<EffectId>, st: seq<Step>)
    requires |l| > 0
    ensures |Evs(l) + st| > 0 && (Evs(l) + st)[0] == Ev(l[0])
    ensures (Evs(l) + st)[1..] == Evs(l[1..]) + st
  {
    ConsAppend(Ev(l[0]), Evs(l[1..]), st);
  }

  /** Heads after some side effects are the heads after them. */
  lemma {:induction false} HeadsAfterEvs(l: seq<EffectId>, st: seq<Step>)
    ensures Heads(Evs(l) + st) == Heads(st)
  {
    HeadsConcat(Evs(l), st);
    HeadsEvs(l);
  }

  lemma {:induction false} ExpandAfterEvs(l: seq<EffectId>, st: seq<Step>, rs: seq<Observed>)
    ensures Expand(Evs(l) + st, rs) == l + Expand(st, rs)
    decreases |l|
  {
    if |l| == 0 {
      assert Evs(l) + st == st;
    } else {
      EvsStep(l, st);
      ExpandAfterEvs(l[1..], st, rs);
      LogStep(l, Expand(st, rs));
    }
  }

  lemma {:induction false} FailLogAfterEvs(l0: seq<EffectId>, st: seq<Step>, rs: seq<Observed>, l: seq<EffectId>)
    ensures FailLog(Evs(l0) + st, rs, l) == l0 + FailLog(st, rs, l)
    decreases |l0|
  {
    if |l0| == 0 {
      assert Evs(l0) + st == st;
    } else {
      EvsStep(l0, st);
      FailLogAfterEvs(l0[1..], st, rs, l);
      LogStep(l0, FailLog(st, rs, l));
    }
  }

  /** More fuel never changes a completed unrolling. */
  lemma {:induction false} SpineMonotone(s: Stream, f1: nat, f2: nat)
    requires f1 <= f2 && Spine(s, f1).Some?
    ensures Spine(s, f2) == Spine(s, f1)
    decreases f1, s
  {
    match s {
      case Nil =>
      case Cons(h, t) =>
        SpineMonotone(t, f1, f2);
      case Defer(io) =>
        IOLaws.RunMonotone(io, f1, f2);
        SpineMonotone(Run(io, f1).out.v.s, f1 - 1, f2 - 1);
    }
  }

  /** A stream unrolls to at most one sequence of steps. */
  lemma {:induction false} UnrollsUnique(s: Stream, a: seq<Step>, b: seq<Step>)
    requires Unrolls(s, a) && Unrolls(s, b)
    ensures a == b
  {
    var f1: nat :| Spine(s, f1) == Some(a);
    var f2: nat :| Spine(s, f2) == Some(b);
    if f1 <= f2 {
      SpineMonotone(s, f1, f2);
    } else {
      SpineMonotone(s, f2, f1);
    }
  }

  lemma {:induction false} SpineUnrolls(s: Stream, fuel: nat)
    requires Spine(s, fuel).Some?
    ensures Unrolls(s, Spine(s, fuel).value)
  {
    assert Spine(s, fuel) == Some(Spine(s, fuel).value);
  }

  /** `Nil` unrolls to no steps, and only to those. */
  lemma {:induction false} UnrollsNil(st: seq<Step>)
    ensures Unrolls(Nil, st) <==> st == []
  {
    if st == [] {
      assert Spine(Nil, 0) == Some(st);
    }
  }

  /** A `Cons` exposes its head, unevaluated, then unrolls its tail. */
  lemma {:induction false} UnrollsCons(h: IO, t: Stream, st: seq<Step>)
    ensures Unrolls(Cons(h, t), [El(h)] + st) <==> Unrolls(t, st)
  {
    if Unrolls(t, st) {
      var f: nat :| Spine(t, f) == Some(st);
      assert Spine(Cons(h, t), f) == Some([El(h)] + st);
    }
    if Unrolls(Cons(h, t), [El(h)] + st) {
      var f: nat :| Spine(Cons(h, t), f) == Some([El(h)] + st);
      var rest := Spine(t, f).value;
      assert ([El(h)] + rest)[1..] == rest;
      assert ([El(h)] + st)[1..] == st;
    }
  }

  /** A `Defer` runs its `IO` once, then unrolls the stream it yields. */
  lemma {:induction false} UnrollsDefer(io: IO, s: Stream, l: seq<EffectId>, st: seq<Step>)
    requires Yields(io, Ok(StreamV(s)), l)
    requires Unrolls(s, st)
    ensures Unrolls(Defer(io), Evs(l) + st)
  {
    var f1: nat :| Run(io, f1) == Done(Ok(StreamV(s)), l);
    var f2: nat :| Spine(s, f2) == Some(st);
    var f := if f1 < f2 + 1 then f2 + 1 else f1;
    IOLaws.RunMonotone(io, f1, f);
    SpineMonotone(s, f2, f - 1);
    assert Spine(Defer(io), f) == Some(Evs(l) + st);
  }

  /** Every unrolling of a `Defer` is of that form. */
  lemma {:induction false} UnrollsDeferInverse(io: IO, fuel: nat, st: seq<Step>)
    requires Spine(Defer(io), fuel) == Some(st)
    ensures fuel > 0 && Run(io, fuel).Done? && Run(io, fuel).out.Ok? && Run(io, fuel).out.v.StreamV?
    ensures Yields(io, Run(io, fuel).out, Run(io, fuel).log)
    ensures Spine(Run(io, fuel).out.v.s, fuel - 1).Some?
    ensures st == Evs(Run(io, fuel).log) + Spine(Run(io, fuel).out.v.s, fuel - 1).value
  {
    IOLaws.RunYields(io, fuel);
  }

  /** A deferred `flatMap` runs its source, then unrolls what the
      continuation builds from the stream the source yields. */
  lemma {:induction false} UnrollsDeferBind(io: IO, k: Kont, s: Stream, l: seq<EffectId>, st: seq<Step>)
    requires Yields(io, Ok(StreamV(s)), l)
    requires Unrolls(Defer(Closures.ApplyKont(k, StreamV(s))), st)
    ensures Unrolls(Defer(Bind(io, k)), Evs(l) + st)
  {
    var next := Closures.ApplyKont(k, StreamV(s));
    var f: nat :| Spine(Defer(next), f) == Some(st);
    var o, l2, s2, st2 := DeferParts(next, f, st);
    BindThenUnrolls(io, k, s, l, next, l2, s2, st2);
  }

  /** The run of a deferred `flatMap` followed by the unrolling of the
      stream its continuation yields. */
  lemma {:induction false} BindThenUnrolls(io: IO, k: Kont, s: Stream, l: seq<EffectId>,
                        next: IO, l2: seq<EffectId>, s2: Stream, st2: seq<Step>)
    requires Yields(io, Ok(StreamV(s)), l)
    requires next == Closures.ApplyKont(k, StreamV(s))
    requires Yields(next, Ok(StreamV(s2)), l2)
    requires Unrolls(s2, st2)
    ensures Unrolls(Defer(Bind(io, k)), Evs(l) + (Evs(l2) + st2))
  {
    IOLaws.BindOk(io, k, StreamV(s), l, Ok(StreamV(s2)), l2);
    UnrollsDefer(Bind(io, k), s2, l + l2, st2);
    EvsConcat(l, l2);
    AppendAssoc(Evs(l), Evs(l2), st2);
  }

  /** The parts of an unrolled `Defer`: the run of its `IO` to a stream,
      and that stream's spine. */
  lemma {:induction false} DeferParts(io: IO, fuel: nat, st: seq<Step>) returns (o: Outcome, l: seq<EffectId>, s: Stream, rest: seq<Step>)
    requires Spine(Defer(io), fuel) == Some(st)
    ensures Yields(io, o, l) && o == Ok(StreamV(s))
    ensures Unrolls(s, rest) && st == Evs(l) + rest
  {
    UnrollsDeferInverse(io, fuel, st);
    var r := Run(io, fuel);
    o, l, s := r.out, r.log, r.out.v.s;
    SpineUnrolls(s, fuel - 1);
    rest := Spine(s, fuel - 1).value;
  }

  /** A deferred `map` runs its source and unrolls the stream the mapping
      function makes of its value. */
  lemma {:induction false} UnrollsDeferMap(io: IO, g: ValFn, v: Val, l: seq<EffectId>, s: Stream, st: seq<Step>)
    requires Yields(io, Ok(v), l)
    requires Closures.ApplyFn(g, v) == StreamV(s)
    requires Unrolls(s, st)
    ensures Unrolls(Defer(Effects.Map(io, g)), Evs(l) + st)
  {
    IOLaws.MapYields(io, g, Ok(v), l);
    UnrollsDefer(Effects.Map(io, g), s, l, st);
  }

  /** lazyTransform: postponing a conversion changes neither the elements
      nor the side effects of unrolling. */
  lemma {:induction false} LazyTransformUnrolls(t: Stream, op: Op, st: seq<Step>)
    ensures Unrolls(Streams.LazyTransform(t, op), st) <==> Unrolls(Streams.Transform(op, t), st)
  {
    if t.Cons? {
      var conv := Streams.Transform(op, t);
      IOLaws.ForceYields(TransformT(op, t));
      if Unrolls(conv, st) {
        UnrollsDefer(Delay(TransformT(op, t)), conv, [], st);
        NoEvs(st);
      }
      if Unrolls(Streams.LazyTransform(t, op), st) {
        var f: nat :| Spine(Defer(Delay(TransformT(op, t))), f) == Some(st);
        UnrollsDeferInverse(Delay(TransformT(op, t)), f, st);
        NoEvs(Spine(conv, f - 1).value);
        SpineUnrolls(conv, f - 1);
      }
    }
  }

  /** fromList/of/eval: the stream of heads `hs` unrolls to exactly those
      heads, unevaluated, with no side effect. */
  lemma {:induction false} ChainUnrolls(hs: seq<IO>)
    ensures Unrolls(Streams.Chain(hs), Els(hs))
    decreases |hs|
  {
    if |hs| == 0 {
      UnrollsNil([]);
    } else {
      ChainUnrolls(hs[1..]);
      UnrollsCons(hs[0], Streams.Chain(hs[1..]), Els(hs[1..]));
    }
  }

  // Plain sequence identities, kept as small lemmas so that the stream
  // proofs above stay cheap to check.

  /** The first item of a non-empty `a` followed by `b`, and what comes after it. */
  lemma {:induction false} SplitFirst<T>(a: seq<T>, b: seq<T>)
    requires |a| > 0
    ensures |a + b| > 0 && (a + b)[0] == a[0]
    ensures (a + b)[1..] == a[1..] + b
  {
  }

  lemma {:induction false} EmptyAppend<T>(a: seq<T>, b: seq<T>)
    requires a == []
    ensures a + b == b
  {
  }

  lemma {:induction false} AppendAssoc<T>(a: seq<T>, b: seq<T>, c: seq<T>)
    ensures (a + b) + c == a + (b + c)
  {
  }

  /** The first item of `[x] + a` followed by `b`, and what comes after it. */
  lemma {:induction false} ConsAppend<T>(x: T, a: seq<T>, b: seq<T>)
    ensures |([x] + a) + b| > 0 && (([x] + a) + b)[0] == x
    ensures (([x] + a) + b)[1..] == a + b
  {
    assert ([x] + a) + b == [x] + (a + b);
  }

  /** A log split after its first effect. */
  lemma {:induction false} LogStep(l: seq<EffectId>, rest: seq<EffectId>)
    requires |l| > 0
    ensures l + rest == [l[0]] + (l[1..] + rest)
  {
    assert l == [l[0]] + l[1..];
  }
}

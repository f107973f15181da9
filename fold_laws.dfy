/**
  The folds of Stream.java, run to completion. Over a finite stream whose
  heads yield the observations `rs`, each fold yields the list function of
  the element values, and its side effects are those of unrolling the
  stream with each head run where it appears (`Expand`); exists and forall
  stop at the first deciding element.
 */
module FoldLaws {
  import opened Algebra
  import opened Interp
  import Closures
  import Effects
  import Streams
  import IOLaws
  import opened Spines
  import StreamLaws
  import ElementLaws

  /** The right fold of `f` over `vals` from `z`. */
  function SeqFoldRight(f: (Data, Data) -> Data, vals: seq<Data>, z: Data): Data {
    if |vals| == 0 then z else f(vals[0], SeqFoldRight(f, vals[1..], z))
  }

  /** The left fold of `f` over `vals` from `z`. */
  function SeqFoldLeft(f: (Data, Data) -> Data, z: Data, vals: seq<Data>): Data
    decreases |vals|
  {
    if |vals| == 0 then z else SeqFoldLeft(f, f(z, vals[0]), vals[1..])
  }

  /** The steps of a `Cons` are its head then the steps of its tail; the
      heads follow suit. */
  lemma {:induction false} ConsSteps(h: IO, rest: seq<Step>, rs: seq<Observed>)
    requires HeadsYield(Heads([El(h)] + rest), rs)
    ensures |rs| > 0 && Yields(h, Ok(D(rs[0].value)), rs[0].log)
    ensures HeadsYield(Heads(rest), rs[1..])
    ensures Expand([El(h)] + rest, rs) == rs[0].log + Expand(rest, rs[1..])
  {
    ConsHeadsYield(h, rest, rs);
    assert ([El(h)] + rest)[1..] == rest;
  }

  /** foldRight(R z, f): the heads run from first to last, then the value is
      the right fold of `f` over the element values. */
  lemma {:induction false} FoldRightValueYields(s: Stream, fuel: nat, st: seq<Step>, rs: seq<Observed>,
                                                z: Data, f: (Data, Data) -> Data)
    requires Spine(s, fuel) == Some(st)
    requires HeadsYield(Heads(st), rs)
    ensures Yields(Streams.FoldRightValue(s, z, f), Ok(D(SeqFoldRight(f, Values(rs), z))), Expand(st, rs))
    decreases fuel, s
  {
    match s {
      case Nil =>
        IOLaws.PureYields(D(z), Ok(D(z)), []);
      case Cons(h, t) =>
        var rest := Spine(t, fuel).value;
        assert st == [El(h)] + rest;
        ConsSteps(h, rest, rs);
        FoldRightValueYields(t, fuel, rest, rs[1..], z, f);
        var acc := SeqFoldRight(f, Values(rs[1..]), z);
        var tailFold := Streams.FoldRightValue(t, z, f);
        IOLaws.MapYields(tailFold, FoldStep(f, rs[0].value), Ok(D(acc)), Expand(rest, rs[1..]));
        IOLaws.BindOk(h, FoldRightK(LiftStep(f), t, Pure(D(z))), D(rs[0].value), rs[0].log,
                      Ok(D(f(rs[0].value, acc))), Expand(rest, rs[1..]));
        ValuesTail(rs);
      case Defer(io) =>
        UnrollsDeferInverse(io, fuel, st);
        var r := Run(io, fuel);
        var rest := Spine(r.out.v.s, fuel - 1).value;
        HeadsAfterEvs(r.log, rest);
        FoldRightValueYields(r.out.v.s, fuel - 1, rest, rs, z, f);
        IOLaws.BindOk(io, FoldRightS(LiftStep(f), Pure(D(z))), r.out.v, r.log,
                      Ok(D(SeqFoldRight(f, Values(rs), z))), Expand(rest, rs));
        ExpandAfterEvs(r.log, rest, rs);
    }
  }

  /** Prepending every value in turn onto the empty list rebuilds the list. */
  lemma {:induction false} FoldRightPrepend(vals: seq<Data>)
    ensures SeqFoldRight(Streams.Prepend, vals, List([])) == List(vals)
    decreases |vals|
  {
    if |vals| > 0 {
      FoldRightPrepend(vals[1..]);
      assert [vals[0]] + vals[1..] == vals;
    }
  }

  /** toLList: the list of the element values in stream order, with every
      head run once, in order. */
  lemma {:induction false} ToLListYields(s: Stream, fuel: nat, st: seq<Step>, rs: seq<Observed>)
    requires Spine(s, fuel) == Some(st)
    requires HeadsYield(Heads(st), rs)
    ensures Yields(Streams.ToLList(s), Ok(D(List(Values(rs)))), Expand(st, rs))
  {
    FoldRightValueYields(s, fuel, st, rs, List([]), Streams.Prepend);
    FoldRightPrepend(Values(rs));
  }

  /** foldLeft: the heads run from first to last and the value is the left
      fold of `f` over the element values. */
  lemma {:induction false} FoldLeftYields(s: Stream, fuel: nat, st: seq<Step>, rs: seq<Observed>,
                                          z: Data, f: (Data, Data) -> Data)
    requires Spine(s, fuel) == Some(st)
    requires HeadsYield(Heads(st), rs)
    ensures Yields(Streams.FoldLeft(s, z, f), Ok(D(SeqFoldLeft(f, z, Values(rs)))), Expand(st, rs))
    decreases fuel, s
  {
    match s {
      case Nil =>
        IOLaws.PureYields(D(z), Ok(D(z)), []);
      case Cons(h, t) =>
        var rest := Spine(t, fuel).value;
        assert st == [El(h)] + rest;
        ConsSteps(h, rest, rs);
        var z2 := f(z, rs[0].value);
        FoldLeftYields(t, fuel, rest, rs[1..], z2, f);
        IOLaws.BindOk(h, FoldLeftK(f, t, z), D(rs[0].value), rs[0].log,
                      Ok(D(SeqFoldLeft(f, z2, Values(rs[1..])))), Expand(rest, rs[1..]));
        ValuesTail(rs);
      case Defer(io) =>
        UnrollsDeferInverse(io, fuel, st);
        var r := Run(io, fuel);
        var rest := Spine(r.out.v.s, fuel - 1).value;
        HeadsAfterEvs(r.log, rest);
        FoldLeftYields(r.out.v.s, fuel - 1, rest, rs, z, f);
        IOLaws.BindOk(io, FoldLeftS(f, z), r.out.v, r.log,
                      Ok(D(SeqFoldLeft(f, z, Values(rs)))), Expand(rest, rs));
        ExpandAfterEvs(r.log, rest, rs);
    }
  }

  /** A left fold that prepends builds the values reversed, on top of the
      starting list. */
  lemma {:induction false} FoldLeftPrepend(acc: seq<Data>, vals: seq<Data>)
    ensures SeqFoldLeft(Streams.PrependTo, List(acc), vals) == List(StreamLaws.Reversed(vals) + acc)
    decreases |vals|
  {
    if |vals| > 0 {
      FoldLeftPrepend([vals[0]] + acc, vals[1..]);
      assert StreamLaws.Reversed(vals[1..]) + ([vals[0]] + acc)
          == StreamLaws.Reversed(vals[1..]) + [vals[0]] + acc;
    }
  }

  /** `foldLeft(LNil, LList::prepend)` yields the element values reversed. */
  lemma {:induction false} FoldLeftReverses(s: Stream, fuel: nat, st: seq<Step>, rs: seq<Observed>)
    requires Spine(s, fuel) == Some(st)
    requires HeadsYield(Heads(st), rs)
    ensures Yields(Streams.FoldLeft(s, List([]), Streams.PrependTo),
                   Ok(D(List(StreamLaws.Reversed(Values(rs))))), Expand(st, rs))
  {
    FoldLeftYields(s, fuel, st, rs, List([]), Streams.PrependTo);
    FoldLeftPrepend([], Values(rs));
    assert StreamLaws.Reversed(Values(rs)) + [] == StreamLaws.Reversed(Values(rs));
  }

  /** The step `f` goes on to the rest of the fold for the value `v`: always
      for a lifted function, and for exists and forall while `v` does not
      decide the result. */
  predicate Continues(f: RStep, v: Data) {
    match f
    case LiftStep(_) => true
    case ExistsStep(p) => !p(v)
    case ForallStep(p) => p(v)
  }

  /** foldRight over a stream one of whose heads fails: when no head before
      it decides the result, the fold fails with the same error, after the
      side effects up to and including the failing head; neither the heads
      after it nor the starting value `z` are run. */
  lemma {:induction false} FoldRightFails(s: Stream, fuel: nat, st: seq<Step>, rs: seq<Observed>,
                                          z: IO, f: RStep, e: Error, l: seq<EffectId>)
    requires Spine(s, fuel) == Some(st)
    requires HeadsFail(Heads(st), rs, e, l)
    requires forall i :: 0 <= i < |rs| ==> Continues(f, rs[i].value)
    ensures Yields(Streams.FoldRight(s, z, f), Fail(e), FailLog(st, rs, l))
    decreases fuel, s
  {
    match s {
      case Nil =>
        assert false;
      case Cons(h, t) =>
        var rest := Spine(t, fuel).value;
        assert st == [El(h)] + rest;
        ConsHeadsFail(h, rest, rs, e, l);
        if |rs| == 0 {
          IOLaws.BindFail(h, FoldRightK(f, t, z), e, l);
        } else {
          var v := rs[0].value;
          assert Continues(f, v);
          forall i | 0 <= i < |rs| - 1 ensures Continues(f, rs[1..][i].value) {
            assert rs[1..][i] == rs[i + 1];
          }
          FoldRightFails(t, fuel, rest, rs[1..], z, f, e, l);
          var tailFold := Streams.FoldRight(t, z, f);
          if f.LiftStep? {
            IOLaws.MapYields(tailFold, FoldStep(f.f, v), Fail(e), FailLog(rest, rs[1..], l));
          }
          assert Yields(Closures.ApplyKont(FoldRightK(f, t, z), D(v)), Fail(e), FailLog(rest, rs[1..], l));
          IOLaws.BindOk(h, FoldRightK(f, t, z), D(v), rs[0].log, Fail(e), FailLog(rest, rs[1..], l));
        }
      case Defer(io) =>
        UnrollsDeferInverse(io, fuel, st);
        var r := Run(io, fuel);
        var rest := Spine(r.out.v.s, fuel - 1).value;
        HeadsAfterEvs(r.log, rest);
        FoldRightFails(r.out.v.s, fuel - 1, rest, rs, z, f, e, l);
        IOLaws.BindOk(io, FoldRightS(f, z), r.out.v, r.log, Fail(e), FailLog(rest, rs, l));
        FailLogAfterEvs(r.log, rest, rs, l);
    }
  }

  /** toLList over a stream one of whose heads fails fails with that error:
      no list is built. */
  lemma {:induction false} ToLListFails(s: Stream, fuel: nat, st: seq<Step>, rs: seq<Observed>,
                                        e: Error, l: seq<EffectId>)
    requires Spine(s, fuel) == Some(st)
    requires HeadsFail(Heads(st), rs, e, l)
    ensures Yields(Streams.ToLList(s), Fail(e), FailLog(st, rs, l))
  {
    FoldRightFails(s, fuel, st, rs, Pure(D(List([]))), LiftStep(Streams.Prepend), e, l);
  }

  /** foldLeft over a stream one of whose heads fails fails with that error,
      after the side effects up to and including the failing head. */
  lemma {:induction false} FoldLeftFails(s: Stream, fuel: nat, st: seq<Step>, rs: seq<Observed>,
                                         z: Data, f: (Data, Data) -> Data, e: Error, l: seq<EffectId>)
    requires Spine(s, fuel) == Some(st)
    requires HeadsFail(Heads(st), rs, e, l)
    ensures Yields(Streams.FoldLeft(s, z, f), Fail(e), FailLog(st, rs, l))
    decreases fuel, s
  {
    match s {
      case Nil =>
        assert false;
      case Cons(h, t) =>
        var rest := Spine(t, fuel).value;
        assert st == [El(h)] + rest;
        ConsHeadsFail(h, rest, rs, e, l);
        if |rs| == 0 {
          IOLaws.BindFail(h, FoldLeftK(f, t, z), e, l);
        } else {
          FoldLeftFails(t, fuel, rest, rs[1..], f(z, rs[0].value), f, e, l);
          IOLaws.BindOk(h, FoldLeftK(f, t, z), D(rs[0].value), rs[0].log, Fail(e), FailLog(rest, rs[1..], l));
        }
      case Defer(io) =>
        UnrollsDeferInverse(io, fuel, st);
        var r := Run(io, fuel);
        var rest := Spine(r.out.v.s, fuel - 1).value;
        HeadsAfterEvs(r.log, rest);
        FoldLeftFails(r.out.v.s, fuel - 1, rest, rs, z, f, e, l);
        IOLaws.BindOk(io, FoldLeftS(f, z), r.out.v, r.log, Fail(e), FailLog(rest, rs, l));
        FailLogAfterEvs(r.log, rest, rs, l);
    }
  }

  /** The search step of exists (`target` true) or forall (`target` false):
      an element whose test gives `target` decides the result. */
  function Searcher(p: Data -> bool, target: bool): RStep {
    if target then ExistsStep(p) else ForallStep(p)
  }

  /** Some value's test gives `target`. */
  function Hit(vals: seq<Data>, p: Data -> bool, target: bool): (b: bool)
    ensures b <==> exists i :: 0 <= i < |vals| && p(vals[i]) == target
  {
    if |vals| == 0 then false
    else if p(vals[0]) == target then true
    else
      var rest := Hit(vals[1..], p, target);
      assert forall i :: 1 <= i < |vals| ==> vals[i] == vals[1..][i - 1];
      rest
  }

  /** The side effects of a search: unrolling and running heads, up to and
      including the first head whose value decides it. */
  function SearchLog(st: seq<Step>, rs: seq<Observed>, p: Data -> bool, target: bool): seq<EffectId> {
    if |st| == 0 then []
    else match st[0]
      case Ev(e) => [e] + SearchLog(st[1..], rs, p, target)
      case El(_) =>
        if |rs| == 0 then []
        else rs[0].log + (if p(rs[0].value) == target then [] else SearchLog(st[1..], rs[1..], p, target))
  }

  lemma {:induction false} SearchLogAfterEvs(l: seq<EffectId>, st: seq<Step>, rs: seq<Observed>,
                                             p: Data -> bool, target: bool)
    ensures SearchLog(Evs(l) + st, rs, p, target) == l + SearchLog(st, rs, p, target)
    decreases |l|
  {
    if |l| == 0 {
      assert Evs(l) + st == st;
    } else {
      EvsStep(l, st);
      SearchLogAfterEvs(l[1..], st, rs, p, target);
      LogStep(l, SearchLog(st, rs, p, target));
    }
  }

  /** The shared body of exists and forall: the result is `target` exactly
      when some element's test gives `target`. */
  lemma {:induction false} SearchYields(s: Stream, fuel: nat, st: seq<Step>, rs: seq<Observed>,
                                        p: Data -> bool, target: bool)
    requires Spine(s, fuel) == Some(st)
    requires HeadsYieldWhile(Heads(st), rs, Undecided(p, target))
    ensures Yields(Streams.FoldRight(s, Pure(D(Bool(!target))), Searcher(p, target)),
                   Ok(D(Bool(Hit(Values(rs), p, target) == target))), SearchLog(st, rs, p, target))
    decreases fuel, s
  {
    var z := Pure(D(Bool(!target)));
    var f := Searcher(p, target);
    match s {
      case Nil =>
        IOLaws.PureYields(D(Bool(!target)), Ok(D(Bool(!target))), []);
      case Cons(h, t) =>
        var rest := Spine(t, fuel).value;
        assert st == [El(h)] + rest;
        ConsHeadsYieldWhile(h, rest, rs, Undecided(p, target));
        ValuesTail(rs);
        var v := rs[0].value;
        if p(v) == target {
          IOLaws.PureYields(D(Bool(target)), Ok(D(Bool(target))), []);
          assert Closures.ApplyKont(FoldRightK(f, t, z), D(v)) == Pure(D(Bool(target)));
          IOLaws.BindOk(h, FoldRightK(f, t, z), D(v), rs[0].log, Ok(D(Bool(target))), []);
          assert SearchLog(st, rs, p, target) == rs[0].log + [];
        } else {
          assert Undecided(p, target)(v);
          SearchYields(t, fuel, rest, rs[1..], p, target);
          assert Closures.ApplyKont(FoldRightK(f, t, z), D(v)) == Streams.FoldRight(t, z, f);
          IOLaws.BindOk(h, FoldRightK(f, t, z), D(v), rs[0].log,
                        Ok(D(Bool(Hit(Values(rs[1..]), p, target) == target))),
                        SearchLog(rest, rs[1..], p, target));
        }
      case Defer(io) =>
        UnrollsDeferInverse(io, fuel, st);
        var r := Run(io, fuel);
        var rest := Spine(r.out.v.s, fuel - 1).value;
        HeadsAfterEvs(r.log, rest);
        SearchYields(r.out.v.s, fuel - 1, rest, rs, p, target);
        IOLaws.BindOk(io, FoldRightS(f, z), r.out.v, r.log,
                      Ok(D(Bool(Hit(Values(rs), p, target) == target))), SearchLog(rest, rs, p, target));
        SearchLogAfterEvs(r.log, rest, rs, p, target);
    }
  }

  /** exists(p): true exactly when some element satisfies `p`; the heads
      after the first such element are never run. */
  lemma {:induction false} ExistsYields(s: Stream, fuel: nat, st: seq<Step>, rs: seq<Observed>, p: Data -> bool)
    requires Spine(s, fuel) == Some(st)
    requires HeadsYieldWhile(Heads(st), rs, Undecided(p, true))
    ensures Yields(Streams.Exists(s, p),
                   Ok(D(Bool(exists i :: 0 <= i < |rs| && p(rs[i].value)))), SearchLog(st, rs, p, true))
  {
    SearchYields(s, fuel, st, rs, p, true);
  }

  /** forall(p): true exactly when every element satisfies `p`; the heads
      after the first element that fails are never run. */
  lemma {:induction false} ForallYields(s: Stream, fuel: nat, st: seq<Step>, rs: seq<Observed>, p: Data -> bool)
    requires Spine(s, fuel) == Some(st)
    requires HeadsYieldWhile(Heads(st), rs, Undecided(p, false))
    ensures Yields(Streams.Forall(s, p),
                   Ok(D(Bool(forall i :: 0 <= i < |rs| ==> p(rs[i].value)))), SearchLog(st, rs, p, false))
  {
    SearchYields(s, fuel, st, rs, p, false);
  }

  /** A search runs a prefix of what a full traversal runs, and all of it
      when nothing decides the search early. */
  lemma {:induction false} SearchLogPrefix(st: seq<Step>, rs: seq<Observed>, p: Data -> bool, target: bool)
    ensures SearchLog(st, rs, p, target) <= Expand(st, rs)
    ensures !Hit(Values(rs), p, target) ==> SearchLog(st, rs, p, target) == Expand(st, rs)
    decreases |st|
  {
    if |st| > 0 {
      if st[0].Ev? {
        SearchLogPrefix(st[1..], rs, p, target);
      } else if |rs| > 0 {
        SearchLogPrefix(st[1..], rs[1..], p, target);
        ValuesTail(rs);
        assert rs[0].log + [] == rs[0].log;
      }
    }
  }

  /** exists(p) and forall(not p) run the same side effects and disagree in
      their results. */
  lemma {:induction false} ExistsForallDual(st: seq<Step>, rs: seq<Observed>, p: Data -> bool)
    ensures SearchLog(st, rs, p, true) == SearchLog(st, rs, x => !p(x), false)
    ensures Hit(Values(rs), p, true) == Hit(Values(rs), x => !p(x), false)
    decreases |st|
  {
    if |st| > 0 {
      if st[0].Ev? {
        ExistsForallDual(st[1..], rs, p);
      } else if |rs| > 0 {
        ExistsForallDual(st[1..], rs[1..], p);
      }
    }
  }

  /** The side effects of unrolling before the first element. */
  function Lead(st: seq<Step>): seq<EffectId> {
    if |st| == 0 then []
    else match st[0]
      case Ev(e) => [e] + Lead(st[1..])
      case El(_) => []
  }

  lemma {:induction false} LeadAfterEvs(l: seq<EffectId>, st: seq<Step>)
    ensures Lead(Evs(l) + st) == l + Lead(st)
    decreases |l|
  {
    if |l| == 0 {
      assert Evs(l) + st == st;
    } else {
      EvsStep(l, st);
      LeadAfterEvs(l[1..], st);
      LogStep(l, Lead(st));
    }
  }

  /** The first element's head, unevaluated, if there is one. */
  function FirstHead(st: seq<Step>): Option<IO> {
    var hs := Heads(st);
    if |hs| > 0 then Some(hs[0]) else None
  }

  lemma {:induction false} ConsFirst(h: IO, rest: seq<Step>)
    ensures FirstHead([El(h)] + rest) == Some(h)
    ensures Lead([El(h)] + rest) == []
  {
    HeadsConcat([El(h)], rest);
    assert Heads([El(h)]) == [h];
  }

  /** A `Cons` always has a first element. */
  lemma {:induction false} ConsHasFirst(h: IO, t: Stream, fuel: nat)
    ensures Spine(Cons(h, t), fuel).Some? ==> FirstHead(Spine(Cons(h, t), fuel).value) == Some(h)
  {
    if Spine(t, fuel).Some? {
      ConsFirst(h, Spine(t, fuel).value);
    }
  }

  /** lazyHead: forces the stream only as far as its first element and hands
      back that element's head without running it. */
  lemma {:induction false} LazyHeadYields(s: Stream, fuel: nat, st: seq<Step>)
    requires Spine(s, fuel) == Some(st)
    ensures Yields(Streams.LazyHead(s), Ok(HeadIO(FirstHead(st))), Lead(st))
    decreases fuel, s
  {
    match s {
      case Nil =>
        IOLaws.PureYields(HeadIO(None), Ok(HeadIO(None)), []);
      case Cons(h, t) =>
        ConsFirst(h, Spine(t, fuel).value);
        IOLaws.PureYields(HeadIO(Some(h)), Ok(HeadIO(Some(h))), []);
      case Defer(io) =>
        UnrollsDeferInverse(io, fuel, st);
        var r := Run(io, fuel);
        var rest := Spine(r.out.v.s, fuel - 1).value;
        HeadsAfterEvs(r.log, rest);
        LazyHeadYields(r.out.v.s, fuel - 1, rest);
        IOLaws.BindOk(io, LazyHeadK, r.out.v, r.log, Ok(HeadIO(FirstHead(rest))), Lead(rest));
        LeadAfterEvs(r.log, rest);
    }
  }

  /** headOption on a stream with no element: it is forced to the end and
      gives an empty `Optional`. */
  lemma {:induction false} HeadOptionEmpty(s: Stream, fuel: nat, st: seq<Step>)
    requires Spine(s, fuel) == Some(st)
    requires FirstHead(st).None?
    ensures Yields(Streams.HeadOption(s), Ok(Found(None)), Lead(st))
    decreases fuel, s
  {
    match s {
      case Nil =>
        IOLaws.PureYields(Found(None), Ok(Found(None)), []);
      case Cons(h, t) =>
        ConsHasFirst(h, t, fuel);
      case Defer(io) =>
        UnrollsDeferInverse(io, fuel, st);
        var r := Run(io, fuel);
        var rest := Spine(r.out.v.s, fuel - 1).value;
        HeadsAfterEvs(r.log, rest);
        HeadOptionEmpty(r.out.v.s, fuel - 1, rest);
        IOLaws.BindOk(io, HeadOptionK, r.out.v, r.log, Ok(Found(None)), Lead(rest));
        LeadAfterEvs(r.log, rest);
    }
  }

  /** headOption on a stream with an element: it is forced as far as the
      first element and runs that head alone. */
  lemma {:induction false} HeadOptionFirst(s: Stream, fuel: nat, st: seq<Step>, d: Data, l: seq<EffectId>)
    requires Spine(s, fuel) == Some(st)
    requires FirstHead(st).Some? && Yields(FirstHead(st).value, Ok(D(d)), l)
    ensures Yields(Streams.HeadOption(s), Ok(Found(Some(d))), Lead(st) + l)
    decreases fuel, s
  {
    match s {
      case Nil =>
      case Cons(h, t) =>
        ConsFirst(h, Spine(t, fuel).value);
        IOLaws.MapYields(h, SomeOf, Ok(D(d)), l);
        EmptyAppend(Lead(st), l);
      case Defer(io) =>
        UnrollsDeferInverse(io, fuel, st);
        var r := Run(io, fuel);
        var rest := Spine(r.out.v.s, fuel - 1).value;
        HeadsAfterEvs(r.log, rest);
        HeadOptionFirst(r.out.v.s, fuel - 1, rest, d, l);
        IOLaws.BindOk(io, HeadOptionK, r.out.v, r.log, Ok(Found(Some(d))), Lead(rest) + l);
        LeadAfterEvs(r.log, rest);
        AppendAssoc(r.log, Lead(rest), l);
    }
  }

  /** headOption and lazyHead agree: headOption yields the value of the head
      lazyHead hands back, after the same side effects plus that head's. */
  lemma {:induction false} HeadOptionRunsLazyHead(s: Stream, fuel: nat, st: seq<Step>, h: IO, d: Data, l: seq<EffectId>)
    requires Spine(s, fuel) == Some(st)
    requires Yields(Streams.LazyHead(s), Ok(HeadIO(Some(h))), Lead(st))
    requires Yields(h, Ok(D(d)), l)
    ensures Yields(Streams.HeadOption(s), Ok(Found(Some(d))), Lead(st) + l)
  {
    LazyHeadYields(s, fuel, st);
    IOLaws.YieldsUnique(Streams.LazyHead(s), Ok(HeadIO(Some(h))), Lead(st), Ok(HeadIO(FirstHead(st))), Lead(st));
    HeadOptionFirst(s, fuel, st, d, l);
  }

  /** A full traversal of a stream built by of/eval runs each head once, in
      order. */
  lemma {:induction false} ExpandEls(hs: seq<IO>, rs: seq<Observed>)
    requires |hs| == |rs|
    ensures Expand(Els(hs), rs) == Logs(rs)
    decreases |hs|
  {
    if |hs| > 0 {
      assert Els(hs)[0] == El(hs[0]);
      assert Els(hs)[1..] == Els(hs[1..]);
      ExpandEls(hs[1..], rs[1..]);
    }
  }

  lemma {:induction false} SearchLogElsStep(hs: seq<IO>, rs: seq<Observed>, p: Data -> bool, target: bool)
    requires |hs| > 0 && |rs| > 0
    ensures SearchLog(Els(hs), rs, p, target) ==
      rs[0].log + (if p(rs[0].value) == target then [] else SearchLog(Els(hs[1..]), rs[1..], p, target))
  {
    assert Els(hs)[0] == El(hs[0]);
    assert Els(hs)[1..] == Els(hs[1..]);
  }

  /** The test that ends a search for `target`, as a prefix condition: keep
      going while the test does not give `target`. */
  function Undecided(p: Data -> bool, target: bool): Data -> bool {
    x => p(x) != target
  }

  /** A search over a stream built by of/eval runs the heads up to and
      including the first one whose test gives `target`, and no other. */
  lemma {:induction false} SearchLogEls(hs: seq<IO>, rs: seq<Observed>, p: Data -> bool, target: bool)
    requires |rs| <= |hs|
    ensures var k := ElementLaws.PrefixLen(Values(rs), Undecided(p, target));
      SearchLog(Els(hs), rs, p, target) == Logs(rs[..ElementLaws.Forced(k, |rs|)])
    decreases |hs|
  {
    var q := Undecided(p, target);
    if |hs| > 0 && |rs| == 0 {
      assert Els(hs)[0] == El(hs[0]);
    } else if |hs| > 0 {
      SearchLogElsStep(hs, rs, p, target);
      if p(rs[0].value) == target {
        assert !q(rs[0].value);
        ElementLaws.ForcedFail(rs, q);
        assert rs[0].log + [] == rs[0].log;
      } else {
        assert q(rs[0].value);
        SearchLogEls(hs[1..], rs[1..], p, target);
        ElementLaws.ForcedPass(rs, q);
      }
    } else {
      assert Logs(rs[..ElementLaws.Forced(ElementLaws.PrefixLen(Values(rs), q), |rs|)]) == [];
    }
  }
}

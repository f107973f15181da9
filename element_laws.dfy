/**
  The combinators of Stream.java that must run element heads to decide the
  shape of their result: takeWhile, dropWhile, filter and flatMap. Each runs a
  head only when the rewritten stream is unrolled up to it; what they unroll
  to therefore depends on what the heads yield (`HeadsYield`).
 */
module ElementLaws {
  import opened Algebra
  import opened Interp
  import Closures
  import Effects
  import Streams
  import IOLaws
  import opened Spines
  import StreamLaws

  /** The number of leading values that satisfy `p`. */
  function PrefixLen(vals: seq<Data>, p: Data -> bool): (k: nat)
    ensures k <= |vals|
    ensures forall i :: 0 <= i < k ==> p(vals[i])
    ensures k < |vals| ==> !p(vals[k])
  {
    if |vals| == 0 || !p(vals[0]) then 0 else 1 + PrefixLen(vals[1..], p)
  }

  /** The values takeWhile keeps: those before the first failure of `p`, and
      the failing one too when `includeFailure`. */
  function TakeWhileValues(vals: seq<Data>, p: Data -> bool, includeFailure: bool): seq<Data> {
    if |vals| == 0 then []
    else if p(vals[0]) then [vals[0]] + TakeWhileValues(vals[1..], p, includeFailure)
    else if includeFailure then [vals[0]]
    else []
  }

  /** The values filter keeps, in order. */
  function FilterValues(vals: seq<Data>, p: Data -> bool): seq<Data> {
    if |vals| == 0 then []
    else (if p(vals[0]) then [vals[0]] else []) + FilterValues(vals[1..], p)
  }

  /** takeWhile keeps the longest prefix satisfying `p`, plus the first value
      that fails `p` when `includeFailure` and there is one. */
  lemma {:induction false} TakeWhileValuesPrefix(vals: seq<Data>, p: Data -> bool, includeFailure: bool)
    ensures var k := PrefixLen(vals, p);
      TakeWhileValues(vals, p, includeFailure) ==
        vals[..k] + (if includeFailure && k < |vals| then [vals[k]] else [])
    decreases |vals|
  {
    if |vals| > 0 && p(vals[0]) {
      TakeWhileValuesPrefix(vals[1..], p, includeFailure);
      var k := PrefixLen(vals[1..], p);
      assert vals[..k + 1] == [vals[0]] + vals[1..][..k];
    }
  }

  /** filter keeps exactly the values satisfying `p`. */
  lemma {:induction false} FilterValuesMembers(vals: seq<Data>, p: Data -> bool)
    ensures forall v :: v in FilterValues(vals, p) <==> v in vals && p(v)
    decreases |vals|
  {
    if |vals| > 0 {
      FilterValuesMembers(vals[1..], p);
      assert vals == [vals[0]] + vals[1..];
    }
  }

  /** takeWhile(p, includeFailure) with `passOn` choosing the source's
      behaviour (`false`) or the corrected one (`true`): each head is run
      where it is reached; a passing value is kept as a pure head and the
      next head is reached; a failing value ends the stream, kept or not. */
  function TakeWhileSteps(st: seq<Step>, rs: seq<Observed>, p: Data -> bool,
                          includeFailure: bool, passOn: bool): seq<Step>
    decreases |st|
  {
    if |st| == 0 then []
    else match st[0]
      case Ev(_) => [st[0]] + TakeWhileSteps(st[1..], rs, p, includeFailure, passOn)
      case El(_) =>
        if |rs| == 0 then []
        else
          var v := rs[0].value;
          Evs(rs[0].log) +
            (if p(v) then [El(Streams.PureData(v))] +
                          TakeWhileSteps(st[1..], rs[1..], p, passOn && includeFailure, passOn)
             else if includeFailure then [El(Streams.PureData(v))]
             else [])
  }

  lemma {:induction false} TakeWhileStepsAfterEvs(l: seq<EffectId>, st: seq<Step>, rs: seq<Observed>,
                                                   p: Data -> bool, inc: bool, passOn: bool)
    ensures TakeWhileSteps(Evs(l) + st, rs, p, inc, passOn) == Evs(l) + TakeWhileSteps(st, rs, p, inc, passOn)
    decreases |l|
  {
    if |l| == 0 {
      assert Evs(l) + st == st;
    } else {
      EvsStep(l, st);
      TakeWhileStepsAfterEvs(l[1..], st, rs, p, inc, passOn);
    }
  }

  /** takeWhile: the rewritten stream unrolls to `TakeWhileSteps`. */
  lemma {:induction false} TakeWhileUnrolls(s: Stream, fuel: nat, st: seq<Step>, rs: seq<Observed>,
                                            p: Data -> bool, inc: bool, passOn: bool)
    requires Spine(s, fuel) == Some(st)
    requires HeadsYieldWhile(Heads(st), rs, p)
    ensures Unrolls(Streams.TakeWhileVia(s, p, inc, passOn), TakeWhileSteps(st, rs, p, inc, passOn))
    decreases fuel, s
  {
    match s {
      case Nil =>
        UnrollsNil([]);
      case Cons(h, t) =>
        var rest := Spine(t, fuel).value;
        assert st[1..] == rest;
        ConsHeadsYieldWhile(h, rest, rs, p);
        var v := rs[0].value;
        var inc2 := passOn && inc;
        var out := if p(v) then Streams.ConsValue(v, Streams.TakeWhileVia(t, p, inc2, passOn))
                   else if inc then Streams.ConsValue(v, Nil) else Nil;
        var outSteps := if p(v) then [El(Streams.PureData(v))] + TakeWhileSteps(rest, rs[1..], p, inc2, passOn)
                        else if inc then [El(Streams.PureData(v))] else [];
        if p(v) {
          TakeWhileUnrolls(t, fuel, rest, rs[1..], p, inc2, passOn);
          UnrollsCons(Streams.PureData(v), Streams.TakeWhileVia(t, p, inc2, passOn),
                      TakeWhileSteps(rest, rs[1..], p, inc2, passOn));
        } else if inc {
          UnrollsNil([]);
          UnrollsCons(Streams.PureData(v), Nil, []);
          assert [El(Streams.PureData(v))] + [] == outSteps;
        } else {
          UnrollsNil([]);
        }
        UnrollsDeferMap(h, TakeWhileStep(p, inc, t, passOn), D(v), rs[0].log, out, outSteps);
      case Defer(io) =>
        UnrollsDeferInverse(io, fuel, st);
        var r := Run(io, fuel);
        var rest := Spine(r.out.v.s, fuel - 1).value;
        HeadsAfterEvs(r.log, rest);
        TakeWhileUnrolls(r.out.v.s, fuel - 1, rest, rs, p, inc, passOn);
        UnrollsDeferMap(io, Convert(TakeWhileOp(p, inc, passOn)), r.out.v, r.log,
                        Streams.TakeWhileVia(r.out.v.s, p, inc, passOn), TakeWhileSteps(rest, rs, p, inc, passOn));
        TakeWhileStepsAfterEvs(r.log, rest, rs, p, inc, passOn);
    }
  }

  lemma {:induction false} PuresConcat(a: seq<Data>, b: seq<Data>)
    ensures Pures(a + b) == Pures(a) + Pures(b)
    decreases |a|
  {
    if |a| == 0 {
      assert a + b == b;
    } else {
      assert (a + b)[1..] == a[1..] + b;
      PuresConcat(a[1..], b);
    }
  }

  /** The heads takeWhile keeps: with `passOn` (the corrected behaviour) the
      values `TakeWhileValues` names; as the source is written, a failing
      value is kept only when it is the very first one. */
  lemma {:induction false} TakeWhileHeads(st: seq<Step>, rs: seq<Observed>, p: Data -> bool, inc: bool, passOn: bool)
    requires |rs| <= |Heads(st)|
    ensures Heads(TakeWhileSteps(st, rs, p, inc, passOn)) ==
      Pures(TakeWhileValues(Values(rs), p, inc && (passOn || PrefixLen(Values(rs), p) == 0)))
    decreases |st|
  {
    if |st| > 0 {
      HeadsConcat([st[0]], st[1..]);
      assert [st[0]] + st[1..] == st;
      if st[0].Ev? {
        TakeWhileHeads(st[1..], rs, p, inc, passOn);
        HeadsConcat([st[0]], TakeWhileSteps(st[1..], rs, p, inc, passOn));
      } else if |rs| == 0 {
        assert TakeWhileSteps(st, rs, p, inc, passOn) == [];
      } else {
        var v := rs[0].value;
        assert Values(rs) == [v] + Values(rs[1..]);
        assert Values(rs)[1..] == Values(rs[1..]);
        var inc2 := passOn && inc;
        var tail := TakeWhileSteps(st[1..], rs[1..], p, inc2, passOn);
        var more := if p(v) then [El(Streams.PureData(v))] + tail
                    else if inc then [El(Streams.PureData(v))] else [];
        HeadsAfterEvs(rs[0].log, more);
        if p(v) {
          TakeWhileHeads(st[1..], rs[1..], p, inc2, passOn);
          HeadsConcat([El(Streams.PureData(v))], tail);
          var k2 := PrefixLen(Values(rs[1..]), p);
          assert (inc && (passOn || PrefixLen(Values(rs), p) == 0)) == inc2;
          assert (inc2 && (passOn || k2 == 0)) == inc2;
          var rest := TakeWhileValues(Values(rs[1..]), p, inc2);
          assert ([v] + rest)[1..] == rest;
        } else if inc {
          assert [El(Streams.PureData(v))][1..] == [];
          assert [v][1..] == [];
        }
      }
    }
  }

  /** dropWhile: each head is run where it is reached; a passing value is
      skipped; at the first failing value the original element, with its
      head still unevaluated, is kept with everything after it. */
  function DropWhileSteps(st: seq<Step>, rs: seq<Observed>, p: Data -> bool): seq<Step>
    decreases |st|
  {
    if |st| == 0 then []
    else match st[0]
      case Ev(_) => [st[0]] + DropWhileSteps(st[1..], rs, p)
      case El(_) =>
        if |rs| == 0 then []
        else Evs(rs[0].log) + (if p(rs[0].value) then DropWhileSteps(st[1..], rs[1..], p) else st)
  }

  lemma {:induction false} DropWhileStepsAfterEvs(l: seq<EffectId>, st: seq<Step>, rs: seq<Observed>, p: Data -> bool)
    ensures DropWhileSteps(Evs(l) + st, rs, p) == Evs(l) + DropWhileSteps(st, rs, p)
    decreases |l|
  {
    if |l| == 0 {
      assert Evs(l) + st == st;
    } else {
      EvsStep(l, st);
      DropWhileStepsAfterEvs(l[1..], st, rs, p);
    }
  }

  /** dropWhile: the rewritten stream unrolls to `DropWhileSteps`. */
  lemma {:induction false} DropWhileUnrolls(s: Stream, fuel: nat, st: seq<Step>, rs: seq<Observed>, p: Data -> bool)
    requires Spine(s, fuel) == Some(st)
    requires HeadsYieldWhile(Heads(st), rs, p)
    ensures Unrolls(Streams.DropWhile(s, p), DropWhileSteps(st, rs, p))
    decreases fuel, s
  {
    match s {
      case Nil =>
        UnrollsNil([]);
      case Cons(h, t) =>
        var rest := Spine(t, fuel).value;
        assert st[1..] == rest;
        ConsHeadsYieldWhile(h, rest, rs, p);
        var v := rs[0].value;
        if p(v) {
          DropWhileUnrolls(t, fuel, rest, rs[1..], p);
          UnrollsDeferMap(h, DropWhileStep(p, h, t), D(v), rs[0].log,
                          Streams.DropWhile(t, p), DropWhileSteps(rest, rs[1..], p));
        } else {
          SpineUnrolls(s, fuel);
          UnrollsDeferMap(h, DropWhileStep(p, h, t), D(v), rs[0].log, s, st);
        }
      case Defer(io) =>
        UnrollsDeferInverse(io, fuel, st);
        var r := Run(io, fuel);
        var rest := Spine(r.out.v.s, fuel - 1).value;
        HeadsAfterEvs(r.log, rest);
        DropWhileUnrolls(r.out.v.s, fuel - 1, rest, rs, p);
        UnrollsDeferMap(io, Convert(DropWhileOp(p)), r.out.v, r.log,
                        Streams.DropWhile(r.out.v.s, p), DropWhileSteps(rest, rs, p));
        DropWhileStepsAfterEvs(r.log, rest, rs, p);
    }
  }

  /** How many heads dropWhile runs when `k` values pass `p` out of `n`. */
  function Forced(k: nat, n: nat): nat {
    if k < n then k + 1 else k
  }

  lemma {:induction false} LogsPrefixCons(rs: seq<Observed>, j: nat)
    requires j < |rs|
    ensures Logs(rs[..j + 1]) == rs[0].log + Logs(rs[1..][..j])
  {
    assert rs[..j + 1][1..] == rs[1..][..j];
  }

  lemma {:induction false} DropWhileChainStep(hs: seq<IO>, rs: seq<Observed>, p: Data -> bool)
    requires |hs| > 0 && |rs| > 0
    ensures DropWhileSteps(Els(hs), rs, p) ==
      Evs(rs[0].log) + (if p(rs[0].value) then DropWhileSteps(Els(hs[1..]), rs[1..], p) else Els(hs))
  {
    assert Els(hs)[0] == El(hs[0]);
    assert Els(hs)[1..] == Els(hs[1..]);
  }

  lemma {:induction false} TakeWhileChainStep(hs: seq<IO>, rs: seq<Observed>, p: Data -> bool, inc: bool, passOn: bool)
    requires |hs| > 0 && |rs| > 0
    ensures var v := rs[0].value;
      TakeWhileSteps(Els(hs), rs, p, inc, passOn) ==
      Evs(rs[0].log) +
        (if p(v) then [El(Streams.PureData(v))] + TakeWhileSteps(Els(hs[1..]), rs[1..], p, passOn && inc, passOn)
         else if inc then [El(Streams.PureData(v))]
         else [])
  {
    assert Els(hs)[0] == El(hs[0]);
    assert Els(hs)[1..] == Els(hs[1..]);
  }

  /** dropWhile over a stream built by of/eval: the heads up to and
      including the first failing one are run, in order, before anything is
      exposed; then the elements from the failing one on are exposed with
      their heads unevaluated, so the failing head runs again when it is
      consumed. */
  lemma {:induction false} DropWhileChain(hs: seq<IO>, rs: seq<Observed>, p: Data -> bool)
    requires ObservesWhile(|hs|, rs, p)
    ensures var k := PrefixLen(Values(rs), p);
      DropWhileSteps(Els(hs), rs, p) == Evs(Logs(rs[..Forced(k, |rs|)])) + Els(hs[k..])
    decreases |hs|
  {
    if |hs| == 0 {
      assert Evs([]) + Els([]) == [];
    } else {
      DropWhileChainStep(hs, rs, p);
      if p(rs[0].value) {
        DropWhileChain(hs[1..], rs[1..], p);
        DropWhilePassed(hs, rs, p);
      } else {
        ForcedFail(rs, p);
        assert hs[0..] == hs;
      }
    }
  }

  /** A passing first value moves the first failure one place on and adds
      the first head's effects in front. */
  lemma {:induction false} ForcedPass(rs: seq<Observed>, p: Data -> bool)
    requires |rs| > 0 && p(rs[0].value)
    ensures var k2 := PrefixLen(Values(rs[1..]), p);
      PrefixLen(Values(rs), p) == k2 + 1 &&
      Logs(rs[..Forced(k2 + 1, |rs|)]) == rs[0].log + Logs(rs[1..][..Forced(k2, |rs| - 1)])
  {
    assert Values(rs)[1..] == Values(rs[1..]);
    var k2 := PrefixLen(Values(rs[1..]), p);
    LogsPrefixCons(rs, Forced(k2, |rs| - 1));
  }

  /** A failing first value is the first failure; only its head has run. */
  lemma {:induction false} ForcedFail(rs: seq<Observed>, p: Data -> bool)
    requires |rs| > 0 && !p(rs[0].value)
    ensures PrefixLen(Values(rs), p) == 0
    ensures Logs(rs[..Forced(0, |rs|)]) == rs[0].log
  {
    LogsPrefixCons(rs, 0);
    assert rs[0].log + [] == rs[0].log;
  }

  /** The passing case of DropWhileChain, from the claim for the tail. */
  lemma {:induction false} DropWhilePassed(hs: seq<IO>, rs: seq<Observed>, p: Data -> bool)
    requires 0 < |rs| <= |hs| && p(rs[0].value)
    requires var k2 := PrefixLen(Values(rs[1..]), p);
      DropWhileSteps(Els(hs[1..]), rs[1..], p) == Evs(Logs(rs[1..][..Forced(k2, |rs| - 1)])) + Els(hs[1..][k2..])
    requires DropWhileSteps(Els(hs), rs, p) == Evs(rs[0].log) + DropWhileSteps(Els(hs[1..]), rs[1..], p)
    ensures var k := PrefixLen(Values(rs), p);
      DropWhileSteps(Els(hs), rs, p) == Evs(Logs(rs[..Forced(k, |rs|)])) + Els(hs[k..])
  {
    var k2 := PrefixLen(Values(rs[1..]), p);
    var l2 := Logs(rs[1..][..Forced(k2, |rs| - 1)]);
    ForcedPass(rs, p);
    calc {
      DropWhileSteps(Els(hs), rs, p);
      Evs(rs[0].log) + (Evs(l2) + Els(hs[1..][k2..]));
      { AppendAssoc(Evs(rs[0].log), Evs(l2), Els(hs[1..][k2..])); }
      (Evs(rs[0].log) + Evs(l2)) + Els(hs[1..][k2..]);
      { EvsConcat(rs[0].log, l2); assert hs[1..][k2..] == hs[k2 + 1..]; }
      Evs(rs[0].log + l2) + Els(hs[k2 + 1..]);
    }
  }

  /** dropWhile skips the heads before the first value failing `p`. */
  lemma {:induction false} DropWhileHeads(st: seq<Step>, rs: seq<Observed>, p: Data -> bool)
    requires ObservesWhile(|Heads(st)|, rs, p)
    ensures Heads(DropWhileSteps(st, rs, p)) == Heads(st)[PrefixLen(Values(rs), p)..]
    decreases |st|
  {
    if |st| > 0 {
      HeadsStep(st);
      if st[0].Ev? {
        DropWhileHeads(st[1..], rs, p);
        HeadsConcat([st[0]], DropWhileSteps(st[1..], rs, p));
      } else {
        ObservesWhileTail(|Heads(st)|, rs, p);
        if p(rs[0].value) {
          var k2 := PrefixLen(Values(rs[1..]), p);
          ValuesTail(rs);
          calc {
            Heads(DropWhileSteps(st, rs, p));
            Heads(Evs(rs[0].log) + DropWhileSteps(st[1..], rs[1..], p));
            { HeadsAfterEvs(rs[0].log, DropWhileSteps(st[1..], rs[1..], p)); }
            Heads(DropWhileSteps(st[1..], rs[1..], p));
            { DropWhileHeads(st[1..], rs[1..], p); }
            Heads(st[1..])[k2..];
            Heads(st)[k2 + 1..];
          }
        } else {
          HeadsAfterEvs(rs[0].log, st);
        }
      }
    }
  }

  /** filter: each head is run where it is reached, and a value satisfying
      `p` is kept as a pure head. */
  function FilterSteps(st: seq<Step>, rs: seq<Observed>, p: Data -> bool): seq<Step>
    decreases |st|
  {
    if |st| == 0 then []
    else match st[0]
      case Ev(_) => [st[0]] + FilterSteps(st[1..], rs, p)
      case El(_) =>
        if |rs| == 0 then []
        else Evs(rs[0].log) + (if p(rs[0].value) then [El(Streams.PureData(rs[0].value))] else []) +
             FilterSteps(st[1..], rs[1..], p)
  }

  lemma {:induction false} FilterStepsAfterEvs(l: seq<EffectId>, st: seq<Step>, rs: seq<Observed>, p: Data -> bool)
    ensures FilterSteps(Evs(l) + st, rs, p) == Evs(l) + FilterSteps(st, rs, p)
    decreases |l|
  {
    if |l| == 0 {
      assert Evs(l) + st == st;
    } else {
      EvsStep(l, st);
      FilterStepsAfterEvs(l[1..], st, rs, p);
    }
  }

  /** filter: the rewritten stream unrolls to `FilterSteps`. */
  lemma {:induction false} FilterUnrolls(s: Stream, fuel: nat, st: seq<Step>, rs: seq<Observed>, p: Data -> bool)
    requires Spine(s, fuel) == Some(st)
    requires HeadsYield(Heads(st), rs)
    ensures Unrolls(Streams.Filter(s, p), FilterSteps(st, rs, p))
    decreases fuel, s
  {
    match s {
      case Nil =>
        UnrollsNil([]);
      case Cons(h, t) =>
        var rest := Spine(t, fuel).value;
        assert st[1..] == rest;
        ConsHeadsYield(h, rest, rs);
        FilterUnrolls(t, fuel, rest, rs[1..], p);
        FilterConsUnrolls(h, t, rs[0], p, FilterSteps(rest, rs[1..], p));
      case Defer(io) =>
        UnrollsDeferInverse(io, fuel, st);
        var r := Run(io, fuel);
        var rest := Spine(r.out.v.s, fuel - 1).value;
        HeadsAfterEvs(r.log, rest);
        FilterUnrolls(r.out.v.s, fuel - 1, rest, rs, p);
        UnrollsDeferMap(io, Convert(FilterOp(p)), r.out.v, r.log,
                        Streams.Filter(r.out.v.s, p), FilterSteps(rest, rs, p));
        FilterStepsAfterEvs(r.log, rest, rs, p);
    }
  }

  /** One Cons step of filter: the head is run, and its value is kept when it
      satisfies `p`, in front of the filtered tail. */
  lemma {:induction false} FilterConsUnrolls(h: IO, t: Stream, r: Observed, p: Data -> bool, tail: seq<Step>)
    requires Yields(h, Ok(D(r.value)), r.log)
    requires Unrolls(Streams.Filter(t, p), tail)
    ensures Unrolls(Streams.Filter(Cons(h, t), p),
                    Evs(r.log) + (if p(r.value) then [El(Streams.PureData(r.value))] else []) + tail)
  {
    var v := r.value;
    if p(v) {
      UnrollsCons(Streams.PureData(v), Streams.Filter(t, p), tail);
      UnrollsDeferMap(h, FilterStep(p, t), D(v), r.log,
                      Streams.ConsValue(v, Streams.Filter(t, p)), [El(Streams.PureData(v))] + tail);
      assert Evs(r.log) + ([El(Streams.PureData(v))] + tail) ==
             Evs(r.log) + [El(Streams.PureData(v))] + tail;
    } else {
      UnrollsDeferMap(h, FilterStep(p, t), D(v), r.log, Streams.Filter(t, p), tail);
      assert Evs(r.log) + [] + tail == Evs(r.log) + tail;
    }
  }

  /** filter keeps, as pure heads, exactly the values satisfying `p`, in order. */
  lemma {:induction false} FilterHeads(st: seq<Step>, rs: seq<Observed>, p: Data -> bool)
    requires |rs| == |Heads(st)|
    ensures Heads(FilterSteps(st, rs, p)) == Pures(FilterValues(Values(rs), p))
    decreases |st|
  {
    if |st| > 0 {
      HeadsConcat([st[0]], st[1..]);
      assert [st[0]] + st[1..] == st;
      if st[0].Ev? {
        FilterHeads(st[1..], rs, p);
        HeadsConcat([st[0]], FilterSteps(st[1..], rs, p));
      } else {
        var v := rs[0].value;
        assert Values(rs)[1..] == Values(rs[1..]);
        FilterHeads(st[1..], rs[1..], p);
        var kept := if p(v) then [El(Streams.PureData(v))] else [];
        var tail := FilterSteps(st[1..], rs[1..], p);
        HeadsConcat(Evs(rs[0].log) + kept, tail);
        HeadsAfterEvs(rs[0].log, kept);
        PuresConcat(if p(v) then [v] else [], FilterValues(Values(rs[1..]), p));
        assert Heads(kept) == Pures(if p(v) then [v] else []);
      }
    }
  }

  /** `f(rs[i].value)` unrolls to `subs[i]`, for each element. */
  ghost predicate SubsUnroll(f: Data -> Stream, rs: seq<Observed>, subs: seq<seq<Step>>) {
    |subs| == |rs| && forall i :: 0 <= i < |rs| ==> Unrolls(f(rs[i].value), subs[i])
  }

  /** flatMap: each head is run where it is reached, and the sub-stream `f`
      makes of its value is unrolled in its place. */
  function FlatMapSteps(st: seq<Step>, rs: seq<Observed>, subs: seq<seq<Step>>): seq<Step>
    decreases |st|
  {
    if |st| == 0 then []
    else match st[0]
      case Ev(_) => [st[0]] + FlatMapSteps(st[1..], rs, subs)
      case El(_) =>
        if |rs| == 0 || |subs| == 0 then []
        else Evs(rs[0].log) + (subs[0] + FlatMapSteps(st[1..], rs[1..], subs[1..]))
  }

  lemma {:induction false} FlatMapStepsAfterEvs(l: seq<EffectId>, st: seq<Step>, rs: seq<Observed>, subs: seq<seq<Step>>)
    ensures FlatMapSteps(Evs(l) + st, rs, subs) == Evs(l) + FlatMapSteps(st, rs, subs)
    decreases |l|
  {
    if |l| == 0 {
      assert Evs(l) + st == st;
    } else {
      EvsStep(l, st);
      FlatMapStepsAfterEvs(l[1..], st, rs, subs);
    }
  }

  /** flatMap: the rewritten stream unrolls to `FlatMapSteps`. */
  lemma {:induction false} FlatMapUnrolls(s: Stream, fuel: nat, st: seq<Step>, rs: seq<Observed>,
                                          f: Data -> Stream, subs: seq<seq<Step>>)
    requires Spine(s, fuel) == Some(st)
    requires HeadsYield(Heads(st), rs)
    requires SubsUnroll(f, rs, subs)
    ensures Unrolls(Streams.FlatMap(s, f), FlatMapSteps(st, rs, subs))
    decreases fuel, s
  {
    match s {
      case Nil =>
        UnrollsNil([]);
      case Cons(h, t) =>
        var rest := Spine(t, fuel).value;
        assert st[1..] == rest;
        ConsHeadsYield(h, rest, rs);
        var v := rs[0].value;
        assert SubsUnroll(f, rs[1..], subs[1..]);
        FlatMapUnrolls(t, fuel, rest, rs[1..], f, subs[1..]);
        var tail := FlatMapSteps(rest, rs[1..], subs[1..]);
        StreamLaws.AppendUnrolls(f(v), subs[0], Streams.FlatMap(t, f), tail);
        UnrollsDeferMap(h, FlatMapStep(f, t), D(v), rs[0].log,
                        Streams.Append(f(v), Streams.FlatMap(t, f)), subs[0] + tail);
      case Defer(io) =>
        UnrollsDeferInverse(io, fuel, st);
        var r := Run(io, fuel);
        var rest := Spine(r.out.v.s, fuel - 1).value;
        HeadsAfterEvs(r.log, rest);
        FlatMapUnrolls(r.out.v.s, fuel - 1, rest, rs, f, subs);
        UnrollsDeferMap(io, Convert(FlatMapOp(f)), r.out.v, r.log,
                        Streams.FlatMap(r.out.v.s, f), FlatMapSteps(rest, rs, subs));
        FlatMapStepsAfterEvs(r.log, rest, rs, subs);
    }
  }

  /** All the heads of the sub-streams, in order. */
  function SubHeads(subs: seq<seq<Step>>): seq<IO> {
    if |subs| == 0 then [] else Heads(subs[0]) + SubHeads(subs[1..])
  }

  /** flatMap exposes the heads of each element's sub-stream, in element order. */
  lemma {:induction false} FlatMapHeads(st: seq<Step>, rs: seq<Observed>, subs: seq<seq<Step>>)
    requires |rs| == |Heads(st)| && |subs| == |rs|
    ensures Heads(FlatMapSteps(st, rs, subs)) == SubHeads(subs)
    decreases |st|
  {
    if |st| > 0 {
      HeadsConcat([st[0]], st[1..]);
      assert [st[0]] + st[1..] == st;
      if st[0].Ev? {
        FlatMapHeads(st[1..], rs, subs);
        HeadsConcat([st[0]], FlatMapSteps(st[1..], rs, subs));
      } else {
        FlatMapHeads(st[1..], rs[1..], subs[1..]);
        var tail := FlatMapSteps(st[1..], rs[1..], subs[1..]);
        HeadsAfterEvs(rs[0].log, subs[0] + tail);
        HeadsConcat(subs[0], tail);
      }
    }
  }

  lemma {:induction false} EvsOnlyEl(h: IO, st: seq<Step>)
    ensures EvsOnly([El(h)] + st) == EvsOnly(st)
  {
    assert ([El(h)] + st)[1..] == st;
  }

  /** takeWhile over a stream built by of/eval runs the heads up to and
      including the first failing one, in order, and no head after it;
      `includeFailure` changes what is kept, not what is run. */
  lemma {:induction false} TakeWhileChainRuns(hs: seq<IO>, rs: seq<Observed>, p: Data -> bool,
                                              inc: bool, passOn: bool)
    requires |rs| <= |hs|
    ensures var k := PrefixLen(Values(rs), p);
      EvsOnly(TakeWhileSteps(Els(hs), rs, p, inc, passOn)) == Evs(Logs(rs[..Forced(k, |rs|)]))
    decreases |hs|
  {
    if |hs| > 0 && |rs| == 0 {
      assert Els(hs)[0] == El(hs[0]);
      assert TakeWhileSteps(Els(hs), rs, p, inc, passOn) == [];
    } else if |hs| > 0 {
      TakeWhileChainStep(hs, rs, p, inc, passOn);
      if p(rs[0].value) {
        TakeWhileChainRuns(hs[1..], rs[1..], p, passOn && inc, passOn);
        TakeWhilePassedRuns(hs, rs, p, inc, passOn);
      } else {
        TakeWhileFailedRuns(hs, rs, p, inc, passOn);
      }
    } else {
      assert Logs(rs[..Forced(PrefixLen(Values(rs), p), |rs|)]) == [];
    }
  }

  /** The passing case of TakeWhileChainRuns, from the claim for the tail. */
  lemma {:induction false} TakeWhilePassedRuns(hs: seq<IO>, rs: seq<Observed>, p: Data -> bool, inc: bool, passOn: bool)
    requires 0 < |rs| <= |hs| && p(rs[0].value)
    requires TakeWhileSteps(Els(hs), rs, p, inc, passOn) ==
      Evs(rs[0].log) + ([El(Streams.PureData(rs[0].value))] +
                         TakeWhileSteps(Els(hs[1..]), rs[1..], p, passOn && inc, passOn))
    requires var k2 := PrefixLen(Values(rs[1..]), p);
      EvsOnly(TakeWhileSteps(Els(hs[1..]), rs[1..], p, passOn && inc, passOn)) ==
      Evs(Logs(rs[1..][..Forced(k2, |rs| - 1)]))
    ensures var k := PrefixLen(Values(rs), p);
      EvsOnly(TakeWhileSteps(Els(hs), rs, p, inc, passOn)) == Evs(Logs(rs[..Forced(k, |rs|)]))
  {
    var rest := TakeWhileSteps(Els(hs[1..]), rs[1..], p, passOn && inc, passOn);
    var k2 := PrefixLen(Values(rs[1..]), p);
    var tailLog := Logs(rs[1..][..Forced(k2, |rs| - 1)]);
    var first := El(Streams.PureData(rs[0].value));
    ForcedPass(rs, p);
    calc {
      EvsOnly(TakeWhileSteps(Els(hs), rs, p, inc, passOn));
      EvsOnly(Evs(rs[0].log) + ([first] + rest));
      { StreamLaws.EvsOnlyAfterEvs(rs[0].log, [first] + rest); }
      Evs(rs[0].log) + EvsOnly([first] + rest);
      { EvsOnlyEl(first.head, rest); }
      Evs(rs[0].log) + Evs(tailLog);
      { EvsConcat(rs[0].log, tailLog); }
      Evs(rs[0].log + tailLog);
    }
  }

  /** The failing case of TakeWhileChainRuns: only the first head has run. */
  lemma {:induction false} TakeWhileFailedRuns(hs: seq<IO>, rs: seq<Observed>, p: Data -> bool, inc: bool, passOn: bool)
    requires 0 < |rs| <= |hs| && !p(rs[0].value)
    requires TakeWhileSteps(Els(hs), rs, p, inc, passOn) ==
      Evs(rs[0].log) + (if inc then [El(Streams.PureData(rs[0].value))] else [])
    ensures var k := PrefixLen(Values(rs), p);
      EvsOnly(TakeWhileSteps(Els(hs), rs, p, inc, passOn)) == Evs(Logs(rs[..Forced(k, |rs|)]))
  {
    var last: seq<Step> := if inc then [El(Streams.PureData(rs[0].value))] else [];
    StreamLaws.EvsOnlyAfterEvs(rs[0].log, last);
    assert EvsOnly(last) == [];
    ForcedFail(rs, p);
    assert Evs(rs[0].log) + [] == Evs(rs[0].log);
  }

  /** filter over a stream built by of/eval runs every head once, in order,
      whatever it keeps. */
  lemma {:induction false} FilterChainRuns(hs: seq<IO>, rs: seq<Observed>, p: Data -> bool)
    requires |hs| == |rs|
    ensures EvsOnly(FilterSteps(Els(hs), rs, p)) == Evs(Logs(rs))
    decreases |hs|
  {
    if |hs| > 0 {
      var v := rs[0].value;
      var kept: seq<Step> := if p(v) then [El(Streams.PureData(v))] else [];
      var rest := FilterSteps(Els(hs[1..]), rs[1..], p);
      calc {
        EvsOnly(FilterSteps(Els(hs), rs, p));
        { FilterChainStep(hs, rs, p); }
        EvsOnly(Evs(rs[0].log) + (kept + rest));
        { StreamLaws.EvsOnlyAfterEvs(rs[0].log, kept + rest); }
        Evs(rs[0].log) + EvsOnly(kept + rest);
        { if p(v) { EvsOnlyEl(Streams.PureData(v), rest); } else { assert kept + rest == rest; } }
        Evs(rs[0].log) + EvsOnly(rest);
        { FilterChainRuns(hs[1..], rs[1..], p); }
        Evs(rs[0].log) + Evs(Logs(rs[1..]));
        { EvsConcat(rs[0].log, Logs(rs[1..])); }
        Evs(Logs(rs));
      }
    }
  }

  /** One step of filter on a cons chain: run the head, keep its value or not. */
  lemma {:induction false} FilterChainStep(hs: seq<IO>, rs: seq<Observed>, p: Data -> bool)
    requires |hs| > 0 && |rs| > 0
    ensures FilterSteps(Els(hs), rs, p) ==
      Evs(rs[0].log) + ((if p(rs[0].value) then [El(Streams.PureData(rs[0].value))] else []) +
                        FilterSteps(Els(hs[1..]), rs[1..], p))
  {
    assert Els(hs)[0] == El(hs[0]);
    assert Els(hs)[1..] == Els(hs[1..]);
  }
}

# jeff: lazy IO and Stream, modelled in Dafny

jeff (`com.github.lpld.jeff`) is a small Java library of two lazy data types:

- `IO<T>` is a description of an effectful computation. It is a closed sum of six node kinds:
  - `Pure`, `Delay`, `Suspend`, `RaiseError`, `Recover` and `Bind`.
  - Its combinators (`pure`, `delay`, `IO`, `unit`, `raiseError`, `map`, `flatMap`, `then`, `recover`, `recoverWith`) only allocate nodes.
  - Running is a separate step (`run`).
- `Stream<T>` is an effectful lazy stream. It is a closed sum too:
  - `Nil` is the empty stream.
  - `Cons(head: IO<T>, tail)` has a head that is itself an `IO`.
  - `Defer(IO<Stream<T>>)` is a stream computed by an effect.
  - Every structural combinator (`take`, `drop`, `takeWhile`, `dropWhile`, `filter`, `map`, `mapEval`, `flatMap`, `append`, `reverse`) rewrites the stream without running anything.
  - The folds (`foldRight`, `foldLeft`, `exists`, `forall`, `headOption`, `toLList`) run element heads.
  - The collects (`collectRight`, `collectLeft`, `lazyHead`) walk the structure but never run a head.

The model is split into modules.

**`Algebra`** (`algebra.dfy`) holds the data types.
- One value universe: `Data` holds the elements and `Val` holds what an `IO` can produce.
- The `IO` and `Stream` sums.
- The closures the library builds internally, written as data ("defunctionalised"):
  - `Kont` is a `flatMap` continuation.
  - `ValFn` is a `map` function.
  - `RStep` is a `foldRight` step.
  - `Collector` is a `collectRight`/`collectLeft` step.
  - `Thunk` is a `Delay` thunk and `Resume` is a `Suspend` thunk.
  - `Op` is the `s -> s.take(n - 1)` style conversion that `Defer` overrides and `lazyTransform` apply.
- User callbacks (predicates, mapping functions, recovery handlers) stay Dafny functions over `Data`.
- A user thunk given to `delay` is an `Effect(id, outcome)`. Running it appends `id` to an effect log, so "this effect ran" is "its id is in the log".

**`Effects`** (`effects.dfy`) holds the `IO` combinators that rewrite into other nodes: `unit`, `delay(Run)`, `map`, `then` and `recover`.

**`Streams`** (`streams.dfy`) holds every stream operation, one function per Java method. A `Cons`/`Defer`/`Nil` override becomes one `match` arm.
- `fromList` is the one loop in the core. It is the method `Streams.FromList`, proved against `Chain`, the cons chain in list order.

**`Closures`** (`closures.dfy`) applies each defunctionalised closure exactly as the Java lambda body does.

**`Interp`** (`interp.dfy`) is a reference evaluator `Run(io, fuel)`.
- It is fuel-bounded and big-step. It returns an outcome (a value or an error) and the effect log.
- `Yields(io, o, log)` means "some amount of fuel runs `io` to `o`, logging `log`".
- The library's own interpreter is not part of this model. This evaluator stands for what `run` means.

**`IOLaws`** (`io_laws.dfy`) states what each `IO` node and combinator does when run.

**`Spines`** (`spines.dfy`) describes what running a stream's structure does.
- `Spine(s, fuel)` lists the structural effects (`Ev(id)`, from forcing `Defer` nodes) and the heads (`El(io)`, not run), in order.
- `Unrolls(s, steps)` means this holds for some fuel.
- `HeadsYield(heads, rs)` says what each head produces when run: its value and its log.
- `Expand(steps, rs)` is the log of a full traversal that forces every node and runs every head.

**`StreamLaws`, `ElementLaws`, `FoldLaws`** prove each combinator correct in terms of spines:
- which heads it keeps and which effects it runs;
- what each fold returns;
- exactly which effects a fold runs.

**`Scenarios`** replays the library's own tests as lemmas over concrete streams.

## Model

| member | source | states |
|---|---|---|
| Streams.FromList | src/main/java/com/github/lpld/jeff/Stream.java:129-135 | the back-to-front loop builds the cons chain of `f(list[i])` in list order, `Nil` for the empty list |
| Streams.Of | src/main/java/com/github/lpld/jeff/Stream.java:73-76 | `of(xs)` is the chain of `Pure(x)` heads in the order of `xs` |
| Streams.Eval | src/main/java/com/github/lpld/jeff/Stream.java:90-93 | `eval(ios)` is the chain of the given `IO`s as heads, unchanged and in order |
| Streams.Unfold | src/main/java/com/github/lpld/jeff/Stream.java:120-123 | `unfold(z, f)`: a `Lazy` node, so not even the first step runs until the stream is forced |
| Streams.UnfoldEager | src/main/java/com/github/lpld/jeff/Stream.java:153-157 | `unfoldEager(z, f)`: calls `f(z)` now; `None` gives `Nil`, `Some(v, z')` a pure head `v` before a `Lazy` unfold from `z'` |
| Streams.LazyTransform | src/main/java/com/github/lpld/jeff/Stream.java:322-328 | `lazyTransform(conv)`: a `Cons` is converted only inside a `Lazy` node, anything else is converted at once |
| Streams.Transform | src/main/java/com/github/lpld/jeff/Stream.java:364-397 | applies the conversion lambda (`s -> s.take(n - 1)` and its siblings) that the `Cons` and `Defer` overrides build |
| Streams.Take | src/main/java/com/github/lpld/jeff/Stream.java:363-365 | `Cons.take`: `0` gives `Nil`, otherwise the same head before `take(n - 1)` of the tail; `Defer.take` (442-444) maps the conversion over the deferred stream; `Nil.take` (527-530) is `Nil` |
| Streams.Drop | src/main/java/com/github/lpld/jeff/Stream.java:368-370 | `Cons.drop`: `0` gives the stream itself, otherwise `drop(n - 1)` of the tail; `Defer.drop` (447-449) and `Nil.drop` (532-535) as for `take` |
| Streams.Map | src/main/java/com/github/lpld/jeff/Stream.java:391-393 | `Cons.map`: the head becomes `head.map(f)`, the tail is mapped lazily; `Defer.map` (467-469), `Nil.map` (552-555) |
| Streams.MapEval | src/main/java/com/github/lpld/jeff/Stream.java:396-398 | `Cons.mapEval`: the head becomes `head.flatMap(f)`, the tail is mapped lazily; `Defer.mapEval` (472-474), `Nil.mapEval` (557-560) |
| Streams.TakeWhile | src/main/java/com/github/lpld/jeff/Stream.java:373-378 | `takeWhile(p, includeFailure)` as written: the tail is taken with `takeWhile(p)`, losing the flag; `Defer` (452-454) and `Nil` (537-540) overrides |
| Streams.TakeWhileFixed | src/main/java/com/github/lpld/jeff/Stream.java:373-378 | `takeWhile(p, includeFailure)` with the flag passed on to the tail |
| Streams.TakeWhileVia | src/main/java/com/github/lpld/jeff/Stream.java:373-378 | `Cons.takeWhile`: a `Defer` over `head.map`, keeping a passing value before the rest, and on failure the value alone or `Nil` by the flag; the `Defer` and `Nil` overrides (452-454, 537-540) |
| Streams.TakeWhileExcl | src/main/java/com/github/lpld/jeff/Stream.java:203-205 | `takeWhile(p)` is `takeWhile(p, false)` |
| Streams.DropWhile | src/main/java/com/github/lpld/jeff/Stream.java:381-383 | `Cons.dropWhile`: a `Defer` over `head.map`, going on with the tail while `p` holds and returning the original cell when it fails; `Defer` (457-459) and `Nil` (542-545) |
| Streams.Filter | src/main/java/com/github/lpld/jeff/Stream.java:358-360 | `Cons.filter`: a `Defer` over `head.map`, keeping a passing value as a pure head before the filtered tail; `Defer` (477-479) and `Nil` (562-565) |
| Streams.FlatMap | src/main/java/com/github/lpld/jeff/Stream.java:386-388 | `Cons.flatMap`: a `Defer` over `head.map`, appending `f` of the value before the flat-mapped tail; `Defer` (462-464) and `Nil` (547-550) |
| Streams.Head | src/main/java/com/github/lpld/jeff/Stream.java:193-195 | `head()` is `take(1)` |
| Streams.Tail | src/main/java/com/github/lpld/jeff/Stream.java:197-199 | `tail()` is `drop(1)` |
| Streams.Append | src/main/java/com/github/lpld/jeff/Stream.java:177-187 | `append(other)`: returns `this` when `other` is `Nil` and `other` when `this` is `Nil`, otherwise a `Defer` over `collectRight` that restacks the cells onto `other` |
| Streams.Reverse | src/main/java/com/github/lpld/jeff/Stream.java:229-231 | `reverse()`: a `Defer` over `collectLeft` that restacks the cells onto `Nil` |
| Streams.CollectRight | src/main/java/com/github/lpld/jeff/Stream.java:343-345 | `Cons.collectRight`: a `Suspend` that hands the unrun head and the collected tail to the step; `Defer` (427-429) and `Nil` (517-520) |
| Streams.CollectLeft | src/main/java/com/github/lpld/jeff/Stream.java:353-355 | `Cons.collectLeft`: goes on with the tail from a `Suspend` of the step on the accumulator and the unrun head; `Defer` (436-439) and `Nil` (512-515) |
| Streams.FoldRight | src/main/java/com/github/lpld/jeff/Stream.java:338-340 | `Cons.foldRight(z, f)`: runs the head and hands its value and the tail's fold to `f`; `Defer` (421-424) and `Nil` (507-510, the seed) |
| Streams.FoldRightValue | src/main/java/com/github/lpld/jeff/Stream.java:161-163 | `foldRight(R z, f)`: the effectful fold from `Pure(z)` with the step `ior.map(r -> f(t, r))` |
| Streams.FoldLeft | src/main/java/com/github/lpld/jeff/Stream.java:348-350 | `Cons.foldLeft(z, f)`: runs the head and folds the tail from `f(z, h)`; `Defer` (432-434) and `Nil` (522-525, `Pure(z)`) |
| Streams.Exists | src/main/java/com/github/lpld/jeff/Stream.java:221-223 | `exists(p)`: the effectful fold from `Pure(false)` whose step stops with `Pure(true)` at a passing value |
| Streams.Forall | src/main/java/com/github/lpld/jeff/Stream.java:225-227 | `forall(p)`: the effectful fold from `Pure(true)` whose step stops with `Pure(false)` at a failing value |
| Streams.ToLList | src/main/java/com/github/lpld/jeff/Stream.java:318-320 | `toLList()`: `foldRight` from the empty list, prepending each value |
| Streams.LazyHead | src/main/java/com/github/lpld/jeff/Stream.java:401-403 | `Cons.lazyHead`: `Pure` of the unrun head; `Defer` (481-484) goes through the deferred stream; `Nil` (567-570) is `Pure(empty)` |
| Streams.HeadOption | src/main/java/com/github/lpld/jeff/Stream.java:406-408 | `Cons.headOption`: runs the head and wraps its value; `Defer` (486-489) goes through the deferred stream; `Nil` (572-575) is `Pure(empty)` |
| Effects.DelayAction | src/main/java/com/github/lpld/jeff/IO.java:39-41 | `delay(Run)`: a `Delay` whose thunk runs the action and yields `Unit`, or throws the action's error |
| Effects.Map | src/main/java/com/github/lpld/jeff/IO.java:51-53 | `map(f)` is `flatMap(f.andThen(IO::pure))` |
| Effects.Then | src/main/java/com/github/lpld/jeff/IO.java:59-61 | `then(f)` is `flatMap(t -> f.get())` |
| Effects.RecoverValue | src/main/java/com/github/lpld/jeff/IO.java:63-65 | `recover(r)` is `recoverWith` with each recovered value wrapped in `pure` |
| Closures.ApplyFn | src/main/java/com/github/lpld/jeff/Stream.java:358-398 | the bodies of the `map` lambdas that the stream operations build (`filter`, `takeWhile`, `dropWhile`, `flatMap` steps, the conversions, `Optional::of`) and of user `map` functions |
| Closures.ApplyStep | src/main/java/com/github/lpld/jeff/Stream.java:161-227 | the `foldRight` steps of `foldRight(R, Fn2)`, `exists` and `forall` |
| Closures.ApplyKont | src/main/java/com/github/lpld/jeff/Stream.java:338-488 | the bodies of the `flatMap` continuations of the folds, collects, `lazyHead`, `headOption`, `then` and `map` |
| Closures.Force | src/main/java/com/github/lpld/jeff/Stream.java:66-68 | calls a `Delay` thunk: a user effect logs its id and yields or throws; the `Lazy` thunks of `lazyTransform` and `unfold` build their stream and log nothing |
| Closures.ResumeThunk | src/main/java/com/github/lpld/jeff/Stream.java:343-355 | calls a `Suspend` thunk: the collect steps of `collectRight`/`collectLeft`, or a user thunk that logs its id |
| Interp.Run | src/main/java/com/github/lpld/jeff/IO.java:71-77 | what `run()` does, node by node: `Pure` yields, `Delay` calls its thunk once, `Suspend` continues with the `IO` its thunk returns, `RaiseError` fails, `Recover` replaces a failure by the handler's `IO` when there is one, `Bind` continues on success only |
| IOLaws.RunMonotone | src/main/java/com/github/lpld/jeff/IO.java:71-77 | the reference evaluator is deterministic in its fuel: once it finishes, more fuel gives the same outcome and log |
| IOLaws.RunYields | src/main/java/com/github/lpld/jeff/IO.java:71-77 | a finished bounded run is an observation of `run()` |
| IOLaws.YieldsUnique | src/main/java/com/github/lpld/jeff/IO.java:71-77 | `run()` has one meaning: two observations of the same `IO` agree on the outcome and the log |
| IOLaws.PureYields | src/main/java/com/github/lpld/jeff/IO.java:43-45 | `pure(v)` yields `v` and runs no effect, and nothing else |
| IOLaws.RaiseErrorYields | src/main/java/com/github/lpld/jeff/IO.java:47-49 | `raiseError(e)` fails with `e` and runs no effect, and nothing else; unrecovered errors surface from `run` |
| IOLaws.DelayYields | src/main/java/com/github/lpld/jeff/IO.java:25-27 | `IO(thunk)`/`delay(thunk)` runs the thunk's effect exactly once, when run, and yields (or throws) what the thunk does |
| IOLaws.ForceYields | src/main/java/com/github/lpld/jeff/IO.java:35-37 | running a `Delay` node is calling its thunk: same outcome, same log |
| IOLaws.DelayActionYields | src/main/java/com/github/lpld/jeff/IO.java:29-41 | `delay(Run)`/`IO(Run)` runs the action once and yields `Unit`, or fails with the action's error |
| IOLaws.UnitYields | src/main/java/com/github/lpld/jeff/IO.java:33 | `unit` yields `Unit` without any effect |
| IOLaws.SuspendYields | src/main/java/com/github/lpld/jeff/IO.java:85-88 | a `Suspend` node calls its thunk and then runs the returned `IO`, effects in that order |
| IOLaws.BindOk | src/main/java/com/github/lpld/jeff/IO.java:55-57 | `flatMap`: when the source yields `v`, the continuation runs on `v` after the source's effects |
| IOLaws.BindFail | src/main/java/com/github/lpld/jeff/IO.java:55-57 | `flatMap` on a failed source fails with the same error and never calls the continuation |
| IOLaws.BindInverse | src/main/java/com/github/lpld/jeff/IO.java:106-110 | every observation of a `Bind` node decomposes into a source run followed, on success only, by a continuation run |
| IOLaws.MapYields | src/main/java/com/github/lpld/jeff/IO.java:51-53 | `map(g)` is `flatMap` into `pure`: same effects as the source, the value is `g` of the source value, errors pass through |
| IOLaws.MapDataYields | src/main/java/com/github/lpld/jeff/IO.java:51-53 | `map(f)` with a user function yields `f(d)` after the source's effects |
| IOLaws.ThenYields | src/main/java/com/github/lpld/jeff/IO.java:59-61 | `then(next)` runs `next` after the source and ignores the source's value; a failed source skips `next` |
| IOLaws.RecoverOk | src/main/java/com/github/lpld/jeff/IO.java:67-69 | `recoverWith` on a successful source leaves its value and effects unchanged |
| IOLaws.RecoverFail | src/main/java/com/github/lpld/jeff/IO.java:100-104 | on failure with `e`, `recoverWith(h)` continues with `h(e)` when present and otherwise fails with the same `e` |
| IOLaws.RaiseRecoverWith | src/main/java/com/github/lpld/jeff/IO.java:67-69 | `raiseError(e).recoverWith(h)` behaves exactly as `h(e)` when present, and as the failure `e` otherwise (both directions) |
| IOLaws.RaiseRecover | src/main/java/com/github/lpld/jeff/IO.java:63-65 | `raiseError(e).recover(r)` yields `v` when `r(e)` is `Some(v)`, and still fails with `e` when it is `None` |
| Spines.Values | src/main/java/com/github/lpld/jeff/Stream.java:318-320 | the element values observed from a stream's heads, one per head, in order |
| Spines.ConsHeadsYield | src/main/java/com/github/lpld/jeff/Stream.java:45-47 | a `Cons` cell contributes its head's observation first, and the rest to the tail |
| Spines.HeadsEvs | src/main/java/com/github/lpld/jeff/Stream.java:59-61 | forcing `Defer` nodes contributes no element |
| Spines.HeadsEls | src/main/java/com/github/lpld/jeff/Stream.java:45-47 | a chain of `Cons` cells has exactly its heads as elements |
| Spines.HeadsAfterEvs | src/main/java/com/github/lpld/jeff/Stream.java:59-61 | structural effects in front of a spine do not change its elements |
| Spines.ExpandAfterEvs | src/main/java/com/github/lpld/jeff/Stream.java:422-424 | a full traversal runs the structural effects in front before the rest of the stream |
| Spines.SpineMonotone | src/main/java/com/github/lpld/jeff/Stream.java:59-61 | unrolling is deterministic in its fuel |
| Spines.UnrollsUnique | src/main/java/com/github/lpld/jeff/Stream.java:59-61 | a stream unrolls to one spine only |
| Spines.SpineUnrolls | src/main/java/com/github/lpld/jeff/Stream.java:59-61 | a finished bounded unroll is the stream's spine |
| Spines.UnrollsNil | src/main/java/com/github/lpld/jeff/Stream.java:38-40 | `Nil` unrolls to the empty spine and to nothing else |
| Spines.UnrollsCons | src/main/java/com/github/lpld/jeff/Stream.java:45-47 | `Cons(h, t)` unrolls to `h` followed by the tail's spine, and only to that (both directions); `h` is not run |
| Spines.UnrollsDefer | src/main/java/com/github/lpld/jeff/Stream.java:59-61 | `Defer(io)` runs `io` once for its effects, then continues with the stream it produced |
| Spines.UnrollsDeferInverse | src/main/java/com/github/lpld/jeff/Stream.java:59-61 | every spine of `Defer(io)` comes from a successful run of `io` to a stream |
| Spines.UnrollsDeferBind | src/main/java/com/github/lpld/jeff/Stream.java:422-424 | a `Defer` over `flatMap` runs the source's effects, then the continuation's, then unrolls the result |
| Spines.UnrollsDeferMap | src/main/java/com/github/lpld/jeff/Stream.java:442-444 | `Defer(evalStream.map(conv))` runs `evalStream` and then unrolls `conv` of the stream it produced |
| Spines.LazyTransformUnrolls | src/main/java/com/github/lpld/jeff/Stream.java:322-328 | `lazyTransform` wraps a `Cons` in `Lazy` but is observationally the same as applying the conversion directly |
| Spines.ChainUnrolls | src/main/java/com/github/lpld/jeff/Stream.java:129-135 | the chain `fromList` builds unrolls to exactly its heads, with no effects |
| StreamLaws.TakeStepsAfterEvs | src/main/java/com/github/lpld/jeff/Stream.java:442-444 | `take` on a `Defer` runs the structural effect and counts only elements |
| StreamLaws.DropStepsAfterEvs | src/main/java/com/github/lpld/jeff/Stream.java:447-449 | `drop` on a `Defer` runs the structural effect and counts only elements |
| StreamLaws.BindEachAfterEvs | src/main/java/com/github/lpld/jeff/Stream.java:467-474 | `map`/`mapEval` on a `Defer` keep its structural effects in place |
| StreamLaws.TakeStepsHeads | src/main/java/com/github/lpld/jeff/Stream.java:363-365 | the elements of `take(n)` are the first `min(n, len)` elements (all of them for negative `n`) |
| StreamLaws.DropStepsHeads | src/main/java/com/github/lpld/jeff/Stream.java:368-370 | the elements of `drop(n)` are those after the first `min(n, len)` (none for negative `n`) |
| StreamLaws.TakeNegativeKeepsAll | src/main/java/com/github/lpld/jeff/Stream.java:363-365 | a negative count never reaches `0`, so `take` keeps the whole spine |
| StreamLaws.DropNegativeDropsAll | src/main/java/com/github/lpld/jeff/Stream.java:368-370 | a negative count never reaches `0`, so `drop` drops every element but still forces every `Defer` |
| StreamLaws.TakeUnrolls | src/main/java/com/github/lpld/jeff/Stream.java:363-365 | `take(n)` unrolls to the first `n` elements and runs no head; it goes on forcing structure up to the `(n+1)`-th element, since `take(0)` of a `Defer` still runs it |
| StreamLaws.DropUnrolls | src/main/java/com/github/lpld/jeff/Stream.java:368-370 | `drop(n)` skips `n` elements without running their heads |
| StreamLaws.HeadTailUnroll | src/main/java/com/github/lpld/jeff/Stream.java:193-199 | `head()` is the first element and `tail()` the rest; neither runs a head |
| StreamLaws.MapUnrolls | src/main/java/com/github/lpld/jeff/Stream.java:391-393 | `map(f)` keeps the structure and wraps each head in `head.map(f)` without running it |
| StreamLaws.MapEvalUnrolls | src/main/java/com/github/lpld/jeff/Stream.java:396-398 | `mapEval(f)` keeps the structure and wraps each head in `head.flatMap(f)` without running it |
| StreamLaws.BindEachHeads | src/main/java/com/github/lpld/jeff/Stream.java:391-398 | the `i`-th element of a mapped stream is the `i`-th original head bound to the function |
| StreamLaws.BindEachHeadsAll | src/main/java/com/github/lpld/jeff/Stream.java:391-398 | mapping keeps the number of elements and binds every head, position by position |
| StreamLaws.CollectRightUnrolls | src/main/java/com/github/lpld/jeff/Stream.java:343-345 | `collectRight` rebuilding cons cells restores the stream's spine in order, followed by the seed's; heads are not run |
| StreamLaws.AppendUnrolls | src/main/java/com/github/lpld/jeff/Stream.java:177-187 | `append` unrolls to the first stream's spine followed by the second's |
| StreamLaws.EvsOnlyAfterEvs | src/main/java/com/github/lpld/jeff/Stream.java:437-439 | `collectLeft` through a `Defer` runs its effect first and passes no element |
| StreamLaws.RestackUnrolls | src/main/java/com/github/lpld/jeff/Stream.java:229-231 | one restacking step of `reverse` puts the head on top of the accumulated stream |
| StreamLaws.ReverseConsSteps | src/main/java/com/github/lpld/jeff/Stream.java:353-355 | `collectLeft` over a `Cons` pushes its head under the rest of the traversal |
| StreamLaws.CollectLeftUnrolls | src/main/java/com/github/lpld/jeff/Stream.java:353-355 | `collectLeft` rebuilding cons cells runs all structural effects first and yields the heads reversed, then the seed |
| StreamLaws.ReverseUnrolls | src/main/java/com/github/lpld/jeff/Stream.java:229-231 | `reverse` runs the structure's effects once and yields the elements in reverse order, none run |
| StreamLaws.ReversedHeads | src/main/java/com/github/lpld/jeff/Stream.java:229-231 | the reversed spine holds the original heads in reverse order |
| StreamLaws.UnfoldTakeUnrolls | src/main/java/com/github/lpld/jeff/Stream.java:120-123 | `unfold(z, f).take(n)` is the first `n` values of iterating `f`, as pure heads, with no effects |
| StreamLaws.TakeEls | src/main/java/com/github/lpld/jeff/Stream.java:363-365 | on a chain of `Cons` cells, `take(n)` is the chain of the first `n` heads |
| StreamLaws.DropEls | src/main/java/com/github/lpld/jeff/Stream.java:368-370 | on a chain of `Cons` cells, `drop(n)` is the chain of the heads after the first `n` |
| StreamLaws.BindEachEls | src/main/java/com/github/lpld/jeff/Stream.java:391-398 | on a chain of `Cons` cells, mapping binds every head in place |
| StreamLaws.NilAbsorbs | src/main/java/com/github/lpld/jeff/Stream.java:507-575 | on `Nil` every structural combinator is `Nil`, folds and collects return the seed, `lazyHead`/`headOption` are `Pure(empty)`, and `append` with `Nil` returns the other operand |
| StreamLaws.ZeroCounts | src/main/java/com/github/lpld/jeff/Stream.java:363-370 | on a `Cons`, `take(0)` is `Nil` and `drop(0)` returns the same stream |
| ElementLaws.PrefixLen | src/main/java/com/github/lpld/jeff/Stream.java:381-383 | the index of the first element failing `p`: all before it pass, and it fails (or the list is exhausted) |
| ElementLaws.TakeWhileValuesPrefix | src/main/java/com/github/lpld/jeff/Stream.java:373-378 | the values kept by `takeWhile` are the longest passing prefix, plus the first failing value when it is included |
| ElementLaws.FilterValuesMembers | src/main/java/com/github/lpld/jeff/Stream.java:358-360 | `filter` keeps a value if and only if it is in the stream and passes `p` |
| ElementLaws.TakeWhileStepsAfterEvs | src/main/java/com/github/lpld/jeff/Stream.java:452-454 | `takeWhile` through a `Defer` runs its effect and then continues |
| ElementLaws.TakeWhileUnrolls | src/main/java/com/github/lpld/jeff/Stream.java:373-378 | `takeWhile` runs each head in order until the first failing one and then stops; the tail gets `includeFailure = false`. Only the heads up to the failing one need to yield: later heads may fail or never finish |
| ElementLaws.TakeWhileHeads | src/main/java/com/github/lpld/jeff/Stream.java:373-378 | `takeWhile` keeps the passing prefix as pure heads; the failing value is kept only when it is the very first element (as written). Observations are needed only up to the first failing value, never for the heads after it |
| ElementLaws.DropWhileStepsAfterEvs | src/main/java/com/github/lpld/jeff/Stream.java:457-459 | `dropWhile` through a `Defer` runs its effect and then continues |
| ElementLaws.DropWhileUnrolls | src/main/java/com/github/lpld/jeff/Stream.java:381-383 | `dropWhile` runs heads until the first failing one and returns that original cell, whose head runs again later; later heads are never run, so nothing is asked of them |
| ElementLaws.DropWhileChainStep | src/main/java/com/github/lpld/jeff/Stream.java:381-383 | one step of `dropWhile` on a cons chain: run the head, then skip it or stop |
| ElementLaws.TakeWhileChainStep | src/main/java/com/github/lpld/jeff/Stream.java:373-378 | one step of `takeWhile` on a cons chain: run the head, then keep it and go on, or stop |
| ElementLaws.DropWhileChain | src/main/java/com/github/lpld/jeff/Stream.java:381-383 | on a cons chain, `dropWhile` runs exactly the heads up to and including the first failure, then yields the original heads from that failure on; later heads need no observation |
| ElementLaws.DropWhileHeads | src/main/java/com/github/lpld/jeff/Stream.java:381-383 | the elements after `dropWhile` are the original heads from the first failing one on; observations are needed only up to that head |
| ElementLaws.FilterStepsAfterEvs | src/main/java/com/github/lpld/jeff/Stream.java:477-479 | `filter` through a `Defer` runs its effect and then continues |
| ElementLaws.FilterUnrolls | src/main/java/com/github/lpld/jeff/Stream.java:358-360 | `filter` runs each head once, in order, and keeps the passing values as pure heads |
| ElementLaws.FilterConsUnrolls | src/main/java/com/github/lpld/jeff/Stream.java:358-360 | one `filter` step on a `Cons`: run the head, then keep its value or skip it |
| ElementLaws.FilterHeads | src/main/java/com/github/lpld/jeff/Stream.java:358-360 | the elements of `filter(p)` are the passing values in order |
| ElementLaws.FlatMapStepsAfterEvs | src/main/java/com/github/lpld/jeff/Stream.java:462-464 | `flatMap` through a `Defer` runs its effect and then continues |
| ElementLaws.FlatMapUnrolls | src/main/java/com/github/lpld/jeff/Stream.java:386-388 | `flatMap(f)` runs each head, then unrolls `f` of its value followed by the rest |
| ElementLaws.FlatMapHeads | src/main/java/com/github/lpld/jeff/Stream.java:386-388 | the elements of `flatMap(f)` are the elements of the sub-streams, concatenated in order |
| ElementLaws.EvsOnlyEl | src/main/java/com/github/lpld/jeff/Stream.java:45-47 | a head that is not run contributes no effect |
| ElementLaws.TakeWhileChainRuns | src/main/java/com/github/lpld/jeff/Stream.java:373-378 | on a cons chain, `takeWhile` runs exactly the heads up to and including the first failing one, and no later head; later heads need no observation |
| ElementLaws.FilterChainRuns | src/main/java/com/github/lpld/jeff/Stream.java:358-360 | on a cons chain, `filter` runs every head exactly once, in order |
| FoldLaws.ConsSteps | src/main/java/com/github/lpld/jeff/Stream.java:338-340 | a full traversal of a `Cons` runs its head first and then the tail |
| FoldLaws.FoldRightValueYields | src/main/java/com/github/lpld/jeff/Stream.java:161-163 | `foldRight(z, f)` yields the right fold of the values and runs every head and structural effect once, in order |
| FoldLaws.FoldRightPrepend | src/main/java/com/github/lpld/jeff/Stream.java:318-320 | folding with `prepend` from the empty list rebuilds the list of values |
| FoldLaws.ToLListYields | src/main/java/com/github/lpld/jeff/Stream.java:318-320 | `toLList` yields the list of values in order, with the full traversal's effects |
| FoldLaws.FoldLeftYields | src/main/java/com/github/lpld/jeff/Stream.java:348-350 | `foldLeft(z, f)` yields the left fold of the values and runs every head and structural effect once, in order |
| FoldLaws.FoldLeftPrepend | src/main/java/com/github/lpld/jeff/Stream.java:348-350 | a left fold with `prepend` reverses the values onto the accumulator |
| FoldLaws.FoldLeftReverses | src/main/java/com/github/lpld/jeff/Stream.java:348-350 | `foldLeft(Nil, prepend)` yields the values reversed |
| FoldLaws.FoldRightFails | src/main/java/com/github/lpld/jeff/Stream.java:338-340 | a head that fails with `e` fails the effectful `foldRight` with `e` when no earlier value short-circuits it (always for `foldRight(z, f)`/`toLList`, while undecided for `exists`/`forall`); the effects are those up to and including the failing head, and neither later heads nor `z` run |
| FoldLaws.ToLListFails | src/main/java/com/github/lpld/jeff/Stream.java:318-320 | `toLList` over a stream with a failing head fails with that head's error and builds no list |
| FoldLaws.FoldLeftFails | src/main/java/com/github/lpld/jeff/Stream.java:348-350 | `foldLeft` over a stream with a failing head fails with that error, after the effects up to and including that head |
| FoldLaws.Hit | src/main/java/com/github/lpld/jeff/Stream.java:221-227 | a search hits if and only if some value gives the target answer |
| FoldLaws.SearchLogAfterEvs | src/main/java/com/github/lpld/jeff/Stream.java:422-424 | a search through a `Defer` runs its effect first |
| FoldLaws.SearchYields | src/main/java/com/github/lpld/jeff/Stream.java:221-227 | the short-circuiting right fold yields whether some value hits, with the search log; only the heads up to the first hit need to yield |
| FoldLaws.ExistsYields | src/main/java/com/github/lpld/jeff/Stream.java:221-223 | `exists(p)` yields true if and only if some value satisfies `p`; the heads after the first satisfying one are never run and may fail |
| FoldLaws.ForallYields | src/main/java/com/github/lpld/jeff/Stream.java:225-227 | `forall(p)` yields true if and only if every value satisfies `p`; the heads after the first failing one are never run and may fail |
| FoldLaws.SearchLogPrefix | src/main/java/com/github/lpld/jeff/Stream.java:221-227 | a search runs a prefix of the full traversal's effects, and all of them when nothing hits |
| FoldLaws.ExistsForallDual | src/main/java/com/github/lpld/jeff/Stream.java:221-227 | `exists(p)` and `forall(!p)` stop at the same element, run the same effects and give opposite answers |
| FoldLaws.LeadAfterEvs | src/main/java/com/github/lpld/jeff/Stream.java:482-484 | `lazyHead` through a `Defer` runs its effect and goes on |
| FoldLaws.ConsFirst | src/main/java/com/github/lpld/jeff/Stream.java:401-403 | the first element of a spine starting with a head is that head, with no effect before it |
| FoldLaws.ConsHasFirst | src/main/java/com/github/lpld/jeff/Stream.java:401-403 | the first element of any unrolled `Cons(h, t)` is `h` |
| FoldLaws.LazyHeadYields | src/main/java/com/github/lpld/jeff/Stream.java:401-403 | `lazyHead` yields the first head without running it, running only the structure before it |
| FoldLaws.HeadOptionEmpty | src/main/java/com/github/lpld/jeff/Stream.java:487-489 | `headOption` of a stream with no element yields empty after its structural effects |
| FoldLaws.HeadOptionFirst | src/main/java/com/github/lpld/jeff/Stream.java:406-408 | `headOption` runs only the structure before the first head and that head, and yields its value |
| FoldLaws.HeadOptionRunsLazyHead | src/main/java/com/github/lpld/jeff/Stream.java:236-251 | `headOption` agrees with running the head that `lazyHead` returns |
| FoldLaws.ExpandEls | src/main/java/com/github/lpld/jeff/Stream.java:338-340 | a full traversal of a cons chain runs every head once, in order |
| FoldLaws.SearchLogElsStep | src/main/java/com/github/lpld/jeff/Stream.java:221-227 | one search step on a cons chain: run the head, then stop or go on |
| FoldLaws.SearchLogEls | src/main/java/com/github/lpld/jeff/Stream.java:221-227 | on a cons chain, `exists`/`forall` run exactly the heads up to and including the first deciding one; later heads need no observation |
| Scenarios.QuietObserved | src/test/java/com/github/lpld/jeff/StreamTest.java:117-136 | effect-free observations keep the values and run nothing |
| Scenarios.PuresYield | src/test/java/com/github/lpld/jeff/StreamTest.java:129-136 | pure heads yield their values with no effect |
| Scenarios.ToLListAfter | src/main/java/com/github/lpld/jeff/Stream.java:318-320 | `toLList` of a stream with leading effects and a cons chain yields the values, after those effects and the heads' |
| Scenarios.HeadAfter | src/main/java/com/github/lpld/jeff/Stream.java:193-195 | `head()` keeps the side effects that come before the first element, then keeps that element alone, with its head still unrun |
| Scenarios.TailAfter | src/main/java/com/github/lpld/jeff/Stream.java:197-199 | `tail()` keeps the side effects that come before the first element and drops that element without running its head |
| Scenarios.ToLListEls | src/main/java/com/github/lpld/jeff/Stream.java:318-320 | `toLList` of a cons chain yields its values and runs each head once |
| Scenarios.TakeU | src/main/java/com/github/lpld/jeff/Stream.java:363-365 | any unrolled stream's `take(n)` unrolls to its taken steps |
| Scenarios.DropU | src/main/java/com/github/lpld/jeff/Stream.java:368-370 | any unrolled stream's `drop(n)` unrolls to its dropped steps |
| Scenarios.OfToLList | src/test/java/com/github/lpld/jeff/StreamTest.java:117-136 | `toLList(of(xs))` is `xs`, with no effects |
| Scenarios.OfTakeToLList | src/test/java/com/github/lpld/jeff/StreamTest.java:149-156 | `of(xs).take(n).toLList()` is the first `min(n, len)` values, so `take(5)` and `take(10)` agree on five values |
| Scenarios.OfDropToLList | src/test/java/com/github/lpld/jeff/StreamTest.java:159-167 | `of(xs).drop(n).toLList()` is the suffix after `min(n, len)` values, empty when `n >= len` |
| Scenarios.TailTailSkipsHead | src/test/java/com/github/lpld/jeff/StreamTest.java:175-184 | `tail().tail().toLList()` of `[3, io, 6]` yields `[6]` and never runs `io` |
| Scenarios.SixSlice | src/test/java/com/github/lpld/jeff/StreamTest.java:209-210 | the test stream `2, 3, io4, 5, io6, 7`: each head yields its value, and only `io4` and `io6` log an effect |
| Scenarios.SixDropHead | src/test/java/com/github/lpld/jeff/StreamTest.java:222-226 | `drop(n).head().toLList()` yields the `n`-th value and runs only that head |
| Scenarios.LazinessTakeDrop | src/test/java/com/github/lpld/jeff/StreamTest.java:212-226 | `head`, `tail.head` run nothing; `drop(4).head` runs only `io6`; `drop(2).head` runs only `io4` |
| Scenarios.LazinessTailsHead | src/test/java/com/github/lpld/jeff/StreamTest.java:219-220 | `tail().tail().tail().head()` yields `[5]` and runs nothing |
| Scenarios.DropWhileU | src/main/java/com/github/lpld/jeff/Stream.java:381-383 | any unrolled stream's `dropWhile` unrolls to its closed form, asking nothing of the heads after the first failing one |
| Scenarios.TakeWhileU | src/main/java/com/github/lpld/jeff/Stream.java:373-378 | any unrolled stream's `takeWhile` unrolls to its closed form, asking nothing of the heads after the first failing one |
| Scenarios.DropWhileSix | src/test/java/com/github/lpld/jeff/StreamTest.java:231-232 | `dropWhile(i <= 4)` on the test stream runs `io4` and yields the original cells from `5` on |
| Scenarios.SixAll | src/test/java/com/github/lpld/jeff/StreamTest.java:209-210 | every head of the test stream yields its value |
| Scenarios.SixPassAtMost4 | src/test/java/com/github/lpld/jeff/StreamTest.java:228-232 | `i <= 4` holds for the first three values and the heads run up to the failure log only `io4` |
| Scenarios.LazinessDropWhileHead | src/test/java/com/github/lpld/jeff/StreamTest.java:231-232 | `dropWhile(i <= 4).head()` yields `[5]` and runs `io4` but not `io6` |
| Scenarios.LazinessDropWhileTailHead | src/test/java/com/github/lpld/jeff/StreamTest.java:234-235 | `dropWhile(i <= 4).tail().head()` yields `[6]` and runs both `io4` and `io6` |
| Scenarios.LazinessDropWhileTailTailHead | src/test/java/com/github/lpld/jeff/StreamTest.java:237-239 | `dropWhile(i <= 4).tail().tail().head()` yields `[7]` and runs `io4` but not `io6` |
| Scenarios.TakeWhileSix | src/test/java/com/github/lpld/jeff/StreamTest.java:228-229 | `takeWhile(i <= 4)` on the test stream keeps `2, 3, 4` and runs the heads up to `5`, logging `io4` |
| Scenarios.LazinessTakeWhile | src/test/java/com/github/lpld/jeff/StreamTest.java:228-229 | `takeWhile(i <= 4).toLList()` is `[2, 3, 4]` and runs `io4` but not `io6` |
| Scenarios.DropWhileRerunsFailingHead | src/main/java/com/github/lpld/jeff/Stream.java:381-383 | `dropWhile(i <= 3).toLList()` yields `[4, 5, 6, 7]` but runs `io4` twice: once for the test, once when consumed |
| Scenarios.DropWhileSixAtMost3 | src/main/java/com/github/lpld/jeff/Stream.java:381-383 | `dropWhile(i <= 3)` runs `io4` and returns the original cell holding `io4` |
| Scenarios.SixPassAtMost3 | src/main/java/com/github/lpld/jeff/Stream.java:381-383 | `i <= 3` holds for the first two values; the heads run up to the failure log only `io4` |
| Scenarios.SixTailObserved | src/test/java/com/github/lpld/jeff/StreamTest.java:209-210 | the last four heads of the test stream yield `4, 5, 6, 7` and log `io4`, `io6` |
| Scenarios.TickedUnrolls | src/test/java/com/github/lpld/jeff/StreamTest.java:279-284 | the `mapEval` stream unrolls to the five counting heads, none run |
| Scenarios.TickLogs | src/test/java/com/github/lpld/jeff/StreamTest.java:279-284 | running the first `k` counting heads increments the counter `k` times |
| Scenarios.ExistsU | src/main/java/com/github/lpld/jeff/Stream.java:221-223 | `exists` over any unrolled stream yields whether some value passes, running heads up to the first hit and asking nothing of later heads |
| Scenarios.ExistsStopsAtFirstHit | src/test/java/com/github/lpld/jeff/StreamTest.java:288-289 | `exists(== 3)` yields true after exactly three counter increments |
| Scenarios.ExistsRunsAllOnMiss | src/test/java/com/github/lpld/jeff/StreamTest.java:293-294 | `exists(< 0)` yields false after exactly five counter increments |
| Scenarios.MissRunsAll | src/test/java/com/github/lpld/jeff/StreamTest.java:293-294 | with no hit the search runs every counting head |
| Scenarios.NoneNegative | src/test/java/com/github/lpld/jeff/StreamTest.java:293-294 | no value of `1..5` is negative, so no head decides the search early |
| Scenarios.ExistsSkipsFailingTail | src/main/java/com/github/lpld/jeff/Stream.java:221-223 | `Stream.eval(Pure(3), raiseError(e)).exists(x -> x == 3)` yields true with no effect: the failing second head never runs |
| Scenarios.TakeWhileSkipsFailingTail | src/main/java/com/github/lpld/jeff/Stream.java:203-205 | `Stream.eval(Pure(5), raiseError(e)).takeWhile(i -> i < 3)` unrolls to nothing and never runs the failing head |
| Scenarios.TakeWhileKeepsBeforeFailingTail | src/main/java/com/github/lpld/jeff/Stream.java:373-378 | `Stream.eval(Pure(1), Pure(5), raiseError(e)).takeWhile(i -> i < 3)` keeps `1` alone and runs no effect; the failing third head is never run |
| Scenarios.ToLListStopsAtFailure | src/main/java/com/github/lpld/jeff/Stream.java:318-320 | `Stream.eval(Pure(1), raiseError(e), Pure(3)).toLList()` fails with `e` |
| Scenarios.ExistsStopsAtFailure | src/main/java/com/github/lpld/jeff/Stream.java:221-223 | `Stream.eval(Pure(1), raiseError(e)).exists(x -> x == 3)` fails with `e`: a failure before any hit is not skipped |
| Scenarios.OneFive | src/main/java/com/github/lpld/jeff/Stream.java:73-76 | `Stream(1, 5)`, built by `of` through `fromList`, unrolls to its two pure heads yielding `1` and `5` |
| Scenarios.TakeWhileLosesFailure | src/main/java/com/github/lpld/jeff/Stream.java:373-378 | as written, `Stream(1, 5).takeWhile(i < 3, true)` is only `[1]`: the failing `5` is lost |
| Scenarios.TakeWhileFixedKeepsFailure | src/main/java/com/github/lpld/jeff/Stream.java:373-378 | with `includeFailure` passed on, the same call is `[1, 5]` |
| Scenarios.TakeWhileKeepsFailingFirst | src/main/java/com/github/lpld/jeff/Stream.java:373-378 | as written, `includeFailure` is honoured when the very first element fails |

## Left out

- `zip`, `zipWith`, `merge` and `awakeEvery` are not modelled. They need `IO.both`/`IO.seq`/`IO.sleep` and an `Executor`, and their point is concurrency.
- `repeat`, `iterate`, `chain`, `drain`, `fromIterable`, `fromIterator`, `ofAll` and the `toString`s are not modelled.
  - `repeat` and `iterate` build infinite streams.
  - The iterator factories consume a mutable Java iterator and run eagerly.
- Streams.FoldRight, Streams.CollectRight, Streams.CollectLeft: the step function is a closed set of the library's own lambdas, not an arbitrary user `Fn2`. For the effectful `foldRight(IO<R>, Fn2)` these are the lifted value step of `foldRight(R, Fn2)` (`LiftStep`, for any value function) and the steps of `exists` and `forall`; for `collectRight`/`collectLeft` it is the cons-rebuilding step of `append` and `reverse` (`Restack`). `foldRight(R z, f)` itself is modelled for every `f` (Streams.FoldRightValue).
- Streams.Filter, Streams.FlatMap: no lemma states what happens when a head fails. Both run heads inside a `Defer`, so the failure surfaces when the result is unrolled, which `Spine` does not follow. The fold lemmas (FoldLaws.FoldRightFails, FoldLaws.FoldLeftFails) do state the error path.
- `Futures` and the example applications are not part of this model.
- `IO.run`'s interpreter (`IORun`) and `WrappedError` are not part of this model. `Interp.Run` is a fuel-bounded reference evaluator that stands for the meaning of `run()`. A run that does not finish is not an observation, so stack safety and non-termination are not modelled.
- Every stream theorem is about streams that unroll in finite fuel, meaning finite spines. `exists`, `forall` and `lazyHead` on infinite streams are not covered. `unfold` is covered only through `take(n)`.
- User callbacks are total Dafny functions. A predicate, mapping function or `unfold` step that throws is not modelled; effects that fail are modelled through `Delay` thunks.
- Java generics become one value universe. A user callback applied to a non-`Data` value, which Java's types rule out, gets `Unit`.
- `Streams.Take`, `Streams.Drop`: the count is an unbounded integer. Java's 32-bit `n - 1` wrap-around after `Integer.MIN_VALUE` steps is not modelled; a negative count keeps counting down for ever, so `take` keeps everything and `drop` drops everything.
- Object identity is not modelled. "`drop(0)` returns `this`" is stated as equality of values (`StreamLaws.ZeroCounts`), and "constructors perform no work" holds because the `IO` combinators are datatype constructors that evaluate nothing.
- `Stream.java` calls `Pure(...)` and `Suspend(...)` factories that `IO.java` does not show. They are taken to build the `Pure` and `Suspend` nodes of `IO.java:85-93`.

## Findings

| source | as written | input that shows it | evidently intended | confidence | as-written member | corrected member |
|---|---|---|---|---|---|---|
| src/main/java/com/github/lpld/jeff/Stream.java:373-378 | `Cons.takeWhile(p, includeFailure)` recurses with `tail.takeWhile(p)`, which resets `includeFailure` to `false`; the failing element is kept only when it is the first one | `Stream(1, 5).takeWhile(i -> i < 3, true)` yields `[1]` | `[1, 5]`: the first failing element is kept wherever it is, as the flag's name and the single-element case suggest | not executed | Scenarios.TakeWhileLosesFailure (over `Streams.TakeWhile`) | Streams.TakeWhileFixed, with Scenarios.TakeWhileFixedKeepsFailure and ElementLaws.TakeWhileHeads (flag passed on) |

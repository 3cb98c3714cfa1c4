/** The `MetaTool<WrappedTool>` front-end action as a state machine over its
    single `tool` pointer.

    The C++ template is generic over the wrapped tool only; the model also
    takes the compiler instance, the map reference and the matcher
    registration as type parameters, to keep them opaque:
      - `C` is the compiler instance handed to `BeginSourceFileAction`;
      - `T` is the wrapped tool;
      - `M` is the caller's replacements map, held by reference and never
        inspected by the MetaTool itself;
      - `P` is one matcher registration on the owned `MatchFinder f`.

    Heap allocation and deletion are not modelled as such: the instance keeps a
    log of what it has done to the world outside itself (created the tool,
    handed the map to `postProcessing`, deleted the tool), and the lifecycle
    rules are stated over that log. Each event carries the tool's state at
    that moment. The `tool` pointer is the held tool value: the callbacks the
    wrapped tool registered update that object in place during traversal
    (`Traversed`), and `postProcessing` and the destructor see the result. */
module MetaTools {
  import opened Base

  /** An effect the MetaTool has on the world outside itself. */
  datatype Event<T, M> =
    | ToolCreated(tool: T)                           // `tool = new WrappedTool(&ci, &f)`
    | PostProcessed(tool: T, replacementsMap: M)     // `tool->postProcessing(replacementsMap)`
    | ToolDeleted(tool: T)                           // `delete tool` in the destructor

  /** What the wrapped tool's constructor yields: the new tool, and the match
      finder after the constructor added its matchers to it. */
  datatype Constructed<T, P> = Constructed(tool: T, finder: seq<P>)

  /** The MetaTool's members: the replacements-map reference, the owned match
      finder (as the matchers registered on it), the `tool` pointer, and the
      log of outside effects. */
  datatype MetaTool<T, M, P> = MetaTool(
    replacementsMap: M,
    finder: seq<P>,
    tool: Option<T>,
    events: seq<Event<T, M>>)

  /** The AST consumer `f.newASTConsumer()` returns: it runs the matchers
      registered on `f`, taken at the time the consumer is created. In the
      model only the wrapped tool's constructor registers matchers (the
      protocol of the `MetaTool` class comment), so after
      `BeginSourceFileAction` the finder is fixed (`FinderFixedOnceBegun`)
      and this snapshot is what a consumer holding `&f` would see under that
      protocol. */
  datatype ASTConsumer<P> = ASTConsumer(matchers: seq<P>)

  /** The lifecycle invariant of a live instance: no effect before the tool is
      created; the first effect is the creation of the tool; every later
      effect hands the instance's own map to the tool's `postProcessing`;
      nothing has been deleted yet. */
  ghost predicate Valid<T, M, P>(mt: MetaTool<T, M, P>)
  {
    && (mt.tool.None? <==> |mt.events| == 0)
    && (|mt.events| > 0 ==> mt.events[0].ToolCreated?)
    && (forall i :: 1 <= i < |mt.events| ==>
          mt.events[i].PostProcessed? && mt.events[i].replacementsMap == mt.replacementsMap)
  }

  predicate IsCreation<T, M>(e: Event<T, M>) { e.ToolCreated? }
  predicate IsDeletion<T, M>(e: Event<T, M>) { e.ToolDeleted? }
  predicate IsPostProcessing<T, M>(e: Event<T, M>) { e.PostProcessed? }

  /** Number of tool creations in a log. */
  function Creations<T, M>(log: seq<Event<T, M>>): nat
  {
    Count(log, IsCreation)
  }

  /** Number of tool deletions in a log. */
  function Deletions<T, M>(log: seq<Event<T, M>>): nat
  {
    Count(log, IsDeletion)
  }

  /** Number of `postProcessing` calls in a log. */
  function PostProcessings<T, M>(log: seq<Event<T, M>>): nat
  {
    Count(log, IsPostProcessing)
  }

  lemma CountsAppend<T, M>(a: seq<Event<T, M>>, b: seq<Event<T, M>>)
    ensures Creations(a + b) == Creations(a) + Creations(b)
    ensures Deletions(a + b) == Deletions(a) + Deletions(b)
    ensures PostProcessings(a + b) == PostProcessings(a) + PostProcessings(b)
    ensures |b| == 1 ==>
              && Creations(b) == (if b[0].ToolCreated? then 1 else 0)
              && Deletions(b) == (if b[0].ToolDeleted? then 1 else 0)
              && PostProcessings(b) == (if b[0].PostProcessed? then 1 else 0)
  {
    if |b| == 1 {
      assert b[1..] == [];
    }
    CountAppend(a, b, IsCreation);
    CountAppend(a, b, IsDeletion);
    CountAppend(a, b, IsPostProcessing);
  }

  /** A valid instance has created a tool exactly when it holds one, deleted
      nothing, and called `postProcessing` once for every effect after the
      creation. */
  lemma {:induction false} ValidCounts<T, M, P>(mt: MetaTool<T, M, P>)
    ensures Valid(mt) ==>
              && Creations(mt.events) == (if mt.tool.Some? then 1 else 0)
              && Deletions(mt.events) == 0
              && PostProcessings(mt.events) == |mt.events| - Creations(mt.events)
  {
    if Valid(mt) && mt.tool.Some? {
      var rest := mt.events[1..];
      forall i | 0 <= i < |rest|
        ensures rest[i].PostProcessed?
      {
        assert rest[i] == mt.events[i + 1];
      }
      OnlyPostProcessings(rest);
    }
  }

  lemma {:induction false} OnlyPostProcessings<T, M>(log: seq<Event<T, M>>)
    requires forall i :: 0 <= i < |log| ==> log[i].PostProcessed?
    ensures Creations(log) == 0 && Deletions(log) == 0 && PostProcessings(log) == |log|
    decreases |log|
  {
    if |log| > 0 {
      assert log[0].PostProcessed?;
      OnlyPostProcessings(log[1..]);
    }
  }

  /** The constructor: remembers the caller's map, holds no tool, and owns an
      empty match finder. */
  function New<T, M, P>(replacementsMap: M): (mt: MetaTool<T, M, P>)
    ensures Valid(mt)
    ensures mt.tool.None? && mt.replacementsMap == replacementsMap && mt.finder == []
    ensures Creations(mt.events) == 0 && PostProcessings(mt.events) == 0
  {
    MetaTool(replacementsMap, [], None, [])
  }

  /** `BeginSourceFileAction`: the caller must not have begun before (the
      `assert(tool == NULL)`); creates exactly one wrapped tool, bound to the
      compiler instance and to the owned finder, and returns true. The map is
      not touched. */
  function BeginSourceFileAction<C, T, M, P>(
    mt: MetaTool<T, M, P>, ci: C, wrap: (C, seq<P>) -> Constructed<T, P>)
    : (res: (MetaTool<T, M, P>, bool))
    requires mt.tool.None?
    ensures res.1
    ensures res.0.tool == Some(wrap(ci, mt.finder).tool)
    ensures res.0.finder == wrap(ci, mt.finder).finder
    ensures res.0.replacementsMap == mt.replacementsMap
    ensures res.0.events == mt.events + [ToolCreated(wrap(ci, mt.finder).tool)]
    ensures Creations(res.0.events) == Creations(mt.events) + 1
    ensures Deletions(res.0.events) == Deletions(mt.events)
    ensures PostProcessings(res.0.events) == PostProcessings(mt.events)
    ensures Valid(mt) ==> Valid(res.0)
  {
    UncheckedBeginSourceFileAction(mt, ci, wrap)
  }

  /** `BeginSourceFileAction` as compiled with `NDEBUG`, where the `assert`
      expands to nothing: the `tool` pointer is overwritten with a new tool
      whatever it held before. With no tool held it is the checked action. */
  function UncheckedBeginSourceFileAction<C, T, M, P>(
    mt: MetaTool<T, M, P>, ci: C, wrap: (C, seq<P>) -> Constructed<T, P>)
    : (res: (MetaTool<T, M, P>, bool))
    ensures res.1
    ensures res.0.tool == Some(wrap(ci, mt.finder).tool)
    ensures res.0.finder == wrap(ci, mt.finder).finder
    ensures res.0.replacementsMap == mt.replacementsMap
    ensures res.0.events == mt.events + [ToolCreated(wrap(ci, mt.finder).tool)]
    ensures Creations(res.0.events) == Creations(mt.events) + 1
    ensures Deletions(res.0.events) == Deletions(mt.events)
    ensures PostProcessings(res.0.events) == PostProcessings(mt.events)
    ensures Valid(mt) && mt.tool.None? ==> Valid(res.0)
  {
    var made := wrap(ci, mt.finder);
    var events := mt.events + [ToolCreated(made.tool)];
    CountsAppend(mt.events, [ToolCreated(made.tool)]);
    (MetaTool(mt.replacementsMap, made.finder, Some(made.tool), events), true)
  }

  /** The traversal the host drives through the consumer: the callbacks the
      wrapped tool registered update the tool object in place, so the
      instance's pointer now reaches the updated tool. Nothing else changes. */
  function Traversed<T, M, P>(mt: MetaTool<T, M, P>, updated: T): (r: MetaTool<T, M, P>)
    requires mt.tool.Some?
    ensures r.tool == Some(updated)
    ensures r.finder == mt.finder && r.replacementsMap == mt.replacementsMap && r.events == mt.events
    ensures Valid(mt) ==> Valid(r)
  {
    mt.(tool := Some(updated))
  }

  /** `EndSourceFileAction`: dereferences `tool`, so a tool must exist; hands
      the map the instance was constructed with to the tool's `postProcessing`. */
  function EndSourceFileAction<T, M, P>(mt: MetaTool<T, M, P>): (r: MetaTool<T, M, P>)
    requires mt.tool.Some?
    ensures r.tool == mt.tool && r.finder == mt.finder && r.replacementsMap == mt.replacementsMap
    ensures PostProcessings(r.events) == PostProcessings(mt.events) + 1
    ensures Creations(r.events) == Creations(mt.events)
    ensures Deletions(r.events) == Deletions(mt.events)
    ensures r.events == mt.events + [PostProcessed(mt.tool.value, mt.replacementsMap)]
    ensures Valid(mt) ==> Valid(r)
  {
    var e := PostProcessed(mt.tool.value, mt.replacementsMap);
    CountsAppend(mt.events, [e]);
    mt.(events := mt.events + [e])
  }

  /** `CreateASTConsumer`: a consumer over the owned finder. */
  function CreateASTConsumer<C, T, M, P>(mt: MetaTool<T, M, P>, ci: C, file: string): ASTConsumer<P>
  {
    ASTConsumer(mt.finder)
  }

  /** The destructor: deletes the tool only if one was created. The result is
      the instance's final log of effects. */
  function Destroy<T, M, P>(mt: MetaTool<T, M, P>): (log: seq<Event<T, M>>)
    ensures |mt.events| <= |log| && log[..|mt.events|] == mt.events
    ensures Creations(log) == Creations(mt.events)
    ensures PostProcessings(log) == PostProcessings(mt.events)
    ensures Deletions(log) == Deletions(mt.events) + (if mt.tool.Some? then 1 else 0)
    ensures Valid(mt) ==> Deletions(log) == Creations(log) <= 1
    ensures mt.tool.Some? ==> log[|log| - 1] == ToolDeleted(mt.tool.value)
  {
    ValidCounts(mt);
    match mt.tool
    case None => mt.events
    case Some(t) =>
      CountsAppend(mt.events, [ToolDeleted(t)]);
      mt.events + [ToolDeleted(t)]
  }

  /** A call the host frontend makes on the action. `Traverse(updated)` is the
      host running the consumer over the AST, after which the wrapped tool's
      state is `updated`. */
  datatype Call<C, T> = Begin(ci: C) | End | CreateConsumer(ci: C, file: string) | Traverse(updated: T)

  /** How a sequence of calls ends: still running, stopped by the failed
      `assert(tool == NULL)`, or at the null `tool` dereference in
      `EndSourceFileAction`. */
  datatype CallOutcome<S> = Running(state: S) | AssertionFailure | NullDereference

  /** One host call, with the source's failure behaviour made explicit: a
      second Begin fails the assertion, an End without a tool dereferences
      null, and creating a consumer leaves the instance as it was. */
  function Step<C, T, M, P>(mt: MetaTool<T, M, P>, call: Call<C, T>, wrap: (C, seq<P>) -> Constructed<T, P>)
    : (r: CallOutcome<MetaTool<T, M, P>>)
    ensures call.Begin? ==> (r.AssertionFailure? <==> mt.tool.Some?)
    ensures call.End? ==> (r.NullDereference? <==> mt.tool.None?)
    ensures call.CreateConsumer? || call.Traverse? ==> r.Running?
    ensures call.CreateConsumer? ==> r == Running(mt)
    ensures r.Running? ==> r.state.replacementsMap == mt.replacementsMap
    ensures r.Running? && !call.Begin? ==> r.state.finder == mt.finder
  {
    match call
    case Begin(ci) =>
      if mt.tool.Some? then AssertionFailure else Running(BeginSourceFileAction(mt, ci, wrap).0)
    case End =>
      if mt.tool.None? then NullDereference else Running(EndSourceFileAction(mt))
    case CreateConsumer(_, _) =>
      // The consumer goes to the host; the instance does not change.
      Running(mt)
    case Traverse(updated) =>
      // Without a tool no callback is registered, and nothing changes.
      if mt.tool.None? then Running(mt) else Running(Traversed(mt, updated))
  }

  /** A sequence of host calls, stopping at the first failure. */
  function RunCalls<C, T, M, P>(mt: MetaTool<T, M, P>, calls: seq<Call<C, T>>, wrap: (C, seq<P>) -> Constructed<T, P>)
    : CallOutcome<MetaTool<T, M, P>>
    decreases |calls|
  {
    if |calls| == 0 then Running(mt)
    else match Step(mt, calls[0], wrap)
      case Running(next) => RunCalls(next, calls[1..], wrap)
      case AssertionFailure => AssertionFailure
      case NullDereference => NullDereference
  }

  predicate IsBegin<C, T>(call: Call<C, T>) { call.Begin? }
  predicate IsEnd<C, T>(call: Call<C, T>) { call.End? }

  /** Number of `BeginSourceFileAction` calls in a sequence of host calls. */
  function Begins<C, T>(calls: seq<Call<C, T>>): nat
  {
    Count(calls, IsBegin)
  }

  /** Number of `EndSourceFileAction` calls in a sequence of host calls. */
  function Ends<C, T>(calls: seq<Call<C, T>>): nat
  {
    Count(calls, IsEnd)
  }

  /** Any run of host calls keeps the lifecycle invariant and the map
      reference; each `BeginSourceFileAction` creates one tool and each
      `EndSourceFileAction` makes one `postProcessing` call. */
  lemma {:induction false} RunKeepsValid<C, T, M, P>(
    mt: MetaTool<T, M, P>, calls: seq<Call<C, T>>, wrap: (C, seq<P>) -> Constructed<T, P>)
    requires Valid(mt)
    ensures RunCalls(mt, calls, wrap).Running? ==>
              var s := RunCalls(mt, calls, wrap).state;
              && Valid(s)
              && s.replacementsMap == mt.replacementsMap
              && Creations(s.events) == Creations(mt.events) + Begins(calls)
              && PostProcessings(s.events) == PostProcessings(mt.events) + Ends(calls)
    decreases |calls|
  {
    if |calls| > 0 {
      var st := Step(mt, calls[0], wrap);
      if st.Running? {
        RunKeepsValid(st.state, calls[1..], wrap);
      }
    }
  }

  /** Single use: from a fresh instance, any sequence of host calls that
      begins twice stops before a second tool exists. */
  lemma SingleUse<C, T, M, P>(m: M, calls: seq<Call<C, T>>, wrap: (C, seq<P>) -> Constructed<T, P>)
    requires Begins(calls) >= 2
    ensures !RunCalls(New<T, M, P>(m), calls, wrap).Running?
  {
    var mt := New<T, M, P>(m);
    RunKeepsValid(mt, calls, wrap);
    if RunCalls(mt, calls, wrap).Running? {
      ValidCounts(RunCalls(mt, calls, wrap).state);
    }
  }

  /** Release exactly once: after any run from a fresh instance that did not
      fail, the destructor deletes the tool exactly when one was created, and
      every `postProcessing` call received the caller's map. */
  lemma ReleaseExactlyOnce<C, T, M, P>(m: M, calls: seq<Call<C, T>>, wrap: (C, seq<P>) -> Constructed<T, P>)
    requires RunCalls(New<T, M, P>(m), calls, wrap).Running?
    ensures var s := RunCalls(New<T, M, P>(m), calls, wrap).state;
            var log := Destroy(s);
            && Begins(calls) <= 1
            && Creations(log) == Begins(calls)
            && Deletions(log) == Creations(log)
            && PostProcessings(log) == Ends(calls)
            && (forall i :: 0 <= i < |log| && log[i].PostProcessed? ==> log[i].replacementsMap == m)
  {
    var mt := New<T, M, P>(m);
    RunKeepsValid(mt, calls, wrap);
    var s := RunCalls(mt, calls, wrap).state;
    ValidCounts(s);
    var log := Destroy(s);
    forall i | 0 <= i < |log| && log[i].PostProcessed?
      ensures log[i].replacementsMap == m
    {
      if i < |s.events| {
        assert log[i] == s.events[i];
      }
    }
  }

  /** Without the assertion (`NDEBUG`), a second `BeginSourceFileAction`
      replaces the first tool: two tools are created, the destructor deletes
      only the second, and the first is never released. */
  lemma UncheckedSecondBeginLeaks<C, T, M, P>(
    m: M, ci1: C, ci2: C, wrap: (C, seq<P>) -> Constructed<T, P>)
    ensures var first := UncheckedBeginSourceFileAction(New<T, M, P>(m), ci1, wrap).0;
            var second := UncheckedBeginSourceFileAction(first, ci2, wrap).0;
            var log := Destroy(second);
            && Creations(log) == 2
            && Deletions(log) == 1
            && log[|log| - 1] == ToolDeleted(wrap(ci2, wrap(ci1, []).finder).tool)
  {
  }

  /** Once a tool exists, no call that succeeds changes the finder, and none
      of the calls is a `BeginSourceFileAction`. */
  lemma {:induction false} FinderFixedOnceBegun<C, T, M, P>(
    mt: MetaTool<T, M, P>, calls: seq<Call<C, T>>, wrap: (C, seq<P>) -> Constructed<T, P>)
    requires mt.tool.Some?
    ensures RunCalls(mt, calls, wrap).Running? ==>
              && RunCalls(mt, calls, wrap).state.finder == mt.finder
              && RunCalls(mt, calls, wrap).state.tool.Some?
              && forall j :: 0 <= j < |calls| ==> !calls[j].Begin?
    decreases |calls|
  {
    if |calls| > 0 {
      var st := Step(mt, calls[0], wrap);
      if st.Running? {
        FinderFixedOnceBegun(st.state, calls[1..], wrap);
        if RunCalls(mt, calls, wrap).Running? {
          forall j | 0 <= j < |calls|
            ensures !calls[j].Begin?
          {
            if j > 0 {
              assert calls[j] == calls[1..][j - 1];
            }
          }
        }
      }
    }
  }

  /** Before the tool exists, the finder at the end of a successful run is
      what the one `BeginSourceFileAction` of the run made of it. */
  lemma {:induction false} FinderAfterBegin<C, T, M, P>(
    mt: MetaTool<T, M, P>, calls: seq<Call<C, T>>, wrap: (C, seq<P>) -> Constructed<T, P>, k: nat, ci: C)
    requires mt.tool.None?
    requires k < |calls| && calls[k] == Begin(ci)
    requires RunCalls(mt, calls, wrap).Running?
    ensures RunCalls(mt, calls, wrap).state.finder == wrap(ci, mt.finder).finder
    decreases |calls|
  {
    var st := Step(mt, calls[0], wrap);
    match calls[0]
    case Begin(ci0) =>
      FinderFixedOnceBegun(st.state, calls[1..], wrap);
    case End =>
    case CreateConsumer(_, _) =>
      assert calls[1..][k - 1] == Begin(ci);
      FinderAfterBegin(st.state, calls[1..], wrap, k - 1, ci);
    case Traverse(_) =>
      assert calls[1..][k - 1] == Begin(ci);
      FinderAfterBegin(st.state, calls[1..], wrap, k - 1, ci);
  }

  /** Whenever the host creates the consumer after `BeginSourceFileAction`
      (at any later point of a successful run from a fresh instance), the
      consumer runs exactly the matchers the wrapped tool's constructor
      registered on the empty finder. */
  lemma ConsumerRunsToolMatchers<C, T, M, P>(
    m: M, calls: seq<Call<C, T>>, wrap: (C, seq<P>) -> Constructed<T, P>, k: nat, ci: C, ci': C, file: string)
    requires k < |calls| && calls[k] == Begin(ci)
    requires RunCalls(New<T, M, P>(m), calls, wrap).Running?
    ensures CreateASTConsumer(RunCalls(New<T, M, P>(m), calls, wrap).state, ci', file).matchers
              == wrap(ci, []).finder
  {
    FinderAfterBegin(New<T, M, P>(m), calls, wrap, k, ci);
  }
}

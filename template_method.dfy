/** The Template Method pattern: a fixed skeleton of steps whose abstract steps
    a subclass supplies, and a cache-or-compute skeleton with a clean-up that
    always runs. The subclass's steps are parameters here: what each step does
    (its effects, its value, or the exception it raises). */
module TemplateMethod {

  import opened Wrappers

  // ---------------------------------------------------------------------------
  // AbsClass.template_method
  // ---------------------------------------------------------------------------

  /** What a step may raise. */
  datatype Exception = CacheError | OtherError(code: int)

  datatype Step = Operation1 | Operation2 | ConcreteOperation | Hook

  /** What one step of the subclass does when it is called: the effects it has,
      and the exception it raises after them, if any. */
  datatype StepRun<E> = StepRun(effects: seq<E>, raised: Option<Exception>)

  /** One step run by the skeleton, with the effects it had. */
  datatype Call<E> = Call(step: Step, effects: seq<E>)

  /** What a skeleton produced: the steps it called, and the exception that
      escaped it, if any. */
  datatype TemplateResult<E> = TemplateResult(trace: seq<Call<E>>, raised: Option<Exception>)

  /** The default hook does nothing and raises nothing. */
  function DefaultHook<E>(): (r: StepRun<E>)
    ensures |r.effects| == 0 && r.raised.None?
  {
    StepRun([], None)
  }

  /** The shared concrete operation has no effect on the model's state (it only
      prints) and raises nothing. */
  function ConcreteEffects<E>(): (r: StepRun<E>)
    ensures |r.effects| == 0 && r.raised.None?
  {
    StepRun([], None)
  }

  /** The steps of a trace, in order. */
  function Steps<E>(trace: seq<Call<E>>): (r: seq<Step>)
    ensures |r| == |trace|
    ensures forall i :: 0 <= i < |trace| ==> r[i] == trace[i].step
  {
    if trace == [] then [] else [trace[0].step] + Steps(trace[1..])
  }

  /** All the effects of a trace, in order. */
  function Effects<E>(trace: seq<Call<E>>): seq<E> {
    if trace == [] then [] else trace[0].effects + Effects(trace[1..])
  }

  /** A body of plain calls without a try: the steps are called in order until
      one raises; that step is the last one called and its exception escapes.
      Without an exception every step is called. */
  function RunSteps<E>(plan: seq<(Step, StepRun<E>)>): (r: TemplateResult<E>)
    ensures |r.trace| <= |plan|
    ensures forall i :: 0 <= i < |r.trace| ==> r.trace[i] == Call(plan[i].0, plan[i].1.effects)
    ensures r.raised.None? ==>
      |r.trace| == |plan| && forall i :: 0 <= i < |plan| ==> plan[i].1.raised.None?
    ensures r.raised.Some? ==>
      0 < |r.trace| && r.raised == plan[|r.trace| - 1].1.raised
      && forall i :: 0 <= i < |r.trace| - 1 ==> plan[i].1.raised.None?
  {
    if plan == [] then TemplateResult([], None)
    else
      var call := Call(plan[0].0, plan[0].1.effects);
      if plan[0].1.raised.Some? then TemplateResult([call], plan[0].1.raised)
      else
        var rest := RunSteps(plan[1..]);
        TemplateResult([call] + rest.trace, rest.raised)
  }

  /** template_method with what the subclass's operation1, operation2 and hook
      do: the four calls in order, stopping at the first that raises. */
  function Template<E>(operation1: StepRun<E>, operation2: StepRun<E>, hook: StepRun<E>): (r: TemplateResult<E>)
    ensures 0 < |r.trace| <= 4
    ensures Steps(r.trace) == [Operation1, Operation2, ConcreteOperation, Hook][..|r.trace|]
    ensures r.raised.None? <==> operation1.raised.None? && operation2.raised.None? && hook.raised.None?
  {
    var plan := [(Operation1, operation1), (Operation2, operation2),
                 (ConcreteOperation, ConcreteEffects()), (Hook, hook)];
    var r := RunSteps(plan);
    assert r.raised.Some? ==> 0 < |r.trace|;
    assert r.raised.None? ==> plan[0].1.raised.None? && plan[1].1.raised.None? && plan[3].1.raised.None?;
    r
  }

  /** The number of times a step occurs in a sequence of steps. */
  function Occurrences(steps: seq<Step>, s: Step): nat {
    if steps == [] then 0
    else (if steps[0] == s then 1 else 0) + Occurrences(steps[1..], s)
  }

  /** When no step raises, the skeleton runs operation1, operation2, the
      concrete operation and the hook in that order, each once, and its effects
      are theirs in that order. */
  lemma TemplateOrder<E>(operation1: StepRun<E>, operation2: StepRun<E>, hook: StepRun<E>)
    requires operation1.raised.None? && operation2.raised.None? && hook.raised.None?
    ensures Template(operation1, operation2, hook).raised.None?
    ensures Steps(Template(operation1, operation2, hook).trace) == [Operation1, Operation2, ConcreteOperation, Hook]
    ensures forall s :: Occurrences(Steps(Template(operation1, operation2, hook).trace), s) == 1
    ensures Effects(Template(operation1, operation2, hook).trace) == operation1.effects + operation2.effects + hook.effects
  {
    var t := Template(operation1, operation2, hook).trace;
    assert t == [Call(Operation1, operation1.effects), Call(Operation2, operation2.effects),
                 Call(ConcreteOperation, []), Call(Hook, hook.effects)];
    assert t[1..][1..][1..][1..] == [];
    assert Effects(t[1..][1..][1..]) == hook.effects;
    assert Effects(t[1..][1..]) == hook.effects;
    var steps := [Operation1, Operation2, ConcreteOperation, Hook];
    assert steps[1..] == [Operation2, ConcreteOperation, Hook];
    assert steps[1..][1..] == [ConcreteOperation, Hook];
    assert steps[1..][1..][1..] == [Hook];
    assert steps[1..][1..][1..][1..] == [];
  }

  /** A raising step ends the skeleton: the later steps are not called, and its
      exception escapes. */
  lemma TemplateStopsAtRaise<E>(operation1: StepRun<E>, operation2: StepRun<E>, hook: StepRun<E>)
    ensures operation1.raised.Some? ==>
      Template(operation1, operation2, hook) == TemplateResult([Call(Operation1, operation1.effects)], operation1.raised)
    ensures operation1.raised.None? && operation2.raised.Some? ==>
      Template(operation1, operation2, hook)
        == TemplateResult([Call(Operation1, operation1.effects), Call(Operation2, operation2.effects)], operation2.raised)
    ensures operation1.raised.None? && operation2.raised.None? && hook.raised.Some? ==>
      |Template(operation1, operation2, hook).trace| == 4
      && Template(operation1, operation2, hook).raised == hook.raised
  {
    var r := Template(operation1, operation2, hook);
    if operation1.raised.Some? {
      assert |r.trace| == 1;
      assert r.trace == [Call(Operation1, operation1.effects)];
    } else if operation2.raised.Some? {
      var plan := [(Operation1, operation1), (Operation2, operation2),
                   (ConcreteOperation, ConcreteEffects<E>()), (Hook, hook)];
      assert plan[1..][0] == (Operation2, operation2);
      assert RunSteps(plan[1..]) == TemplateResult([Call(Operation2, operation2.effects)], operation2.raised);
      assert r.trace == [Call(Operation1, operation1.effects), Call(Operation2, operation2.effects)];
    }
  }

  /** With the default hook, only the two abstract operations have effects. */
  lemma TemplateWithDefaultHook<E>(operation1: StepRun<E>, operation2: StepRun<E>)
    requires operation1.raised.None? && operation2.raised.None?
    ensures Template(operation1, operation2, DefaultHook()).raised.None?
    ensures Effects(Template(operation1, operation2, DefaultHook()).trace) == operation1.effects + operation2.effects
  {
    TemplateOrder(operation1, operation2, DefaultHook<E>());
    assert operation1.effects + operation2.effects + [] == operation1.effects + operation2.effects;
  }

  // ---------------------------------------------------------------------------
  // AbsCacheComputer.run
  // ---------------------------------------------------------------------------

  /** What a step that returns a value does: return one, or raise. */
  datatype Raise<V> = Value(value: V) | Raised(exc: Exception)

  datatype CacheCall<V> = LoadCache | Compute | WriteCache(result: V) | CleanUp

  /** What the subclass's four steps do in this run: load_cache returns or
      raises, compute returns or raises, write_cache may raise, clean_up may
      raise. */
  datatype Computer<V> = Computer(
    loadCache: Raise<V>,
    compute: Raise<V>,
    writeCache: Option<Exception>,
    cleanUp: Option<Exception>)

  /** The default clean_up does nothing and raises nothing. */
  function DefaultCleanUp(): (r: Option<Exception>)
    ensures r.None?
  {
    None
  }

  /** What run returns or raises, and the calls it made. */
  datatype RunResult<V> = RunResult(returned: Raise<V>, trace: seq<CacheCall<V>>)

  /** The try/except part of run, before the finally clause. */
  function TryLoad<V>(c: Computer<V>): (r: RunResult<V>)
    ensures 0 < |r.trace| && r.trace[0] == LoadCache && CleanUp !in r.trace
    ensures (Compute in r.trace) <==> c.loadCache == Raised(CacheError)
    ensures r.returned.Value? ==>
      r.returned == c.loadCache
      || (c.loadCache == Raised(CacheError) && c.compute == r.returned && c.writeCache.None?
          && WriteCache(r.returned.value) in r.trace)
    ensures r.returned.Raised? ==>
      (r.returned == c.loadCache && r.returned.exc != CacheError)
      || (c.loadCache == Raised(CacheError)
          && (r.returned == c.compute || (c.compute.Value? && c.writeCache == Some(r.returned.exc))))
  {
    match c.loadCache
    case Value(v) => RunResult(Value(v), [LoadCache])
    case Raised(CacheError) =>
      (match c.compute
       case Value(r) =>
         RunResult(if c.writeCache.Some? then Raised(c.writeCache.value) else Value(r),
                   [LoadCache, Compute, WriteCache(r)])
       case Raised(e) => RunResult(Raised(e), [LoadCache, Compute]))
    case Raised(e) => RunResult(Raised(e), [LoadCache])
  }

  /** run: the try/except, then clean_up in the finally clause; an exception
      clean_up raises replaces whatever the try/except produced. */
  function Run<V>(c: Computer<V>): (r: RunResult<V>)
    ensures |r.trace| >= 2 && r.trace[0] == LoadCache && r.trace[|r.trace| - 1] == CleanUp
    ensures CleanUp !in r.trace[..|r.trace| - 1]
    ensures (Compute in r.trace) <==> c.loadCache == Raised(CacheError)
    ensures c.cleanUp.Some? ==> r.returned == Raised(c.cleanUp.value)
    ensures c.cleanUp.None? ==> r.returned == TryLoad(c).returned && r.trace == TryLoad(c).trace + [CleanUp]
  {
    var body := TryLoad(c);
    RunResult(if c.cleanUp.Some? then Raised(c.cleanUp.value) else body.returned,
              body.trace + [CleanUp])
  }

  /** A cache hit returns the loaded value and neither computes nor writes. */
  lemma CacheHit<V>(c: Computer<V>, v: V)
    requires c.loadCache == Value(v) && c.cleanUp == DefaultCleanUp()
    ensures Run(c).returned == Value(v)
    ensures Run(c).trace == [LoadCache, CleanUp]
  {
  }

  /** On CacheError, compute runs once and its result is both written to the
      cache and returned. */
  lemma CacheMiss<V>(c: Computer<V>, r: V)
    requires c.loadCache == Raised(CacheError) && c.compute == Value(r)
    requires c.writeCache == None && c.cleanUp == DefaultCleanUp()
    ensures Run(c).returned == Value(r)
    ensures Run(c).trace == [LoadCache, Compute, WriteCache(r), CleanUp]
  {
  }

  /** Any other exception of load_cache, and any exception of compute or
      write_cache, propagates after clean_up has run. */
  lemma ErrorsPropagate<V>(c: Computer<V>)
    requires c.cleanUp == None
    ensures c.loadCache.Raised? && c.loadCache.exc != CacheError ==> Run(c).returned == c.loadCache
    ensures c.loadCache == Raised(CacheError) && c.compute.Raised? ==> Run(c).returned == c.compute
    ensures c.loadCache == Raised(CacheError) && c.compute.Value? && c.writeCache.Some? ==>
      Run(c).returned == Raised(c.writeCache.value)
  {
  }

  /** A value is returned only if it was loaded, or computed after a cache miss
      and written successfully; a raising clean_up prevents any returned value. */
  lemma ReturnedValueOrigin<V>(c: Computer<V>, v: V)
    requires Run(c).returned == Value(v)
    ensures c.cleanUp == None
    ensures c.loadCache == Value(v)
         || (c.loadCache == Raised(CacheError) && c.compute == Value(v) && c.writeCache == None
             && WriteCache(v) in Run(c).trace)
  {
  }
}

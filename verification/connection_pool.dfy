/** `ConnectionPool.getInstance`: a process-wide cache of pools keyed by a
    mode string, filled lazily through a caller-supplied factory. The pool
    type `P` is left abstract. */
module ConnectionPool {
  import opened Outcomes

  /** What one invocation of the factory does: return a pool, return null,
      throw an `Exception` (which `getInstance` catches), or throw an `Error`
      (which `catch (Exception ex)` does not catch). */
  datatype FactoryOutcome<P> = Built(pool: P) | ReturnedNull | ThrewException | ThrewError

  /** How a call to `getInstance` ends: it returns a pool (`None` for null),
      or the factory's `Error` propagates out of it. */
  datatype Outcome<P> = Returned(pool: Option<P>) | Propagated

  /** The static `instances` map; a key mapped to `None` holds a null. */
  type Registry<P> = map<string, Option<P>>

  /** The map after a call, how the call ended and the keys the factory was
      invoked with during the call. */
  datatype Acquired<P> = Acquired(registry: Registry<P>, outcome: Outcome<P>, factoryCalls: seq<string>)

  /** `getInstance(mode, factory)`. */
  function GetInstance<P>(instances: Registry<P>, mode: string, factory: string -> FactoryOutcome<P>): (r: Acquired<P>)
    ensures mode in instances ==> r == Acquired(instances, Returned(instances[mode]), [])
    ensures mode !in instances ==> r.factoryCalls == [mode]
    ensures mode !in instances && factory(mode).Built? ==>
      r.registry == instances[mode := Some(factory(mode).pool)] && r.outcome == Returned(Some(factory(mode).pool))
    ensures mode !in instances && factory(mode).ReturnedNull? ==>
      r.registry == instances[mode := None] && r.outcome == Returned(None)
    ensures mode !in instances && factory(mode).ThrewException? ==> r.registry == instances && r.outcome == Returned(None)
    ensures mode !in instances && factory(mode).ThrewError? ==> r.registry == instances && r.outcome == Propagated
    ensures r.outcome.Propagated? <==> mode !in instances && factory(mode).ThrewError?
    ensures r.outcome.Returned? ==> r.outcome.pool == (if mode in r.registry then r.registry[mode] else None)
    ensures forall k | k != mode :: (k in r.registry <==> k in instances) && (k in instances ==> r.registry[k] == instances[k])
  {
    if mode in instances then Acquired(instances, Returned(instances[mode]), [])
    else
      match factory(mode)
      case Built(p) => Acquired(instances[mode := Some(p)], Returned(Some(p)), [mode])
      case ReturnedNull => Acquired(instances[mode := None], Returned(None), [mode])
      case ThrewException => Acquired(instances, Returned(None), [mode])
      case ThrewError => Acquired(instances, Propagated, [mode])
  }

  /** One call: a mode and the factory passed with it. */
  datatype Call<P> = Call(mode: string, factory: string -> FactoryOutcome<P>)

  /** The registry after a sequence of calls, and all factory invocations made. */
  function Replay<P>(instances: Registry<P>, calls: seq<Call<P>>): (r: (Registry<P>, seq<string>))
    decreases |calls|
  {
    if |calls| == 0 then (instances, [])
    else
      var first := GetInstance(instances, calls[0].mode, calls[0].factory);
      var rest := Replay(first.registry, calls[1..]);
      (rest.0, first.factoryCalls + rest.1)
  }

  /** Single registration: once a key is registered — with a pool or with a
      null — no later call, whatever its mode and factory, changes its entry
      or invokes a factory for it. */
  lemma {:induction false} RegisteredKeyIsStable<P>(instances: Registry<P>, k: string, calls: seq<Call<P>>)
    requires k in instances
    ensures k in Replay(instances, calls).0 && Replay(instances, calls).0[k] == instances[k]
    ensures k !in Replay(instances, calls).1
    decreases |calls|
  {
    if |calls| > 0 {
      var first := GetInstance(instances, calls[0].mode, calls[0].factory);
      RegisteredKeyIsStable(first.registry, k, calls[1..]);
    }
  }

  /** A factory that throws, whether the exception is caught or propagates,
      leaves the key unregistered, so the next call for it invokes its
      factory again. */
  lemma ThrowingFactoryIsRetried<P>(instances: Registry<P>, mode: string, f: string -> FactoryOutcome<P>, g: string -> FactoryOutcome<P>)
    requires mode !in instances && (f(mode).ThrewException? || f(mode).ThrewError?)
    ensures var first := GetInstance(instances, mode, f);
      && first.outcome == (if f(mode).ThrewError? then Propagated else Returned(None))
      && mode !in first.registry
      && GetInstance(first.registry, mode, g).factoryCalls == [mode]
  {
  }

  /** A factory that returns null registers the key for good: every later
      call returns null without invoking its factory. */
  lemma NullIsCachedForever<P>(instances: Registry<P>, mode: string, f: string -> FactoryOutcome<P>, g: string -> FactoryOutcome<P>)
    requires mode !in instances && f(mode).ReturnedNull?
    ensures var first := GetInstance(instances, mode, f);
      && GetInstance(first.registry, mode, g) == Acquired(first.registry, Returned(None), [])
  {
  }
}

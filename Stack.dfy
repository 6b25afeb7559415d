/**
 * `Stack\LazyHttpKernel`: a kernel that builds the kernel it decorates on
 * the first `handle`, caches it, and forwards `handle` and, for terminable
 * kernels, `terminate` to it.
 */
module Stack {
  import opened Wrappers
  import opened Http
  import Lifecycle

  /**
   * The callable passed to the constructor.  Its k-th call (counting from 0)
   * returns `produce(k)`: a kernel object, or `None` for null, false or any
   * other falsy value.  `calls` counts how many times it has run, as the
   * counter a closure captures by reference would.
   */
  class Factory {
    const produce: nat -> Option<Kernel>
    var calls: nat

    constructor (produce: nat -> Option<Kernel>)
      ensures this.produce == produce && calls == 0
    {
      this.produce := produce;
      calls := 0;
    }

    method Invoke() returns (app: Option<Kernel>)
      modifies this
      ensures calls == old(calls) + 1
      ensures app == produce(old(calls))
    {
      app := produce(calls);
      calls := calls + 1;
    }
  }

  /**
   * What `handle` gives back: the delegate's response, or the failure of
   * calling `handle()` on the falsy value the factory returned.
   */
  datatype Outcome = Returned(response: Response) | NoObject

  class LazyHttpKernel {
    const factory: Factory
    var app: Option<Kernel>

    /** The abstract state: the cached app and the factory's call count. */
    ghost function Snapshot(): Lifecycle.State<Kernel>
      reads this, factory
    {
      Lifecycle.State(app, factory.calls)
    }

    /** Stores the factory; nothing is built yet. */
    constructor (factory: Factory)
      ensures this.factory == factory
      ensures app == None
    {
      this.factory := factory;
      app := None;
    }

    /** Runs the factory only when no object is cached, and returns the cached value. */
    method CreateApp() returns (cached: Option<Kernel>)
      modifies this, factory
      ensures Snapshot() == Lifecycle.CreateApp(factory.produce, old(Snapshot()))
      ensures cached == app
    {
      if app.None? {
        app := factory.Invoke();
      }
      cached := app;
    }

    /**
     * Builds the app if needed and hands the three arguments, unchanged, to
     * it; its response comes back unchanged.
     */
    method Handle(request: Request, requestType: RequestType, catch: bool) returns (outcome: Outcome)
      modifies this, factory
      ensures Snapshot() == Lifecycle.Step(factory.produce, old(Snapshot()), Lifecycle.HandleCall)
      ensures outcome == if app.Some? then Returned(app.value.respond(request, requestType, catch)) else NoObject
    {
      var cached := CreateApp();
      if cached.Some? {
        var response := cached.value.Handle(request, requestType, catch);
        outcome := Returned(response);
      } else {
        outcome := NoObject;
      }
    }

    /** `handle($request)`: the type defaults to a master request and `catch` to true. */
    method HandleMaster(request: Request) returns (outcome: Outcome)
      modifies this, factory
      ensures Snapshot() == Lifecycle.Step(factory.produce, old(Snapshot()), Lifecycle.HandleCall)
      ensures outcome == if app.Some? then Returned(app.value.respond(request, MasterRequest, true)) else NoObject
    {
      outcome := Handle(request, MasterRequest, true);
    }

    /** The objects `terminate` may change: the cached app, if any. */
    ghost function Cached(): set<Kernel>
      reads this
    {
      if app.Some? then {app.value} else {}
    }

    /**
     * Forwards the pair to the cached app when it is terminable; otherwise,
     * also before any `handle`, does nothing.  Never runs the factory.
     */
    method Terminate(request: Request, response: Response)
      modifies Cached()
      ensures Snapshot() == Lifecycle.Step(factory.produce, old(Snapshot()), Lifecycle.TerminateCall)
      ensures app.Some? && app.value.terminable ==>
                app.value.terminations == old(app.value.terminations) + [(request, response)]
      ensures app.Some? && !app.value.terminable ==> unchanged(app.value)
    {
      if app.Some? && app.value.terminable {
        app.value.Terminate(request, response);
      }
    }
  }
}

/**
 * The unit-test scenarios of the lazy kernel, as clients that rely only on
 * the contracts of `Stack`.  Each one wires fresh kernels and factories
 * together and states what the test expects of them.
 */
module Scenarios {
  import opened Wrappers
  import opened Http
  import opened Stack

  /** A kernel whose every response has the given body. */
  function Always(body: string): (Request, RequestType, bool) -> Response {
    (request: Request, requestType: RequestType, catch: bool) => Response(body)
  }

  /** The first `handle` runs the factory once and answers with the built app's response. */
  method FirstHandleBuildsApp() returns (outcome: Outcome, calls: nat)
    ensures outcome == Returned(Response("Hello World!"))
    ensures calls == 1
  {
    var hello := new Kernel(Always("Hello World!"), false);
    var factory := new Factory((k: nat) => Some(hello));
    var kernel := new LazyHttpKernel(factory);
    outcome := kernel.HandleMaster(Request("/"));
    calls := factory.calls;
  }

  /** A second `handle` reuses the cached app: same answer, no second factory run. */
  method SecondHandleReusesApp() returns (first: Outcome, second: Outcome, calls: nat)
    ensures first == second == Returned(Response("Hello World!"))
    ensures calls == 1
  {
    var hello := new Kernel(Always("Hello World!"), false);
    var factory := new Factory((k: nat) => Some(hello));
    var kernel := new LazyHttpKernel(factory);
    first := kernel.HandleMaster(Request("/"));
    second := kernel.HandleMaster(Request("/"));
    calls := factory.calls;
  }

  /**
   * Two lazy kernels with their own factories: handling a request on one
   * runs only that one's factory and leaves the other unbuilt.
   */
  method LazyKernelsAreIndependent() returns (outcome: Outcome, fooCalls: nat, barCalls: nat, barBuilt: bool)
    ensures outcome == Returned(Response("foo"))
    ensures fooCalls == 1 && barCalls == 0 && !barBuilt
  {
    var fooApp := new Kernel(Always("foo"), false);
    var barApp := new Kernel(Always("bar"), false);
    var fooFactory := new Factory((k: nat) => Some(fooApp));
    var barFactory := new Factory((k: nat) => Some(barApp));
    var foo := new LazyHttpKernel(fooFactory);
    var bar := new LazyHttpKernel(barFactory);
    outcome := foo.HandleMaster(Request("/foo"));
    fooCalls, barCalls, barBuilt := fooFactory.calls, barFactory.calls, bar.app.Some?;
  }

  /** `terminate` after `handle` reaches a terminable app with the exact pair. */
  method TerminateReachesTerminableApp() returns (terminations: seq<(Request, Response)>)
    ensures terminations == [(Request("/"), Response("Hello World!"))]
  {
    var app := new Kernel(Always("Hello World!"), true);
    var factory := new Factory((k: nat) => Some(app));
    var kernel := new LazyHttpKernel(factory);
    var outcome := kernel.HandleMaster(Request("/"));
    kernel.Terminate(Request("/"), outcome.response);
    terminations := app.terminations;
  }

  /** `terminate` on a kernel whose app is not terminable has no effect. */
  method TerminateIgnoresPlainApp() returns (outcome: Outcome, calls: nat, built: bool)
    ensures outcome == Returned(Response("Hello World!"))
    ensures calls == 1 && built
  {
    var hello := new Kernel(Always("Hello World!"), false);
    var factory := new Factory((k: nat) => Some(hello));
    var kernel := new LazyHttpKernel(factory);
    outcome := kernel.HandleMaster(Request("/"));
    kernel.Terminate(Request("/"), outcome.response);
    calls, built := factory.calls, kernel.app == Some(hello);
  }

  /** `terminate` before any `handle` builds nothing and forwards nothing. */
  method TerminateBeforeHandle() returns (calls: nat, built: bool, terminations: seq<(Request, Response)>)
    ensures calls == 0 && !built && terminations == []
  {
    var app := new Kernel(Always("Hello World!"), true);
    var factory := new Factory((k: nat) => Some(app));
    var kernel := new LazyHttpKernel(factory);
    kernel.Terminate(Request("/"), Response("Hello World!"));
    calls, built, terminations := factory.calls, kernel.app.Some?, app.terminations;
  }

  /**
   * A factory whose first call returns null: that `handle` fails on the
   * non-object, the next one runs the factory again and caches its object,
   * and a third does not run it any more.
   */
  method FalsyResultIsRetried() returns (first: Outcome, second: Outcome, third: Outcome, calls: nat)
    ensures first == NoObject
    ensures second == third == Returned(Response("Hello World!"))
    ensures calls == 2
  {
    var hello := new Kernel(Always("Hello World!"), false);
    var factory := new Factory((k: nat) => if k == 0 then None else Some(hello));
    var kernel := new LazyHttpKernel(factory);
    first := kernel.HandleMaster(Request("/"));
    second := kernel.HandleMaster(Request("/"));
    third := kernel.HandleMaster(Request("/"));
    calls := factory.calls;
  }
}

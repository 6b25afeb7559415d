# LazyHttpKernel in Dafny

A model of `Stack\LazyHttpKernel`. This is an HTTP kernel decorator. It receives a zero-argument factory and does not call it until the first `handle`. It then caches the kernel the factory returned and hands every request to that kernel with the request type and the `catch` flag unchanged. `terminate` is passed on only when the cached kernel implements `TerminableInterface`.

Modules:

- `Lifecycle` holds the lazy kernel as a pure two-state machine: no app cached, or an app cached. A state is the cached app plus the number of factory runs. The lemmas about sequences of `handle` and `terminate` calls are stated over it.
- `Http` holds the collaborators. Requests and responses are values. `Kernel` is an object with a fixed response function. A terminable `Kernel` also logs the pairs it was terminated with.
- `Stack` holds `Factory`, the callable together with its call counter, and the `LazyHttpKernel` class. Each method of the class is specified against `Lifecycle.Step` through the ghost `Snapshot()`. Each method also states what it returns and what it forwards.
- `Scenarios` holds the unit-test scenarios as client methods. They rely only on the contracts of `Stack`.

The guard in `createApp` is PHP's `?:`, which tests truthiness. If the factory returns `null`, `false` or any other falsy value, that value is stored. The following `->handle()` then fails on a non-object, and the next `handle` runs the factory again. The model represents every falsy value as `None`. The failed call is the outcome `NoObject`. So "the factory runs at most once" is proved only for a factory whose first result is an object. A general statement describing a run of falsy results followed by an object is proved as well. This follows the code: a description of the kernel that says "the factory is invoked exactly once" for any factory is true only under that condition.

## Model

| member | source | states |
|---|---|---|
| `Lifecycle.TerminateNeverBuilds` | src/Stack/LazyHttpKernel.php:32-37 | the state after any mix of `handle` and `terminate` calls depends only on how many `handle` calls there were, so `terminate` never runs the factory or caches anything |
| `Lifecycle.BuildKeepsCachedApp` | src/Stack/LazyHttpKernel.php:25-30 | once an object is cached, any number of further `createApp` calls leave both the cached app and the factory count as they were |
| `Lifecycle.CachedAppIsKept` | src/Stack/LazyHttpKernel.php:25-37 | once an object is cached, no sequence of `handle` and `terminate` calls replaces it or runs the factory again |
| `Lifecycle.FactoryRunsUntilObject` | src/Stack/LazyHttpKernel.php:27 | with nothing cached, `n` calls of `createApp` run the factory between 0 and `n` times. It runs once per call until a result is an object. Every result before the last is falsy. The cached value is the last result. Fewer than `n` runs happen only if an object was cached |
| `Lifecycle.FactoryRunsAtMostOnce` | src/Stack/LazyHttpKernel.php:20-30 | on a fresh kernel whose factory returns an object, any sequence of calls leaves the factory run exactly once (if there was a `handle`) or never (if there was none), with the first result cached |
| `Lifecycle.FalsyFactoryRetries` | src/Stack/LazyHttpKernel.php:27 | a factory that only returns falsy values is run again by every `handle`, and nothing is ever cached |
| `Http.Kernel.Handle` | tests/unit/Stack/LazyHttpKernelTest.php:127-132 | the delegate's answer is a function of the request, the request type and the `catch` flag |
| `Http.Kernel.Terminate` | tests/unit/Stack/LazyHttpKernelTest.php:152-155 | only a terminable kernel can be terminated, and it records the exact request/response pair it received |
| `Stack.Factory.Invoke` | tests/unit/Stack/LazyHttpKernelTest.php:30-33 | each call of the factory adds one to its call count and returns the result for that call's index |
| `Stack.LazyHttpKernel.constructor` | src/Stack/LazyHttpKernel.php:15-18 | construction stores the factory, caches nothing and does not run the factory |
| `Stack.LazyHttpKernel.CreateApp` | src/Stack/LazyHttpKernel.php:25-30 | the factory runs once exactly when nothing truthy is cached. Its result is stored and returned. An object already cached is returned unchanged, and the factory is not run |
| `Stack.LazyHttpKernel.Handle` | src/Stack/LazyHttpKernel.php:20-23 | moves the state as one `handle` step. It returns exactly the cached app's response to the same request, type and `catch` flag. If the factory gave a falsy value, it returns the non-object failure |
| `Stack.LazyHttpKernel.HandleMaster` | src/Stack/LazyHttpKernel.php:20 | `handle` with the arguments omitted uses a master request and `catch = true` |
| `Stack.LazyHttpKernel.Terminate` | src/Stack/LazyHttpKernel.php:32-37 | does not change the lazy kernel's state. If the cached app is terminable, it appends the exact pair to that app's log. If the app is not terminable, it leaves the app unchanged. With nothing cached it changes nothing |
| `Scenarios.FirstHandleBuildsApp` | tests/unit/Stack/LazyHttpKernelTest.php:12-41 | the first `handle` returns the built app's "Hello World!" response after exactly one factory run |
| `Scenarios.SecondHandleReusesApp` | tests/unit/Stack/LazyHttpKernelTest.php:44-60 | two `handle` calls give the same response, and the factory count stays at one |
| `Scenarios.LazyKernelsAreIndependent` | tests/unit/Stack/LazyHttpKernelTest.php:62-88 | handling a request on one of two lazy kernels runs its factory once. The other kernel's factory count stays 0 and nothing is cached there |
| `Scenarios.TerminateReachesTerminableApp` | tests/unit/Stack/LazyHttpKernelTest.php:101-113 | after `handle` and `terminate`, the terminable app has been terminated exactly once, with the request and the response `handle` returned |
| `Scenarios.TerminateIgnoresPlainApp` | src/Stack/LazyHttpKernel.php:32-37 | `terminate` on a non-terminable app leaves the response, the cached app and the factory count as they were |
| `Scenarios.TerminateBeforeHandle` | src/Stack/LazyHttpKernel.php:32-37 | `terminate` before any `handle` runs no factory, caches nothing and terminates nothing |
| `Scenarios.FalsyResultIsRetried` | src/Stack/LazyHttpKernel.php:22-29 | suppose the factory returns null first and an object second. The first `handle` fails, the second builds and answers, the third reuses the app, and the factory has run twice |

## Left out

- The Symfony `Request`, `Response` and kernel interfaces are reduced to a URI, a body and a response function. Headers, status codes and the request stack are not modelled.
- The request type is one of the two interface constants. PHP would pass any other value through unchanged too.
- A factory result that is truthy but not an `HttpKernelInterface` object, such as `true`, `1` or an unrelated object, is not modelled. Only objects and falsy values are.
- Factories return kernels that already exist. A factory that allocates a new kernel on each call behaves the same way here, except that the moment of allocation is not represented.
- The delegate's `handle` has no side effects of its own in the model. Its response depends only on its three arguments.
- Exceptions thrown by the factory or the delegate are not modelled. A throwing factory would leave `app` as it was, just as a falsy result does.
- Concurrent calls to `handle` before the first app is cached are not modelled. The check-then-store in `createApp` is not atomic, and the model is sequential.
- `UrlMap` and `CallableHttpKernel` are not part of this model. `Scenarios.LazyKernelsAreIndependent` calls the `/foo` kernel directly instead of dispatching through a path map.
- The `lazy()` shortcut function is not part of this model. It only wraps the constructor.

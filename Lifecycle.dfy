/**
 * The lazy kernel as a two-state machine, independent of what the cached
 * application is.  A state records the cached application (`None` stands
 * for PHP's null and every other falsy value the factory may hand back)
 * and how many times the factory has run so far.  The factory is
 * described by `produce`: its k-th call (counting from 0) yields
 * `produce(k)`, which covers closures that keep a counter of their own.
 */
module Lifecycle {
  import opened Wrappers

  datatype State<A> = State(app: Option<A>, calls: nat)

  /** A kernel just built around a factory that has never run. */
  function Fresh<A>(): State<A> {
    State(None, 0)
  }

  /** The two public operations; their arguments do not affect the state. */
  datatype Call = HandleCall | TerminateCall

  /** `$this->app = $this->app ?: factory()`: the factory runs only while no object is cached. */
  function CreateApp<A>(produce: nat -> Option<A>, s: State<A>): State<A> {
    if s.app.Some? then s else State(produce(s.calls), s.calls + 1)
  }

  /** `handle` goes through `createApp`; `terminate` only reads the cached app. */
  function Step<A>(produce: nat -> Option<A>, s: State<A>, c: Call): State<A> {
    match c
    case HandleCall => CreateApp(produce, s)
    case TerminateCall => s
  }

  /** The state after performing `calls` in order. */
  function Run<A>(produce: nat -> Option<A>, s: State<A>, calls: seq<Call>): State<A>
    decreases |calls|
  {
    if calls == [] then s else Run(produce, Step(produce, s, calls[0]), calls[1..])
  }

  /** The number of `handle` calls in a sequence of calls. */
  function Handles(calls: seq<Call>): nat
    decreases |calls|
  {
    if calls == [] then 0
    else (if calls[0].HandleCall? then 1 else 0) + Handles(calls[1..])
  }

  /** The state after `n` calls of `createApp`. */
  function Build<A>(produce: nat -> Option<A>, s: State<A>, n: nat): State<A>
    decreases n
  {
    if n == 0 then s else Build(produce, CreateApp(produce, s), n - 1)
  }

  /** Only the number of `handle` calls matters: `terminate` never builds the app nor runs the factory. */
  lemma {:induction false} TerminateNeverBuilds<A>(produce: nat -> Option<A>, s: State<A>, calls: seq<Call>)
    ensures Run(produce, s, calls) == Build(produce, s, Handles(calls))
    decreases |calls|
  {
    if calls != [] {
      TerminateNeverBuilds(produce, Step(produce, s, calls[0]), calls[1..]);
    }
  }

  /** Once an object is cached, further `createApp` calls neither replace it nor run the factory. */
  lemma {:induction false} BuildKeepsCachedApp<A>(produce: nat -> Option<A>, s: State<A>, n: nat)
    requires s.app.Some?
    ensures Build(produce, s, n) == s
    decreases n
  {
    if n > 0 {
      BuildKeepsCachedApp(produce, s, n - 1);
    }
  }

  /** Once an object is cached, no sequence of `handle` and `terminate` calls changes the state. */
  lemma {:induction false} CachedAppIsKept<A>(produce: nat -> Option<A>, s: State<A>, calls: seq<Call>)
    requires s.app.Some?
    ensures Run(produce, s, calls) == s
  {
    TerminateNeverBuilds(produce, s, calls);
    BuildKeepsCachedApp(produce, s, Handles(calls));
  }

  /**
   * Starting without a cached object, `n` calls of `createApp` run the
   * factory once per call until it yields an object, and then never again:
   * every call but the last one returned a falsy value, the cached app is
   * the last call's result, and fewer than `n` calls happen only because
   * an object arrived.
   */
  lemma {:induction false} FactoryRunsUntilObject<A>(produce: nat -> Option<A>, s: State<A>, n: nat)
    requires s.app.None?
    ensures var t := Build(produce, s, n);
      && s.calls <= t.calls <= s.calls + n
      && (t.calls < s.calls + n ==> t.app.Some?)
      && (t.calls > s.calls ==> t.app == produce(t.calls - 1))
      && (t.calls == s.calls ==> t.app.None?)
      && (forall k :: s.calls <= k < t.calls - 1 ==> produce(k).None?)
    decreases n
  {
    if n > 0 {
      var s' := CreateApp(produce, s);
      if s'.app.Some? {
        BuildKeepsCachedApp(produce, s', n - 1);
      } else {
        FactoryRunsUntilObject(produce, s', n - 1);
      }
    }
  }

  /**
   * A fresh kernel whose factory returns an object: whatever mix of calls
   * follows, the factory has run once if there was at least one `handle`
   * and never otherwise, and the cached app is that first result.
   */
  lemma FactoryRunsAtMostOnce<A>(produce: nat -> Option<A>, calls: seq<Call>)
    requires produce(0).Some?
    ensures Run(produce, Fresh(), calls)
         == if Handles(calls) == 0 then Fresh() else State(produce(0), 1)
  {
    TerminateNeverBuilds(produce, Fresh(), calls);
    if Handles(calls) > 0 {
      BuildKeepsCachedApp(produce, State(produce(0), 1), Handles(calls) - 1);
    }
  }

  /** A factory that only ever returns falsy values is run again by every `handle`. */
  lemma FalsyFactoryRetries<A>(produce: nat -> Option<A>, s: State<A>, calls: seq<Call>)
    requires s.app.None?
    requires forall k :: produce(k).None?
    ensures Run(produce, s, calls) == State(None, s.calls + Handles(calls))
  {
    TerminateNeverBuilds(produce, s, calls);
    FactoryRunsUntilObject(produce, s, Handles(calls));
  }
}

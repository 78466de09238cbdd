/**
 * The generic store of the frontend (frontend/src/store/mod.rs): a state, a reducer that updates it in
 * place, and middleware that, after every reduction, each update the state and produce a message that is
 * dispatched in turn. The reducer and each middleware are modelled as functions from the old state (and
 * the message) to the new state (and the produced message).
 *
 * `dispatch` recurses through `middleware_strategy` with no base case, so the model bounds the depth of
 * nested dispatches by `fuel`; running out of it means the dispatch did not complete.
 */
module Store {

  /**
   * `dispatch` with at most `fuel` nested dispatches: the reducer, then the middleware. The result is the
   * final state and whether every nested dispatch completed.
   */
  function Dispatched<T, M>(s: T, reducer: (T, M) -> T, mws: seq<(T, M) -> (T, M)>, msg: M, fuel: nat): (T, bool)
    decreases fuel, 0
  {
    if fuel == 0 then (s, false)
    else
      var (s1, results) := RunMiddleware(reducer(s, msg), mws, msg);
      DispatchAll(s1, reducer, mws, results, fuel - 1)
  }

  /** The first loop of `middleware_strategy`: every middleware in registration order, collecting results. */
  function RunMiddleware<T, M>(s: T, mws: seq<(T, M) -> (T, M)>, msg: M): (r: (T, seq<M>))
    ensures |r.1| == |mws|
  {
    if |mws| == 0 then (s, [])
    else
      var (s1, results) := RunMiddleware(s, mws[..|mws| - 1], msg);
      var (s2, m) := mws[|mws| - 1](s1, msg);
      (s2, results + [m])
  }

  /** The second loop of `middleware_strategy`: dispatch each result in order, stopping at one that does not complete. */
  function DispatchAll<T, M>(s: T, reducer: (T, M) -> T, mws: seq<(T, M) -> (T, M)>, msgs: seq<M>, fuel: nat): (T, bool)
    decreases fuel, 1, |msgs|
  {
    if |msgs| == 0 then (s, true)
    else
      var (s1, done) := Dispatched(s, reducer, mws, msgs[0], fuel);
      if !done then (s1, false)
      else DispatchAll(s1, reducer, mws, msgs[1..], fuel)
  }

  /** `Store<T, M>`. */
  class Store<T, M> {
    var state: T
    const reducer: (T, M) -> T
    var middleware: seq<(T, M) -> (T, M)>

    /** `Store::new`: the default state (`initial`) and no middleware. */
    constructor(reducer: (T, M) -> T, initial: T)
      ensures state == initial && this.reducer == reducer && middleware == []
    {
      this.state := initial;
      this.reducer := reducer;
      this.middleware := [];
    }

    /** `use_middleware`: registers `mw` after every middleware already there. */
    method UseMiddleware(mw: (T, M) -> (T, M))
      modifies this
      ensures middleware == old(middleware) + [mw]
      ensures state == old(state)
    {
      middleware := middleware + [mw];
    }

    /** `selector`: the current state, unchanged. */
    method Selector() returns (s: T)
      ensures s == state
    {
      s := state;
    }

    /** `dispatch`, with at most `fuel` nested dispatches. */
    method Dispatch(msg: M, fuel: nat) returns (done: bool)
      modifies this
      ensures (state, done) == Dispatched(old(state), reducer, middleware, msg, fuel)
      ensures middleware == old(middleware)
      decreases fuel, 0
    {
      if fuel == 0 {
        return false;
      }
      state := reducer(state, msg);
      done := MiddlewareStrategy(msg, fuel - 1);
    }

    /** `middleware_strategy`: run every middleware and collect the messages, then dispatch them in order. */
    method MiddlewareStrategy(msg: M, fuel: nat) returns (done: bool)
      modifies this
      ensures var (s1, results) := RunMiddleware(old(state), middleware, msg);
        (state, done) == DispatchAll(s1, reducer, middleware, results, fuel)
      ensures middleware == old(middleware)
      decreases fuel, 1
    {
      var results: seq<M> := [];
      var i := 0;
      while i < |middleware|
        invariant i <= |middleware|
        invariant middleware == old(middleware)
        invariant (state, results) == RunMiddleware(old(state), middleware[..i], msg)
      {
        assert middleware[..i + 1][..i] == middleware[..i];
        var (s, m) := middleware[i](state, msg);
        state := s;
        results := results + [m];
        i := i + 1;
      }
      assert middleware[..|middleware|] == middleware;
      ghost var s1 := state;
      var k := 0;
      done := true;
      while k < |results|
        invariant k <= |results|
        invariant middleware == old(middleware)
        invariant DispatchAll(s1, reducer, middleware, results, fuel)
          == if done then DispatchAll(state, reducer, middleware, results[k..], fuel) else (state, false)
        decreases |results| - k, if done then 1 else 0
      {
        if !done {
          break;
        }
        assert results[k..][1..] == results[k + 1..];
        done := Dispatch(results[k], fuel);
        k := k + 1;
      }
      assert done ==> results[k..] == [];
    }
  }

  // ----- Properties -----

  /** With no middleware a dispatch is exactly one application of the reducer. */
  lemma NoMiddlewareAppliesReducerOnce<T, M>(s: T, reducer: (T, M) -> T, msg: M, fuel: nat)
    requires fuel >= 1
    ensures Dispatched(s, reducer, [], msg, fuel) == (reducer(s, msg), true)
  {
  }

  /**
   * Every middleware runs once, in registration order, each on the state the previous one left, starting
   * from the reduced state: the `i`-th message is the `i`-th middleware's answer after the first `i`.
   */
  lemma {:induction false} MiddlewareInOrder<T, M>(s: T, mws: seq<(T, M) -> (T, M)>, msg: M, i: nat)
    requires i < |mws|
    ensures RunMiddleware(s, mws, msg).1[i] == mws[i](RunMiddleware(s, mws[..i], msg).0, msg).1
    decreases |mws|
  {
    var prefix := mws[..|mws| - 1];
    if i < |mws| - 1 {
      MiddlewareInOrder(s, prefix, msg, i);
      assert prefix[..i] == mws[..i];
    } else {
      assert prefix == mws[..i];
    }
  }

  /**
   * With at least one middleware no dispatch ever completes, however deep the nesting allowed: every
   * dispatch produces a message that is dispatched again.
   */
  lemma {:induction false} NeverCompletes<T, M>(s: T, reducer: (T, M) -> T, mws: seq<(T, M) -> (T, M)>, msg: M, fuel: nat)
    requires |mws| >= 1
    ensures !Dispatched(s, reducer, mws, msg, fuel).1
  {
    if fuel > 0 {
      var (s1, results) := RunMiddleware(reducer(s, msg), mws, msg);
      NeverCompletes(s1, reducer, mws, results[0], fuel - 1);
    }
  }
}

/** Probes keep one piece of state per key (a context and a group, a slot and a
    decision). Events of different keys interleave freely; this module shows
    that what happens to one key depends on that key's own events alone. */
module KeyedRuns {

  function Run<S, E>(step: (S, E) -> S, state: S, events: seq<E>): S {
    if events == [] then state else Run(step, step(state, events[0]), events[1..])
  }

  function At<K, S>(states: map<K, S>, key: K, initial: S): S {
    if key in states then states[key] else initial
  }

  /** All keys together: an event advances the state of its own key. */
  function RunAll<K, S, E>(step: (S, E) -> S, initial: S, states: map<K, S>, events: seq<(K, E)>): map<K, S>
    decreases |events|
  {
    if events == [] then states
    else
      var (key, event) := events[0];
      RunAll(step, initial, states[key := step(At(states, key, initial), event)], events[1..])
  }

  /** The events of one key, in their order. */
  function Project<K(==), E>(events: seq<(K, E)>, key: K): seq<E> {
    if events == [] then []
    else (if events[0].0 == key then [events[0].1] else []) + Project(events[1..], key)
  }

  lemma {:induction false} RunConcat<S, E>(step: (S, E) -> S, state: S, first: seq<E>, second: seq<E>)
    ensures Run(step, state, first + second) == Run(step, Run(step, state, first), second)
  {
    if first == [] {
      assert first + second == second;
    } else {
      assert (first + second)[1..] == first[1..] + second;
      RunConcat(step, step(state, first[0]), first[1..], second);
    }
  }

  /** Interleaving is invisible to a key: after any run over all keys, its
      state is the one its own events alone lead to. */
  lemma {:induction false} KeysAreIndependent<K, S, E>(
    step: (S, E) -> S, initial: S, states: map<K, S>, events: seq<(K, E)>, key: K)
    ensures At(RunAll(step, initial, states, events), key, initial)
         == Run(step, At(states, key, initial), Project(events, key))
    decreases |events|
  {
    if events != [] {
      var (k, event) := events[0];
      var next := states[k := step(At(states, k, initial), event)];
      KeysAreIndependent(step, initial, next, events[1..], key);
      if k == key {
        assert Project(events, key)[0] == event;
        assert Project(events, key)[1..] == Project(events[1..], key);
      } else {
        assert Project(events, key) == Project(events[1..], key);
      }
    }
  }
}

/** Memoisation by key, as both profile caches of the app do it: the first call for a key
    computes a result and stores it; every later call for that key returns the stored result
    without computing again. Nothing is ever replaced or removed. */
module Memo {

  /** One call: answer from `entries` when `key` is there, otherwise store and answer `computed`
      (what computing `key` afresh yields). */
  function Lookup<K, V>(entries: map<K, V>, key: K, computed: V): (r: (map<K, V>, V))
    ensures key in r.0 && r.1 == r.0[key]
    ensures Extends(entries, r.0)
    ensures r.0.Keys == entries.Keys + {key}
    ensures key !in entries ==> r.1 == computed
  {
    if key in entries then (entries, entries[key]) else (entries[key := computed], computed)
  }

  /** `later` keeps every entry of `earlier`, unchanged. */
  ghost predicate Extends<K, V>(earlier: map<K, V>, later: map<K, V>) {
    forall k :: k in earlier ==> k in later && later[k] == earlier[k]
  }

  /** The state after a run of calls: the entries, each call's result, and how many calls
      computed rather than answered from the cache. */
  datatype Run<K, V> = Run(entries: map<K, V>, results: seq<V>, computed: nat)

  /** The calls for `keys`, in order, starting from `entries`; `answers[i]` is what call `i` would
      compute if it had to (the network may answer differently from one call to the next). */
  function Calls<K, V>(entries: map<K, V>, keys: seq<K>, answers: seq<V>): (r: Run<K, V>)
    requires |answers| == |keys|
    ensures |r.results| == |keys|
    decreases |keys|
  {
    if keys == [] then Run(entries, [], 0)
    else
      var (after, v) := Lookup(entries, keys[0], answers[0]);
      var rest := Calls(after, keys[1..], answers[1..]);
      Run(rest.entries, [v] + rest.results, (if keys[0] in entries then 0 else 1) + rest.computed)
  }

  function KeySet<K>(keys: seq<K>): set<K> {
    set i | 0 <= i < |keys| :: keys[i]
  }

  lemma KeySetCons<K>(keys: seq<K>)
    requires keys != []
    ensures KeySet(keys) == {keys[0]} + KeySet(keys[1..])
  {
    forall k | k in KeySet(keys) ensures k in {keys[0]} + KeySet(keys[1..]) {
      var i :| 0 <= i < |keys| && keys[i] == k;
      if i > 0 { assert keys[1..][i - 1] == k; }
    }
  }

  /** Insert once, never replace: a run keeps every earlier entry and adds exactly the keys it
      asks for. */
  lemma {:induction false} CallsKeepEntries<K, V>(entries: map<K, V>, keys: seq<K>, answers: seq<V>)
    requires |answers| == |keys|
    ensures Extends(entries, Calls(entries, keys, answers).entries)
    ensures Calls(entries, keys, answers).entries.Keys == entries.Keys + KeySet(keys)
    decreases |keys|
  {
    if keys != [] {
      var after := Lookup(entries, keys[0], answers[0]).0;
      CallsKeepEntries(after, keys[1..], answers[1..]);
      KeySetCons(keys);
    }
  }

  /** Every call for a key gets the one result stored for that key at the end of the run; so
      all calls for the same key get the same result. */
  lemma {:induction false} CallsShareResults<K, V>(entries: map<K, V>, keys: seq<K>, answers: seq<V>)
    requires |answers| == |keys|
    ensures forall i :: 0 <= i < |keys| ==>
      keys[i] in Calls(entries, keys, answers).entries
      && Calls(entries, keys, answers).results[i] == Calls(entries, keys, answers).entries[keys[i]]
    decreases |keys|
  {
    if keys != [] {
      var after := Lookup(entries, keys[0], answers[0]).0;
      CallsShareResults(after, keys[1..], answers[1..]);
      CallsKeepEntries(after, keys[1..], answers[1..]);
      var run := Calls(entries, keys, answers);
      forall i | 0 <= i < |keys|
        ensures keys[i] in run.entries && run.results[i] == run.entries[keys[i]]
      {
        if i > 0 {
          assert keys[1..][i - 1] == keys[i];
        }
      }
    }
  }

  /** The first call for a key that is not stored yet computes, and its result is the one every
      call for that key gets: a later computation never replaces it, even one that would have
      answered differently. A key stored before the run keeps its stored result. */
  lemma {:induction false} FirstCallWins<K, V>(entries: map<K, V>, keys: seq<K>, answers: seq<V>, i: nat, j: nat)
    requires |answers| == |keys|
    requires i <= j < |keys| && keys[i] == keys[j]
    requires keys[i] !in entries && keys[i] !in keys[..i]
    ensures Calls(entries, keys, answers).results[j] == answers[i]
    decreases |keys|
  {
    var after := Lookup(entries, keys[0], answers[0]).0;
    CallsShareResults(entries, keys, answers);
    if i == 0 {
      CallsKeepEntries(after, keys[1..], answers[1..]);
      assert keys[j] in Calls(entries, keys, answers).entries;
    } else {
      assert keys[0] != keys[i] by { assert keys[..i][0] == keys[0]; }
      assert keys[1..][i - 1] == keys[i] && keys[1..][j - 1] == keys[j];
      assert keys[1..][..i - 1] == keys[..i][1..];
      FirstCallWins(after, keys[1..], answers[1..], i - 1, j - 1);
    }
  }

  /** At most one computation per distinct key: a run computes exactly once for each key it
      asks for that was not already stored. */
  lemma {:induction false} CallsComputeOncePerKey<K, V>(entries: map<K, V>, keys: seq<K>, answers: seq<V>)
    requires |answers| == |keys|
    ensures Calls(entries, keys, answers).computed == |KeySet(keys) - entries.Keys|
    decreases |keys|
  {
    if keys != [] {
      var k := keys[0];
      var after := Lookup(entries, k, answers[0]).0;
      CallsComputeOncePerKey(after, keys[1..], answers[1..]);
      NewKeysCons(entries, keys);
    }
  }

  lemma NewKeysCons<K, V>(entries: map<K, V>, keys: seq<K>)
    requires keys != []
    ensures |KeySet(keys) - entries.Keys|
      == (if keys[0] in entries then 0 else 1) + |KeySet(keys[1..]) - (entries.Keys + {keys[0]})|
  {
    KeySetCons(keys);
    NewElements(keys[0], KeySet(keys[1..]), entries.Keys);
  }

  lemma NewElements<K>(k: K, rest: set<K>, known: set<K>)
    ensures |({k} + rest) - known| == (if k in known then 0 else 1) + |rest - (known + {k})|
  {
    var tail := rest - (known + {k});
    if k in known {
      assert ({k} + rest) - known == tail;
    } else {
      assert ({k} + rest) - known == {k} + tail;
    }
  }

  /** The first position of `keys[j]` in `keys`. */
  lemma FirstOccurrence<K>(keys: seq<K>, j: nat) returns (i: nat)
    requires j < |keys|
    ensures i <= j && keys[i] == keys[j] && keys[i] !in keys[..i]
  {
    i := 0;
    while keys[i] != keys[j]
      invariant i <= j
      invariant keys[j] !in keys[..i]
      decreases j - i
    {
      i := i + 1;
    }
  }
}

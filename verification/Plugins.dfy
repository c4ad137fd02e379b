/** Preparer plugins around a build. The deferred clean-up of every iteration refers to the one
    loop variable all iterations share, as the module's language version (Go 1.17) has it. */
module Plugins {

  datatype Call = Prepare(plugin: nat) | Cleanup(plugin: nat)

  /** How many plugins are asked to prepare: up to and including the first that fails. */
  function Tried(succeeds: seq<bool>): (n: nat)
    ensures n <= |succeeds|
    ensures forall i :: 0 <= i < n - 1 ==> succeeds[i]
    ensures n < |succeeds| ==> n > 0 && !succeeds[n - 1]
  {
    if succeeds == [] then 0 else if !succeeds[0] then 1 else 1 + Tried(succeeds[1..])
  }

  /** The first n plugins prepare, in order, and as many clean-ups follow, all of the last of them. */
  ghost predicate Ran(calls: seq<Call>, n: nat) {
    && |calls| == n + n
    && (forall i :: 0 <= i < n ==> calls[i] == Prepare(i))
    && (forall i :: n <= i < n + n ==> calls[i] == Cleanup(n - 1))
  }

  /** Runs the plugins and, once the build is over, the deferred clean-ups. */
  method RunPlugins(succeeds: seq<bool>) returns (calls: seq<Call>, ok: bool)
    ensures Ran(calls, Tried(succeeds))
    ensures ok <==> forall i :: 0 <= i < |succeeds| ==> succeeds[i]
  {
    calls, ok := [], true;
    var plugin, deferred := 0, 0;
    var n := 0;
    while n < |succeeds| && ok
      invariant 0 <= n <= |succeeds| && n == deferred == |calls|
      invariant n > 0 ==> plugin == n - 1
      invariant forall i :: 0 <= i < n ==> calls[i] == Prepare(i)
      invariant ok ==> forall i :: 0 <= i < n ==> succeeds[i]
      invariant !ok ==> n > 0 && !succeeds[n - 1] && forall i :: 0 <= i < n - 1 ==> succeeds[i]
    {
      plugin := n;
      deferred := deferred + 1;
      calls := calls + [Prepare(plugin)];
      ok := succeeds[n];
      n := n + 1;
    }
    assert n == Tried(succeeds);
    while deferred > 0
      invariant 0 <= deferred <= n && |calls| == n + n - deferred
      invariant forall i :: 0 <= i < n ==> calls[i] == Prepare(i)
      invariant forall i :: n <= i < |calls| ==> calls[i] == Cleanup(plugin)
    {
      calls := calls + [Cleanup(plugin)];
      deferred := deferred - 1;
    }
  }

  /** The clean-ups that run are the ones intended, each prepared plugin once and in reverse order, exactly when at
      most one plugin was tried. */
  lemma CleanupsAsIntended(calls: seq<Call>, n: nat)
    requires Ran(calls, n)
    ensures (forall k :: n <= k < n + n ==> calls[k] == Cleanup(n + n - 1 - k)) <==> n <= 1
  {
    if n > 1 {
      assert calls[n + 1] == Cleanup(n - 1);
    }
  }
}

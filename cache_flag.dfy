/**
  The `isCachedSubject` behaviour subject that both entity wrappers keep, and the
  streams derived from it.

  A behaviour subject is modelled by its log: every value it has held, oldest
  first, the last being its current value. A subscriber that subscribes while the
  log holds `at` values is first handed the current value `log[at - 1]` and then
  every later value, so it observes `log[at - 1..]`.
*/
module CacheFlag {

  /** The subject starts at `true` and only `uncache()` pushes a value, always `false`. */
  predicate ValidLog(log: seq<bool>) {
    |log| >= 1 && log[0] && forall i :: 1 <= i < |log| ==> !log[i]
  }

  /** The `filter(isCached => !isCached)` operator. */
  function Falses(s: seq<bool>): (r: seq<bool>)
    ensures |r| <= |s|
    ensures forall i :: 0 <= i < |r| ==> !r[i]
  {
    if s == [] then [] else (if s[0] then [] else [s[0]]) + Falses(s[1..])
  }

  lemma {:induction false} FalsesEmpty(s: seq<bool>)
    ensures Falses(s) == [] <==> forall i :: 0 <= i < |s| ==> s[i]
  {
    if s != [] {
      FalsesEmpty(s[1..]);
      assert forall i :: 1 <= i < |s| ==> s[i] == s[1..][i - 1];
    }
  }

  /** The `first()` operator: the first value, then completion. */
  function First<T>(s: seq<T>): (r: seq<T>)
    ensures |r| == if s == [] then 0 else 1
    ensures r != [] ==> r[0] == s[0]
  {
    if s == [] then [] else [s[0]]
  }

  /**
    How many notifications an `afterUncache` subscriber receives, given what it
    observed of the subject: `skip(1)` drops the replayed current value, the filter
    keeps `false`, and `first()` stops after one.
  */
  function AfterUncache(observed: seq<bool>): (fired: nat)
    requires |observed| >= 1
    ensures fired <= 1
    ensures fired == 1 <==> exists j :: 1 <= j < |observed| && !observed[j]
  {
    FalsesEmpty(observed[1..]);
    assert forall j :: 1 <= j < |observed| ==> observed[j] == observed[1..][j - 1];
    |First(Falses(observed[1..]))|
  }

  /**
    Notifications received by an `afterUncache` subscriber that subscribed while
    the log held `at` values: one exactly when `uncache()` ran after it subscribed,
    never for the value current at subscription, never more than one.
  */
  function Notified(log: seq<bool>, at: nat): (fired: nat)
    requires ValidLog(log) && 1 <= at <= |log|
    ensures fired <= 1
    ensures fired == 1 <==> at < |log|
  {
    assert at < |log| ==> !log[at - 1..][1];
    AfterUncache(log[at - 1..])
  }
}

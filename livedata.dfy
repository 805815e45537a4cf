/**
 * A boolean observable (`MutableLiveData<Boolean>`) and the change-guarded
 * write the library performs on it.
 */
module LiveData {

  /** No two consecutive entries of an emission history are equal. */
  predicate NoRepeats(h: seq<bool>) {
    forall i :: 0 < i < |h| ==> h[i] != h[i - 1]
  }

  /**
   * The history after `if (v != live.value) live.set(v)`: observers are sent
   * `v` only when it differs from the current (last emitted) value.
   */
  function GuardedWrite(h: seq<bool>, v: bool): (r: seq<bool>)
    requires |h| > 0
    ensures |r| > 0 && r[|r| - 1] == v
    ensures r == h <==> h[|h| - 1] == v
    ensures r != h ==> r == h + [v]
    ensures NoRepeats(h) ==> NoRepeats(r)
  {
    if h[|h| - 1] == v then h else h + [v]
  }

  /** The history after a whole sequence of guarded writes of `vs`. */
  function Replay(h: seq<bool>, vs: seq<bool>): (r: seq<bool>)
    requires |h| > 0
    ensures |h| <= |r| <= |h| + |vs|
    ensures r[..|h|] == h
    ensures r[|r| - 1] == if vs == [] then h[|h| - 1] else vs[|vs| - 1]
    ensures NoRepeats(h) ==> NoRepeats(r)
    decreases |vs|
  {
    if vs == [] then h else Replay(GuardedWrite(h, vs[0]), vs[1..])
  }

  /**
   * The number of values observers receive from `Replay(h, vs)`: one per
   * written value that differs from the value before it.
   */
  function Changes(last: bool, vs: seq<bool>): nat
    decreases |vs|
  {
    if vs == [] then 0 else (if vs[0] != last then 1 else 0) + Changes(vs[0], vs[1..])
  }

  lemma {:induction false} ReplayEmitsOnlyChanges(h: seq<bool>, vs: seq<bool>)
    requires |h| > 0
    ensures |Replay(h, vs)| == |h| + Changes(h[|h| - 1], vs)
    decreases |vs|
  {
    if vs != [] {
      ReplayEmitsOnlyChanges(GuardedWrite(h, vs[0]), vs[1..]);
    }
  }

  /** A `MutableLiveData<Boolean>`: its current value and, as a ghost, every value observers were sent. */
  class LiveFlag {
    var value: bool
    ghost var emitted: seq<bool>

    ghost predicate Valid()
      reads this
    {
      |emitted| > 0 && emitted[|emitted| - 1] == value
    }

    /** `MutableLiveData(initial)`: observers that subscribe receive `initial` first. */
    constructor (initial: bool)
      ensures Valid()
      ensures value == initial && emitted == [initial]
    {
      value := initial;
      emitted := [initial];
    }

    /** `LiveData.set`: stores `v` and dispatches it to observers, whether or not it changed. */
    method Set(v: bool)
      modifies this
      ensures Valid()
      ensures value == v && emitted == old(emitted) + [v]
    {
      value := v;
      emitted := emitted + [v];
    }
  }
}

/**
 * The snapshot state of one Frequency as values: the cached `datastream` is a
 * fold of the updates received so far, and `history` holds the snapshot before
 * each update.
 */
module Snapshots {
  import opened Json

  /** The update function a Frequency is built with: `(datastream, newData) -> next`. */
  type Combine = (Json, Json) -> Json

  /** One `_handleStream_` step: the combined value, or the previous one if that is falsy. */
  function Step(combine: Combine, current: Json, incoming: Json): Json {
    var r := combine(current, incoming);
    if Truthy(r) then r else current
  }

  /** The snapshot after the given updates, starting from `start`. */
  function Replay(combine: Combine, start: Json, updates: seq<Json>): Json {
    if updates == [] then start
    else Step(combine, Replay(combine, start, updates[..|updates| - 1]), updates[|updates| - 1])
  }

  /** The snapshots held before each of the given updates, oldest first. */
  function Trail(combine: Combine, start: Json, updates: seq<Json>): (h: seq<Json>)
    ensures |h| == |updates|
  {
    if updates == [] then []
    else
      var before := updates[..|updates| - 1];
      Trail(combine, start, before) + [Replay(combine, start, before)]
  }

  /** Entry `i` of the trail is the snapshot after the first `i` updates. */
  lemma {:induction false} TrailAt(combine: Combine, start: Json, updates: seq<Json>, i: int)
    requires 0 <= i < |updates|
    ensures Trail(combine, start, updates)[i] == Replay(combine, start, updates[..i])
  {
    var before := updates[..|updates| - 1];
    if i < |updates| - 1 {
      TrailAt(combine, start, before, i);
      assert before[..i] == updates[..i];
    } else {
      assert before == updates[..i];
    }
  }

  /** Later updates never change earlier history entries: a shorter trail is a prefix of a longer one. */
  lemma {:induction false} TrailPrefix(combine: Combine, start: Json, updates: seq<Json>, k: int)
    requires 0 <= k <= |updates|
    ensures Trail(combine, start, updates)[..k] == Trail(combine, start, updates[..k])
  {
    if k < |updates| {
      var before := updates[..|updates| - 1];
      TrailPrefix(combine, start, before, k);
      assert before[..k] == updates[..k];
      assert Trail(combine, start, updates)[..|before|] == Trail(combine, start, before);
    } else {
      assert updates[..k] == updates;
    }
  }

  /** One more update extends the fold and the trail by exactly one step. */
  lemma Snoc(combine: Combine, start: Json, updates: seq<Json>, u: Json)
    ensures Replay(combine, start, updates + [u]) == Step(combine, Replay(combine, start, updates), u)
    ensures Trail(combine, start, updates + [u]) == Trail(combine, start, updates) + [Replay(combine, start, updates)]
  {
    assert (updates + [u])[..|updates|] == updates;
  }

  /** The corrected default `updateWith`: the new data overwrites the snapshot. */
  function Overwrite(current: Json, incoming: Json): Json {
    incoming
  }

  /**
   * The default `updateWith` as written: `updateStream(newData)` bound to the
   * Frequency and called as `updateWith(datastream, newData)`, so its one
   * parameter receives the current snapshot and it returns that.
   */
  function BoundUpdateStream(current: Json, incoming: Json): Json {
    current
  }

  /** As written, the default configuration never changes the snapshot, whatever arrives. */
  lemma {:induction false} BoundUpdateStreamKeepsStart(start: Json, updates: seq<Json>)
    ensures Replay(BoundUpdateStream, start, updates) == start
  {
    if updates != [] {
      BoundUpdateStreamKeepsStart(start, updates[..|updates| - 1]);
    }
  }

  /** The concrete case: hydrating `{}` with `{"history": []}` leaves `{}` in place. */
  lemma BoundUpdateStreamIgnoresHydration()
    ensures var hydration := JObj(map["history" := JArr([])]);
      Replay(BoundUpdateStream, EmptyObject, [hydration]) == EmptyObject != hydration
  {
    var hydration := JObj(map["history" := JArr([])]);
    BoundUpdateStreamKeepsStart(EmptyObject, [hydration]);
    assert "history" in hydration.fields;
  }

  /** The last truthy value among the updates, or `start` if there is none. */
  function LastTruthy(start: Json, updates: seq<Json>): Json {
    if updates == [] then start
    else if Truthy(updates[|updates| - 1]) then updates[|updates| - 1]
    else LastTruthy(start, updates[..|updates| - 1])
  }

  /** With the corrected default, the snapshot is the latest truthy update (falsy data is ignored). */
  lemma {:induction false} OverwriteKeepsLatest(start: Json, updates: seq<Json>)
    ensures Replay(Overwrite, start, updates) == LastTruthy(start, updates)
  {
    if updates != [] {
      OverwriteKeepsLatest(start, updates[..|updates| - 1]);
    }
  }
}

/** Display helpers shared by the monitor table and the monitor card. */
module Display {
  import opened Wrappers

  function Min(a: nat, b: nat): nat {
    if a <= b then a else b
  }

  /** The first keywords of a list and the count badge for the rest, if any remain. */
  datatype Truncated = Truncated(shown: seq<string>, more: Option<nat>)

  /** `ks.slice(0, limit)`, with `+(|ks| - limit)` shown exactly when that is positive. */
  function Truncate(ks: seq<string>, limit: nat): (r: Truncated)
    ensures |r.shown| == Min(|ks|, limit)
    ensures forall i :: 0 <= i < |r.shown| ==> r.shown[i] == ks[i]
    ensures r.more.Some? <==> |ks| > limit
    ensures r.more.Some? ==> r.more.value > 0
    ensures |r.shown| + r.more.GetOr(0) == |ks|
  {
    Truncated(ks[..Min(|ks|, limit)], if |ks| > limit then Some(|ks| - limit) else None)
  }

  /** Whether a monitor's toggle, edit and delete controls are disabled. */
  datatype Controls = Controls(toggleDisabled: bool, editDisabled: bool, deleteDisabled: bool)

  /** All three controls follow the syncing flag. */
  function ControlsFor(isSyncing: bool): (c: Controls)
    ensures c.toggleDisabled <==> isSyncing
    ensures c.editDisabled <==> isSyncing
    ensures c.deleteDisabled <==> isSyncing
  {
    Controls(isSyncing, isSyncing, isSyncing)
  }
}

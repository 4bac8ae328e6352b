/** Stale block-storage volumes: selecting them and deleting them in dry-run mode. */
module Ec2Volumes {
  import opened Common
  import opened Provider

  const SecondsPerDay: int := 86400
  /** A volume must be older than this many seconds to be selected. */
  const StaleAge: int := 30 * SecondsPerDay
  /** Every mutating call of the tool asks the provider for a dry run. */
  const DRY: bool := true
  /** The start of the verbose line reporting a deleted volume. */
  const VolumeDeleted: string := "Volume with id: "

  /** A volume is stale when its record has no tags key and it was created strictly before the
      instant thirty days before `now`. An empty tag list does not count as "no tags". */
  predicate IsStale(v: Volume, now: int) {
    v.tags.None? && v.createTime < now - StaleAge
  }

  /** The stale volumes of a listing, in listing order. */
  function StaleVolumes(vols: seq<Volume>, now: int): (r: seq<Volume>)
    ensures |r| <= |vols|
  {
    if |vols| == 0 then []
    else
      var last := vols[|vols| - 1];
      var rest := StaleVolumes(vols[..|vols| - 1], now);
      if IsStale(last, now) then rest + [last] else rest
  }

  /** A volume is selected if and only if it is in the listing and stale. */
  lemma {:induction false} StaleVolumesMembers(vols: seq<Volume>, now: int)
    ensures forall v :: v in StaleVolumes(vols, now) <==> v in vols && IsStale(v, now)
  {
    if |vols| > 0 {
      var init := vols[..|vols| - 1];
      StaleVolumesMembers(init, now);
      assert vols == init + [vols[|vols| - 1]];
    }
  }

  /** Selection distributes over concatenation: it keeps listing order and looks at each volume
      on its own. */
  lemma {:induction false} StaleVolumesAppend(a: seq<Volume>, b: seq<Volume>, now: int)
    ensures StaleVolumes(a + b, now) == StaleVolumes(a, now) + StaleVolumes(b, now)
  {
    if |b| > 0 {
      var b' := b[..|b| - 1];
      assert (a + b)[..|a + b| - 1] == a + b';
      assert (a + b)[|a + b| - 1] == b[|b| - 1];
      StaleVolumesAppend(a, b', now);
    } else {
      assert a + b == a;
    }
  }

  /** A volume exactly thirty days old is not selected, and neither is one with an empty tag list. */
  lemma StaleBoundary(id: string, now: int)
    ensures StaleVolumes([Volume(id, now - StaleAge, None)], now) == []
    ensures StaleVolumes([Volume(id, now - StaleAge - 1, Some([]))], now) == []
    ensures StaleVolumes([Volume(id, now - StaleAge - 1, None)], now) == [Volume(id, now - StaleAge - 1, None)]
  {
  }

  /** The line reported for a selected volume: `id;createTime` when verbose, the id alone otherwise. */
  function VolumeEntry(v: Volume, verbose: bool, showTime: int -> string): string {
    if verbose then v.volumeId + ";" + showTime(v.createTime) else v.volumeId
  }

  function VolumeIds(vols: seq<Volume>): (ids: seq<string>)
    ensures |ids| == |vols| && forall i :: 0 <= i < |vols| ==> ids[i] == vols[i].volumeId
  {
    seq(|vols|, i requires 0 <= i < |vols| => vols[i].volumeId)
  }

  /** The entries of a list of selected volumes, in order. */
  function Entries(vols: seq<Volume>, verbose: bool, showTime: int -> string): (es: seq<string>)
    ensures |es| == |vols|
  {
    if |vols| == 0 then [] else Entries(vols[..|vols| - 1], verbose, showTime) + [VolumeEntry(vols[|vols| - 1], verbose, showTime)]
  }

  /** Entry `i` is that of volume `i`; without `verbose` the entries are the ids. */
  lemma {:induction false} EntriesSpec(vols: seq<Volume>, verbose: bool, showTime: int -> string)
    ensures forall i :: 0 <= i < |vols| ==> Entries(vols, verbose, showTime)[i] == VolumeEntry(vols[i], verbose, showTime)
    ensures !verbose ==> Entries(vols, verbose, showTime) == VolumeIds(vols)
  {
    if |vols| > 0 {
      var init := vols[..|vols| - 1];
      EntriesSpec(init, verbose, showTime);
      forall i | 0 <= i < |vols|
        ensures Entries(vols, verbose, showTime)[i] == VolumeEntry(vols[i], verbose, showTime)
      {
        if i < |init| {
          assert vols[i] == init[i];
        }
      }
    }
  }

  /** `getOldUnusedVols`: the entries of the stale volumes of `vols`, in listing order.
      `showTime` renders a creation time. */
  method GetOldUnusedVols(vols: seq<Volume>, now: int, verbose: bool, showTime: int -> string)
    returns (res: seq<string>)
    ensures |res| == |StaleVolumes(vols, now)|
    ensures forall i :: 0 <= i < |res| ==> res[i] == VolumeEntry(StaleVolumes(vols, now)[i], verbose, showTime)
    ensures !verbose ==> res == VolumeIds(StaleVolumes(vols, now))
  {
    res := [];
    var days30 := now - StaleAge;
    var i := 0;
    while i < |vols|
      invariant 0 <= i <= |vols|
      invariant res == Entries(StaleVolumes(vols[..i], now), verbose, showTime)
    {
      var vol := vols[i];
      assert vols[..i + 1][..i] == vols[..i];
      ghost var sel := StaleVolumes(vols[..i], now);
      if vol.tags.None? {
        if vol.createTime < days30 {
          assert (sel + [vol])[..|sel|] == sel;
          if verbose {
            res := res + [vol.volumeId + ";" + showTime(vol.createTime)];
          } else {
            res := res + [vol.volumeId];
          }
        }
      }
      i := i + 1;
    }
    assert vols[..|vols|] == vols;
    EntriesSpec(StaleVolumes(vols, now), verbose, showTime);
  }

  datatype DeleteVolumeCall = DeleteVolumeCall(volumeId: string, dryRun: bool)

  /** The calls made for a batch that stops after call `n` (when `n < |ids|`) or runs to the end. */
  function DeleteCalls(ids: seq<string>, n: nat): (calls: seq<DeleteVolumeCall>)
    requires n <= |ids|
    ensures |calls| == (if n < |ids| then n + 1 else n)
    ensures forall k :: 0 <= k < |calls| ==> calls[k] == DeleteVolumeCall(ids[k], DRY)
  {
    var m := if n < |ids| then n + 1 else n;
    seq(m, k requires 0 <= k < m => DeleteVolumeCall(ids[k], DRY))
  }

  /** `cleanupOldUnusedVols`: one dry-run delete per stale volume, in listing order. `succeeds`
      tells whether the delete call for an id returns normally; the first call that raises ends
      the batch (the exception escapes). Verbose mode reports each delete that returned; the final
      count, printed only when no call raised, is the number of selected volumes, whatever the
      dry run changed. `completed` is false when a call raised. */
  method CleanupOldUnusedVols(vols: seq<Volume>, now: int, verbose: bool, succeeds: string -> bool)
    returns (calls: seq<DeleteVolumeCall>, printed: seq<string>, completed: bool)
    ensures var ids := VolumeIds(StaleVolumes(vols, now));
            var n := FirstRefused(ids, succeeds);
            && calls == DeleteCalls(ids, n)
            && (completed <==> n == |ids|)
            && printed == (if verbose then DeletedLines(VolumeDeleted, ids[..n]) else [])
                          + (if completed then ["Delete " + NatToString(|ids|) + " volumes"] else [])
  {
    var lvol := GetOldUnusedVols(vols, now, false, t => "");
    ghost var n := FirstRefused(lvol, succeeds);
    calls, printed := [], [];
    var i := 0;
    while i < |lvol|
      invariant 0 <= i <= n
      invariant |calls| == i && forall k :: 0 <= k < i ==> calls[k] == DeleteVolumeCall(lvol[k], DRY)
      invariant printed == if verbose then DeletedLines(VolumeDeleted, lvol[..i]) else []
    {
      var vol := lvol[i];
      assert lvol[..i + 1][..i] == lvol[..i];
      calls := calls + [DeleteVolumeCall(vol, DRY)];
      if !succeeds(vol) {
        assert i == n;
        assert calls == DeleteCalls(lvol, n);
        completed := false;
        return;
      }
      if verbose {
        printed := printed + [VolumeDeleted + vol + " deleted"];
      }
      i := i + 1;
    }
    assert lvol[..i] == lvol;
    assert calls == DeleteCalls(lvol, n);
    printed := printed + ["Delete " + NatToString(|lvol|) + " volumes"];
    completed := true;
  }
}

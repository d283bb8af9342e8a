/** The device resolver: an external device key (the IMEI) to the internal
    device uid under which the tracking table stores the device's row. A miss
    and a failed lookup both give the sentinel -1. */
module Devices {
  import opened Wrappers

  /** The uid every miss and every failed lookup is reported as. */
  const NotFound: int := -1

  /** The device directory as the database holds it: device key to uid. */
  type Directory = map<string, int>

  /** Uids are assigned by the storage layer and are never negative. */
  predicate UidsNonNegative(dir: Directory) {
    forall k :: k in dir ==> dir[k] >= 0
  }

  /** The lookup with its outcome kept apart: `None` when the key is unknown
      or the directory could not be read (`reachable` false). */
  function Lookup(dir: Directory, imei: string, reachable: bool): (r: Option<int>)
    ensures r.Some? <==> reachable && imei in dir
    ensures r.Some? ==> r.value == dir[imei]
  {
    if reachable && imei in dir then Some(dir[imei]) else None
  }

  /** The resolver as callers see it: the stored uid on a hit, the sentinel
      otherwise. */
  function GetDeviceUid(dir: Directory, imei: string, reachable: bool): (uid: int)
    ensures reachable && imei in dir ==> uid == dir[imei]
    ensures !reachable || imei !in dir ==> uid == NotFound
  {
    Lookup(dir, imei, reachable).GetOr(NotFound)
  }

  /** While the directory's uids are non-negative, the sentinel is unambiguous:
      a result is a uid exactly when the lookup hit, and -1 exactly when it
      missed or failed. */
  lemma SentinelMeansNoHit(dir: Directory, imei: string, reachable: bool)
    requires UidsNonNegative(dir)
    ensures GetDeviceUid(dir, imei, reachable) >= 0 <==> Lookup(dir, imei, reachable).Some?
    ensures GetDeviceUid(dir, imei, reachable) == NotFound <==> Lookup(dir, imei, reachable).None?
  {
  }

  /** A failed lookup cannot be told apart from an unknown key through the
      result. */
  lemma FailureLooksLikeMiss(dir: Directory, imei: string, unknown: string)
    requires unknown !in dir
    ensures GetDeviceUid(dir, imei, false) == GetDeviceUid(dir, unknown, true)
  {
  }
}

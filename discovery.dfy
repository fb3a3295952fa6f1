/** The scanned-device list kept by the found-device receiver: each
    discovery notification appends the device unless an equal one is
    already listed. */
module Discovery {
  import opened Domain

  predicate NoDuplicates(devices: seq<Device>)
  {
    forall i, j :: 0 <= i < j < |devices| ==> devices[i] != devices[j]
  }

  /** The receiver's update of the scanned list for one found device. */
  function AddFound(devices: seq<Device>, found: Device): (r: seq<Device>)
    ensures devices <= r
    ensures |r| <= |devices| + 1
    ensures forall d :: d in r <==> d in devices || d == found
    ensures r == devices <==> found in devices
    ensures NoDuplicates(devices) ==> NoDuplicates(r)
  {
    if found in devices then devices else devices + [found]
  }

  /** The scanned list after the receiver has handled every notification
      of `found`, in order. */
  function ScanAll(devices: seq<Device>, found: seq<Device>): seq<Device>
  {
    if found == [] then devices
    else AddFound(ScanAll(devices, found[..|found| - 1]), found[|found| - 1])
  }

  /** Reference definition: the notifications whose device was not
      notified earlier, in notification order. */
  function FirstSeen(found: seq<Device>): seq<Device>
  {
    if found == [] then []
    else
      var earlier := found[..|found| - 1];
      var last := found[|found| - 1];
      FirstSeen(earlier) + (if last in earlier then [] else [last])
  }

  /** Handling a run of notifications never reorders, drops or duplicates
      what the list already held. */
  lemma {:induction false} ScanAllExtends(devices: seq<Device>, found: seq<Device>)
    ensures devices <= ScanAll(devices, found)
    ensures NoDuplicates(devices) ==> NoDuplicates(ScanAll(devices, found))
    ensures forall d :: d in ScanAll(devices, found) <==> d in devices || d in found
  {
    if found != [] {
      var earlier := found[..|found| - 1];
      ScanAllExtends(devices, earlier);
      assert found == earlier + [found[|found| - 1]];
    }
  }

  /** Starting from an empty list, the scanned list holds each notified
      device exactly once, at the position of its first notification. */
  lemma {:induction false} ScanAllIsFirstSeen(found: seq<Device>)
    ensures ScanAll([], found) == FirstSeen(found)
    ensures NoDuplicates(ScanAll([], found))
  {
    if found != [] {
      var earlier := found[..|found| - 1];
      ScanAllIsFirstSeen(earlier);
      ScanAllExtends([], earlier);
    }
  }
}

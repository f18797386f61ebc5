/** The admin device table (client/src/pages/admin/devices/DeviceManagement.js):
    search and status filtering, the page slice, and the status toggle and delete
    the table offers. */
module DeviceManagement {
  import opened Common
  import Paging

  const DevicesPerPage := 10
  const AllStatuses := "all"
  const OnlineStatus := "online"
  const OfflineStatus := "offline"

  datatype AdminDevice = AdminDevice(id: string, name: string, kind: string, status: string, location: string)

  /** Name, type or location contains the term, ignoring case. */
  predicate MatchesSearch(d: AdminDevice, searchTerm: string)
  {
    var term := Lower(searchTerm);
    Contains(Lower(d.name), term) || Contains(Lower(d.kind), term) || Contains(Lower(d.location), term)
  }

  predicate MatchesStatus(d: AdminDevice, selectedStatus: string)
  {
    selectedStatus == AllStatuses || d.status == selectedStatus
  }

  /** `filteredDevices`: the devices matching both the search and the status filter,
      in table order. */
  function FilteredDevices(devices: seq<AdminDevice>, searchTerm: string, selectedStatus: string): (r: seq<AdminDevice>)
    ensures forall d :: d in r <==> d in devices && MatchesSearch(d, searchTerm) && MatchesStatus(d, selectedStatus)
    ensures |r| <= |devices|
  {
    KeepWhere(devices, d => MatchesSearch(d, searchTerm) && MatchesStatus(d, selectedStatus))
  }

  /** `filter` keeps the table's order and repetitions: filtering distributes over
      concatenation, and a single device is kept exactly when it matches both filters. */
  lemma FilteredKeepsOrder(a: seq<AdminDevice>, b: seq<AdminDevice>, d: AdminDevice,
                           searchTerm: string, selectedStatus: string)
    ensures FilteredDevices(a + b, searchTerm, selectedStatus)
            == FilteredDevices(a, searchTerm, selectedStatus) + FilteredDevices(b, searchTerm, selectedStatus)
    ensures FilteredDevices([d], searchTerm, selectedStatus)
            == if MatchesSearch(d, searchTerm) && MatchesStatus(d, selectedStatus) then [d] else []
  {
    var p := (x: AdminDevice) => MatchesSearch(x, searchTerm) && MatchesStatus(x, selectedStatus);
    KeepWhereAppend(a, b, p);
    KeepWhereSingleton(d, p);
  }

  /** An empty search with the `all` filter shows every device. */
  lemma EmptySearchKeepsAll(devices: seq<AdminDevice>)
    ensures FilteredDevices(devices, "", AllStatuses) == devices
  {
    var p := (d: AdminDevice) => MatchesSearch(d, "") && MatchesStatus(d, AllStatuses);
    forall d: AdminDevice ensures p(d) {
      assert OccursAt(Lower(d.name), "", 0);
    }
    KeepAll(devices, p);
  }

  lemma {:induction false} KeepAll(devices: seq<AdminDevice>, p: AdminDevice -> bool)
    requires forall d :: p(d)
    ensures KeepWhere(devices, p) == devices
    decreases |devices|
  {
    if devices != [] {
      KeepAll(devices[..|devices| - 1], p);
      assert devices == devices[..|devices| - 1] + [devices[|devices| - 1]];
    }
  }

  /** `currentDevices`: `filtered.slice((page - 1) * 10, page * 10)`. */
  function CurrentDevices(filtered: seq<AdminDevice>, page: int): (r: seq<AdminDevice>)
    ensures |r| <= DevicesPerPage
    ensures page >= 1 ==>
      r == filtered[Min((page - 1) * DevicesPerPage, |filtered|)..Min(page * DevicesPerPage, |filtered|)]
  {
    JsSlice(filtered, (page - 1) * DevicesPerPage, page * DevicesPerPage)
  }

  function Min(a: int, b: int): int { if a <= b then a else b }

  /** The first `k` pages laid end to end. */
  function FirstPages(filtered: seq<AdminDevice>, k: nat): seq<AdminDevice>
  {
    if k == 0 then [] else FirstPages(filtered, k - 1) + CurrentDevices(filtered, k)
  }

  lemma {:induction false} FirstPagesPrefix(filtered: seq<AdminDevice>, k: nat)
    ensures FirstPages(filtered, k) == filtered[..Min(k * DevicesPerPage, |filtered|)]
  {
    if k > 0 {
      FirstPagesPrefix(filtered, k - 1);
      var a, b := Min((k - 1) * DevicesPerPage, |filtered|), Min(k * DevicesPerPage, |filtered|);
      assert filtered[..b] == filtered[..a] + filtered[a..b];
    }
  }

  /** The pages `1..totalPages` hold every filtered device exactly once, in order. */
  lemma PagesCoverFiltered(filtered: seq<AdminDevice>)
    ensures FirstPages(filtered, Paging.TotalPages(|filtered|, DevicesPerPage)) == filtered
  {
    var n := Paging.TotalPages(|filtered|, DevicesPerPage);
    FirstPagesPrefix(filtered, n);
    assert filtered[..|filtered|] == filtered;
  }

  function Toggled(d: AdminDevice): AdminDevice
  {
    d.(status := if d.status == OnlineStatus then OfflineStatus else OnlineStatus)
  }

  /** `toggleDeviceStatus(deviceId)`: every device with that id switches online to
      offline and anything else to online; the others are untouched. */
  function ToggleDeviceStatus(devices: seq<AdminDevice>, deviceId: string): (r: seq<AdminDevice>)
    ensures |r| == |devices|
    ensures forall i :: 0 <= i < |devices| && devices[i].id != deviceId ==> r[i] == devices[i]
    ensures forall i :: 0 <= i < |devices| && devices[i].id == deviceId ==>
      r[i].id == deviceId && r[i].name == devices[i].name && r[i].kind == devices[i].kind
      && r[i].location == devices[i].location
      && (devices[i].status == OnlineStatus ==> r[i].status == OfflineStatus)
      && (devices[i].status != OnlineStatus ==> r[i].status == OnlineStatus)
  {
    seq(|devices|, i requires 0 <= i < |devices| => if devices[i].id == deviceId then Toggled(devices[i]) else devices[i])
  }

  /** Toggling twice restores a device that was online or offline. */
  lemma ToggleTwice(devices: seq<AdminDevice>, deviceId: string)
    requires forall i :: 0 <= i < |devices| && devices[i].id == deviceId ==> devices[i].status in {OnlineStatus, OfflineStatus}
    ensures ToggleDeviceStatus(ToggleDeviceStatus(devices, deviceId), deviceId) == devices
  {
    var once := ToggleDeviceStatus(devices, deviceId);
    var twice := ToggleDeviceStatus(once, deviceId);
    forall i | 0 <= i < |devices|
      ensures twice[i] == devices[i]
    {
      if devices[i].id == deviceId {
        assert once[i] == Toggled(devices[i]);
      }
    }
  }

  /** `deleteDevice(deviceId)` once the user confirms: every device with that id goes,
      the others stay in order. Without confirmation nothing changes. */
  function DeleteDevice(devices: seq<AdminDevice>, deviceId: string, confirmed: bool): (r: seq<AdminDevice>)
    ensures !confirmed ==> r == devices
    ensures confirmed ==> (forall d :: d in r <==> d in devices && d.id != deviceId)
    ensures confirmed ==> |r| == |devices| - CountWhere(devices, (d: AdminDevice) => d.id == deviceId)
  {
    if !confirmed then devices
    else
      var keep := (d: AdminDevice) => d.id != deviceId;
      CountComplement(devices, keep, (d: AdminDevice) => d.id == deviceId);
      KeepWhere(devices, keep)
  }

  lemma {:induction false} CountComplement(s: seq<AdminDevice>, p: AdminDevice -> bool, q: AdminDevice -> bool)
    requires forall d :: p(d) <==> !q(d)
    ensures CountWhere(s, p) == |s| - CountWhere(s, q)
    decreases |s|
  {
    if s != [] {
      CountComplement(s[..|s| - 1], p, q);
    }
  }

  /** Deleting is idempotent, and it keeps the order of the devices that remain. */
  lemma DeleteTwice(devices: seq<AdminDevice>, more: seq<AdminDevice>, deviceId: string)
    ensures DeleteDevice(DeleteDevice(devices, deviceId, true), deviceId, true) == DeleteDevice(devices, deviceId, true)
    ensures DeleteDevice(devices + more, deviceId, true) == DeleteDevice(devices, deviceId, true) + DeleteDevice(more, deviceId, true)
  {
    var keep := (d: AdminDevice) => d.id != deviceId;
    KeepWhereIdempotent(devices, keep);
    KeepWhereAppend(devices, more, keep);
  }
}

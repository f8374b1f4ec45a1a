/** The device status panel: a fixed device list, a status filter, the
    per-status counts, and the battery display rules. */
module DeviceStatus {
  import opened Common

  datatype Device = Device(id: int, name: string, kind: string, status: string, battery: int, lastSeen: string)

  const MockDevices: seq<Device> := [
    Device(1, "Sensor R101", "temperature", "online", 85, "2 min ago"),
    Device(2, "Sensor R102", "temperature", "online", 92, "1 min ago"),
    Device(3, "Sensor R103", "temperature", "offline", 0, "2 hours ago"),
    Device(4, "Sensor R104", "humidity", "online", 67, "3 min ago"),
    Device(5, "Sensor R105", "temperature", "warning", 15, "5 min ago"),
    Device(6, "Sensor R106", "humidity", "online", 78, "1 min ago")
  ]

  /** The devices shown for a filter: all of them for "all", otherwise exactly
      those with that status, in list order. */
  function FilteredDevices(devices: seq<Device>, filter: string): (r: seq<Device>)
    ensures filter == "all" ==> r == devices
    ensures filter != "all" ==> forall d :: d in r <==> d in devices && d.status == filter
  {
    var keep := (d: Device) => filter == "all" || d.status == filter;
    if filter == "all" then FilterKeepsAll(devices, keep); Filter(devices, keep)
    else Filter(devices, keep)
  }

  /** The number of devices with a status, always taken over the unfiltered list. */
  function StatusCount(devices: seq<Device>, status: string): (n: nat)
    ensures n <= |devices|
    ensures n == 0 <==> forall i :: 0 <= i < |devices| ==> devices[i].status != status
  {
    var r := Filter(devices, (d: Device) => d.status == status);
    FilterEmptyIff(devices, (d: Device) => d.status == status);
    |r|
  }

  /** A status filter shows as many devices as that status's count. */
  lemma FilterMatchesCount(devices: seq<Device>, status: string)
    requires status != "all"
    ensures |FilteredDevices(devices, status)| == StatusCount(devices, status)
  {
    FilterAgree(devices, (d: Device) => status == "all" || d.status == status, (d: Device) => d.status == status);
  }

  datatype DeviceCounts = DeviceCounts(online: nat, offline: nat, warning: nat)

  function Counts(devices: seq<Device>): DeviceCounts {
    DeviceCounts(StatusCount(devices, "online"), StatusCount(devices, "offline"), StatusCount(devices, "warning"))
  }

  /** The number of mock devices with a status, counted one device at a time. */
  lemma MockStatusCount(status: string)
    ensures StatusCount(MockDevices, status) ==
      (if status == "online" then 4 else if status == "offline" || status == "warning" then 1 else 0)
  {
    var d, p := MockDevices, (x: Device) => x.status == status;
    assert d[0..] == d;
    FilterStep(d, 0, p);
  }

  /** The mock list has four devices online, one offline and one warning. */
  lemma MockCounts()
    ensures Counts(MockDevices) == DeviceCounts(4, 1, 1)
  {
    MockStatusCount("online");
    MockStatusCount("offline");
    MockStatusCount("warning");
  }

  /** The empty-state message shows exactly when the filter leaves nothing. */
  predicate ShowsEmptyState(devices: seq<Device>, filter: string) {
    FilteredDevices(devices, filter) == []
  }

  /** Over the mock list, a status no device has ("maintenance", say) shows the
      empty state, and "all" never does. */
  lemma MockEmptyState(filter: string)
    requires filter !in {"all", "online", "offline", "warning"}
    ensures ShowsEmptyState(MockDevices, filter)
    ensures !ShowsEmptyState(MockDevices, "all")
  {
    MockStatusCount(filter);
    FilterMatchesCount(MockDevices, filter);
  }

  /** The status badge: online is success, offline is danger, anything else warning. */
  function StatusBadge(status: string): (v: string)
    ensures v == "success" <==> status == "online"
    ensures v == "danger" <==> status == "offline"
    ensures v == "warning" <==> status != "online" && status != "offline"
  {
    if status == "online" then "success" else if status == "offline" then "danger" else "warning"
  }

  /** The battery is shown for every device that is not offline. */
  predicate ShowsBattery(d: Device) {
    d.status != "offline"
  }

  /** Among the mock devices only Sensor R103, the offline one with an empty
      battery, hides its battery bar. */
  lemma MockBatteryShown(i: nat)
    requires i < |MockDevices|
    ensures !ShowsBattery(MockDevices[i]) <==> i == 2
    ensures !ShowsBattery(MockDevices[i]) ==> MockDevices[i].battery == 0
  {
  }

  datatype BarColor = Green | Yellow | Red

  /** The battery bar: green above 50, yellow above 20 up to 50, red otherwise. */
  function BatteryColor(battery: int): (c: BarColor)
    ensures c == Green <==> battery > 50
    ensures c == Yellow <==> 20 < battery <= 50
    ensures c == Red <==> battery <= 20
  {
    if battery > 50 then Green else if battery > 20 then Yellow else Red
  }

  /** The panel's state: the loaded devices and the selected filter. */
  class DevicePanel {
    var devices: seq<Device>
    var filter: string

    constructor ()
      ensures devices == [] && filter == "all"
    {
      devices := [];
      filter := "all";
    }

    /** The mount effect loads the mock list. */
    method Load()
      modifies this
      ensures devices == MockDevices && filter == old(filter)
    {
      devices := MockDevices;
    }

    /** A filter button: the selection is replaced, never toggled back to "all". */
    method SelectFilter(status: string)
      modifies this
      ensures filter == status && devices == old(devices)
    {
      filter := status;
    }
  }

  /** Pressing the same filter button twice keeps that filter. */
  method SelectTwiceKeeps(status: string)
  {
    var panel := new DevicePanel();
    panel.Load();
    panel.SelectFilter(status);
    panel.SelectFilter(status);
    assert panel.filter == status;
  }
}

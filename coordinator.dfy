// The device coordinator (octopus_sensing/device_coordinator.py): it names
// devices, gives each its own message queue, broadcasts messages to every
// queue, and collects monitoring data behind a short-lived cache.
//
// Queues are modelled by their contents; the clock by an explicit reading in
// milliseconds; the monitoring replies of the device processes by a parameter.

module Coordinator {
  import opened Common
  import opened Messages

  /** A cached monitoring result is served for 100 seconds after it was stored. */
  const CacheLifetimeMs: int := 100_000

  /** Monitoring data: device name to the records that device returned. */
  type MonitoringData = map<string, seq<Value>>

  class MonitoringCache {
    var cachedAt: int
    var data: MonitoringData

    /** A fresh cache holds nothing (the source stores an empty list, which is just as falsy). */
    constructor (now: int)
      ensures cachedAt == now && data == map[]
    {
      cachedAt := now;
      data := map[];
    }

    /** get_cache: the stored data, or None once more than the lifetime has passed since it was stored. */
    function Lookup(now: int): (r: Option<MonitoringData>)
      reads this
      ensures r.None? <==> now - cachedAt > CacheLifetimeMs
      ensures r.Some? ==> r.value == data
    {
      if now - cachedAt > CacheLifetimeMs then None else Some(data)
    }

    /** cache: store the data and restart the lifetime. */
    method Store(d: MonitoringData, now: int)
      modifies this
      ensures cachedAt == now && data == d
      ensures Lookup(now) == Some(d)
    {
      data := d;
      cachedAt := now;
    }
  }

  /** The name the coordinator generates for the n-th unnamed device. */
  function GeneratedName(n: nat): (s: string)
    ensures |s| > 7 && s[..7] == "device_"
  {
    "device_" + IntToString(n)
  }

  /** What follows "device_" in a generated name reads back as the counter. */
  lemma GeneratedNameReadsBack(n: nat)
    ensures PyInt(GeneratedName(n)[7..]) == Ok(n)
  {
    PyIntOfIntToString(n);
    assert GeneratedName(n)[7..] == IntToString(n);
  }

  /** Generated names never collide with one another. */
  lemma GeneratedNamesDistinct(m: nat, n: nat)
    requires m != n
    ensures GeneratedName(m) != GeneratedName(n)
  {
    GeneratedNameReadsBack(m);
    GeneratedNameReadsBack(n);
  }

  /** A device as the coordinator sees it: an optional name and whether it answers monitoring requests. */
  datatype DeviceSpec = DeviceSpec(name: Option<string>, monitored: bool)

  predicate Distinct(s: seq<string>)
  {
    forall i, j :: 0 <= i < j < |s| ==> s[i] != s[j]
  }

  lemma DistinctAppend(s: seq<string>, x: string)
    requires Distinct(s) && x !in s
    ensures Distinct(s + [x])
  {
  }

  /**
   * The result of get_monitoring_data when the cache is empty or expired:
   * every monitored device whose reply arrived, mapped to that reply.
   */
  function Collected(monitored: seq<string>, replies: seq<Option<seq<Value>>>): MonitoringData
    requires |replies| == |monitored|
    decreases |monitored|
  {
    if monitored == [] then map[]
    else
      var earlier := Collected(monitored[..|monitored| - 1], replies[..|replies| - 1]);
      var last := replies[|replies| - 1];
      if last.Some? then earlier[monitored[|monitored| - 1] := last.value] else earlier
  }

  /** A device is in the collected data exactly when its reply arrived, and with that reply. */
  lemma {:induction false} CollectedKeys(monitored: seq<string>, replies: seq<Option<seq<Value>>>, k: nat)
    requires |replies| == |monitored| && Distinct(monitored) && k < |monitored|
    ensures monitored[k] in Collected(monitored, replies) <==> replies[k].Some?
    ensures replies[k].Some? ==> Collected(monitored, replies)[monitored[k]] == replies[k].value
    decreases |monitored|
  {
    var n := |monitored|;
    if k < n - 1 {
      CollectedKeys(monitored[..n - 1], replies[..n - 1], k);
      assert monitored[..n - 1][k] == monitored[k];
      assert replies[..n - 1][k] == replies[k];
      assert monitored[n - 1] != monitored[k];
    } else {
      CollectedNames(monitored[..n - 1], replies[..n - 1]);
      assert monitored[k] !in monitored[..n - 1];
    }
  }

  /** Nothing but monitored devices appear in the collected data. */
  lemma {:induction false} CollectedNames(monitored: seq<string>, replies: seq<Option<seq<Value>>>)
    requires |replies| == |monitored|
    ensures forall name :: name in Collected(monitored, replies) ==> name in monitored
    decreases |monitored|
  {
    if monitored != [] {
      CollectedNames(monitored[..|monitored| - 1], replies[..|replies| - 1]);
    }
  }

  /** What add_device changes: the names with their queues, the unnamed-device counter and the monitored names. */
  datatype Registry = Registry(names: seq<string>, queues: seq<seq<Message>>, counter: nat, monitored: seq<string>)

  /**
   * add_device on a registry: the name it registers, or RuntimeError for a
   * name already taken, and the registry afterwards.
   */
  function Added(s: Registry, device: DeviceSpec): (Registry, Result<string>)
  {
    var counter := if device.name.None? then s.counter + 1 else s.counter;
    var name := if device.name.Some? then device.name.value else GeneratedName(counter);
    if name in s.names then (s.(counter := counter), Err("RuntimeError"))
    else
      (Registry(s.names + [name], s.queues + [[]], counter, s.monitored + (if device.monitored then [name] else [])),
       Ok(name))
  }

  /** One more device for add_devices: nothing after an error, otherwise add_device and its name appended. */
  function AddNext(acc: (Registry, Result<seq<string>>), device: DeviceSpec): (Registry, Result<seq<string>>)
  {
    if acc.1.Err? then acc
    else
      var (u, one) := Added(acc.0, device);
      if one.Err? then (u, Err(one.error)) else (u, Ok(acc.1.value + [one.value]))
  }

  /** add_devices on a registry: add_device for each device in turn, stopping at the first error. */
  function AddedAll(s: Registry, devices: seq<DeviceSpec>): (Registry, Result<seq<string>>)
    decreases |devices|
  {
    if devices == [] then (s, Ok([]))
    else AddNext(AddedAll(s, devices[..|devices| - 1]), devices[|devices| - 1])
  }

  /** Once a prefix of the devices has failed, the devices after it change nothing. */
  lemma {:induction false} AddedAllStops(s: Registry, devices: seq<DeviceSpec>, k: nat)
    requires k <= |devices| && AddedAll(s, devices[..k]).1.Err?
    ensures AddedAll(s, devices) == AddedAll(s, devices[..k])
    decreases |devices|
  {
    if k < |devices| {
      var n := |devices|;
      assert devices[..n - 1][..k] == devices[..k];
      AddedAllStops(s, devices[..n - 1], k);
    } else {
      assert devices[..k] == devices;
    }
  }

  /** add_device appends the name it registers, a given name as it is, and nothing on an error. */
  lemma AddedName(s: Registry, device: DeviceSpec)
    ensures var (t, r) := Added(s, device);
      t.names == s.names + (if r.Ok? then [r.value] else []) &&
      (r.Ok? && device.name.Some? ==> r.value == device.name.value)
  {
  }

  /**
   * What add_devices promises about names, from the registry it started with:
   * those names stay in front; on success one name was registered per device,
   * in order, each named device under its own name, and nothing else.
   */
  predicate NamesAdded(s: Registry, devices: seq<DeviceSpec>, res: (Registry, Result<seq<string>>))
  {
    var (t, r) := res;
    |t.names| >= |s.names| && t.names[..|s.names|] == s.names &&
    (r.Ok? ==> |r.value| == |devices| && t.names == s.names + r.value &&
               forall i :: 0 <= i < |devices| && devices[i].name.Some? ==> r.value[i] == devices[i].name.value)
  }

  /** One more device keeps the promise. */
  lemma NamesAddedNext(s: Registry, devices: seq<DeviceSpec>, acc: (Registry, Result<seq<string>>))
    requires devices != [] && NamesAdded(s, devices[..|devices| - 1], acc)
    ensures NamesAdded(s, devices, AddNext(acc, devices[|devices| - 1]))
  {
    var n := |devices|;
    if acc.1.Ok? {
      AddedName(acc.0, devices[n - 1]);
      var (u, one) := Added(acc.0, devices[n - 1]);
      assert u.names[..|acc.0.names|] == acc.0.names;
      assert u.names[..|s.names|] == acc.0.names[..|s.names|];
      if one.Ok? {
        var r := acc.1.value + [one.value];
        assert AddNext(acc, devices[n - 1]) == (u, Ok(r));
        forall i | 0 <= i < n && devices[i].name.Some?
          ensures r[i] == devices[i].name.value
        {
          if i < n - 1 {
            assert devices[..n - 1][i] == devices[i];
          }
        }
      }
    }
  }

  /** add_devices keeps its promise about names for every list of devices. */
  lemma {:induction false} AddedAllNames(s: Registry, devices: seq<DeviceSpec>)
    ensures NamesAdded(s, devices, AddedAll(s, devices))
    decreases |devices|
  {
    if devices != [] {
      AddedAllNames(s, devices[..|devices| - 1]);
      NamesAddedNext(s, devices, AddedAll(s, devices[..|devices| - 1]));
    }
  }

  class DeviceCoordinator {
    /** The device names in the order they were added (the keys of the device dictionary). */
    var names: seq<string>
    /** The messages put on each device's queue, in the order of `names`. */
    var queues: seq<seq<Message>>
    var counter: nat
    /** The names of the devices that answer monitoring requests, in the order they were added. */
    var monitored: seq<string>
    /** The names of the devices that terminate has waited for. */
    var joined: seq<string>
    const cache: MonitoringCache

    /** The part of the state that add_device changes. */
    function Registered(): Registry
      reads this
    {
      Registry(names, queues, counter, monitored)
    }

    ghost predicate Valid()
      reads this
    {
      |queues| == |names| && Distinct(names) && Distinct(monitored) &&
      (forall name :: name in monitored ==> name in names)
    }

    constructor (now: int)
      ensures Valid() && fresh(cache)
      ensures names == [] && queues == [] && counter == 0 && monitored == [] && joined == []
      ensures cache.cachedAt == now && cache.data == map[]
    {
      names := [];
      queues := [];
      counter := 0;
      monitored := [];
      joined := [];
      cache := new MonitoringCache(now);
    }

    /**
     * add_device: an unnamed device is given the next generated name; a name
     * that is already registered raises RuntimeError (the counter has then
     * already moved on). A registered device gets an empty queue and, when it
     * is monitored, a place among the monitored devices.
     */
    method AddDevice(device: DeviceSpec) returns (r: Result<string>)
      requires Valid()
      modifies this
      ensures Valid() && joined == old(joined)
      ensures counter == old(counter) + (if device.name.None? then 1 else 0)
      ensures r.Ok? ==> names == old(names) + [r.value] && (device.name.Some? ==> r.value == device.name.value)
      ensures r.Err? ==> names == old(names)
      ensures (Registered(), r) == Added(old(Registered()), device)
    {
      ghost var before := Registered();
      var name: string;
      if device.name.None? {
        counter := counter + 1;
        name := GeneratedName(counter);
      } else {
        name := device.name.value;
      }
      if name in names {
        r := Err("RuntimeError");
        assert Registered() == before.(counter := counter);
        return;
      }
      Register(name, device.monitored);
      r := Ok(name);
      assert Registered() == Added(before, device).0;
    }

    /** The registration part of add_device, for a name not yet taken. */
    method Register(name: string, isMonitored: bool)
      requires Valid() && name !in names
      modifies this
      ensures Valid() && joined == old(joined) && counter == old(counter)
      ensures names == old(names) + [name] && queues == old(queues) + [[]]
      ensures monitored == old(monitored) + (if isMonitored then [name] else [])
    {
      DistinctAppend(names, name);
      names := names + [name];
      queues := queues + [[]];
      if isMonitored {
        assert name !in monitored;
        DistinctAppend(monitored, name);
        monitored := monitored + [name];
      }
    }

    /**
     * add_devices: add each device in turn; the first failure propagates and
     * leaves the devices before it registered.
     */
    method AddDevices(devices: seq<DeviceSpec>) returns (r: Result<seq<string>>)
      requires Valid()
      modifies this
      ensures Valid() && joined == old(joined)
      ensures |names| >= |old(names)| && names[..|old(names)|] == old(names)
      ensures r.Ok? ==> |r.value| == |devices| && names == old(names) + r.value
      ensures r.Ok? ==> forall i :: 0 <= i < |devices| && devices[i].name.Some? ==> r.value[i] == devices[i].name.value
      ensures (Registered(), r) == AddedAll(old(Registered()), devices)
    {
      ghost var start := Registered();
      var added: seq<string> := [];
      var i := 0;
      while i < |devices|
        invariant 0 <= i <= |devices|
        invariant Valid() && joined == old(joined)
        invariant AddedAll(start, devices[..i]) == (Registered(), Ok(added))
      {
        var one := AddDevice(devices[i]);
        assert devices[..i + 1][..i] == devices[..i];
        if one.Err? {
          AddedAllStops(start, devices, i + 1);
          r := Err(one.error);
          AddedAllNames(start, devices);
          return;
        }
        added := added + [one.value];
        i := i + 1;
      }
      assert devices[..i] == devices;
      r := Ok(added);
      AddedAllNames(start, devices);
    }

    /** dispatch: put the message on every device's queue. */
    method Dispatch(m: Message)
      requires Valid()
      modifies this
      ensures Valid()
      ensures names == old(names) && monitored == old(monitored) && counter == old(counter) && joined == old(joined)
      ensures |queues| == |old(queues)|
      ensures forall i :: 0 <= i < |queues| ==> queues[i] == old(queues[i]) + [m]
    {
      var i := 0;
      while i < |queues|
        invariant 0 <= i <= |queues| && |queues| == |old(queues)|
        invariant names == old(names) && monitored == old(monitored) && counter == old(counter) && joined == old(joined)
        invariant forall j :: 0 <= j < i ==> queues[j] == old(queues[j]) + [m]
        invariant forall j :: i <= j < |queues| ==> queues[j] == old(queues[j])
      {
        queues := queues[i := queues[i] + [m]];
        i := i + 1;
      }
    }

    /** terminate: broadcast a terminate message, then wait for every device in turn. */
    method Terminate()
      requires Valid()
      modifies this
      ensures Valid() && names == old(names) && monitored == old(monitored) && counter == old(counter)
      ensures |queues| == |old(queues)|
      ensures forall i :: 0 <= i < |queues| ==> queues[i] == old(queues[i]) + [TerminateMessage()]
      ensures joined == names
    {
      Dispatch(TerminateMessage());
      joined := names;
    }

    /**
     * get_monitoring_data: a non-empty cached result that has not expired is
     * returned as it is; otherwise every monitored device is asked, the
     * replies that arrived are gathered under their device names, and the
     * result is cached before it is returned. `replies[i]` is what the i-th
     * monitored device sent back (None when its queue stayed empty or its
     * reply could not be unpickled).
     */
    method GetMonitoringData(now: int, replies: seq<Option<seq<Value>>>) returns (r: MonitoringData)
      requires Valid() && |replies| == |monitored|
      modifies cache
      ensures var hit := old(cache.Lookup(now));
        if hit.Some? && hit.value != map[] then
          r == hit.value && cache.cachedAt == old(cache.cachedAt) && cache.data == old(cache.data)
        else
          r == Collected(monitored, replies) && cache.cachedAt == now && cache.data == r
    {
      var hit := cache.Lookup(now);
      if hit.Some? && hit.value != map[] {
        return hit.value;
      }
      var result: MonitoringData := map[];
      var i := 0;
      while i < |monitored|
        invariant 0 <= i <= |monitored|
        invariant result == Collected(monitored[..i], replies[..i])
      {
        assert monitored[..i + 1][..i] == monitored[..i];
        assert replies[..i + 1][..i] == replies[..i];
        if replies[i].Some? {
          result := result[monitored[i] := replies[i].value];
        }
        i := i + 1;
      }
      assert monitored[..i] == monitored && replies[..i] == replies;
      cache.Store(result, now);
      r := result;
    }
  }

  /**
   * The cache outlives a tenth of a second: data stored at time t is still
   * served 110 ms later, whereas the project's own test expects it gone.
   */
  lemma CacheServedAfter110Ms(c: MonitoringCache)
    ensures c.Lookup(c.cachedAt + 110) == Some(c.data)
  {
  }
}

/**
 * The device tree as the populators see it: devices keyed by name, looked up
 * by name and added one at a time. A name is never bound twice and an added
 * device is never replaced.
 */
module DeviceTree {
  import opened Wrappers
  import opened Values

  type Tree = map<string, Device>

  /** `get_device_by_name`: the device of that name, if the tree holds one. */
  function GetDeviceByName(t: Tree, name: string): (d: Option<Device>)
    ensures d.Some? <==> name in t
    ensures d.Some? ==> d.value == t[name]
  {
    if name in t then Some(t[name]) else None
  }

  /** `_add_device`: adds `d` under its name, or refuses (None) when the name
      is already taken; no existing entry is ever overwritten. */
  function AddDevice(t: Tree, d: Device): (r: Option<Tree>)
    ensures r.Some? <==> d.name !in t
    ensures r.Some? ==> r.value.Keys == t.Keys + {d.name} && r.value[d.name] == d
    ensures r.Some? ==> forall n :: n in t ==> r.value[n] == t[n]
  {
    if d.name in t then None else Some(t[d.name := d])
  }

  /** Every device of `t` is still in `t'`, unchanged. */
  ghost predicate Keeps(t: Tree, t': Tree) {
    forall n :: n in t ==> n in t' && t'[n] == t[n]
  }
}

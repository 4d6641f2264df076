# Disk populators of blivet, in Dafny

blivet builds its device tree from udev records. For each record it consults
a list of populators, and the first whose `match` accepts the record builds
the device. This project models the disk populators in
`blivet/populator/helpers/disk.py`. There are six of them: plain disk,
iSCSI, FCoE, MD BIOS-RAID member, DASD and zFCP. For each one the model
covers three things:

- its class-level `priority`;
- its `match` predicate over the udev record;
- its `_get_kwargs` builder, which produces the keyword arguments for the
  device constructor.

It also models `DiskDevicePopulator.run`, which builds the device under the
record's name and adds it to the device tree.

Modules:

- `Wrappers` holds `Option`, which stands for Python's `None` or a value.
- `Values` holds the keyword names, the Python values a keyword dictionary
  holds, devices and device classes.
- `Udev` holds the udev record. It has one field per udev accessor the
  populators call.
- `Iscsi` holds the state of the iSCSI module singleton that the populators
  read.
- `DeviceTree` holds the device tree as a name-keyed map, its lookup and its
  insertion.
- `DiskPopulator` holds the populators and `run`.
- `DiskProperties` holds the lemmas that relate several calls.

Each keyword dictionary is a `map<Key, Value>`. `Key` is an enumeration of
the keyword names the populators use; its documentation lists the Python
spelling of each one. The collaborators the builders call are parameters
(fields of `DiskPopulator.Env`), so every property holds whatever they
return:

- sysfs attribute reads;
- `device_path_to_name`;
- `blockdev.md.node_from_name`;
- `udev.get_device`;
- the tree's `handle_device`.

## Model

| member | source | states |
|---|---|---|
| DiskProperties.MatchRefinesDisk | blivet/populator/helpers/disk.py:76-84 | Each specialised `match` is the plain-disk `match` plus one more test, so whatever a specialised populator accepts is a disk. Every specialised populator has priority 20 and the plain-disk one has 10, so the specialised ones are consulted first. FCoE, MD, DASD and zFCP follow the same pattern at lines 119-122, 137-140, 182-185 and 203-206. |
| DiskProperties.MatchTests | blivet/populator/helpers/disk.py:79-84 | The test of each `match` in terms of the udev record, proved for all six populators. Plain disk: the record is a disk. iSCSI: a disk, an iSCSI device, a host initiator that is set (not the empty string, which Python treats as false), and a record initiator equal to it. FCoE, DASD and zFCP: a disk with their own udev flag. MD: a disk whose container path is neither None nor empty (both are false in Python, lines 139-140). |
| DiskPopulator.Matches | blivet/populator/helpers/disk.py:44-46 | The class method `match` of each populator, dispatched to the six predicates below. MatchTests states what each one tests, and MatchRefinesDisk states that each refines the plain-disk match. |
| DiskPopulator.DiskMatch | blivet/populator/helpers/disk.py:44-46 | `udev.device_is_disk(data)`: the record is a disk. Its meaning is stated by MatchTests. |
| DiskPopulator.IscsiMatch | blivet/populator/helpers/disk.py:79-84 | The disk match, plus an iSCSI device, a non-empty host initiator, and a record initiator equal to the host's. Its meaning is stated by MatchTests. |
| DiskPopulator.FcoeMatch | blivet/populator/helpers/disk.py:119-122 | The disk match plus `device_is_fcoe`. Its meaning is stated by MatchTests. |
| DiskPopulator.MdMatch | blivet/populator/helpers/disk.py:137-140 | The disk match plus a truthy container path. Its meaning is stated by MatchTests. |
| DiskPopulator.DasdMatch | blivet/populator/helpers/disk.py:182-185 | The disk match plus `device_is_dasd`. Its meaning is stated by MatchTests. |
| DiskPopulator.ZfcpMatch | blivet/populator/helpers/disk.py:203-206 | The disk match plus `device_is_zfcp`. Its meaning is stated by MatchTests. |
| Udev.IsNonEmpty | blivet/populator/helpers/disk.py:140 | Python's truthiness of an optional string: a string that is present and not empty. |
| DiskPopulator.Priority | blivet/populator/helpers/disk.py:41 | The plain-disk populator has priority 10 and every other one 20 (lines 76, 115, 133, 178 and 199). |
| DiskPopulator.DeviceClassOf | blivet/populator/helpers/disk.py:42 | Only the plain-disk populator builds a `DiskDevice`, which is the test at line 58 that adds major and minor. The other classes are set at lines 77, 117, 135, 180 and 201. |
| DiskProperties.DeviceClassesDistinct | blivet/populator/helpers/disk.py:42-201 | Two populators build the same device class exactly when they are the same populator. |
| DiskPopulator.ResolvesNode | blivet/populator/helpers/disk.py:96 | The branch test of the iSCSI builder: the record's initiator equals the host initiator. |
| DiskPopulator.ContainerName | blivet/populator/helpers/disk.py:144-145 | The container's device name is `device_path_to_name` of the record's container path. |
| DiskPopulator.ContainerSysfsPath | blivet/populator/helpers/disk.py:150-151 | The path udev is asked about is `/sys/class/block/` followed by the md node name of the container. |
| DiskPopulator.AssignEach | blivet/populator/helpers/disk.py:191-192 | The attribute loop of the DASD builder (and of the zFCP builder at lines 211-212) as a fold over the attribute list. Its meaning is stated by AssignEachSpec. |
| DiskPopulator.BaseKwargs | blivet/populator/helpers/disk.py:48-63 | The keys are exactly sysfs_path, serial, vendor, model and bus, plus major and minor exactly when the class built is a plain `DiskDevice`. Vendor and model are the sysfs attributes `device/vendor` and `device/model` read under the record's sysfs path. The other values come from the record. |
| DiskPopulator.IscsiNodeKwargs | blivet/populator/helpers/disk.py:95-100 | A managed session adds exactly initiator, node, ibft and nic to the five base entries and keeps those entries. ibft says whether the node is one of the iBFT nodes, and nic is the node's interface mapped through `ifaces`. No firmware key is present. |
| DiskPopulator.IscsiOffloadKwargs | blivet/populator/helpers/disk.py:101-108 | A qla4xxx partial-offload session adds exactly initiator, node=None, ibft=False, the offload NIC string, and fw_address, fw_port and fw_name taken from the record's address, port and name. The base entries are kept. |
| DiskPopulator.IscsiKwargs | blivet/populator/helpers/disk.py:86-111 | The builder keeps the base entries and sets initiator to the record's initiator. The node is a real node exactly when the record's initiator equals the host initiator. In that branch the keys are the base keys plus exactly initiator, node, ibft and nic; node is `get_node` of the record's target, address, port and NIC; ibft says whether that node is an iBFT node; nic is its interface mapped through `ifaces`. Otherwise the keys also include fw_address, fw_port and fw_name; node is None, ibft is False, nic is the offload string, and the firmware fields are the record's address, port and name. |
| Iscsi.NicOf | blivet/populator/helpers/disk.py:100 | The NIC is the `ifaces` entry for the node's interface when there is one, and the interface name otherwise. |
| DiskPopulator.FcoeKwargs | blivet/populator/helpers/disk.py:124-129 | The keys are the base keys plus exactly nic and identifier, holding the record's FCoE NIC and identifier. |
| DiskPopulator.AssignEachSpec | blivet/populator/helpers/disk.py:191-192 | After the attribute loop, every listed key holds its looked-up value, every other key is untouched, and the key set grows by exactly the listed keys. The proof is by induction over the list. |
| DiskPopulator.DasdOpts | blivet/populator/helpers/disk.py:190-192 | The `opts` dictionary starts empty and ends holding exactly readonly, use_diag, erplog and failfast, each with the record's DASD flag of that name. |
| DiskPopulator.DasdKwargs | blivet/populator/helpers/disk.py:187-195 | The keys are the base keys plus exactly busid and opts. busid is the record's DASD bus id. opts is a dictionary holding exactly the flags readonly, use_diag, erplog and failfast, each with the record's value. |
| DiskPopulator.ZfcpKwargs | blivet/populator/helpers/disk.py:208-215 | The keys are the base keys plus exactly hba_id, wwpn and fcp_lun. Each of these holds the record's zFCP attribute of that name. |
| DiskPopulator.Del | blivet/populator/helpers/disk.py:170-173 | `del` removes exactly the named keys and keeps every other entry. Its precondition, every key present, rules out the KeyError and is discharged at the MD builder's call. |
| DiskPopulator.MdExtend | blivet/populator/helpers/disk.py:164-173 | The keys are exactly sysfs_path, parents, level, member_devices, uuid and exists. parents is the one-element list holding the container, exists is True, and level, member_devices and uuid come from the record. The base sysfs path is kept. |
| DiskProperties.MdExtendInSourceOrder | blivet/populator/helpers/disk.py:164-173 | Deleting the four identity keys first, as MdExtend does, gives the same dictionary as the source's order (add, then delete). |
| DiskPopulator.MdKwargs | blivet/populator/helpers/disk.py:142-174 | The builder succeeds exactly when the container is in the tree it leaves behind. A container already present leaves the tree unchanged. Otherwise the tree is either unchanged or exactly what `handle_device` made of the container's udev record. On success the keys are the MD keys, parents is the container found in that tree, sysfs_path is the record's, level, member_devices and uuid are the record's MD values, and exists is True. |
| DiskProperties.MdContainerInTree | blivet/populator/helpers/disk.py:144-146 | A container already in the tree is used as is: the result does not depend on `udev.get_device` or `handle_device`, and the tree is unchanged. |
| DiskProperties.MdContainerUnknown | blivet/populator/helpers/disk.py:149-156 | A container that is neither in the tree nor known to udev makes the builder give up with the tree unchanged, whatever `handle_device` would do. |
| DiskProperties.MdContainerScanned | blivet/populator/helpers/disk.py:158-162 | A container known only to udev is scanned with `handle_device`. The builder then succeeds exactly when the scan put the container in the tree, and the member is parented on that device. |
| DiskProperties.MdDropsDiskIdentity | blivet/populator/helpers/disk.py:169-173 | A successful MD builder holds none of model, serial, vendor or bus, and keeps the base sysfs path. |
| DiskPopulator.GetKwargs | blivet/populator/helpers/disk.py:69 | Each populator gets its own builder's result: the plain-disk, iSCSI, FCoE, DASD and zFCP maps for those populators, and the MD builder's result (kwargs and tree) for an MD member. Only the MD builder can fail or change the device tree. |
| DiskProperties.KwargsHaveBuiltKeys | blivet/populator/helpers/disk.py:48-215 | Whatever the dispatched builder returns has exactly the key set disk.py builds for that populator, written out as a literal per device class (BuiltKeys). For iSCSI, the node-resolution branch picks the set. |
| DiskProperties.IscsiKeepsBase | blivet/populator/helpers/disk.py:88 | Every entry of the plain-disk builder survives unchanged in the iSCSI builder's result. |
| DiskProperties.FcoeKeepsBase | blivet/populator/helpers/disk.py:125 | Every base entry survives unchanged in the FCoE builder's result. |
| DiskProperties.DasdKeepsBase | blivet/populator/helpers/disk.py:188 | Every base entry survives unchanged in the DASD builder's result. |
| DiskProperties.ZfcpKeepsBase | blivet/populator/helpers/disk.py:209 | Every base entry survives unchanged in the zFCP builder's result. |
| DiskProperties.IscsiMatchResolvesNode | blivet/populator/helpers/disk.py:80-84 | A record the iSCSI `match` accepts always takes the node branch of the builder. The node is resolved, no firmware key is present, and the initiator is the host's. |
| DeviceTree.GetDeviceByName | blivet/populator/helpers/disk.py:146 | A lookup finds a device exactly when the name is in the tree, and then finds the one stored under it. |
| DeviceTree.AddDevice | blivet/populator/helpers/disk.py:71 | Adding succeeds exactly when the name is new. It then stores the device under its name and keeps every other device. |
| DiskPopulator.Run | blivet/populator/helpers/disk.py:65-72 | A device is added exactly when the builder returned keyword arguments and the record's name is not in the tree the builder left. The added device is the populator's class under the record's name, holding exactly the builder's kwargs, and the tree is the builder's tree with it inserted. A builder that gave up makes the run report the member as unresolved, with the builder's tree. A name already taken is a duplicate-name failure. RunOutsideMd and RunNeverRaises state its consequences for the non-MD populators and for the TypeError. |
| DiskPopulator.RunAsWritten | blivet/populator/helpers/disk.py:65-72 | The run as written ends in the `**None` TypeError exactly when the builder returned None, with the tree as the builder left it. Otherwise it adds the device, built from the builder's kwargs under the record's name, exactly when the name is new, and reports a duplicate name when it is not. |
| DiskProperties.RunNeverRaises | blivet/populator/helpers/disk.py:65-72 | The corrected run never ends in the `**None` TypeError. A device it adds is stored in the resulting tree under the record's name, with the populator's class. |
| DiskProperties.RunOutsideMd | blivet/populator/helpers/disk.py:65-72 | For the non-MD populators, the device is added exactly when its name is new, and it is added to the tree the run was given. Otherwise the run fails with a duplicate name and the tree is unchanged. |
| DiskProperties.RunKeepsTree | blivet/populator/helpers/disk.py:65-72 | If `handle_device` never drops or replaces a device, a run never does either. A failed run leaves the tree exactly as the builder left it. |
| DiskProperties.MdMemberWithScannedContainer | blivet/populator/helpers/disk.py:142-174 | An MD member whose container the scan adds leaves exactly two new devices, the container and the member, and the member's parents list holds that container. |
| DiskProperties.RunAgreesWithAsWritten | blivet/populator/helpers/disk.py:65-72 | Whenever the builder returns keyword arguments, the corrected run and the run as written give the same result. |
| DiskProperties.MissingContainerRaisesTypeError | blivet/populator/helpers/disk.py:153-156 | A container unknown to both the tree and udev makes the run as written fail with the TypeError. The corrected run reports the member as unresolved, with the tree unchanged. |
| DiskProperties.ScanMissesContainer | blivet/populator/helpers/disk.py:158-162 | udev knows the container, but the scan does not put it in the tree. The run as written raises the TypeError and the corrected run reports the member as unresolved. Both keep the tree the scan left. |
| DiskProperties.PlainDiskExample | blivet/populator/helpers/disk.py:48-72 | The SCSI disk `sda` (8:0) becomes a plain DiskDevice named `sda` with the base keys and major 8, minor 0. |
| DiskProperties.DasdExample | blivet/populator/helpers/disk.py:187-195 | A DASD with only use_diag set gets busid `0.0.0200` and opts with exactly those four flags. |
| Values.FromOptional | blivet/populator/helpers/disk.py:95 | A udev value that is missing becomes Python's None, and a present one is stored as the string. |

## Left out

- Logging (`log.info`, `log.error`, `log_method_call`) has no effect on the results and is not modelled.
- The udev accessors, sysfs reads, `device_path_to_name`, `blockdev.md.node_from_name` and `udev.get_device` are not modelled. They are parameters (fields of `UdevInfo` and `Env`), so every property holds for any values they return.
- `DeviceTree.handle_device` is an abstract parameter, so the recursive population of the MD container is not modelled. RunKeepsTree assumes only that it never drops or replaces a device.
- The device constructors are not modelled. A device is its class, its name and its keyword dictionary, so constructor-side validation is out of scope.
- `DeviceTree._add_device` is not part of this model. It is modelled as an insertion that refuses a name already in the tree.
- `iscsi.get_node` is a total function of the target, address, port and NIC. If it returned None, the iSCSI builder itself would fail: reading `node.iface` at disk.py:100 raises AttributeError. That case is not modelled, because the node lookup is in the iSCSI module, which is not part of this model.
- `iscsi.initiator` is a string, with the empty string meaning "not set" (Python's falsy value). A record's initiator is `Option<string>`, because udev may have none.
- DiskPopulator.MdKwargs, DiskPopulator.GetKwargs and DiskPopulator.Run require the MD record to name a container. The MD builder is reached only after `match` accepted the record, which needs a non-empty container path, and what `device_path_to_name(None)` would do is not part of this model.
- The dispatch loop that tries the populators in priority order, and the `DevicePopulator` base class, are outside this file. MatchRefinesDisk states the property of the priorities that the loop relies on.
- The udev helpers for DASD flags and zFCP attributes always return a value in this model, and no missing-attribute failure is modelled. The builders in disk.py have no failure path for them.
- Keyword names are an enumeration rather than strings, one constructor per distinct Python key, so two keys are equal exactly when their spellings are.
- DiskPopulator.MdExtend deletes the four identity keys before adding the MD keys, where the source adds first. DiskProperties.MdExtendInSourceOrder proves the two orders give equal dictionaries.

## Findings

| source | as written | input that shows it | evidently intended | confidence | as-written member | corrected member |
|---|---|---|---|---|---|---|
| blivet/populator/helpers/disk.py:153-156 | When the MD container cannot be found (here, and likewise at lines 160-162 after a scan that does not add it), `_get_kwargs` logs an error and returns None. `run` then evaluates `self._device_class(name, **kwargs)` with kwargs None, which raises TypeError instead of reporting the missing container. | An MD member record whose container is not in the tree and whose `/sys/class/block/<node>` record udev does not know. | The member is reported as unresolved and not added, and the tree is left as the builder left it. | medium, not executed | DiskPopulator.RunAsWritten | DiskPopulator.Run |

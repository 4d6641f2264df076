/**
 * Properties of the disk populators that relate several calls: the match
 * predicates refine the plain-disk one, each builder keeps the plain-disk
 * entries and fits the keyword set of its device class, the iSCSI match
 * decides the builder's branch, the four outcomes of the MD container
 * lookup, and what a run does to the device tree.
 */
module DiskProperties {
  import opened Wrappers
  import opened Values
  import opened Udev
  import opened Iscsi
  import opened DeviceTree
  import opened DiskPopulator

  // ----- matching and priority -----

  /** Every specialised match is the plain-disk match and one more test, and
      every specialised populator outranks the plain-disk one, so a record a
      specialised populator accepts is never left to the generic one. */
  lemma MatchRefinesDisk(p: Populator, r: UdevInfo, s: IscsiState)
    ensures Matches(p, r, s) ==> Matches(Disk, r, s)
    ensures !p.Disk? ==> Priority(p) == 20 && Priority(Disk) == 10 && Priority(Disk) < Priority(p)
  {
  }

  /** The test each `match` makes, in terms of the udev record and the
      host initiator, with Python's truthiness written out: the host
      initiator must not be empty, and the MD container path must be neither
      None nor empty. */
  lemma MatchTests(r: UdevInfo, s: IscsiState)
    ensures Matches(Disk, r, s) <==> r.isDisk
    ensures Matches(IScsi, r, s)
      <==> r.isDisk && r.isIscsi && s.initiator != "" && r.iscsiInitiator == Some(s.initiator)
    ensures Matches(Fcoe, r, s) <==> r.isDisk && r.isFcoe
    ensures Matches(MdBiosRaid, r, s) <==> r.isDisk && r.mdContainer != None && r.mdContainer != Some("")
    ensures Matches(Dasd, r, s) <==> r.isDisk && r.isDasd
    ensures Matches(Zfcp, r, s) <==> r.isDisk && r.isZfcp
  {
  }

  /** Each populator builds its own device class: no two share one. */
  lemma DeviceClassesDistinct(p: Populator, q: Populator)
    ensures DeviceClassOf(p) == DeviceClassOf(q) <==> p == q
  {
  }

  // ----- keyword arguments -----

  /** The keyword names disk.py builds for each device class, written out
      literally per class; a partial-offload iSCSI disk also gets the
      firmware fields. */
  function BuiltKeys(c: DeviceClass, offload: bool): set<Key> {
    match c
    case DiskDevice => {SysfsPath, Serial, Vendor, Model, Bus, Major, Minor}
    case IScsiDiskDevice =>
      if offload then {SysfsPath, Serial, Vendor, Model, Bus, Initiator, Node, Ibft, Nic, FwAddress, FwPort, FwName}
      else {SysfsPath, Serial, Vendor, Model, Bus, Initiator, Node, Ibft, Nic}
    case FcoeDiskDevice => {SysfsPath, Serial, Vendor, Model, Bus, Nic, Identifier}
    case MdBiosRaidArrayDevice => {SysfsPath, Parents, Level, MemberDevices, Uuid, Exists}
    case DasdDevice => {SysfsPath, Serial, Vendor, Model, Bus, BusId, Opts}
    case ZfcpDiskDevice => {SysfsPath, Serial, Vendor, Model, Bus, HbaId, Wwpn, FcpLun}
  }

  /** Whatever the dispatched builder returns has exactly the keyword set
      listed for its device class: nothing missing, nothing extra. */
  lemma KwargsHaveBuiltKeys(p: Populator, r: UdevInfo, env: Env, tree: Tree)
    requires p.MdBiosRaid? ==> r.mdContainer.Some?
    ensures var b := GetKwargs(p, r, env, tree);
      b.kwargs.Some? ==>
        b.kwargs.value.Keys == BuiltKeys(DeviceClassOf(p), p.IScsi? && !ResolvesNode(r, env.iscsi))
  {
    match p
    case Disk => DiskFits(r, env);
    case IScsi => IscsiFits(r, env);
    case Fcoe => FcoeFits(r, env);
    case MdBiosRaid => MdFits(r, env, tree);
    case Dasd => DasdFits(r, env);
    case Zfcp => ZfcpFits(r, env);
  }

  // One lemma per builder below, so each key-set equality is proved on its own.

  lemma DiskFits(r: UdevInfo, env: Env)
    ensures BaseKwargs(Disk, r, env).Keys == BuiltKeys(DiskDevice, false)
  {
  }

  lemma IscsiFits(r: UdevInfo, env: Env)
    ensures IscsiKwargs(r, env).Keys == BuiltKeys(IScsiDiskDevice, !ResolvesNode(r, env.iscsi))
  {
  }

  lemma FcoeFits(r: UdevInfo, env: Env)
    ensures FcoeKwargs(r, env).Keys == BuiltKeys(FcoeDiskDevice, false)
  {
  }

  lemma MdFits(r: UdevInfo, env: Env, tree: Tree)
    requires r.mdContainer.Some?
    ensures var b := MdKwargs(r, env, tree);
      b.kwargs.Some? ==> b.kwargs.value.Keys == BuiltKeys(MdBiosRaidArrayDevice, false)
  {
  }

  lemma DasdFits(r: UdevInfo, env: Env)
    ensures DasdKwargs(r, env).Keys == BuiltKeys(DasdDevice, false)
  {
  }

  lemma ZfcpFits(r: UdevInfo, env: Env)
    ensures ZfcpKwargs(r, env).Keys == BuiltKeys(ZfcpDiskDevice, false)
  {
  }

  /** For the plain-disk entries of a specialised builder, keeping the five
      base entries is keeping them all. */
  lemma KeepsBaseEntriesExtend(base: Kwargs, kw: Kwargs)
    requires base.Keys == BaseKeys && KeepsBaseEntries(base, kw)
    ensures Extends(base, kw)
  {
    forall k | k in base
      ensures k in kw && kw[k] == base[k]
    {
      assert k in BaseKeys;
    }
  }

  /** The iSCSI builder only adds keys: every entry of the plain-disk builder
      survives with its value. */
  lemma IscsiKeepsBase(r: UdevInfo, env: Env)
    ensures Extends(BaseKwargs(IScsi, r, env), IscsiKwargs(r, env))
  {
    KeepsBaseEntriesExtend(BaseKwargs(IScsi, r, env), IscsiKwargs(r, env));
  }

  /** The FCoE builder only adds `nic` and `identifier`. */
  lemma FcoeKeepsBase(r: UdevInfo, env: Env)
    ensures Extends(BaseKwargs(Fcoe, r, env), FcoeKwargs(r, env))
  {
  }

  /** The DASD builder only adds `busid` and `opts`. */
  lemma DasdKeepsBase(r: UdevInfo, env: Env)
    ensures Extends(BaseKwargs(Dasd, r, env), DasdKwargs(r, env))
  {
  }

  /** The zFCP builder only adds `hba_id`, `wwpn` and `fcp_lun`. */
  lemma ZfcpKeepsBase(r: UdevInfo, env: Env)
    ensures Extends(BaseKwargs(Zfcp, r, env), ZfcpKwargs(r, env))
  {
  }

  /** The MD builder keeps the sysfs path and drops the disk identity keys
      the plain-disk builder always inserts. */
  lemma MdDropsDiskIdentity(r: UdevInfo, env: Env, tree: Tree)
    requires r.mdContainer.Some?
    ensures var b := MdKwargs(r, env, tree);
      b.kwargs.Some? ==>
        && Model !in b.kwargs.value && Serial !in b.kwargs.value
        && Vendor !in b.kwargs.value && Bus !in b.kwargs.value
        && b.kwargs.value[SysfsPath] == BaseKwargs(MdBiosRaid, r, env)[SysfsPath]
  {
  }

  /** When the iSCSI match accepts a record against the host initiator, the
      builder resolves the node: the offload branch is never taken. */
  lemma IscsiMatchResolvesNode(r: UdevInfo, env: Env)
    requires IscsiMatch(r, env.iscsi)
    ensures IscsiKwargs(r, env)[Node].NodeRef?
    ensures FwAddress !in IscsiKwargs(r, env) && FwPort !in IscsiKwargs(r, env) && FwName !in IscsiKwargs(r, env)
    ensures IscsiKwargs(r, env)[Initiator] == Str(env.iscsi.initiator)
  {
  }

  /** The MD builder deletes the four disk identity keys after adding its
      own, where MdExtend deletes them first: the two orders agree, since no
      key is both added and deleted, and every deletion finds its key. */
  lemma MdExtendInSourceOrder(base: Kwargs, container: Device, r: UdevInfo)
    requires base.Keys == BaseKeys
    ensures DiskIdentityKeys <= base.Keys
    ensures MdExtend(base, container, r)
      == base[Parents := DeviceList([container])][Level := r.mdLevel]
             [MemberDevices := r.mdDevices][Uuid := r.mdUuid][Exists := Bool(true)] - DiskIdentityKeys
  {
  }

  // ----- MD container resolution -----

  /** A container already in the tree is used as is: neither udev nor
      handle_device is consulted, whatever they would do. */
  lemma MdContainerInTree(r: UdevInfo, env: Env, tree: Tree,
                          getDevice: string -> Option<UdevInfo>, handleDevice: (UdevInfo, Tree) -> Tree)
    requires r.mdContainer.Some? && ContainerName(r, env) in tree
    ensures MdKwargs(r, env, tree) == MdKwargs(r, env.(getDevice := getDevice, handleDevice := handleDevice), tree)
    ensures MdKwargs(r, env, tree).tree == tree
    ensures MdKwargs(r, env, tree).kwargs.Some?
    ensures MdKwargs(r, env, tree).kwargs.value[Parents] == DeviceList([tree[ContainerName(r, env)]])
  {
  }

  /** A container neither in the tree nor known to udev: the builder gives
      up without scanning anything. */
  lemma MdContainerUnknown(r: UdevInfo, env: Env, tree: Tree, handleDevice: (UdevInfo, Tree) -> Tree)
    requires r.mdContainer.Some? && ContainerName(r, env) !in tree
    requires env.getDevice(ContainerSysfsPath(r, env)).None?
    ensures MdKwargs(r, env, tree) == Built(None, tree)
    ensures MdKwargs(r, env.(handleDevice := handleDevice), tree) == Built(None, tree)
  {
  }

  /** A container known to udev but not in the tree is scanned with
      handle_device; the builder succeeds exactly when the scan put the
      container in the tree, and parents the member on that device. */
  lemma MdContainerScanned(r: UdevInfo, env: Env, tree: Tree, info: UdevInfo)
    requires r.mdContainer.Some? && ContainerName(r, env) !in tree
    requires env.getDevice(ContainerSysfsPath(r, env)) == Some(info)
    ensures var b := MdKwargs(r, env, tree);
      && b.tree == env.handleDevice(info, tree)
      && (b.kwargs.Some? <==> ContainerName(r, env) in b.tree)
      && (b.kwargs.Some? ==> b.kwargs.value[Parents] == DeviceList([b.tree[ContainerName(r, env)]]))
  {
  }

  // ----- run -----

  /** The corrected run never ends in the `**None` TypeError, and a device
      it adds is stored under the record's name with the populator's class. */
  lemma RunNeverRaises(p: Populator, r: UdevInfo, env: Env, tree: Tree)
    requires p.MdBiosRaid? ==> r.mdContainer.Some?
    ensures var res := Run(p, r, env, tree);
      && (res.Failed? ==> res.error != KwargsNotAMapping)
      && (res.Added? ==> res.device.name == r.name && res.device.cls == DeviceClassOf(p)
                         && r.name in res.tree && res.tree[r.name] == res.device)
  {
  }

  /** Outside the MD populator a run adds the device exactly when its name is
      new, to the tree it was given, and otherwise fails with a duplicate
      name and the tree unchanged. */
  lemma RunOutsideMd(p: Populator, r: UdevInfo, env: Env, tree: Tree)
    requires !p.MdBiosRaid?
    ensures var res := Run(p, r, env, tree);
      && (res.Added? <==> r.name !in tree)
      && (res.Added? ==> res.tree == tree[r.name := res.device])
      && (res.Failed? ==> res == Failed(DuplicateName(r.name), tree))
  {
  }

  /** handle_device only adds devices: it never drops or replaces one. */
  ghost predicate HandleDeviceKeeps(env: Env) {
    forall info, t :: Keeps(t, env.handleDevice(info, t))
  }

  /** A run never removes or replaces a device already in the tree, and a
      failed run adds nothing beyond what the container scan added. */
  lemma RunKeepsTree(p: Populator, r: UdevInfo, env: Env, tree: Tree)
    requires p.MdBiosRaid? ==> r.mdContainer.Some?
    requires HandleDeviceKeeps(env)
    ensures Keeps(tree, Run(p, r, env, tree).tree)
    ensures Run(p, r, env, tree).Failed? ==> Run(p, r, env, tree).tree == GetKwargs(p, r, env, tree).tree
  {
    var b := GetKwargs(p, r, env, tree);
    assert Keeps(tree, b.tree);
  }

  /** An MD member whose container udev knows and handle_device adds: the
      run leaves exactly two new devices, the container and then the member,
      and the member's parent is the container that was added. */
  lemma MdMemberWithScannedContainer(r: UdevInfo, env: Env, tree: Tree, info: UdevInfo, container: Device)
    requires r.mdContainer.Some?
    requires ContainerName(r, env) !in tree && r.name !in tree && r.name != ContainerName(r, env)
    requires env.getDevice(ContainerSysfsPath(r, env)) == Some(info)
    requires env.handleDevice(info, tree) == tree[ContainerName(r, env) := container]
    ensures var res := Run(MdBiosRaid, r, env, tree);
      && res.Added?
      && res.tree.Keys == tree.Keys + {ContainerName(r, env), r.name}
      && res.tree[ContainerName(r, env)] == container
      && res.device.kwargs[Parents] == DeviceList([container])
  {
  }

  /** Whenever the builder produced keyword arguments, the corrected run and
      the run as written agree. */
  lemma RunAgreesWithAsWritten(p: Populator, r: UdevInfo, env: Env, tree: Tree)
    requires p.MdBiosRaid? ==> r.mdContainer.Some?
    requires GetKwargs(p, r, env, tree).kwargs.Some?
    ensures Run(p, r, env, tree) == RunAsWritten(p, r, env, tree)
  {
  }

  /** The discrepancy in the run as written: an MD member whose container is
      neither in the tree nor known to udev makes the builder log and return
      None, and `**None` then raises TypeError; the corrected run reports
      the member as unresolved and leaves the tree as it was. */
  lemma MissingContainerRaisesTypeError(r: UdevInfo, env: Env, tree: Tree)
    requires r.mdContainer.Some? && ContainerName(r, env) !in tree
    requires env.getDevice(ContainerSysfsPath(r, env)).None?
    ensures RunAsWritten(MdBiosRaid, r, env, tree) == Failed(KwargsNotAMapping, tree)
    ensures Run(MdBiosRaid, r, env, tree) == Failed(UnresolvedContainer(r.name), tree)
  {
  }

  /** The other way the MD builder gives up: udev knows the container, but
      handle_device does not put it in the tree. The run as written raises
      the TypeError; the corrected run reports the member as unresolved, and
      both leave the tree as the scan left it. */
  lemma ScanMissesContainer(r: UdevInfo, env: Env, tree: Tree, info: UdevInfo)
    requires r.mdContainer.Some? && ContainerName(r, env) !in tree
    requires env.getDevice(ContainerSysfsPath(r, env)) == Some(info)
    requires ContainerName(r, env) !in env.handleDevice(info, tree)
    ensures RunAsWritten(MdBiosRaid, r, env, tree) == Failed(KwargsNotAMapping, env.handleDevice(info, tree))
    ensures Run(MdBiosRaid, r, env, tree) == Failed(UnresolvedContainer(r.name), env.handleDevice(info, tree))
  {
  }

  // ----- worked examples -----

  /** A SCSI disk `sda` (8:0) becomes a plain DiskDevice under `sda` with
      exactly the base keys plus its major and minor numbers. */
  lemma PlainDiskExample(r: UdevInfo, env: Env, tree: Tree)
    requires r.name == "sda" && r.isDisk && r.bus == Str("scsi") && r.major == 8 && r.minor == 0
    requires "sda" !in tree
    ensures Matches(Disk, r, env.iscsi)
    ensures var res := Run(Disk, r, env, tree);
      && res.Added?
      && res.tree == tree["sda" := res.device]
      && res.device.cls == DiskDevice
      && res.device.kwargs.Keys == {SysfsPath, Serial, Vendor, Model, Bus, Major, Minor}
      && res.device.kwargs[Bus] == Str("scsi")
      && res.device.kwargs[Major] == Int(8) && res.device.kwargs[Minor] == Int(0)
  {
  }

  /** A DASD with bus id 0.0.0200 and only `use_diag` set gets exactly those
      four flags as its `opts`. */
  lemma DasdExample(r: UdevInfo, env: Env)
    requires r.isDisk && r.isDasd && r.dasdBusId == Str("0.0.0200")
    requires r.dasdFlag(Readonly) == Bool(false) && r.dasdFlag(UseDiag) == Bool(true)
    requires r.dasdFlag(Erplog) == Bool(false) && r.dasdFlag(Failfast) == Bool(false)
    ensures Matches(Dasd, r, env.iscsi)
    ensures DasdKwargs(r, env)[BusId] == Str("0.0.0200")
    ensures DasdKwargs(r, env)[Opts]
      == Dict(map[Readonly := Bool(false), UseDiag := Bool(true), Erplog := Bool(false), Failfast := Bool(false)])
  {
    var opts := DasdKwargs(r, env)[Opts].entries;
    assert opts == map[Readonly := Bool(false), UseDiag := Bool(true), Erplog := Bool(false), Failfast := Bool(false)];
  }
}

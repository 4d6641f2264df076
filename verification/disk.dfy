/**
 * The disk populators of blivet's populator: one per kind of disk (plain,
 * iSCSI, FCoE, MD BIOS-RAID member, DASD, zFCP). Each has a priority, a
 * match predicate over a udev record, and a keyword-argument builder that
 * extends the plain-disk builder; `Run` builds the device and adds it to the
 * device tree.
 */
module DiskPopulator {
  import opened Wrappers
  import opened Values
  import opened Udev
  import opened Iscsi
  import opened DeviceTree

  datatype Populator = Disk | IScsi | Fcoe | MdBiosRaid | Dasd | Zfcp

  /** The class-level `priority`: the generic disk populator is consulted
      after every specialised one. */
  function Priority(p: Populator): (n: int)
    ensures n == 10 <==> p.Disk?
    ensures !p.Disk? ==> n == 20
  {
    if p.Disk? then 10 else 20
  }

  /** The class-level `_device_class`. */
  function DeviceClassOf(p: Populator): (c: DeviceClass)
    ensures c == DiskDevice <==> p.Disk?
  {
    match p
    case Disk => DiskDevice
    case IScsi => IScsiDiskDevice
    case Fcoe => FcoeDiskDevice
    case MdBiosRaid => MdBiosRaidArrayDevice
    case Dasd => DasdDevice
    case Zfcp => ZfcpDiskDevice
  }

  /** The collaborators the builders call and this model does not look into. */
  datatype Env = Env(
    sysfsAttr: (string, string) -> Value,   // util.get_sysfs_attr(path, attr)
    pathToName: string -> string,           // device_path_to_name
    mdNodeFromName: string -> string,       // blockdev.md.node_from_name
    getDevice: string -> Option<UdevInfo>,  // udev.get_device(sysfs_path)
    handleDevice: (UdevInfo, Tree) -> Tree, // the device tree's handle_device
    iscsi: IscsiState)                      // the iSCSI module singleton

  // ----- match predicates -----

  predicate DiskMatch(r: UdevInfo) {
    r.isDisk
  }

  /** `iscsi.initiator` must be truthy (set, non-empty) and equal to the
      record's initiator. */
  predicate IscsiMatch(r: UdevInfo, s: IscsiState) {
    DiskMatch(r) && r.isIscsi && s.initiator != "" && r.iscsiInitiator == Some(s.initiator)
  }

  predicate FcoeMatch(r: UdevInfo) {
    DiskMatch(r) && r.isFcoe
  }

  /** The container path must be truthy: neither None nor empty. */
  predicate MdMatch(r: UdevInfo) {
    DiskMatch(r) && IsNonEmpty(r.mdContainer)
  }

  predicate DasdMatch(r: UdevInfo) {
    DiskMatch(r) && r.isDasd
  }

  predicate ZfcpMatch(r: UdevInfo) {
    DiskMatch(r) && r.isZfcp
  }

  /** The `match` class method of populator `p`. */
  predicate Matches(p: Populator, r: UdevInfo, s: IscsiState) {
    match p
    case Disk => DiskMatch(r)
    case IScsi => IscsiMatch(r, s)
    case Fcoe => FcoeMatch(r)
    case MdBiosRaid => MdMatch(r)
    case Dasd => DasdMatch(r)
    case Zfcp => ZfcpMatch(r)
  }

  // ----- keyword-argument builders -----

  /** The keys every disk builder starts from. */
  const BaseKeys: set<Key> := {SysfsPath, Serial, Vendor, Model, Bus}

  /** The loop `for attr in attrs: m[attr] = lookup(attr)` of the DASD and
      zFCP builders. Its meaning is stated by AssignEachSpec. */
  function AssignEach<V>(m: map<Key, V>, attrs: seq<Key>, lookup: Key -> V): map<Key, V>
    decreases |attrs|
  {
    if attrs == [] then m
    else AssignEach(m[attrs[0] := lookup(attrs[0])], attrs[1..], lookup)
  }

  /** After the loop every named key holds its looked-up value (a name
      repeated later wins, with the same value) and every other key of `m`
      is untouched. */
  lemma {:induction false} AssignEachSpec<V>(m: map<Key, V>, attrs: seq<Key>, lookup: Key -> V)
    ensures AssignEach(m, attrs, lookup).Keys == m.Keys + (set a | a in attrs)
    ensures forall a :: a in attrs ==> AssignEach(m, attrs, lookup)[a] == lookup(a)
    ensures forall k :: k in m && k !in attrs ==> AssignEach(m, attrs, lookup)[k] == m[k]
    decreases |attrs|
  {
    if attrs != [] {
      AssignEachSpec(m[attrs[0] := lookup(attrs[0])], attrs[1..], lookup);
    }
  }

  /** Python's `del m[k]` for each `k` of `ks`, which raises KeyError when a
      key is absent: here a precondition, so every deletion the builders make
      is proved safe. */
  function Del(m: Kwargs, ks: set<Key>): (r: Kwargs)
    requires ks <= m.Keys
    ensures r.Keys == m.Keys - ks
    ensures forall k :: k in r ==> r[k] == m[k]
  {
    m - ks
  }

  /** `DiskDevicePopulator._get_kwargs`: the five base keys from udev and
      sysfs, plus `major`/`minor` only when the populator builds a plain
      `DiskDevice`. */
  function BaseKwargs(p: Populator, r: UdevInfo, env: Env): (kw: Kwargs)
    ensures kw.Keys == if p.Disk? then BaseKeys + {Major, Minor} else BaseKeys
    ensures kw[SysfsPath] == Str(r.sysfsPath) && kw[Serial] == r.serial && kw[Bus] == r.bus
    ensures kw[Vendor] == env.sysfsAttr(r.sysfsPath, "device/vendor")
    ensures kw[Model] == env.sysfsAttr(r.sysfsPath, "device/model")
    ensures p.Disk? ==> kw[Major] == Int(r.major) && kw[Minor] == Int(r.minor)
  {
    var sysfsPath := r.sysfsPath;
    var kw := map[
      SysfsPath := Str(sysfsPath),
      Serial := r.serial,
      Vendor := env.sysfsAttr(sysfsPath, "device/vendor"),
      Model := env.sysfsAttr(sysfsPath, "device/model"),
      Bus := r.bus];
    if DeviceClassOf(p) == DiskDevice then kw[Major := Int(r.major)][Minor := Int(r.minor)]
    else kw
  }

  /** `kw` holds every entry of `base` unchanged: the property the
      DiskProperties lemmas state about each builder. */
  ghost predicate Extends(base: Kwargs, kw: Kwargs) {
    forall k :: k in base ==> k in kw && kw[k] == base[k]
  }

  /** The same property as Extends, written key by key for the five base
      keys (no quantifier), as the builders' contracts state it;
      DiskProperties.KeepsBaseEntriesExtend shows it gives Extends when
      `base` has exactly those keys. */
  predicate KeepsBaseEntries(base: Kwargs, kw: Kwargs) {
    && SysfsPath in base && SysfsPath in kw && kw[SysfsPath] == base[SysfsPath]
    && Serial in base && Serial in kw && kw[Serial] == base[Serial]
    && Vendor in base && Vendor in kw && kw[Vendor] == base[Vendor]
    && Model in base && Model in kw && kw[Model] == base[Model]
    && Bus in base && Bus in kw && kw[Bus] == base[Bus]
  }

  /** The NIC recorded for a qla4xxx partial-offload session, which the
      iSCSI administration tool cannot see. */
  const OffloadNic := "offload:not_accessible_via_iscsiadm"

  /** The record's initiator is the host initiator, so its session is one the
      iSCSI module manages and a node can be resolved. */
  predicate ResolvesNode(r: UdevInfo, s: IscsiState) {
    r.iscsiInitiator == Some(s.initiator)
  }

  /** The iSCSI entries of a session the iSCSI module manages. */
  function IscsiNodeKwargs(base: Kwargs, initiator: Value, node: IscsiNode, s: IscsiState): (kw: Kwargs)
    requires base.Keys == BaseKeys
    ensures kw.Keys == BaseKeys + {Initiator, Node, Ibft, Nic}
    ensures FwAddress !in kw && FwPort !in kw && FwName !in kw
    ensures KeepsBaseEntries(base, kw)
    ensures kw[Initiator] == initiator && kw[Node] == NodeRef(node)
    ensures kw[Ibft] == Bool(node in s.ibftNodes) && kw[Nic] == Str(NicOf(s, node))
  {
    base[Initiator := initiator][Node := NodeRef(node)][Ibft := Bool(node in s.ibftNodes)][Nic := Str(NicOf(s, node))]
  }

  /** The iSCSI entries of a qla4xxx partial-offload session. */
  function IscsiOffloadKwargs(base: Kwargs, initiator: Value, r: UdevInfo): (kw: Kwargs)
    requires base.Keys == BaseKeys
    ensures kw.Keys == BaseKeys + {Initiator, Node, Ibft, Nic, FwAddress, FwPort, FwName}
    ensures KeepsBaseEntries(base, kw)
    ensures kw[Initiator] == initiator && kw[Node] == Null && kw[Ibft] == Bool(false) && kw[Nic] == Str(OffloadNic)
    ensures kw[FwAddress] == r.iscsiAddress && kw[FwPort] == r.iscsiPort && kw[FwName] == Str(r.name)
  {
    base[Initiator := initiator][Node := Null][Ibft := Bool(false)][Nic := Str(OffloadNic)]
      [FwAddress := r.iscsiAddress][FwPort := r.iscsiPort][FwName := Str(r.name)]
  }

  /** `iScsiDevicePopulator._get_kwargs`: the node branch when the record's
      initiator is the host initiator, the partial-offload branch otherwise. */
  function IscsiKwargs(r: UdevInfo, env: Env): (kw: Kwargs)
    ensures KeepsBaseEntries(BaseKwargs(IScsi, r, env), kw)
    ensures {Initiator, Node, Ibft, Nic} <= kw.Keys
    ensures kw[Initiator] == FromOptional(r.iscsiInitiator)
    ensures kw[Node].NodeRef? <==> ResolvesNode(r, env.iscsi)
    ensures ResolvesNode(r, env.iscsi) ==>
      var node := env.iscsi.getNode(r.iscsiName, r.iscsiAddress, r.iscsiPort, r.iscsiNic);
      && kw.Keys == BaseKeys + {Initiator, Node, Ibft, Nic}
      && kw[Node] == NodeRef(node)
      && kw[Ibft] == Bool(node in env.iscsi.ibftNodes)
      && kw[Nic] == Str(NicOf(env.iscsi, node))
    ensures !ResolvesNode(r, env.iscsi) ==>
      && kw.Keys == BaseKeys + {Initiator, Node, Ibft, Nic, FwAddress, FwPort, FwName}
      && kw[Node] == Null && kw[Ibft] == Bool(false) && kw[Nic] == Str(OffloadNic)
      && kw[FwAddress] == r.iscsiAddress && kw[FwPort] == r.iscsiPort && kw[FwName] == Str(r.name)
  {
    var s := env.iscsi;
    var base := BaseKwargs(IScsi, r, env);
    var initiator := FromOptional(r.iscsiInitiator);
    if ResolvesNode(r, s) then
      IscsiNodeKwargs(base, initiator, s.getNode(r.iscsiName, r.iscsiAddress, r.iscsiPort, r.iscsiNic), s)
    else
      IscsiOffloadKwargs(base, initiator, r)
  }

  /** `FCoEDevicePopulator._get_kwargs`. */
  function FcoeKwargs(r: UdevInfo, env: Env): (kw: Kwargs)
    ensures kw.Keys == BaseKeys + {Nic, Identifier}
    ensures kw[Nic] == r.fcoeNic && kw[Identifier] == r.fcoeIdentifier
  {
    BaseKwargs(Fcoe, r, env)[Nic := r.fcoeNic][Identifier := r.fcoeIdentifier]
  }

  /** The DASD flags copied into `opts`, in the order they are read. */
  const DasdFlagNames: seq<Key> := [Readonly, UseDiag, Erplog, Failfast]

  /** The `opts` dictionary of the DASD builder: its loop over the flags,
      starting from an empty dictionary. */
  function DasdOpts(r: UdevInfo): (opts: map<Key, Value>)
    ensures opts.Keys == {Readonly, UseDiag, Erplog, Failfast}
    ensures forall a :: a in opts ==> opts[a] == r.dasdFlag(a)
  {
    AssignEachSpec(map[], DasdFlagNames, r.dasdFlag);
    AssignEach(map[], DasdFlagNames, r.dasdFlag)
  }

  /** `DASDDevicePopulator._get_kwargs`. */
  function DasdKwargs(r: UdevInfo, env: Env): (kw: Kwargs)
    ensures kw.Keys == BaseKeys + {BusId, Opts}
    ensures kw[BusId] == r.dasdBusId
    ensures kw[Opts].Dict?
    ensures kw[Opts].entries.Keys == {Readonly, UseDiag, Erplog, Failfast}
    ensures forall a :: a in kw[Opts].entries ==> kw[Opts].entries[a] == r.dasdFlag(a)
  {
    BaseKwargs(Dasd, r, env)[BusId := r.dasdBusId][Opts := Dict(DasdOpts(r))]
  }

  /** The zFCP attributes copied into the keyword arguments. */
  const ZfcpAttributeNames: seq<Key> := [HbaId, Wwpn, FcpLun]

  /** `ZFCPDevicePopulator._get_kwargs`. */
  function ZfcpKwargs(r: UdevInfo, env: Env): (kw: Kwargs)
    ensures kw.Keys == BaseKeys + {HbaId, Wwpn, FcpLun}
    ensures forall a :: a in kw && a !in BaseKeys ==> kw[a] == r.zfcpAttribute(a)
  {
    AssignEachSpec(BaseKwargs(Zfcp, r, env), ZfcpAttributeNames, r.zfcpAttribute);
    AssignEach(BaseKwargs(Zfcp, r, env), ZfcpAttributeNames, r.zfcpAttribute)
  }

  /** What a builder hands back: the keyword arguments, or None when the MD
      builder gave up, and the device tree as the builder left it. */
  datatype Built = Built(kwargs: Option<Kwargs>, tree: Tree)

  /** The device name of the MD container the record belongs to. */
  function ContainerName(r: UdevInfo, env: Env): string
    requires r.mdContainer.Some?
  {
    env.pathToName(r.mdContainer.value)
  }

  /** Where udev is asked for the container's record when it is not yet in
      the tree. */
  function ContainerSysfsPath(r: UdevInfo, env: Env): string
    requires r.mdContainer.Some?
  {
    "/sys/class/block/" + env.mdNodeFromName(ContainerName(r, env))
  }

  /** The keys of a successful MD builder: the base keys less the four that
      mean nothing for an MD array, plus the array's own. */
  const MdKeys: set<Key> := {SysfsPath, Parents, Level, MemberDevices, Uuid, Exists}

  /** The base keys an MD array drops. */
  const DiskIdentityKeys: set<Key> := {Model, Serial, Vendor, Bus}

  /** The MD-specific keys added once the container is known, and the disk
      identity keys deleted. The deletions are done first; since no key is
      both added and deleted, the result is the same (MdExtendInSourceOrder). */
  function MdExtend(base: Kwargs, container: Device, r: UdevInfo): (kw: Kwargs)
    requires base.Keys == BaseKeys
    ensures kw.Keys == MdKeys
    ensures kw[Parents] == DeviceList([container]) && kw[Exists] == Bool(true)
    ensures kw[Level] == r.mdLevel && kw[MemberDevices] == r.mdDevices && kw[Uuid] == r.mdUuid
    ensures kw[SysfsPath] == base[SysfsPath]
  {
    Del(base, DiskIdentityKeys)[Parents := DeviceList([container])][Level := r.mdLevel]
      [MemberDevices := r.mdDevices][Uuid := r.mdUuid][Exists := Bool(true)]
  }

  /** `MDBiosRaidDevicePopulator._get_kwargs`: finds the container in the
      tree, scanning its udev record first when it is not there yet, and gives
      up (None) when the container has no udev record or is still missing
      after the scan. The container is looked up by path only when the
      record names one, as the match predicate guarantees. */
  function MdKwargs(r: UdevInfo, env: Env, tree: Tree): (b: Built)
    requires r.mdContainer.Some?
    ensures b.kwargs.Some? <==> ContainerName(r, env) in b.tree
    ensures ContainerName(r, env) in tree ==> b.tree == tree
    ensures b.tree == tree || (env.getDevice(ContainerSysfsPath(r, env)).Some?
                               && b.tree == env.handleDevice(env.getDevice(ContainerSysfsPath(r, env)).value, tree))
    ensures b.kwargs.Some? ==>
      && b.kwargs.value.Keys == MdKeys
      && b.kwargs.value[Parents] == DeviceList([b.tree[ContainerName(r, env)]])
      && b.kwargs.value[SysfsPath] == Str(r.sysfsPath)
      && b.kwargs.value[Level] == r.mdLevel
      && b.kwargs.value[MemberDevices] == r.mdDevices
      && b.kwargs.value[Uuid] == r.mdUuid
      && b.kwargs.value[Exists] == Bool(true)
  {
    var kw := BaseKwargs(MdBiosRaid, r, env);
    var parentName := ContainerName(r, env);
    match GetDeviceByName(tree, parentName)
    case Some(container) => Built(Some(MdExtend(kw, container, r)), tree)
    case None =>
      match env.getDevice(ContainerSysfsPath(r, env))
      case None => Built(None, tree)
      case Some(info) =>
        var tree' := env.handleDevice(info, tree);
        match GetDeviceByName(tree', parentName)
        case None => Built(None, tree')
        case Some(container) => Built(Some(MdExtend(kw, container, r)), tree')
  }

  /** `p._get_kwargs()` for populator `p`: each populator gets its own
      builder's result. Only the MD builder can touch the tree or give up. */
  function GetKwargs(p: Populator, r: UdevInfo, env: Env, tree: Tree): (b: Built)
    requires p.MdBiosRaid? ==> r.mdContainer.Some?
    ensures !p.MdBiosRaid? ==> b.kwargs.Some? && b.tree == tree
    ensures p.Disk? ==> b.kwargs.value == BaseKwargs(Disk, r, env)
    ensures p.IScsi? ==> b.kwargs.value == IscsiKwargs(r, env)
    ensures p.Fcoe? ==> b.kwargs.value == FcoeKwargs(r, env)
    ensures p.MdBiosRaid? ==> b == MdKwargs(r, env, tree)
    ensures p.Dasd? ==> b.kwargs.value == DasdKwargs(r, env)
    ensures p.Zfcp? ==> b.kwargs.value == ZfcpKwargs(r, env)
  {
    match p
    case Disk => Built(Some(BaseKwargs(Disk, r, env)), tree)
    case IScsi => Built(Some(IscsiKwargs(r, env)), tree)
    case Fcoe => Built(Some(FcoeKwargs(r, env)), tree)
    case MdBiosRaid => MdKwargs(r, env, tree)
    case Dasd => Built(Some(DasdKwargs(r, env)), tree)
    case Zfcp => Built(Some(ZfcpKwargs(r, env)), tree)
  }

  // ----- run -----

  datatype RunError =
    | UnresolvedContainer(member: string) // the MD builder found no container
    | DuplicateName(name: string)         // the tree already holds the name
    | KwargsNotAMapping                   // `**None`: Python's TypeError

  /** The outcome of a run, with the device tree it leaves behind. */
  datatype RunResult = Added(device: Device, tree: Tree) | Failed(error: RunError, tree: Tree)

  /** `DiskDevicePopulator.run`: build the keyword arguments, construct the
      device under the record's name and add it to the tree. When the MD
      builder gives up, the member is reported as unresolved and not added
      (the builder's own scan of the container stays in the tree). */
  function Run(p: Populator, r: UdevInfo, env: Env, tree: Tree): (res: RunResult)
    requires p.MdBiosRaid? ==> r.mdContainer.Some?
    ensures var b := GetKwargs(p, r, env, tree);
      && (res.Added? <==> b.kwargs.Some? && r.name !in b.tree)
      && (res.Added? ==> res.device == Device(DeviceClassOf(p), r.name, b.kwargs.value)
                         && res.tree == b.tree[r.name := res.device])
      && (b.kwargs.None? ==> res == Failed(UnresolvedContainer(r.name), b.tree))
      && (b.kwargs.Some? && res.Failed? ==> res == Failed(DuplicateName(r.name), b.tree))
    ensures res.Failed? && res.error.UnresolvedContainer? ==> p.MdBiosRaid? && res.error.member == r.name
  {
    var b := GetKwargs(p, r, env, tree);
    match b.kwargs
    case None => Failed(UnresolvedContainer(r.name), b.tree)
    case Some(kwargs) =>
      var device := Device(DeviceClassOf(p), r.name, kwargs);
      match AddDevice(b.tree, device)
      case None => Failed(DuplicateName(r.name), b.tree)
      case Some(tree') => Added(device, tree')
  }

  /** `DiskDevicePopulator.run` exactly as written: a builder result of None
      is expanded with `**`, which raises TypeError instead of reporting the
      missing container. */
  function RunAsWritten(p: Populator, r: UdevInfo, env: Env, tree: Tree): (res: RunResult)
    requires p.MdBiosRaid? ==> r.mdContainer.Some?
    ensures var b := GetKwargs(p, r, env, tree);
      && (res.Added? <==> b.kwargs.Some? && r.name !in b.tree)
      && (res.Added? ==> res.device == Device(DeviceClassOf(p), r.name, b.kwargs.value)
                         && res.tree == b.tree[r.name := res.device])
      && (b.kwargs.Some? && res.Failed? ==> res == Failed(DuplicateName(r.name), b.tree))
    ensures res.Failed? && res.error == KwargsNotAMapping <==> GetKwargs(p, r, env, tree).kwargs.None?
    ensures res.Failed? ==> res.tree == GetKwargs(p, r, env, tree).tree
  {
    var b := GetKwargs(p, r, env, tree);
    match b.kwargs
    case None => Failed(KwargsNotAMapping, b.tree)
    case Some(kwargs) =>
      var device := Device(DeviceClassOf(p), r.name, kwargs);
      match AddDevice(b.tree, device)
      case None => Failed(DuplicateName(r.name), b.tree)
      case Some(tree') => Added(device, tree')
  }
}

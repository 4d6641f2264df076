/**
 * The parts of blivet's iSCSI module state that the iSCSI populator reads.
 * Session discovery is not part of this model: the node lookup is a
 * parameter.
 */
module Iscsi {
  import opened Values

  datatype IscsiState = IscsiState(
    initiator: string,                                 // iscsi.initiator ("" when unset)
    ibftNodes: set<IscsiNode>,                         // iscsi.ibft_nodes
    ifaces: map<string, string>,                       // iscsi.ifaces
    getNode: (Value, Value, Value, Value) -> IscsiNode) // iscsi.get_node(target, address, port, nic)

  /** `iscsi.ifaces.get(node.iface, node.iface)`: the interface alias of the
      node's interface, or the interface name itself when it has none. */
  function NicOf(s: IscsiState, node: IscsiNode): (nic: string)
    ensures node.iface in s.ifaces ==> nic == s.ifaces[node.iface]
    ensures node.iface !in s.ifaces ==> nic == node.iface
  {
    if node.iface in s.ifaces then s.ifaces[node.iface] else node.iface
  }
}

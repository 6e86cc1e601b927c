/** The identifier records of the process library, reduced to their field
    shape: a process is named by three strings, an address puts a process on
    a node. Their text encodings and parsers live in files that are not part
    of this model. */
module Identifiers {

  datatype ProcessId = ProcessId(process_name: string, package_name: string, publisher_node: string)

  datatype Address = Address(node: string, process: ProcessId)

  /** The node name the kernel resolves to "this node" at send time. */
  const OurNode: string := "our"

  /** The networking process of the system package. A message that bounces
      back from the network carries this address as its source. */
  const NetProcess: ProcessId := ProcessId("net", "sys", "uqbar")

  const NetAddress: Address := Address(OurNode, NetProcess)
}

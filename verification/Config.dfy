/** The value types shared by discovery and rendering. */
module Config {
  datatype Peer = Peer(
    ip: string, port: int, name: string, priority: int, maxConcurrency: int, maxLoad: int,
    probePath: string, node: string, gpu: string)

  /** A peer as discovery reports it. */
  function FoundPeer(ip: string, port: int, node: string): Peer {
    Peer(ip, port, "", 0, 0, 0, "", node, "")
  }

  datatype Target = Target(
    namespace: string, service: string, selector: string, port: int, portName: string, includeNotReady: bool)
}

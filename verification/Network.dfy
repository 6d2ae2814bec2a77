/** Network types, the transports that carry them, and the address key
    (src/address.rs, src/store.rs). */
module Network {

  datatype NetworkType = Ipv4 | Ipv6 | Cjdns | OnionV2 | OnionV3 | I2p | Unknown {
    /** The transport whose queue and worker pool serve this network. */
    function Carrier(): Transport {
      match this
      case Ipv4 | Ipv6 | Cjdns | Unknown => OverIp
      case OnionV2 | OnionV3 => OverTor
      case I2p => OverI2p
    }
  }

  datatype Transport = OverIp | OverTor | OverI2p

  const ALL_TRANSPORTS: seq<Transport> := [OverIp, OverTor, OverI2p]

  datatype AddrKey = AddrKey(host: string, port: nat)
}

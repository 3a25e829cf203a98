/** Values shared by the fleet controller, its gateways and the publisher.

    Identifiers, keys and IPv4 addresses are opaque naturals.  A digest of a value
    is the value itself, so two values share a digest exactly when they are equal.
 */
module FleetTypes {
  import opened Options

  datatype Result<+T> = Ok(value: T) | Err(code: Code)

  /** The fixed rejection codes of the store, the gateway fence and the peer backend. */
  datatype Code =
    | StateOrClock | RegistryUpdate | EndpointMigrationRequired
    | AccessRevisionOrBinding | ExpiredAccess | AccessDenied | IntegrityError
    | InvalidRequest | RequestConflict | RegistryStale | AssignmentExists | DeviceLimit | NoCapacity
    | LeaseMissing | StaleWork | ExpiredWork | StaleReady | StaleRemoval
    | GatewayBinding | GatewayState | StaleOrConflicting | ExpiredCommand | CommandConflict | ResourceOwned
    | UnmanagedLiveKey | LiveAddressOwned | LiveBindingChanged
    | NotPublishable | PublicationAuthority | ProfileMigrationRequired | PublicationContext
    | AmbiguousEndpoint | InvalidInteger | PublicationTimeout

  type LeaseId = nat
  type DeviceId = nat
  type GatewayId = nat
  type Key = nat
  type Address = nat

  datatype Transport = WireGuard | AmneziaWG | VlessReality
  datatype Version = V1 | V2_0 | V3_1

  predicate VersionMatches(t: Transport, v: Version) {
    if t.AmneziaWG? then v != V1 else v == V1
  }

  datatype IP = V4(v4: nat) | V6(v6: nat)

  function Family(ip: IP): nat {
    if ip.V4? then 4 else 6
  }

  datatype Endpoint = Endpoint(transport: Transport, version: Version, address: IP, port: nat)

  /** A canonical IPv4 network: `size` addresses from `base`, the network address. */
  datatype Pool = Pool(base: nat, size: nat)

  datatype GatewayPhase = Provisioning | Active | Draining | Disabled

  datatype Gateway = Gateway(
    id: GatewayId, domain: nat, country: nat, phase: GatewayPhase, endpoints: seq<Endpoint>,
    pool: Pool, maxDevices: nat, egress: real)

  datatype Ingress = Ingress(id: nat, address: IP, port: nat, provider: nat)

  datatype Registry = Registry(revision: nat, gateways: seq<Gateway>, ingresses: seq<Ingress>)

  datatype LeaseState = Reserved | Ready | Retiring | Released

  datatype Lease = Lease(
    device: DeviceId, gateway: GatewayId, country: nat, transport: Transport, version: Version,
    address: Address, registryRevision: nat, accessRevision: nat, created: int, expires: int,
    state: LeaseState, generation: nat)

  datatype Operation = Present | Absent

  datatype Command = Command(
    lease: LeaseId, gateway: GatewayId, device: DeviceId, key: Key, address: Address,
    transport: Transport, version: Version, expires: int, generation: nat, operation: Operation)
}

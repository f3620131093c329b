/** Keys, key versions and the tables every node keeps of them. */
module Model {

  datatype Option<+T> = None | Some(value: T)

  /** UUIDs are 128-bit values; only equality and order on them matter. */
  type Uuid = nat

  type Name = string

  datatype LifeCycle = PreActivation | Active | Suspended | Deactivated | Compromised | Destroyed

  datatype Status = Pending | InProgress | Completed | Failed

  datatype Processing = Usable | ReWrapping | Activating

  type Labels = map<string, string>

  /** Labels with this prefix are the system's own. */
  const RESERVED_PREFIX := "krypton:"

  predicate HasReserved(labels: Labels) {
    exists l | l in labels :: RESERVED_PREFIX <= l
  }

  datatype Key = Key(
    id: Uuid, name: Name, tenant: Uuid, kind: Name, parent: Option<Uuid>, managedBy: Name, labels: Labels,
    life: LifeCycle, status: Status, createdAt: int)
  {
    /** The fields an upsert compares; labels are not among them. */
    predicate IsSame(other: Key) {
      && parent == other.parent
      && name == other.name
      && tenant == other.tenant
      && managedBy == other.managedBy
      && kind == other.kind
    }
  }

  /** The label that names a provider's own key, stored under the provider's type. */
  datatype ProviderKey = ProviderKey(kind: string, id: string)

  /** The primary key of a version row, of a vault slot, and the content of the AAD. */
  datatype VersionId = VersionId(tenant: Uuid, keyId: Uuid, version: nat, revision: nat)

  datatype KeyVersion = KeyVersion(
    id: VersionId, parentKey: Option<Uuid>, parentVersion: Option<nat>,
    life: LifeCycle, processing: Processing, providerKey: Option<ProviderKey>)
  {
    /** Sealing uses version 0 when no parent version is pinned. */
    function ParentPin(): nat {
      match parentVersion
      case Some(v) => v
      case None => 0
    }
  }

  datatype Tables = Tables(tenants: set<Uuid>, keys: map<Uuid, Key>, versions: map<VersionId, KeyVersion>)
}

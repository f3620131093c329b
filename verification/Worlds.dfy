/** The whole system at one moment: the root's tables, every agent's tables, every node's vault, and
    the announce jobs handed to the scheduler. */
module Worlds {
  import opened Model
  import opened Store
  import opened Topology

  /** Byte strings up to an ideal authenticated cipher: opening a box takes the key and the
      associated data it was sealed with. A provider may use another key for each of its labels. */
  datatype Bytes =
    | Raw(id: nat)
    | Provided(secret: nat, keyId: string)
    | Box(key: Bytes, nonce: nat, aad: VersionId, text: Bytes)

  function Seal(key: Bytes, nonce: nat, aad: VersionId, text: Bytes): (box: Bytes) {
    Box(key, nonce, aad, text)
  }

  function Open(key: Bytes, aad: VersionId, box: Bytes): (r: Option<Bytes>) {
    if box.Box? && box.key == key && box.aad == aad then Some(box.text) else None
  }

  datatype ProviderSpec = ProviderSpec(secret: nat, kind: string, auth: nat)

  datatype Entry = Sealed(material: Bytes, aad: VersionId) | Provider(spec: ProviderSpec)

  /** One vault per node, so that bindings which share a backend are covered. */
  datatype Slot = Slot(node: Node, id: VersionId)

  datatype World = World(root: Tables, agents: seq<Tables>, vaults: map<Slot, Entry>, jobs: set<Key>)

  predicate Sized(c: Config, w: World) {
    |w.agents| == |c.agents|
  }

  function TablesAt(w: World, n: Node): (t: Tables)
    requires n.AtAgent? ==> n.index < |w.agents|
  {
    match n
    case AtRoot => w.root
    case AtAgent(i) => w.agents[i]
  }

  /** Rows are stored under their primary key. */
  ghost predicate RowsKeyed(t: Tables) {
    && KeysById(t)
    && (forall v | v in t.versions :: t.versions[v].id == v)
  }

  ghost predicate AllRowsKeyed(c: Config, w: World)
    requires Sized(c, w)
  {
    forall n: Node | IsNode(c, n) :: RowsKeyed(TablesAt(w, n))
  }

  /** Provider specs are stored without a version. */
  function ProviderSlot(tenant: Uuid, keyId: Uuid): (s: Slot) {
    Slot(AtRoot, VersionId(tenant, keyId, 0, 0))
  }
}

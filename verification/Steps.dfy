/** Announcing keys, admin actions and provider bindings, and the runs all steps make up. */
module Steps {
  import opened Model
  import opened Store
  import opened Hierarchy
  import opened Topology
  import opened Lifecycle
  import opened Worlds
  import opened Agent
  import opened Protocol
  import opened Forest
  import opened KeyAction

  // ------------------------------------------------------------------ announcing a key

  datatype AnnounceRequest = AnnounceRequest(
    tenant: Uuid, name: Name, kind: Name, parent: Option<Uuid>, target: Name, labels: Labels)

  /** The addressed node, the root when none is named, must manage the kind. */
  predicate ValidAnnounce(c: Config, req: AnnounceRequest) {
    && req.name != "" && req.kind != ""
    && if req.target == "" then SegmentContains(c.hierarchy.specs, c.segment, req.kind)
       else
         match FindAgent(c.agents, req.target)
         case None => false
         case Some(a) => SegmentContains(c.hierarchy.specs, c.agents[a].segment, req.kind)
  }

  function NewKey(c: Config, req: AnnounceRequest, id: Uuid, now: int): (k: Key) {
    Key(id, req.name, req.tenant, req.kind, req.parent, if req.target == "" then c.name else req.target,
        req.labels, PreActivation, Pending, now)
  }

  /** The root kind has no parent; any other kind a stored parent one position above. */
  predicate FitsHierarchy(specs: seq<KeySpec>, t: Tables, k: Key) {
    match FindKeySpec(specs, k.kind)
    case None => false
    case Some(s) =>
      if s.role == RootRole then k.parent.None?
      else
        && k.parent.Some?
        && var p := GetKey(t, k.parent.value, k.tenant);
           p.Some? && IndexOf(specs, p.value.kind) >= 0
           && IndexOf(specs, k.kind) == IndexOf(specs, p.value.kind) + 1
  }

  datatype AnnounceFaults = AnnounceFaults(store: bool, prepared: bool, prepareError: bool, commit: bool)

  /** Upsert the row and hand the announce job to the scheduler. The scheduler keeps the job even if
      the transaction is rolled back afterwards. */
  ghost function Announce(c: Config, w: World, req: AnnounceRequest, id: Uuid, now: int, f: AnnounceFaults): (w2: World) {
    var k := NewKey(c, req, id, now);
    if !ValidAnnounce(c, req) || f.store || k.tenant !in w.root.tenants || !FitsHierarchy(c.hierarchy.specs, w.root, k) then w
    else
      match UpsertKey(w.root, k)
      case IdentityConflict => w
      case ConflictingRowGone => w
      case Upserted(t, kid) =>
        var w1 := if f.prepared then w.(jobs := w.jobs + {k.(id := kid)}) else w;
        if f.prepareError || f.commit then w1 else w1.(root := t)
  }

  /** Confirming an announce job moves a pending row, whatever its state, to in-progress. */
  ghost function ConfirmAnnounce(w: World, p: Key, failed: bool): (w2: World) {
    match GetKey(w.root, p.id, p.tenant)
    case None => w
    case Some(k) =>
      if k.status != Pending || failed then w
      else w.(root := SetStates(w.root, p.id, k.life, InProgress))
  }

  datatype TenantFaults = TenantFaults(rejected: bool, store: bool)

  datatype AnnounceTaskFaults = AnnounceTaskFaults(
    begin: bool, tenantRead: bool, tenantCall: Call<TenantFaults>, transitionRead: bool,
    keyCall: Call<KeyFaults>, update: bool, commit: bool)

  ghost function CallUpsertTenant(w: World, a: nat, tenant: Uuid, call: Call<TenantFaults>): (r: Pushed)
    requires a < |w.agents|
  {
    var reply := if call.faults.rejected then Abort else if call.faults.store then Retry else Applied;
    var t := w.agents[a].(tenants := w.agents[a].tenants + {tenant});
    Pushed(if call.sent && reply.Applied? then w.(agents := w.agents[a := t]) else w,
           AsVerdict(call.sent, call.answered, reply))
  }

  /** Bring the agent's tenant row up to date; nothing to do for the root's own keys. */
  ghost function PushTenant(c: Config, w: World, p: Key, f: AnnounceTaskFaults): (r: Pushed)
    requires Sized(c, w)
  {
    if p.tenant !in w.root.tenants then Pushed(w, GiveUp)
    else if p.managedBy == c.name then Pushed(w, Done)
    else
      match FindAgent(c.agents, p.managedBy)
      case None => Pushed(w, GiveUp)
      case Some(a) => CallUpsertTenant(w, a, p.tenant, f.tenantCall)
  }

  ghost function PushKey(c: Config, w: World, p: Key, f: AnnounceTaskFaults): (r: Pushed)
    requires Sized(c, w)
  {
    if p.managedBy == c.name then Pushed(w, Done)
    else
      match FindAgent(c.agents, p.managedBy)
      case None => Pushed(w, GiveUp)
      case Some(a) => CallUpsertKey(w, a, p, f.keyCall)
  }

  /** Settle the row: only an announced row that is in progress can be settled. */
  ghost function Settle(w: World, p: Key, status: Status, f: AnnounceTaskFaults): (r: Outcome) {
    if f.update then Outcome(w, Continue)
    else
      match UpdateKeyStates(w.root, p.id, p.tenant, {PreActivation}, {InProgress}, PreActivation, status)
      case None => Outcome(w, Fail)
      case Some(t) =>
        if f.commit then Outcome(w, Continue)
        else Outcome(w.(root := t), if status == Failed then Fail else Complete)
  }

  /** One delivery of an announce task. */
  ghost function HandleAnnounce(c: Config, w: World, p: Key, f: AnnounceTaskFaults): (r: Outcome)
    requires Sized(c, w)
  {
    if f.begin || f.tenantRead then Outcome(w, Continue)
    else
      var pt := PushTenant(c, w, p, f);
      if pt.verdict == Later || f.transitionRead then Outcome(pt.world, Continue)
      else
        match GetKey(pt.world.root, p.id, p.tenant)
        case None => Outcome(pt.world, Fail)
        case Some(k) =>
          if !Legal(k.life, PreActivation) then Outcome(pt.world, Fail)
          else if pt.verdict == GiveUp then Settle(pt.world, p, Failed, f)
          else
            var pk := PushKey(c, pt.world, p, f);
            match pk.verdict
            case Later => Outcome(pk.world, Continue)
            case GiveUp => Settle(pk.world, p, Failed, f)
            case Done => Settle(pk.world, p, Completed, f)
  }

  // ------------------------------------------------------------------ admin actions

  datatype Action = Activate | Suspend | Deactivate

  function Target(a: Action): (s: LifeCycle) {
    match a
    case Activate => Active
    case Suspend => Suspended
    case Deactivate => Deactivated
  }

  function Filters(a: Action): (fs: seq<KeyFilter>) {
    match a
    case Activate => [KeyFilter(Some(Active), {Completed, Failed}),
                      KeyFilter(Some(Suspended), {Completed}),
                      KeyFilter(Some(PreActivation), {Completed})]
    case Suspend => [KeyFilter(Some(Suspended), {Completed, Failed}),
                     KeyFilter(Some(Active), {Completed})]
    case Deactivate => [KeyFilter(Some(Deactivated), {Completed, Failed}),
                        KeyFilter(Some(Active), {Completed}),
                        KeyFilter(Some(Suspended), {Completed, Pending, Failed})]
  }

  /** The filters of the three actions are aligned, so cascading or not they judge a key alike. */
  lemma FiltersAligned(a: Action)
    ensures Aligned(Filters(a))
  {
    assert Filters(a)[0] in Filters(a) && Constrains(Filters(a)[0]);
  }

  function Request(a: Action, kid: KeyIdentifier, cascading: bool): (r: ActionRequest) {
    ActionRequest(kid.tenant, kid.id, Filters(a), cascading, a != Activate, Target(a))
  }

  /** Activation needs every strict ancestor active and settled. */
  ghost predicate ParentsReady(specs: seq<KeySpec>, t: Tables, i: Uuid)
    requires WellFormed(specs, t) && i in t.keys
  {
    var chain := Ancestors(specs, t, i);
    forall d | 0 <= d < |chain| - 1 :: chain[d].life == Active && chain[d].status == Completed
  }

  ghost predicate ActionAllowed(c: Config, w: World, a: Action, kid: KeyIdentifier, cascading: bool, tree: KeyTree) {
    && kid.tenant in w.root.tenants
    && WellFormed(c.hierarchy.specs, w.root)
    && Fetched(w.root, Request(a, kid, cascading), tree)
    && (a == Activate && kid.id in w.root.keys ==> ParentsReady(c.hierarchy.specs, w.root, kid.id))
  }

  // ------------------------------------------------------------------ provider bindings

  datatype ProviderFaults = ProviderFaults(
    store: bool, vaultBefore: bool, vaultAfter: bool, create: bool, commit: bool)

  predicate MayUse(t: Tables, kid: KeyIdentifier, usage: Usage) {
    && kid.tenant in t.tenants
    && var k := GetKey(t, kid.id, kid.tenant);
       k.Some? && k.value.status == Completed && usage in Usages(k.value.life)
  }

  function ProviderVersion(kid: KeyIdentifier, version: nat, providerKey: ProviderKey): (kv: KeyVersion) {
    KeyVersion(VersionId(kid.tenant, kid.id, version, 1), None, None, Active, Usable, Some(providerKey))
  }

  ghost function InsertProviderVersion(w: World, kid: KeyIdentifier, version: nat, providerKey: ProviderKey, f: ProviderFaults): (w2: World) {
    var kv := ProviderVersion(kid, version, providerKey);
    if f.create || f.commit || kv.id in w.root.versions then w
    else w.(root := InsertVersion(w.root, kv))
  }

  function StoreSpec(w: World, kid: KeyIdentifier, spec: ProviderSpec): (w2: World) {
    w.(vaults := w.vaults[ProviderSlot(kid.tenant, kid.id) := Provider(spec)])
  }

  /** Bind a provider: the spec goes to the vault, its first key version to the tables. */
  ghost function CreateProvider(w: World, kid: KeyIdentifier, spec: ProviderSpec, providerKey: string, f: ProviderFaults): (w2: World) {
    if f.store || !MayUse(w.root, kid, Link) || f.vaultBefore then w
    else
      var w1 := StoreSpec(w, kid, spec);
      if f.vaultAfter then w1 else InsertProviderVersion(w1, kid, 1, ProviderKey(spec.kind, providerKey), f)
  }

  predicate Bound(w: World, kid: KeyIdentifier) {
    ProviderSlot(kid.tenant, kid.id) in w.vaults && w.vaults[ProviderSlot(kid.tenant, kid.id)].Provider?
  }

  ghost function RotateAuth(w: World, kid: KeyIdentifier, kind: string, auth: nat, f: ProviderFaults): (w2: World) {
    if f.store || !MayUse(w.root, kid, Rotate) || !Bound(w, kid) || f.vaultBefore then w
    else
      var spec := w.vaults[ProviderSlot(kid.tenant, kid.id)].spec;
      if spec.kind != kind then w else StoreSpec(w, kid, spec.(auth := auth))
  }

  /** Record the next provider key version. */
  ghost function RotateProviderKey(w: World, kid: KeyIdentifier, kind: string, providerKey: string, f: ProviderFaults): (w2: World) {
    if f.store || !MayUse(w.root, kid, Rotate) || !Bound(w, kid)
       || w.vaults[ProviderSlot(kid.tenant, kid.id)].spec.kind != kind then w
    else
      match Newest(w.root, kid.tenant, kid.id, LATEST)
      case None => w
      case Some(latest) => InsertProviderVersion(w, kid, latest.id.version + 1, ProviderKey(kind, providerKey), f)
  }

  ghost function RemoveProvider(w: World, kid: KeyIdentifier, f: ProviderFaults): (w2: World) {
    if f.store || kid.tenant !in w.root.tenants || f.vaultBefore then w
    else w.(vaults := w.vaults - {ProviderSlot(kid.tenant, kid.id)})
  }

  // ------------------------------------------------------------------ steps and runs

  datatype Step =
    | CreateTenantStep(tenant: Uuid)
    | AnnounceStep(req: AnnounceRequest, id: Uuid, now: int, announceFaults: AnnounceFaults)
    | ConfirmStep(job: Key, failed: bool)
    | AnnounceTaskStep(job: Key, taskFaults: AnnounceTaskFaults)
    | ActionStep(action: Action, kid: KeyIdentifier, cascading: bool, tree: KeyTree)
    | TaskStep(action: Action, kid: KeyIdentifier, faults: TaskFaults)
    | CreateProviderStep(kid: KeyIdentifier, spec: ProviderSpec, providerKey: string, providerFaults: ProviderFaults)
    | RotateAuthStep(kid: KeyIdentifier, kind: string, auth: nat, providerFaults: ProviderFaults)
    | RotateKeyStep(kid: KeyIdentifier, kind: string, providerKey: string, providerFaults: ProviderFaults)
    | RemoveProviderStep(kid: KeyIdentifier, providerFaults: ProviderFaults)

  /** A fresh UUID has never been used, and providers are bound to the root kind only. Jobs are
      delivered any number of times once prepared, tasks any number of times at any moment. */
  ghost predicate Enabled(c: Config, w: World, s: Step) {
    match s
    case CreateTenantStep(_) => true
    case AnnounceStep(_, id, _, _) => id !in w.root.keys && forall p | p in w.jobs :: p.id != id
    case ConfirmStep(p, _) => p in w.jobs
    case AnnounceTaskStep(p, _) => p in w.jobs
    case ActionStep(a, kid, cascading, tree) => ActionAllowed(c, w, a, kid, cascading, tree)
    case TaskStep(_, _, _) => true
    case CreateProviderStep(kid, _, _, _) => OfRootKind(c, w, kid)
    case RotateAuthStep(kid, _, _, _) => OfRootKind(c, w, kid)
    case RotateKeyStep(kid, _, _, _) => OfRootKind(c, w, kid)
    case RemoveProviderStep(kid, _) => true
  }

  ghost predicate OfRootKind(c: Config, w: World, kid: KeyIdentifier) {
    kid.id in w.root.keys ==> IndexOf(c.hierarchy.specs, w.root.keys[kid.id].kind) == 0
  }

  ghost function Next(c: Config, w: World, s: Step): (w2: World)
    requires Sized(c, w)
  {
    match s
    case CreateTenantStep(t) => w.(root := w.root.(tenants := w.root.tenants + {t}))
    case AnnounceStep(req, id, now, f) => Announce(c, w, req, id, now, f)
    case ConfirmStep(p, failed) => ConfirmAnnounce(w, p, failed)
    case AnnounceTaskStep(p, f) => HandleAnnounce(c, w, p, f).world
    case ActionStep(a, kid, cascading, tree) => w.(root := Moved(w.root, Target(a), tree))
    case TaskStep(a, kid, f) => HandleTask(c, w, Target(a), kid, f).world
    case CreateProviderStep(kid, spec, pk, f) => CreateProvider(w, kid, spec, pk, f)
    case RotateAuthStep(kid, kind, auth, f) => RotateAuth(w, kid, kind, auth, f)
    case RotateKeyStep(kid, kind, pk, f) => RotateProviderKey(w, kid, kind, pk, f)
    case RemoveProviderStep(kid, f) => RemoveProvider(w, kid, f)
  }

  ghost predicate Initial(c: Config, w: World) {
    && Sized(c, w)
    && w.root.keys == map[] && w.root.versions == map[] && w.vaults == map[] && w.jobs == {}
    && forall a | 0 <= a < |w.agents| :: w.agents[a].keys == map[] && w.agents[a].versions == map[]
  }

  /** A run: worlds joined by steps. */
  ghost predicate Run(c: Config, ws: seq<World>, steps: seq<Step>) {
    && |ws| == |steps| + 1
    && (forall i | 0 <= i < |ws| :: Sized(c, ws[i]))
    && (forall i {:trigger Taken(c, ws, steps, i)} | 0 <= i < |steps| :: Taken(c, ws, steps, i))
  }

  ghost predicate Taken(c: Config, ws: seq<World>, steps: seq<Step>, i: nat)
    requires i < |steps| < |ws| && Sized(c, ws[i])
  {
    Enabled(c, ws[i], steps[i]) && ws[i + 1] == Next(c, ws[i], steps[i])
  }
}

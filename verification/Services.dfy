/** The remaining operations of the root: announcing keys, admin actions and provider bindings. */
module Services {
  import opened Model
  import opened Store
  import opened Hierarchy
  import opened Topology
  import opened Lifecycle
  import opened Worlds
  import opened Agent
  import opened Protocol
  import opened Forest
  import opened KeyAction
  import opened Steps
  import opened Clusters
  import opened Transactions
  import opened Handler

  // ------------------------------------------------------------------ announcing

  /** Upserts the row and hands the job to the scheduler, which keeps it whatever becomes of the
      transaction. */
  method AnnounceKey(cluster: Cluster, req: AnnounceRequest, id: Uuid, now: int, f: AnnounceFaults) returns (key: Option<Key>)
    requires cluster.Valid()
    modifies cluster`root, cluster`jobs
    ensures cluster.View() == Announce(cluster.config, old(cluster.View()), req, id, now, f)
    ensures key.Some? ==> key.value.id in cluster.root.keys && key.value.IsSame(cluster.root.keys[key.value.id])
                          && cluster.root.keys[key.value.id].life == PreActivation
  {
    if !ValidAnnounce(cluster.config, req) { return None; }
    var newKey := NewKey(cluster.config, req, id, now);
    var tx := new Tx(cluster.root);
    if f.store || newKey.tenant !in tx.tables.tenants || !FitsHierarchy(cluster.config.hierarchy.specs, tx.tables, newKey) {
      return None;
    }
    var r := tx.UpsertKey(newKey);
    if !r.Upserted? { return None; }
    newKey := newKey.(id := r.id);
    if f.prepared { cluster.jobs := cluster.jobs + {newKey}; }
    if f.prepareError || f.commit { return None; }
    cluster.root := tx.tables;
    return Some(newKey);
  }

  datatype Confirmation = CompleteConfirm | ContinueConfirm | CancelConfirm

  method ConfirmJob(cluster: Cluster, p: Key, failed: bool) returns (r: Confirmation)
    requires cluster.Valid()
    modifies cluster`root
    ensures cluster.View() == ConfirmAnnounce(old(cluster.View()), p, failed)
    ensures r == CancelConfirm ==> GetKey(old(cluster.root), p.id, p.tenant).None?
    ensures r == CompleteConfirm ==>
              var k := GetKey(cluster.root, p.id, p.tenant); k.Some? && k.value.status != Pending
  {
    if failed { return ContinueConfirm; }
    var tx := new Tx(cluster.root);
    var existing := GetKey(tx.tables, p.id, p.tenant);
    if existing.None? { return CancelConfirm; }
    if existing.value.status == Pending {
      var k := existing.value;
      var matched := tx.UpdateKeyStates(p.id, p.tenant, {k.life}, {Pending}, k.life, InProgress);
    }
    cluster.root := tx.tables;
    return CompleteConfirm;
  }

  method ServeUpsertTenant(cluster: Cluster, a: nat, tenant: Uuid, call: Call<TenantFaults>) returns (v: Verdict)
    requires cluster.Valid() && a < |cluster.agents|
    modifies cluster`agents
    ensures cluster.Valid()
    ensures var p := CallUpsertTenant(old(cluster.View()), a, tenant, call); cluster.View() == p.world && v == p.verdict
  {
    if !call.sent { return Later; }
    var reply := if call.faults.rejected then Abort else if call.faults.store then Retry else Applied;
    if reply == Applied {
      cluster.agents := cluster.agents[a := cluster.agents[a].(tenants := cluster.agents[a].tenants + {tenant})];
    }
    return AsVerdict(call.sent, call.answered, reply);
  }

  method ServeAnnouncedKey(cluster: Cluster, a: nat, p: Key, call: Call<KeyFaults>) returns (v: Verdict)
    requires cluster.Valid() && a < |cluster.agents|
    modifies cluster`agents
    ensures cluster.Valid()
    ensures var r := CallUpsertKey(old(cluster.View()), a, p, call); cluster.View() == r.world && v == r.verdict
  {
    if !call.sent { return Later; }
    var reply := cluster.ServeUpsertKey(a, p, call.faults);
    return AsVerdict(call.sent, call.answered, reply);
  }

  /** What the steps of an announce task share: the status the row is to be settled with, once known. */
  class AnnounceState {
    var state: Option<Status>

    constructor ()
      ensures state == None
    {
      state := None;
    }
  }

  method PushAnnouncedTenant(cluster: Cluster, shared: AnnounceState, p: Key, f: AnnounceTaskFaults) returns (later: bool)
    requires cluster.Valid() && shared.state == None
    modifies cluster`agents, shared
    ensures cluster.Valid()
    ensures var r := PushTenant(cluster.config, old(cluster.View()), p, f);
            && cluster.View() == r.world && later == (r.verdict == Later)
            && shared.state == if r.verdict == GiveUp then Some(Failed) else None
  {
    later := false;
    if p.tenant !in cluster.root.tenants {
      shared.state := Some(Failed);
      return;
    }
    if p.managedBy == cluster.config.name { return; }
    var a := FindAgent(cluster.config.agents, p.managedBy);
    if a.None? {
      shared.state := Some(Failed);
      return;
    }
    var v := ServeUpsertTenant(cluster, a.value, p.tenant, f.tenantCall);
    if v == GiveUp { shared.state := Some(Failed); }
    later := v == Later;
  }

  method PushAnnouncedKey(cluster: Cluster, shared: AnnounceState, p: Key, f: AnnounceTaskFaults) returns (later: bool)
    requires cluster.Valid() && shared.state == None
    modifies cluster`agents, shared
    ensures cluster.Valid()
    ensures var r := PushKey(cluster.config, old(cluster.View()), p, f);
            && cluster.View() == r.world && later == (r.verdict == Later)
            && shared.state == match r.verdict case Done => Some(Completed) case Later => None case GiveUp => Some(Failed)
  {
    later := false;
    if p.managedBy == cluster.config.name {
      shared.state := Some(Completed);
      return;
    }
    var a := FindAgent(cluster.config.agents, p.managedBy);
    if a.None? {
      shared.state := Some(Failed);
      return;
    }
    var v := ServeAnnouncedKey(cluster, a.value, p, f.keyCall);
    if v == Later { return true; }
    shared.state := Some(if v == Done then Completed else Failed);
  }

  /** One delivery of an announce task: afterwards cluster and response are what the protocol says. */
  method HandleAnnounceTask(cluster: Cluster, p: Key, f: AnnounceTaskFaults, resp: Response)
    requires cluster.Valid()
    modifies cluster`root, cluster`agents, resp
    ensures Sized(cluster.config, old(cluster.View()))
    ensures var o := HandleAnnounce(cluster.config, old(cluster.View()), p, f);
            cluster.View() == o.world && resp.disposition == o.disposition
  {
    resp.disposition := Continue;
    if f.begin || f.tenantRead { return; }
    var shared := new AnnounceState();
    var later := PushAnnouncedTenant(cluster, shared, p, f);
    if later || f.transitionRead { return; }
    var existing := GetKey(cluster.root, p.id, p.tenant);
    if existing.None? || !Legal(existing.value.life, PreActivation) {
      resp.disposition := Fail;
      return;
    }
    if shared.state == None {
      later := PushAnnouncedKey(cluster, shared, p, f);
      if later { return; }
    }
    if f.update { return; }
    var tx := new Tx(cluster.root);
    var matched := tx.UpdateKeyStates(p.id, p.tenant, {PreActivation}, {InProgress}, PreActivation, shared.state.value);
    if !matched {
      resp.disposition := Fail;
      return;
    }
    if f.commit { return; }
    cluster.root := tx.tables;
    resp.disposition := if shared.state == Some(Failed) then Fail else Complete;
  }

  // ------------------------------------------------------------------ admin actions

  /** Every strict ancestor is active and settled. */
  method ValidateKeyParents(specs: seq<KeySpec>, t: Tables, kid: KeyIdentifier) returns (ok: bool)
    requires WellFormed(specs, t)
    ensures ok <==> GetKey(t, kid.id, kid.tenant).Some? && ParentsReady(specs, t, kid.id)
  {
    var parents := GetParentKeys(specs, t, kid.id, kid.tenant);
    if parents.None? { return false; }
    AncestorsAreAChain(specs, t, kid.id);
    ghost var chain := Ancestors(specs, t, kid.id);
    var d := 0;
    while d < |parents.value|
      invariant 0 <= d <= |parents.value|
      invariant forall e | 0 <= e < d && e < |chain| - 1 :: chain[e].life == Active && chain[e].status == Completed
    {
      if d < |chain| - 1 { AncestorsDistinct(specs, t, kid.id, d, |chain| - 1); }
      var parent := parents.value[d];
      if parent.id != kid.id && (parent.life != Active || parent.status != Completed) { return false; }
      d := d + 1;
    }
    return true;
  }

  /** One admin call in one transaction: either the root is untouched, or the call was allowed and
      exactly its work moved. */
  method PerformAction(cluster: Cluster, action: Action, kid: KeyIdentifier, cascading: bool, broken: set<Uuid>, fails: bool)
    returns (r: ActionResult, ghost tree: KeyTree)
    requires cluster.Valid() && WellFormed(cluster.config.hierarchy.specs, cluster.root)
    modifies cluster`root
    ensures var c, w := cluster.config, old(cluster.View());
            if r.Jobs? then
              && Enabled(c, w, ActionStep(action, kid, cascading, tree))
              && cluster.View() == Next(c, w, ActionStep(action, kid, cascading, tree))
              && r.jobs == JobsOf(Target(action), Order(Request(action, kid, cascading), tree)) && r.jobs != []
            else cluster.View() == w
  {
    tree := [];
    r := Refused(StoreError);
    var specs := cluster.config.hierarchy.specs;
    var tx := new Tx(cluster.root);
    if kid.tenant !in tx.tables.tenants { return; }
    if action == Activate {
      var ok := ValidateKeyParents(specs, tx.tables, kid);
      if !ok { return; }
    }
    r, tree := ApplyKeyAction(specs, tx, Request(action, kid, cascading), broken);
    if !r.Jobs? { return; }
    if fails { return Refused(StoreError), tree; }
    cluster.root := tx.tables;
  }

  // ------------------------------------------------------------------ provider bindings

  method BindProvider(cluster: Cluster, kid: KeyIdentifier, spec: ProviderSpec, providerKey: string, f: ProviderFaults)
    requires cluster.Valid()
    modifies cluster`root, cluster`vaults
    ensures cluster.View() == CreateProvider(old(cluster.View()), kid, spec, providerKey, f)
  {
    var tx := new Tx(cluster.root);
    if f.store || !MayUse(tx.tables, kid, Link) || f.vaultBefore { return; }
    cluster.vaults := cluster.vaults[ProviderSlot(kid.tenant, kid.id) := Provider(spec)];
    if f.vaultAfter || f.create { return; }
    var created := tx.CreateVersion(ProviderVersion(kid, 1, ProviderKey(spec.kind, providerKey)));
    if created && !f.commit { cluster.root := tx.tables; }
  }

  method ReplaceAuth(cluster: Cluster, kid: KeyIdentifier, kind: string, auth: nat, f: ProviderFaults)
    requires cluster.Valid()
    modifies cluster`vaults
    ensures cluster.View() == RotateAuth(old(cluster.View()), kid, kind, auth, f)
  {
    if f.store || !MayUse(cluster.root, kid, Rotate) { return; }
    if !Bound(cluster.View(), kid) || f.vaultBefore { return; }
    var spec := cluster.vaults[ProviderSlot(kid.tenant, kid.id)].spec;
    if spec.kind != kind { return; }
    cluster.vaults := cluster.vaults[ProviderSlot(kid.tenant, kid.id) := Provider(spec.(auth := auth))];
  }

  method AddProviderKey(cluster: Cluster, kid: KeyIdentifier, kind: string, providerKey: string, f: ProviderFaults)
    requires cluster.Valid()
    modifies cluster`root
    ensures cluster.View() == RotateProviderKey(old(cluster.View()), kid, kind, providerKey, f)
  {
    var tx := new Tx(cluster.root);
    if f.store || !MayUse(tx.tables, kid, Rotate) || !Bound(cluster.View(), kid) { return; }
    if cluster.vaults[ProviderSlot(kid.tenant, kid.id)].spec.kind != kind { return; }
    var latest := tx.NewestVersion(kid.tenant, kid.id, LATEST);
    if latest.None? || f.create { return; }
    var created := tx.CreateVersion(ProviderVersion(kid, latest.value.id.version + 1, ProviderKey(kind, providerKey)));
    if created && !f.commit { cluster.root := tx.tables; }
  }

  method UnbindProvider(cluster: Cluster, kid: KeyIdentifier, f: ProviderFaults)
    requires cluster.Valid()
    modifies cluster`vaults
    ensures cluster.View() == RemoveProvider(old(cluster.View()), kid, f)
  {
    if f.store || kid.tenant !in cluster.root.tenants || f.vaultBefore { return; }
    cluster.vaults := cluster.vaults - {ProviderSlot(kid.tenant, kid.id)};
  }
}

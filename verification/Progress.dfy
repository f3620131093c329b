/** What a delivery in which nothing goes wrong achieves. */
module Progress {
  import opened Model
  import opened Store
  import opened Hierarchy
  import opened Topology
  import opened Lifecycle
  import opened Worlds
  import opened Envelope
  import opened Agent
  import opened Protocol
  import opened Forest
  import opened Steps
  import opened Invariant
  import opened Preservation
  import opened Material

  predicate Smooth(f: TaskFaults) {
    && !f.begin && !f.tenantRead && !f.ensureRead && !f.loadRead && !f.listOwn && !f.updateVersion && !f.listParent
    && !f.createVersion && !f.seal.before && !f.seal.after && !f.markFailed && !f.markCompleted && !f.commit
    && f.keyCall.sent && f.keyCall.answered && SmoothKey(f.keyCall.faults)
    && f.versionCall.sent && f.versionCall.answered && SmoothVersion(f.versionCall.faults)
  }

  predicate SmoothKey(f: KeyFaults) {
    !f.tenantRead && !f.create && !f.readExisting && !f.update && !f.commit
  }

  predicate SmoothVersion(f: VersionFaults) {
    !f.tenantRead && !f.keyRead && !f.versionRead && !f.write && !f.seal.before && !f.seal.after && !f.commit
  }

  /** The key has a version already, or one can be derived: it has no parent, or its parent has a
      usable active version to pin. */
  ghost predicate Derivable(t: Tables, key: Key) {
    || Newest(t, key.tenant, key.id, LATEST).Some?
    || key.parent.None?
    || Newest(t, key.tenant, key.parent.value, LATEST_ACTIVE).Some?
  }

  /** The version a task brings to the key's state. */
  ghost function Wanted(t: Tables, key: Key): (kv: KeyVersion)
    requires Derivable(t, key)
  {
    match Newest(t, key.tenant, key.id, LATEST)
    case Some(kv) => kv.(life := key.life, processing := Usable)
    case None =>
      FirstVersion(key, if key.parent.None? then None
                        else Some(Newest(t, key.tenant, key.parent.value, LATEST_ACTIVE).value.id.version))
  }

  /** The node can seal a secret for the version now. */
  ghost predicate Sealable(c: Config, w: World, n: Node, kind: Name, kv: KeyVersion)
    requires Sized(c, w) && IsNode(c, n)
  {
    Serves(c, n, kind) && NodeBindings(c, n)[kind].vault && ParentKey(c, w, n, kind, kv, Encrypt).Ok?
  }

  /** Everything a due key needs to be settled. */
  ghost predicate Settleable(c: Config, w: World, key: Key)
    requires Sized(c, w)
  {
    && Derivable(w.root, key)
    && var kv := Wanted(w.root, key);
       if key.managedBy == c.name then
         || IndexOf(c.hierarchy.specs, key.kind) == 0
         || Newest(w.root, key.tenant, key.id, LATEST).Some?
         || Sealable(c, w, AtRoot, key.kind, kv)
       else
         match FindAgent(c.agents, key.managedBy)
         case None => false
         case Some(a) =>
           && Acceptable(key) && key.tenant in w.agents[a].tenants
           && (kv.id in w.agents[a].versions || Sealable(c, w, AtAgent(a), key.kind, OnWire(kv)))
  }

  lemma SmoothResolves(c: Config, w: World, key: Key, f: TaskFaults)
    requires Running(c, w, key) && Smooth(f)
    ensures var r := ResolveVersion(w.root, key, f);
            if Derivable(w.root, key) then
              r.Resolved? && r.version == Wanted(w.root, key)
              && r.isNew == Newest(w.root, key.tenant, key.id, LATEST).None?
            else r.NoParentVersion?
  {
    assert RowsKeyed(TablesAt(w, AtRoot));
    var first := VersionId(key.tenant, key.id, 1, 1);
    assert first in w.root.versions ==> Listed(w.root, key.tenant, key.id, LATEST, first);
  }

  lemma SmoothSeal(c: Config, w: World, n: Node, kind: Name, kv: KeyVersion, f: SealFaults)
    requires Sized(c, w) && IsNode(c, n) && !f.before && !f.after
    ensures GenerateAndSeal(c, w, n, kind, kv, f).ok <==> Sealable(c, w, n, kind, kv)
  {
  }

  lemma SmoothKeyCall(c: Config, w: World, a: nat, k: Key, f: KeyFaults)
    requires Inv(c, w) && CallFor(c, w, a, k) && SmoothKey(f)
    ensures UpsertKeyAt(w, a, k, f).reply == if Acceptable(k) && k.tenant in w.agents[a].tenants then Applied else Abort
  {
    NameIsItsOwn(c, w, a, k);
  }

  /** The push of the key does not change whether its version can be sealed. */
  lemma SealableAfterKeyCall(c: Config, w: World, w1: World, key: Key, n: Node, kv: KeyVersion)
    requires Inv(c, w) && Inv(c, w1) && SameExcept(c, w, w1, key.id) && key.id in w.root.keys && w.root.keys[key.id] == key
    requires key.id in w1.root.keys && w1.root.keys[key.id] == key && IsNode(c, n) && kv.parentKey == key.parent
    ensures Sealable(c, w1, n, key.kind, kv) <==> Sealable(c, w, n, key.kind, kv)
  {
    ChainAvoidsKey(c, w, key.id);
    ChainAvoidsKey(c, w1, key.id);
    if Serves(c, n, key.kind) { ParentKeyElsewhere(c, w, w1, key.id, n, key.kind, kv, Encrypt); }
  }

  lemma SmoothVersionCall(c: Config, w: World, a: nat, kv: KeyVersion, f: VersionFaults)
    requires Sized(c, w) && a < |w.agents| && SmoothVersion(f) && kv.id.version > 0 && kv.id.revision > 0
    requires kv.id.tenant in w.agents[a].tenants && GetKey(w.agents[a], kv.id.keyId, kv.id.tenant).Some?
    requires GetKey(w.agents[a], kv.id.keyId, kv.id.tenant).value.life == kv.life
    ensures UpsertVersionAt(c, w, a, kv, f).reply
            == if kv.id in w.agents[a].versions
                  || Sealable(c, w, AtAgent(a), GetKey(w.agents[a], kv.id.keyId, kv.id.tenant).value.kind, OnWire(kv))
               then Applied else Retry
  {
    SmoothSeal(c, w, AtAgent(a), GetKey(w.agents[a], kv.id.keyId, kv.id.tenant).value.kind, OnWire(kv), f.seal);
  }

  /** What the agent holds after the first of the two calls. */
  lemma AfterKeyCall(c: Config, w: World, a: nat, key: Key, call: Call<KeyFaults>)
    requires Inv(c, w) && CallFor(c, w, a, key) && w.root.keys[key.id] == key && call.sent && call.answered && SmoothKey(call.faults)
    requires Acceptable(key) && key.tenant in w.agents[a].tenants
    ensures var p := CallUpsertKey(w, a, key, call);
            && p.verdict.Done? && Inv(c, p.world) && SameExcept(c, w, p.world, key.id) && p.world.root == w.root
            && key.tenant in p.world.agents[a].tenants && p.world.agents[a].versions == w.agents[a].versions
            && var row := GetKey(p.world.agents[a], key.id, key.tenant);
               row.Some? && row.value.life == key.life && row.value.kind == key.kind
  {
    SmoothKeyCall(c, w, a, key, call.faults);
    CallKeyKeepsInv(c, w, a, key, call);
    CallKeyTouchesOnly(c, w, a, key, call);
    UpsertLandsOnRow(c, w, a, key, call.faults);
  }

  /** The push is done exactly when both calls are. */
  lemma PushStages(c: Config, w: World, key: Key, kv: KeyVersion, a: nat, f: TaskFaults)
    requires Sized(c, w) && key.managedBy != c.name && FindAgent(c.agents, key.managedBy) == Some(a)
    requires Sized(c, CallUpsertKey(w, a, key, f.keyCall).world)
    ensures UpsertRemote(c, w, key, kv, f).verdict.Done? <==>
            && CallUpsertKey(w, a, key, f.keyCall).verdict.Done?
            && CallUpsertVersion(c, CallUpsertKey(w, a, key, f.keyCall).world, a, kv, f.versionCall).verdict.Done?
  {
  }

  lemma SecondCall(c: Config, w: World, key: Key, kv: KeyVersion, a: nat, f: TaskFaults)
    requires Running(c, w, key) && CallFor(c, w, a, key) && Smooth(f)
    requires Acceptable(key) && key.tenant in w.agents[a].tenants
    requires kv.id.keyId == key.id && kv.id.tenant == key.tenant && kv.life == key.life && kv.parentKey == key.parent
    requires kv.id.version > 0 && kv.id.revision > 0
    ensures var p := CallUpsertKey(w, a, key, f.keyCall);
            && p.verdict.Done? && Sized(c, p.world)
            && (CallUpsertVersion(c, p.world, a, kv, f.versionCall).verdict.Done? <==>
                kv.id in w.agents[a].versions || Sealable(c, w, AtAgent(a), key.kind, OnWire(kv)))
  {
    AfterKeyCall(c, w, a, key, f.keyCall);
    var w1 := CallUpsertKey(w, a, key, f.keyCall).world;
    SmoothVersionCall(c, w1, a, kv, f.versionCall.faults);
    SealableAfterKeyCall(c, w, w1, key, AtAgent(a), OnWire(kv));
  }

  lemma SmoothPush(c: Config, w: World, key: Key, kv: KeyVersion, a: nat, f: TaskFaults)
    requires Deployed(c) && Running(c, w, key) && Smooth(f) && key.managedBy != c.name && FindAgent(c.agents, key.managedBy) == Some(a)
    requires kv.id.keyId == key.id && kv.id.tenant == key.tenant && kv.life == key.life && kv.parentKey == key.parent
    requires kv.id.version > 0 && kv.id.revision > 0
    ensures UpsertRemote(c, w, key, kv, f).verdict.Done? <==>
            && Acceptable(key) && key.tenant in w.agents[a].tenants
            && (kv.id in w.agents[a].versions || Sealable(c, w, AtAgent(a), key.kind, OnWire(kv)))
  {
    SmoothKeyCall(c, w, a, key, f.keyCall.faults);
    PushStages(c, w, key, kv, a, f);
    if Acceptable(key) && key.tenant in w.agents[a].tenants { SecondCall(c, w, key, kv, a, f); }
  }

  /** A delivery in which nothing goes wrong completes if all of its stages are done. */
  lemma SmoothStages(c: Config, w: World, key: Key, f: TaskFaults)
    requires Sized(c, w) && key.id in w.root.keys && w.root.keys[key.id] == key && key.status == Pending && Smooth(f)
    ensures var r := ResolveVersion(w.root, key, f);
            Process(c, w, key, f).disposition == Complete <==>
            && r.Resolved?
            && var s := SealLocally(c, w, key, r.version, r.isNew, f);
               s.verdict.Done? && UpsertRemote(c, s.world, key, r.version, f).verdict.Done?
  {
    var r := ResolveVersion(w.root, key, f);
    if r.Resolved? { assert r.tables.keys == w.root.keys; }
  }

  lemma SmoothLocal(c: Config, w: World, key: Key, kv: KeyVersion, isNew: bool, f: TaskFaults)
    requires Deployed(c) && Running(c, w, key) && Smooth(f)
    ensures SealLocally(c, w, key, kv, isNew, f).verdict.Done? <==>
            || key.managedBy != c.name || !isNew || IndexOf(c.hierarchy.specs, key.kind) == 0
            || Sealable(c, w, AtRoot, key.kind, kv)
    ensures key.managedBy != c.name ==> SealLocally(c, w, key, kv, isNew, f).world == w
  {
    assert Placed(c.hierarchy.specs, w.root, key.id);
    BelowRoot(c, key.kind);
    SmoothSeal(c, w, AtRoot, key.kind, kv, f.seal);
  }

  lemma SmoothAtAgent(c: Config, w: World, key: Key, f: TaskFaults)
    requires Deployed(c) && Running(c, w, key) && Smooth(f) && Derivable(w.root, key) && key.managedBy != c.name
    ensures var kv := Wanted(w.root, key);
            UpsertRemote(c, w, key, kv, f).verdict.Done? <==> Settleable(c, w, key)
  {
    assert ManagerKnown(c, key);
    SmoothResolves(c, w, key, f);
    ResolvedIsLatest(c, w, key, f);
    SmoothPush(c, w, key, Wanted(w.root, key), FindAgent(c.agents, key.managedBy).value, f);
  }

  /** A delivery in which nothing goes wrong settles the key if and only if it can be settled: a
      version exists or can be derived, and the node that manages the key holds the version's secret
      or can seal one, and, for an agent, knows the tenant. */
  lemma SmoothDeliverySettlesIff(c: Config, w: World, key: Key, f: TaskFaults)
    requires Deployed(c) && Running(c, w, key) && Smooth(f)
    ensures Process(c, w, key, f).disposition == Complete <==> Settleable(c, w, key)
  {
    SmoothStages(c, w, key, f);
    SmoothResolves(c, w, key, f);
    if Derivable(w.root, key) {
      SmoothLocal(c, w, key, Wanted(w.root, key), Newest(w.root, key.tenant, key.id, LATEST).None?, f);
      if key.managedBy != c.name { SmoothAtAgent(c, w, key, f); }
    }
  }

  // ------------------------------------------------------------------ announcing

  predicate SmoothAnnounce(f: AnnounceTaskFaults) {
    && !f.begin && !f.tenantRead && !f.transitionRead && !f.update && !f.commit
    && f.tenantCall.sent && f.tenantCall.answered && !f.tenantCall.faults.rejected && !f.tenantCall.faults.store
    && f.keyCall.sent && f.keyCall.answered && SmoothKey(f.keyCall.faults)
  }

  /** A confirmed job: its row is announced and in progress. */
  ghost predicate Confirmed(c: Config, w: World, p: Key) {
    && Inv(c, w) && p in w.jobs && p.tenant in w.root.tenants && p.id in w.root.keys && w.root.keys[p.id].tenant == p.tenant
    && w.root.keys[p.id].life == PreActivation && w.root.keys[p.id].status == InProgress && p.kind != "" && p.name != ""
  }

  lemma TenantFirst(c: Config, w: World, p: Key, a: nat, f: AnnounceTaskFaults)
    requires Sized(c, w) && p.tenant in w.root.tenants && p.managedBy != c.name && FindAgent(c.agents, p.managedBy) == Some(a)
    requires SmoothAnnounce(f)
    ensures var r := PushTenant(c, w, p, f);
            && r.verdict.Done? && r.world.root == w.root && Sized(c, r.world) && p.tenant in r.world.agents[a].tenants
            && PushKey(c, r.world, p, f) == CallUpsertKey(r.world, a, p, f.keyCall)
  {
  }

  lemma KeyNext(c: Config, w: World, a: nat, p: Key, call: Call<KeyFaults>)
    requires Inv(c, w) && CallFor(c, w, a, p) && ValidUpsert(p) && p.tenant in w.agents[a].tenants
    requires call.sent && call.answered && SmoothKey(call.faults)
    ensures CallUpsertKey(w, a, p, call).world.root == w.root
    ensures CallUpsertKey(w, a, p, call).verdict == if HasReserved(p.labels) then GiveUp else Done
  {
    SmoothKeyCall(c, w, a, p, call.faults);
  }

  /** The agent takes an announced key unless its job carries a reserved label. */
  lemma SmoothAnnouncePush(c: Config, w: World, p: Key, f: AnnounceTaskFaults)
    requires Deployed(c) && Confirmed(c, w, p) && SmoothAnnounce(f)
    ensures var w1 := PushTenant(c, w, p, f).world;
            && PushTenant(c, w, p, f).verdict.Done? && w1.root == w.root && Sized(c, w1)
            && PushKey(c, w1, p, f).world.root == w.root
            && PushKey(c, w1, p, f).verdict == if p.managedBy == c.name || !HasReserved(p.labels) then Done else GiveUp
  {
    if p.managedBy != c.name { AgentTakesJob(c, w, p, f); }
  }

  lemma AgentTakesJob(c: Config, w: World, p: Key, f: AnnounceTaskFaults)
    requires Deployed(c) && Confirmed(c, w, p) && SmoothAnnounce(f) && p.managedBy != c.name
    ensures var w1 := PushTenant(c, w, p, f).world;
            && PushTenant(c, w, p, f).verdict.Done? && w1.root == w.root && Sized(c, w1)
            && PushKey(c, w1, p, f).world.root == w.root
            && PushKey(c, w1, p, f).verdict == if HasReserved(p.labels) then GiveUp else Done
  {
    assert p.IsSame(w.root.keys[p.id]) && ManagerKnown(c, w.root.keys[p.id]) && Placed(c.hierarchy.specs, w.root, p.id);
    var a := FindAgent(c.agents, p.managedBy).value;
    NamedAgents(c, a);
    PushTenantKeepsInv(c, w, p, f);
    TenantFirst(c, w, p, a, f);
    KeyNext(c, PushTenant(c, w, p, f).world, a, p, f.keyCall);
  }

  lemma NamedAgents(c: Config, a: nat)
    requires Deployed(c) && a < |c.agents|
    ensures c.agents[a].name != ""
  {
  }

  lemma AnnounceOutcome(c: Config, w: World, p: Key, f: AnnounceTaskFaults)
    requires Sized(c, w) && SmoothAnnounce(f) && GetKey(w.root, p.id, p.tenant).Some?
    requires GetKey(w.root, p.id, p.tenant).value.life == PreActivation && GetKey(w.root, p.id, p.tenant).value.status == InProgress
    requires var r := PushTenant(c, w, p, f);
             && r.verdict.Done? && r.world.root == w.root && Sized(c, r.world)
             && PushKey(c, r.world, p, f).world.root == w.root && !PushKey(c, r.world, p, f).verdict.Later?
    ensures var o, done := HandleAnnounce(c, w, p, f), PushKey(c, PushTenant(c, w, p, f).world, p, f).verdict.Done?;
            && o.disposition == (if done then Complete else Fail)
            && o.world.root == SetStates(w.root, p.id, PreActivation, if done then Completed else Failed)
  {
  }

  /** A delivery of an announce task in which nothing goes wrong settles the row: completed if the root
      manages the key or the job carries no reserved label, failed otherwise. */
  lemma SmoothAnnounceSettles(c: Config, w: World, p: Key, f: AnnounceTaskFaults)
    requires Deployed(c) && Confirmed(c, w, p) && SmoothAnnounce(f)
    ensures var o := HandleAnnounce(c, w, p, f);
            var taken := p.managedBy == c.name || !HasReserved(p.labels);
            && o.disposition == (if taken then Complete else Fail)
            && o.world.root == SetStates(w.root, p.id, PreActivation, if taken then Completed else Failed)
  {
    SmoothAnnouncePush(c, w, p, f);
    AnnounceOutcome(c, w, p, f);
  }
}

/** What the invariant and the step lemmas say about every run, in the terms of an operator. */
module Theorems {
  import opened Model
  import opened Store
  import opened Hierarchy
  import opened Topology
  import opened Worlds
  import opened Envelope
  import opened Protocol
  import opened Forest
  import opened Steps
  import opened Invariant
  import opened Preservation
  import opened Stability
  import opened Material
  import opened Delivery

  // ------------------------------------------------------------------ root and agents

  /** Whatever was rolled back or delivered twice on the way: a key the root shows as settled in a
      state is in that state at its agent too, with the root's latest version, usable, in that state,
      and its secret in the agent's vault. */
  lemma RootAndAgentAgree(c: Config, ws: seq<World>, steps: seq<Step>, j: nat, i: Uuid)
    requires Deployed(c) && Run(c, ws, steps) && Initial(c, ws[0]) && j < |ws|
    requires i in ws[j].root.keys && ws[j].root.keys[i].managedBy != c.name && ws[j].root.keys[i].status == Completed
    ensures exists a ::
              && 0 <= a < |c.agents| && c.agents[a].name == ws[j].root.keys[i].managedBy
              && i in ws[j].agents[a].keys
              && ws[j].agents[a].keys[i].life == ws[j].root.keys[i].life
              && ws[j].agents[a].keys[i].IsSame(ws[j].root.keys[i])
              && (ws[j].root.keys[i].life != PreActivation ==>
                    var latest := Newest(ws[j].root, ws[j].root.keys[i].tenant, i, LATEST);
                    && latest.Some? && latest.value.id in ws[j].agents[a].versions
                    && ws[j].agents[a].versions[latest.value.id].life == ws[j].root.keys[i].life
                    && ws[j].agents[a].versions[latest.value.id].processing == Usable
                    && Slot(AtAgent(a), latest.value.id) in ws[j].vaults
                    && ws[j].vaults[Slot(AtAgent(a), latest.value.id)].Sealed?)
  {
    RunKeepsInv(c, ws, steps, j);
    assert Agrees(c, ws[j], i);
    var a := FindAgent(c.agents, ws[j].root.keys[i].managedBy).value;
    assert AgentFollows(c, ws[j], a, i);
  }

  // ------------------------------------------------------------------ versions

  /** The versions of a key are exactly 1 to n, each at its first revision. */
  ghost predicate Contiguous(t: Tables, i: Uuid, n: nat)
    requires i in t.keys
  {
    forall v: VersionId | v.keyId == i ::
      v in t.versions <==> v.tenant == t.keys[i].tenant && v.revision == 1 && 1 <= v.version <= n
  }

  lemma VersionsContiguous(t: Tables, i: Uuid) returns (n: nat)
    requires VersionsInOrder(t) && RowsKeyed(t) && i in t.keys
    ensures Contiguous(t, i, n)
    ensures Newest(t, t.keys[i].tenant, i, LATEST)
            == if n == 0 then None else Some(t.versions[VersionId(t.keys[i].tenant, i, n, 1)])
  {
    var tenant := t.keys[i].tenant;
    var latest := Newest(t, tenant, i, LATEST);
    if latest.None? {
      n := 0;
      forall v: VersionId | v.keyId == i ensures v !in t.versions {
        if v in t.versions {
          assert RowInOrder(t, v);
          assert Listed(t, tenant, i, LATEST, v);
        }
      }
    } else {
      LatestBounds(t, i);
      n := latest.value.id.version;
      forall v: VersionId | v.keyId == i
        ensures v in t.versions <==> v.tenant == tenant && v.revision == 1 && 1 <= v.version <= n
      {
        if v in t.versions { assert RowInOrder(t, v); }
        if v.tenant == tenant && v.revision == 1 && 1 <= v.version <= n {
          VersionsReachDown(t, latest.value.id, v.version);
        }
      }
    }
  }

  /** In every reachable root store versions are contiguous, a settled key past pre-activation has a
      latest version that is usable and in its state, and every pin names an existing version. */
  lemma RootStoreInEveryRun(c: Config, ws: seq<World>, steps: seq<Step>, j: nat, i: Uuid)
    requires Deployed(c) && Run(c, ws, steps) && Initial(c, ws[0]) && j < |ws| && i in ws[j].root.keys
    ensures var t := ws[j].root; var k := t.keys[i];
            exists n: nat ::
              && Contiguous(t, i, n)
              && (k.status == Completed && k.life != PreActivation ==>
                    && n > 0 && t.versions[VersionId(k.tenant, i, n, 1)].life == k.life
                    && t.versions[VersionId(k.tenant, i, n, 1)].processing == Usable)
    ensures forall v | v in ws[j].root.versions && v.keyId == i ::
              && ws[j].root.versions[v].parentKey == ws[j].root.keys[i].parent
              && (ws[j].root.keys[i].parent.Some? ==>
                    VersionId(v.tenant, ws[j].root.keys[i].parent.value, ws[j].root.versions[v].ParentPin(), 1) in ws[j].root.versions)
  {
    RunKeepsInv(c, ws, steps, j);
    var t := ws[j].root;
    assert RowsKeyed(TablesAt(ws[j], AtRoot));
    assert LatestFollows(t, i);
    var n := VersionsContiguous(t, i);
    forall v | v in t.versions && v.keyId == i
      ensures t.versions[v].parentKey == t.keys[i].parent
      ensures t.keys[i].parent.Some? ==>
                VersionId(v.tenant, t.keys[i].parent.value, t.versions[v].ParentPin(), 1) in t.versions
    {
      assert RowInOrder(t, v);
    }
  }

  // ------------------------------------------------------------------ rows and material

  /** Keys keep their identity, versions their pins, committed versions their material. */
  ghost predicate Keeps(c: Config, w: World, w2: World) {
    && Sized(c, w) && Sized(c, w2)
    && (forall n: Node | IsNode(c, n) :: KeepsRows(TablesAt(w, n), TablesAt(w2, n)))
    && (forall n: Node | IsNode(c, n) :: KeepsMaterial(w, w2, n))
  }

  /** Specs are stored at version 0, where no version row is. */
  lemma SpecsCollideWithNothing(c: Config, w: World, kid: KeyIdentifier, n: Node, v: VersionId)
    requires Inv(c, w) && IsNode(c, n) && v in TablesAt(w, n).versions
    ensures Slot(n, v) != ProviderSlot(kid.tenant, kid.id)
  {
    if n.AtRoot? { assert RowInOrder(w.root, v); }
  }

  lemma SpecChangeKeeps(c: Config, w: World, kid: KeyIdentifier, w2: World)
    requires Inv(c, w) && w2 == w.(vaults := w2.vaults)
    requires forall s | s in w.vaults && s != ProviderSlot(kid.tenant, kid.id) :: s in w2.vaults && w2.vaults[s] == w.vaults[s]
    ensures Keeps(c, w, w2)
  {
    forall n: Node, v: VersionId | IsNode(c, n) && v in TablesAt(w, n).versions
      ensures Slot(n, v) != ProviderSlot(kid.tenant, kid.id)
    {
      SpecsCollideWithNothing(c, w, kid, n, v);
    }
    forall n: Node | IsNode(c, n)
      ensures KeepsRows(TablesAt(w, n), TablesAt(w2, n)) && KeepsMaterial(w, w2, n)
    {
    }
  }

  lemma KeepsTransitive(c: Config, w: World, w1: World, w2: World)
    requires Keeps(c, w, w1) && Keeps(c, w1, w2)
    ensures Keeps(c, w, w2)
  {
    forall n: Node | IsNode(c, n)
      ensures KeepsRows(TablesAt(w, n), TablesAt(w2, n)) && KeepsMaterial(w, w2, n)
    {
      assert KeepsRows(TablesAt(w, n), TablesAt(w1, n)) && KeepsMaterial(w, w1, n);
      assert KeepsRows(TablesAt(w1, n), TablesAt(w2, n)) && KeepsMaterial(w1, w2, n);
    }
  }

  lemma GrowsKeeps(c: Config, w: World, w2: World)
    requires Grows(c, w, w2)
    ensures Keeps(c, w, w2)
  {
  }

  lemma RebindKeeps(c: Config, w: World, kid: KeyIdentifier, spec: ProviderSpec, providerKey: string, f: ProviderFaults)
    requires Inv(c, w)
    ensures Keeps(c, w, CreateProvider(w, kid, spec, providerKey, f))
    ensures Keeps(c, w, RemoveProvider(w, kid, f))
  {
    var w1 := StoreSpec(w, kid, spec);
    SpecChangeKeeps(c, w, kid, w);
    SpecChangeKeeps(c, w, kid, w1);
    SpecChangeKeeps(c, w, kid, w.(vaults := w.vaults - {ProviderSlot(kid.tenant, kid.id)}));
    InsertProviderGrows(c, w1, kid, 1, ProviderKey(spec.kind, providerKey), f);
    GrowsKeeps(c, w1, InsertProviderVersion(w1, kid, 1, ProviderKey(spec.kind, providerKey), f));
    KeepsTransitive(c, w, w1, InsertProviderVersion(w1, kid, 1, ProviderKey(spec.kind, providerKey), f));
  }

  lemma StepKeeps(c: Config, w: World, s: Step)
    requires Deployed(c) && Inv(c, w) && Enabled(c, w, s)
    ensures Keeps(c, w, Next(c, w, s))
  {
    match s
    case CreateProviderStep(kid, spec, pk, f) => RebindKeeps(c, w, kid, spec, pk, f);
    case RemoveProviderStep(kid, f) => RebindKeeps(c, w, kid, ProviderSpec(0, "", 0), "", f);
    case _ =>
      StepGrows(c, w, s);
      GrowsKeeps(c, w, Next(c, w, s));
  }

  lemma StepOfRunKeeps(c: Config, ws: seq<World>, steps: seq<Step>, k: nat)
    requires Deployed(c) && Run(c, ws, steps) && Initial(c, ws[0]) && k < |steps|
    ensures Keeps(c, ws[k], ws[k + 1])
  {
    RunKeepsInv(c, ws, steps, k);
    assert Taken(c, ws, steps, k);
    StepKeeps(c, ws[k], steps[k]);
  }

  ghost predicate KeptTo(c: Config, ws: seq<World>, k: nat) {
    0 < k < |ws| && Keeps(c, ws[k - 1], ws[k])
  }

  lemma {:induction false} KeepsAlong(c: Config, ws: seq<World>, i: nat, j: nat)
    requires i <= j < |ws| && Sized(c, ws[i]) && forall k | i < k <= j :: KeptTo(c, ws, k)
    ensures Keeps(c, ws[i], ws[j])
    decreases j - i
  {
    if i == j {
      GrowsReflexive(c, ws[i]);
      GrowsKeeps(c, ws[i], ws[i]);
    } else {
      KeepsAlong(c, ws, i, j - 1);
      assert KeptTo(c, ws, j);
      KeepsTransitive(c, ws[i], ws[j - 1], ws[j]);
    }
  }

  /** No step of any run removes a row, changes a key's identity or parent or a version's pin, or
      replaces the material of a committed version: not even binding another provider does. */
  lemma NothingCommittedIsReplaced(c: Config, ws: seq<World>, steps: seq<Step>, i: nat, j: nat)
    requires Deployed(c) && Run(c, ws, steps) && Initial(c, ws[0]) && i <= j < |ws|
    ensures Keeps(c, ws[i], ws[j])
  {
    forall k | i < k <= j ensures KeptTo(c, ws, k) {
      StepOfRunKeeps(c, ws, steps, k - 1);
    }
    KeepsAlong(c, ws, i, j);
  }

  /** A version of a key other than the root key, at the node that manages it. */
  ghost predicate Owned(c: Config, w: World, n: Node, v: VersionId)
    requires Sized(c, w)
  {
    && IsNode(c, n) && v in TablesAt(w, n).versions
    && (n.AtRoot? ==> v.keyId in w.root.keys && w.root.keys[v.keyId].managedBy == c.name
                      && IndexOf(c.hierarchy.specs, w.root.keys[v.keyId].kind) > 0)
  }

  /** Every such version has its secret in the node's vault, in every reachable world. */
  lemma OwnedHasMaterial(c: Config, ws: seq<World>, steps: seq<Step>, j: nat, n: Node, v: VersionId)
    requires Deployed(c) && Run(c, ws, steps) && Initial(c, ws[0]) && j < |ws| && IsNode(c, n)
    requires Owned(c, ws[j], n, v)
    ensures Slot(n, v) in ws[j].vaults && ws[j].vaults[Slot(n, v)].Sealed?
  {
    RunKeepsInv(c, ws, steps, j);
  }

  // ------------------------------------------------------------------ what the root committed

  ghost predicate Manages(c: Config, n: Node, k: Key) {
    && IsNode(c, n)
    && match n
       case AtRoot => k.managedBy == c.name
       case AtAgent(a) => k.managedBy != c.name && FindAgent(c.agents, k.managedBy) == Some(a)
  }

  /** The secret of a version is where it should be. */
  ghost predicate Stored(c: Config, w: World, n: Node, v: VersionId)
    requires Sized(c, w) && IsNode(c, n)
  {
    v in TablesAt(w, n).versions && Slot(n, v) in w.vaults && w.vaults[Slot(n, v)].Sealed?
  }

  lemma ShippedIsStored(c: Config, w: World, v: VersionId) returns (n: Node)
    requires Inv(c, w) && Delivered(c, w) && v in w.root.versions && v.keyId in w.root.keys
    requires IndexOf(c.hierarchy.specs, w.root.keys[v.keyId].kind) > 0
    ensures Manages(c, n, w.root.keys[v.keyId])
    ensures n.AtRoot? || !HasReserved(w.root.keys[v.keyId].labels) ==> Stored(c, w, n, v) && Owned(c, w, n, v)
    ensures n.AtAgent? && HasReserved(w.root.keys[v.keyId].labels) ==> v !in TablesAt(w, n).versions && Slot(n, v) !in w.vaults
  {
    var k := w.root.keys[v.keyId];
    assert ManagerKnown(c, k) && Shipped(c, w, v);
    if k.managedBy == c.name {
      n := AtRoot;
    } else {
      var a := FindAgent(c.agents, k.managedBy).value;
      n := AtAgent(a);
      if v in w.agents[a].versions { assert Received(c, w, a, v); }
      if Slot(n, v) in w.vaults { assert Welcome(w, Slot(n, v)); }
    }
  }

  /** In every run, a version the root has committed for a key other than the root key has its row and
      its sealed secret at the node that manages the key, if and only if that node is the root or the
      stored key carries no reserved label. Otherwise neither row nor secret is there. */
  lemma CommittedHasMaterial(c: Config, ws: seq<World>, steps: seq<Step>, j: nat, v: VersionId) returns (n: Node)
    requires Deployed(c) && Run(c, ws, steps) && Initial(c, ws[0]) && j < |ws|
    requires v in ws[j].root.versions && v.keyId in ws[j].root.keys
    requires IndexOf(c.hierarchy.specs, ws[j].root.keys[v.keyId].kind) > 0
    ensures Manages(c, n, ws[j].root.keys[v.keyId])
    ensures Stored(c, ws[j], n, v) <==> n.AtRoot? || !HasReserved(ws[j].root.keys[v.keyId].labels)
    ensures !Stored(c, ws[j], n, v) ==> v !in TablesAt(ws[j], n).versions && Slot(n, v) !in ws[j].vaults
  {
    RunKeepsInv(c, ws, steps, j);
    RunDelivered(c, ws, steps, j);
    n := ShippedIsStored(c, ws[j], v);
  }

  lemma NewVersionInStep(c: Config, w: World, target: LifeCycle, kid: KeyIdentifier, f: TaskFaults, v: VersionId)
    requires Deployed(c) && Inv(c, w) && Delivered(c, w) && target != PreActivation
    requires var t := HandleTask(c, w, target, kid, f).world.root;
             v in t.versions && v !in w.root.versions && v.keyId in t.keys && t.keys[v.keyId].managedBy != c.name
    ensures var k := HandleTask(c, w, target, kid, f).world.root.keys[v.keyId];
            k.status == if HasReserved(k.labels) then Failed else Completed
  {
    TaskCases(c, w, target, kid, f);
    InvKeysById(c, w);
    var key := GetKey(w.root, kid.id, kid.tenant).value;
    assert RowsKeyed(TablesAt(w, AtRoot));
    RootAfterTask(c, w, key, f);
    NewVersionOutcome(c, w, key, f, v);
  }

  /** A task that commits a new version of an agent's key leaves the secret at the agent and completes
      the key, or fails it and leaves nothing there: exactly as the stored row carries no reserved
      label or carries one. */
  lemma TaskShipsIff(c: Config, ws: seq<World>, steps: seq<Step>, k: nat, v: VersionId) returns (n: Node)
    requires Deployed(c) && Run(c, ws, steps) && Initial(c, ws[0]) && k < |steps| && steps[k].TaskStep?
    requires v in ws[k + 1].root.versions && v !in ws[k].root.versions && v.keyId in ws[k + 1].root.keys
    requires ws[k + 1].root.keys[v.keyId].managedBy != c.name
    ensures var row := ws[k + 1].root.keys[v.keyId];
            && Manages(c, n, row)
            && (Stored(c, ws[k + 1], n, v) <==> !HasReserved(row.labels))
            && (row.status == Completed <==> !HasReserved(row.labels))
            && (row.status == Failed <==> HasReserved(row.labels))
  {
    TaskOfRunSettles(c, ws, steps, k, v);
    RunKeepsInv(c, ws, steps, k + 1);
    RunDelivered(c, ws, steps, k + 1);
    n := AgentVersionStored(c, ws[k + 1], v);
  }

  lemma TaskOfRunSettles(c: Config, ws: seq<World>, steps: seq<Step>, k: nat, v: VersionId)
    requires Deployed(c) && Run(c, ws, steps) && Initial(c, ws[0]) && k < |steps| && steps[k].TaskStep?
    requires v in ws[k + 1].root.versions && v !in ws[k].root.versions && v.keyId in ws[k + 1].root.keys
    requires ws[k + 1].root.keys[v.keyId].managedBy != c.name
    ensures var row := ws[k + 1].root.keys[v.keyId]; row.status == if HasReserved(row.labels) then Failed else Completed
  {
    RunKeepsInv(c, ws, steps, k);
    RunDelivered(c, ws, steps, k);
    assert Taken(c, ws, steps, k);
    NewVersionInStep(c, ws[k], Target(steps[k].action), steps[k].kid, steps[k].faults, v);
  }

  lemma AgentVersionStored(c: Config, w: World, v: VersionId) returns (n: Node)
    requires Inv(c, w) && Delivered(c, w) && v in w.root.versions && v.keyId in w.root.keys && w.root.keys[v.keyId].managedBy != c.name
    ensures Manages(c, n, w.root.keys[v.keyId])
    ensures Stored(c, w, n, v) <==> !HasReserved(w.root.keys[v.keyId].labels)
  {
    assert ManagerKnown(c, w.root.keys[v.keyId]);
    n := ShippedIsStored(c, w, v);
  }

  /** In every run root and agent pin a version they both hold to the same version of the same parent. */
  lemma PinsAgreeInEveryRun(c: Config, ws: seq<World>, steps: seq<Step>, j: nat, a: nat, v: VersionId)
    requires Deployed(c) && Run(c, ws, steps) && Initial(c, ws[0]) && j < |ws| && a < |ws[j].agents|
    requires v in ws[j].root.versions && v in ws[j].agents[a].versions
    ensures ws[j].root.versions[v].parentKey == ws[j].agents[a].versions[v].parentKey
    ensures ws[j].root.versions[v].parentVersion == ws[j].agents[a].versions[v].parentVersion
  {
    RunKeepsInv(c, ws, steps, j);
    RunDelivered(c, ws, steps, j);
    PinsAgree(c, ws[j], a, v);
  }

  lemma PinsAgree(c: Config, w: World, a: nat, v: VersionId)
    requires Inv(c, w) && Delivered(c, w) && a < |w.agents| && v in w.root.versions && v in w.agents[a].versions
    ensures w.root.versions[v].parentKey == w.agents[a].versions[v].parentKey
    ensures w.root.versions[v].parentVersion == w.agents[a].versions[v].parentVersion
  {
    assert Received(c, w, a, v) && RowInOrder(w.root, v);
    PinIsFirst(c, w, w.root, v);
    RowsFollowRoot(c, w, AtAgent(a), v);
  }

  lemma ProviderStepsAddRootVersions(c: Config, w: World, kid: KeyIdentifier, spec: ProviderSpec, kind: string,
                                     auth: nat, providerKey: string, f: ProviderFaults)
    requires Sized(c, w)
    ensures forall w2 | w2 in {CreateProvider(w, kid, spec, providerKey, f), RotateAuth(w, kid, kind, auth, f),
                               RotateProviderKey(w, kid, kind, providerKey, f), RemoveProvider(w, kid, f)} ::
              && w2.agents == w.agents && w2.root.keys == w.root.keys
              && forall v | v in w2.root.versions && v !in w.root.versions :: v.keyId == kid.id && v.tenant == kid.tenant
  {
  }

  /** Only tasks add versions of keys other than the root key. */
  lemma NewVersionsComeFromTasks(c: Config, w: World, s: Step, n: Node, v: VersionId)
    requires Deployed(c) && Inv(c, w) && Enabled(c, w, s) && Sized(c, Next(c, w, s))
    requires NewAt(c, w, Next(c, w, s), n, v)
    ensures s.TaskStep?
  {
    match s
    case AnnounceStep(req, id, now, f) => AnnounceCases(c, w, req, id, now, f);
    case AnnounceTaskStep(p, f) => AnnounceTaskLeavesVersions(c, w, p, f);
    case CreateProviderStep(kid, spec, pk, f) => ProviderStepsAddRootVersions(c, w, kid, spec, "", 0, pk, f);
    case RotateAuthStep(kid, kind, auth, f) => ProviderStepsAddRootVersions(c, w, kid, ProviderSpec(0, "", 0), kind, auth, "", f);
    case RotateKeyStep(kid, kind, pk, f) => ProviderStepsAddRootVersions(c, w, kid, ProviderSpec(0, "", 0), kind, 0, pk, f);
    case RemoveProviderStep(kid, f) => ProviderStepsAddRootVersions(c, w, kid, ProviderSpec(0, "", 0), "", 0, "", f);
    case TaskStep(_, _, _) =>
    case _ => OtherStepsLeaveVersions(c, w, s);
  }

  lemma OtherStepsLeaveVersions(c: Config, w: World, s: Step)
    requires Sized(c, w) && (s.CreateTenantStep? || s.ConfirmStep? || s.ActionStep?)
    ensures SameVersions(w, Next(c, w, s))
  {
  }

  lemma OwnedBefore(c: Config, w: World, s: Step, n: Node, v: VersionId)
    requires Deployed(c) && Inv(c, w) && Enabled(c, w, s) && Sized(c, Next(c, w, s)) && Owned(c, Next(c, w, s), n, v)
    ensures Owned(c, w, n, v) || (s.TaskStep? && NewAt(c, w, Next(c, w, s), n, v))
  {
    if v in TablesAt(w, n).versions {
      StepKeeps(c, w, s);
      RowsFollowRoot(c, w, n, v);
      assert KeepsRows(TablesAt(w, AtRoot), TablesAt(Next(c, w, s), AtRoot));
    } else {
      NewVersionsComeFromTasks(c, w, s, n, v);
    }
  }

  lemma OwnedBeforeInRun(c: Config, ws: seq<World>, steps: seq<Step>, k: nat, n: Node, v: VersionId)
    requires Deployed(c) && Run(c, ws, steps) && Initial(c, ws[0]) && k < |steps| && Owned(c, ws[k + 1], n, v)
    ensures Owned(c, ws[k], n, v) || (steps[k].TaskStep? && NewAt(c, ws[k], ws[k + 1], n, v))
  {
    RunKeepsInv(c, ws, steps, k);
    assert Taken(c, ws, steps, k);
    OwnedBefore(c, ws[k], steps[k], n, v);
  }

  lemma NothingOwnedAtFirst(c: Config, w: World, n: Node, v: VersionId)
    requires Initial(c, w)
    ensures !Owned(c, w, n, v)
  {
  }

  /** Every such version was committed by one task of the run. */
  lemma {:induction false} CommittedByATask(c: Config, ws: seq<World>, steps: seq<Step>, j: nat, n: Node, v: VersionId) returns (i: nat)
    requires Deployed(c) && Run(c, ws, steps) && Initial(c, ws[0]) && j < |ws| && Owned(c, ws[j], n, v)
    ensures i < j && steps[i].TaskStep? && NewAt(c, ws[i], ws[i + 1], n, v)
  {
    if j == 0 {
      NothingOwnedAtFirst(c, ws[0], n, v);
      assert false;
    } else {
      OwnedBeforeInRun(c, ws, steps, j - 1, n, v);
      if Owned(c, ws[j - 1], n, v) {
        i := CommittedByATask(c, ws, steps, j - 1, n, v);
      } else {
        i := j - 1;
      }
    }
  }

  /** So every version a node manages resolves, in every reachable world in which its chain is ready,
      to the secret drawn by the very attempt that committed it. */
  lemma EverySecretIsTheCommitted(c: Config, ws: seq<World>, steps: seq<Step>, j: nat, n: Node, v: VersionId) returns (i: nat)
    requires Deployed(c) && Run(c, ws, steps) && Initial(c, ws[0]) && j < |ws| && Owned(c, ws[j], n, v)
    requires forall k | 0 <= k < j :: KeepsBinding(ws[k], steps[k])
    ensures i < j && steps[i].TaskStep? && NewAt(c, ws[i], ws[i + 1], n, v)
    ensures KeepsSecret(c, ws[j], n, v, DrawAt(n, steps[i].faults).secret)
  {
    i := CommittedByATask(c, ws, steps, j, n, v);
    SecretForLife(c, ws, steps, i, j, n, v);
  }

  /** And so does every version the root has committed, at the node that manages its key, unless that
      is an agent and the stored key carries a reserved label. */
  lemma EveryRootVersionHasItsSecret(c: Config, ws: seq<World>, steps: seq<Step>, j: nat, v: VersionId) returns (n: Node, i: nat)
    requires Deployed(c) && Run(c, ws, steps) && Initial(c, ws[0]) && j < |ws|
    requires v in ws[j].root.versions && v.keyId in ws[j].root.keys
    requires IndexOf(c.hierarchy.specs, ws[j].root.keys[v.keyId].kind) > 0
    requires ws[j].root.keys[v.keyId].managedBy == c.name || !HasReserved(ws[j].root.keys[v.keyId].labels)
    requires forall k | 0 <= k < j :: KeepsBinding(ws[k], steps[k])
    ensures Manages(c, n, ws[j].root.keys[v.keyId])
    ensures i < j && steps[i].TaskStep? && NewAt(c, ws[i], ws[i + 1], n, v)
    ensures KeepsSecret(c, ws[j], n, v, DrawAt(n, steps[i].faults).secret)
  {
    RunKeepsInv(c, ws, steps, j);
    RunDelivered(c, ws, steps, j);
    n := ShippedIsStored(c, ws[j], v);
    i := EverySecretIsTheCommitted(c, ws, steps, j, n, v);
  }

  /** In every reachable store the keys form a forest that follows the hierarchy, so the ancestors of
      a key are a root-first chain, one per position. */
  lemma ForestInEveryRun(c: Config, ws: seq<World>, steps: seq<Step>, j: nat, i: Uuid)
    requires Deployed(c) && Run(c, ws, steps) && Initial(c, ws[0]) && j < |ws| && i in ws[j].root.keys
    ensures WellFormed(c.hierarchy.specs, ws[j].root)
    ensures var chain := Ancestors(c.hierarchy.specs, ws[j].root, i);
            && |chain| == IndexOf(c.hierarchy.specs, ws[j].root.keys[i].kind) + 1
            && chain[|chain| - 1] == ws[j].root.keys[i] && chain[0].parent.None?
            && forall d | 0 < d < |chain| :: chain[d].parent == Some(chain[d - 1].id)
  {
    RunKeepsInv(c, ws, steps, j);
    AncestorsAreAChain(c.hierarchy.specs, ws[j].root, i);
  }

  /** Whatever a node is asked for in a reachable world, resolving it ends within the hierarchy. */
  lemma ResolvingEnds(c: Config, ws: seq<World>, steps: seq<Step>, j: nat, n: Node, tenant: Uuid, keyId: Uuid, version: nat)
    requires Deployed(c) && Run(c, ws, steps) && Initial(c, ws[0]) && j < |ws| && IsNode(c, n)
    ensures SecretOf(c, ws[j], n, tenant, keyId, version, |c.hierarchy.specs|) != Err(OffHierarchy)
  {
    RunKeepsInv(c, ws, steps, j);
    InvPinsClimb(c, ws[j]);
    SecretClimbs(c, ws[j], n, tenant, keyId, version, |c.hierarchy.specs|);
  }
}

/** The task handler: ordered steps inside one transaction on the root's database. */
module Handler {
  import opened Model
  import opened Store
  import opened Hierarchy
  import opened Topology
  import opened Worlds
  import opened Agent
  import opened Protocol
  import opened Clusters
  import opened Transactions
  import opened Histories

  /** How a step that does not go through wants the task to end. */
  datatype OperatorError = OrbitalContinue | OrbitalFail | OrbitalComplete

  class Response {
    var disposition: Disposition

    constructor ()
      ensures disposition == Continue
    {
      disposition := Continue;
    }

    /** Records the disposition. Only a retry is passed on as an error, which rolls the transaction back. */
    method Apply(e: OperatorError) returns (rollBack: bool)
      modifies this
      ensures rollBack == (e == OrbitalContinue)
      ensures disposition == match e case OrbitalContinue => Continue case OrbitalFail => Fail case OrbitalComplete => Complete
    {
      match e {
        case OrbitalContinue => disposition := Continue;
        case OrbitalFail => disposition := Fail;
        case OrbitalComplete => disposition := Complete;
      }
      rollBack := e == OrbitalContinue;
    }
  }

  /** The transaction after the row was marked failed, and how the task then ends. */
  ghost predicate MarkedFailed(t: Tables, key: Key, f: TaskFaults, t2: Tables, r: Option<OperatorError>) {
    match UpdateKeyStates(t, key.id, key.tenant, {key.life}, {key.status}, key.life, Failed)
    case None => r == Some(OrbitalContinue)
    case Some(failed) =>
      if f.markFailed then r == Some(OrbitalContinue) else r == Some(OrbitalFail) && t2 == failed
  }

  class KeyOperator {
    const cluster: Cluster
    const tx: Tx
    var key: Option<Key>
    var keyVersion: Option<KeyVersion>
    var isNewKV: bool

    constructor (cluster: Cluster, tx: Tx)
      ensures this.cluster == cluster && this.tx == tx && key == None && keyVersion == None && !isNewKV
    {
      this.cluster, this.tx := cluster, tx;
      key, keyVersion, isNewKV := None, None, false;
    }

    method MarkKeyFailed(f: TaskFaults) returns (r: Option<OperatorError>)
      requires key.Some?
      modifies tx
      ensures MarkedFailed(old(tx.tables), key.value, f, tx.tables, r)
    {
      var k := key.value;
      if f.markFailed { return Some(OrbitalContinue); }
      var matched := tx.UpdateKeyStates(k.id, k.tenant, {k.life}, {k.status}, k.life, Failed);
      return Some(if matched then OrbitalFail else OrbitalContinue);
    }

    method ResolveKeyAndVersions(kid: KeyIdentifier, f: TaskFaults) returns (r: Option<OperatorError>)
      requires keyVersion == None && !isNewKV
      modifies this, tx
      ensures var k, t := GetKey(old(tx.tables), kid.id, kid.tenant), old(tx.tables);
              if f.loadRead then r == Some(OrbitalContinue)
              else if k.None? then r == Some(OrbitalFail) && tx.tables == t
              else
                && key == k
                && match ResolveVersion(t, k.value, f)
                   case Resolved(t2, kv, isNew) => r == None && tx.tables == t2 && keyVersion == Some(kv) && isNewKV == isNew
                   case ResolveLater => r == Some(OrbitalContinue)
                   case NoParentVersion => MarkedFailed(t, k.value, f, tx.tables, r)
    {
      if f.loadRead { return Some(OrbitalContinue); }
      key := GetKey(tx.tables, kid.id, kid.tenant);
      if key.None? { return Some(OrbitalFail); }
      r := ResolveKeyVersions(f);
    }

    method ResolveKeyVersions(f: TaskFaults) returns (r: Option<OperatorError>)
      requires key.Some? && keyVersion == None && !isNewKV
      modifies this`keyVersion, this`isNewKV, tx
      ensures match ResolveVersion(old(tx.tables), key.value, f)
              case Resolved(t2, kv, isNew) => r == None && tx.tables == t2 && keyVersion == Some(kv) && isNewKV == isNew
              case ResolveLater => r == Some(OrbitalContinue)
              case NoParentVersion => MarkedFailed(old(tx.tables), key.value, f, tx.tables, r)
    {
      var k := key.value;
      if f.listOwn { return Some(OrbitalContinue); }
      var latest := tx.NewestVersion(k.tenant, k.id, LATEST);
      if latest.Some? {
        if f.updateVersion { return Some(OrbitalContinue); }
        var found := latest.value;
        var matched := tx.UpdateVersionStates(found.id, {found.life}, {found.processing}, k.life, Usable);
        if !matched { return Some(OrbitalContinue); }
        keyVersion := Some(latest.value.(life := k.life, processing := Usable));
        return None;
      }
      var parentVersion: Option<nat> := None;
      if k.parent.Some? {
        if f.listParent { return Some(OrbitalContinue); }
        var pin := tx.NewestVersion(k.tenant, k.parent.value, LATEST_ACTIVE);
        if pin.None? {
          r := MarkKeyFailed(f);
          return;
        }
        parentVersion := Some(pin.value.id.version);
      }
      if f.createVersion { return Some(OrbitalContinue); }
      var kv := FirstVersion(k, parentVersion);
      var created := tx.CreateVersion(kv);
      if !created { return Some(OrbitalContinue); }
      keyVersion, isNewKV := Some(kv), true;
      return None;
    }

    /** The outcome of a stage, whose effects outside the transaction are in the cluster by then. */
    ghost predicate Staged(t: Tables, f: TaskFaults, v: Verdict, r: Option<OperatorError>)
      reads this, tx
    {
      match v
      case Done => r == None && tx.tables == t
      case Later => r == Some(OrbitalContinue)
      case GiveUp => key.Some? && MarkedFailed(t, key.value, f, tx.tables, r)
    }

    method GenerateAndSealSecret(f: TaskFaults) returns (r: Option<OperatorError>)
      requires key.Some? && keyVersion.Some? && cluster.Valid()
      modifies cluster`vaults, tx
      ensures cluster.Valid()
      ensures var s := SealLocally(cluster.config, old(cluster.View()), key.value, keyVersion.value, isNewKV, f);
              cluster.View() == s.world && Staged(old(tx.tables), f, s.verdict, r)
    {
      var s := FindKeySpec(cluster.config.hierarchy.specs, key.value.kind);
      if s.None? {
        r := MarkKeyFailed(f);
        return;
      }
      if key.value.managedBy != cluster.config.name || s.value.role == RootRole || !isNewKV { return None; }
      var ok := cluster.SealNewSecret(AtRoot, key.value.kind, keyVersion.value, f.seal);
      return if ok then None else Some(OrbitalContinue);
    }

    method UpsertRemote(f: TaskFaults) returns (r: Option<OperatorError>)
      requires key.Some? && keyVersion.Some? && cluster.Valid()
      modifies cluster`vaults, cluster`agents, tx
      ensures cluster.Valid()
      ensures var p := Protocol.UpsertRemote(cluster.config, old(cluster.View()), key.value, keyVersion.value, f);
              cluster.View() == p.world && Staged(old(tx.tables), f, p.verdict, r)
    {
      if key.value.managedBy == cluster.config.name { return None; }
      var a := FindAgent(cluster.config.agents, key.value.managedBy);
      if a.None? {
        r := MarkKeyFailed(f);
        return;
      }
      r := UpsertRemoteKey(a.value, f);
      if r.Some? { return; }
      r := UpsertRemoteKeyVersion(a.value, f);
    }

    method UpsertRemoteKey(a: nat, f: TaskFaults) returns (r: Option<OperatorError>)
      requires key.Some? && cluster.Valid() && a < |cluster.agents|
      modifies cluster`agents, tx
      ensures cluster.Valid() && a < |cluster.agents|
      ensures var p := CallUpsertKey(old(cluster.View()), a, key.value, f.keyCall);
              cluster.View() == p.world && Staged(old(tx.tables), f, p.verdict, r)
    {
      if !f.keyCall.sent { return Some(OrbitalContinue); }
      var reply := cluster.ServeUpsertKey(a, key.value, f.keyCall.faults);
      if !f.keyCall.answered || reply == Retry { return Some(OrbitalContinue); }
      if reply == Abort {
        r := MarkKeyFailed(f);
      } else {
        r := None;
      }
    }

    method UpsertRemoteKeyVersion(a: nat, f: TaskFaults) returns (r: Option<OperatorError>)
      requires key.Some? && keyVersion.Some? && cluster.Valid() && a < |cluster.agents|
      modifies cluster`vaults, cluster`agents, tx
      ensures cluster.Valid()
      ensures var p := CallUpsertVersion(cluster.config, old(cluster.View()), a, keyVersion.value, f.versionCall);
              cluster.View() == p.world && Staged(old(tx.tables), f, p.verdict, r)
    {
      if !f.versionCall.sent { return Some(OrbitalContinue); }
      var reply := cluster.ServeUpsertVersion(a, keyVersion.value, f.versionCall.faults);
      if !f.versionCall.answered || reply == Retry { return Some(OrbitalContinue); }
      if reply == Abort {
        r := MarkKeyFailed(f);
      } else {
        r := None;
      }
    }

    method MarkKeyCompleted(f: TaskFaults) returns (r: Option<OperatorError>)
      requires key.Some?
      modifies tx
      ensures match UpdateKeyStates(old(tx.tables), key.value.id, key.value.tenant, {key.value.life}, {Pending}, key.value.life, Completed)
              case None => r == Some(OrbitalContinue)
              case Some(t2) => if f.markCompleted then r == Some(OrbitalContinue) else r == None && tx.tables == t2
    {
      if f.markCompleted { return Some(OrbitalContinue); }
      var k := key.value;
      var matched := tx.UpdateKeyStates(k.id, k.tenant, {k.life}, {Pending}, k.life, Completed);
      return if matched then None else Some(OrbitalContinue);
    }
  }

  /** What the transaction leaves behind: the root's tables at commit, calls and vault writes anyway. */
  ghost function Finish(w: World, t: Tables, d: Disposition, f: TaskFaults): (o: Outcome) {
    if d == Continue then Outcome(w, Continue) else Commit(w, t, d, f)
  }

  /** The steps of a due task, up to the end of the transaction. */
  method Operate(cluster: Cluster, tx: Tx, kid: KeyIdentifier, f: TaskFaults, resp: Response) returns (rollBack: bool)
    requires cluster.Valid() && tx.tables == cluster.root && !f.loadRead && GetKey(cluster.root, kid.id, kid.tenant).Some?
    modifies cluster`vaults, cluster`agents, tx, resp
    ensures cluster.Valid()
    ensures Finish(cluster.View(), tx.tables, resp.disposition, f)
            == Process(cluster.config, old(cluster.View()), GetKey(old(cluster.root), kid.id, kid.tenant).value, f)
    ensures rollBack == (resp.disposition == Continue)
  {
    var proc := new KeyOperator(cluster, tx);
    var e := proc.ResolveKeyAndVersions(kid, f);
    if e.Some? {
      rollBack := resp.Apply(e.value);
      return;
    }
    e := proc.GenerateAndSealSecret(f);
    if e.Some? {
      rollBack := resp.Apply(e.value);
      return;
    }
    e := proc.UpsertRemote(f);
    if e.Some? {
      rollBack := resp.Apply(e.value);
      return;
    }
    e := proc.MarkKeyCompleted(f);
    rollBack := resp.Apply(if e.Some? then e.value else OrbitalComplete);
  }

  /** One delivery of a task: afterwards cluster and response are what the protocol step says. */
  method Handle(cluster: Cluster, target: LifeCycle, kid: KeyIdentifier, f: TaskFaults, resp: Response)
    requires cluster.Valid()
    modifies cluster, resp
    ensures cluster.Valid() && Sized(cluster.config, old(cluster.View()))
    ensures var o := HandleTask(cluster.config, old(cluster.View()), target, kid, f);
            cluster.View() == o.world && resp.disposition == o.disposition
  {
    var rollBack: bool;
    if f.begin || f.tenantRead {
      rollBack := resp.Apply(OrbitalContinue);
      return;
    }
    var tx := new Tx(cluster.root);
    if kid.tenant !in tx.tables.tenants {
      rollBack := resp.Apply(OrbitalFail);
      return;
    }
    if f.ensureRead {
      rollBack := resp.Apply(OrbitalContinue);
      return;
    }
    var key := GetKey(tx.tables, kid.id, kid.tenant);
    if key.None? {
      rollBack := resp.Apply(OrbitalFail);
      return;
    }
    if key.value.life != target || key.value.status != Pending {
      rollBack := resp.Apply(OrbitalComplete);
      return;
    }
    if f.loadRead {
      rollBack := resp.Apply(OrbitalContinue);
      return;
    }
    rollBack := Operate(cluster, tx, kid, f, resp);
    if rollBack { return; }
    if f.commit {
      rollBack := resp.Apply(OrbitalContinue);
      return;
    }
    DispositionMatchesStore(cluster.config, old(cluster.View()), target, kid, f);
    cluster.root := tx.tables;
  }
}

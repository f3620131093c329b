/** The root's side of the key-action protocol, one atomic step per handler call. Every step takes a
    record of what goes wrong in it; transactions roll back, vault writes and calls to agents do not. */
module Protocol {
  import opened Model
  import opened Store
  import opened Hierarchy
  import opened Topology
  import opened Worlds
  import opened Agent

  datatype KeyIdentifier = KeyIdentifier(id: Uuid, tenant: Uuid)

  /** What the scheduler is told: deliver again later, give up, or done. */
  datatype Disposition = Continue | Fail | Complete

  datatype Outcome = Outcome(world: World, disposition: Disposition)

  /** A remote call: whether it reached the agent, and whether its answer came back. */
  datatype Call<F> = Call(sent: bool, answered: bool, faults: F)

  datatype TaskFaults = TaskFaults(
    begin: bool, tenantRead: bool, ensureRead: bool, loadRead: bool,
    listOwn: bool, updateVersion: bool, listParent: bool, createVersion: bool,
    seal: SealFaults, keyCall: Call<KeyFaults>, versionCall: Call<VersionFaults>,
    markFailed: bool, markCompleted: bool, commit: bool)

  // -------------------------------------------------------------- version resolution

  datatype Resolution = Resolved(tables: Tables, version: KeyVersion, isNew: bool) | NoParentVersion | ResolveLater

  function FirstVersion(key: Key, parentVersion: Option<nat>): (kv: KeyVersion) {
    KeyVersion(VersionId(key.tenant, key.id, 1, 1), key.parent, parentVersion, key.life, Usable, None)
  }

  ghost function DeriveFromParent(t: Tables, key: Key, f: TaskFaults): (r: Resolution) {
    var pin :=
      match key.parent
      case None => None
      case Some(p) => Newest(t, key.tenant, p, LATEST_ACTIVE);
    if key.parent.Some? && f.listParent then ResolveLater
    else if key.parent.Some? && pin.None? then NoParentVersion
    else
      var kv := FirstVersion(key, if pin.None? then None else Some(pin.value.id.version));
      if f.createVersion || kv.id in t.versions then ResolveLater
      else Resolved(InsertVersion(t, kv), kv, true)
  }

  /** Move the latest version to the key's state, or create version 1 pinned to the parent's latest
      usable active version. */
  ghost function ResolveVersion(t: Tables, key: Key, f: TaskFaults): (r: Resolution) {
    if f.listOwn then ResolveLater
    else
      match Newest(t, key.tenant, key.id, LATEST)
      case None => DeriveFromParent(t, key, f)
      case Some(kv) =>
        match UpdateVersionStates(t, kv.id, {kv.life}, {kv.processing}, key.life, Usable)
        case None => ResolveLater
        case Some(t2) =>
          if f.updateVersion then ResolveLater else Resolved(t2, kv.(life := key.life, processing := Usable), false)
  }

  // -------------------------------------------------------------------- the push

  datatype Verdict = Done | Later | GiveUp

  datatype Pushed = Pushed(world: World, verdict: Verdict)

  function AsVerdict(sent: bool, answered: bool, r: Reply): (v: Verdict) {
    if !sent || !answered || r.Retry? then Later else if r.Abort? then GiveUp else Done
  }

  ghost function CallUpsertKey(w: World, a: nat, key: Key, call: Call<KeyFaults>): (r: Pushed)
    requires a < |w.agents|
  {
    var s := UpsertKeyAt(w, a, key, call.faults);
    Pushed(if call.sent then s.world else w, AsVerdict(call.sent, call.answered, s.reply))
  }

  ghost function CallUpsertVersion(c: Config, w: World, a: nat, kv: KeyVersion, call: Call<VersionFaults>): (r: Pushed)
    requires Sized(c, w) && a < |w.agents|
  {
    var s := UpsertVersionAt(c, w, a, kv, call.faults);
    Pushed(if call.sent then s.world else w, AsVerdict(call.sent, call.answered, s.reply))
  }

  /** Push key and version to the agent that manages the key; nothing to do for the root's own keys. */
  ghost function UpsertRemote(c: Config, w: World, key: Key, kv: KeyVersion, f: TaskFaults): (r: Pushed)
    requires Sized(c, w)
  {
    if key.managedBy == c.name then Pushed(w, Done)
    else
      match FindAgent(c.agents, key.managedBy)
      case None => Pushed(w, GiveUp)
      case Some(a) =>
        var p := CallUpsertKey(w, a, key, f.keyCall);
        if !p.verdict.Done? then p
        else CallUpsertVersion(c, p.world, a, kv, f.versionCall)
  }

  // ------------------------------------------------------------------- the task

  ghost function Commit(w: World, t: Tables, d: Disposition, f: TaskFaults): (r: Outcome) {
    if f.commit then Outcome(w, Continue) else Outcome(w.(root := t), d)
  }

  ghost function MarkFailed(w: World, t: Tables, key: Key, f: TaskFaults): (r: Outcome) {
    match UpdateKeyStates(t, key.id, key.tenant, {key.life}, {key.status}, key.life, Failed)
    case None => Outcome(w, Continue)
    case Some(t2) => if f.markFailed then Outcome(w, Continue) else Commit(w, t2, Fail, f)
  }

  ghost function MarkCompleted(w: World, t: Tables, key: Key, f: TaskFaults): (r: Outcome) {
    match UpdateKeyStates(t, key.id, key.tenant, {key.life}, {Pending}, key.life, Completed)
    case None => Outcome(w, Continue)
    case Some(t2) => if f.markCompleted then Outcome(w, Continue) else Commit(w, t2, Complete, f)
  }

  datatype LocalSeal = LocalSeal(world: World, verdict: Verdict)

  /** Seal a secret for a new version the root itself manages; the root key has none. */
  ghost function SealLocally(c: Config, w: World, key: Key, kv: KeyVersion, isNew: bool, f: TaskFaults): (r: LocalSeal)
    requires Sized(c, w)
  {
    match FindKeySpec(c.hierarchy.specs, key.kind)
    case None => LocalSeal(w, GiveUp)
    case Some(s) =>
      if key.managedBy != c.name || s.role == RootRole || !isNew then LocalSeal(w, Done)
      else
        var g := GenerateAndSeal(c, w, AtRoot, key.kind, kv, f.seal);
        LocalSeal(g.world, if g.ok then Done else Later)
  }

  ghost function Process(c: Config, w: World, key: Key, f: TaskFaults): (r: Outcome)
    requires Sized(c, w)
  {
    match ResolveVersion(w.root, key, f)
    case ResolveLater => Outcome(w, Continue)
    case NoParentVersion => MarkFailed(w, w.root, key, f)
    case Resolved(t, kv, isNew) =>
      var s := SealLocally(c, w, key, kv, isNew, f);
      match s.verdict
      case Later => Outcome(s.world, Continue)
      case GiveUp => MarkFailed(s.world, t, key, f)
      case Done =>
        var p := UpsertRemote(c, s.world, key, kv, f);
        match p.verdict
        case Later => Outcome(p.world, Continue)
        case GiveUp => MarkFailed(p.world, t, key, f)
        case Done => MarkCompleted(p.world, t, key, f)
  }

  /** One delivery of an activate, suspend or deactivate task. */
  ghost function HandleTask(c: Config, w: World, target: LifeCycle, kid: KeyIdentifier, f: TaskFaults): (r: Outcome)
    requires Sized(c, w)
  {
    if f.begin || f.tenantRead then Outcome(w, Continue)
    else if kid.tenant !in w.root.tenants then Outcome(w, Fail)
    else if f.ensureRead then Outcome(w, Continue)
    else
      match GetKey(w.root, kid.id, kid.tenant)
      case None => Outcome(w, Fail)
      case Some(key) =>
        if key.life != target || key.status != Pending then Outcome(w, Complete)
        else if f.loadRead then Outcome(w, Continue)
        else Process(c, w, key, f)
  }
}

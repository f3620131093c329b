/** What a task tells the scheduler, and how key states move along runs. */
module Histories {
  import opened Model
  import opened Store
  import opened Topology
  import opened Lifecycle
  import opened Worlds
  import opened Protocol
  import opened Forest
  import opened KeyAction
  import opened Steps
  import opened Invariant
  import opened Preservation

  // ------------------------------------------------------------------ dispositions

  lemma ResolvingLeavesKeys(t: Tables, key: Key, f: TaskFaults)
    requires ResolveVersion(t, key, f).Resolved?
    ensures ResolveVersion(t, key, f).tables.keys == t.keys
  {
  }

  lemma MarkedAs(w: World, w1: World, t: Tables, key: Key, f: TaskFaults)
    requires key.id in w.root.keys && w.root.keys[key.id] == key && key.status == Pending
    requires w1.root == w.root && t.keys == w.root.keys
    ensures Matches(w, key, MarkFailed(w1, t, key, f)) && Matches(w, key, MarkCompleted(w1, t, key, f))
  {
  }

  /** The committed root row says what the scheduler was told. */
  ghost predicate Matches(w: World, key: Key, o: Outcome) {
    match o.disposition
    case Continue => o.world.root == w.root
    case Fail => o.world.root.keys == w.root.keys[key.id := key.(status := Failed)]
    case Complete => o.world.root.keys == w.root.keys[key.id := key.(status := Completed)]
  }

  lemma ProcessMatches(c: Config, w: World, key: Key, f: TaskFaults)
    requires Sized(c, w) && key.id in w.root.keys && w.root.keys[key.id] == key && key.status == Pending
    ensures Matches(w, key, Process(c, w, key, f))
  {
    var r := ResolveVersion(w.root, key, f);
    if r.Resolved? {
      ResolvingLeavesKeys(w.root, key, f);
      CallsLeaveRootAlone(c, w, key, r.version, r.isNew, f);
      var s := SealLocally(c, w, key, r.version, r.isNew, f);
      CallsLeaveRootAlone(c, s.world, key, r.version, r.isNew, f);
      MarkedAs(w, s.world, r.tables, key, f);
      MarkedAs(w, UpsertRemote(c, s.world, key, r.version, f).world, r.tables, key, f);
    } else {
      MarkedAs(w, w, w.root, key, f);
    }
  }

  /** A row a task still has to work on. */
  predicate Due(w: World, target: LifeCycle, kid: KeyIdentifier) {
    var k := GetKey(w.root, kid.id, kid.tenant);
    kid.tenant in w.root.tenants && k.Some? && k.value.life == target && k.value.status == Pending
  }

  /** Told to continue: the root store is as before. Told it failed: tenant or key are missing, or
      the row was due and is now committed as failed. Told it is complete: the row was there and not
      due, and nothing happened at all, or it was due and is now committed as completed. */
  lemma DispositionMatchesStore(c: Config, w: World, target: LifeCycle, kid: KeyIdentifier, f: TaskFaults)
    requires Sized(c, w) && KeysById(w.root)
    ensures var o, k := HandleTask(c, w, target, kid, f), GetKey(w.root, kid.id, kid.tenant);
            match o.disposition
            case Continue => o.world.root == w.root
            case Fail =>
              if kid.tenant !in w.root.tenants || k.None? then o.world == w
              else Due(w, target, kid) && o.world.root.keys == w.root.keys[kid.id := k.value.(status := Failed)]
            case Complete =>
              && kid.tenant in w.root.tenants && k.Some?
              && if !Due(w, target, kid) then o.world == w
                 else o.world.root.keys == w.root.keys[kid.id := k.value.(status := Completed)]
  {
    if Due(w, target, kid) { ProcessMatches(c, w, GetKey(w.root, kid.id, kid.tenant).value, f); }
  }

  /** Only a due row gives a delivery anything to do, in the root, at an agent or in a vault. */
  lemma NothingDueNothingDone(c: Config, w: World, target: LifeCycle, kid: KeyIdentifier, f: TaskFaults)
    requires Sized(c, w) && !Due(w, target, kid)
    ensures HandleTask(c, w, target, kid, f).world == w
  {
  }

  /** After complete, delivering again changes nothing anywhere, whatever goes wrong in it. */
  lemma RedeliveryIsInert(c: Config, w: World, target: LifeCycle, kid: KeyIdentifier, f: TaskFaults, f2: TaskFaults)
    requires Sized(c, w) && KeysById(w.root) && HandleTask(c, w, target, kid, f).disposition == Complete
    requires Sized(c, HandleTask(c, w, target, kid, f).world)
    ensures var w2 := HandleTask(c, w, target, kid, f).world; HandleTask(c, w2, target, kid, f2).world == w2
  {
    var w2 := HandleTask(c, w, target, kid, f).world;
    DispositionMatchesStore(c, w, target, kid, f);
    NothingDueNothingDone(c, w2, target, kid, f2);
  }

  // ------------------------------------------------------------------ lifecycle changes

  /** An announce that commits onto an existing row. */
  ghost predicate Reannounces(c: Config, w: World, s: Step, i: Uuid)
    requires i in w.root.keys
  {
    && s.AnnounceStep?
    && var k := NewKey(c, s.req, s.id, s.now);
       && ValidAnnounce(c, s.req) && k.tenant in w.root.tenants && FitsHierarchy(c.hierarchy.specs, w.root, k)
       && !s.announceFaults.store && !s.announceFaults.prepareError && !s.announceFaults.commit
       && w.root.keys[i].IsSame(k)
  }

  /** A re-announce resets the row to pre-activation, whatever its state, without asking the
      lifecycle table: the change is legal exactly when the row never left pre-activation. Any other
      announce leaves the row as it is. */
  lemma ReannounceLegalIff(c: Config, w: World, s: Step, i: Uuid)
    requires Sized(c, w) && NamesUnique(w.root) && i in w.root.keys && s.AnnounceStep? && Enabled(c, w, s)
    ensures i in Next(c, w, s).root.keys
    ensures var k, k2 := w.root.keys[i], Next(c, w, s).root.keys[i];
            if Reannounces(c, w, s, i) then
              && k2 == k.(life := PreActivation, status := Pending)
              && (Legal(k.life, k2.life) <==> k.life == PreActivation)
            else k2 == k
  {
    var k := NewKey(c, s.req, s.id, s.now);
    if NameTaken(w.root, k.tenant, k.name) {
      assert w.root.keys[i].IsSame(k) ==> IdByName(w.root, k.tenant, k.name) == i;
    }
  }

  lemma {:induction false} PassingIsLegal(a: Action, k: Key)
    requires Passes(Filters(a), k) || PassesAlone(Filters(a), k)
    ensures Legal(k.life, Target(a)) && k.status != InProgress
  {
    var fs := Filters(a);
    assert Constrains(fs[0]);
    assert forall f | f in fs :: Constrains(f);
  }

  lemma ActionIsLegal(c: Config, w: World, s: Step, i: Uuid)
    requires KeysById(w.root) && i in w.root.keys && s.ActionStep? && Enabled(c, w, s)
    ensures var k, k2 := w.root.keys[i], Moved(w.root, Target(s.action), s.tree).keys[i];
            if InWork(Target(s.action), s.tree, i) then
              k2 == k.(life := Target(s.action), status := Pending) && Legal(k.life, k2.life) && k.status != InProgress
            else k2 == k
  {
    var req := Request(s.action, s.kid, s.cascading);
    if InWork(Target(s.action), s.tree, i) {
      WorkPasses(w.root, req, s.tree, i);
      PassingIsLegal(s.action, w.root.keys[i]);
    }
  }

  lemma AnnounceTaskLegal(c: Config, w: World, p: Key, f: AnnounceTaskFaults, i: Uuid)
    requires Sized(c, w) && i in w.root.keys
    ensures var t := HandleAnnounce(c, w, p, f).world.root;
            && i in t.keys
            && (t.keys[i] == w.root.keys[i]
                || (w.root.keys[i].life == PreActivation && w.root.keys[i].status == InProgress
                    && t.keys[i] in {w.root.keys[i].(status := Failed), w.root.keys[i].(status := Completed)}))
  {
    var w1 := PushTenant(c, w, p, f).world;
    AnnounceTaskCases(c, w, p, f);
    PushesLeaveRoot(c, w, p, f);
    PushesLeaveRoot(c, w1, p, f);
  }

  lemma PushesLeaveRoot(c: Config, w: World, p: Key, f: AnnounceTaskFaults)
    requires Sized(c, w)
    ensures PushTenant(c, w, p, f).world.root == w.root && PushKey(c, w, p, f).world.root == w.root
  {
  }

  /** A row that tasks have moved only changed its status, and only if it was due. */
  lemma TaskLegal(c: Config, w: World, target: LifeCycle, kid: KeyIdentifier, f: TaskFaults, i: Uuid)
    requires Sized(c, w) && KeysById(w.root) && i in w.root.keys
    ensures var t := HandleTask(c, w, target, kid, f).world.root;
            && i in t.keys
            && (t.keys[i] == w.root.keys[i]
                || (kid.id == i && w.root.keys[i].life == target && w.root.keys[i].status == Pending
                    && t.keys[i] in {w.root.keys[i].(status := Failed), w.root.keys[i].(status := Completed)}))
  {
    DispositionMatchesStore(c, w, target, kid, f);
  }

  /** What a step may make of a root row. */
  ghost predicate RowMoves(c: Config, w: World, s: Step, i: Uuid, k2: Key)
    requires i in w.root.keys
  {
    var k := w.root.keys[i];
    match s
    case AnnounceStep(_, _, _, _) => k2 == if Reannounces(c, w, s, i) then k.(life := PreActivation, status := Pending) else k
    case ActionStep(a, _, _, tree) =>
      if InWork(Target(a), tree, i) then k2 == k.(life := Target(a), status := Pending) && Legal(k.life, Target(a)) && k.status != InProgress
      else k2 == k
    case ConfirmStep(p, failed) =>
      k2 == if !failed && p.id == i && p.tenant == k.tenant && k.status == Pending then k.(status := InProgress) else k
    case TaskStep(a, kid, _) =>
      || k2 == k
      || (kid.id == i && k.life == Target(a) && k.status == Pending && k2 in {k.(status := Failed), k.(status := Completed)})
    case AnnounceTaskStep(_, _) =>
      || k2 == k
      || (k.life == PreActivation && k.status == InProgress && k2 in {k.(status := Failed), k.(status := Completed)})
    case _ => k2 == k
  }

  lemma RowStep(c: Config, w: World, s: Step, i: Uuid)
    requires Sized(c, w) && KeysById(w.root) && NamesUnique(w.root) && i in w.root.keys && Enabled(c, w, s)
    ensures i in Next(c, w, s).root.keys && RowMoves(c, w, s, i, Next(c, w, s).root.keys[i])
  {
    match s
    case AnnounceStep(_, _, _, _) => ReannounceLegalIff(c, w, s, i);
    case ActionStep(_, _, _, _) => ActionIsLegal(c, w, s, i);
    case AnnounceTaskStep(p, f) => AnnounceTaskLegal(c, w, p, f, i);
    case TaskStep(a, kid, f) => TaskLegal(c, w, Target(a), kid, f, i);
    case _ =>
  }

  /** Every lifecycle change is a self-loop or an edge of the table, re-announces of rows past
      pre-activation excepted. */
  lemma StepIsLegal(c: Config, w: World, s: Step, i: Uuid)
    requires Sized(c, w) && KeysById(w.root) && NamesUnique(w.root) && i in w.root.keys && Enabled(c, w, s)
    ensures i in Next(c, w, s).root.keys
    ensures Legal(w.root.keys[i].life, Next(c, w, s).root.keys[i].life) <==>
            !(Reannounces(c, w, s, i) && w.root.keys[i].life != PreActivation)
  {
    RowStep(c, w, s, i);
  }

  /** A step that takes a row somewhere the table does not lead. */
  ghost predicate Slips(c: Config, w: World, s: Step, i: Uuid) {
    i in w.root.keys && Reannounces(c, w, s, i) && w.root.keys[i].life != PreActivation
  }

  /** The states of a key along a run; a key is in pre-activation from the start. */
  ghost function History(ws: seq<World>, i: Uuid): (h: seq<LifeCycle>)
    ensures |h| == |ws|
    ensures forall k | 0 <= k < |ws| :: h[k] == LifeAt(ws[k], i)
  {
    seq(|ws|, k requires 0 <= k < |ws| => LifeAt(ws[k], i))
  }

  ghost function LifeAt(w: World, i: Uuid): (s: LifeCycle) {
    if i in w.root.keys then w.root.keys[i].life else PreActivation
  }

  /** A new row starts in pre-activation. */
  lemma NewRowsArePreActivation(c: Config, w: World, s: Step, i: Uuid)
    requires Sized(c, w) && KeysById(w.root) && i !in w.root.keys && i in Next(c, w, s).root.keys && Enabled(c, w, s)
    ensures Next(c, w, s).root.keys[i].life == PreActivation
  {
    match s
    case AnnounceStep(req, id, now, f) => AnnounceCases(c, w, req, id, now, f);
    case TaskStep(a, kid, f) => DispositionMatchesStore(c, w, Target(a), kid, f);
    case AnnounceTaskStep(p, f) =>
      AnnounceTaskCases(c, w, p, f);
      PushesLeaveRoot(c, w, p, f);
      PushesLeaveRoot(c, PushTenant(c, w, p, f).world, p, f);
    case _ =>
  }

  lemma StepOfRunLegal(c: Config, ws: seq<World>, steps: seq<Step>, k: nat, i: Uuid)
    requires Deployed(c) && Run(c, ws, steps) && Initial(c, ws[0]) && k < |steps|
    ensures Legal(LifeAt(ws[k], i), LifeAt(ws[k + 1], i)) <==> !Slips(c, ws[k], steps[k], i)
  {
    RunKeepsInv(c, ws, steps, k);
    assert Taken(c, ws, steps, k) && RowsKeyed(TablesAt(ws[k], AtRoot));
    if i in ws[k].root.keys {
      StepIsLegal(c, ws[k], steps[k], i);
    } else if i in ws[k + 1].root.keys {
      NewRowsArePreActivation(c, ws[k], steps[k], i);
    }
  }

  /** Along any stretch of any run, the states of a key follow the table if and only if no announce of
      the stretch commits onto the row after it left pre-activation. */
  lemma HistoryLegalIff(c: Config, ws: seq<World>, steps: seq<Step>, a: nat, b: nat, i: Uuid)
    requires Deployed(c) && Run(c, ws, steps) && Initial(c, ws[0]) && a <= b < |ws|
    ensures LegalBetween(History(ws, i), a, b) <==> forall k | a <= k < b :: !Slips(c, ws[k], steps[k], i)
  {
    var h := History(ws, i);
    if LegalBetween(h, a, b) {
      forall k | a <= k < b ensures !Slips(c, ws[k], steps[k], i) {
        assert LegalAt(h, k + 1);
        StepOfRunLegal(c, ws, steps, k, i);
      }
    }
    if forall k | a <= k < b :: !Slips(c, ws[k], steps[k], i) {
      forall m | a < m <= b ensures LegalAt(h, m) {
        StepOfRunLegal(c, ws, steps, m - 1, i);
        assert !Slips(c, ws[m - 1], steps[m - 1], i);
      }
    }
  }

  /** While nobody announces the key again, a deactivated key never encrypts and a key that decrypts
      keeps doing so short of destroyed. */
  lemma UsageInRuns(c: Config, ws: seq<World>, steps: seq<Step>, a: nat, b: nat, i: Uuid)
    requires Deployed(c) && Run(c, ws, steps) && Initial(c, ws[0]) && a <= b < |ws|
    requires forall k | a <= k < b :: !Slips(c, ws[k], steps[k], i)
    ensures LifeAt(ws[a], i) == Deactivated ==> Encrypt !in Usages(LifeAt(ws[b], i))
    ensures Decrypt in Usages(LifeAt(ws[a], i)) ==> Decrypt in Usages(LifeAt(ws[b], i)) || LifeAt(ws[b], i) == Destroyed
  {
    HistoryLegalIff(c, ws, steps, a, b, i);
    var h := History(ws, i);
    if LifeAt(ws[a], i) == Deactivated { EncryptNeverRegained(h, a, b); }
    if Decrypt in Usages(LifeAt(ws[a], i)) { DecryptKeptUntilDestroyed(h, a, b); }
  }

  lemma RowOfRun(c: Config, ws: seq<World>, steps: seq<Step>, k: nat, i: Uuid)
    requires Deployed(c) && Run(c, ws, steps) && Initial(c, ws[0]) && k < |steps|
    ensures i in ws[k].root.keys ==> i in ws[k + 1].root.keys && RowMoves(c, ws[k], steps[k], i, ws[k + 1].root.keys[i])
    ensures i !in ws[k].root.keys && i in ws[k + 1].root.keys ==> ws[k + 1].root.keys[i].life == PreActivation
  {
    RunKeepsInv(c, ws, steps, k);
    assert Taken(c, ws, steps, k) && RowsKeyed(TablesAt(ws[k], AtRoot));
    if i in ws[k].root.keys {
      RowStep(c, ws[k], steps[k], i);
    } else if i in ws[k + 1].root.keys {
      NewRowsArePreActivation(c, ws[k], steps[k], i);
    }
  }

  // ------------------------------------------------------------------ redelivery

  /** A row a task for the target still has to work on. */
  predicate Open(w: World, target: LifeCycle, i: Uuid) {
    i in w.root.keys && w.root.keys[i].life == target && w.root.keys[i].status == Pending
  }

  /** An action that puts a row to work again. */
  ghost predicate Reopens(s: Step, target: LifeCycle, i: Uuid) {
    s.ActionStep? && Target(s.action) == target && InWork(target, s.tree, i)
  }

  ghost predicate NotReopened(steps: seq<Step>, a: nat, b: nat, target: LifeCycle, i: Uuid)
    requires b <= |steps|
  {
    forall k | a <= k < b :: !Reopens(steps[k], target, i)
  }

  lemma {:induction false} StaysShut(c: Config, ws: seq<World>, steps: seq<Step>, a: nat, b: nat, target: LifeCycle, i: Uuid)
    requires Deployed(c) && Run(c, ws, steps) && Initial(c, ws[0]) && a <= b < |ws| && target != PreActivation
    requires !Open(ws[a], target, i) && b <= |steps| && NotReopened(steps, a, b, target, i)
    ensures !Open(ws[b], target, i)
    decreases b
  {
    if a < b {
      StaysShut(c, ws, steps, a, b - 1, target, i);
      RowOfRun(c, ws, steps, b - 1, i);
    }
  }

  lemma CompleteShuts(c: Config, ws: seq<World>, steps: seq<Step>, k: nat, a: Action, kid: KeyIdentifier, f: TaskFaults)
    requires Deployed(c) && Run(c, ws, steps) && Initial(c, ws[0]) && k < |steps| && steps[k] == TaskStep(a, kid, f)
    requires HandleTask(c, ws[k], Target(a), kid, f).disposition == Complete
    ensures !Open(ws[k + 1], Target(a), kid.id)
  {
    RunKeepsInv(c, ws, steps, k);
    assert Taken(c, ws, steps, k) && RowsKeyed(TablesAt(ws[k], AtRoot));
    DispositionMatchesStore(c, ws[k], Target(a), kid, f);
  }

  lemma ShutDelivery(c: Config, ws: seq<World>, steps: seq<Step>, m: nat, a: Action, kid: KeyIdentifier, f: TaskFaults)
    requires Run(c, ws, steps) && m < |steps| && steps[m] == TaskStep(a, kid, f) && !Open(ws[m], Target(a), kid.id)
    ensures ws[m + 1] == ws[m]
  {
    assert Taken(c, ws, steps, m);
    NothingDueNothingDone(c, ws[m], Target(a), kid, f);
  }

  lemma LaterDelivery(c: Config, ws: seq<World>, steps: seq<Step>, k: nat, m: nat, a: Action, kid: KeyIdentifier, f: TaskFaults)
    requires Deployed(c) && Run(c, ws, steps) && Initial(c, ws[0]) && k < m < |steps| && steps[m] == TaskStep(a, kid, f)
    requires !Open(ws[k + 1], Target(a), kid.id) && NotReopened(steps, k + 1, m, Target(a), kid.id)
    ensures ws[m + 1] == ws[m]
  {
    StaysShut(c, ws, steps, k + 1, m, Target(a), kid.id);
    ShutDelivery(c, ws, steps, m, a, kid, f);
  }

  /** Once a task was told complete, delivering it again changes nothing in root, agent or vault,
      whatever goes wrong in it and whatever else happens in between, until an action puts the row to
      work again. */
  lemma RedeliveriesInRuns(c: Config, ws: seq<World>, steps: seq<Step>, k: nat, m: nat,
                           a: Action, kid: KeyIdentifier, f: TaskFaults, f2: TaskFaults)
    requires Deployed(c) && Run(c, ws, steps) && Initial(c, ws[0]) && k < m < |steps|
    requires steps[k] == TaskStep(a, kid, f) && HandleTask(c, ws[k], Target(a), kid, f).disposition == Complete
    requires steps[m] == TaskStep(a, kid, f2) && NotReopened(steps, k + 1, m, Target(a), kid.id)
    ensures ws[m + 1] == ws[m]
  {
    CompleteShuts(c, ws, steps, k, a, kid, f);
    LaterDelivery(c, ws, steps, k, m, a, kid, f2);
  }

  // ------------------------------------------------------------------ where the protocol falls short

  /** In progress, but no longer announced: a row no action, task or announce task can move. */
  predicate Stranded(w: World, i: Uuid) {
    i in w.root.keys && w.root.keys[i].life != PreActivation && w.root.keys[i].status == InProgress
  }

  /** An announce job confirmed while an action is pending on its key. */
  predicate LateConfirm(w: World, s: Step, i: Uuid) {
    && s.ConfirmStep? && !s.failed && s.job.id == i && i in w.root.keys
    && w.root.keys[i].tenant == s.job.tenant && w.root.keys[i].life != PreActivation && w.root.keys[i].status == Pending
  }

  /** A row is stranded by a late confirmation and by nothing else, and freed by a re-announce and by
      nothing else. */
  lemma StrandedExactly(c: Config, ws: seq<World>, steps: seq<Step>, k: nat, i: Uuid)
    requires Deployed(c) && Run(c, ws, steps) && Initial(c, ws[0]) && k < |steps|
    ensures !Stranded(ws[k], i) ==> (Stranded(ws[k + 1], i) <==> LateConfirm(ws[k], steps[k], i))
    ensures Stranded(ws[k], i) ==> (!Stranded(ws[k + 1], i) <==> Reannounces(c, ws[k], steps[k], i))
    ensures Stranded(ws[k], i) && Stranded(ws[k + 1], i) ==> ws[k + 1].root.keys[i] == ws[k].root.keys[i]
  {
    RowOfRun(c, ws, steps, k, i);
  }

  /** Along any stretch of any run, a row that is not stranded stays so if and only if no announce job
      is confirmed while an action is pending on it. */
  lemma {:induction false} NeverStrandedIff(c: Config, ws: seq<World>, steps: seq<Step>, a: nat, b: nat, i: Uuid)
    requires Deployed(c) && Run(c, ws, steps) && Initial(c, ws[0]) && a <= b < |ws| && !Stranded(ws[a], i)
    ensures (forall k | a <= k <= b :: !Stranded(ws[k], i)) <==> (forall k | a <= k < b :: !LateConfirm(ws[k], steps[k], i))
    decreases b
  {
    if a < b {
      NeverStrandedIff(c, ws, steps, a, b - 1, i);
      if forall k | a <= k < b :: !LateConfirm(ws[k], steps[k], i) {
        assert !LateConfirm(ws[b - 1], steps[b - 1], i);
        StrandedExactly(c, ws, steps, b - 1, i);
        forall k | a <= k <= b ensures !Stranded(ws[k], i) {
        }
      } else if forall k | a <= k <= b :: !Stranded(ws[k], i) {
        assert !Stranded(ws[b - 1], i) && !Stranded(ws[b], i);
        StrandedExactly(c, ws, steps, b - 1, i);
      }
    }
  }

  /** A stranded row stays as it is while nobody announces it again. */
  lemma {:induction false} StrandedStays(c: Config, ws: seq<World>, steps: seq<Step>, a: nat, b: nat, i: Uuid)
    requires Deployed(c) && Run(c, ws, steps) && Initial(c, ws[0]) && a <= b < |ws| && Stranded(ws[a], i)
    requires forall k | a <= k < b && i in ws[k].root.keys :: !Reannounces(c, ws[k], steps[k], i)
    ensures i in ws[b].root.keys && ws[b].root.keys[i] == ws[a].root.keys[i]
    decreases b
  {
    if a < b {
      StrandedStays(c, ws, steps, a, b - 1, i);
      StrandedExactly(c, ws, steps, b - 1, i);
    }
  }
}

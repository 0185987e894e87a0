/** The inductive invariant of `ScalerProtocol` and its preservation by every
    action. Each clause group is a predicate of its own. */
module ScalerInvariant {
  import opened Common
  import opened ResourceNames
  import opened RunnerState
  import opened Demand
  import opened ScalerProtocol

  // ---- the invariant ----
  // Each clause names only the parts of the system it speaks about.

  type Runners = map<string, Entry>
  type Holders = map<nat, Stage>
  type Workers = map<Ticket, Worker>

  /** Tracked and tombstoned names are disjoint; entries sit under their name. */
  ghost predicate Tables(runners: Runners, deleted: map<string, int>) {
    && runners.Keys !! deleted.Keys
    && forall n :: n in runners ==> runners[n].vm.runnerName == n
  }

  /** A provisioner that has not settled its reservation owns the entry, and a
      name has one owner. */
  ghost predicate Owners(runners: Runners, holders: Holders, owner: map<string, nat>) {
    && (forall g :: g in holders && Owning(holders[g]) ==> Owns(runners, owner, g, holders[g].name))
    && (forall n :: n in runners && runners[n].provisioning ==> OwnedBy(holders, owner, n))
    && (forall g :: g in holders && holders[g].Created? ==> Labelled(holders[g].vm, holders[g].name))
  }

  /** A VM as Create makes it for the runner `n`. */
  predicate Labelled(vm: RunnerVM, n: string) {
    vm.runnerName == n && vm.vmName == ResourceName(n)
  }

  ghost predicate Owns(runners: Runners, owner: map<string, nat>, g: nat, n: string) {
    n in runners && runners[n].provisioning && n in owner && owner[n] == g
  }

  ghost predicate OwnedBy(holders: Holders, owner: map<string, nat>, n: string) {
    n in owner && owner[n] in holders && Owning(holders[owner[n]]) && holders[owner[n]].name == n
  }

  ghost predicate Fresh(holders: Holders, used: set<string>, mine: set<string>) {
    && mine <= used && "" !in mine
    && forall g :: g in holders && Owning(holders[g]) ==> holders[g].name in mine
  }

  predicate Waiting(g: Stage) {
    g.Reserved? || g.Registered? || g.Recorded?
  }

  /** The provisioner has settled its reservation but is not done with the name. */
  predicate Following(g: Stage) {
    g.Settled? || g.Dooming?
  }

  predicate Follows(used: set<string>, owner: map<string, nat>, g: nat, n: string) {
    n in used && n in owner && owner[n] == g
  }

  /** A settled name still belongs to its provisioner; the Create of a reserved
      name has not begun before, and names whose Create
      has begun were used. */
  ghost predicate Begun(holders: Holders, begun: set<string>, used: set<string>, owner: map<string, nat>) {
    && begun <= used
    && (forall g :: g in holders && Following(holders[g]) ==> Follows(used, owner, g, holders[g].name))
    && forall g :: g in holders && Waiting(holders[g]) ==> holders[g].name !in begun
  }

  /** Entries name the runner's own VM unless a listing said otherwise. */
  ghost predicate EntryTargets(runners: Runners, astray: set<string>) {
    forall n :: n in runners && n !in astray ==> runners[n].vm.vmName == ResourceName(n)
  }

  ghost predicate WorkerTargets(workers: Workers, deletions: map<Ticket, string>, astray: set<string>) {
    && (forall t :: t in workers && t.name !in astray ==> workers[t].entry.vm.vmName == ResourceName(t.name))
    && (forall t :: t in deletions && t.name !in astray ==> deletions[t] == ResourceName(t.name))
  }

  /** `inFlight` means exactly one live delete worker. */
  ghost predicate Flights(runners: Runners, workers: Workers, serial: nat, flight: map<string, nat>) {
    && (forall n :: n in runners && runners[n].inFlight ==>
          && runners[n].lifecycle == Lifecycle.Deleting && !runners[n].provisioning
          && n in flight && Ticket(n, flight[n]) in workers)
    && (forall t :: t in workers ==>
          && t.name in runners && runners[t.name].inFlight && t.serial < serial
          && t.name in flight && flight[t.name] == t.serial
          && workers[t].entry.vm.runnerName == t.name)
  }

  /** A lost assignment stays marked, and its worker knows. */
  ghost predicate Losses(runners: Runners, workers: Workers) {
    && (forall n :: n in runners && runners[n].missing ==> runners[n].lifecycle == Lifecycle.Deleting)
    && (forall t :: t in workers && t.name in runners && runners[t.name].missing ==> workers[t].entry.missing)
  }

  /** A nonzero id recorded for `n` is the only id ever issued for `n`. */
  ghost predicate IdFits(issued: map<string, int>, n: string, id: int) {
    id != 0 ==> n in issued && issued[n] == id
  }

  ghost predicate Registry(regs: map<string, Registration>, issued: map<string, int>, nextId: int, used: set<string>) {
    && nextId > 0 && "" !in regs && issued.Keys <= used
    && (forall n :: n in regs ==> n in issued && regs[n].id == issued[n])
    && (forall n :: n in issued ==> issued[n] != 0)
  }

  ghost predicate EntryIds(runners: Runners, issued: map<string, int>) {
    forall n :: n in runners ==> IdFits(issued, n, runners[n].vm.runnerID)
  }

  ghost predicate StageId(stage: Stage, issued: map<string, int>) {
    match stage
    case Reserved(n) => n !in issued
    case Registered(n, id) => IdFits(issued, n, id)
    case Recorded(n, id) => IdFits(issued, n, id)
    case Creating(n, id) => IdFits(issued, n, id)
    case Created(n, vm) => IdFits(issued, n, vm.runnerID)
    case _ => true
  }

  ghost predicate StageIds(holders: Holders, issued: map<string, int>) {
    forall g :: g in holders ==> StageId(holders[g], issued)
  }

  ghost predicate WorkerIds(workers: Workers, issued: map<string, int>) {
    && (forall t :: t in workers ==> IdFits(issued, t.name, workers[t].entry.vm.runnerID))
    && (forall t :: t in workers && workers[t].pc.Removing? ==>
          workers[t].pc.id != 0 && IdFits(issued, t.name, workers[t].pc.id))
  }

  function Outcome(pc: WorkerPc): Option<RegError> {
    match pc
    case Judged(err) => Some(err)
    case Deleting(err) => Some(err)
    case Gone(err) => Some(err)
    case _ => None
  }

  /** A worker that believes the runner deregistered is right unless it misread an
      answer, and one that goes on without that belief has an exempting reason. */
  ghost predicate Guards(workers: Workers, regs: map<string, Registration>, misread: set<Ticket>) {
    && (forall t :: t in workers && t !in misread && Outcome(workers[t].pc) == Some(NoError) ==> t.name !in regs)
    && (forall t :: t in workers && (workers[t].pc.Deleting? || workers[t].pc.Gone?) ==>
          workers[t].pc.err == NoError || Exempt(workers[t].entry))
  }

  /** The worker that dropped `n` came after the start of its Create and deleted a VM. */
  ghost predicate Disposed(n: string, fates: Fates)
    requires n in fates.created
  {
    && n in fates.dropped && fates.dropped[n] in fates.deletions
    && fates.dropped[n].name == n && fates.dropped[n].serial >= fates.created[n]
  }

  /** Whatever was created is tracked until a later worker deleted its VM. */
  ghost predicate Tracked(names: set<string>, workers: Workers, serial: nat, fates: Fates) {
    && (forall n :: n in fates.created ==> fates.created[n] <= serial && (n in names || Disposed(n, fates)))
    && (forall t :: t in workers && t.name in fates.created ==> t.serial >= fates.created[t.name])
    && (forall t :: t in workers && workers[t].pc.Gone? ==>
          t in fates.deletions && fates.deletions[t] == workers[t].entry.vm.vmName)
  }

  ghost predicate Bounded(names: set<string>, mine: set<string>, cap: int) {
    mine <= names && (cap > 0 ==> |mine| <= cap)
  }

  ghost predicate Completions(runners: Runners, completing: Option<string>) {
    forall n :: n in runners && runners[n].completed ==>
      runners[n].lifecycle == Lifecycle.Deleting || completing == Some(n)
  }

  ghost predicate Counted(runners: Runners, buried: set<string>, counted: multiset<string>, expired: set<string>) {
    && (forall n :: n in counted ==> (n in runners && runners[n].completed) || n in buried || n in expired)
    && (forall n :: n in counted && n !in expired ==> counted[n] == 1)
  }

  ghost predicate Ledgers(jobs: int, pending: int, desired: int, ledger: Ledger, counted: multiset<string>) {
    0 <= pending == |ledger.pending| <= jobs && 0 <= desired && Entries(ledger) == counted
  }

  ghost predicate Inv(s: Sys) {
    && Tables(s.st.runners, s.st.deleted)
    && Owners(s.st.runners, s.holders, s.owner)
    && Fresh(s.holders, s.used, s.mine)
    && Flights(s.st.runners, s.workers, s.serial, s.flight)
    && Losses(s.st.runners, s.workers)
    && Registry(s.regs, s.issued, s.nextId, s.used)
    && EntryIds(s.st.runners, s.issued)
    && StageIds(s.holders, s.issued)
    && WorkerIds(s.workers, s.issued)
    && Guards(s.workers, s.regs, s.misread)
    && Begun(s.holders, s.fates.created.Keys, s.used, s.owner)
    && EntryTargets(s.st.runners, s.astray)
    && WorkerTargets(s.workers, s.fates.deletions, s.astray)
    && Tracked(s.st.runners.Keys, s.workers, s.serial, s.fates)
    && Bounded(s.st.runners.Keys, s.mine, s.limits.cap)
    && Completions(s.st.runners, s.completing)
    && Counted(s.st.runners, s.st.deleted.Keys, s.counted, s.expired)
    && Ledgers(s.st.jobs, s.st.completedPending, s.st.desired, s.ledger, s.counted)
  }

  lemma InitEstablishesInv(s: Sys)
    requires Init(s)
    ensures Inv(s)
  {
  }

  // ---- changes that keep the flags ----

  predicate SameFlags(a: Entry, b: Entry) {
    && a.provisioning == b.provisioning && a.inFlight == b.inFlight && a.missing == b.missing
    && (a.lifecycle == Lifecycle.Deleting ==> b.lifecycle == Lifecycle.Deleting)
  }

  predicate NoFlags(e: Entry) {
    !e.provisioning && !e.inFlight && !e.missing
  }

  /** Old entries keep their flags and new entries have none. */
  ghost predicate Extends(r: Runners, r': Runners) {
    && (forall n :: n in r ==> n in r' && SameFlags(r[n], r'[n]))
    && (forall n :: n in r' && n !in r ==> NoFlags(r'[n]))
  }

  lemma ExtendOwners(r: Runners, r': Runners, holders: Holders, owner: map<string, nat>)
    requires Owners(r, holders, owner) && Extends(r, r')
    ensures Owners(r', holders, owner)
  {
  }

  lemma ExtendFlights(r: Runners, r': Runners, workers: Workers, serial: nat, flight: map<string, nat>)
    requires Flights(r, workers, serial, flight) && Losses(r, workers) && Extends(r, r')
    ensures Flights(r', workers, serial, flight) && Losses(r', workers)
  {
  }

  lemma ExtendTracked(r: Runners, r': Runners, s: Sys)
    requires Extends(r, r')
    requires Tracked(r.Keys, s.workers, s.serial, s.fates) && Bounded(r.Keys, s.mine, s.limits.cap)
    ensures Tracked(r'.Keys, s.workers, s.serial, s.fates) && Bounded(r'.Keys, s.mine, s.limits.cap)
  {
    assert r.Keys <= r'.Keys;
  }

  /** The table and the tombstones may change under the flags, as long as names,
      ids and completions are in order. */
  lemma RefreshKeepsInv(s: Sys, s': Sys)
    requires Inv(s)
    requires s' == s.(st := s'.st, completing := s'.completing, views := s'.views, counted := s'.counted,
                      expired := s'.expired, ledger := s'.ledger, astray := s'.astray)
    requires s.astray <= s'.astray && EntryTargets(s'.st.runners, s'.astray)
    requires Extends(s.st.runners, s'.st.runners)
    requires Tables(s'.st.runners, s'.st.deleted)
    requires EntryIds(s'.st.runners, s'.issued)
    requires Completions(s'.st.runners, s'.completing)
    requires Counted(s'.st.runners, s'.st.deleted.Keys, s'.counted, s'.expired)
    requires Ledgers(s'.st.jobs, s'.st.completedPending, s'.st.desired, s'.ledger, s'.counted)
    ensures Inv(s')
  {
    ExtendOwners(s.st.runners, s'.st.runners, s.holders, s.owner);
    ExtendFlights(s.st.runners, s'.st.runners, s.workers, s.serial, s.flight);
    ExtendTracked(s.st.runners, s'.st.runners, s);
    MoreAstray(s.workers, s.fates.deletions, s.astray, s'.astray);
  }

  lemma MoreAstray(workers: Workers, deletions: map<Ticket, string>, astray: set<string>, astray': set<string>)
    requires WorkerTargets(workers, deletions, astray) && astray <= astray'
    ensures WorkerTargets(workers, deletions, astray')
  {
  }

  /** A rewritten entry keeps its VM name or takes the runner's own. */
  predicate KeepsTarget(r: Runners, name: string, e: Entry) {
    e.vm.vmName == ResourceName(name) || (name in r && e.vm.vmName == r[name].vm.vmName)
  }

  lemma PutKeepsTargets(r: Runners, astray: set<string>, name: string, e: Entry)
    requires EntryTargets(r, astray) && KeepsTarget(r, name, e)
    ensures EntryTargets(r[name := e], astray)
  {
  }

  lemma DemandKeepsInv(s: Sys, st: State, ledger: Ledger)
    requires Inv(s) && st.runners == s.st.runners && st.deleted == s.st.deleted
    requires Ledgers(st.jobs, st.completedPending, st.desired, ledger, s.counted)
    ensures Inv(s.(st := st, ledger := ledger))
  {
  }

  lemma StatisticsKeepsInv(s: Sys, count: int)
    requires Inv(s)
    ensures Inv(DoStatistics(s, count))
  {
    FreshAgrees(s.st, s.ledger, count);
    DemandKeepsInv(s, ObserveStatistics(s.st, count), LedgerFresh(s.ledger));
  }

  lemma DesiredCountKeepsInv(s: Sys, count: int)
    requires Inv(s)
    ensures Inv(DoDesiredCount(s, count))
  {
    StaleKeepsLedgers(s.st, s.ledger, s.counted, count, s.limits.cap);
    DemandKeepsInv(s, UpdateDesired(s.st, count, s.limits.cap), LedgerStale(s.ledger, Max(0, s.st.jobs - Max(0, count))));
  }

  lemma StaleKeepsLedgers(st: State, ledger: Ledger, counted: multiset<string>, count: int, cap: int)
    requires Ledgers(st.jobs, st.completedPending, st.desired, ledger, counted)
    ensures var t := UpdateDesired(st, count, cap);
      && t.runners == st.runners && t.deleted == st.deleted
      && Ledgers(t.jobs, t.completedPending, t.desired, LedgerStale(ledger, Max(0, st.jobs - Max(0, count))), counted)
  {
    StaleAgrees(st, ledger, count, cap);
  }

  /** What a single rewritten entry must satisfy. */
  ghost predicate Acceptable(r: Runners, issued: map<string, int>, completing: Option<string>, name: string, e: Entry) {
    && e.vm.runnerName == name && IdFits(issued, name, e.vm.runnerID) && KeepsTarget(r, name, e)
    && (if name in r then SameFlags(r[name], e) && (r[name].completed ==> e.completed) else NoFlags(e))
    && (e.completed ==> e.lifecycle == Lifecycle.Deleting || completing == Some(name))
  }

  lemma PutRefreshes(r: Runners, deleted: map<string, int>, issued: map<string, int>, name: string, e: Entry,
                     before: Option<string>, after: Option<string>)
    requires Tables(r, deleted) && EntryIds(r, issued) && Completions(r, before)
    requires name !in deleted && Acceptable(r, issued, after, name, e) && (before == after || before.None?)
    ensures var r' := r[name := e];
      Extends(r, r') && Tables(r', deleted) && EntryIds(r', issued) && Completions(r', after)
  {
  }

  lemma PutKeepsCounted(r: Runners, buried: set<string>, counted: multiset<string>, expired: set<string>, name: string, e: Entry)
    requires Counted(r, buried, counted, expired) && (name in r && r[name].completed ==> e.completed)
    ensures Counted(r[name := e], buried, counted, expired)
  {
  }

  lemma PutKeepsInv(s: Sys, name: string, e: Entry)
    requires Inv(s) && name !in s.st.deleted && Acceptable(s.st.runners, s.issued, s.completing, name, e)
    ensures Inv(s.(st := Put(s.st, name, e)))
  {
    PutRefreshes(s.st.runners, s.st.deleted, s.issued, name, e, s.completing, s.completing);
    PutKeepsCounted(s.st.runners, s.st.deleted.Keys, s.counted, s.expired, name, e);
    PutKeepsTargets(s.st.runners, s.astray, name, e);
    RefreshKeepsInv(s, s.(st := Put(s.st, name, e)));
  }

  lemma BareEntryIsAcceptable(r: Runners, issued: map<string, int>, completing: Option<string>, name: string, l: Lifecycle)
    requires name !in r
    ensures Acceptable(r, issued, completing, name, FreshEntry(BareVM(name), l))
  {
  }

  lemma TrackedFacts(r: Runners, deleted: map<string, int>, issued: map<string, int>, completing: Option<string>, name: string)
    requires Tables(r, deleted) && EntryIds(r, issued) && Completions(r, completing)
    ensures name in r ==> name !in deleted && Acceptable(r, issued, completing, name, r[name])
  {
  }

  lemma JobStartedKeepsInv(s: Sys, name: string)
    requires Inv(s)
    ensures Inv(s.(st := MarkBusy(s.st, name)))
  {
    TrackedFacts(s.st.runners, s.st.deleted, s.issued, s.completing, name);
    if name in s.st.runners && s.st.runners[name].lifecycle != Lifecycle.Deleting {
      PutKeepsInv(s, name, s.st.runners[name].(lifecycle := Busy));
    } else if name !in s.st.runners && name !in s.st.deleted {
      BareEntryIsAcceptable(s.st.runners, s.issued, s.completing, name, Busy);
      PutKeepsInv(s, name, FreshEntry(BareVM(name), Busy));
    } else {
      assert s.(st := MarkBusy(s.st, name)) == s;
    }
  }

  lemma CompletedEntryIsAcceptable(r: Runners, deleted: map<string, int>, issued: map<string, int>, name: string)
    requires Tables(r, deleted) && EntryIds(r, issued)
    ensures var e := if name in r then r[name] else FreshEntry(BareVM(name), Unknown);
      Acceptable(r, issued, Some(name), name, e.(completed := true))
  {
  }

  lemma JobCompletedKeepsInv(s: Sys, name: string)
    requires Inv(s) && s.completing.None?
    ensures Inv(DoJobCompleted(s, name))
  {
    var s' := DoJobCompleted(s, name);
    if CountsCompletion(s.st, name) {
      var e := if name in s.st.runners then s.st.runners[name] else FreshEntry(BareVM(name), Unknown);
      CompletionAgrees(s.st, s.ledger, name);
      CountedOnceMore(s.st.runners, s.st.deleted.Keys, s.counted, s.expired, name, e.(completed := true));
      CompletedEntryIsAcceptable(s.st.runners, s.st.deleted, s.issued, name);
      PutRefreshes(s.st.runners, s.st.deleted, s.issued, name, e.(completed := true), None, Some(name));
      PutKeepsTargets(s.st.runners, s.astray, name, e.(completed := true));
      RefreshKeepsInv(s, s');
    }
  }

  lemma CountedOnceMore(r: Runners, buried: set<string>, counted: multiset<string>, expired: set<string>, name: string, e: Entry)
    requires Counted(r, buried, counted, expired)
    requires name !in buried && (name in r ==> !r[name].completed) && e.completed
    ensures Counted(r[name := e], buried, counted + multiset{name}, expired)
  {
    assert name in counted ==> name in expired;
    assert forall n :: n != name ==> (counted + multiset{name})[n] == counted[n];
  }

  lemma ListingRefreshes(st: State, cloud: seq<RunnerVM>, now: int, issued: map<string, int>, completing: Option<string>)
    requires Tables(st.runners, st.deleted) && EntryIds(st.runners, issued) && Completions(st.runners, completing)
    requires forall i :: 0 <= i < |cloud| ==> cloud[i].runnerID == 0
    ensures var t := ReconcileCloud(st, cloud, now);
      && Extends(st.runners, t.runners) && Tables(t.runners, t.deleted)
      && EntryIds(t.runners, issued) && Completions(t.runners, completing)
  {
    ObserveAllShape(st, cloud);
    AdoptionIsPlain(st, cloud);
  }

  lemma ListingKeepsCounted(st: State, cloud: seq<RunnerVM>, now: int, counted: multiset<string>, expired: set<string>)
    requires Counted(st.runners, st.deleted.Keys, counted, expired)
    ensures var t := ReconcileCloud(st, cloud, now);
      Counted(t.runners, t.deleted.Keys, counted, expired + (st.deleted.Keys - t.deleted.Keys))
  {
    ObserveAllShape(st, cloud);
  }

  /** A listing changes VM names only as it says. */
  lemma {:induction false} ObservedTargets(st: State, cloud: seq<RunnerVM>, astray: set<string>)
    requires EntryTargets(st.runners, astray)
    ensures EntryTargets(ObserveAll(st, cloud).runners, astray + Mislabelled(cloud))
  {
    if cloud != [] {
      var front, last := cloud[..|cloud| - 1], cloud[|cloud| - 1];
      ObservedTargets(st, front, astray);
      MislabelledSplit(cloud);
    }
  }

  lemma MislabelledSplit(cloud: seq<RunnerVM>)
    requires cloud != []
    ensures var front, last := cloud[..|cloud| - 1], cloud[|cloud| - 1];
      Mislabelled(cloud) ==
        Mislabelled(front) + if last.vmName != ResourceName(last.runnerName) then {last.runnerName} else {}
  {
    var front, last := cloud[..|cloud| - 1], cloud[|cloud| - 1];
    forall n | n in Mislabelled(front) ensures n in Mislabelled(cloud) {
      var i :| 0 <= i < |front| && front[i].runnerName == n && front[i].vmName != ResourceName(n);
      assert cloud[i] == front[i];
    }
    forall n | n in Mislabelled(cloud)
      ensures n in Mislabelled(front) || (n == last.runnerName && last.vmName != ResourceName(n))
    {
      var i :| 0 <= i < |cloud| && cloud[i].runnerName == n && cloud[i].vmName != ResourceName(n);
      if i < |front| {
        assert front[i] == cloud[i];
      }
    }
  }

  lemma ListCloudKeepsInv(s: Sys, cloud: seq<RunnerVM>, now: int)
    requires Inv(s) && forall i :: 0 <= i < |cloud| ==> cloud[i].runnerID == 0
    ensures Inv(DoListCloud(s, cloud, now))
  {
    var s' := DoListCloud(s, cloud, now);
    ListingRefreshes(s.st, cloud, now, s.issued, s.completing);
    ListingKeepsCounted(s.st, cloud, now, s.counted, s.expired);
    ObserveAllShape(s.st, cloud);
    ObservedTargets(s.st, cloud, s.astray);
    RefreshKeepsInv(s, s');
  }

  // ---- stage changes of one provisioner ----

  /** A goroutine's next stage may own only what its current stage owned. */
  predicate Continues(holders: Holders, g: nat, stage: Stage) {
    && (Owning(stage) <==> g in holders && Owning(holders[g]))
    && (Owning(stage) ==> stage.name == holders[g].name)
    && (stage.Created? ==> Labelled(stage.vm, stage.name))
    && (Waiting(stage) ==> Waiting(holders[g]))
    && (Following(stage) ==> g in holders && Following(holders[g]) && stage.name == holders[g].name)
  }

  lemma StageKeepsOwners(r: Runners, holders: Holders, owner: map<string, nat>, g: nat, stage: Stage)
    requires Owners(r, holders, owner) && Continues(holders, g, stage)
    ensures Owners(r, holders[g := stage], owner)
  {
  }

  lemma StageKeepsFresh(holders: Holders, used: set<string>, mine: set<string>, g: nat, stage: Stage)
    requires Fresh(holders, used, mine) && Continues(holders, g, stage)
    ensures Fresh(holders[g := stage], used, mine)
  {
  }

  lemma StageKeepsBegun(holders: Holders, begun: set<string>, used: set<string>, owner: map<string, nat>, g: nat, stage: Stage)
    requires Begun(holders, begun, used, owner) && Continues(holders, g, stage)
    ensures Begun(holders[g := stage], begun, used, owner)
  {
  }

  lemma LeavingKeepsBegun(holders: Holders, begun: set<string>, used: set<string>, owner: map<string, nat>, g: nat, stage: Stage)
    requires Begun(holders, begun, used, owner) && !Waiting(stage)
    requires Following(stage) ==> Follows(used, owner, g, stage.name)
    ensures Begun(holders[g := stage], begun, used, owner) && Begun(holders - {g}, begun, used, owner)
  {
  }

  lemma StageKeepsInv(s: Sys, g: nat, stage: Stage)
    requires Inv(s) && Continues(s.holders, g, stage) && StageId(stage, s.issued)
    ensures Inv(At(s, g, stage))
  {
    StageKeepsOwners(s.st.runners, s.holders, s.owner, g, stage);
    StageKeepsFresh(s.holders, s.used, s.mine, g, stage);
    StageKeepsBegun(s.holders, s.fates.created.Keys, s.used, s.owner, g, stage);
  }

  lemma ReleaseKeepsInv(s: Sys, g: nat)
    requires Inv(s) && g in s.holders && !Owning(s.holders[g])
    ensures Inv(Without(s, g))
  {
    LeavingKeepsBegun(s.holders, s.fates.created.Keys, s.used, s.owner, g, Holding);
  }

  lemma ReserveKeepsInv(s: Sys, g: nat, name: string, now: int)
    requires Inv(s) && g in s.holders && s.holders[g].Holding?
    requires CanReserve(s.st, name, s.limits.cap) && name != "" && name !in s.used
    ensures Inv(DoReserve(s, g, name, now))
  {
    var r, e := s.st.runners, ReservedEntry(name, now);
    ReserveKeepsOwners(r, s.holders, s.owner, g, name, e);
    ReserveKeepsRest(s, name, e);
    ReserveKeepsBound(s, name, e);
    ReserveKeepsStages(s, g, name);
    ReserveKeepsBegun(s.holders, s.fates.created.Keys, s.used, s.owner, g, name);
    PutKeepsTargets(r, s.astray, name, e);
  }

  lemma ReserveKeepsBegun(holders: Holders, begun: set<string>, used: set<string>, owner: map<string, nat>, g: nat, name: string)
    requires Begun(holders, begun, used, owner) && name !in used
    ensures Begun(holders[g := Reserved(name)], begun, used + {name}, owner[name := g])
  {
  }

  lemma ReserveKeepsOwners(r: Runners, holders: Holders, owner: map<string, nat>, g: nat, name: string, e: Entry)
    requires Owners(r, holders, owner) && g in holders && !Owning(holders[g]) && name !in r && e.provisioning
    ensures Owners(r[name := e], holders[g := Reserved(name)], owner[name := g])
  {
  }

  lemma ReserveKeepsStages(s: Sys, g: nat, name: string)
    requires Fresh(s.holders, s.used, s.mine) && StageIds(s.holders, s.issued)
    requires Registry(s.regs, s.issued, s.nextId, s.used)
    requires name != "" && name !in s.used
    ensures Fresh(s.holders[g := Reserved(name)], s.used + {name}, s.mine + {name})
    ensures StageIds(s.holders[g := Reserved(name)], s.issued)
    ensures Registry(s.regs, s.issued, s.nextId, s.used + {name})
  {
  }

  lemma ReserveKeepsRest(s: Sys, name: string, e: Entry)
    requires Tables(s.st.runners, s.st.deleted) && EntryIds(s.st.runners, s.issued) && Completions(s.st.runners, s.completing)
    requires Flights(s.st.runners, s.workers, s.serial, s.flight) && Losses(s.st.runners, s.workers)
    requires Counted(s.st.runners, s.st.deleted.Keys, s.counted, s.expired)
    requires name !in s.st.runners && name !in s.st.deleted && e.vm.runnerName == name && e.vm.runnerID == 0
    requires !e.inFlight && !e.missing && !e.completed
    ensures var r := s.st.runners[name := e];
      && Tables(r, s.st.deleted) && EntryIds(r, s.issued) && Completions(r, s.completing)
      && Flights(r, s.workers, s.serial, s.flight) && Losses(r, s.workers)
      && Counted(r, s.st.deleted.Keys, s.counted, s.expired)
  {
  }

  lemma ReserveKeepsBound(s: Sys, name: string, e: Entry)
    requires Bounded(s.st.runners.Keys, s.mine, s.limits.cap) && CanReserve(s.st, name, s.limits.cap)
    requires Tracked(s.st.runners.Keys, s.workers, s.serial, s.fates)
    ensures var names := s.st.runners[name := e].Keys;
      Bounded(names, s.mine + {name}, s.limits.cap) && Tracked(names, s.workers, s.serial, s.fates)
  {
    SubsetSize(s.mine, s.st.runners.Keys);
    assert |s.st.runners| == |s.st.runners.Keys|;
  }

  // ---- registering and settling a reservation ----

  lemma RegisterKeepsIds(s: Sys, g: nat, name: string, stage: Stage)
    requires Registry(s.regs, s.issued, s.nextId, s.used) && EntryIds(s.st.runners, s.issued)
    requires WorkerIds(s.workers, s.issued) && StageIds(s.holders, s.issued)
    requires Owners(s.st.runners, s.holders, s.owner)
    requires g in s.holders && s.holders[g].Reserved? && s.holders[g].name == name && name in s.used && name != ""
    requires stage == Registered(name, s.nextId) || stage == Registered(name, 0) || stage == Broken(name)
    ensures var issued := s.issued[name := s.nextId];
      && Registry(s.regs[name := Registration(s.nextId, false)], issued, s.nextId + 1, s.used)
      && EntryIds(s.st.runners, issued) && WorkerIds(s.workers, issued) && StageIds(s.holders[g := stage], issued)
  {
  }

  /** Only a runner without a delete worker can be registering. */
  lemma RegisterKeepsGuards(s: Sys, g: nat, name: string)
    requires Guards(s.workers, s.regs, s.misread) && Owners(s.st.runners, s.holders, s.owner)
    requires Flights(s.st.runners, s.workers, s.serial, s.flight)
    requires g in s.holders && s.holders[g].Reserved? && s.holders[g].name == name
    ensures Guards(s.workers, s.regs[name := Registration(s.nextId, false)], s.misread)
  {
    assert forall t :: t in s.workers ==> t.name != name;
  }

  lemma RegisterKeepsInv(s: Sys, g: nat, stage: Stage)
    requires Inv(s) && g in s.holders && s.holders[g].Reserved?
    requires stage == Registered(s.holders[g].name, s.nextId) || stage == Registered(s.holders[g].name, 0)
          || stage == Broken(s.holders[g].name)
    ensures Inv(At(DoRegister(s, s.holders[g].name), g, stage))
  {
    var name := s.holders[g].name;
    RegisterKeepsIds(s, g, name, stage);
    RegisterKeepsGuards(s, g, name);
    StageKeepsOwners(s.st.runners, s.holders, s.owner, g, stage);
    StageKeepsFresh(s.holders, s.used, s.mine, g, stage);
    StageKeepsBegun(s.holders, s.fates.created.Keys, s.used, s.owner, g, stage);
  }

  lemma RecordJITKeepsInv(s: Sys, g: nat)
    requires Inv(s) && g in s.holders && s.holders[g].Registered?
    ensures Inv(DoRecordJIT(s, g))
  {
    var name, id := s.holders[g].name, s.holders[g].id;
    assert name in s.st.runners;
    TrackedFacts(s.st.runners, s.st.deleted, s.issued, s.completing, name);
    var e := s.st.runners[name];
    var recorded := s.(st := Put(s.st, name, e.(vm := e.vm.(runnerID := id))));
    PutKeepsInv(s, name, e.(vm := e.vm.(runnerID := id)));
    StageKeepsInv(recorded, g, Recorded(name, id));
    assert DoRecordJIT(s, g) == At(recorded, g, Recorded(name, id));
  }

  lemma BeginCreateKeepsInv(s: Sys, g: nat)
    requires Inv(s) && g in s.holders && s.holders[g].Recorded?
    ensures Inv(DoBeginCreate(s, g))
  {
    var name := s.holders[g].name;
    StageKeepsInv(s, g, Creating(name, s.holders[g].id));
    BeginCreateKeepsTracked(s, g, name);
    BeginCreateKeepsBegun(s, g, name);
  }

  lemma BeginCreateKeepsTracked(s: Sys, g: nat, name: string)
    requires Tracked(s.st.runners.Keys, s.workers, s.serial, s.fates)
    requires Owners(s.st.runners, s.holders, s.owner) && Flights(s.st.runners, s.workers, s.serial, s.flight)
    requires g in s.holders && Owning(s.holders[g]) && s.holders[g].name == name
    ensures Tracked(s.st.runners.Keys, s.workers, s.serial, s.fates.(created := s.fates.created[name := s.serial]))
  {
    assert forall t :: t in s.workers ==> t.name != name;
    var fates := s.fates.(created := s.fates.created[name := s.serial]);
    assert forall n :: n in s.fates.created && n != name && Disposed(n, s.fates) ==> Disposed(n, fates);
  }

  /** The Create of a name begins only once. */
  lemma BeginCreateKeepsBegun(s: Sys, g: nat, name: string)
    requires Begun(s.holders, s.fates.created.Keys, s.used, s.owner) && Owners(s.st.runners, s.holders, s.owner)
    requires Fresh(s.holders, s.used, s.mine)
    requires g in s.holders && s.holders[g].Recorded? && s.holders[g].name == name
    ensures name !in s.fates.created
    ensures Begun(s.holders[g := Creating(name, s.holders[g].id)], s.fates.created[name := s.serial].Keys, s.used, s.owner)
  {
    assert s.fates.created[name := s.serial].Keys == s.fates.created.Keys + {name};
    assert forall h :: h in s.holders && Owning(s.holders[h]) && s.holders[h].name == name ==> h == g;
  }

  /** Clearing `provisioning` together with leaving the owning stages. */
  lemma SettleOwners(r: Runners, holders: Holders, owner: map<string, nat>, g: nat, name: string, e: Entry, stage: Stage)
    requires Owners(r, holders, owner) && g in holders && Owning(holders[g]) && holders[g].name == name
    requires !Owning(stage) && !e.provisioning
    ensures Owners(r[name := e], holders[g := stage], owner)
  {
  }

  lemma SettleRest(s: Sys, name: string, e: Entry)
    requires Tables(s.st.runners, s.st.deleted) && EntryIds(s.st.runners, s.issued) && Completions(s.st.runners, s.completing)
    requires Flights(s.st.runners, s.workers, s.serial, s.flight) && Losses(s.st.runners, s.workers)
    requires name in s.st.runners && s.st.runners[name].provisioning
    requires Acceptable(s.st.runners, s.issued, s.completing, name, e.(provisioning := true)) && !e.provisioning
    ensures var r := s.st.runners[name := e];
      && Tables(r, s.st.deleted) && EntryIds(r, s.issued) && Completions(r, s.completing)
      && Flights(r, s.workers, s.serial, s.flight) && Losses(r, s.workers)
  {
  }

  lemma OwnerFacts(r: Runners, holders: Holders, owner: map<string, nat>, g: nat)
    requires Owners(r, holders, owner) && g in holders && Owning(holders[g])
    ensures holders[g].name in r && r[holders[g].name].provisioning
    ensures holders[g].Created? ==> Labelled(holders[g].vm, holders[g].name)
  {
  }

  lemma SettleKeepsInv(s: Sys, g: nat, name: string, e: Entry, stage: Stage)
    requires Inv(s) && g in s.holders && Owning(s.holders[g]) && !Owning(stage) && s.holders[g].name == name
    requires !e.provisioning && name in s.st.runners && s.st.runners[name].provisioning
    requires Acceptable(s.st.runners, s.issued, s.completing, name, e.(provisioning := true))
    requires Following(stage) ==> stage.name == name
    ensures Inv(At(s, g, stage).(st := Put(s.st, name, e)))
  {
    SettleOwners(s.st.runners, s.holders, s.owner, g, name, e, stage);
    SettleRest(s, name, e);
    PutKeepsCounted(s.st.runners, s.st.deleted.Keys, s.counted, s.expired, name, e);
    KeysStay(s.st.runners, name, e);
    LeavingKeepsFresh(s.holders, s.used, s.mine, g, stage);
    LeavingKeepsIds(s.holders, s.issued, g, stage);
    OwnerFollows(s.st.runners, s.holders, s.owner, s.used, s.mine, g);
    LeavingKeepsBegun(s.holders, s.fates.created.Keys, s.used, s.owner, g, stage);
    PutKeepsTargets(s.st.runners, s.astray, name, e);
  }

  lemma OwnerFollows(r: Runners, holders: Holders, owner: map<string, nat>, used: set<string>, mine: set<string>, g: nat)
    requires Owners(r, holders, owner) && Fresh(holders, used, mine) && g in holders && Owning(holders[g])
    ensures Follows(used, owner, g, holders[g].name)
  {
  }

  lemma KeysStay(r: Runners, name: string, e: Entry)
    requires name in r
    ensures r[name := e].Keys == r.Keys
  {
  }

  lemma LeavingKeepsIds(holders: Holders, issued: map<string, int>, g: nat, stage: Stage)
    requires StageIds(holders, issued) && !Owning(stage)
    ensures StageIds(holders[g := stage], issued)
  {
  }

  lemma LeavingKeepsFresh(holders: Holders, used: set<string>, mine: set<string>, g: nat, stage: Stage)
    requires Fresh(holders, used, mine) && !Owning(stage)
    ensures Fresh(holders[g := stage], used, mine)
  {
  }

  function IdleEntry(e: Entry, vm: RunnerVM): Entry {
    e.(lifecycle := if e.lifecycle == Provisioning then Idle else e.lifecycle, vm := vm, provisioning := false)
  }

  lemma IdleEntryIsAcceptable(s: Sys, g: nat)
    requires Tables(s.st.runners, s.st.deleted) && Completions(s.st.runners, s.completing)
    requires Owners(s.st.runners, s.holders, s.owner) && StageIds(s.holders, s.issued)
    requires g in s.holders && s.holders[g].Created?
    ensures var name, vm := s.holders[g].name, s.holders[g].vm;
      && name in s.st.runners && s.st.runners[name].provisioning
      && Acceptable(s.st.runners, s.issued, s.completing, name, IdleEntry(s.st.runners[name], vm).(provisioning := true))
      && DoAddIdle(s, g) == At(s, g, Settled(name)).(st := Put(s.st, name, IdleEntry(s.st.runners[name], vm)))
  {
    assert StageId(s.holders[g], s.issued);
  }

  lemma AddIdleKeepsInv(s: Sys, g: nat)
    requires Inv(s) && g in s.holders && s.holders[g].Created?
    ensures Inv(DoAddIdle(s, g))
  {
    IdleEntryIsAcceptable(s, g);
    var name := s.holders[g].name;
    SettleKeepsInv(s, g, name, IdleEntry(s.st.runners[name], s.holders[g].vm), Settled(name));
  }

  lemma ClearFailedKeepsInv(s: Sys, g: nat)
    requires Inv(s) && g in s.holders && s.holders[g].Broken?
    ensures Inv(DoClearFailed(s, g))
  {
    var name := s.holders[g].name;
    OwnerFacts(s.st.runners, s.holders, s.owner, g);
    TrackedFacts(s.st.runners, s.st.deleted, s.issued, s.completing, name);
    SettleKeepsInv(s, g, name, s.st.runners[name].(provisioning := false), Dooming(name, Reason.ProvisioningFailed));
  }

  // ---- starting deletions ----

  lemma SpawnKeepsFlights(s: Sys, name: string, e: Entry)
    requires Flights(s.st.runners, s.workers, s.serial, s.flight)
    requires e.inFlight && e.lifecycle == Lifecycle.Deleting && !e.provisioning && e.vm.runnerName == name
    requires name in s.st.runners ==> !s.st.runners[name].inFlight
    ensures var s' := Spawn(s.(st := Put(s.st, name, e)), name, e);
      Flights(s'.st.runners, s'.workers, s'.serial, s'.flight)
  {
  }

  lemma SpawnKeepsLosses(s: Sys, name: string, e: Entry)
    requires Flights(s.st.runners, s.workers, s.serial, s.flight) && Losses(s.st.runners, s.workers)
    requires e.lifecycle == Lifecycle.Deleting
    requires if name in s.st.runners then !s.st.runners[name].inFlight && e.missing == s.st.runners[name].missing else !e.missing
    ensures var s' := Spawn(s.(st := Put(s.st, name, e)), name, e); Losses(s'.st.runners, s'.workers)
  {
  }

  lemma SpawnKeepsOwners(r: Runners, holders: Holders, owner: map<string, nat>, name: string, e: Entry)
    requires Owners(r, holders, owner) && !e.provisioning && (name in r ==> !r[name].provisioning)
    ensures Owners(r[name := e], holders, owner)
  {
  }

  lemma SpawnKeepsWorkers(s: Sys, name: string, e: Entry)
    requires Guards(s.workers, s.regs, s.misread) && WorkerIds(s.workers, s.issued)
    requires Tracked(s.st.runners.Keys, s.workers, s.serial, s.fates) && Bounded(s.st.runners.Keys, s.mine, s.limits.cap)
    requires IdFits(s.issued, name, e.vm.runnerID)
    ensures var s' := Spawn(s.(st := Put(s.st, name, e)), name, e);
      && Guards(s'.workers, s'.regs, s'.misread) && WorkerIds(s'.workers, s'.issued)
      && Tracked(s'.st.runners.Keys, s'.workers, s'.serial, s'.fates)
      && Bounded(s'.st.runners.Keys, s'.mine, s'.limits.cap)
  {
    assert s.st.runners[name := e].Keys == s.st.runners.Keys + {name};
  }

  lemma SpawnKeepsEntries(s: Sys, name: string, e: Entry)
    requires Tables(s.st.runners, s.st.deleted) && EntryIds(s.st.runners, s.issued) && Completions(s.st.runners, s.completing)
    requires Counted(s.st.runners, s.st.deleted.Keys, s.counted, s.expired)
    requires name !in s.st.deleted && e.vm.runnerName == name && IdFits(s.issued, name, e.vm.runnerID)
    requires e.lifecycle == Lifecycle.Deleting && (name in s.st.runners && s.st.runners[name].completed ==> e.completed)
    ensures var r := s.st.runners[name := e];
      && Tables(r, s.st.deleted) && EntryIds(r, s.issued) && Completions(r, s.completing)
      && Counted(r, s.st.deleted.Keys, s.counted, s.expired)
  {
  }

  lemma SpawnKeepsInv(s: Sys, name: string, e: Entry)
    requires Inv(s) && name !in s.st.deleted
    requires e.inFlight && e.lifecycle == Lifecycle.Deleting && !e.provisioning && e.vm.runnerName == name
    requires IdFits(s.issued, name, e.vm.runnerID) && KeepsTarget(s.st.runners, name, e)
    requires if name in s.st.runners
      then !s.st.runners[name].inFlight && !s.st.runners[name].provisioning
        && e.missing == s.st.runners[name].missing && e.completed == s.st.runners[name].completed
      else !e.missing && !e.completed
    ensures Inv(Spawn(s.(st := Put(s.st, name, e)), name, e))
  {
    SpawnKeepsFlights(s, name, e);
    SpawnKeepsLosses(s, name, e);
    SpawnKeepsOwners(s.st.runners, s.holders, s.owner, name, e);
    SpawnKeepsWorkers(s, name, e);
    SpawnKeepsEntries(s, name, e);
    SpawnKeepsTargets(s, name, e);
  }

  lemma SpawnKeepsTargets(s: Sys, name: string, e: Entry)
    requires EntryTargets(s.st.runners, s.astray) && WorkerTargets(s.workers, s.fates.deletions, s.astray)
    requires KeepsTarget(s.st.runners, name, e)
    ensures EntryTargets(s.st.runners[name := e], s.astray)
    ensures WorkerTargets(s.workers[Ticket(name, s.serial) := Worker(e, Spawned)], s.fates.deletions, s.astray)
  {
  }

  lemma DeletingEntryIsAcceptable(s: Sys, name: string, reason: Reason)
    requires Tables(s.st.runners, s.st.deleted) && EntryIds(s.st.runners, s.issued)
    requires name in s.st.runners
    ensures var e := s.st.runners[name].(lifecycle := Lifecycle.Deleting, reason := reason);
      name !in s.st.deleted && e.vm.runnerName == name && IdFits(s.issued, name, e.vm.runnerID)
      && KeepsTarget(s.st.runners, name, e)
      && Acceptable(s.st.runners, s.issued, s.completing, name, e)
  {
  }

  lemma DeleteTrackedKeepsInv(s: Sys, name: string, reason: Reason)
    requires Inv(s) && name in s.st.runners && !s.st.runners[name].inFlight
    ensures var e := s.st.runners[name].(lifecycle := Lifecycle.Deleting, reason := reason);
      if e.provisioning then Inv(s.(st := Put(s.st, name, e)))
      else Inv(Spawn(s.(st := Put(s.st, name, e.(inFlight := true))), name, e.(inFlight := true)))
  {
    DeletingEntryIsAcceptable(s, name, reason);
    var e := s.st.runners[name].(lifecycle := Lifecycle.Deleting, reason := reason);
    if e.provisioning {
      PutKeepsInv(s, name, e);
    } else {
      SpawnKeepsInv(s, name, e.(inFlight := true));
    }
  }

  lemma DeleteRunnerCases(s: Sys, name: string, reason: Reason)
    requires name in s.st.runners ==> name !in s.st.deleted
    ensures DeleteRunner(s, name, reason) ==
      if name in s.st.runners && !s.st.runners[name].inFlight then
        var e := s.st.runners[name].(lifecycle := Lifecycle.Deleting, reason := reason);
        if e.provisioning then s.(st := Put(s.st, name, e))
        else Spawn(s.(st := Put(s.st, name, e.(inFlight := true))), name, e.(inFlight := true))
      else if name !in s.st.runners && name !in s.st.deleted then
        var e := FreshEntry(BareVM(name), Unknown).(lifecycle := Lifecycle.Deleting, reason := reason, inFlight := true);
        Spawn(s.(st := Put(s.st, name, e)), name, e)
      else s
  {
    if name in s.st.runners && s.st.runners[name].provisioning && !s.st.runners[name].inFlight {
      var e := s.st.runners[name].(lifecycle := Lifecycle.Deleting, reason := reason);
      assert e.(inFlight := false) == e;
    }
  }

  /** `deleteRunner` is safe for any name, at any time, with any reason. */
  lemma DeleteRunnerKeepsInv(s: Sys, name: string, reason: Reason)
    requires Inv(s)
    ensures Inv(DeleteRunner(s, name, reason))
  {
    TrackedFacts(s.st.runners, s.st.deleted, s.issued, s.completing, name);
    DeleteRunnerCases(s, name, reason);
    if name in s.st.runners {
      if !s.st.runners[name].inFlight {
        DeleteTrackedKeepsInv(s, name, reason);
      }
    } else if name !in s.st.deleted {
      SpawnKeepsInv(s, name, FreshEntry(BareVM(name), Unknown).(lifecycle := Lifecycle.Deleting, reason := reason, inFlight := true));
    }
  }

  lemma DeleteOwnKeepsInv(s: Sys, g: nat)
    requires Inv(s) && g in s.holders && s.holders[g].Dooming?
    ensures Inv(DoDeleteOwn(s, g))
  {
    StageKeepsInv(s, g, Finished);
    DeleteRunnerKeepsInv(At(s, g, Finished), s.holders[g].name, s.holders[g].reason);
  }

  /** After `deleteRunner`, a tracked runner is being deleted. */
  lemma DeleteRunnerSettlesCompletion(s: Sys, name: string)
    requires Flights(s.st.runners, s.workers, s.serial, s.flight)
    requires Tables(s.st.runners, s.st.deleted)
    ensures var s' := DeleteRunner(s, name, JobDone);
      && s'.completing == s.completing
      && (name in s'.st.runners ==> s'.st.runners[name].lifecycle == Lifecycle.Deleting)
  {
  }

  lemma CallbackReturnKeepsInv(s: Sys)
    requires Inv(s) && s.completing.Some?
    requires s.completing.value in s.st.runners ==> s.st.runners[s.completing.value].lifecycle == Lifecycle.Deleting
    ensures Inv(s.(completing := None))
  {
  }

  lemma CompletionDeleteKeepsInv(s: Sys)
    requires Inv(s) && s.completing.Some?
    ensures Inv(DoCompletionDelete(s))
  {
    var name := s.completing.value;
    DeleteRunnerKeepsInv(s, name, JobDone);
    DeleteRunnerSettlesCompletion(s, name);
    CallbackReturnKeepsInv(DeleteRunner(s, name, JobDone));
  }

  lemma ReapKeepsInv(s: Sys, name: string, lookup: PowerReading, now: int)
    requires Inv(s) && name in s.views
    ensures Inv(DoReap(s, name, lookup, now))
  {
    var r := ReapReason(s.views[name], lookup, now, s.limits.maxAge, s.limits.idleTimeout);
    if r.Some? {
      DeleteRunnerKeepsInv(s, s.views[name].vm.runnerName, r.value);
    }
  }

  // ---- scaling down ----

  lemma ChosenAreFree(s: State, limit: nat, chosen: set<string>, workers: Workers, serial: nat, flight: map<string, nat>)
    requires IdleChoice(s, limit, chosen) && Flights(s.runners, workers, serial, flight) && Losses(s.runners, workers)
    ensures forall n :: n in chosen ==>
      n in s.runners && !s.runners[n].inFlight && !s.runners[n].missing && !s.runners[n].provisioning
    ensures forall t :: t in workers ==> t.name !in chosen
  {
  }

  predicate Free(r: Runners, chosen: set<string>) {
    forall n :: n in chosen ==> n in r && !r[n].inFlight && !r[n].missing && !r[n].provisioning
  }

  /** Every chosen runner is doomed and gets its own worker; nothing else moves. */
  ghost predicate Launches(r: Runners, r': Runners, workers: Workers, workers': Workers, serial: nat,
                           flight: map<string, nat>, flight': map<string, nat>, chosen: set<string>)
  {
    && (forall n :: n in r' ==> n in r)
    && (forall n :: n in r ==> n in r' && r'[n] == if n in chosen then RunnerState.Doomed(r[n]) else r[n])
    && (forall t :: t in workers ==> t in workers' && workers'[t] == workers[t])
    && (forall t :: t in workers' && t !in workers ==>
          t.name in chosen && t.name in r && t.serial == serial && workers'[t].entry == RunnerState.Doomed(r[t.name]))
    && (forall n :: n in chosen ==> Ticket(n, serial) in workers')
    && (forall n :: n in flight || n in chosen ==> n in flight' && flight'[n] == if n in chosen then serial else flight[n])
  }

  lemma ScaleDownLaunches(s: Sys, chosen: set<string>)
    requires chosen <= s.st.runners.Keys && forall t :: t in s.workers ==> t.name !in chosen
    ensures var s' := DoScaleDown(s, chosen);
      Launches(s.st.runners, s'.st.runners, s.workers, s'.workers, s.serial, s.flight, s'.flight, chosen)
  {
  }

  lemma LaunchKeepsFlights(r: Runners, r': Runners, workers: Workers, workers': Workers, serial: nat,
                           flight: map<string, nat>, flight': map<string, nat>, chosen: set<string>)
    requires Launches(r, r', workers, workers', serial, flight, flight', chosen)
    requires Flights(r, workers, serial, flight) && Free(r, chosen)
    requires forall n :: n in r ==> r[n].vm.runnerName == n
    requires forall t :: t in workers ==> t.name !in chosen
    ensures Flights(r', workers', serial + 1, flight')
  {
  }

  lemma ScaleDownKeepsFlights(s: Sys, chosen: set<string>)
    requires Flights(s.st.runners, s.workers, s.serial, s.flight)
    requires Tables(s.st.runners, s.st.deleted)
    requires Free(s.st.runners, chosen) && chosen <= s.st.runners.Keys && forall t :: t in s.workers ==> t.name !in chosen
    ensures var s' := DoScaleDown(s, chosen);
      Flights(s'.st.runners, s'.workers, s'.serial, s'.flight)
  {
    var s' := DoScaleDown(s, chosen);
    ScaleDownLaunches(s, chosen);
    LaunchKeepsFlights(s.st.runners, s'.st.runners, s.workers, s'.workers, s.serial, s.flight, s'.flight, chosen);
  }

  lemma ScaleDownKeepsLosses(s: Sys, chosen: set<string>)
    requires Losses(s.st.runners, s.workers) && Owners(s.st.runners, s.holders, s.owner)
    requires Free(s.st.runners, chosen) && chosen <= s.st.runners.Keys && forall t :: t in s.workers ==> t.name !in chosen
    ensures var s' := DoScaleDown(s, chosen);
      Losses(s'.st.runners, s'.workers) && Owners(s'.st.runners, s'.holders, s'.owner)
  {
  }

  lemma ScaleDownKeepsWorkers(s: Sys, chosen: set<string>)
    requires Guards(s.workers, s.regs, s.misread) && Tracked(s.st.runners.Keys, s.workers, s.serial, s.fates)
    requires chosen <= s.st.runners.Keys
    ensures var s' := DoScaleDown(s, chosen);
      && Guards(s'.workers, s'.regs, s'.misread) && s'.st.runners.Keys == s.st.runners.Keys
      && Tracked(s'.st.runners.Keys, s'.workers, s'.serial, s'.fates)
  {
    assert DoScaleDown(s, chosen).st.runners.Keys == s.st.runners.Keys;
  }

  lemma ScaleDownKeepsIds(r: Runners, workers: Workers, spawned: Workers, issued: map<string, int>)
    requires WorkerIds(workers, issued) && EntryIds(r, issued)
    requires forall t :: t in spawned ==>
      t.name in r && spawned[t].pc == Spawned && spawned[t].entry.vm.runnerID == r[t.name].vm.runnerID
    ensures WorkerIds(workers + spawned, issued)
  {
  }

  lemma ScaleDownKeepsEntryIds(s: State, chosen: set<string>, issued: map<string, int>)
    requires EntryIds(s.runners, issued)
    ensures EntryIds(RunnerState.ScaleDown(s, chosen).runners, issued)
  {
  }

  lemma ScaleDownKeepsEntries(s: State, chosen: set<string>, completing: Option<string>,
                              counted: multiset<string>, expired: set<string>)
    requires Tables(s.runners, s.deleted) && Completions(s.runners, completing)
    requires Counted(s.runners, s.deleted.Keys, counted, expired)
    ensures var r := RunnerState.ScaleDown(s, chosen).runners;
      Tables(r, s.deleted) && Completions(r, completing) && Counted(r, s.deleted.Keys, counted, expired)
  {
  }

  lemma ScaleDownKeepsInv(s: Sys, limit: nat, chosen: set<string>)
    requires Inv(s) && IdleChoice(s.st, limit, chosen)
    ensures chosen <= s.st.runners.Keys && Inv(DoScaleDown(s, chosen))
  {
    ChosenAreFree(s.st, limit, chosen, s.workers, s.serial, s.flight);
    ScaleDownKeepsFlights(s, chosen);
    ScaleDownKeepsLosses(s, chosen);
    ScaleDownKeepsWorkers(s, chosen);
    ScaleDownKeepsIds(s.st.runners, s.workers, SpawnAll(s, chosen), s.issued);
    ScaleDownKeepsEntryIds(s.st, chosen, s.issued);
    ScaleDownKeepsEntries(s.st, chosen, s.completing, s.counted, s.expired);
    ScaleDownKeepsTargets(s, chosen);
  }

  lemma ScaleDownKeepsTargets(s: Sys, chosen: set<string>)
    requires EntryTargets(s.st.runners, s.astray) && WorkerTargets(s.workers, s.fates.deletions, s.astray)
    requires chosen <= s.st.runners.Keys
    ensures EntryTargets(RunnerState.ScaleDown(s.st, chosen).runners, s.astray)
    ensures WorkerTargets(s.workers + SpawnAll(s, chosen), s.fates.deletions, s.astray)
  {
  }

  // ---- delete workers ----

  ghost predicate Shrinks(regs: map<string, Registration>, regs': map<string, Registration>) {
    forall n :: n in regs' ==> n in regs && regs'[n].id == regs[n].id
  }

  ghost predicate PcFits(s: Sys, regs: map<string, Registration>, t: Ticket, pc: WorkerPc)
    requires t in s.workers
  {
    && (pc.Removing? ==> pc.id != 0 && IdFits(s.issued, t.name, pc.id))
    && (Outcome(pc) == Some(NoError) && t !in s.misread ==> t.name !in regs)
    && ((pc.Deleting? || pc.Gone?) ==> pc.err == NoError || Exempt(s.workers[t].entry))
    && (pc.Gone? ==> t in s.fates.deletions && s.fates.deletions[t] == s.workers[t].entry.vm.vmName)
  }

  lemma MoveKeepsFlights(r: Runners, workers: Workers, serial: nat, flight: map<string, nat>, t: Ticket, pc: WorkerPc)
    requires Flights(r, workers, serial, flight) && Losses(r, workers) && t in workers
    ensures var workers' := workers[t := workers[t].(pc := pc)];
      Flights(r, workers', serial, flight) && Losses(r, workers')
  {
  }

  lemma MoveKeepsGuards(s: Sys, regs: map<string, Registration>, t: Ticket, pc: WorkerPc)
    requires Guards(s.workers, s.regs, s.misread) && WorkerIds(s.workers, s.issued)
    requires Tracked(s.st.runners.Keys, s.workers, s.serial, s.fates)
    requires Registry(s.regs, s.issued, s.nextId, s.used)
    requires t in s.workers && PcFits(s, regs, t, pc) && Shrinks(s.regs, regs)
    ensures var workers := s.workers[t := s.workers[t].(pc := pc)];
      && Guards(workers, regs, s.misread) && WorkerIds(workers, s.issued)
      && Tracked(s.st.runners.Keys, workers, s.serial, s.fates)
      && Registry(regs, s.issued, s.nextId, s.used)
  {
  }

  lemma MoveKeepsInv(s: Sys, regs: map<string, Registration>, t: Ticket, pc: WorkerPc)
    requires Inv(s) && t in s.workers && PcFits(s, regs, t, pc) && Shrinks(s.regs, regs)
    ensures Inv(Moves(s, t, pc).(regs := regs))
  {
    MoveKeepsFlights(s.st.runners, s.workers, s.serial, s.flight, t, pc);
    MoveKeepsGuards(s, regs, t, pc);
    MoveKeepsTargets(s.workers, s.fates.deletions, s.astray, t, pc);
  }

  lemma MoveKeepsTargets(workers: Workers, deletions: map<Ticket, string>, astray: set<string>, t: Ticket, pc: WorkerPc)
    requires WorkerTargets(workers, deletions, astray) && t in workers
    ensures WorkerTargets(workers[t := workers[t].(pc := pc)], deletions, astray)
  {
  }

  lemma WorkerFacts(s: Sys, t: Ticket)
    requires Flights(s.st.runners, s.workers, s.serial, s.flight) && Losses(s.st.runners, s.workers)
    requires Tables(s.st.runners, s.st.deleted) && WorkerIds(s.workers, s.issued)
    requires Completions(s.st.runners, s.completing) && t in s.workers
    ensures t.name in s.st.runners && t.name !in s.st.deleted
    ensures var e := s.st.runners[t.name];
      && e.inFlight && e.lifecycle == Lifecycle.Deleting && !e.provisioning && e.vm.runnerName == t.name
      && (e.missing ==> s.workers[t].entry.missing)
    ensures s.workers[t].entry.vm.runnerID != 0 ==> IdFits(s.issued, t.name, s.workers[t].entry.vm.runnerID)
    ensures s.workers[t].pc.Removing? ==> s.workers[t].pc.id != 0 && IdFits(s.issued, t.name, s.workers[t].pc.id)
    ensures forall u :: u in s.workers && u.name == t.name ==> u == t
  {
  }

  /** An accepted removal, or an unknown id, proves the name deregistered. */
  lemma RemovalIsTruthful(regs: map<string, Registration>, issued: map<string, int>, n: string, id: int)
    requires forall m :: m in regs ==> m in issued && regs[m].id == issued[m]
    requires id != 0 && IdFits(issued, n, id)
    ensures !KnowsBusy(regs, id) ==> n !in WithoutIdle(regs, id)
    ensures !Knows(regs, id) ==> n !in regs
    ensures Shrinks(regs, WithoutIdle(regs, id))
  {
  }

  lemma RegistryFacts(s: Sys)
    requires Registry(s.regs, s.issued, s.nextId, s.used)
    ensures forall m :: m in s.regs ==> m in s.issued && s.regs[m].id == s.issued[m] && s.regs[m].id != 0
    ensures Shrinks(s.regs, s.regs)
  {
  }

  lemma EndKeepsFlights(s: Sys, t: Ticket, e: Entry)
    requires Flights(s.st.runners, s.workers, s.serial, s.flight) && Losses(s.st.runners, s.workers)
    requires Owners(s.st.runners, s.holders, s.owner)
    requires t in s.workers && !e.inFlight && !e.provisioning && (e.missing ==> e.lifecycle == Lifecycle.Deleting)
    ensures var r, workers := s.st.runners[t.name := e], s.workers - {t};
      && Flights(r, workers, s.serial, s.flight) && Losses(r, workers) && Owners(r, s.holders, s.owner)
  {
  }

  lemma EndKeepsWorkers(s: Sys, t: Ticket)
    requires Guards(s.workers, s.regs, s.misread) && WorkerIds(s.workers, s.issued)
    requires Tracked(s.st.runners.Keys, s.workers, s.serial, s.fates)
    ensures var workers := s.workers - {t};
      && Guards(workers, s.regs, s.misread) && WorkerIds(workers, s.issued)
      && Tracked(s.st.runners.Keys, workers, s.serial, s.fates)
  {
  }

  lemma EndKeepsEntries(s: Sys, name: string, e: Entry)
    requires Tables(s.st.runners, s.st.deleted) && EntryIds(s.st.runners, s.issued) && Completions(s.st.runners, s.completing)
    requires Counted(s.st.runners, s.st.deleted.Keys, s.counted, s.expired)
    requires name in s.st.runners && e.vm == s.st.runners[name].vm && e.completed == s.st.runners[name].completed
    requires e.completed ==> e.lifecycle == Lifecycle.Deleting
    ensures var r := s.st.runners[name := e];
      && Tables(r, s.st.deleted) && EntryIds(r, s.issued) && Completions(r, s.completing)
      && Counted(r, s.st.deleted.Keys, s.counted, s.expired) && r.Keys == s.st.runners.Keys
  {
  }

  lemma EndKeepsInv(s: Sys, t: Ticket, e: Entry)
    requires Inv(s) && t in s.workers && t.name in s.st.runners
    requires e.vm == s.st.runners[t.name].vm && e.completed == s.st.runners[t.name].completed
    requires !e.inFlight && !e.provisioning
    requires e.missing || e.completed ==> e.lifecycle == Lifecycle.Deleting
    ensures Inv(Ends(s, t, Put(s.st, t.name, e)))
  {
    EndKeepsFlights(s, t, e);
    EndKeepsWorkers(s, t);
    EndKeepsEntries(s, t.name, e);
    PutKeepsTargets(s.st.runners, s.astray, t.name, e);
    EndKeepsTargets(s.workers, s.fates.deletions, s.astray, t);
  }

  lemma EndKeepsTargets(workers: Workers, deletions: map<Ticket, string>, astray: set<string>, t: Ticket)
    requires WorkerTargets(workers, deletions, astray)
    ensures WorkerTargets(workers - {t}, deletions, astray)
  {
  }

  lemma GiveUpKeepsInv(s: Sys, t: Ticket)
    requires Inv(s) && t in s.workers
    ensures Inv(Ends(s, t, DeletionFailed(s.st, t.name)))
  {
    WorkerFacts(s, t);
    EndKeepsInv(s, t, s.st.runners[t.name].(inFlight := false));
  }

  lemma PreserveKeepsInv(s: Sys, t: Ticket)
    requires Inv(s) && t in s.workers && !TreatedAsMissing(s.workers[t].entry)
    ensures Inv(Ends(s, t, PreserveBusy(s.st, t.name)))
  {
    WorkerFacts(s, t);
    var e := s.st.runners[t.name];
    if e.completed {
      EndKeepsInv(s, t, e.(lifecycle := Lifecycle.Deleting, inFlight := false, reason := JobDone));
    } else {
      EndKeepsInv(s, t, e.(lifecycle := Busy, inFlight := false, reason := NoReason));
    }
  }

  lemma AwaitKeepsInv(s: Sys, t: Ticket)
    requires Inv(s) && t in s.workers
    ensures Inv(Ends(s, t, AwaitMissingRegistration(s.st, t.name)))
  {
    WorkerFacts(s, t);
    EndKeepsInv(s, t, s.st.runners[t.name].(lifecycle := Lifecycle.Deleting, missing := true, inFlight := false, reason := VMMissing));
  }

  lemma RemoveKeepsFlights(s: Sys, t: Ticket)
    requires Flights(s.st.runners, s.workers, s.serial, s.flight) && Losses(s.st.runners, s.workers)
    requires Owners(s.st.runners, s.holders, s.owner) && t in s.workers
    ensures var r, workers := s.st.runners - {t.name}, s.workers - {t};
      && Flights(r, workers, s.serial, s.flight) && Losses(r, workers) && Owners(r, s.holders, s.owner)
  {
  }

  lemma RemoveKeepsEntries(s: Sys, n: string, now: int)
    requires Tables(s.st.runners, s.st.deleted) && EntryIds(s.st.runners, s.issued) && Completions(s.st.runners, s.completing)
    requires Counted(s.st.runners, s.st.deleted.Keys, s.counted, s.expired)
    ensures var st := Remove(s.st, n, now);
      && Tables(st.runners, st.deleted) && EntryIds(st.runners, s.issued) && Completions(st.runners, s.completing)
      && Counted(st.runners, st.deleted.Keys, s.counted, s.expired)
  {
  }

  lemma RemoveKeepsMine(s: Sys, t: Ticket)
    requires Fresh(s.holders, s.used, s.mine) && Bounded(s.st.runners.Keys, s.mine, s.limits.cap)
    requires Owners(s.st.runners, s.holders, s.owner) && Flights(s.st.runners, s.workers, s.serial, s.flight)
    requires Tracked(s.st.runners.Keys, s.workers, s.serial, s.fates)
    requires t in s.workers && s.workers[t].pc.Gone?
    ensures var names := (s.st.runners - {t.name}).Keys;
      && Fresh(s.holders, s.used, s.mine - {t.name}) && Bounded(names, s.mine - {t.name}, s.limits.cap)
      && Tracked(names, s.workers - {t}, s.serial, s.fates.(dropped := s.fates.dropped[t.name := t]))
  {
    SubsetSize(s.mine - {t.name}, s.mine);
    RemoveKeepsTracked(s.st.runners.Keys, s.workers, s.serial, s.fates, t);
    assert (s.st.runners - {t.name}).Keys == s.st.runners.Keys - {t.name};
  }

  lemma RemoveKeepsTracked(names: set<string>, workers: Workers, serial: nat, fates: Fates, t: Ticket)
    requires Tracked(names, workers, serial, fates) && t in workers && workers[t].pc.Gone?
    ensures Tracked(names - {t.name}, workers - {t}, serial, fates.(dropped := fates.dropped[t.name := t]))
  {
    var after := fates.(dropped := fates.dropped[t.name := t]);
    assert forall n :: n in fates.created && n != t.name && Disposed(n, fates) ==> Disposed(n, after);
    assert t.name in fates.created ==> Disposed(t.name, after);
  }

  lemma RemoveKeepsInv(s: Sys, t: Ticket, now: int)
    requires Inv(s) && t in s.workers && s.workers[t].pc.Gone?
    ensures Inv(Ends(s, t, Remove(s.st, t.name, now)).(
      mine := s.mine - {t.name}, fates := s.fates.(dropped := s.fates.dropped[t.name := t])))
  {
    EndKeepsTargets(s.workers, s.fates.deletions, s.astray, t);
    RemoveKeepsFlights(s, t);
    RemoveKeepsEntries(s, t.name, now);
    RemoveKeepsMine(s, t);
    EndKeepsWorkers(s, t);
  }

  lemma GuardFacts(s: Sys, t: Ticket)
    requires Guards(s.workers, s.regs, s.misread) && t in s.workers
    requires Tracked(s.st.runners.Keys, s.workers, s.serial, s.fates)
    ensures Outcome(s.workers[t].pc) == Some(NoError) && t !in s.misread ==> t.name !in s.regs
    ensures s.workers[t].pc.Gone? ==> t in s.fates.deletions && s.fates.deletions[t] == s.workers[t].entry.vm.vmName
    ensures s.workers[t].pc.Deleting? || s.workers[t].pc.Gone? ==> s.workers[t].pc.err == NoError || Exempt(s.workers[t].entry)
  {
  }

  lemma JudgeKeepsInv(s: Sys, t: Ticket)
    requires Inv(s) && t in s.workers && s.workers[t].pc.Judged?
    ensures Inv(DoJudge(s, t))
  {
    var w := s.workers[t];
    match VerdictFor(w.entry, w.pc.err)
    case Preserve => PreserveKeepsInv(s, t);
    case GiveUp => GiveUpKeepsInv(s, t);
    case Proceed =>
      GuardFacts(s, t);
      RegistryFacts(s);
      MoveKeepsInv(s, s.regs, t, WorkerPc.Deleting(w.pc.err));
  }

  lemma RecordDeletion(names: set<string>, workers: Workers, serial: nat, fates: Fates, astray: set<string>, t: Ticket)
    requires Tracked(names, workers, serial, fates) && WorkerTargets(workers, fates.deletions, astray) && t in workers
    ensures var after := fates.(deletions := fates.deletions[t := workers[t].entry.vm.vmName]);
      Tracked(names, workers, serial, after) && WorkerTargets(workers, after.deletions, astray)
  {
    var after := fates.(deletions := fates.deletions[t := workers[t].entry.vm.vmName]);
    assert forall n :: n in fates.created && Disposed(n, fates) ==> Disposed(n, after);
  }

  lemma RemoveMisreadKeepsInv(s: Sys, t: Ticket)
    requires Inv(s) && t in s.workers
    ensures Inv(DoRemoveMisread(s, t))
  {
    RegistryFacts(s);
    var c := s.(misread := s.misread + {t});
    assert Inv(c);
    MoveKeepsInv(c, s.regs, t, Judged(NoError));
  }

  lemma CloudDeleteKeepsInv(s: Sys, t: Ticket)
    requires Inv(s) && t in s.workers && s.workers[t].pc.Deleting?
    ensures Inv(DoCloudDeleteSucceeds(s, t))
  {
    GuardFacts(s, t);
    RegistryFacts(s);
    var deletions := s.fates.deletions[t := s.workers[t].entry.vm.vmName];
    var c := s.(fates := s.fates.(deletions := deletions));
    RecordDeletion(s.st.runners.Keys, s.workers, s.serial, s.fates, s.astray, t);
    MoveKeepsInv(c, s.regs, t, Gone(s.workers[t].pc.err));
  }

  lemma LookupFoundKeepsInv(s: Sys, t: Ticket)
    requires Inv(s) && t in s.workers && t.name in s.regs
    ensures Inv(Moves(s, t, Removing(s.regs[t.name].id)))
  {
    RegistryFacts(s);
    MoveKeepsInv(s, s.regs, t, Removing(s.regs[t.name].id));
  }

  lemma RemovalKeepsInv(s: Sys, t: Ticket, removed: bool)
    requires Inv(s) && t in s.workers && s.workers[t].pc.Removing?
    ensures !KnowsBusy(s.regs, s.workers[t].pc.id) ==> Inv(DoRemoveSucceeds(s, t))
    ensures Inv(DoRemoveFails(s, t, removed))
  {
    var id := s.workers[t].pc.id;
    WorkerFacts(s, t);
    RegistryFacts(s);
    RemovalIsTruthful(s.regs, s.issued, t.name, id);
    if !KnowsBusy(s.regs, id) {
      MoveKeepsInv(s, WithoutIdle(s.regs, id), t, Judged(NoError));
    }
    MoveKeepsInv(s, if removed then WithoutIdle(s.regs, id) else s.regs, t, Judged(OtherError));
  }

  lemma RemoveAbsentKeepsInv(s: Sys, t: Ticket)
    requires Inv(s) && t in s.workers && s.workers[t].pc.Removing? && !Knows(s.regs, s.workers[t].pc.id)
    ensures Inv(Moves(s, t, Judged(NoError)))
  {
    WorkerFacts(s, t);
    RegistryFacts(s);
    RemovalIsTruthful(s.regs, s.issued, t.name, s.workers[t].pc.id);
    MoveKeepsInv(s, s.regs, t, Judged(NoError));
  }

  lemma FailureKeepsInv(s: Sys, t: Ticket, err: RegError)
    requires Inv(s) && t in s.workers && err != NoError
    ensures Inv(Moves(s, t, Judged(err)))
  {
    RegistryFacts(s);
    MoveKeepsInv(s, s.regs, t, Judged(err));
  }

  // ---- GitHub ----

  lemma RegsKeepInv(s: Sys, regs: map<string, Registration>)
    requires Inv(s) && Shrinks(s.regs, regs)
    ensures Inv(s.(regs := regs))
  {
  }

  // ---- every action ----

  lemma JITFailsKeepsInv(s: Sys, g: nat, registered: bool)
    requires Inv(s) && g in s.holders && s.holders[g].Reserved?
    ensures Inv(DoJITFails(s, g, registered))
  {
    if registered {
      RegisterKeepsInv(s, g, Broken(s.holders[g].name));
    } else {
      StageKeepsInv(s, g, Broken(s.holders[g].name));
    }
  }

  lemma SlotKeepsInv(s: Sys, g: nat, p: Provision)
    requires Inv(s) && ProvisionEnabled(s, g, p)
    requires p.Acquire? || p.ReleaseUnused? || p.Release?
    ensures Inv(AfterProvision(s, g, p))
  {
    match p
    case Acquire => StageKeepsInv(s, g, Holding);
    case ReleaseUnused => ReleaseKeepsInv(s, g);
    case Release => ReleaseKeepsInv(s, g);
  }

  lemma EarlyProvisionKeepsInv(s: Sys, g: nat, p: Provision)
    requires Inv(s) && ProvisionEnabled(s, g, p)
    requires p.Reserve? || p.IssueJIT? || p.JITFails? || p.RecordJIT?
    ensures Inv(AfterProvision(s, g, p))
  {
    match p
    case Reserve(name, now) => ReserveKeepsInv(s, g, name, now);
    case IssueJIT(reported) => RegisterKeepsInv(s, g, Registered(s.holders[g].name, if reported then s.nextId else 0));
    case JITFails(registered) => JITFailsKeepsInv(s, g, registered);
    case RecordJIT => RecordJITKeepsInv(s, g);
  }

  lemma LateProvisionKeepsInv(s: Sys, g: nat, p: Provision)
    requires Inv(s) && ProvisionEnabled(s, g, p)
    requires p.BeginCreate? || p.CreateSucceeds? || p.CreateFails? || p.AddIdle? || p.ReadBack? || p.ClearFailed? || p.DeleteOwn?
    ensures Inv(AfterProvision(s, g, p))
  {
    match p
    case BeginCreate => BeginCreateKeepsInv(s, g);
    case CreateSucceeds(now) => CreateSucceedsKeepsInv(s, g, now);
    case CreateFails => StageKeepsInv(s, g, Broken(s.holders[g].name));
    case AddIdle => AddIdleKeepsInv(s, g);
    case ReadBack => ReadBackKeepsInv(s, g);
    case ClearFailed => ClearFailedKeepsInv(s, g);
    case DeleteOwn => DeleteOwnKeepsInv(s, g);
  }

  lemma CreateSucceedsKeepsInv(s: Sys, g: nat, now: int)
    requires Inv(s) && g in s.holders && s.holders[g].Creating?
    ensures Inv(DoCreateSucceeds(s, g, now))
  {
    var name, id := s.holders[g].name, s.holders[g].id;
    assert StageId(s.holders[g], s.issued);
    StageKeepsInv(s, g, Created(name, RunnerVM(name, id, ResourceName(name), now, Starting)));
  }

  lemma ReadBackKeepsInv(s: Sys, g: nat)
    requires Inv(s) && g in s.holders && s.holders[g].Settled?
    ensures Inv(DoReadBack(s, g))
  {
    StageKeepsInv(s, g, DoReadBack(s, g).holders[g]);
  }

  lemma ControlKeepsInv(s: Sys, c: Control)
    requires Inv(s) && ControlEnabled(s, c)
    ensures Inv(AfterControl(s, c))
  {
    match c
    case Statistics(count) => StatisticsKeepsInv(s, count);
    case DesiredCount(count) => DesiredCountKeepsInv(s, count);
    case ScaleDown(limit, chosen) => ScaleDownKeepsInv(s, limit, chosen);
    case JobStarted(name) => JobStartedKeepsInv(s, name);
    case JobCompleted(name) => JobCompletedKeepsInv(s, name);
    case CompletionDelete => CompletionDeleteKeepsInv(s);
    case ListCloud(cloud, now) => ListCloudKeepsInv(s, cloud, now);
    case Reap(name, lookup, now) => ReapKeepsInv(s, name, lookup, now);
  }

  lemma LookupKeepsInv(s: Sys, t: Ticket, w: Work)
    requires Inv(s) && WorkEnabled(s, t, w)
    requires w.LookupFails? || w.LookupAbsent? || w.LookupFound? || w.UseRecordedId?
    ensures Inv(AfterWork(s, t, w))
  {
    match w
    case LookupFails => FailureKeepsInv(s, t, OtherError);
    case LookupAbsent => LookupAbsentKeepsInv(s, t);
    case LookupFound => LookupFoundKeepsInv(s, t);
    case UseRecordedId => UseRecordedIdKeepsInv(s, t);
  }

  lemma DeregisterKeepsInv(s: Sys, t: Ticket, w: Work)
    requires Inv(s) && WorkEnabled(s, t, w)
    requires w.RemoveSucceeds? || w.RemoveAbsent? || w.RemoveMisread? || w.RemoveStillRunning? || w.RemoveFails?
    ensures Inv(AfterWork(s, t, w))
  {
    match w
    case RemoveSucceeds => RemovalKeepsInv(s, t, false);
    case RemoveAbsent => RemoveAbsentKeepsInv(s, t);
    case RemoveMisread => RemoveMisreadKeepsInv(s, t);
    case RemoveStillRunning => FailureKeepsInv(s, t, StillRunning);
    case RemoveFails(removed) => RemovalKeepsInv(s, t, removed);
  }

  lemma CleanupKeepsInv(s: Sys, t: Ticket, w: Work)
    requires Inv(s) && WorkEnabled(s, t, w)
    requires w.Judge? || w.CloudDeleteFails? || w.CloudDeleteSucceeds? || w.Conclude?
    ensures Inv(AfterWork(s, t, w))
  {
    match w
    case Judge => JudgeKeepsInv(s, t);
    case CloudDeleteFails => GiveUpKeepsInv(s, t);
    case CloudDeleteSucceeds => CloudDeleteKeepsInv(s, t);
    case Conclude(now) => ConcludeKeepsInv(s, t, now);
  }

  lemma ConcludeKeepsInv(s: Sys, t: Ticket, now: int)
    requires Inv(s) && t in s.workers && s.workers[t].pc.Gone?
    ensures Inv(DoConclude(s, t, now))
  {
    AwaitKeepsInv(s, t);
    RemoveKeepsInv(s, t, now);
  }

  lemma LookupAbsentKeepsInv(s: Sys, t: Ticket)
    requires Inv(s) && t in s.workers && t.name !in s.regs
    ensures Inv(Moves(s, t, Judged(NoError)))
  {
    RegistryFacts(s);
    MoveKeepsInv(s, s.regs, t, Judged(NoError));
  }

  lemma UseRecordedIdKeepsInv(s: Sys, t: Ticket)
    requires Inv(s) && t in s.workers && s.workers[t].entry.vm.runnerID != 0
    ensures Inv(Moves(s, t, Removing(s.workers[t].entry.vm.runnerID)))
  {
    WorkerFacts(s, t);
    RegistryFacts(s);
    MoveKeepsInv(s, s.regs, t, Removing(s.workers[t].entry.vm.runnerID));
  }

  lemma HubKeepsInv(s: Sys, h: Hub)
    requires Inv(s) && HubEnabled(s, h)
    ensures Inv(AfterHub(s, h))
  {
    RegsKeepInv(s, AfterHub(s, h).regs);
  }

  lemma ProvisionKeepsInv(s: Sys, g: nat, p: Provision)
    requires Inv(s) && ProvisionEnabled(s, g, p)
    ensures Inv(AfterProvision(s, g, p))
  {
    if p.Acquire? || p.ReleaseUnused? || p.Release? {
      SlotKeepsInv(s, g, p);
    } else if p.Reserve? || p.IssueJIT? || p.JITFails? || p.RecordJIT? {
      EarlyProvisionKeepsInv(s, g, p);
    } else {
      LateProvisionKeepsInv(s, g, p);
    }
  }

  lemma WorkKeepsInv(s: Sys, t: Ticket, w: Work)
    requires Inv(s) && WorkEnabled(s, t, w)
    ensures Inv(AfterWork(s, t, w))
  {
    if w.Judge? || w.CloudDeleteFails? || w.CloudDeleteSucceeds? || w.Conclude? {
      CleanupKeepsInv(s, t, w);
    } else if w.LookupFails? || w.LookupAbsent? || w.LookupFound? || w.UseRecordedId? {
      LookupKeepsInv(s, t, w);
    } else {
      DeregisterKeepsInv(s, t, w);
    }
  }

  lemma StepKeepsInv(s: Sys, a: Action)
    requires Inv(s) && Enabled(s, a)
    ensures Inv(After(s, a))
  {
    match a
    case Provisioner(g, p) => ProvisionKeepsInv(s, g, p);
    case Controller(c) => ControlKeepsInv(s, c);
    case Deleter(t, w) => WorkKeepsInv(s, t, w);
    case GitHub(h) => HubKeepsInv(s, h);
  }

  /** The invariant holds at every point of every run. */
  lemma {:induction false} RunKeepsInv(trace: seq<Sys>, actions: seq<Action>, i: nat)
    requires Run(trace, actions) && i < |trace|
    ensures Inv(trace[i])
  {
    if i == 0 {
      InitEstablishesInv(trace[0]);
    } else {
      RunKeepsInv(trace, actions, i - 1);
      StepKeepsInv(trace[i - 1], actions[i - 1]);
    }
  }
}

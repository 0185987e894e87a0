/** One pool's goroutines as program counters over the shared runner table.

    Every action below is one atomic section: a table method, one GitHub or
    Azure call, or an event outside the controller. Callbacks, scale-downs and
    reconciliations may happen at any moment and with any arguments, which
    covers every interleaving of the listener, the provisioners, the reconciler
    and the delete workers. */
module ScalerProtocol {
  import opened Common
  import opened ResourceNames
  import opened RunnerState
  import opened Demand

  /** A provisioner holding a gate slot. */
  datatype Stage =
    | Holding
    | Reserved(name: string)
    | Registered(name: string, id: int)
    | Recorded(name: string, id: int)
    | Creating(name: string, id: int)
    | Created(name: string, vm: RunnerVM)
    | Broken(name: string)
    | Settled(name: string)
    | Dooming(name: string, reason: Reason)
    | Finished

  /** The stages in which the provisioner alone may settle its reservation. */
  predicate Owning(g: Stage) {
    g.Reserved? || g.Registered? || g.Recorded? || g.Creating? || g.Created? || g.Broken?
  }

  datatype RegError = NoError | StillRunning | OtherError

  datatype WorkerPc =
    | Spawned
    | Removing(id: int)
    | Judged(err: RegError)
    | Deleting(err: RegError)
    | Gone(err: RegError)

  datatype Worker = Worker(entry: Entry, pc: WorkerPc)

  /** Identifies one spawned delete goroutine. */
  datatype Ticket = Ticket(name: string, serial: nat)

  datatype Registration = Registration(id: int, busy: bool)

  datatype Limits = Limits(cap: int, maxAge: int, idleTimeout: int)

  /** What became of the VMs: the number of workers spawned before a name's Create
      began, the VM each worker deleted, and the worker that dropped a name. */
  datatype Fates = Fates(created: map<string, nat>, deletions: map<Ticket, string>, dropped: map<string, Ticket>)

  /** From `owner` on, the fields are history: which goroutine owns a
      reservation, which worker a deletion, which id a name was issued, which
      names were used, and so on. `astray` are the names some listing gave a VM
      of another name, `misread` the workers that took a failed removal for an
      absent registration. Actions consult only `used`, for freshness. */
  datatype Sys = Sys(
    limits: Limits,
    st: State,
    holders: map<nat, Stage>,
    workers: map<Ticket, Worker>,
    serial: nat,
    completing: Option<string>,
    views: map<string, Entry>,
    regs: map<string, Registration>,
    nextId: int,
    owner: map<string, nat>,
    flight: map<string, nat>,
    issued: map<string, int>,
    used: set<string>,
    mine: set<string>,
    fates: Fates,
    astray: set<string>,
    misread: set<Ticket>,
    counted: multiset<string>,
    expired: set<string>,
    ledger: Ledger)

  predicate Init(s: Sys) {
    && s.st == EmptyState && s.holders == map[] && s.workers == map[] && s.serial == 0
    && s.completing == None && s.views == map[]
    && s.nextId > 0 && "" !in s.regs && s.owner == map[] && s.flight == map[]
    && s.issued == (map n | n in s.regs :: s.regs[n].id) && s.used == s.regs.Keys
    && (forall n :: n in s.regs ==> 0 < s.regs[n].id < s.nextId)
    && s.mine == {} && s.fates == Fates(map[], map[], map[]) && s.astray == {} && s.misread == {}
    && s.counted == multiset{} && s.expired == {} && s.ledger == EmptyLedger
  }

  datatype Provision =
    | Acquire
    | ReleaseUnused
    | Reserve(name: string, now: int)
    | IssueJIT(reported: bool)
    | JITFails(registered: bool)
    | RecordJIT
    | BeginCreate
    | CreateSucceeds(now: int)
    | CreateFails
    | AddIdle
    | ReadBack
    | ClearFailed
    | DeleteOwn
    | Release

  /** What the listener, the reconciler and trimming do to the table. */
  datatype Control =
    | Statistics(count: int)
    | DesiredCount(count: int)
    | ScaleDown(limit: nat, chosen: set<string>)
    | JobStarted(name: string)
    | JobCompleted(name: string)
    | CompletionDelete
    | ListCloud(cloud: seq<RunnerVM>, now: int)
    | Reap(name: string, lookup: PowerReading, now: int)

  datatype Work =
    | LookupFails
    | LookupAbsent
    | LookupFound
    | UseRecordedId
    | RemoveSucceeds
    | RemoveAbsent
    | RemoveMisread
    | RemoveStillRunning
    | RemoveFails(removed: bool)
    | Judge
    | CloudDeleteFails
    | CloudDeleteSucceeds
    | Conclude(now: int)

  datatype Hub =
    | JobAssigned(name: string)
    | RunnerLeaves(name: string)

  datatype Action =
    | Provisioner(g: nat, provision: Provision)
    | Controller(control: Control)
    | Deleter(t: Ticket, work: Work)
    | GitHub(hub: Hub)

  // ---- helpers ----

  function At(s: Sys, g: nat, stage: Stage): Sys {
    s.(holders := s.holders[g := stage])
  }

  function Without(s: Sys, g: nat): Sys {
    s.(holders := s.holders - {g})
  }

  function Spawn(s: Sys, name: string, e: Entry): Sys {
    s.(workers := s.workers[Ticket(name, s.serial) := Worker(e, Spawned)], serial := s.serial + 1,
       flight := s.flight[name := s.serial])
  }

  /** `deleteRunner`: mark, and start a worker if the mark was taken. */
  function DeleteRunner(s: Sys, name: string, reason: Reason): Sys {
    var m := MarkDeleting(s.st, name, reason);
    var s' := s.(st := m.state);
    if m.start then Spawn(s', name, m.entry) else s'
  }

  function Moves(s: Sys, t: Ticket, pc: WorkerPc): Sys
    requires t in s.workers
  {
    s.(workers := s.workers[t := s.workers[t].(pc := pc)])
  }

  function Ends(s: Sys, t: Ticket, st: State): Sys {
    s.(workers := s.workers - {t}, st := st)
  }

  predicate TreatedAsMissing(e: Entry) {
    e.missing || e.reason == VMMissing
  }

  /** The reasons for which a worker deletes a VM it could not deregister. */
  predicate Exempt(e: Entry) {
    TreatedAsMissing(e) || e.reason == HardLifetime || e.reason == VMStopped
  }

  datatype Verdict = Preserve | GiveUp | Proceed

  function VerdictFor(e: Entry, err: RegError): Verdict {
    if err != NoError && !TreatedAsMissing(e) then
      if err == StillRunning && e.reason != HardLifetime && e.reason != VMStopped then Preserve
      else if e.reason != HardLifetime && e.reason != VMStopped then GiveUp
      else Proceed
    else Proceed
  }

  /** GitHub accepts a removal by id only for a runner that is not working. */
  function WithoutIdle(regs: map<string, Registration>, id: int): map<string, Registration> {
    map n | n in regs && (regs[n].id != id || regs[n].busy) :: regs[n]
  }

  predicate Knows(regs: map<string, Registration>, id: int) {
    exists n :: n in regs && regs[n].id == id
  }

  predicate KnowsBusy(regs: map<string, Registration>, id: int) {
    exists n :: n in regs && regs[n].id == id && regs[n].busy
  }

  // ---- when an action can happen ----

  predicate ProvisionEnabled(s: Sys, g: nat, p: Provision) {
    if p.Acquire? then g !in s.holders
    else
      && g in s.holders
      && match p
         case Acquire => false
         case ReleaseUnused => s.holders[g].Holding?
         case Reserve(name, _) =>
           s.holders[g].Holding? && CanReserve(s.st, name, s.limits.cap) && name != "" && name !in s.used
         case IssueJIT(_) => s.holders[g].Reserved?
         case JITFails(_) => s.holders[g].Reserved?
         case RecordJIT => s.holders[g].Registered?
         case BeginCreate => s.holders[g].Recorded?
         case CreateSucceeds(_) => s.holders[g].Creating?
         case CreateFails => s.holders[g].Creating?
         case AddIdle => s.holders[g].Created?
         case ReadBack => s.holders[g].Settled?
         case ClearFailed => s.holders[g].Broken?
         case DeleteOwn => s.holders[g].Dooming?
         case Release => s.holders[g].Finished?
  }

  ghost predicate ControlEnabled(s: Sys, c: Control) {
    match c
    case ScaleDown(limit, chosen) => IdleChoice(s.st, limit, chosen)
    case JobCompleted(_) => s.completing.None?
    case CompletionDelete => s.completing.Some?
    case ListCloud(cloud, _) => forall i :: 0 <= i < |cloud| ==> cloud[i].runnerID == 0
    case Reap(name, _, _) => name in s.views
    case _ => true
  }

  ghost predicate WorkEnabled(s: Sys, t: Ticket, w: Work) {
    && t in s.workers
    && match w
       case LookupFails => s.workers[t].pc.Spawned? && s.workers[t].entry.vm.runnerID == 0
       case LookupAbsent => s.workers[t].pc.Spawned? && s.workers[t].entry.vm.runnerID == 0 && t.name !in s.regs
       case LookupFound => s.workers[t].pc.Spawned? && s.workers[t].entry.vm.runnerID == 0 && t.name in s.regs
       case UseRecordedId => s.workers[t].pc.Spawned? && s.workers[t].entry.vm.runnerID != 0
       case RemoveSucceeds =>
         s.workers[t].pc.Removing? && Knows(s.regs, s.workers[t].pc.id) && !KnowsBusy(s.regs, s.workers[t].pc.id)
       case RemoveAbsent => s.workers[t].pc.Removing? && !Knows(s.regs, s.workers[t].pc.id)
       case RemoveMisread => s.workers[t].pc.Removing? && Knows(s.regs, s.workers[t].pc.id)
       case RemoveStillRunning => s.workers[t].pc.Removing? && KnowsBusy(s.regs, s.workers[t].pc.id)
       case RemoveFails(_) => s.workers[t].pc.Removing?
       case Judge => s.workers[t].pc.Judged?
       case CloudDeleteFails => s.workers[t].pc.Deleting?
       case CloudDeleteSucceeds => s.workers[t].pc.Deleting?
       case Conclude(_) => s.workers[t].pc.Gone?
  }

  predicate HubEnabled(s: Sys, h: Hub) {
    match h
    case JobAssigned(name) => name in s.regs && !s.regs[name].busy
    case RunnerLeaves(name) => name in s.regs
  }

  ghost predicate Enabled(s: Sys, a: Action) {
    match a
    case Provisioner(g, p) => ProvisionEnabled(s, g, p)
    case Controller(c) => ControlEnabled(s, c)
    case Deleter(t, w) => WorkEnabled(s, t, w)
    case GitHub(h) => HubEnabled(s, h)
  }

  // ---- what an action does ----

  function DoReserve(s: Sys, g: nat, name: string, now: int): Sys {
    At(s, g, Reserved(name)).(
      st := RunnerState.Reserve(s.st, name, now), owner := s.owner[name := g],
      used := s.used + {name}, mine := s.mine + {name})
  }

  function DoRegister(s: Sys, name: string): Sys {
    s.(regs := s.regs[name := Registration(s.nextId, false)], nextId := s.nextId + 1,
       issued := s.issued[name := s.nextId])
  }

  function DoIssueJIT(s: Sys, g: nat, reported: bool): Sys
    requires g in s.holders && s.holders[g].Reserved?
  {
    var name := s.holders[g].name;
    At(DoRegister(s, name), g, Registered(name, if reported then s.nextId else 0))
  }

  function DoJITFails(s: Sys, g: nat, registered: bool): Sys
    requires g in s.holders && s.holders[g].Reserved?
  {
    var name := s.holders[g].name;
    At(if registered then DoRegister(s, name) else s, g, Broken(name))
  }

  function DoRecordJIT(s: Sys, g: nat): Sys
    requires g in s.holders && s.holders[g].Registered?
  {
    var name, id := s.holders[g].name, s.holders[g].id;
    At(s, g, Recorded(name, id)).(st := RunnerState.RecordJIT(s.st, name, id))
  }

  function DoBeginCreate(s: Sys, g: nat): Sys
    requires g in s.holders && s.holders[g].Recorded?
  {
    var name := s.holders[g].name;
    At(s, g, Creating(name, s.holders[g].id)).(
      fates := s.fates.(created := s.fates.created[name := s.serial]))
  }

  function DoCreateSucceeds(s: Sys, g: nat, now: int): Sys
    requires g in s.holders && s.holders[g].Creating?
  {
    var name := s.holders[g].name;
    At(s, g, Created(name, RunnerVM(name, s.holders[g].id, ResourceName(name), now, Starting)))
  }

  function DoAddIdle(s: Sys, g: nat): Sys
    requires g in s.holders && s.holders[g].Created?
  {
    At(s, g, Settled(s.holders[g].name)).(st := RunnerState.AddIdle(s.st, s.holders[g].vm))
  }

  function DoReadBack(s: Sys, g: nat): Sys
    requires g in s.holders && s.holders[g].Settled?
  {
    var e := Lookup(s.st, s.holders[g].name);
    At(s, g, if e.lifecycle == Lifecycle.Deleting then Dooming(s.holders[g].name, e.reason) else Finished)
  }

  function DoClearFailed(s: Sys, g: nat): Sys
    requires g in s.holders && s.holders[g].Broken?
  {
    var name := s.holders[g].name;
    At(s, g, Dooming(name, Reason.ProvisioningFailed)).(st := ProvisionFailed(s.st, name))
  }

  function DoDeleteOwn(s: Sys, g: nat): Sys
    requires g in s.holders && s.holders[g].Dooming?
  {
    DeleteRunner(At(s, g, Finished), s.holders[g].name, s.holders[g].reason)
  }

  function DoStatistics(s: Sys, count: int): Sys {
    s.(st := ObserveStatistics(s.st, count), ledger := LedgerFresh(s.ledger))
  }

  function DoDesiredCount(s: Sys, count: int): Sys {
    s.(st := UpdateDesired(s.st, count, s.limits.cap),
       ledger := LedgerStale(s.ledger, Max(0, s.st.jobs - Max(0, count))))
  }

  function SpawnAll(s: Sys, chosen: set<string>): map<Ticket, Worker>
    requires chosen <= s.st.runners.Keys
  {
    map n | n in chosen :: Ticket(n, s.serial) := Worker(RunnerState.Doomed(s.st.runners[n]), Spawned)
  }

  function DoScaleDown(s: Sys, chosen: set<string>): Sys
    requires chosen <= s.st.runners.Keys
  {
    s.(st := RunnerState.ScaleDown(s.st, chosen), workers := s.workers + SpawnAll(s, chosen), serial := s.serial + 1,
       flight := s.flight + map n | n in chosen :: s.serial)
  }

  function DoJobCompleted(s: Sys, name: string): Sys {
    if CountsCompletion(s.st, name) then
      s.(st := MarkCompleted(s.st, name), completing := Some(name), counted := s.counted + multiset{name},
         ledger := LedgerCompletion(s.ledger, name, s.st.completedPending < s.st.jobs))
    else s
  }

  function DoCompletionDelete(s: Sys): Sys
    requires s.completing.Some?
  {
    DeleteRunner(s, s.completing.value, JobDone).(completing := None)
  }

  /** Listed under the name of a VM that this runner's Create does not make. */
  function Mislabelled(cloud: seq<RunnerVM>): set<string> {
    set i | 0 <= i < |cloud| && cloud[i].vmName != ResourceName(cloud[i].runnerName) :: cloud[i].runnerName
  }

  function DoListCloud(s: Sys, cloud: seq<RunnerVM>, now: int): Sys {
    var st := ReconcileCloud(s.st, cloud, now);
    s.(st := st, astray := s.astray + Mislabelled(cloud), views := Snapshot(s.st, cloud), expired := s.expired + (s.st.deleted.Keys - st.deleted.Keys))
  }

  function DoReap(s: Sys, name: string, lookup: PowerReading, now: int): Sys
    requires name in s.views
  {
    var r := ReapReason(s.views[name], lookup, now, s.limits.maxAge, s.limits.idleTimeout);
    if r.Some? then DeleteRunner(s, s.views[name].vm.runnerName, r.value) else s
  }

  function DoRemoveSucceeds(s: Sys, t: Ticket): Sys
    requires t in s.workers && s.workers[t].pc.Removing?
  {
    Moves(s, t, Judged(NoError)).(regs := WithoutIdle(s.regs, s.workers[t].pc.id))
  }

  function DoRemoveFails(s: Sys, t: Ticket, removed: bool): Sys
    requires t in s.workers && s.workers[t].pc.Removing?
  {
    Moves(s, t, Judged(OtherError)).(regs := if removed then WithoutIdle(s.regs, s.workers[t].pc.id) else s.regs)
  }

  /** The text of the error mentions "404" or "not found", whatever it means. */
  function DoRemoveMisread(s: Sys, t: Ticket): Sys
    requires t in s.workers
  {
    Moves(s, t, Judged(NoError)).(misread := s.misread + {t})
  }

  function DoJudge(s: Sys, t: Ticket): Sys
    requires t in s.workers && s.workers[t].pc.Judged?
  {
    var w := s.workers[t];
    match VerdictFor(w.entry, w.pc.err)
    case Preserve => Ends(s, t, PreserveBusy(s.st, t.name))
    case GiveUp => Ends(s, t, DeletionFailed(s.st, t.name))
    case Proceed => Moves(s, t, WorkerPc.Deleting(w.pc.err))
  }

  function DoCloudDeleteSucceeds(s: Sys, t: Ticket): Sys
    requires t in s.workers && s.workers[t].pc.Deleting?
  {
    Moves(s, t, Gone(s.workers[t].pc.err)).(
      fates := s.fates.(deletions := s.fates.deletions[t := s.workers[t].entry.vm.vmName]))
  }

  function DoConclude(s: Sys, t: Ticket, now: int): Sys
    requires t in s.workers && s.workers[t].pc.Gone?
  {
    var w := s.workers[t];
    if TreatedAsMissing(w.entry) && w.pc.err != NoError then Ends(s, t, AwaitMissingRegistration(s.st, t.name))
    else Ends(s, t, Remove(s.st, t.name, now)).(
      mine := s.mine - {t.name}, fates := s.fates.(dropped := s.fates.dropped[t.name := t]))
  }

  function AfterProvision(s: Sys, g: nat, p: Provision): Sys
    requires ProvisionEnabled(s, g, p)
  {
    match p
    case Acquire => At(s, g, Holding)
    case ReleaseUnused => Without(s, g)
    case Reserve(name, now) => DoReserve(s, g, name, now)
    case IssueJIT(reported) => DoIssueJIT(s, g, reported)
    case JITFails(registered) => DoJITFails(s, g, registered)
    case RecordJIT => DoRecordJIT(s, g)
    case BeginCreate => DoBeginCreate(s, g)
    case CreateSucceeds(now) => DoCreateSucceeds(s, g, now)
    case CreateFails => At(s, g, Broken(s.holders[g].name))
    case AddIdle => DoAddIdle(s, g)
    case ReadBack => DoReadBack(s, g)
    case ClearFailed => DoClearFailed(s, g)
    case DeleteOwn => DoDeleteOwn(s, g)
    case Release => Without(s, g)
  }

  ghost function AfterControl(s: Sys, c: Control): Sys
    requires ControlEnabled(s, c)
  {
    match c
    case Statistics(count) => DoStatistics(s, count)
    case DesiredCount(count) => DoDesiredCount(s, count)
    case ScaleDown(_, chosen) => DoScaleDown(s, chosen)
    case JobStarted(name) => s.(st := MarkBusy(s.st, name))
    case JobCompleted(name) => DoJobCompleted(s, name)
    case CompletionDelete => DoCompletionDelete(s)
    case ListCloud(cloud, now) => DoListCloud(s, cloud, now)
    case Reap(name, lookup, now) => DoReap(s, name, lookup, now)
  }

  ghost function AfterWork(s: Sys, t: Ticket, w: Work): Sys
    requires WorkEnabled(s, t, w)
  {
    match w
    case LookupFails => Moves(s, t, Judged(OtherError))
    case LookupAbsent => Moves(s, t, Judged(NoError))
    case LookupFound => Moves(s, t, Removing(s.regs[t.name].id))
    case UseRecordedId => Moves(s, t, Removing(s.workers[t].entry.vm.runnerID))
    case RemoveSucceeds => DoRemoveSucceeds(s, t)
    case RemoveAbsent => Moves(s, t, Judged(NoError))
    case RemoveMisread => DoRemoveMisread(s, t)
    case RemoveStillRunning => Moves(s, t, Judged(StillRunning))
    case RemoveFails(removed) => DoRemoveFails(s, t, removed)
    case Judge => DoJudge(s, t)
    case CloudDeleteFails => Ends(s, t, DeletionFailed(s.st, t.name))
    case CloudDeleteSucceeds => DoCloudDeleteSucceeds(s, t)
    case Conclude(now) => DoConclude(s, t, now)
  }

  function AfterHub(s: Sys, h: Hub): Sys
    requires HubEnabled(s, h)
  {
    match h
    case JobAssigned(name) => s.(regs := s.regs[name := s.regs[name].(busy := true)])
    case RunnerLeaves(name) => s.(regs := s.regs - {name})
  }

  ghost function After(s: Sys, a: Action): Sys
    requires Enabled(s, a)
  {
    match a
    case Provisioner(g, p) => AfterProvision(s, g, p)
    case Controller(c) => AfterControl(s, c)
    case Deleter(t, w) => AfterWork(s, t, w)
    case GitHub(h) => AfterHub(s, h)
  }

  // ---- runs ----

  ghost predicate Run(trace: seq<Sys>, actions: seq<Action>) {
    && |trace| == |actions| + 1
    && Init(trace[0])
    && forall i :: 0 <= i < |actions| ==> Enabled(trace[i], actions[i]) && trace[i + 1] == After(trace[i], actions[i])
  }
}

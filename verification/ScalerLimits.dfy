/** Runs that show why the exceptions in `ScalerTheorems` are there. Each lemma
    returns a whole run from an initial state to the state it speaks about. */
module ScalerLimits {
  import opened Common
  import opened ResourceNames
  import opened RunnerState
  import opened Demand
  import opened ScalerProtocol
  import opened ScalerTheorems

  const LIMITS := Limits(0, 43200, 1800)

  /** A controller that starts while GitHub knows the given registrations. */
  function Start(regs: map<string, Registration>, nextId: int): Sys {
    Sys(LIMITS, EmptyState, map[], map[], 0, None, map[], regs, nextId, map[], map[],
        map n | n in regs :: regs[n].id, regs.Keys, {}, Fates(map[], map[], map[]), {}, {}, multiset{}, {}, EmptyLedger)
  }

  /** `s` ends the run. */
  ghost predicate EndsIn(trace: seq<Sys>, actions: seq<Action>, s: Sys) {
    Run(trace, actions) && trace[|trace| - 1] == s
  }

  lemma StartRun(s: Sys) returns (trace: seq<Sys>, actions: seq<Action>)
    requires Init(s)
    ensures EndsIn(trace, actions, s)
  {
    trace, actions := [s], [];
  }

  lemma Then(trace: seq<Sys>, actions: seq<Action>, s: Sys, a: Action) returns (trace': seq<Sys>, actions': seq<Action>)
    requires EndsIn(trace, actions, s) && Enabled(s, a)
    ensures actions' == actions + [a] && EndsIn(trace', actions', After(s, a))
  {
    trace', actions' := trace + [After(s, a)], actions + [a];
    forall i | 0 <= i < |actions'| ensures Enabled(trace'[i], actions'[i]) && trace'[i + 1] == After(trace'[i], actions'[i]) {
      if i < |actions| {
        assert actions'[i] == actions[i] && trace'[i] == trace[i] && trace'[i + 1] == trace[i + 1];
      }
    }
  }

  // ---- a completion and its delete worker ----

  /** Nothing is going on about `n`, and its completion would count. */
  predicate Quiet(s: Sys, n: string) {
    && s.completing.None? && n !in s.st.deleted
    && (n in s.st.runners ==> s.st.runners[n] == FreshEntry(s.st.runners[n].vm, Unknown) && s.st.runners[n].vm.runnerID == 0)
  }

  function VmOf(s: Sys, n: string): RunnerVM {
    if n in s.st.runners then s.st.runners[n].vm else BareVM(n)
  }

  /** After the callback, a worker for `n` has started on that VM. */
  predicate Chasing(s: Sys, s': Sys, n: string) {
    && Ticket(n, s.serial) in s'.workers
    && s'.workers[Ticket(n, s.serial)] ==
         Worker(Entry(VmOf(s, n), Lifecycle.Deleting, false, true, JobDone, true, false), Spawned)
    && s'.regs == s.regs && s'.st.deleted == s.st.deleted && s'.misread == s.misread && s'.completing.None?
    && s'.counted == s.counted + multiset{n} && s'.astray == s.astray
  }

  lemma CompletionStartsWorker(trace: seq<Sys>, actions: seq<Action>, s: Sys, n: string)
      returns (trace': seq<Sys>, actions': seq<Action>, s': Sys)
    requires EndsIn(trace, actions, s) && Quiet(s, n)
    ensures EndsIn(trace', actions', s') && Chasing(s, s', n)
  {
    trace', actions' := Then(trace, actions, s, Controller(JobCompleted(n)));
    var s1 := DoJobCompleted(s, n);
    s' := DoCompletionDelete(s1);
    trace', actions' := Then(trace', actions', s1, Controller(CompletionDelete));
    CompletionChases(s, n);
  }

  function CompletedEntry(s: Sys, n: string): Entry {
    FreshEntry(VmOf(s, n), Unknown).(completed := true)
  }

  lemma CompletionIsMarked(s: Sys, n: string)
    requires Quiet(s, n)
    ensures var s1 := DoJobCompleted(s, n);
      && s1 == s.(st := s1.st, completing := Some(n), counted := s.counted + multiset{n}, ledger := s1.ledger)
      && s1.st.deleted == s.st.deleted && n in s1.st.runners && s1.st.runners[n] == CompletedEntry(s, n)
  {
  }

  lemma MarkedIsChased(s: Sys, n: string, e: Entry)
    requires n !in s.st.deleted && n in s.st.runners && s.st.runners[n] == e && !e.inFlight && !e.provisioning
    ensures var s' := DeleteRunner(s, n, JobDone);
      var e' := e.(lifecycle := Lifecycle.Deleting, reason := JobDone, inFlight := true);
      s' == Spawn(s.(st := Put(s.st, n, e')), n, e')
  {
  }

  lemma CompletionChases(s: Sys, n: string)
    requires Quiet(s, n)
    ensures DoJobCompleted(s, n).completing == Some(n) && Chasing(s, DoCompletionDelete(DoJobCompleted(s, n)), n)
  {
    CompletionIsMarked(s, n);
    MarkedIsChased(DoJobCompleted(s, n), n, CompletedEntry(s, n));
  }

  /** A worker whose runner GitHub does not know goes on to delete the VM. */
  lemma AbsentRunnerIsDeleted(trace: seq<Sys>, actions: seq<Action>, s: Sys, t: Ticket)
      returns (trace': seq<Sys>, actions': seq<Action>, s': Sys)
    requires EndsIn(trace, actions, s) && t in s.workers && t.name !in s.regs
    requires s.workers[t].pc == Spawned && s.workers[t].entry.vm.runnerID == 0
    ensures EndsIn(trace', actions', s')
    ensures s' == s.(workers := s.workers[t := s.workers[t].(pc := WorkerPc.Deleting(NoError))])
  {
    trace', actions' := Then(trace, actions, s, Deleter(t, LookupAbsent));
    var s1 := Moves(s, t, Judged(NoError));
    trace', actions' := Then(trace', actions', s1, Deleter(t, Judge));
    s' := DoJudge(s1, t);
    assert s'.workers == s.workers[t := s.workers[t].(pc := WorkerPc.Deleting(NoError))];
  }

  /** The protection fails: inside the Azure deletion of the VM of `n`, whose job
      is running, without an exempting reason. */
  predicate DeletesBusy(s: Sys, t: Ticket, n: string) {
    && t in s.workers && s.workers[t].pc.Deleting? && s.workers[t].entry.vm.vmName == ResourceName(n)
    && JobRunning(s, n) && !Exempt(s.workers[t].entry)
  }

  /** A listing that gives the VM of a busy runner `b` to another name `a` has that
      VM deleted on behalf of `a`. */
  lemma MislabelledVmIsDeletedBusy(a: string, b: string) returns (trace: seq<Sys>, actions: seq<Action>, t: Ticket)
    requires a != b && ResourceName(a) != ResourceName(b) && b != ""
    ensures Run(trace, actions) && DeletesBusy(trace[|trace| - 1], t, b)
    ensures t.name == a && a in trace[|trace| - 1].astray && t !in trace[|trace| - 1].misread
  {
    var s1, s2, s3;
    trace, actions, s1 := MislabelledListing(a, b);
    trace, actions, s2 := CompletionStartsWorker(trace, actions, s1, a);
    t := Ticket(a, s1.serial);
    trace, actions, s3 := AbsentRunnerIsDeleted(trace, actions, s2, t);
  }

  lemma MislabelledListing(a: string, b: string) returns (trace: seq<Sys>, actions: seq<Action>, s: Sys)
    requires ResourceName(a) != ResourceName(b) && b != ""
    ensures EndsIn(trace, actions, s) && Quiet(s, a) && VmOf(s, a).vmName == ResourceName(b)
    ensures s.regs == map[b := Registration(1, true)] && a in s.astray && s.misread == {}
  {
    var start := Start(map[b := Registration(1, true)], 2);
    StartIsInitial(start.regs, 2);
    trace, actions := StartRun(start);
    var vm := RunnerVM(a, 0, ResourceName(b), 1, Running);
    trace, actions := Then(trace, actions, start, Controller(ListCloud([vm], 0)));
    s := DoListCloud(start, [vm], 0);
    OneListed(start, vm);
  }

  lemma OneListed(s: Sys, vm: RunnerVM)
    requires s.st == EmptyState
    ensures var s' := DoListCloud(s, [vm], 0);
      && s'.st.runners == map[vm.runnerName := FreshEntry(vm, Unknown)] && s'.st.deleted == map[]
      && (vm.vmName != ResourceName(vm.runnerName) ==> vm.runnerName in s'.astray)
  {
    var cloud := [vm];
    assert cloud[..0] == [];
    assert ObserveAll(s.st, cloud) == Observe(s.st, vm);
    assert vm.vmName != ResourceName(vm.runnerName) ==> cloud[0].runnerName in Mislabelled(cloud);
  }

  /** An event for a name that is not in normal form has the VM of the busy runner
      with the normal form deleted. */
  lemma UnshapedNameIsDeletedBusy(a: string, b: string) returns (trace: seq<Sys>, actions: seq<Action>, t: Ticket)
    requires a != b && ResourceName(a) == ResourceName(b) && b != ""
    ensures Run(trace, actions) && DeletesBusy(trace[|trace| - 1], t, b)
    ensures t.name == a && a !in trace[|trace| - 1].astray && t !in trace[|trace| - 1].misread
    ensures !(Shaped(a) && Shaped(b))
  {
    var s := Start(map[b := Registration(1, true)], 2);
    StartIsInitial(s.regs, 2);
    trace, actions := StartRun(s);
    var s2, s3;
    trace, actions, s2 := CompletionStartsWorker(trace, actions, s, a);
    t := Ticket(a, s.serial);
    trace, actions, s3 := AbsentRunnerIsDeleted(trace, actions, s2, t);
    FixedPointsAreTheShapedNames(a);
    FixedPointsAreTheShapedNames(b);
  }

  // ---- an expired tombstone ----

  predicate CountedTwice(s: Sys, n: string) {
    s.counted[n] == 2 && n in s.expired
  }

  /** A completion that is reported again after its tombstone expired counts twice. */
  lemma ExpiredCompletionCountsTwice(n: string) returns (trace: seq<Sys>, actions: seq<Action>)
    ensures Run(trace, actions) && CountedTwice(trace[|trace| - 1], n)
  {
    var s := Start(map[], 1);
    StartIsInitial(map[], 1);
    trace, actions := StartRun(s);
    var s2, s3;
    trace, actions, s2 := CompletionStartsWorker(trace, actions, s, n);
    var t := Ticket(n, s.serial);
    trace, actions, s3 := AbsentRunnerIsDeleted(trace, actions, s2, t);
    trace, actions := Then(trace, actions, s3, Deleter(t, CloudDeleteSucceeds));
    var s4 := DoCloudDeleteSucceeds(s3, t);
    trace, actions := Then(trace, actions, s4, Deleter(t, Conclude(0)));
    var s5 := DoConclude(s4, t, 0);
    trace, actions := Then(trace, actions, s5, Controller(ListCloud([], 3601)));
    var s6 := DoListCloud(s5, [], 3601);
    TombstoneExpires(s4, t);
    trace, actions := Then(trace, actions, s6, Controller(JobCompleted(n)));
    assert DoJobCompleted(s6, n).counted == s6.counted + multiset{n};
  }

  lemma TombstoneExpires(s: Sys, t: Ticket)
    requires t in s.workers && s.workers[t].pc == Gone(NoError) && s.completing.None?
    ensures var s' := DoListCloud(DoConclude(s, t, 0), [], 3601);
      s'.counted == s.counted && t.name in s'.expired && t.name !in s'.st.deleted && t.name !in s'.st.runners && s'.completing.None?
  {
    var s1 := DoConclude(s, t, 0);
    assert s1.st == Remove(s.st, t.name, 0) && s1.counted == s.counted && s1.completing.None?;
    assert ObserveAll(s1.st, []) == s1.st;
  }

  // ---- a provisioned runner ----

  function OwnVm(n: string, now: int): RunnerVM {
    RunnerVM(n, 1, ResourceName(n), now, Starting)
  }

  /** The one runner was created by this process and is idle; demand is one. */
  predicate Provisioned(s: Sys, n: string) {
    && s.st == State(map[n := FreshEntry(OwnVm(n, 1), Idle)], 1, 1, 0, map[])
    && s.workers == map[] && s.regs == map[n := Registration(1, false)] && s.limits == LIMITS && s.completing.None?
    && s.fates == Fates(map[n := 0], map[], map[]) && s.serial == 0 && s.astray == {} && s.misread == {}
  }

  function Demanding(): Sys {
    Start(map[], 1).(st := State(map[], 1, 1, 0, map[]))
  }

  lemma FirstDemand(s: Sys)
    requires s.st == EmptyState && s.ledger == EmptyLedger && s.limits.cap == 0
    ensures DoDesiredCount(s, 1) == s.(st := State(map[], 1, 1, 0, map[]))
  {
    assert LedgerStale(EmptyLedger, 0) == EmptyLedger;
  }

  lemma StartIsInitial(regs: map<string, Registration>, nextId: int)
    requires nextId > 0 && "" !in regs && forall n :: n in regs ==> 0 < regs[n].id < nextId
    ensures Init(Start(regs, nextId))
  {
  }

  lemma DemandFirst() returns (trace: seq<Sys>, actions: seq<Action>)
    ensures EndsIn(trace, actions, Demanding())
  {
    var s := Start(map[], 1);
    StartIsInitial(map[], 1);
    trace, actions := StartRun(s);
    FirstDemand(s);
    trace, actions := Then(trace, actions, s, Controller(DesiredCount(1)));
  }

  lemma AcquireFirst() returns (trace: seq<Sys>, actions: seq<Action>)
    ensures EndsIn(trace, actions, At(Demanding(), 0, Holding))
  {
    trace, actions := DemandFirst();
    trace, actions := Then(trace, actions, Demanding(), Provisioner(0, Acquire));
  }

  lemma DemandAdmits(n: string)
    ensures CanReserve(Demanding().st, n, LIMITS.cap)
  {
    assert ActiveNames(Demanding().st) == {};
  }

  lemma ReserveFirst(n: string) returns (trace: seq<Sys>, actions: seq<Action>)
    requires n != ""
    ensures EndsIn(trace, actions, DoReserve(At(Demanding(), 0, Holding), 0, n, 1))
  {
    trace, actions := AcquireFirst();
    DemandAdmits(n);
    var s := At(Demanding(), 0, Holding);
    trace, actions := Then(trace, actions, s, Provisioner(0, Provision.Reserve(n, 1)));
  }

  lemma RegisterFirst(n: string) returns (trace: seq<Sys>, actions: seq<Action>, s: Sys)
    requires n != ""
    ensures EndsIn(trace, actions, s) && s.holders == map[0 := Recorded(n, 1)]
    ensures s.st == State(map[n := ReservedEntry(n, 1).(vm := BareVM(n).(createdAt := 1, runnerID := 1))], 1, 1, 0, map[])
    ensures s.workers == map[] && s.regs == map[n := Registration(1, false)] && s.limits == LIMITS && s.completing.None?
    ensures s.fates == Fates(map[], map[], map[]) && s.serial == 0 && s.astray == {} && s.misread == {}
  {
    trace, actions := ReserveFirst(n);
    var s0 := DoReserve(At(Demanding(), 0, Holding), 0, n, 1);
    trace, actions := Then(trace, actions, s0, Provisioner(0, IssueJIT(true)));
    var s1 := DoIssueJIT(s0, 0, true);
    trace, actions := Then(trace, actions, s1, Provisioner(0, Provision.RecordJIT));
    s := DoRecordJIT(s1, 0);
  }

  lemma ProvisionFirst(n: string) returns (trace: seq<Sys>, actions: seq<Action>, s: Sys)
    requires n != ""
    ensures EndsIn(trace, actions, s) && Provisioned(s, n)
  {
    var s0;
    trace, actions, s0 := RegisterFirst(n);
    trace, actions := Then(trace, actions, s0, Provisioner(0, BeginCreate));
    var s1 := DoBeginCreate(s0, 0);
    trace, actions := Then(trace, actions, s1, Provisioner(0, CreateSucceeds(1)));
    var s2 := DoCreateSucceeds(s1, 0, 1);
    trace, actions := Then(trace, actions, s2, Provisioner(0, Provision.AddIdle));
    s := DoAddIdle(s2, 0);
    assert s.st.runners == map[n := FreshEntry(OwnVm(n, 1), Idle)];
  }

  /** A removal that GitHub refuses because the job is running, in words that read
      like "not found", has the busy runner's VM deleted because demand fell. */
  lemma MisreadRefusalDeletesBusy(n: string) returns (trace: seq<Sys>, actions: seq<Action>, t: Ticket)
    requires n != ""
    ensures Run(trace, actions) && DeletesBusy(trace[|trace| - 1], t, n)
    ensures t.name == n && t in trace[|trace| - 1].misread && n !in trace[|trace| - 1].astray
    ensures trace[|trace| - 1].workers[t].entry.reason == DemandDecreased
  {
    var s3;
    trace, actions, s3 := TrimmedWhileBusy(n);
    t := Ticket(n, 0);
    trace, actions := Then(trace, actions, s3, Deleter(t, UseRecordedId));
    var s4 := Moves(s3, t, Removing(1));
    assert s4.regs[n].id == 1;
    trace, actions := Then(trace, actions, s4, Deleter(t, RemoveMisread));
    var s5 := DoRemoveMisread(s4, t);
    trace, actions := Then(trace, actions, s5, Deleter(t, Judge));
  }

  lemma BusyWhenDemandFalls(n: string) returns (trace: seq<Sys>, actions: seq<Action>, s: Sys)
    requires n != ""
    ensures EndsIn(trace, actions, s)
    ensures s.st == State(map[n := FreshEntry(OwnVm(n, 1), Idle)], 0, 0, 0, map[]) && s.workers == map[] && s.serial == 0
    ensures s.regs == map[n := Registration(1, true)] && s.astray == {} && s.misread == {}
  {
    var s0;
    trace, actions, s0 := ProvisionFirst(n);
    trace, actions := Then(trace, actions, s0, GitHub(JobAssigned(n)));
    var s1 := s0.(regs := s0.regs[n := s0.regs[n].(busy := true)]);
    trace, actions := Then(trace, actions, s1, Controller(DesiredCount(0)));
    s := DoDesiredCount(s1, 0);
  }

  lemma TrimmedWhileBusy(n: string) returns (trace: seq<Sys>, actions: seq<Action>, s: Sys)
    requires n != ""
    ensures EndsIn(trace, actions, s)
    ensures s.workers == map[Ticket(n, 0) := Worker(RunnerState.Doomed(FreshEntry(OwnVm(n, 1), Idle)), Spawned)]
    ensures s.regs == map[n := Registration(1, true)] && s.astray == {} && s.misread == {}
  {
    var s0;
    trace, actions, s0 := BusyWhenDemandFalls(n);
    IdleIsChosen(s0.st, n);
    assert ControlEnabled(s0, Control.ScaleDown(1, {n}));
    trace, actions := Then(trace, actions, s0, Controller(Control.ScaleDown(1, {n})));
    s := DoScaleDown(s0, {n});
    OneIsDoomed(s0, n, FreshEntry(OwnVm(n, 1), Idle));
  }

  lemma OneIsDoomed(s: Sys, n: string, e: Entry)
    requires s.st.runners == map[n := e] && s.workers == map[] && s.serial == 0
    ensures var s' := DoScaleDown(s, {n});
      && s'.workers == map[Ticket(n, 0) := Worker(RunnerState.Doomed(e), Spawned)]
      && s'.regs == s.regs && s'.astray == s.astray && s'.misread == s.misread
  {
    assert SpawnAll(s, {n}) == map[Ticket(n, 0) := Worker(RunnerState.Doomed(e), Spawned)];
  }

  lemma IdleIsChosen(s: State, n: string)
    requires s.runners.Keys == {n} && s.runners[n].lifecycle == Idle && !s.runners[n].provisioning && s.desired == 0
    ensures IdleChoice(s, 1, {n})
  {
    assert SettledIdle(s) == {n} == ActiveNames(s);
  }

  /** A runner that a listing gave a foreign VM is forgotten while its own VM has
      never been deleted. */
  lemma MislabelledRunnerLeaks(n: string, v: string) returns (trace: seq<Sys>, actions: seq<Action>)
    requires n != "" && v != ResourceName(n)
    ensures Run(trace, actions)
    ensures var s := trace[|trace| - 1];
      n in s.fates.created && n in s.astray && n !in s.st.runners && !VmDeletedSinceCreate(s, n)
  {
    var s5;
    trace, actions, s5 := ChasesForeignVm(n, v);
    var t := Ticket(n, 0);
    trace, actions := Then(trace, actions, s5, Deleter(t, CloudDeleteSucceeds));
    var s6 := DoCloudDeleteSucceeds(s5, t);
    trace, actions := Then(trace, actions, s6, Deleter(t, Conclude(3)));
    assert DoConclude(s6, t, 3).fates.deletions == map[t := v];
  }

  lemma ChasesForeignVm(n: string, v: string) returns (trace: seq<Sys>, actions: seq<Action>, s: Sys)
    requires n != "" && v != ResourceName(n)
    ensures EndsIn(trace, actions, s) && Ticket(n, 0) in s.workers
    ensures var w := s.workers[Ticket(n, 0)]; w.pc == WorkerPc.Deleting(NoError) && w.entry.vm.vmName == v
    ensures s.fates == Fates(map[n := 0], map[], map[]) && n in s.astray
  {
    var s2;
    trace, actions, s2 := TimedOutAstray(n, v);
    var t := Ticket(n, 0);
    trace, actions := Then(trace, actions, s2, Deleter(t, UseRecordedId));
    var s3 := Moves(s2, t, Removing(1));
    assert s3.regs[n].id == 1;
    trace, actions := Then(trace, actions, s3, Deleter(t, RemoveSucceeds));
    var s4 := DoRemoveSucceeds(s3, t);
    trace, actions := Then(trace, actions, s4, Deleter(t, Judge));
    s := DoJudge(s4, t);
  }

  lemma TimedOutAstray(n: string, v: string) returns (trace: seq<Sys>, actions: seq<Action>, s: Sys)
    requires n != "" && v != ResourceName(n)
    ensures EndsIn(trace, actions, s) && Ticket(n, 0) in s.workers && s.regs == map[n := Registration(1, false)]
    ensures var w := s.workers[Ticket(n, 0)]; w.pc == Spawned && w.entry.vm.vmName == v && w.entry.vm.runnerID == 1
    ensures s.fates == Fates(map[n := 0], map[], map[]) && n in s.astray
  {
    var s0;
    trace, actions, s0 := ProvisionFirst(n);
    var vm := RunnerVM(n, 0, v, 1, Running);
    trace, actions := Then(trace, actions, s0, Controller(ListCloud([vm], 2)));
    var s1 := DoListCloud(s0, [vm], 2);
    OneRelisted(s0, n, vm);
    trace, actions, s := IdleTimesOut(trace, actions, s1, n);
  }

  lemma OneRelisted(s: Sys, n: string, vm: RunnerVM)
    requires Provisioned(s, n) && vm.runnerName == n && vm.vmName != ResourceName(n) && vm.power == Running
    ensures var s' := DoListCloud(s, [vm], 2);
      var e := FreshEntry(vm.(runnerID := 1), Idle);
      && s'.st == s.st.(runners := map[n := e]) && s'.views == map[n := e] && n in s'.astray
      && s'.workers == map[] && s'.regs == s.regs && s'.fates == s.fates && s'.serial == 0 && s'.limits == LIMITS
  {
    var cloud := [vm];
    assert cloud[..0] == [];
    assert ObserveAll(s.st, cloud) == Observe(s.st, vm);
    assert cloud[0].runnerName in Mislabelled(cloud) && n in Seen(cloud);
    assert Observe(s.st, vm).runners == map[n := FreshEntry(vm.(runnerID := 1), Idle)];
    assert ReconcileCloud(s.st, cloud, 2).deleted == map[];
  }

  lemma IdleTimesOut(trace: seq<Sys>, actions: seq<Action>, s: Sys, n: string)
      returns (trace': seq<Sys>, actions': seq<Action>, s': Sys)
    requires EndsIn(trace, actions, s) && n in s.views && n in s.st.runners && s.views[n] == s.st.runners[n] && s.serial == 0
    requires s.st.deleted == map[] && s.workers == map[] && s.limits == LIMITS
    requires var e := s.st.runners[n]; e == FreshEntry(e.vm, Idle) && e.vm.createdAt == 1 && e.vm.power == Running && e.vm.runnerName == n
    ensures EndsIn(trace', actions', s')
    ensures s'.workers == map[Ticket(n, 0) := Worker(s.st.runners[n].(lifecycle := Lifecycle.Deleting, reason := IdleTimeout, inFlight := true), Spawned)]
    ensures s'.regs == s.regs && s'.fates == s.fates && s'.astray == s.astray
  {
    var now := 2000;
    trace', actions' := Then(trace, actions, s, Controller(Reap(n, Unreadable, now)));
    s' := DoReap(s, n, Unreadable, now);
    assert s' == DeleteRunner(s, n, IdleTimeout);
  }
}

/** What holds in every run of the scaler, for every interleaving of its
    goroutines with GitHub, Azure listings, job events and each other. */
module ScalerTheorems {
  import opened Common
  import opened ResourceNames
  import opened RunnerState
  import opened Demand
  import opened ScalerProtocol
  import opened ScalerInvariant

  function WorkersOn(s: Sys, n: string): set<Ticket> {
    set t | t in s.workers && t.name == n
  }

  predicate InFlight(s: Sys, n: string) {
    n in s.st.runners && s.st.runners[n].inFlight
  }

  /** A name has one live delete worker exactly while its entry is marked in
      flight, and none otherwise; such an entry is deleting and is not being
      created, so a worker never overlaps that name's Create. */
  lemma SingleFlightDeletion(trace: seq<Sys>, actions: seq<Action>, i: nat, n: string)
    requires Run(trace, actions) && i < |trace|
    ensures var s := trace[i];
      && |WorkersOn(s, n)| == (if InFlight(s, n) then 1 else 0)
      && (InFlight(s, n) ==> s.st.runners[n].lifecycle == Lifecycle.Deleting && !s.st.runners[n].provisioning)
      && (forall g :: g in s.holders && Owning(s.holders[g]) && s.holders[g].name == n ==> WorkersOn(s, n) == {})
  {
    RunKeepsInv(trace, actions, i);
    OneWorkerIffInFlight(trace[i], n);
  }

  lemma OneWorkerIffInFlight(s: Sys, n: string)
    requires Flights(s.st.runners, s.workers, s.serial, s.flight) && Owners(s.st.runners, s.holders, s.owner)
    ensures |WorkersOn(s, n)| == (if InFlight(s, n) then 1 else 0)
    ensures InFlight(s, n) ==> s.st.runners[n].lifecycle == Lifecycle.Deleting && !s.st.runners[n].provisioning
    ensures forall g :: g in s.holders && Owning(s.holders[g]) && s.holders[g].name == n ==> WorkersOn(s, n) == {}
  {
    if InFlight(s, n) {
      assert WorkersOn(s, n) == {Ticket(n, s.flight[n])};
    } else {
      assert WorkersOn(s, n) == {};
    }
  }

  /** Tracked and tombstoned names never meet, although four writers do not look. */
  lemma NoResurrection(trace: seq<Sys>, actions: seq<Action>, i: nat)
    requires Run(trace, actions) && i < |trace|
    ensures trace[i].st.runners.Keys !! trace[i].st.deleted.Keys
  {
    RunKeepsInv(trace, actions, i);
  }

  predicate JobRunning(s: Sys, n: string) {
    n in s.regs && s.regs[n].busy
  }

  /** A worker inside the Azure deletion of the VM of a runner whose job is running
      was told its own VM is missing or stopped, or that the hard lifetime is over.
      It does not matter when the job started. Excepted are workers that misread a
      failed removal, names that a listing gave a foreign VM, and names that are
      not in normal form: the lemmas of `ScalerLimits` show a run for each. */
  lemma BusyRunnersAreProtected(trace: seq<Sys>, actions: seq<Action>, i: nat, t: Ticket, n: string)
    requires Run(trace, actions) && i < |trace|
    requires t in trace[i].workers && trace[i].workers[t].pc.Deleting?
    requires trace[i].workers[t].entry.vm.vmName == ResourceName(n) && JobRunning(trace[i], n)
    requires t !in trace[i].misread && t.name !in trace[i].astray
    ensures Exempt(trace[i].workers[t].entry) || (t.name != n && ResourceName(t.name) == ResourceName(n))
    ensures Shaped(t.name) && Shaped(n) ==> t.name == n && Exempt(trace[i].workers[t].entry)
  {
    RunKeepsInv(trace, actions, i);
    GuardFacts(trace[i], t);
    TargetFacts(trace[i], t);
    FixedPointsAreTheShapedNames(n);
    FixedPointsAreTheShapedNames(t.name);
  }

  lemma TargetFacts(s: Sys, t: Ticket)
    requires WorkerTargets(s.workers, s.fates.deletions, s.astray) && t.name !in s.astray
    ensures t in s.workers ==> s.workers[t].entry.vm.vmName == ResourceName(t.name)
    ensures t in s.fates.deletions ==> s.fates.deletions[t] == ResourceName(t.name)
  {
  }

  /** Azure has deleted the VM that the Create of `n` makes, for a worker that was
      started after this Create. */
  ghost predicate VmDeletedSinceCreate(s: Sys, n: string) {
    exists t :: t in s.fates.deletions && t.name == n && s.fates.deletions[t] == ResourceName(n)
      && n in s.fates.created && t.serial >= s.fates.created[n]
  }

  /** A runner whose creation was started, whatever came of it, stays tracked until
      its VM has been deleted since. */
  lemma NoLeakedCapacity(trace: seq<Sys>, actions: seq<Action>, i: nat, n: string)
    requires Run(trace, actions) && i < |trace|
    requires n in trace[i].fates.created && n !in trace[i].astray
    ensures n in trace[i].st.runners || VmDeletedSinceCreate(trace[i], n)
  {
    RunKeepsInv(trace, actions, i);
    TrackedOrDisposed(trace[i], n);
  }

  lemma TrackedOrDisposed(s: Sys, n: string)
    requires Tracked(s.st.runners.Keys, s.workers, s.serial, s.fates) && n in s.fates.created && n !in s.astray
    requires WorkerTargets(s.workers, s.fates.deletions, s.astray)
    ensures n in s.st.runners || VmDeletedSinceCreate(s, n)
  {
    if n !in s.st.runners {
      TargetFacts(s, s.fates.dropped[n]);
    }
  }

  // ---- what single steps of a run may do ----

  /** The entry survives; a lost assignment stays lost, a completion completed. */
  predicate Remembers(r: map<string, Entry>, r': map<string, Entry>, n: string) {
    n in r ==> n in r' && (r[n].missing ==> r'[n].missing) && (r[n].completed ==> r'[n].completed)
  }

  lemma EndingRemembers(s: State, name: string, n: string)
    ensures Remembers(s.runners, DeletionFailed(s, name).runners, n)
    ensures Remembers(s.runners, PreserveBusy(s, name).runners, n)
  {
  }

  lemma AwaitingRemembers(s: State, name: string, n: string)
    ensures Remembers(s.runners, AwaitMissingRegistration(s, name).runners, n)
  {
  }

  lemma EventsRemember(s: State, name: string, n: string)
    ensures Remembers(s.runners, MarkBusy(s, name).runners, n)
    ensures Remembers(s.runners, MarkCompleted(s, name).runners, n)
  {
  }

  lemma MarkRemembers(s: State, name: string, reason: Reason, n: string)
    ensures Remembers(s.runners, MarkDeleting(s, name, reason).state.runners, n)
  {
  }

  lemma DeleteRunnerRemembers(s: Sys, name: string, reason: Reason, n: string)
    ensures Remembers(s.st.runners, DeleteRunner(s, name, reason).st.runners, n)
  {
    MarkRemembers(s.st, name, reason, n);
    assert DeleteRunner(s, name, reason).st == MarkDeleting(s.st, name, reason).state;
  }

  lemma ProvisionRemembers(s: Sys, g: nat, p: Provision, n: string)
    requires ProvisionEnabled(s, g, p)
    ensures Remembers(s.st.runners, AfterProvision(s, g, p).st.runners, n)
  {
    if p.DeleteOwn? {
      DeleteRunnerRemembers(At(s, g, Finished), s.holders[g].name, s.holders[g].reason, n);
    }
  }

  lemma ReapRemembers(s: Sys, name: string, lookup: PowerReading, now: int, n: string)
    requires name in s.views
    ensures Remembers(s.st.runners, DoReap(s, name, lookup, now).st.runners, n)
  {
    var r := ReapReason(s.views[name], lookup, now, s.limits.maxAge, s.limits.idleTimeout);
    if r.Some? {
      DeleteRunnerRemembers(s, s.views[name].vm.runnerName, r.value, n);
    }
  }

  lemma ListCloudRemembers(s: Sys, cloud: seq<RunnerVM>, now: int, n: string)
    ensures Remembers(s.st.runners, DoListCloud(s, cloud, now).st.runners, n)
  {
    ObserveAllShape(s.st, cloud);
  }

  lemma ScaleDownRemembers(s: State, chosen: set<string>, n: string)
    ensures Remembers(s.runners, RunnerState.ScaleDown(s, chosen).runners, n)
  {
  }

  lemma ControlRemembers(s: Sys, c: Control, n: string)
    requires ControlEnabled(s, c)
    ensures Remembers(s.st.runners, AfterControl(s, c).st.runners, n)
  {
    match c
    case Statistics(_) =>
    case DesiredCount(_) =>
    case ScaleDown(_, chosen) => ScaleDownRemembers(s.st, chosen, n);
    case JobStarted(name) => EventsRemember(s.st, name, n);
    case JobCompleted(name) => EventsRemember(s.st, name, n);
    case ListCloud(cloud, now) => ListCloudRemembers(s, cloud, now, n);
    case CompletionDelete => DeleteRunnerRemembers(s, s.completing.value, JobDone, n);
    case Reap(name, lookup, now) => ReapRemembers(s, name, lookup, now, n);
  }

  /** The one action that stops tracking a runner. */
  predicate Drops(s: Sys, a: Action, n: string) {
    && a.Deleter? && a.work.Conclude? && a.t in s.workers && s.workers[a.t].pc.Gone? && a.t.name == n
    && !(TreatedAsMissing(s.workers[a.t].entry) && s.workers[a.t].pc.err != NoError)
  }

  lemma JudgeRemembers(s: Sys, t: Ticket, n: string)
    requires t in s.workers && s.workers[t].pc.Judged?
    ensures Remembers(s.st.runners, DoJudge(s, t).st.runners, n)
  {
    EndingRemembers(s.st, t.name, n);
    match VerdictFor(s.workers[t].entry, s.workers[t].pc.err)
    case Preserve =>
    case GiveUp =>
    case Proceed => assert DoJudge(s, t).st == s.st;
  }

  lemma ConcludeRemembers(s: Sys, t: Ticket, now: int, n: string)
    requires t in s.workers && s.workers[t].pc.Gone? && n in s.st.runners
    ensures var r := DoConclude(s, t, now).st.runners;
      if Drops(s, Deleter(t, Conclude(now)), n) then n !in r else Remembers(s.st.runners, r, n)
  {
    AwaitingRemembers(s.st, t.name, n);
    if TreatedAsMissing(s.workers[t].entry) && s.workers[t].pc.err != NoError {
      assert DoConclude(s, t, now).st == AwaitMissingRegistration(s.st, t.name);
    } else {
      assert DoConclude(s, t, now).st.runners == s.st.runners - {t.name};
    }
  }

  lemma WorkRemembers(s: Sys, t: Ticket, w: Work, n: string)
    requires WorkEnabled(s, t, w) && n in s.st.runners
    ensures var r := AfterWork(s, t, w).st.runners;
      if Drops(s, Deleter(t, w), n) then n !in r else Remembers(s.st.runners, r, n)
  {
    match w
    case Judge => JudgeRemembers(s, t, n);
    case Conclude(now) => ConcludeRemembers(s, t, now, n);
    case _ =>
  }

  lemma StepRemembers(s: Sys, a: Action, n: string)
    requires Enabled(s, a) && n in s.st.runners
    ensures var r := After(s, a).st.runners;
      if Drops(s, a, n) then n !in r else Remembers(s.st.runners, r, n)
  {
    match a
    case Provisioner(g, p) => ProvisionRemembers(s, g, p, n);
    case Controller(c) => ControlRemembers(s, c, n);
    case Deleter(t, w) => WorkRemembers(s, t, w, n);
    case GitHub(h) =>
  }

  /** Tracking ends in exactly one way: a worker concludes after its Azure
      deletion returned success. No snapshot, event or failed deletion does it. */
  lemma TrackingEndsOnlyAfterAzureDeletion(trace: seq<Sys>, actions: seq<Action>, i: nat, n: string)
    requires Run(trace, actions) && i < |actions| && n in trace[i].st.runners
    ensures n !in trace[i + 1].st.runners <==> Drops(trace[i], actions[i], n)
    ensures n !in trace[i + 1].st.runners ==> n in trace[i + 1].st.deleted && VmDeletedBy(trace[i], actions[i].t)
  {
    RunKeepsInv(trace, actions, i);
    StepRemembers(trace[i], actions[i], n);
    if Drops(trace[i], actions[i], n) {
      DeletionFacts(trace[i], actions[i].t);
    }
  }

  /** The worker's Azure deletion succeeded; it was aimed at the VM of its entry,
      which is the runner's own unless a listing said otherwise. */
  predicate VmDeletedBy(s: Sys, t: Ticket) {
    && t in s.workers && t in s.fates.deletions
    && s.fates.deletions[t] == s.workers[t].entry.vm.vmName
    && (t.name !in s.astray ==> s.fates.deletions[t] == ResourceName(t.name))
    && (t.name in s.fates.created ==> t.serial >= s.fates.created[t.name])
  }

  lemma DeletionFacts(s: Sys, t: Ticket)
    requires Tracked(s.st.runners.Keys, s.workers, s.serial, s.fates) && t in s.workers && s.workers[t].pc.Gone?
    requires WorkerTargets(s.workers, s.fates.deletions, s.astray)
    ensures VmDeletedBy(s, t)
  {
  }

  lemma VerdictsAreExact(e: Entry, err: RegError)
    ensures VerdictFor(e, err) == Proceed <==> err == NoError || Exempt(e)
    ensures VerdictFor(e, err) == Preserve <==> err == StillRunning && !Exempt(e)
    ensures Exempt(e) <==> e.missing || e.reason == VMMissing || e.reason == HardLifetime || e.reason == VMStopped
  {
  }

  /** A worker goes on to Azure exactly when GitHub let go of the runner or its
      reason exempts it. A busy answer hands any other runner back, busy, or still
      deleting if it completed meanwhile; any other failure only ends the flight. */
  lemma JudgementIsExact(trace: seq<Sys>, actions: seq<Action>, i: nat, t: Ticket)
    requires Run(trace, actions) && i < |actions| && actions[i] == Deleter(t, Judge)
    ensures t in trace[i].workers && trace[i].workers[t].pc.Judged? && t.name in trace[i].st.runners
    ensures JudgedAs(trace[i], trace[i + 1], t, trace[i].workers[t])
  {
    RunKeepsInv(trace, actions, i);
    WorkerFacts(trace[i], t);
    JudgedStates(trace[i], t);
  }

  predicate JudgedAs(s: Sys, s': Sys, t: Ticket, w: Worker) {
    && t.name in s.st.runners && t.name in s'.st.runners && w.pc.Judged?
    && (t in s'.workers <==> w.pc.err == NoError || Exempt(w.entry))
    && var e, e' := s.st.runners[t.name], s'.st.runners[t.name];
       if t in s'.workers then e' == e && s'.workers[t].pc == WorkerPc.Deleting(w.pc.err)
       else if w.pc.err != StillRunning then e' == e.(inFlight := false)
       else if e.completed then e' == e.(inFlight := false, reason := JobDone, lifecycle := Lifecycle.Deleting)
       else e' == e.(inFlight := false, reason := NoReason, lifecycle := Busy)
  }

  lemma JudgedStates(s: Sys, t: Ticket)
    requires t in s.workers && s.workers[t].pc.Judged? && t.name in s.st.runners
    ensures JudgedAs(s, DoJudge(s, t), t, s.workers[t])
  {
    VerdictsAreExact(s.workers[t].entry, s.workers[t].pc.err);
    assert t !in s.workers - {t};
  }

  /** A lost assignment counts as active in every state of every run, and stops
      doing so only in the step of a worker in which the GitHub deregistration
      and the Azure deletion both succeeded. */
  lemma LostAssignmentsHoldTheirPlace(trace: seq<Sys>, actions: seq<Action>, i: nat, n: string)
    requires Run(trace, actions) && i < |actions|
    requires n in trace[i].st.runners && trace[i].st.runners[n].missing
    ensures n in ActiveNames(trace[i].st)
    ensures n in ActiveNames(trace[i + 1].st) || LetGo(trace[i], actions[i], n)
  {
    RunKeepsInv(trace, actions, i);
    StepRemembers(trace[i], actions[i], n);
    if Drops(trace[i], actions[i], n) {
      DeletionFacts(trace[i], actions[i].t);
      GuardFacts(trace[i], actions[i].t);
      MissingIsKnown(trace[i], actions[i].t);
    }
  }

  predicate LetGo(s: Sys, a: Action, n: string) {
    && a.Deleter? && a.t.name == n && VmDeletedBy(s, a.t) && s.workers[a.t].pc == Gone(NoError)
    && (a.t !in s.misread ==> n !in s.regs)
  }

  lemma MissingIsKnown(s: Sys, t: Ticket)
    requires Losses(s.st.runners, s.workers) && t in s.workers && t.name in s.st.runners && s.st.runners[t.name].missing
    ensures s.workers[t].entry.missing
  {
  }

  /** A completed runner is being deleted, or its callback is about to ask for
      it; the completion is never undone while the runner is tracked. */
  lemma CompletionIsSticky(trace: seq<Sys>, actions: seq<Action>, i: nat, n: string)
    requires Run(trace, actions) && i < |actions|
    requires n in trace[i].st.runners && trace[i].st.runners[n].completed
    ensures trace[i].st.runners[n].lifecycle == Lifecycle.Deleting || trace[i].completing == Some(n)
    ensures n in trace[i + 1].st.runners ==> trace[i + 1].st.runners[n].completed
  {
    RunKeepsInv(trace, actions, i);
    StepRemembers(trace[i], actions[i], n);
  }

  /** The pending correction is a queue of distinct completions: every counted
      completion is in exactly one place of the ledger, once, unless the name's
      tombstone expired in between. */
  lemma CompletionsCountOnce(trace: seq<Sys>, actions: seq<Action>, i: nat, n: string)
    requires Run(trace, actions) && i < |trace|
    ensures var s := trace[i];
      && 0 <= s.st.completedPending == |s.ledger.pending| <= s.st.jobs
      && Entries(s.ledger) == s.counted
      && (n !in s.expired ==> Entries(s.ledger)[n] <= 1)
  {
    RunKeepsInv(trace, actions, i);
  }

  /** A completion callback enters the ledger exactly when its name has no
      tombstone and no completed entry. A name that was counted before gets past
      this guard only after its tombstone expired. */
  lemma CompletionsEnterTheLedgerIff(trace: seq<Sys>, actions: seq<Action>, i: nat, n: string)
    requires Run(trace, actions) && i < |actions| && actions[i] == Controller(JobCompleted(n))
    ensures var added := if CountsCompletion(trace[i].st, n) then multiset{n} else multiset{};
      && trace[i + 1].counted == trace[i].counted + added
      && Entries(trace[i + 1].ledger) == Entries(trace[i].ledger) + added
    ensures n in trace[i].counted && CountsCompletion(trace[i].st, n) ==> n in trace[i].expired
    ensures !CountsCompletion(trace[i + 1].st, n)
  {
    RunKeepsInv(trace, actions, i);
    CompletionClosedForm(trace[i].st, n);
    if CountsCompletion(trace[i].st, n) {
      CompletionAgrees(trace[i].st, trace[i].ledger, n);
    }
    CountedTwiceNeedsExpiry(trace[i], n);
  }

  lemma CountedTwiceNeedsExpiry(s: Sys, n: string)
    requires Counted(s.st.runners, s.st.deleted.Keys, s.counted, s.expired)
    ensures n in s.counted && CountsCompletion(s.st, n) ==> n in s.expired
  {
  }

  /** The runners this process reserved and never dropped stay within the cap. */
  lemma ReservationsRespectTheCap(trace: seq<Sys>, actions: seq<Action>, i: nat)
    requires Run(trace, actions) && i < |trace|
    ensures trace[i].mine <= trace[i].st.runners.Keys
    ensures trace[i].limits.cap > 0 ==> |trace[i].mine| <= trace[i].limits.cap
  {
    RunKeepsInv(trace, actions, i);
  }

  /** Reserving never exceeds demand and scaling down never undercuts it, in any
      state of any run and for any excess the caller computed earlier. */
  lemma CapacityFollowsDemand(trace: seq<Sys>, actions: seq<Action>, i: nat)
    requires Run(trace, actions) && i < |actions|
    ensures actions[i].Provisioner? && actions[i].provision.Reserve? ==>
      Active(trace[i].st) + 1 == Active(trace[i + 1].st) <= trace[i + 1].st.desired
    ensures actions[i].Controller? && actions[i].control.ScaleDown? ==>
      && Active(trace[i + 1].st) >= Min(Active(trace[i].st), trace[i].st.desired)
      && forall n :: n in trace[i].st.runners && n !in SettledIdle(trace[i].st) ==>
           n in trace[i + 1].st.runners && trace[i + 1].st.runners[n] == trace[i].st.runners[n]
  {
    var s := trace[i];
    if actions[i].Provisioner? && actions[i].provision.Reserve? {
      ReserveStaysWithinDemand(s.st, actions[i].provision.name, s.limits.cap, actions[i].provision.now);
    }
    if actions[i].Controller? && actions[i].control.ScaleDown? {
      ScaleDownKeepsDemandCovered(s.st, actions[i].control.limit, actions[i].control.chosen);
    }
  }

  /** A scale-down takes as many settled idle runners as its limit and the excess
      over demand allow; with enough of both exactly the demand stays active. */
  lemma ScaleDownsReachDemand(trace: seq<Sys>, actions: seq<Action>, i: nat)
    requires Run(trace, actions) && i < |actions| && actions[i].Controller? && actions[i].control.ScaleDown?
    ensures var s, c := trace[i].st, actions[i].control;
      var excess := Active(s) - s.desired;
      && |c.chosen| == Min(Min(c.limit, Max(0, excess)), |SettledIdle(s)|)
      && Active(trace[i + 1].st) == Active(s) - |c.chosen|
      && (0 <= excess <= c.limit && excess <= |SettledIdle(s)| ==> Active(trace[i + 1].st) == s.desired)
  {
    RunKeepsInv(trace, actions, i);
    IdleIsNotMissing(trace[i]);
    ScaleDownReachesDemand(trace[i].st, actions[i].control.limit, actions[i].control.chosen);
  }

  lemma IdleIsNotMissing(s: Sys)
    requires Losses(s.st.runners, s.workers)
    ensures forall n :: n in SettledIdle(s.st) ==> !s.st.runners[n].missing
  {
  }

  /** In every run a statistics message sets the corrected demand to its count, and a
      desired count lowers it to at most the smaller of the two when it falls, raises
      it with a rise, and clips what is asked for at a positive cap. */
  lemma DemandFollowsTheReports(trace: seq<Sys>, actions: seq<Action>, i: nat)
    requires Run(trace, actions) && i < |actions| && actions[i].Controller?
    ensures actions[i].control.Statistics? ==>
      Target(trace[i + 1].st) == Max(0, actions[i].control.count) && trace[i + 1].st.desired == trace[i].st.desired
    ensures actions[i].control.DesiredCount? ==>
      var s, t, n, cap := trace[i].st, trace[i + 1].st, Max(0, actions[i].control.count), trace[i].limits.cap;
      && Target(t) == (if n < s.jobs then Min(Target(s), n) else Target(s) + (n - s.jobs))
      && t.desired == (if cap > 0 then Min(cap, Target(t)) else Target(t))
    ensures actions[i].control.Statistics? || actions[i].control.DesiredCount? ==> trace[i + 1].st.runners == trace[i].st.runners
  {
    RunKeepsInv(trace, actions, i);
    ReportActs(trace[i], actions[i].control);
  }

  lemma ReportActs(s: Sys, c: Control)
    requires Ledgers(s.st.jobs, s.st.completedPending, s.st.desired, s.ledger, s.counted)
    requires ControlEnabled(s, c)
    ensures c.Statistics? ==>
      AfterControl(s, c).st == ObserveStatistics(s.st, c.count) && Target(AfterControl(s, c).st) == Max(0, c.count)
      && AfterControl(s, c).st.desired == s.st.desired
    ensures c.DesiredCount? ==> var t := AfterControl(s, c).st; var n := Max(0, c.count);
      && Target(t) == (if n < s.st.jobs then Min(Target(s.st), n) else Target(s.st) + (n - s.st.jobs))
      && t.desired == (if s.limits.cap > 0 then Min(s.limits.cap, Target(t)) else Target(t))
    ensures c.Statistics? || c.DesiredCount? ==> AfterControl(s, c).st.runners == s.st.runners
  {
    match c {
      case Statistics(count) => FreshStatisticsDropTheCorrection(s.st, count);
      case DesiredCount(count) => UpdateClosedForm(s.st, count, s.limits.cap);
      case _ =>
    }
  }

  /** A job that starts on a live runner makes it busy, out of reach of scale-downs. */
  lemma JobsMakeRunnersBusy(trace: seq<Sys>, actions: seq<Action>, i: nat, n: string)
    requires Run(trace, actions) && i < |actions| && actions[i] == Controller(JobStarted(n))
    requires n in trace[i].st.runners && trace[i].st.runners[n].lifecycle != Lifecycle.Deleting
    ensures trace[i + 1].st.runners == trace[i].st.runners[n := trace[i].st.runners[n].(lifecycle := Busy)]
    ensures n !in SettledIdle(trace[i + 1].st) && n in ActiveNames(trace[i + 1].st)
  {
    RunKeepsInv(trace, actions, i);
    assert n !in trace[i].st.deleted;
    assert trace[i + 1].st == MarkBusy(trace[i].st, n);
  }

  // ---- reaping ----

  /** After a listing the reconciler sees every tracked runner as the table has it,
      except that the power state of an unlisted one is unknown; and the VM of a
      listed one is as its last entry in the listing says. */
  lemma ListingsAreSeen(trace: seq<Sys>, actions: seq<Action>, i: nat, n: string) returns (k: int)
    requires Run(trace, actions) && i < |actions| && actions[i].Controller? && actions[i].control.ListCloud?
    requires n in trace[i + 1].st.runners
    ensures var cloud, e := actions[i].control.cloud, trace[i + 1].st.runners[n];
      && n in trace[i + 1].views
      && trace[i + 1].views[n] == (if n in Seen(cloud) then e else e.(vm := e.vm.(power := NoPower)))
      && (n in Seen(cloud) && n !in trace[i].st.deleted ==>
            && 0 <= k < |cloud| && cloud[k].runnerName == n
            && (forall j :: k < j < |cloud| ==> cloud[j].runnerName != n)
            && e.vm.(runnerID := 0) == cloud[k].(runnerID := 0))
  {
    var c := actions[i].control;
    assert trace[i + 1] == DoListCloud(trace[i], c.cloud, c.now);
    k := ListingShows(trace[i], c.cloud, c.now, n);
  }

  lemma ListingShows(s: Sys, cloud: seq<RunnerVM>, now: int, n: string) returns (k: int)
    requires n in DoListCloud(s, cloud, now).st.runners
    ensures var s' := DoListCloud(s, cloud, now);
      var e := s'.st.runners[n];
      && n in s'.views && s'.views[n] == (if n in Seen(cloud) then e else e.(vm := e.vm.(power := NoPower)))
      && (n in Seen(cloud) && n !in s.st.deleted ==>
            && 0 <= k < |cloud| && cloud[k].runnerName == n
            && (forall j :: k < j < |cloud| ==> cloud[j].runnerName != n)
            && e.vm.(runnerID := 0) == cloud[k].(runnerID := 0))
  {
    assert DoListCloud(s, cloud, now).st.runners == ObserveAll(s.st, cloud).runners;
    k := SnapshotShowsTheListing(s.st, cloud, n);
  }

  /** Deleted already, or marked and as good as started. */
  predicate Doomed(s: Sys, n: string) {
    n in s.st.deleted ||
    (n in s.st.runners && s.st.runners[n].lifecycle == Lifecycle.Deleting && (s.st.runners[n].inFlight || s.st.runners[n].provisioning))
  }

  predicate DoomedFor(s: Sys, s': Sys, n: string, reason: Reason) {
    && Doomed(s', n)
    && (!InFlight(s, n) && n !in s.st.deleted ==> n in s'.st.runners && s'.st.runners[n].reason == reason)
  }

  /** The reconciler's reason to delete the runner it sees, in the order it looks. */
  predicate Due(v: Entry, lookup: PowerReading, now: int, limits: Limits, reason: Reason) {
    if SeenStopped(v, lookup) then reason == VMStopped
    else if SeenMissing(v, lookup) then reason == VMMissing
    else if OlderThan(v, now, limits.maxAge) then reason == HardLifetime
    else v.lifecycle == Idle && OlderThan(v, now, limits.idleTimeout) && reason == IdleTimeout
  }

  predicate ReapsLive(s: Sys, a: Action) {
    && a.Controller? && a.control.Reap? && a.control.name in s.views
    && s.views[a.control.name].lifecycle != Lifecycle.Deleting && !s.views[a.control.name].provisioning
  }

  /** Looking at a runner that it saw alive, the reconciler dooms it if it has a
      reason, records that reason unless it was doomed before, and otherwise changes
      nothing at all. */
  lemma ReapDoomsExactlyTheDue(trace: seq<Sys>, actions: seq<Action>, i: nat, reason: Reason)
    requires Run(trace, actions) && i < |actions| && ReapsLive(trace[i], actions[i])
    ensures var s, s', c := trace[i], trace[i + 1], actions[i].control;
      var v := s.views[c.name];
      var n := v.vm.runnerName;
      && (Due(v, c.lookup, c.now, s.limits, reason) ==> DoomedFor(s, s', n, reason))
      && ((forall r :: !Due(v, c.lookup, c.now, s.limits, r)) ==> s' == s)
  {
    RunKeepsInv(trace, actions, i);
    var c := actions[i].control;
    ReapActs(trace[i], c.name, c.lookup, c.now, reason);
    StepReaps(trace, actions, i);
  }

  /** A runner seen deleting is deleted again, for the reason it was seen with. */
  lemma ReapRetriesDeletions(trace: seq<Sys>, actions: seq<Action>, i: nat)
    requires Run(trace, actions) && i < |actions| && actions[i].Controller? && actions[i].control.Reap?
    requires actions[i].control.name in trace[i].views && trace[i].views[actions[i].control.name].lifecycle == Lifecycle.Deleting
    ensures var v := trace[i].views[actions[i].control.name];
      DoomedFor(trace[i], trace[i + 1], v.vm.runnerName, v.reason)
  {
    RunKeepsInv(trace, actions, i);
    var c := actions[i].control;
    RetryActs(trace[i], c.name, c.lookup, c.now);
    StepReaps(trace, actions, i);
  }

  lemma RetryActs(s: Sys, name: string, lookup: PowerReading, now: int)
    requires Flights(s.st.runners, s.workers, s.serial, s.flight)
    requires name in s.views && s.views[name].lifecycle == Lifecycle.Deleting
    ensures DoomedFor(s, DoReap(s, name, lookup, now), s.views[name].vm.runnerName, s.views[name].reason)
  {
    var v := s.views[name];
    ReapReasonIsExact(v, lookup, now, s.limits.maxAge, s.limits.idleTimeout);
    DeletionIsRecorded(s, v.vm.runnerName, v.reason);
  }

  lemma StepReaps(trace: seq<Sys>, actions: seq<Action>, i: nat)
    requires Run(trace, actions) && i < |actions| && actions[i].Controller? && actions[i].control.Reap?
    requires actions[i].control.name in trace[i].views
    ensures var c := actions[i].control; trace[i + 1] == DoReap(trace[i], c.name, c.lookup, c.now)
  {
  }

  lemma ReapActs(s: Sys, name: string, lookup: PowerReading, now: int, reason: Reason)
    requires Flights(s.st.runners, s.workers, s.serial, s.flight)
    requires name in s.views && s.views[name].lifecycle != Lifecycle.Deleting && !s.views[name].provisioning
    ensures var v, s' := s.views[name], DoReap(s, name, lookup, now);
      var n := v.vm.runnerName;
      && (Due(v, lookup, now, s.limits, reason) ==> DoomedFor(s, s', n, reason))
      && ((forall r :: !Due(v, lookup, now, s.limits, r)) ==> s' == s)
  {
    var v := s.views[name];
    ReapReasonIsExact(v, lookup, now, s.limits.maxAge, s.limits.idleTimeout);
    var r := ReapReason(v, lookup, now, s.limits.maxAge, s.limits.idleTimeout);
    assert r.Some? ==> Due(v, lookup, now, s.limits, r.value);
    if r.Some? {
      DeletionIsRecorded(s, v.vm.runnerName, r.value);
    }
  }

  lemma DeletionIsRecorded(s: Sys, n: string, reason: Reason)
    requires Flights(s.st.runners, s.workers, s.serial, s.flight)
    ensures DoomedFor(s, DeleteRunner(s, n, reason), n, reason)
  {
    var m := MarkDeleting(s.st, n, reason);
    assert DeleteRunner(s, n, reason).st == m.state;
  }

  // ---- deletions asked for during a creation ----

  /** When its creation is over, the provisioner passes on exactly the deletion that
      was recorded for the runner meanwhile, and a failed creation asks for one. */
  lemma CreationsPassDeletionsOn(trace: seq<Sys>, actions: seq<Action>, i: nat)
    requires Run(trace, actions) && i < |actions| && actions[i].Provisioner?
    ensures actions[i].provision.ReadBack? ==>
      var g := actions[i].g;
      && g in trace[i].holders && trace[i].holders[g].Settled? && g in trace[i + 1].holders
      && var n, r := trace[i].holders[g].name, trace[i].st.runners;
         trace[i + 1].holders[g] ==
           if n in r && r[n].lifecycle == Lifecycle.Deleting then Dooming(n, r[n].reason) else Finished
    ensures actions[i].provision.ClearFailed? ==>
      var g := actions[i].g;
      && g in trace[i].holders && trace[i].holders[g].Broken? && g in trace[i + 1].holders
      && var n := trace[i].holders[g].name;
         && trace[i + 1].holders[g] == Dooming(n, Reason.ProvisioningFailed)
         && n in trace[i + 1].st.runners && !trace[i + 1].st.runners[n].provisioning
  {
    PassesOn(trace[i], actions[i].g, actions[i].provision);
  }

  lemma PassesOn(s: Sys, g: nat, p: Provision)
    requires ProvisionEnabled(s, g, p)
    ensures p.ReadBack? ==> AfterProvision(s, g, p) == DoReadBack(s, g)
    ensures p.ClearFailed? ==> AfterProvision(s, g, p) == DoClearFailed(s, g)
  {
  }


  predicate DeletesOwn(s: Sys, a: Action) {
    a.Provisioner? && a.provision.DeleteOwn? && a.g in s.holders && s.holders[a.g].Dooming?
  }

  /** A deletion that was asked for while the runner was being created, or that its
      failed creation asks for, does start: when the provisioner passes it on, the
      runner is in flight, unless a worker has dropped it already. */
  lemma DeferredDeletionsStart(trace: seq<Sys>, actions: seq<Action>, i: nat)
    requires Run(trace, actions) && i < |actions| && DeletesOwn(trace[i], actions[i])
    ensures var n := trace[i].holders[actions[i].g].name;
      InFlight(trace[i + 1], n) || n in trace[i + 1].st.deleted
  {
    RunKeepsInv(trace, actions, i);
    StepDeletesOwn(trace, actions, i);
    OwnDeletionStarts(trace[i], actions[i].g);
  }

  lemma StepDeletesOwn(trace: seq<Sys>, actions: seq<Action>, i: nat)
    requires Run(trace, actions) && i < |actions| && DeletesOwn(trace[i], actions[i])
    ensures trace[i + 1] == DoDeleteOwn(trace[i], actions[i].g)
  {
  }

  lemma OwnDeletionStarts(s: Sys, g: nat)
    requires Owners(s.st.runners, s.holders, s.owner) && Begun(s.holders, s.fates.created.Keys, s.used, s.owner)
    requires g in s.holders && s.holders[g].Dooming?
    ensures var n, s' := s.holders[g].name, DoDeleteOwn(s, g); InFlight(s', n) || n in s'.st.deleted
  {
    FollowersAreSettled(s, g);
    DeleteStarts(At(s, g, Finished), s.holders[g].name, s.holders[g].reason);
  }

  lemma FollowersAreSettled(s: Sys, g: nat)
    requires Owners(s.st.runners, s.holders, s.owner) && Begun(s.holders, s.fates.created.Keys, s.used, s.owner)
    requires g in s.holders && Following(s.holders[g])
    ensures var n := s.holders[g].name; n in s.st.runners ==> !s.st.runners[n].provisioning
  {
  }

  lemma DeleteStarts(s: Sys, n: string, reason: Reason)
    requires n in s.st.runners ==> !s.st.runners[n].provisioning
    ensures var s' := DeleteRunner(s, n, reason); InFlight(s', n) || n in s'.st.deleted
  {
    MarkStarts(s.st, n, reason);
    assert DeleteRunner(s, n, reason).st == MarkDeleting(s.st, n, reason).state;
  }

  lemma MarkStarts(s: State, n: string, reason: Reason)
    requires n in s.runners ==> !s.runners[n].provisioning
    ensures var s' := MarkDeleting(s, n, reason).state; n in s'.deleted || (n in s'.runners && s'.runners[n].inFlight)
  {
  }

  // ---- one Create per name ----

  predicate Begins(a: Action) {
    a.Provisioner? && a.provision.BeginCreate?
  }

  lemma ProvisionKeepsCreated(s: Sys, g: nat, p: Provision)
    requires ProvisionEnabled(s, g, p)
    ensures s.fates.created.Keys <= AfterProvision(s, g, p).fates.created.Keys
    ensures p.BeginCreate? ==> g in s.holders && s.holders[g].Recorded? && s.holders[g].name in AfterProvision(s, g, p).fates.created
  {
  }

  lemma ControlKeepsFates(s: Sys, c: Control)
    requires ControlEnabled(s, c)
    ensures AfterControl(s, c).fates == s.fates
  {
    match c
    case CompletionDelete => DeleteRunnerKeepsFates(s, s.completing.value, JobDone);
    case Reap(name, lookup, now) =>
      var r := ReapReason(s.views[name], lookup, now, s.limits.maxAge, s.limits.idleTimeout);
      if r.Some? {
        DeleteRunnerKeepsFates(s, s.views[name].vm.runnerName, r.value);
      }
    case _ =>
  }

  lemma DeleteRunnerKeepsFates(s: Sys, name: string, reason: Reason)
    ensures DeleteRunner(s, name, reason).fates == s.fates
  {
    var m := MarkDeleting(s.st, name, reason);
    assert Spawn(s.(st := m.state), name, m.entry).fates == s.fates;
  }

  lemma WorkKeepsCreated(s: Sys, t: Ticket, w: Work)
    requires WorkEnabled(s, t, w)
    ensures AfterWork(s, t, w).fates.created == s.fates.created
  {
    match w
    case Judge => JudgeKeepsFates(s, t);
    case Conclude(now) => ConcludeKeepsCreated(s, t, now);
    case _ =>
  }

  lemma EndKeepsFates(s: Sys, t: Ticket, st: State)
    ensures Ends(s, t, st).fates == s.fates
  {
  }

  lemma JudgeKeepsFates(s: Sys, t: Ticket)
    requires t in s.workers && s.workers[t].pc.Judged?
    ensures DoJudge(s, t).fates == s.fates
  {
    match VerdictFor(s.workers[t].entry, s.workers[t].pc.err)
    case Preserve => EndKeepsFates(s, t, PreserveBusy(s.st, t.name));
    case GiveUp => EndKeepsFates(s, t, DeletionFailed(s.st, t.name));
    case Proceed =>
  }

  lemma ConcludeKeepsCreated(s: Sys, t: Ticket, now: int)
    requires t in s.workers && s.workers[t].pc.Gone?
    ensures DoConclude(s, t, now).fates.created == s.fates.created
  {
    EndKeepsFates(s, t, AwaitMissingRegistration(s.st, t.name));
    EndKeepsFates(s, t, Remove(s.st, t.name, now));
  }

  lemma StepKeepsCreated(s: Sys, a: Action)
    requires Enabled(s, a)
    ensures s.fates.created.Keys <= After(s, a).fates.created.Keys
    ensures Begins(a) ==> a.g in s.holders && s.holders[a.g].Recorded? && s.holders[a.g].name in After(s, a).fates.created
  {
    match a
    case Provisioner(g, p) => ProvisionKeepsCreated(s, g, p);
    case Controller(c) => ControlKeepsFates(s, c);
    case Deleter(t, w) => WorkKeepsCreated(s, t, w);
    case GitHub(h) =>
  }

  lemma {:induction false} GrowingChain(chain: seq<set<string>>, i: nat, j: nat)
    requires i <= j < |chain| && forall k :: 0 <= k < |chain| - 1 ==> chain[k] <= chain[k + 1]
    ensures chain[i] <= chain[j]
  {
    if i < j {
      GrowingChain(chain, i, j - 1);
    }
  }

  lemma CreatedStays(trace: seq<Sys>, actions: seq<Action>, i: nat, j: nat)
    requires Run(trace, actions) && i <= j < |trace|
    ensures trace[i].fates.created.Keys <= trace[j].fates.created.Keys
  {
    var chain := seq(|trace|, k requires 0 <= k < |trace| => trace[k].fates.created.Keys);
    forall k | 0 <= k < |chain| - 1 ensures chain[k] <= chain[k + 1] {
      CreatedStaysOneStep(trace, actions, k);
    }
    GrowingChain(chain, i, j);
  }

  lemma CreatedStaysOneStep(trace: seq<Sys>, actions: seq<Action>, i: nat)
    requires Run(trace, actions) && i < |actions|
    ensures trace[i].fates.created.Keys <= trace[i + 1].fates.created.Keys
    ensures Begins(actions[i]) ==>
      var g := actions[i].g;
      g in trace[i].holders && trace[i].holders[g].Recorded? && trace[i].holders[g].name in trace[i + 1].fates.created
  {
    StepKeepsCreated(trace[i], actions[i]);
  }

  /** No name is created twice in a run. */
  lemma EachCreateBeginsOnce(trace: seq<Sys>, actions: seq<Action>, i: nat, j: nat)
    requires Run(trace, actions) && i < j < |actions| && Begins(actions[i]) && Begins(actions[j])
    ensures actions[i].g in trace[i].holders && trace[i].holders[actions[i].g].Recorded?
    ensures actions[j].g in trace[j].holders && trace[j].holders[actions[j].g].Recorded?
    ensures trace[i].holders[actions[i].g].name != trace[j].holders[actions[j].g].name
  {
    CreatedStaysOneStep(trace, actions, i);
    CreatedStaysOneStep(trace, actions, j);
    CreatedStays(trace, actions, i + 1, j);
    RunKeepsInv(trace, actions, j);
    BeginCreateKeepsBegun(trace[j], actions[j].g, trace[j].holders[actions[j].g].name);
  }
}

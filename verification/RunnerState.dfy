/** The runner table of one pool as a value, and what each critical section of
    the scaler does to it. `RunnerTable` proves that the mutating methods do
    exactly this; `ScalerProtocol` interleaves these actions. */
module RunnerState {
  import opened Common
  import opened ResourceNames

  datatype Lifecycle = Provisioning | Idle | Busy | Unknown | Deleting

  datatype Reason =
    | NoReason | DemandDecreased | JobDone | ProvisioningFailed
    | VMMissing | VMStopped | HardLifetime | IdleTimeout

  datatype Power = NoPower | Starting | Running | Stopped | Deallocated | OtherPower

  const TOMBSTONE_LIFE := 3600

  /** `runnerID` 0 means not recorded and `createdAt` 0 is the zero time. */
  datatype RunnerVM = RunnerVM(runnerName: string, runnerID: int, vmName: string, createdAt: int, power: Power)

  datatype Entry = Entry(
    vm: RunnerVM, lifecycle: Lifecycle, provisioning: bool, inFlight: bool,
    reason: Reason, completed: bool, missing: bool)

  datatype State = State(
    runners: map<string, Entry>, desired: int, jobs: int, completedPending: int,
    deleted: map<string, int>)

  const EmptyState := State(map[], 0, 0, 0, map[])

  function BareVM(name: string): RunnerVM {
    RunnerVM(name, 0, ResourceName(name), 0, NoPower)
  }

  function FreshEntry(vm: RunnerVM, lifecycle: Lifecycle): Entry {
    Entry(vm, lifecycle, false, false, NoReason, false, false)
  }

  /** The zero value that reading an absent key yields. */
  const ZeroEntry := FreshEntry(RunnerVM("", 0, "", 0, NoPower), Unknown)

  function Lookup(s: State, name: string): Entry {
    if name in s.runners then s.runners[name] else ZeroEntry
  }

  function Put(s: State, name: string, e: Entry): State {
    s.(runners := s.runners[name := e])
  }

  // ---- counting ----

  predicate Counts(e: Entry) {
    e.lifecycle != Deleting || e.missing
  }

  function ActiveNames(s: State): set<string> {
    set n | n in s.runners && Counts(s.runners[n])
  }

  function Active(s: State): nat {
    |ActiveNames(s)|
  }

  // ---- demand ----

  function ObserveStatistics(s: State, jobs: int): State {
    s.(jobs := Max(0, jobs), completedPending := 0)
  }

  function Clip(target: int, cap: int): int {
    if cap > 0 then Min(cap, target) else target
  }

  function UpdateDesired(s: State, count: int, cap: int): State {
    var jobs := Max(0, count);
    var pending := Max(0, s.completedPending - Max(0, s.jobs - jobs));
    s.(jobs := jobs, completedPending := pending, desired := Clip(Max(0, jobs - pending), cap))
  }

  // ---- capacity ----

  predicate CanReserve(s: State, name: string, cap: int) {
    && name !in s.runners
    && name !in s.deleted
    && Active(s) < s.desired
    && (cap > 0 ==> |s.runners| < cap)
  }

  function ReservedEntry(name: string, now: int): Entry {
    FreshEntry(BareVM(name).(createdAt := now), Provisioning).(provisioning := true)
  }

  function Reserve(s: State, name: string, now: int): State {
    Put(s, name, ReservedEntry(name, now))
  }

  function AddIdle(s: State, vm: RunnerVM): State {
    var e := Lookup(s, vm.runnerName);
    var lifecycle := if vm.runnerName !in s.runners || e.lifecycle == Provisioning then Idle else e.lifecycle;
    Put(s, vm.runnerName, e.(lifecycle := lifecycle, vm := vm, provisioning := false))
  }

  function RecordJIT(s: State, name: string, id: int): State {
    var e := Lookup(s, name);
    Put(s, name, e.(vm := e.vm.(runnerID := id)))
  }

  function ProvisionFailed(s: State, name: string): State {
    Put(s, name, Lookup(s, name).(provisioning := false))
  }

  // ---- job events ----

  function MarkBusy(s: State, name: string): State {
    if name in s.deleted || (name in s.runners && s.runners[name].lifecycle == Deleting) then s
    else if name !in s.runners then Put(s, name, FreshEntry(BareVM(name), Busy))
    else Put(s, name, s.runners[name].(lifecycle := Busy))
  }

  predicate CountsCompletion(s: State, name: string) {
    name !in s.deleted && (name in s.runners ==> !s.runners[name].completed)
  }

  function MarkCompleted(s: State, name: string): State {
    if !CountsCompletion(s, name) then s
    else
      var e := if name in s.runners then s.runners[name] else FreshEntry(BareVM(name), Unknown);
      var pending := Min(s.jobs, s.completedPending + 1);
      Put(s, name, e.(completed := true)).(
        completedPending := pending, desired := Min(s.desired, Max(0, s.jobs - pending)))
  }

  // ---- deletion ----

  datatype Marked = Marked(state: State, entry: Entry, start: bool)

  function MarkDeleting(s: State, name: string, reason: Reason): Marked {
    if name in s.deleted then Marked(s, ZeroEntry, false)
    else
      var e := if name in s.runners then s.runners[name] else FreshEntry(BareVM(name), Unknown);
      if e.inFlight then Marked(s, e, false)
      else
        var e' := e.(lifecycle := Deleting, reason := reason, inFlight := !e.provisioning);
        Marked(Put(s, name, e'), e', e'.inFlight)
  }

  function DeletionFailed(s: State, name: string): State {
    if name !in s.runners then s else Put(s, name, s.runners[name].(inFlight := false))
  }

  function PreserveBusy(s: State, name: string): State {
    if name !in s.runners then s
    else if s.runners[name].completed then
      Put(s, name, s.runners[name].(lifecycle := Deleting, inFlight := false, reason := JobDone))
    else
      Put(s, name, s.runners[name].(lifecycle := Busy, inFlight := false, reason := NoReason))
  }

  function AwaitMissingRegistration(s: State, name: string): State {
    Put(s, name, Lookup(s, name).(lifecycle := Deleting, missing := true, inFlight := false, reason := VMMissing))
  }

  function Remove(s: State, name: string, now: int): State {
    s.(runners := s.runners - {name}, deleted := s.deleted[name := now])
  }

  // ---- scale-down ----

  function SettledIdle(s: State): set<string> {
    set n | n in s.runners && s.runners[n].lifecycle == Idle && !s.runners[n].provisioning
  }

  /** How many runners a scale-down of at most `limit` takes. */
  function Quota(s: State, limit: nat): nat {
    Min(Min(limit, Max(0, Active(s) - s.desired)), |SettledIdle(s)|)
  }

  /** The choice is nondeterministic only among runners created at the same time. */
  ghost predicate IdleChoice(s: State, limit: nat, chosen: set<string>) {
    && chosen <= SettledIdle(s)
    && |chosen| == Quota(s, limit)
    && forall a, b :: a in chosen && b in SettledIdle(s) - chosen ==>
         s.runners[a].vm.createdAt <= s.runners[b].vm.createdAt
  }

  function Doomed(e: Entry): Entry {
    e.(lifecycle := Deleting, inFlight := true, reason := DemandDecreased)
  }

  function ScaleDown(s: State, chosen: set<string>): State {
    s.(runners := map n | n in s.runners :: if n in chosen then Doomed(s.runners[n]) else s.runners[n])
  }

  // ---- reconciliation ----

  function Seen(cloud: seq<RunnerVM>): set<string> {
    set i | 0 <= i < |cloud| :: cloud[i].runnerName
  }

  function Observe(s: State, vm: RunnerVM): State {
    if vm.runnerName in s.deleted then s
    else if vm.runnerName !in s.runners then Put(s, vm.runnerName, FreshEntry(vm, Unknown))
    else
      var e := s.runners[vm.runnerName];
      Put(s, vm.runnerName, e.(vm := vm.(runnerID := e.vm.runnerID)))
  }

  function ObserveAll(s: State, cloud: seq<RunnerVM>): State {
    if cloud == [] then s else Observe(ObserveAll(s, cloud[..|cloud| - 1]), cloud[|cloud| - 1])
  }

  function Prune(s: State, seen: set<string>, now: int): State {
    s.(deleted := map n | n in s.deleted && (n in seen || now - s.deleted[n] <= TOMBSTONE_LIFE) :: s.deleted[n])
  }

  function ReconcileCloud(s: State, cloud: seq<RunnerVM>, now: int): State {
    Prune(ObserveAll(s, cloud), Seen(cloud), now)
  }

  /** What the reconciler works from: unlisted runners lose their power state. */
  function View(e: Entry, listed: bool): Entry {
    if listed then e else e.(vm := e.vm.(power := NoPower))
  }

  function Snapshot(s: State, cloud: seq<RunnerVM>): map<string, Entry> {
    var t := ObserveAll(s, cloud);
    map n | n in t.runners :: View(t.runners[n], n in Seen(cloud))
  }

  /** The outcome of asking the provider for one VM's power state. */
  datatype PowerReading = Reading(power: Power) | VMNotFound | Unreadable

  /** Why the reconciler deletes a runner, if it does. `lookup` is only asked for
      a runner whose snapshot has no power state. */
  function ReapReason(e: Entry, lookup: PowerReading, now: int, maxAge: int, idleTimeout: int): Option<Reason> {
    if e.lifecycle == Deleting then Some(e.reason)
    else if e.provisioning then None
    else
      var missing := e.vm.power == NoPower && lookup == VMNotFound;
      var power := if e.vm.power == NoPower && lookup.Reading? then lookup.power else e.vm.power;
      var age := now - e.vm.createdAt;
      if power == Stopped || power == Deallocated then Some(VMStopped)
      else if missing then Some(VMMissing)
      else if e.vm.createdAt != 0 && age > maxAge then Some(HardLifetime)
      else if e.lifecycle == Idle && e.vm.createdAt != 0 && age > idleTimeout then Some(IdleTimeout)
      else None
  }

  // ---- properties of single actions ----

  lemma ActiveAfterPut(s: State, name: string, e: Entry)
    ensures ActiveNames(Put(s, name, e)) ==
      if Counts(e) then ActiveNames(s) + {name} else ActiveNames(s) - {name}
  {
  }

  /** A reservation never pushes capacity past the demand or past a cap. */
  lemma ReserveStaysWithinDemand(s: State, name: string, cap: int, now: int)
    requires CanReserve(s, name, cap)
    ensures var t := Reserve(s, name, now);
      && Active(t) == Active(s) + 1 <= t.desired
      && |t.runners| == |s.runners| + 1
      && (cap > 0 ==> |t.runners| <= cap)
  {
    ActiveAfterPut(s, name, ReservedEntry(name, now));
    assert Reserve(s, name, now).runners.Keys == s.runners.Keys + {name};
    assert |s.runners.Keys + {name}| == |s.runners.Keys| + 1;
    assert |s.runners| == |s.runners.Keys|;
    assert |Reserve(s, name, now).runners| == |Reserve(s, name, now).runners.Keys|;
  }

  /** A scale-down takes as many settled idle runners as limit and excess allow; with
      enough of both it leaves exactly the demand. */
  lemma ScaleDownReachesDemand(s: State, limit: nat, chosen: set<string>)
    requires IdleChoice(s, limit, chosen)
    requires forall n :: n in SettledIdle(s) ==> !s.runners[n].missing
    ensures Active(ScaleDown(s, chosen)) == Active(s) - |chosen|
    ensures |SettledIdle(s)| >= Active(s) - s.desired && limit >= Active(s) - s.desired && Active(s) >= s.desired ==>
      Active(ScaleDown(s, chosen)) == s.desired
  {
    ChosenLeave(s, chosen);
    SizeWithout(ActiveNames(s), chosen);
  }

  lemma ChosenLeave(s: State, chosen: set<string>)
    requires chosen <= SettledIdle(s) && forall n :: n in SettledIdle(s) ==> !s.runners[n].missing
    ensures chosen <= ActiveNames(s) && ActiveNames(ScaleDown(s, chosen)) == ActiveNames(s) - chosen
  {
  }

  lemma SizeWithout<T>(a: set<T>, b: set<T>)
    requires b <= a
    ensures |a - b| == |a| - |b|
  {
    assert a == (a - b) + b;
  }

  /** Scale-down never removes capacity below demand, whatever stale excess the
      caller passed, and never touches anything but settled idle runners. */
  lemma ScaleDownKeepsDemandCovered(s: State, limit: nat, chosen: set<string>)
    requires IdleChoice(s, limit, chosen)
    ensures var t := ScaleDown(s, chosen);
      && Active(t) >= Min(Active(s), s.desired)
      && |chosen| <= limit
      && (forall n :: n in s.runners && (s.runners[n].lifecycle != Idle || s.runners[n].provisioning) ==>
            n in t.runners && t.runners[n] == s.runners[n])
  {
    var t := ScaleDown(s, chosen);
    assert ActiveNames(s) - chosen <= ActiveNames(t);
    SubtractSize(ActiveNames(s), chosen);
    SubsetSize(ActiveNames(s) - chosen, ActiveNames(t));
  }

  lemma SubtractSize<T>(a: set<T>, b: set<T>)
    ensures |a - b| >= |a| - |b|
  {
    assert a == (a - b) + (a * b);
    SubsetSize(a * b, b);
  }

  lemma {:induction false} SubsetSize<T>(a: set<T>, b: set<T>)
    requires a <= b
    ensures |a| <= |b|
  {
    assert b == a + (b - a);
  }

  /** A list snapshot forgets nothing: every tracked runner keeps its flags, and
      a tombstone whose VM is still listed is never pruned. */
  lemma {:induction false} ObserveAllShape(s: State, cloud: seq<RunnerVM>)
    ensures var t := ObserveAll(s, cloud);
      && t == s.(runners := t.runners)
      && t.runners.Keys == s.runners.Keys + (Seen(cloud) - s.deleted.Keys)
      && (forall n :: n in s.runners ==>
            t.runners[n] == s.runners[n].(vm := t.runners[n].vm) &&
            t.runners[n].vm.runnerID == s.runners[n].vm.runnerID)
      && (forall n :: n in s.runners && n !in Seen(cloud) ==> t.runners[n] == s.runners[n])
      && (forall n :: n in t.runners && n in Seen(cloud) && n !in s.deleted ==> t.runners[n].vm.runnerName == n)
  {
    if cloud != [] {
      var front, last := cloud[..|cloud| - 1], cloud[|cloud| - 1];
      ObserveAllShape(s, front);
      SeenSplit(cloud);
    }
  }

  /** A runner first met in a listing is adopted without any flag. */
  lemma {:induction false} AdoptionIsPlain(s: State, cloud: seq<RunnerVM>)
    requires forall i :: 0 <= i < |cloud| ==> cloud[i].runnerID == 0
    ensures var t := ObserveAll(s, cloud);
      && s.runners.Keys <= t.runners.Keys
      && forall n :: n in t.runners && n !in s.runners ==>
           t.runners[n] == FreshEntry(t.runners[n].vm, Unknown) && t.runners[n].vm.runnerID == 0
  {
    if cloud != [] {
      AdoptionIsPlain(s, cloud[..|cloud| - 1]);
    }
  }

  lemma SeenSplit(cloud: seq<RunnerVM>)
    requires cloud != []
    ensures Seen(cloud) == Seen(cloud[..|cloud| - 1]) + {cloud[|cloud| - 1].runnerName}
  {
    var front := cloud[..|cloud| - 1];
    forall n | n in Seen(cloud) ensures n in Seen(front) + {cloud[|cloud| - 1].runnerName} {
      var i :| 0 <= i < |cloud| && cloud[i].runnerName == n;
      if i < |front| {
        assert front[i].runnerName == n;
      }
    }
    forall n | n in Seen(front) ensures n in Seen(cloud) {
      var i :| 0 <= i < |front| && front[i].runnerName == n;
      assert cloud[i].runnerName == n;
    }
  }

  lemma ReconcileForgetsNothing(s: State, cloud: seq<RunnerVM>, now: int)
    ensures var t := ReconcileCloud(s, cloud, now);
      && s.runners.Keys <= t.runners.Keys
      && (forall n :: n in s.deleted && n in Seen(cloud) ==> n in t.deleted && n !in t.runners.Keys - s.runners.Keys)
      && (forall n :: n in s.deleted ==> (n !in t.deleted <==> n !in Seen(cloud) && now - s.deleted[n] > 3600))
      && (forall n :: n in t.deleted ==> n in s.deleted && t.deleted[n] == s.deleted[n])
      && t.desired == s.desired && t.jobs == s.jobs && t.completedPending == s.completedPending
  {
    ObserveAllShape(s, cloud);
  }

  /** A stopped or deallocated VM, as listed or, if the listing is silent, looked up. */
  predicate SeenStopped(e: Entry, lookup: PowerReading) {
    || e.vm.power == Stopped || e.vm.power == Deallocated
    || (e.vm.power == NoPower && (lookup == Reading(Stopped) || lookup == Reading(Deallocated)))
  }

  predicate SeenMissing(e: Entry, lookup: PowerReading) {
    e.vm.power == NoPower && lookup == VMNotFound
  }

  predicate OlderThan(e: Entry, now: int, limit: int) {
    e.vm.createdAt != 0 && now - e.vm.createdAt > limit
  }

  /** Exactly what the reconciler does about a runner, and why. */
  lemma ReapReasonIsExact(e: Entry, lookup: PowerReading, now: int, maxAge: int, idleTimeout: int)
    ensures var r := ReapReason(e, lookup, now, maxAge, idleTimeout);
      var stopped, gone := SeenStopped(e, lookup), SeenMissing(e, lookup);
      var aged, unused := OlderThan(e, now, maxAge), e.lifecycle == Idle && OlderThan(e, now, idleTimeout);
      if e.lifecycle == Deleting then r == Some(e.reason)
      else if e.provisioning then r == None
      else
        && (r == Some(VMStopped) <==> stopped)
        && (r == Some(VMMissing) <==> gone)
        && (r == Some(HardLifetime) <==> !stopped && !gone && aged)
        && (r == Some(IdleTimeout) <==> !stopped && !gone && !aged && unused)
        && (r == None <==> !stopped && !gone && !aged && !unused)
  {
  }

  /** What the reconciler sees of a runner: its table entry, with the VM as the last
      listing entry of that name has it, or without a power state if there is none. */
  lemma {:induction false} SnapshotShowsTheListing(s: State, cloud: seq<RunnerVM>, n: string) returns (i: int)
    requires n in Snapshot(s, cloud)
    ensures var e := Snapshot(s, cloud)[n];
      && n in ObserveAll(s, cloud).runners
      && e.(vm := ObserveAll(s, cloud).runners[n].vm) == ObserveAll(s, cloud).runners[n]
      && (n !in Seen(cloud) ==> n in s.runners && e == s.runners[n].(vm := s.runners[n].vm.(power := NoPower)))
      && (n in Seen(cloud) && n !in s.deleted ==>
            && 0 <= i < |cloud| && cloud[i].runnerName == n
            && (forall j :: i < j < |cloud| ==> cloud[j].runnerName != n)
            && e.vm.(runnerID := 0) == cloud[i].(runnerID := 0))
  {
    ObserveAllShape(s, cloud);
    i := LastListed(s, cloud, n);
  }

  lemma ObserveOne(s: State, vm: RunnerVM, n: string)
    requires n !in s.deleted
    ensures n == vm.runnerName ==>
      n in Observe(s, vm).runners && Observe(s, vm).runners[n].vm.(runnerID := 0) == vm.(runnerID := 0)
    ensures n != vm.runnerName ==>
      (n in Observe(s, vm).runners <==> n in s.runners) && (n in s.runners ==> Observe(s, vm).runners[n] == s.runners[n])
  {
  }

  lemma {:induction false} LastListed(s: State, cloud: seq<RunnerVM>, n: string) returns (i: int)
    ensures n in Seen(cloud) && n !in s.deleted ==>
      && 0 <= i < |cloud| && cloud[i].runnerName == n
      && (forall j :: i < j < |cloud| ==> cloud[j].runnerName != n)
      && n in ObserveAll(s, cloud).runners
      && ObserveAll(s, cloud).runners[n].vm.(runnerID := 0) == cloud[i].(runnerID := 0)
  {
    i := -1;
    if cloud != [] {
      var front, last := cloud[..|cloud| - 1], cloud[|cloud| - 1];
      ObserveAllShape(s, front);
      SeenSplit(cloud);
      if n !in s.deleted {
        ObserveOne(ObserveAll(s, front), last, n);
      }
      if last.runnerName == n {
        i := |cloud| - 1;
      } else {
        i := LastListed(s, front, n);
      }
    }
  }

  // ---- how actions answer each other ----

  /** A name with a tombstone stays untracked: no event, deletion request,
      reservation or listing brings it back, and no completion of it counts. */
  lemma TombstonesHold(s: State, name: string, reason: Reason, cap: int, cloud: seq<RunnerVM>, now: int)
    requires name in s.deleted && name !in s.runners
    ensures MarkBusy(s, name) == s && MarkCompleted(s, name) == s && !CanReserve(s, name, cap)
    ensures MarkDeleting(s, name, reason).state == s && !MarkDeleting(s, name, reason).start
    ensures name !in ReconcileCloud(s, cloud, now).runners
  {
    ObserveAllShape(s, cloud);
  }
}

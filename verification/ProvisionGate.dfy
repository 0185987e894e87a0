/** All pools of one controller and the provisioning gate they share. */
module ProvisionGate {
  import opened RunnerState
  import opened ScalerProtocol
  import opened ScalerInvariant

  /** `slots` is how many tokens are in the gate's channel, `width` its capacity. */
  datatype Fleet = Fleet(pools: seq<Sys>, slots: nat, width: nat)

  /** Only these three actions touch the gate. */
  predicate Takes(a: Action) {
    a.Provisioner? && a.provision.Acquire?
  }

  predicate Returns(a: Action) {
    a.Provisioner? && (a.provision.ReleaseUnused? || a.provision.Release?)
  }

  /** A pool whose listener gave up is rebuilt from scratch, but only after its
      provisioners and delete workers have all returned. */
  datatype FleetAction =
    | Act(p: nat, action: Action)
    | Rebuild(p: nat, rebuilt: Sys)

  ghost predicate FleetEnabled(f: Fleet, a: FleetAction) {
    && a.p < |f.pools|
    && match a
       case Act(p, action) =>
         && Enabled(f.pools[p], action)
         && (Takes(action) ==> f.slots < f.width)
         && (Returns(action) ==> f.slots > 0)
       case Rebuild(p, rebuilt) => f.pools[p].holders == map[] && f.pools[p].workers == map[] && Init(rebuilt)
  }

  ghost function FleetAfter(f: Fleet, a: FleetAction): Fleet
    requires FleetEnabled(f, a)
  {
    match a
    case Act(p, action) =>
      Fleet(f.pools[p := After(f.pools[p], action)],
            if Takes(action) then f.slots + 1 else if Returns(action) then f.slots - 1 else f.slots,
            f.width)
    case Rebuild(p, rebuilt) => f.(pools := f.pools[p := rebuilt])
  }

  function Held(pools: seq<Sys>): nat {
    if pools == [] then 0 else |pools[0].holders| + Held(pools[1..])
  }

  function ProvisioningNames(s: Sys): set<string> {
    set n | n in s.st.runners && s.st.runners[n].provisioning
  }

  function ProvisioningCount(pools: seq<Sys>): nat {
    if pools == [] then 0 else |ProvisioningNames(pools[0])| + ProvisioningCount(pools[1..])
  }

  ghost predicate FleetInit(f: Fleet) {
    f.slots == 0 && forall i :: 0 <= i < |f.pools| ==> Init(f.pools[i])
  }

  ghost predicate Everywhere<T(!new)>(items: seq<T>, good: T -> bool) {
    forall i :: 0 <= i < |items| ==> good(items[i])
  }

  ghost predicate FleetInv(f: Fleet) {
    f.slots == Held(f.pools) <= f.width && Everywhere(f.pools, Inv)
  }

  ghost predicate FleetRun(trace: seq<Fleet>, actions: seq<FleetAction>) {
    && |trace| == |actions| + 1 && FleetInit(trace[0])
    && forall i :: 0 <= i < |actions| ==> FleetEnabled(trace[i], actions[i]) && trace[i + 1] == FleetAfter(trace[i], actions[i])
  }

  // ---- one pool ----

  lemma DeleteRunnerKeepsHolders(s: Sys, name: string, reason: Reason)
    ensures DeleteRunner(s, name, reason).holders == s.holders
  {
    var m := MarkDeleting(s.st, name, reason);
    assert Spawn(s.(st := m.state), name, m.entry).holders == s.holders;
  }

  lemma ProvisionHolders(s: Sys, g: nat, p: Provision)
    requires ProvisionEnabled(s, g, p)
    ensures AfterProvision(s, g, p).holders.Keys ==
      if p.Acquire? then s.holders.Keys + {g}
      else if p.ReleaseUnused? || p.Release? then s.holders.Keys - {g}
      else s.holders.Keys
  {
    if p.DeleteOwn? {
      DeleteRunnerKeepsHolders(At(s, g, Finished), s.holders[g].name, s.holders[g].reason);
    }
  }

  lemma ControlHolders(s: Sys, c: Control)
    requires ControlEnabled(s, c)
    ensures AfterControl(s, c).holders == s.holders
  {
    match c
    case CompletionDelete => DeleteRunnerKeepsHolders(s, s.completing.value, JobDone);
    case Reap(name, lookup, now) =>
      var r := ReapReason(s.views[name], lookup, now, s.limits.maxAge, s.limits.idleTimeout);
      if r.Some? {
        DeleteRunnerKeepsHolders(s, s.views[name].vm.runnerName, r.value);
      }
    case _ =>
  }

  lemma EndsHolders(s: Sys, t: Ticket, st: State)
    ensures Ends(s, t, st).holders == s.holders
  {
  }

  lemma JudgeHolders(s: Sys, t: Ticket)
    requires t in s.workers && s.workers[t].pc.Judged?
    ensures DoJudge(s, t).holders == s.holders
  {
    match VerdictFor(s.workers[t].entry, s.workers[t].pc.err)
    case Preserve => EndsHolders(s, t, PreserveBusy(s.st, t.name));
    case GiveUp => EndsHolders(s, t, DeletionFailed(s.st, t.name));
    case Proceed =>
  }

  lemma ConcludeHolders(s: Sys, t: Ticket, now: int)
    requires t in s.workers && s.workers[t].pc.Gone?
    ensures DoConclude(s, t, now).holders == s.holders
  {
    EndsHolders(s, t, AwaitMissingRegistration(s.st, t.name));
    EndsHolders(s, t, Remove(s.st, t.name, now));
  }

  lemma WorkHolders(s: Sys, t: Ticket, w: Work)
    requires WorkEnabled(s, t, w)
    ensures AfterWork(s, t, w).holders == s.holders
  {
    match w
    case Judge => JudgeHolders(s, t);
    case Conclude(now) => ConcludeHolders(s, t, now);
    case _ =>
  }

  lemma StepHolders(s: Sys, a: Action)
    requires Enabled(s, a)
    ensures After(s, a).holders.Keys ==
      if Takes(a) then s.holders.Keys + {a.g} else if Returns(a) then s.holders.Keys - {a.g} else s.holders.Keys
    ensures Takes(a) ==> a.g !in s.holders
    ensures Returns(a) ==> a.g in s.holders
  {
    match a
    case Provisioner(g, p) => ProvisionHolders(s, g, p);
    case Controller(c) => ControlHolders(s, c);
    case Deleter(t, w) => WorkHolders(s, t, w);
    case GitHub(h) =>
  }

  lemma KeyCount(m: map<nat, Stage>, m': map<nat, Stage>, g: nat)
    ensures g !in m && m'.Keys == m.Keys + {g} ==> |m'| == |m| + 1
    ensures g in m && m'.Keys == m.Keys - {g} ==> |m'| == |m| - 1
    ensures m'.Keys == m.Keys ==> |m'| == |m|
  {
    assert |m| == |m.Keys| && |m'| == |m'.Keys|;
  }

  function SlotChange(a: Action): int {
    if Takes(a) then 1 else if Returns(a) then -1 else 0
  }

  /** A goroutine holds a slot from its acquire to its one release. */
  lemma StepCountsSlots(s: Sys, a: Action)
    requires Enabled(s, a)
    ensures |After(s, a).holders| == |s.holders| + SlotChange(a)
  {
    StepHolders(s, a);
    KeyCount(s.holders, After(s, a).holders, if a.Provisioner? then a.g else 0);
  }

  lemma {:induction false} OwnersImage(names: set<string>, owner: map<string, nat>, holders: set<nat>)
    requires forall n :: n in names ==> n in owner && owner[n] in holders
    requires forall m, n :: m in names && n in names && owner[m] == owner[n] ==> m == n
    ensures |names| <= |holders|
    decreases |names|
  {
    if names != {} {
      var n :| n in names;
      OwnersImage(names - {n}, owner, holders - {owner[n]});
    }
  }

  // ---- every slot comes back ----

  /** How many more steps the goroutine takes before it has given its slot back. */
  function Rank(g: Stage): (r: nat)
    ensures 1 <= r <= 9
  {
    match g
    case Holding => 9
    case Reserved(_) => 8
    case Registered(_, _) => 7
    case Recorded(_, _) => 6
    case Creating(_, _) => 5
    case Created(_, _) => 4
    case Broken(_) => 3
    case Settled(_) => 3
    case Dooming(_, _) => 2
    case Finished => 1
  }

  /** A goroutine that holds a slot always has a next step. */
  lemma HolderHasAStep(s: Sys, g: nat) returns (p: Provision)
    requires g in s.holders
    ensures ProvisionEnabled(s, g, p)
  {
    match s.holders[g]
    case Holding => p := ReleaseUnused;
    case Reserved(_) => p := IssueJIT(true);
    case Registered(_, _) => p := Provision.RecordJIT;
    case Recorded(_, _) => p := BeginCreate;
    case Creating(_, _) => p := CreateFails;
    case Created(_, _) => p := Provision.AddIdle;
    case Broken(_) => p := ClearFailed;
    case Settled(_) => p := ReadBack;
    case Dooming(_, _) => p := DeleteOwn;
    case Finished => p := Release;
  }

  predicate OwnStep(a: Action, g: nat) {
    a.Provisioner? && a.g == g
  }

  lemma ProvisionLowersRank(s: Sys, g: nat, p: Provision)
    requires ProvisionEnabled(s, g, p) && g in s.holders
    ensures var s' := AfterProvision(s, g, p);
      if p.ReleaseUnused? || p.Release? then g !in s'.holders
      else g in s'.holders && Rank(s'.holders[g]) < Rank(s.holders[g])
  {
    if p.DeleteOwn? {
      DeleteRunnerKeepsHolders(At(s, g, Finished), s.holders[g].name, s.holders[g].reason);
    }
  }

  lemma OthersKeepTheStage(s: Sys, h: nat, p: Provision, g: nat)
    requires ProvisionEnabled(s, h, p) && h != g && g in s.holders
    ensures var s' := AfterProvision(s, h, p); g in s'.holders && s'.holders[g] == s.holders[g]
  {
    if p.DeleteOwn? {
      DeleteRunnerKeepsHolders(At(s, h, Finished), s.holders[h].name, s.holders[h].reason);
    }
  }

  /** Each of its own steps brings the goroutine closer to giving its slot back,
      and no other step of the system touches it. */
  lemma StepLowersRank(s: Sys, a: Action, g: nat)
    requires Enabled(s, a) && g in s.holders
    ensures var s' := After(s, a);
      if OwnStep(a, g) && Returns(a) then g !in s'.holders
      else g in s'.holders && Rank(s'.holders[g]) + (if OwnStep(a, g) then 1 else 0) <= Rank(s.holders[g])
  {
    match a
    case Provisioner(h, p) =>
      if h == g {
        ProvisionLowersRank(s, g, p);
      } else {
        OthersKeepTheStage(s, h, p, g);
      }
    case Controller(c) => ControlHolders(s, c);
    case Deleter(t, w) => WorkHolders(s, t, w);
    case GitHub(h) =>
  }

  function OwnSteps(actions: seq<Action>, i: nat, j: nat, g: nat): nat
    requires i <= j <= |actions|
  {
    if i == j then 0 else OwnSteps(actions, i, j - 1, g) + if OwnStep(actions[j - 1], g) then 1 else 0
  }

  predicate GivenBack(actions: seq<Action>, i: nat, j: nat, g: nat)
    requires i <= j <= |actions|
  {
    exists k :: i <= k < j && OwnStep(actions[k], g) && Returns(actions[k])
  }

  /** What one action may do to the stage of `g`. */
  predicate Lowers(held: map<nat, Stage>, held': map<nat, Stage>, a: Action, g: nat) {
    g in held ==>
      if OwnStep(a, g) && Returns(a) then g !in held'
      else g in held' && Rank(held'[g]) + (if OwnStep(a, g) then 1 else 0) <= Rank(held[g])
  }

  lemma RunStepLowers(trace: seq<Sys>, actions: seq<Action>, k: nat, g: nat)
    requires Run(trace, actions) && k < |actions|
    ensures Lowers(trace[k].holders, trace[k + 1].holders, actions[k], g)
  {
    if g in trace[k].holders {
      StepLowersRank(trace[k], actions[k], g);
    }
  }

  /** Between `i` and `j` the slot came back, or its holder got closer to it. */
  predicate Progresses(held: map<nat, Stage>, held': map<nat, Stage>, actions: seq<Action>, i: nat, j: nat, g: nat)
    requires i <= j <= |actions| && g in held
  {
    GivenBack(actions, i, j, g) || (g in held' && Rank(held'[g]) + OwnSteps(actions, i, j, g) <= Rank(held[g]))
  }

  lemma {:induction false} LoweringChain(held: seq<map<nat, Stage>>, actions: seq<Action>, i: nat, j: nat, g: nat)
    requires |held| == |actions| + 1 && i <= j < |held| && g in held[i]
    requires forall k :: 0 <= k < |actions| ==> Lowers(held[k], held[k + 1], actions[k], g)
    ensures Progresses(held[i], held[j], actions, i, j, g)
    ensures OwnSteps(actions, i, j, g) >= 9 ==> GivenBack(actions, i, j, g)
  {
    if i < j {
      LoweringChain(held, actions, i, j - 1, g);
      assert Lowers(held[j - 1], held[j], actions[j - 1], g);
      if GivenBack(actions, i, j - 1, g) {
        var k :| i <= k < j - 1 && OwnStep(actions[k], g) && Returns(actions[k]);
        assert GivenBack(actions, i, j, g);
      }
    }
  }

  lemma HeldStages(trace: seq<Sys>, actions: seq<Action>, g: nat) returns (held: seq<map<nat, Stage>>)
    requires Run(trace, actions)
    ensures |held| == |trace| == |actions| + 1 && forall k :: 0 <= k < |trace| ==> held[k] == trace[k].holders
    ensures forall k :: 0 <= k < |actions| ==> Lowers(held[k], held[k + 1], actions[k], g)
  {
    held := seq(|trace|, k requires 0 <= k < |trace| => trace[k].holders);
    forall k | 0 <= k < |actions| ensures Lowers(held[k], held[k + 1], actions[k], g) {
      RunStepLowers(trace, actions, k, g);
    }
  }

  /** A held slot is given back on every path through the loop: until then its
      goroutine holds it and has a step to take, and takes at most eight others. */
  lemma EverySlotComesBack(trace: seq<Sys>, actions: seq<Action>, i: nat, j: nat, g: nat)
    requires Run(trace, actions) && i <= j < |trace| && g in trace[i].holders
    ensures Progresses(trace[i].holders, trace[j].holders, actions, i, j, g)
    ensures OwnSteps(actions, i, j, g) >= 9 ==> GivenBack(actions, i, j, g)
  {
    var held := HeldStages(trace, actions, g);
    assert held[i] == trace[i].holders && held[j] == trace[j].holders;
    LoweringChain(held, actions, i, j, g);
  }

  /** Every reservation being created has its own slot. */
  lemma ProvisioningFitsHolders(s: Sys)
    requires Owners(s.st.runners, s.holders, s.owner)
    ensures |ProvisioningNames(s)| <= |s.holders|
  {
    forall m, n | m in ProvisioningNames(s) && n in ProvisioningNames(s) && s.owner[m] == s.owner[n] ensures m == n {
      assert OwnedBy(s.holders, s.owner, m) && OwnedBy(s.holders, s.owner, n);
    }
    OwnersImage(ProvisioningNames(s), s.owner, s.holders.Keys);
    assert |s.holders| == |s.holders.Keys|;
  }

  /** A goroutine about to give its slot back owns no unsettled reservation. */
  lemma SlotsReturnAfterSettling(s: Sys, a: Action)
    requires Inv(s) && Enabled(s, a) && Returns(a)
    ensures a.g in s.holders && !Owning(s.holders[a.g])
    ensures forall n :: n in ProvisioningNames(s) ==> n in s.owner && s.owner[n] != a.g
    ensures a.g !in After(s, a).holders
  {
    StepHolders(s, a);
    OthersOwn(s, a.g);
  }

  lemma OthersOwn(s: Sys, g: nat)
    requires Owners(s.st.runners, s.holders, s.owner) && g in s.holders && !Owning(s.holders[g])
    ensures forall n :: n in ProvisioningNames(s) ==> n in s.owner && s.owner[n] != g
  {
  }

  // ---- all pools ----

  lemma {:induction false} HeldUpdate(pools: seq<Sys>, p: nat, s: Sys)
    requires p < |pools|
    ensures Held(pools[p := s]) == Held(pools) - |pools[p].holders| + |s.holders|
  {
    if p == 0 {
      assert pools[p := s][1..] == pools[1..];
    } else {
      assert pools[p := s][1..] == pools[1..][p - 1 := s];
      HeldUpdate(pools[1..], p - 1, s);
    }
  }

  lemma {:induction false} HeldAtLeast(pools: seq<Sys>, p: nat)
    requires p < |pools|
    ensures Held(pools) >= |pools[p].holders|
  {
    if p > 0 {
      HeldAtLeast(pools[1..], p - 1);
    }
  }

  lemma {:induction false} HeldInitially(pools: seq<Sys>)
    requires forall i :: 0 <= i < |pools| ==> pools[i].holders == map[]
    ensures Held(pools) == 0
  {
    if pools != [] {
      HeldInitially(pools[1..]);
    }
  }

  lemma UpdateKeepsAll<T(!new)>(items: seq<T>, p: nat, item: T, good: T -> bool)
    requires p < |items| && good(item) && Everywhere(items, good)
    ensures Everywhere(items[p := item], good)
  {
  }

  lemma PoolUpdateKeepsInv(f: Fleet, p: nat, s: Sys, slots: nat)
    requires FleetInv(f) && p < |f.pools| && Inv(s)
    requires slots == f.slots - |f.pools[p].holders| + |s.holders| && slots <= f.width
    ensures FleetInv(Fleet(f.pools[p := s], slots, f.width))
  {
    HeldUpdate(f.pools, p, s);
    UpdateKeepsAll(f.pools, p, s, Inv);
  }

  lemma FleetStepKeepsInv(f: Fleet, a: FleetAction)
    requires FleetInv(f) && FleetEnabled(f, a)
    ensures FleetInv(FleetAfter(f, a))
  {
    match a
    case Act(p, action) =>
      StepKeepsInv(f.pools[p], action);
      StepCountsSlots(f.pools[p], action);
      PoolUpdateKeepsInv(f, p, After(f.pools[p], action), FleetAfter(f, a).slots);
    case Rebuild(p, rebuilt) =>
      InitEstablishesInv(rebuilt);
      PoolUpdateKeepsInv(f, p, rebuilt, f.slots);
  }

  lemma {:induction false} FleetRunKeepsInv(trace: seq<Fleet>, actions: seq<FleetAction>, i: nat)
    requires FleetRun(trace, actions) && i < |trace|
    ensures FleetInv(trace[i]) && trace[i].width == trace[0].width
  {
    if i == 0 {
      HeldInitially(trace[0].pools);
      forall j | 0 <= j < |trace[0].pools| ensures Inv(trace[0].pools[j]) {
        InitEstablishesInv(trace[0].pools[j]);
      }
    } else {
      FleetRunKeepsInv(trace, actions, i - 1);
      FleetStepKeepsInv(trace[i - 1], actions[i - 1]);
    }
  }

  lemma {:induction false} ProvisioningFitsHeld(pools: seq<Sys>)
    requires forall i :: 0 <= i < |pools| ==> Owners(pools[i].st.runners, pools[i].holders, pools[i].owner)
    ensures ProvisioningCount(pools) <= Held(pools)
  {
    if pools != [] {
      ProvisioningFitsHolders(pools[0]);
      ProvisioningFitsHeld(pools[1..]);
    }
  }

  /** For any number of pools, in every state of every run: the reservations
      being created number at most the slots their goroutines hold, which are
      exactly the tokens in the gate, which never exceed its width. */
  lemma GateConservation(trace: seq<Fleet>, actions: seq<FleetAction>, i: nat)
    requires FleetRun(trace, actions) && i < |trace|
    ensures ProvisioningCount(trace[i].pools) <= Held(trace[i].pools) == trace[i].slots <= trace[0].width
  {
    FleetRunKeepsInv(trace, actions, i);
    ProvisioningFitsHeld(trace[i].pools);
  }

  /** A release never blocks: whoever gives a slot back finds a token to take. */
  lemma ReleaseNeverBlocks(trace: seq<Fleet>, actions: seq<FleetAction>, i: nat, p: nat, a: Action)
    requires FleetRun(trace, actions) && i < |trace|
    requires p < |trace[i].pools| && Enabled(trace[i].pools[p], a) && Returns(a)
    ensures FleetEnabled(trace[i], Act(p, a))
  {
    FleetRunKeepsInv(trace, actions, i);
    StepHolders(trace[i].pools[p], a);
    HeldAtLeast(trace[i].pools, p);
    assert a.g in trace[i].pools[p].holders;
  }
}

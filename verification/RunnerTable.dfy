/** The mutable runner table. Every method is one critical section; each is
    proved to change the fields exactly as the action of the same name in
    `RunnerState` says. */
module RunnerTable {
  import opened Common
  import ResourceNames
  import opened RunnerState
  import opened Demand

  predicate KeysMatch(runners: map<string, Entry>) {
    forall n :: n in runners ==> runners[n].vm.runnerName == n
  }

  function Names(entries: seq<Entry>): set<string> {
    set i | 0 <= i < |entries| :: entries[i].vm.runnerName
  }

  predicate OldestFirst(entries: seq<Entry>) {
    forall i, j :: 0 <= i < j < |entries| ==> entries[i].vm.createdAt <= entries[j].vm.createdAt
  }

  /** A settled idle runner, marked for deletion because demand fell. */
  predicate TakenFor(before: map<string, Entry>, e: Entry) {
    && e.vm.runnerName in before && before[e.vm.runnerName].lifecycle == Idle && !before[e.vm.runnerName].provisioning
    && e == before[e.vm.runnerName].(lifecycle := Deleting, inFlight := true, reason := DemandDecreased)
  }

  predicate DistinctNames(entries: seq<Entry>) {
    forall i, j :: 0 <= i < j < |entries| ==> entries[i].vm.runnerName != entries[j].vm.runnerName
  }

  method InsertByCreation(sorted: seq<Entry>, e: Entry) returns (result: seq<Entry>)
    requires OldestFirst(sorted)
    ensures OldestFirst(result)
    ensures multiset(result) == multiset(sorted) + multiset{e}
  {
    var i := 0;
    while i < |sorted| && sorted[i].vm.createdAt <= e.vm.createdAt
      invariant 0 <= i <= |sorted|
      invariant forall j :: 0 <= j < i ==> sorted[j].vm.createdAt <= e.vm.createdAt
    {
      i := i + 1;
    }
    result := sorted[..i] + [e] + sorted[i..];
    assert sorted == sorted[..i] + sorted[i..];
    InsertKeepsOrder(sorted[..i], e, sorted[i..]);
  }

  lemma InsertKeepsOrder(front: seq<Entry>, e: Entry, back: seq<Entry>)
    requires OldestFirst(front + back)
    requires forall f :: f in front ==> f.vm.createdAt <= e.vm.createdAt
    requires back != [] ==> e.vm.createdAt < back[0].vm.createdAt
    ensures OldestFirst(front + [e] + back)
  {
    var all, result := front + back, front + [e] + back;
    assert forall i :: 0 <= i < |front| ==> result[i] == all[i] == front[i];
    assert forall i :: |front| < i < |result| ==> result[i] == all[i - 1] == back[i - 1 - |front|];
    assert back != [] ==> all[|front|] == back[0];
    assert forall i :: |front| < i < |result| ==> e.vm.createdAt <= result[i].vm.createdAt;
  }

  method SortByCreation(entries: seq<Entry>) returns (sorted: seq<Entry>)
    ensures OldestFirst(sorted)
    ensures multiset(sorted) == multiset(entries)
  {
    sorted := [];
    for i := 0 to |entries|
      invariant OldestFirst(sorted)
      invariant multiset(sorted) == multiset(entries[..i])
    {
      assert entries[..i + 1] == entries[..i] + [entries[i]];
      sorted := InsertByCreation(sorted, entries[i]);
    }
    assert entries[..|entries|] == entries;
  }

  lemma PermutationKeepsNames(a: seq<Entry>, b: seq<Entry>)
    requires multiset(a) == multiset(b)
    ensures Names(a) == Names(b) && |a| == |b|
    ensures forall e :: e in a <==> e in b
  {
    assert |multiset(a)| == |a| && |multiset(b)| == |b|;
    forall e ensures e in a <==> e in b {
      assert e in multiset(a) <==> e in multiset(b);
    }
    NamesWithin(a, b);
    NamesWithin(b, a);
  }

  lemma NamesWithin(a: seq<Entry>, b: seq<Entry>)
    requires forall e :: e in a ==> e in b
    ensures Names(a) <= Names(b)
  {
    forall n | n in Names(a) ensures n in Names(b) {
      var i :| 0 <= i < |a| && a[i].vm.runnerName == n;
      assert a[i] in b;
    }
  }

  lemma {:induction false} DistinctCount(entries: seq<Entry>)
    requires DistinctNames(entries)
    ensures |Names(entries)| == |entries|
  {
    if entries != [] {
      var front := entries[..|entries| - 1];
      var last := entries[|entries| - 1].vm.runnerName;
      DistinctCount(front);
      NamesGrow(entries, |front|);
      assert entries[..|front| + 1] == entries;
      assert last !in Names(front);
    }
  }

  lemma {:induction false} NamesBound(entries: seq<Entry>)
    ensures |Names(entries)| <= |entries|
  {
    if entries != [] {
      var front := entries[..|entries| - 1];
      var last := entries[|entries| - 1].vm.runnerName;
      NamesBound(front);
      NamesGrow(entries, |front|);
      assert entries[..|front| + 1] == entries;
      SubsetSize(Names(entries), Names(front) + {last});
    }
  }

  lemma {:induction false} DistinctByCount(entries: seq<Entry>)
    requires |Names(entries)| == |entries|
    ensures DistinctNames(entries)
    decreases |entries|
  {
    if entries != [] {
      var front := entries[..|entries| - 1];
      LastNameIsNew(entries);
      DistinctByCount(front);
      assert forall i :: 0 <= i < |front| ==> front[i].vm.runnerName in Names(front);
    }
  }

  lemma LastNameIsNew(entries: seq<Entry>)
    requires entries != [] && |Names(entries)| == |entries|
    ensures var front := entries[..|entries| - 1];
      |Names(front)| == |front| && entries[|front|].vm.runnerName !in Names(front)
  {
    var front := entries[..|entries| - 1];
    NamesGrow(entries, |front|);
    assert entries[..|front| + 1] == entries;
    NamesBound(front);
    assert entries[|front|].vm.runnerName in Names(front) ==> Names(entries) == Names(front);
  }

  lemma MarkedEntries(before: State, entries: seq<Entry>, after: map<string, Entry>)
    requires Names(entries) <= SettledIdle(before) && after == ScaleDown(before, Names(entries)).runners
    requires forall i :: 0 <= i < |entries| ==> entries[i].vm.runnerName in after && after[entries[i].vm.runnerName] == entries[i]
    ensures forall i :: 0 <= i < |entries| ==> TakenFor(before.runners, entries[i])
    ensures forall n :: n in before.runners && n !in Names(entries) ==> n in after && after[n] == before.runners[n]
  {
    assert forall i :: 0 <= i < |entries| ==> entries[i].vm.runnerName in Names(entries);
  }

  /** The oldest `k` of all settled idle runners are a legal choice. */
  lemma PrefixIsAChoice(s: State, limit: nat, sorted: seq<Entry>, k: nat)
    requires KeysMatch(s.runners)
    requires OldestFirst(sorted) && DistinctNames(sorted)
    requires forall i :: 0 <= i < |sorted| ==>
      sorted[i].vm.runnerName in SettledIdle(s) && s.runners[sorted[i].vm.runnerName] == sorted[i]
    requires Names(sorted) == SettledIdle(s)
    requires k <= |sorted| && k == Quota(s, limit)
    ensures IdleChoice(s, limit, Names(sorted[..k]))
    ensures |Names(sorted[..k])| == k
  {
    DistinctCount(sorted[..k]);
    NamesWithin(sorted[..k], sorted);
    forall a, b | a in Names(sorted[..k]) && b in SettledIdle(s) - Names(sorted[..k])
      ensures s.runners[a].vm.createdAt <= s.runners[b].vm.createdAt
    {
      var i :| 0 <= i < k && sorted[..k][i].vm.runnerName == a;
      var j :| 0 <= j < |sorted| && sorted[j].vm.runnerName == b;
      assert forall m :: 0 <= m < k ==> sorted[..k][m].vm.runnerName in Names(sorted[..k]);
    }
  }

  lemma NamesGrow(entries: seq<Entry>, i: nat)
    requires i < |entries|
    ensures Names(entries[..i + 1]) == Names(entries[..i]) + {entries[i].vm.runnerName}
  {
    assert entries[..i + 1] == entries[..i] + [entries[i]];
    assert forall j :: 0 <= j < i ==> entries[..i + 1][j] == entries[..i][j];
    assert entries[..i + 1][i].vm.runnerName in Names(entries[..i + 1]);
    forall n | n in Names(entries[..i]) ensures n in Names(entries[..i + 1]) {
      var j :| 0 <= j < i && entries[..i][j].vm.runnerName == n;
      assert entries[..i + 1][j].vm.runnerName == n;
    }
  }

  class RunnerTable {
    var runners: map<string, Entry>
    var desired: int
    var jobs: int
    var completedPending: int
    var deleted: map<string, int>

    ghost function Abs(): State
      reads this
    {
      State(runners, desired, jobs, completedPending, deleted)
    }

    /** Every entry sits under its own name. */
    ghost predicate Valid()
      reads this
    {
      KeysMatch(runners)
    }

    /** Nothing but the entry of `name` has changed. */
    twostate predicate OnlyEntry(name: string)
      reads this
    {
      && runners - {name} == old(runners) - {name}
      && deleted == old(deleted) && desired == old(desired) && jobs == old(jobs) && completedPending == old(completedPending)
    }

    constructor ()
      ensures Abs() == EmptyState && Valid()
    {
      runners, desired, jobs, completedPending, deleted := map[], 0, 0, 0, map[];
    }

    method ActiveCount() returns (count: nat)
      ensures count == Active(Abs())
      ensures count == |set n | n in runners && (runners[n].lifecycle != Deleting || runners[n].missing)|
    {
      count := 0;
      var rest := runners.Keys;
      while rest != {}
        invariant rest <= runners.Keys
        invariant count == |set n | n in runners.Keys - rest && Counts(runners[n])|
        decreases |rest|
      {
        var name :| name in rest;
        ghost var before := set n | n in runners.Keys - rest && Counts(runners[n]);
        rest := rest - {name};
        ghost var after := set n | n in runners.Keys - rest && Counts(runners[n]);
        assert after == if Counts(runners[name]) then before + {name} else before;
        if runners[name].lifecycle != Deleting || runners[name].missing {
          count := count + 1;
        }
      }
      assert (set n | n in runners.Keys - rest && Counts(runners[n])) == ActiveNames(Abs());
      assert (set n | n in runners && (runners[n].lifecycle != Deleting || runners[n].missing)) == ActiveNames(Abs());
    }

    method AddIdle(vm: RunnerVM)
      modifies this
      ensures Abs() == RunnerState.AddIdle(old(Abs()), vm)
      ensures OnlyEntry(vm.runnerName) && (old(Valid()) ==> Valid())
      ensures vm.runnerName in runners && runners[vm.runnerName].vm == vm && !runners[vm.runnerName].provisioning
      ensures vm.runnerName !in old(runners) ==> runners[vm.runnerName] == FreshEntry(vm, Idle)
      ensures vm.runnerName in old(runners) ==>
        var e, e' := old(runners)[vm.runnerName], runners[vm.runnerName];
        && e'.lifecycle == (if e.lifecycle == Provisioning then Idle else e.lifecycle)
        && e'.inFlight == e.inFlight && e'.reason == e.reason && e'.completed == e.completed && e'.missing == e.missing
    {
      var entry := if vm.runnerName in runners then runners[vm.runnerName] else ZeroEntry;
      if vm.runnerName !in runners {
        entry := entry.(lifecycle := Idle);
      } else if entry.lifecycle == Provisioning {
        entry := entry.(lifecycle := Idle);
      }
      entry := entry.(vm := vm);
      entry := entry.(provisioning := false);
      runners := runners[vm.runnerName := entry];
    }

    method ObserveStatistics(count: int)
      modifies this
      ensures Abs() == RunnerState.ObserveStatistics(old(Abs()), count)
      ensures old(Valid()) ==> Valid()
      ensures jobs == Max(0, count) && completedPending == 0
      ensures desired == old(desired) && runners == old(runners) && deleted == old(deleted)
    {
      jobs := Max(0, count);
      completedPending := 0;
    }

    method UpdateDesired(count: int, cap: int) returns (target: int)
      modifies this
      ensures Abs() == RunnerState.UpdateDesired(old(Abs()), count, cap)
      ensures target == desired && runners == old(runners) && deleted == old(deleted) && (old(Valid()) ==> Valid())
      ensures old(DemandOk(Abs())) ==>
        var n, T := Max(0, count), old(jobs - completedPending);
        var T' := if n < old(jobs) then Min(T, n) else T + (n - old(jobs));
        && DemandOk(Abs()) && jobs == n && jobs - completedPending == T'
        && target == (if cap > 0 then Min(cap, T') else T')
    {
      var now := Max(0, count);
      completedPending := Max(0, completedPending - Max(0, jobs - now));
      jobs := now;
      desired := Max(0, now - completedPending);
      if cap > 0 {
        desired := Min(cap, desired);
      }
      target := desired;
    }

    method Reserve(name: string, cap: int, now: int) returns (ok: bool)
      modifies this
      ensures ok == CanReserve(old(Abs()), name, cap)
      ensures Abs() == if ok then RunnerState.Reserve(old(Abs()), name, now) else old(Abs())
      ensures old(Valid()) ==> Valid()
      ensures ok <==>
        && name !in old(runners) && name !in old(deleted)
        && old(|ActiveNames(Abs())| < desired) && (cap > 0 ==> old(|runners|) < cap)
      ensures OnlyEntry(name) && (!ok ==> runners == old(runners))
      ensures ok ==> name in runners && var e := runners[name];
        && e.lifecycle == Provisioning && e.provisioning && !e.inFlight && !e.completed && !e.missing && e.reason == NoReason
        && e.vm == RunnerVM(name, 0, ResourceNames.ResourceName(name), now, NoPower)
    {
      if name in runners {
        return false;
      }
      if name in deleted {
        return false;
      }
      var active := ActiveCount();
      if active >= desired || (cap > 0 && |runners| >= cap) {
        return false;
      }
      runners := runners[name := ReservedEntry(name, now)];
      ok := true;
    }

    method MarkBusy(name: string)
      modifies this
      ensures Abs() == RunnerState.MarkBusy(old(Abs()), name)
      ensures OnlyEntry(name) && (old(Valid()) ==> Valid())
      ensures name in old(deleted) || (name in old(runners) && old(runners)[name].lifecycle == Deleting) ==> runners == old(runners)
      ensures !(name in old(deleted) || (name in old(runners) && old(runners)[name].lifecycle == Deleting)) ==>
        && name in runners && runners[name].lifecycle == Busy
        && (name in old(runners) ==> runners[name] == old(runners)[name].(lifecycle := Busy))
        && (name !in old(runners) ==> runners[name] == FreshEntry(BareVM(name), Busy))
    {
      if name in deleted {
        return;
      }
      if name in runners && runners[name].lifecycle == Deleting {
        return;
      }
      if name !in runners {
        runners := runners[name := FreshEntry(BareVM(name), Busy)];
      } else {
        runners := runners[name := runners[name].(lifecycle := Busy)];
      }
    }

    method MarkCompleted(name: string) returns (counted: bool)
      modifies this
      ensures counted == CountsCompletion(old(Abs()), name)
      ensures Abs() == RunnerState.MarkCompleted(old(Abs()), name)
      ensures old(Valid()) ==> Valid()
      ensures counted <==> name !in old(deleted) && (name in old(runners) ==> !old(runners)[name].completed)
      ensures runners - {name} == old(runners) - {name} && deleted == old(deleted) && jobs == old(jobs)
      ensures !counted ==> Abs() == old(Abs())
      ensures counted ==> name in runners && completedPending == Min(jobs, old(completedPending) + 1)
      ensures counted ==> desired == Min(old(desired), Max(0, jobs - completedPending))
      ensures counted ==>
        var e := if name in old(runners) then old(runners)[name] else FreshEntry(BareVM(name), Unknown);
           runners[name] == e.(completed := true)
    {
      if name in deleted {
        return false;
      }
      var entry := if name in runners then runners[name] else ZeroEntry;
      if entry.completed {
        return false;
      }
      if name !in runners {
        entry := entry.(vm := BareVM(name), lifecycle := Unknown);
      }
      runners := runners[name := entry.(completed := true)];
      completedPending := Min(jobs, completedPending + 1);
      desired := Min(desired, Max(0, jobs - completedPending));
      counted := true;
    }

    method MarkDeleting(name: string, reason: Reason) returns (entry: Entry, start: bool)
      modifies this
      ensures Marked(Abs(), entry, start) == RunnerState.MarkDeleting(old(Abs()), name, reason)
      ensures OnlyEntry(name) && (old(Valid()) ==> Valid())
      ensures start <==> name !in old(deleted) && (name in old(runners) ==> !old(runners)[name].inFlight && !old(runners)[name].provisioning)
      ensures name in old(deleted) || (name in old(runners) && old(runners)[name].inFlight) ==> runners == old(runners)
      ensures name !in old(deleted) && (name in old(runners) ==> !old(runners)[name].inFlight) ==>
        && name in runners && entry == runners[name]
        && var e := if name in old(runners) then old(runners)[name] else FreshEntry(BareVM(name), Unknown);
           runners[name] == e.(lifecycle := Deleting, reason := reason, inFlight := start)
    {
      if name in deleted {
        return ZeroEntry, false;
      }
      entry := if name in runners then runners[name] else FreshEntry(BareVM(name), Unknown);
      if entry.inFlight {
        return entry, false;
      }
      entry := entry.(lifecycle := Deleting);
      entry := entry.(reason := reason);
      entry := entry.(inFlight := !entry.provisioning);
      runners := runners[name := entry];
      start := entry.inFlight;
    }

    method DeletionFailed(previous: Entry)
      modifies this
      ensures Abs() == RunnerState.DeletionFailed(old(Abs()), previous.vm.runnerName)
      ensures OnlyEntry(previous.vm.runnerName) && (old(Valid()) ==> Valid())
      ensures runners.Keys == old(runners).Keys
      ensures forall n :: n in runners && n == previous.vm.runnerName ==> runners[n] == old(runners)[n].(inFlight := false)
    {
      var name := previous.vm.runnerName;
      if name !in runners {
        return;
      }
      runners := runners[name := runners[name].(inFlight := false)];
    }

    method PreserveBusy(name: string)
      modifies this
      ensures Abs() == RunnerState.PreserveBusy(old(Abs()), name)
      ensures OnlyEntry(name) && runners.Keys == old(runners).Keys && (old(Valid()) ==> Valid())
      ensures name in runners && !old(runners)[name].completed ==>
        runners[name] == old(runners)[name].(lifecycle := Busy, inFlight := false, reason := NoReason)
      ensures name in runners && old(runners)[name].completed ==>
        runners[name] == old(runners)[name].(lifecycle := Deleting, inFlight := false, reason := JobDone)
    {
      if name in runners {
        var entry := runners[name];
        if entry.completed {
          runners := runners[name := entry.(lifecycle := Deleting, inFlight := false, reason := JobDone)];
          return;
        }
        runners := runners[name := entry.(lifecycle := Busy, inFlight := false, reason := NoReason)];
      }
    }

    method AwaitMissingRegistration(name: string)
      modifies this
      ensures Abs() == RunnerState.AwaitMissingRegistration(old(Abs()), name)
      ensures OnlyEntry(name) && (old(Valid()) && name in old(runners) ==> Valid())
      ensures name in runners && runners[name].missing && Counts(runners[name])
      ensures name in old(runners) ==>
        runners[name] == old(runners)[name].(lifecycle := Deleting, missing := true, inFlight := false, reason := VMMissing)
    {
      var entry := if name in runners then runners[name] else ZeroEntry;
      entry := entry.(lifecycle := Deleting, missing := true, inFlight := false, reason := VMMissing);
      runners := runners[name := entry];
    }

    method Remove(name: string, now: int)
      modifies this
      ensures Abs() == RunnerState.Remove(old(Abs()), name, now)
      ensures name !in runners && runners == old(runners) - {name} && (old(Valid()) ==> Valid())
      ensures name in deleted && deleted[name] == now && deleted - {name} == old(deleted) - {name}
      ensures desired == old(desired) && jobs == old(jobs) && completedPending == old(completedPending)
    {
      runners := runners - {name};
      deleted := deleted[name := now];
    }

    method RecordJIT(name: string, id: int)
      modifies this
      ensures Abs() == RunnerState.RecordJIT(old(Abs()), name, id)
      ensures name in old(runners) ==>
        name in runners && runners[name] == old(runners)[name].(vm := old(runners)[name].vm.(runnerID := id))
      ensures OnlyEntry(name) && (old(Valid()) && name in old(runners) ==> Valid())
    {
      var entry := if name in runners then runners[name] else ZeroEntry;
      runners := runners[name := entry.(vm := entry.vm.(runnerID := id))];
    }

    method ProvisionFailed(name: string)
      modifies this
      ensures Abs() == RunnerState.ProvisionFailed(old(Abs()), name)
      ensures name in old(runners) ==> name in runners && runners[name] == old(runners)[name].(provisioning := false)
      ensures OnlyEntry(name) && (old(Valid()) && name in old(runners) ==> Valid())
    {
      var entry := if name in runners then runners[name] else ZeroEntry;
      runners := runners[name := entry.(provisioning := false)];
    }

    /** Collects the settled idle runners in the arbitrary order of the map. */
    method CollectIdle() returns (entries: seq<Entry>)
      requires Valid()
      ensures DistinctNames(entries)
      ensures Names(entries) == SettledIdle(Abs())
      ensures forall e :: e in entries ==> e.vm.runnerName in runners && runners[e.vm.runnerName] == e
    {
      entries := [];
      var rest := runners.Keys;
      while rest != {}
        invariant rest <= runners.Keys
        invariant forall i :: 0 <= i < |entries| ==>
          entries[i].vm.runnerName in SettledIdle(Abs()) - rest && runners[entries[i].vm.runnerName] == entries[i]
        invariant forall n :: n in SettledIdle(Abs()) - rest ==> runners[n] in entries
        invariant DistinctNames(entries)
        decreases |rest|
      {
        var name :| name in rest;
        rest := rest - {name};
        if runners[name].lifecycle == Idle && !runners[name].provisioning {
          entries := entries + [runners[name]];
        }
      }
      forall n | n in SettledIdle(Abs()) ensures n in Names(entries) {
        assert runners[n] in entries;
      }
      assert Names(entries) <= SettledIdle(Abs());
    }

    /** Marks the chosen runners, updating the slice and the map side by side. */
    method DoomAll(picked: seq<Entry>) returns (entries: seq<Entry>)
      requires Valid() && DistinctNames(picked) && OldestFirst(picked)
      requires forall i :: 0 <= i < |picked| ==>
        picked[i].vm.runnerName in runners && runners[picked[i].vm.runnerName] == picked[i]
      modifies this
      ensures Valid() && Abs() == ScaleDown(old(Abs()), Names(picked))
      ensures Names(entries) == Names(picked)
      ensures DistinctNames(entries) && OldestFirst(entries)
      ensures forall i :: 0 <= i < |entries| ==>
        entries[i].vm.runnerName in runners && runners[entries[i].vm.runnerName] == entries[i]
    {
      entries := picked;
      ghost var base := runners;
      for i := 0 to |entries|
        invariant |entries| == |picked|
        invariant forall j :: 0 <= j < i ==> entries[j] == Doomed(picked[j])
        invariant forall j :: i <= j < |picked| ==> entries[j] == picked[j]
        invariant runners.Keys == base.Keys
        invariant forall n :: n in base && n !in Names(picked[..i]) ==> runners[n] == base[n]
        invariant forall n :: n in base && n in Names(picked[..i]) ==> runners[n] == Doomed(base[n])
        invariant State(base, desired, jobs, completedPending, deleted) == old(Abs())
      {
        var doomed := entries[i].(lifecycle := Deleting, inFlight := true, reason := DemandDecreased);
        NamesGrow(picked, i);
        entries := entries[i := doomed];
        runners := runners[doomed.vm.runnerName := doomed];
      }
      assert picked[..|picked|] == picked;
      assert Names(entries) == Names(picked) by {
        assert forall j :: 0 <= j < |entries| ==> entries[j].vm.runnerName == picked[j].vm.runnerName;
      }
      assert forall j :: 0 <= j < |picked| ==> picked[j].vm.runnerName in Names(picked);
    }

    /** The oldest settled idle runners, as many as limit and excess allow. */
    method OldestIdle(limit: nat) returns (entries: seq<Entry>)
      requires Valid()
      ensures IdleChoice(Abs(), limit, Names(entries))
      ensures DistinctNames(entries) && OldestFirst(entries)
      ensures forall i :: 0 <= i < |entries| ==>
        entries[i].vm.runnerName in runners && runners[entries[i].vm.runnerName] == entries[i]
    {
      var active := ActiveCount();
      var quota := Min(limit, Max(0, active - desired));
      var all := CollectIdle();
      DistinctCount(all);
      entries := SortByCreation(all);
      PermutationKeepsNames(entries, all);
      DistinctByCount(entries);
      ghost var sorted := entries;
      if |entries| > quota {
        entries := entries[..quota];
      }
      assert entries == sorted[..|entries|];
      PrefixIsAChoice(Abs(), limit, sorted, |entries|);
      forall i | 0 <= i < |entries|
        ensures entries[i].vm.runnerName in runners && runners[entries[i].vm.runnerName] == entries[i]
      {
        assert entries[i] in sorted;
      }
    }

    method IdleForDeletion(limit: nat) returns (entries: seq<Entry>)
      requires Valid()
      modifies this
      ensures Valid()
      ensures IdleChoice(old(Abs()), limit, Names(entries))
      ensures Abs() == ScaleDown(old(Abs()), Names(entries))
      ensures DistinctNames(entries) && OldestFirst(entries)
      ensures |entries| == Min(Min(limit, Max(0, old(Active(Abs())) - desired)), |old(SettledIdle(Abs()))|)
      ensures forall i :: 0 <= i < |entries| ==> TakenFor(old(runners), entries[i])
      ensures forall n :: n in old(runners) && n !in Names(entries) ==> n in runners && runners[n] == old(runners)[n]
      ensures forall i :: 0 <= i < |entries| ==>
        entries[i].vm.runnerName in runners && runners[entries[i].vm.runnerName] == entries[i]
    {
      entries := OldestIdle(limit);
      ghost var before := Abs();
      entries := DoomAll(entries);
      DistinctCount(entries);
      MarkedEntries(before, entries, runners);
    }

    method ObserveListing(cloud: seq<RunnerVM>) returns (seen: set<string>)
      modifies this
      ensures Abs() == ObserveAll(old(Abs()), cloud) && seen == Seen(cloud)
      ensures old(Valid()) ==> Valid()
    {
      seen := {};
      for i := 0 to |cloud|
        invariant seen == Seen(cloud[..i])
        invariant Abs() == ObserveAll(old(Abs()), cloud[..i]) && (old(Valid()) ==> Valid())
      {
        var vm := cloud[i];
        assert cloud[..i + 1][..i] == cloud[..i];
        SeenSplit(cloud[..i + 1]);
        seen := seen + {vm.runnerName};
        ObserveAllShape(old(Abs()), cloud[..i]);
        if vm.runnerName !in deleted {
          if vm.runnerName !in runners {
            runners := runners[vm.runnerName := FreshEntry(vm, Unknown)];
          } else {
            var entry := runners[vm.runnerName];
            runners := runners[vm.runnerName := entry.(vm := vm.(runnerID := entry.vm.runnerID))];
          }
        }
      }
      assert cloud[..|cloud|] == cloud;
    }

    method TakeViews(seen: set<string>) returns (views: map<string, Entry>)
      ensures views == map n | n in runners :: View(runners[n], n in seen)
    {
      views := map[];
      var rest := runners.Keys;
      while rest != {}
        invariant rest <= runners.Keys
        invariant views.Keys == runners.Keys - rest
        invariant forall n :: n in views ==> views[n] == View(runners[n], n in seen)
        decreases |rest|
      {
        var name :| name in rest;
        rest := rest - {name};
        var entry := runners[name];
        if name !in seen {
          entry := entry.(vm := entry.vm.(power := NoPower));
        }
        views := views[name := entry];
      }
    }

    method PruneTombstones(seen: set<string>, now: int)
      modifies this
      ensures Abs() == Prune(old(Abs()), seen, now) && runners == old(runners)
    {
      ghost var tombstones := deleted;
      var buried := deleted.Keys;
      while buried != {}
        invariant buried <= deleted.Keys <= tombstones.Keys
        invariant forall n :: n in tombstones ==>
          (n in deleted <==> n in buried || n in seen || now - tombstones[n] <= TOMBSTONE_LIFE)
        invariant forall n :: n in deleted ==> deleted[n] == tombstones[n]
        invariant Abs() == old(Abs()).(deleted := deleted)
        decreases |buried|
      {
        var name :| name in buried;
        buried := buried - {name};
        if name !in seen && now - deleted[name] > TOMBSTONE_LIFE {
          deleted := deleted - {name};
        }
      }
    }

    method ReconcileCloud(cloud: seq<RunnerVM>, now: int) returns (views: map<string, Entry>)
      modifies this
      ensures Abs() == RunnerState.ReconcileCloud(old(Abs()), cloud, now)
      ensures old(Valid()) ==> Valid()
      ensures views == Snapshot(old(Abs()), cloud)
    {
      var seen := ObserveListing(cloud);
      views := TakeViews(seen);
      PruneTombstones(seen, now);
    }
  }
}

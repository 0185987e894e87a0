/** Azure as the Windows provisioning path sees it, for one VM name: the two
    network resources with their tags, the deployment, the VM, and a log of the
    events that cleanup safety speaks about. The deployment's true phase is
    never shown to the controller. */
module WindowsCloud {
  import opened Common

  type Tags = map<string, string>

  const MARKER := "runner-windows-deployment"
  const NOT_SUBMITTED := "not-submitted"
  const PENDING := "pending"
  const TERMINAL := "terminal"

  datatype Net = Nic | Ip

  datatype End = Succeeded | Failed | Canceled

  /** `InTransit` is a submission whose fate is open: it may be accepted later or
      never. `Refused` is an unambiguous rejection. */
  datatype Phase = Unsent | InTransit | Active | Ended(end: End) | Refused

  datatype Target = Machine | Network(n: Net)

  /** `done` is what the deletion reported. */
  datatype Event =
    | Submitted(nic: Option<Tags>, ip: Option<Tags>)
    | VmAppeared
    | Cleanup(phase: Phase, target: Target, done: bool)

  datatype World = World(
    nic: Option<Tags>, ip: Option<Tags>, phase: Phase, metadata: bool, vm: bool, log: seq<Event>)

  const EmptyWorld := World(None, None, Unsent, false, false, [])

  function At(w: World, n: Net): Option<Tags> {
    if n == Nic then w.nic else w.ip
  }

  function With(w: World, n: Net, t: Option<Tags>): World {
    if n == Nic then w.(nic := t) else w.(ip := t)
  }

  function MarkerOf(t: Tags): string {
    if MARKER in t then t[MARKER] else ""
  }

  predicate Marked(t: Option<Tags>, state: string) {
    t.Some? ==> MarkerOf(t.value) == state
  }

  predicate AllTerminal(w: World) {
    Marked(w.nic, TERMINAL) && Marked(w.ip, TERMINAL)
  }

  // ---- what happens without the controller ----

  /** An eviction takes the VM, and its network resources once the deployment ended. */
  datatype Gust = Accept | CreateVM | Finish(end: End) | EvictVM | EvictNet(n: Net)

  function Blow(w: World, g: Gust): World {
    match g
    case Accept => if w.phase.InTransit? then w.(phase := Active, metadata := true) else w
    case CreateVM => if w.phase.Active? then w.(vm := true, log := w.log + [VmAppeared]) else w
    case Finish(end) => if w.phase.Active? then w.(phase := Ended(end)) else w
    case EvictVM => if w.phase.Active? || w.phase.Ended? then w.(vm := false) else w
    case EvictNet(n) => if w.phase.Ended? then With(w, n, None) else w
  }

  function Blows(w: World, gs: seq<Gust>): World {
    if gs == [] then w else Blow(Blows(w, gs[..|gs| - 1]), gs[|gs| - 1])
  }

  // ---- safety ----

  predicate Final(p: Phase) {
    p.Unsent? || p.Ended? || p.Refused?
  }

  /** Every configured network resource carries the durable pending marker, and
      every tag but the marker is the ownership tag it was created with. */
  predicate Ready(nic: Option<Tags>, ip: Option<Tags>, publicIP: bool, own: Tags) {
    && nic.Some? && (publicIP ==> ip.Some?)
    && Marked(nic, PENDING) && Marked(ip, PENDING)
    && Owned(nic, own) && Owned(ip, own)
  }

  predicate Owned(t: Option<Tags>, own: Tags) {
    t.Some? ==> t.value - {MARKER} == own
  }

  ghost predicate SubmittedOnce(log: seq<Event>) {
    forall i, j :: 0 <= i < j < |log| ==> !(log[i].Submitted? && log[j].Submitted?)
  }

  ghost predicate SubmittedReady(log: seq<Event>, publicIP: bool, own: Tags) {
    forall i :: 0 <= i < |log| && log[i].Submitted? ==> Ready(log[i].nic, log[i].ip, publicIP, own)
  }

  ghost predicate CleanupFinal(log: seq<Event>) {
    && (forall i :: 0 <= i < |log| && log[i].Cleanup? ==> Final(log[i].phase))
    && (forall i, j :: 0 <= i < j < |log| && log[i].Cleanup? ==> log[j].Cleanup?)
  }

  /** A deletion of the VM has been reported done. */
  ghost predicate VmGone(log: seq<Event>) {
    exists i :: 0 <= i < |log| && log[i].Cleanup? && log[i].target.Machine? && log[i].done
  }

  /** Unless nothing was submitted, the network goes only after the VM. */
  ghost predicate MachineFirst(log: seq<Event>) {
    forall j :: 0 <= j < |log| && log[j].Cleanup? && log[j].target.Network? && log[j].phase != Unsent ==> VmGone(log[..j])
  }

  /** The deployment is submitted at most once, only over durable markers; the
      first cleanup comes after finality, nothing but cleanup follows it, and it
      takes the VM before its network. */
  ghost predicate Safe(log: seq<Event>, publicIP: bool, own: Tags) {
    SubmittedOnce(log) && SubmittedReady(log, publicIP, own) && CleanupFinal(log) && MachineFirst(log)
  }

  ghost predicate Sent(log: seq<Event>) {
    exists i :: 0 <= i < |log| && log[i].Submitted?
  }

  ghost predicate Cleaned(log: seq<Event>) {
    exists i :: 0 <= i < |log| && log[i].Cleanup?
  }

  // ---- the durable invariant ----

  predicate Markers(w: World, publicIP: bool) {
    && (!Final(w.phase) ==>
          w.nic.Some? && (publicIP ==> w.ip.Some?) && Marked(w.nic, PENDING) && Marked(w.ip, PENDING))
    && (w.phase != Unsent ==>
          && (w.nic.Some? ==> MarkerOf(w.nic.value) == PENDING || MarkerOf(w.nic.value) == TERMINAL)
          && (w.ip.Some? ==> MarkerOf(w.ip.value) == PENDING || MarkerOf(w.ip.value) == TERMINAL))
    && (w.phase.Ended? && !w.metadata ==> AllTerminal(w))
  }

  predicate Deployment(w: World) {
    && (w.metadata ==> w.phase.Active? || w.phase.Ended?)
    && (w.phase.Active? ==> w.metadata)
    && (w.vm ==> w.phase.Active? || w.phase.Ended?)
  }

  ghost predicate History(w: World, publicIP: bool, own: Tags) {
    && Safe(w.log, publicIP, own)
    && (w.phase != Unsent <==> Sent(w.log))
    && (Cleaned(w.log) ==> Final(w.phase))
  }

  /** Holds at every instant, so a crash can happen anywhere. */
  ghost predicate Inv(w: World, publicIP: bool, own: Tags) {
    Markers(w, publicIP) && Deployment(w) && Owned(w.nic, own) && Owned(w.ip, own) && History(w, publicIP, own)
  }

  /** Nothing can come of the deployment any more, and a fresh controller will
      be able to tell. */
  predicate Settled(w: World) {
    Final(w.phase) && (w.phase.Ended? ==> AllTerminal(w))
  }

  // ---- events and the log ----

  lemma AppendKeepsSafe(log: seq<Event>, e: Event, publicIP: bool, own: Tags)
    requires Safe(log, publicIP, own)
    requires e.Submitted? ==> !Sent(log) && Ready(e.nic, e.ip, publicIP, own)
    requires e.Cleanup? ==> Final(e.phase)
    requires !e.Cleanup? ==> !Cleaned(log)
    requires e.Cleanup? && e.target.Network? && e.phase != Unsent ==> VmGone(log)
    ensures Safe(log + [e], publicIP, own)
    ensures VmGone(log) || (e.Cleanup? && e.target.Machine? && e.done) ==> VmGone(log + [e])
    ensures Sent(log + [e]) <==> Sent(log) || e.Submitted?
    ensures Cleaned(log + [e]) <==> Cleaned(log) || e.Cleanup?
  {
    var l := log + [e];
    assert forall i :: 0 <= i < |log| ==> l[i] == log[i];
    assert l[|log|] == e;
    assert l[..|log|] == log;
    assert forall i :: 0 <= i < |log| ==> l[..i] == log[..i];
    assert VmGone(log) ==> VmGone(l) by {
      if VmGone(log) {
        var i :| 0 <= i < |log| && log[i].Cleanup? && log[i].target.Machine? && log[i].done;
        assert l[i].target.Machine?;
      }
    }
    assert Sent(log) ==> Sent(l) by {
      if Sent(log) {
        var i :| 0 <= i < |log| && log[i].Submitted?;
        assert l[i].Submitted?;
      }
    }
    assert Cleaned(log) ==> Cleaned(l) by {
      if Cleaned(log) {
        var i :| 0 <= i < |log| && log[i].Cleanup?;
        assert l[i].Cleanup?;
      }
    }
  }

  /** The cloud alone never breaks the invariant. */
  lemma GustKeepsInv(w: World, g: Gust, publicIP: bool, own: Tags)
    requires Inv(w, publicIP, own)
    ensures Inv(Blow(w, g), publicIP, own)
  {
    if g.CreateVM? && w.phase.Active? {
      AppendKeepsSafe(w.log, VmAppeared, publicIP, own);
    }
  }

  /** `b` is what `a` may have become while the controller was not looking. */
  ghost predicate Evolved(a: World, b: World) {
    exists gs: seq<Gust> :: b == Blows(a, gs)
  }

  lemma {:induction false} WeatherKeepsInv(w: World, gs: seq<Gust>, publicIP: bool, own: Tags)
    requires Inv(w, publicIP, own)
    ensures Inv(Blows(w, gs), publicIP, own)
  {
    if gs != [] {
      WeatherKeepsInv(w, gs[..|gs| - 1], publicIP, own);
      GustKeepsInv(Blows(w, gs[..|gs| - 1]), gs[|gs| - 1], publicIP, own);
    }
  }

  /** A final phase never changes by itself: no VM appears, nothing is logged, and
      resources can only vanish. */
  lemma {:induction false} FinalIsForever(w: World, gs: seq<Gust>)
    requires Final(w.phase)
    ensures var v := Blows(w, gs);
      && v.phase == w.phase && v.log == w.log && v.metadata == w.metadata
      && (v.vm ==> w.vm)
      && (v.nic == w.nic || (v.nic == None && w.phase.Ended?))
      && (v.ip == w.ip || (v.ip == None && w.phase.Ended?))
      && (Settled(w) ==> Settled(v))
  {
    if gs != [] {
      FinalIsForever(w, gs[..|gs| - 1]);
    }
  }

  /** Once cleanup has begun, no future of the cloud contains a new VM. */
  lemma NoVmAfterCleanup(w: World, gs: seq<Gust>, publicIP: bool, own: Tags)
    requires Inv(w, publicIP, own) && Cleaned(w.log)
    ensures Blows(w, gs).log == w.log
    ensures !w.vm ==> !Blows(w, gs).vm
  {
    FinalIsForever(w, gs);
  }

  /** Until the deployment ends, the network resources are out of the cloud's hands. */
  lemma {:induction false} UnsentIsStill(w: World, gs: seq<Gust>)
    requires w.phase.Unsent? || w.phase.Refused?
    ensures Blows(w, gs).nic == w.nic && Blows(w, gs).ip == w.ip && Blows(w, gs).phase == w.phase
    ensures Blows(w, gs).log == w.log && Blows(w, gs).metadata == w.metadata && Blows(w, gs).vm == w.vm
  {
    if gs != [] {
      UnsentIsStill(w, gs[..|gs| - 1]);
    }
  }

  /** Issuing a deletion over a settled deployment is safe, whether or not it
      takes effect. */
  lemma CleanupKeepsInv(w: World, v: World, target: Target, done: bool, publicIP: bool, own: Tags)
    requires Inv(w, publicIP, own) && Settled(w)
    requires target.Machine? || w.phase.Unsent? || VmGone(w.log)
    requires v == w.(nic := v.nic, ip := v.ip, vm := v.vm, log := w.log + [Cleanup(w.phase, target, done)])
    requires (v.nic == w.nic || v.nic == None) && (v.ip == w.ip || v.ip == None) && (v.vm ==> w.vm)
    ensures Inv(v, publicIP, own) && Settled(v)
    ensures VmGone(w.log) || (target.Machine? && done) ==> VmGone(v.log)
  {
    AppendKeepsSafe(w.log, Cleanup(w.phase, target, done), publicIP, own);
  }

  // ---- when a cleanup can finish ----

  predicate Releases(t: Option<Tags>, requireTerminal: bool) {
    t.Some? ==> MarkerOf(t.value) == TERMINAL || (MarkerOf(t.value) == NOT_SUBMITTED && !requireTerminal)
  }

  predicate MarkersAllow(w: World, requireTerminal: bool) {
    Releases(w.nic, requireTerminal) && Releases(w.ip, requireTerminal)
  }

  /** What lets a cleanup pass a deployment that stays invisible: this process
      knows the outcome, or the durable markers say so. A process that remembers
      an uncertain submission also needs to find at least one marker. */
  predicate Releasable(known: Option<bool>, w: World) {
    match known
    case Some(false) => true
    case Some(true) => (w.nic.Some? || w.ip.Some?) && MarkersAllow(w, true)
    case None => MarkersAllow(w, false)
  }

  /** What a cleanup needs while nothing else happens in the cloud. */
  predicate CanFinish(known: Option<bool>, w: World) {
    if w.metadata then w.phase.Ended? else Releasable(known, w)
  }

  /** Exactly when a controller without memory cannot finish in a still cloud: the
      deployment is running or open, or it never took effect and a network resource
      does not carry a releasing marker. */
  lemma RestartIsStuckExactlyWhen(w: World, publicIP: bool, own: Tags)
    requires Inv(w, publicIP, own)
    ensures !CanFinish(None, w) <==> !Final(w.phase) || (!w.phase.Ended? && !MarkersAllow(w, false))
  {
  }

  /** The state between the pending markers and the submission, as a crash leaves it. */
  function Unsubmitted(publicIP: bool, own: Tags): World {
    var tags := own[MARKER := PENDING];
    World(Some(tags), if publicIP then Some(tags) else None, Unsent, false, false, [])
  }

  lemma UnsubmittedIsAState(publicIP: bool, own: Tags)
    requires MARKER !in own
    ensures var w := Unsubmitted(publicIP, own); Inv(w, publicIP, own) && !MarkersAllow(w, false)
  {
    assert own[MARKER := PENDING] - {MARKER} == own;
  }

  /** What the assumption about evictions keeps out. Were the network resources of
      a running deployment to vanish, a process without memory that cannot see the
      deployment would pass its markers exactly when none is left, although a VM
      can still appear. */
  lemma EvictionBeforeTheEndMisleads(w: World, v: World, publicIP: bool, own: Tags)
    requires Inv(w, publicIP, own) && w.phase.Active? && v == w.(nic := v.nic, ip := v.ip)
    requires (v.nic == w.nic || v.nic == None) && (v.ip == w.ip || v.ip == None)
    ensures MarkersAllow(v, false) <==> v.nic == None && v.ip == None
    ensures !Final(v.phase) && Blow(v, CreateVM).vm
  {
  }
}

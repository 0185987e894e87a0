/** Windows Create and Delete for one VM name, written as the controller runs
    them: one Azure call at a time, any of which may fail, take effect without
    saying so, or be the last thing the process does. Before every call the
    cloud may have evolved and a concurrent listing may have recorded the name
    as uncertain. A `calm` cloud does none of that. */
module WindowsManager {
  import opened Common
  import opened WindowsCloud

  datatype Outcome = Success | Failure | Crashed

  datatype TagRead = Found(tags: Tags) | NotFound | ReadError | ReadCrash

  datatype Reading =
    | Missing
    | State(state: DeploymentState)
    | NoReading
    | ReadingCrash

  /** The lower-cased provisioning state; `Accepted` and `Running` can be cancelled. */
  datatype DeploymentState = EndedAs(end: End) | Blank | Cancellable | Transitional

  /** What the polling loop did, in order. */
  datatype PollStep = Polled(reading: Reading) | CancelSent

  /** Six misses in a row at the end of the loop. */
  predicate LastSixMissing(trace: seq<PollStep>) {
    |trace| >= 6 && forall i :: |trace| - 6 <= i < |trace| ==> trace[i] == Polled(Missing)
  }

  /** At most one cancellation, and only right after a cancellable state. */
  predicate CancelsProperly(trace: seq<PollStep>) {
    && (forall i :: 0 <= i < |trace| && trace[i] == CancelSent ==> i > 0 && trace[i - 1] == Polled(State(Cancellable)))
    && (forall i, j :: 0 <= i < j < |trace| ==> !(trace[i] == CancelSent && trace[j] == CancelSent))
  }

  /** Whenever a cancellable state was seen, the cancellation had been sent before
      or was sent next. */
  predicate CancelsPromptly(trace: seq<PollStep>) {
    forall i :: 0 <= i < |trace| ==> PromptAt(trace, i)
  }

  predicate PromptAt(trace: seq<PollStep>, i: nat)
    requires i < |trace|
  {
    trace[i] == Polled(State(Cancellable)) ==>
      CancelSent in trace[..i] || (i + 1 < |trace| && trace[i + 1] == CancelSent)
  }

  function Polls(trace: seq<PollStep>): nat {
    if trace == [] then 0 else Polls(trace[..|trace| - 1]) + if trace[|trace| - 1].Polled? then 1 else 0
  }

  lemma AppendPoll(trace: seq<PollStep>, r: Reading)
    requires CancelsProperly(trace)
    ensures CancelsProperly(trace + [Polled(r)])
    ensures CancelSent in trace + [Polled(r)] <==> CancelSent in trace
    ensures Polls(trace + [Polled(r)]) == Polls(trace) + 1
  {
    assert (trace + [Polled(r)])[..|trace|] == trace;
  }

  lemma AppendCancel(trace: seq<PollStep>)
    requires CancelsProperly(trace) && CancelSent !in trace
    requires trace != [] && trace[|trace| - 1] == Polled(State(Cancellable))
    ensures CancelsProperly(trace + [CancelSent]) && CancelSent in trace + [CancelSent]
    ensures Polls(trace + [CancelSent]) == Polls(trace)
  {
    assert (trace + [CancelSent])[..|trace|] == trace;
  }

  lemma StaysPrompt(trace: seq<PollStep>, r: Reading)
    requires CancelsPromptly(trace) && (r == State(Cancellable) ==> CancelSent in trace)
    ensures CancelsPromptly(trace + [Polled(r)])
  {
    var more := trace + [Polled(r)];
    forall i | 0 <= i < |more| ensures PromptAt(more, i) {
      if i < |trace| {
        assert more[..i] == trace[..i] && PromptAt(trace, i);
      } else {
        assert more[..i] == trace;
      }
    }
  }

  lemma CancelIsPrompt(trace: seq<PollStep>)
    requires CancelsPromptly(trace)
    ensures CancelsPromptly(trace + [Polled(State(Cancellable)), CancelSent])
  {
    var more := trace + [Polled(State(Cancellable)), CancelSent];
    forall i | 0 <= i < |more| ensures PromptAt(more, i) {
      if i < |trace| {
        assert more[..i] == trace[..i] && PromptAt(trace, i);
      }
    }
  }

  /** The last thing a successful loop saw. */
  ghost predicate SawTheEnd(trace: seq<PollStep>, cleanup: bool, phase: Phase) {
    trace != [] &&
    if trace[|trace| - 1] == Polled(Missing) then cleanup && LastSixMissing(trace)
    else phase.Ended? && trace[|trace| - 1] == Polled(State(EndedAs(phase.end)))
  }

  lemma StaysPromptInCleanup(trace: seq<PollStep>, r: Reading, cleanup: bool)
    requires cleanup ==> CancelsPromptly(trace)
    requires r != State(Cancellable)
    ensures cleanup ==> CancelsPromptly(trace + [Polled(r)])
  {
    if cleanup {
      StaysPrompt(trace, r);
    }
  }

  /** What the loop carries from one turn to the next. */
  predicate Polling(trace: seq<PollStep>, cleanup: bool, missingReads: nat, cancelSubmitted: bool) {
    && missingReads <= 5 && missingReads <= |trace|
    && (forall i :: |trace| - missingReads <= i < |trace| ==> trace[i] == Polled(Missing))
    && CancelsProperly(trace) && (CancelSent in trace <==> cleanup && cancelSubmitted)
    && (cleanup ==> CancelsPromptly(trace))
  }

  predicate Sends(cleanup: bool, cancelSubmitted: bool, state: DeploymentState) {
    cleanup && !cancelSubmitted && state == Cancellable
  }

  lemma CancelKeepsPolling(trace: seq<PollStep>, cleanup: bool, cancelSubmitted: bool, state: DeploymentState)
    requires Polling(trace, cleanup, 0, cancelSubmitted)
    ensures var seen := trace + [Polled(State(state))];
      if Sends(cleanup, cancelSubmitted, state) then Polling(seen + [CancelSent], cleanup, 0, true)
      else Polling(seen, cleanup, 0, cancelSubmitted)
  {
    var seen := trace + [Polled(State(state))];
    AppendPoll(trace, State(state));
    if Sends(cleanup, cancelSubmitted, state) {
      AppendCancel(seen);
      CancelIsPrompt(trace);
      assert seen + [CancelSent] == trace + [Polled(State(Cancellable)), CancelSent];
    } else if cleanup {
      StaysPrompt(trace, State(state));
    }
  }

  predicate Unfinished(trace: seq<PollStep>) {
    && trace != []
    && var last := trace[|trace| - 1];
       last == CancelSent || last == Polled(Missing) || last == Polled(State(Cancellable)) || last == Polled(State(Transitional))
  }

  /** One turn in a calm cloud. */
  predicate CalmTurn(w: World, known: Option<bool>, w': World, known': Option<bool>, go: bool, o: Outcome,
                     cleanup: bool, missingReads: nat, misses: nat)
  {
    && o != Crashed && w'.metadata == w.metadata && w'.phase == w.phase && (go ==> w' == w && known' == known)
    && (!w.metadata ==> (go <==> missingReads < 5) && (go ==> misses == missingReads + 1))
    && (!w.metadata && cleanup && !go ==> (o == Success <==> Releasable(known, w)))
    && (w.metadata ==> (go <==> !w.phase.Ended?))
    && (w.metadata && w.phase.Ended? ==> (o == Success <==> cleanup || w.phase == Ended(Succeeded)))
  }

  /** Why the polling loop stopped. `recorded` is how persisting the terminal
      markers went. */
  datatype Why =
    | Died
    | Unreadable
    | Stateless
    | EndSeen(end: End, recorded: Outcome)
    | SixMisses
    | CancelFailed
    | Expired

  /** What the loop must report, read off what it saw: an end that was recorded is a
      success exactly in cleanup or when the deployment succeeded, and it gives up
      early only for the reasons named. */
  predicate Explains(why: Why, trace: seq<PollStep>, cleanup: bool, patience: nat, o: Outcome) {
    && trace != []
    && var last := trace[|trace| - 1];
       match why
       case Died => last == Polled(ReadingCrash) && o == Crashed
       case Unreadable => last == Polled(NoReading) && o == Failure
       case Stateless => last == Polled(State(Blank)) && o == Failure
       case EndSeen(end, recorded) =>
         && last == Polled(State(EndedAs(end)))
         && o == (if recorded != Success then recorded else if cleanup || end == Succeeded then Success else Failure)
       case SixMisses => LastSixMissing(trace) && (!cleanup ==> o == Failure)
       case CancelFailed => last == CancelSent && o != Success
       case Expired => o == Failure && Polls(trace) == patience + 1 && Unfinished(trace)
  }

  /** A whole polling loop: what it did, why it stopped and what it reported. */
  datatype Story = Story(trace: seq<PollStep>, why: Why, waited: Outcome)

  /** How a Create went: the first read, the network, the polling, what was found
      out after a failure, and the cleanup. `nic` and `network` are failures only if
      the PUT of the NIC, or of any network resource, was answered so. */
  datatype Creation = Creation(access: Reading, nic: Outcome, network: Outcome, dropped: Option<Outcome>,
                               ran: Option<Story>, preempted: bool, alive: bool, cleaned: Option<Outcome>)

  datatype PutAnswer = PutOk | PutRejected | PutUncertain | PutCrash

  function Other(n: Net): Net {
    if n == Nic then Ip else Nic
  }

  class Cloud {
    const publicIP: bool
    const own: Tags
    const calm: bool
    var w: World

    constructor (publicIP: bool, own: Tags, calm: bool)
      ensures w == EmptyWorld && this.publicIP == publicIP && this.own == own && this.calm == calm
    {
      this.publicIP, this.own, this.calm := publicIP, own, calm;
      w := EmptyWorld;
    }
  }

  class Manager {
    const cloud: Cloud
    /** This name's entry in the submission map: true is uncertain, false is known
        not submitted, rejected or ended. */
    var known: Option<bool>

    constructor (cloud: Cloud)
      ensures this.cloud == cloud && known == None
    {
      this.cloud := cloud;
      known := None;
    }

    ghost predicate Valid()
      reads this, cloud
    {
      Inv(cloud.w, cloud.publicIP, cloud.own) && (known == Some(false) ==> Settled(cloud.w))
    }

    /** Nothing was ever accepted, and a network resource carries a marker that does
        not release it: this process does not know better. */
    ghost predicate Stuck()
      reads this, cloud
    {
      && (cloud.w.phase.Unsent? || cloud.w.phase.Refused?) && known != Some(false)
      && !MarkersAllow(cloud.w, false)
    }

    /** The process remembers an uncertain submission of which no trace is left. */
    ghost predicate Bereft()
      reads this, cloud
    {
      && Final(cloud.w.phase) && known == Some(true)
      && cloud.w.nic == None && cloud.w.ip == None && !cloud.w.metadata
    }

    ghost predicate Hopeless()
      reads this, cloud
    {
      Stuck() || Bereft()
    }

    twostate predicate NothingMoved()
      reads cloud
    {
      && cloud.w.log == old(cloud.w.log) && cloud.w.phase == old(cloud.w.phase)
      && cloud.w.nic == old(cloud.w.nic) && cloud.w.ip == old(cloud.w.ip)
    }

    /** What other activity may have done since the last call. */
    twostate predicate Later()
      reads this, cloud
    {
      && Evolved(old(cloud.w), cloud.w)
      && (known == old(known) || (old(known) == None && known == Some(true)))
      && (cloud.calm ==> cloud.w == old(cloud.w) && known == old(known))
    }

    /** Once final, only vanishing resources and a listing can be noticed. */
    twostate predicate Quiet()
      reads this, cloud
    {
      && cloud.w.phase == old(cloud.w.phase) && cloud.w.log == old(cloud.w.log)
      && cloud.w.metadata == old(cloud.w.metadata)
      && (cloud.w.vm ==> old(cloud.w.vm))
      && (cloud.w.nic == old(cloud.w.nic) || (cloud.w.nic == None && cloud.w.phase.Ended?))
      && (cloud.w.ip == old(cloud.w.ip) || (cloud.w.ip == None && cloud.w.phase.Ended?))
    }

    /** A listing of a live VM records the name unless something is known already. */
    method NoteListing()
      modifies this
      ensures known == (if old(known) == None then Some(true) else old(known))
    {
      if known == None {
        known := Some(true);
      }
    }

    method Pass()
      requires Valid()
      modifies cloud, this
      ensures Valid() && Later()
      ensures old(Final(cloud.w.phase)) ==> Quiet()
    {
      var gs: seq<Gust> := [];
      if !cloud.calm {
        gs := *;
        var listed: bool := *;
        if listed && known == None {
          known := Some(true);
        }
      }
      WeatherKeepsInv(cloud.w, gs, cloud.publicIP, cloud.own);
      if Final(cloud.w.phase) {
        FinalIsForever(cloud.w, gs);
      }
      ghost var before := cloud.w;
      cloud.w := Blows(cloud.w, gs);
      assert Evolved(before, cloud.w);
    }

    // ---- single Azure calls ----

    method GetTags(n: Net) returns (r: TagRead)
      requires Valid()
      modifies cloud, this
      ensures Valid() && Later()
      ensures old(Final(cloud.w.phase)) ==> Quiet()
      ensures r.Found? ==> At(cloud.w, n) == Some(r.tags)
      ensures r.NotFound? ==> At(cloud.w, n) == None
      ensures cloud.calm ==> r.Found? || r.NotFound?
    {
      Pass();
      var fails: bool, crashes: bool := *, *;
      if !cloud.calm && crashes {
        return ReadCrash;
      }
      if !cloud.calm && fails {
        return ReadError;
      }
      var t := At(cloud.w, n);
      r := if t.Some? then Found(t.value) else NotFound;
    }

    /** Only the marker may differ from the ownership tags, and only as the
        deployment's phase allows. */
    predicate MayMark(tags: Tags)
      reads this, cloud
    {
      && tags - {MARKER} == cloud.own
      && if MarkerOf(tags) == PENDING then cloud.w.phase.Unsent?
         else MarkerOf(tags) == TERMINAL && (cloud.w.phase.Ended? || cloud.w.phase.Refused?)
    }

    /** An accepted patch may still not have been applied. */
    method PatchTags(n: Net, tags: Tags) returns (o: Outcome)
      requires Valid() && MayMark(tags)
      modifies cloud, this
      ensures Valid() && Kept()
      ensures At(cloud.w, Other(n)) == old(At(cloud.w, Other(n))) || (At(cloud.w, Other(n)) == None && cloud.w.phase.Ended?)
      ensures cloud.calm && old(At(cloud.w, n)).Some? ==> o == Success && At(cloud.w, n) == Some(tags)
      ensures cloud.calm ==> known == old(known)
      ensures cloud.calm ==> At(cloud.w, Other(n)) == old(At(cloud.w, Other(n)))
    {
      Pass();
      var applied: bool, answer: Outcome := *, *;
      if cloud.calm {
        applied, answer := true, if At(cloud.w, n).Some? then Success else Failure;
      }
      if applied && At(cloud.w, n).Some? {
        cloud.w := With(cloud.w, n, Some(tags));
      }
      o := answer;
    }

    /** Marker writes leave the deployment alone. */
    twostate predicate Kept()
      reads this, cloud
    {
      && cloud.w.phase == old(cloud.w.phase) && cloud.w.log == old(cloud.w.log)
      && cloud.w.metadata == old(cloud.w.metadata) && (cloud.w.vm ==> old(cloud.w.vm))
      && (known == old(known) || (old(known) == None && known == Some(true)))
    }

    method GetDeployment() returns (r: Reading)
      requires Valid()
      modifies cloud, this
      ensures Valid() && Later()
      ensures old(Final(cloud.w.phase)) ==> Quiet()
      ensures r.State? && r.state.EndedAs? ==> cloud.w.phase == Ended(r.state.end) && cloud.w.metadata
      ensures r.State? ==> cloud.w.phase.Active? || cloud.w.phase.Ended?
      ensures old(Hopeless()) ==> Hopeless() && NothingMoved()
      ensures cloud.calm ==>
        if !cloud.w.metadata then r == Missing
        else if cloud.w.phase.Ended? then r == State(EndedAs(cloud.w.phase.end))
        else r == State(Cancellable) || r == State(Transitional)
    {
      Pass();
      var moving: bool := *;
      if !cloud.calm {
        var lag: bool, fails: bool, crashes: bool, blank: bool, stale: bool := *, *, *, *, *;
        if crashes {
          return ReadingCrash;
        }
        if fails {
          return NoReading;
        }
        if lag {
          return Missing;
        }
        if cloud.w.phase.Active? || cloud.w.phase.Ended? {
          if blank {
            return State(Blank);
          }
          if stale {
            return State(if moving then Transitional else Cancellable);
          }
        }
      }
      if !cloud.w.metadata {
        return Missing;
      }
      match cloud.w.phase
      case Ended(end) => r := State(EndedAs(end));
      case _ => r := State(if moving then Transitional else Cancellable);
    }

    /** Reaches the controller as a plain success or failure; what it does to the
        deployment is the cloud's business. */
    method CancelDeployment() returns (o: Outcome)
      requires Valid()
      modifies cloud, this
      ensures Valid() && Later()
      ensures old(Final(cloud.w.phase)) ==> Quiet()
      ensures cloud.calm ==> o == Success
    {
      Pass();
      var answer: Outcome := *;
      o := if cloud.calm then Success else answer;
    }

    // ---- markers ----

    /** The phase in which a marker may be written. */
    predicate Timely(state: string)
      reads cloud
    {
      if state == PENDING then cloud.w.phase.Unsent?
      else state == TERMINAL && (cloud.w.phase.Ended? || cloud.w.phase.Refused?)
    }

    /** A calm cloud changes tags, but neither makes nor removes a resource. */
    twostate predicate SameNetwork()
      reads cloud
    {
      (cloud.w.nic.Some? <==> old(cloud.w.nic).Some?) && (cloud.w.ip.Some? <==> old(cloud.w.ip).Some?)
    }

    /** Writes the marker beside the tags that were read, and reads it back. */
    method MarkAndReadBack(id: Net, tags: Tags, state: string) returns (o: Outcome)
      requires Valid() && Timely(state) && tags - {MARKER} == cloud.own
      modifies cloud, this
      ensures Valid() && Kept()
      ensures At(cloud.w, Other(id)) == old(At(cloud.w, Other(id))) || (At(cloud.w, Other(id)) == None && cloud.w.phase.Ended?)
      ensures o == Success ==> At(cloud.w, id).Some? && Marked(At(cloud.w, id), state)
      ensures cloud.calm && old(At(cloud.w, id)).Some? ==> o == Success && known == old(known) && SameNetwork()
    {
      var marked := tags[MARKER := state];
      assert marked - {MARKER} == tags - {MARKER};
      o := PatchTags(id, marked);
      if o != Success {
        return;
      }
      var raw := GetTags(id);
      match raw
      case ReadCrash => o := Crashed;
      case ReadError => o := Failure;
      case NotFound => o := Failure;
      case Found(observed) => o := if MarkerOf(observed) == state then Success else Failure;
    }

    /** Reads, marks and reads back one resource, if it exists. */
    method PersistOn(id: Net, state: string) returns (o: Outcome, found: bool)
      requires Valid() && Timely(state)
      modifies cloud, this
      ensures Valid() && Kept()
      ensures At(cloud.w, Other(id)) == old(At(cloud.w, Other(id))) || (At(cloud.w, Other(id)) == None && cloud.w.phase.Ended?)
      ensures o == Success ==> Marked(At(cloud.w, id), state)
      ensures o == Success && found && !cloud.w.phase.Ended? ==> At(cloud.w, id).Some?
      ensures cloud.calm ==> (found <==> At(cloud.w, id).Some?)
      ensures cloud.calm ==> o == Success && known == old(known) && SameNetwork()
    {
      found := false;
      var raw := GetTags(id);
      match raw
      case ReadCrash => return Crashed, false;
      case ReadError => return Failure, false;
      case NotFound => return Success, false;
      case Found(tags) =>
        o := MarkAndReadBack(id, tags, state);
        found := o == Success;
    }

    method Persist(state: string) returns (o: Outcome)
      requires Valid() && Timely(state)
      modifies cloud, this
      ensures Valid() && Kept()
      ensures o == Success && state == TERMINAL ==> AllTerminal(cloud.w)
      ensures o == Success && state == PENDING ==> Ready(cloud.w.nic, cloud.w.ip, cloud.publicIP, cloud.own)
      ensures cloud.calm && state == TERMINAL ==> o == Success && known == old(known)
      ensures cloud.calm && state == PENDING ==> (o == Success <==> cloud.w.nic.Some? && (cloud.publicIP ==> cloud.w.ip.Some?))
      ensures cloud.calm ==> SameNetwork() && o != Crashed
    {
      var nicFound, ipFound := false, false;
      var ids := [Nic, Ip];
      for i := 0 to |ids|
        invariant Valid() && Kept()
        invariant cloud.calm ==> known == old(known)
        invariant cloud.calm ==> SameNetwork() && (i >= 1 ==> (nicFound <==> cloud.w.nic.Some?)) && (i >= 2 ==> (ipFound <==> cloud.w.ip.Some?))
        invariant i >= 1 ==> Marked(cloud.w.nic, state) && (nicFound && !cloud.w.phase.Ended? ==> cloud.w.nic.Some?)
        invariant i >= 2 ==> Marked(cloud.w.ip, state) && (ipFound && !cloud.w.phase.Ended? ==> cloud.w.ip.Some?)
      {
        var id := ids[i];
        var found: bool;
        o, found := PersistOn(id, state);
        if o != Success {
          return;
        }
        if id == Nic {
          nicFound := found;
        }
        if id == Ip {
          ipFound := found;
        }
      }
      if state == PENDING && (!nicFound || (cloud.publicIP && !ipFound)) {
        return Failure;
      }
      o := Success;
    }

    /** May a cleanup without sight of the deployment trust the markers? */
    method CheckMarkers(requireTerminal: bool) returns (found: bool, o: Outcome)
      requires Valid()
      modifies cloud, this
      ensures Valid()
      ensures o == Success ==> Settled(cloud.w)
      ensures cloud.calm ==> cloud.w == old(cloud.w) && o != Crashed
      ensures cloud.calm ==> (o == Success <==> MarkersAllow(cloud.w, requireTerminal))
      ensures cloud.calm && o == Success ==> (found <==> cloud.w.nic.Some? || cloud.w.ip.Some?)
      ensures cloud.calm ==> known == if o == Success || old(known) != None then old(known) else Some(true)
      ensures old(Stuck()) ==> Stuck() && o != Success && NothingMoved()
      ensures old(Bereft()) ==> Bereft() && !found && NothingMoved()
    {
      found := false;
      var ids := [Nic, Ip];
      for i := 0 to |ids|
        invariant Valid()
        invariant cloud.calm ==> cloud.w == old(cloud.w) && known == old(known)
        invariant i >= 1 ==> Final(cloud.w.phase) && (cloud.w.phase.Ended? ==> Marked(cloud.w.nic, TERMINAL))
        invariant i >= 2 ==> (cloud.w.phase.Ended? ==> Marked(cloud.w.ip, TERMINAL))
        invariant cloud.calm && i >= 1 ==> Releases(cloud.w.nic, requireTerminal)
        invariant cloud.calm && i >= 2 ==> Releases(cloud.w.ip, requireTerminal)
        invariant cloud.calm ==> (found <==> (i >= 1 && cloud.w.nic.Some?) || (i >= 2 && cloud.w.ip.Some?))
        invariant old(Hopeless()) ==> NothingMoved()
        invariant old(Stuck()) ==> Stuck() && (i >= 1 ==> Releases(cloud.w.nic, false)) && (i >= 2 ==> Releases(cloud.w.ip, false))
        invariant old(Bereft()) ==> Bereft() && !found
      {
        var raw := GetTags(ids[i]);
        match raw
        case ReadCrash => return found, Crashed;
        case ReadError => return found, Failure;
        case NotFound =>
        case Found(tags) =>
          found := true;
          var marker := MarkerOf(tags);
          if !(marker == TERMINAL || (marker == NOT_SUBMITTED && !requireTerminal)) {
            if known == None {
              known := Some(true);
            }
            return found, Failure;
          }
      }
      o := Success;
    }

    // ---- the polling loop ----

    /** A sleep the context may cut short. */
    method Sleep(left: nat) returns (ok: bool, rest: nat)
      ensures ok == (left > 0) && (ok ==> rest == left - 1)
    {
      ok, rest := left > 0, if left > 0 then left - 1 else 0;
    }

    /** The part of the loop that handles five consecutive missing reads. */
    method AfterMissingReads(cleanup: bool) returns (o: Outcome)
      requires Valid()
      modifies cloud, this
      ensures Valid()
      ensures o == Success ==> known == Some(false) && cleanup
      ensures !cleanup ==> o == Failure
      ensures cloud.calm ==> cloud.w == old(cloud.w) && o != Crashed
      ensures cloud.calm && cleanup ==> (o == Success <==> Releasable(old(known), cloud.w))
      ensures old(Hopeless()) ==> Hopeless() && o != Success && NothingMoved()
    {
      if cleanup {
        var entry := known;
        if entry == Some(false) {
          return Success;
        }
        var found, checked := CheckMarkers(entry == Some(true));
        if checked != Success {
          return checked;
        }
        if entry == None || found {
          known := Some(false);
          return Success;
        }
      }
      o := Failure;
    }

    /** Makes an observed end durable before anything relies on it. */
    method RecordEnd(end: End, cleanup: bool) returns (o: Outcome, ghost recorded: Outcome)
      requires Valid() && cloud.w.phase == Ended(end)
      modifies cloud, this
      ensures Valid() && cloud.w.phase == Ended(end) && cloud.w.metadata == old(cloud.w.metadata)
      ensures o == Success ==> known == Some(false) && (cleanup || end == Succeeded)
      ensures recorded == Success ==> AllTerminal(cloud.w) && (o == Success <==> cleanup || end == Succeeded) && o != Crashed
      ensures recorded != Success ==> o == recorded
      ensures cloud.calm ==> recorded == Success
    {
      o := Persist(TERMINAL);
      recorded := o;
      if o != Success {
        return;
      }
      known := Some(false);
      if end != Succeeded && !cleanup {
        o := Failure;
      }
    }

    /** Cancels a running deployment during cleanup, unless that has been done. */
    method CancelOnce(cleanup: bool, submitted: bool, state: DeploymentState, ghost trace: seq<PollStep>)
      returns (o: Outcome, done: bool, ghost after: seq<PollStep>)
      requires Valid() && CancelsProperly(trace) && (CancelSent in trace <==> cleanup && submitted)
      requires trace != [] && trace[|trace| - 1] == Polled(State(state))
      modifies cloud, this
      ensures Valid() && Later()
      ensures old(Final(cloud.w.phase)) ==> Quiet()
      ensures CancelsProperly(after) && (CancelSent in after ==> cleanup && done)
      ensures if Sends(cleanup, submitted, state) then done && after == trace + [CancelSent]
              else done == submitted && after == trace && o == Success
      ensures Polls(after) == Polls(trace)
      ensures cloud.calm ==> o == Success
    {
      o, done, after := Success, submitted, trace;
      assert Blows(cloud.w, []) == cloud.w;
      if cleanup && !submitted && state == Cancellable {
        o := CancelDeployment();
        AppendCancel(trace);
        after := trace + [CancelSent];
        done := true;
      }
    }

    /** One turn of the loop, up to its sleep. */
    method PollOnce(cleanup: bool, missingReads: nat, cancelSubmitted: bool, ghost trace: seq<PollStep>, ghost patience: nat)
      returns (go: bool, o: Outcome, misses: nat, submitted: bool, ghost after: seq<PollStep>, ghost why: Why)
      requires Valid() && Polling(trace, cleanup, missingReads, cancelSubmitted)
      modifies cloud, this
      ensures Valid() && Polls(after) == Polls(trace) + 1
      ensures if go then Polling(after, cleanup, misses, submitted) && Unfinished(after) && o == Failure
              else Explains(why, after, cleanup, patience, o)
      ensures CancelsProperly(after) && (CancelSent in after ==> cleanup) && (cleanup ==> CancelsPromptly(after))
      ensures o == Success ==> known == Some(false) && SawTheEnd(after, cleanup, cloud.w.phase)
      ensures o == Success && !cleanup ==> cloud.w.phase == Ended(Succeeded)
      ensures cloud.calm ==> CalmTurn(old(cloud.w), old(known), cloud.w, known, go, o, cleanup, missingReads, misses)
      ensures old(Hopeless()) ==> Hopeless() && o != Success && NothingMoved()
    {
      misses, submitted := 0, cancelSubmitted;
      var r := GetDeployment();
      match r {
        case Missing =>
          go, o, misses, after, why := HandleMiss(cleanup, missingReads, cancelSubmitted, trace, patience);
        case State(state) =>
          go, o, submitted, after, why := HandleState(state, cleanup, cancelSubmitted, trace, patience);
        case NoReading =>
          go, o, after, why := false, Failure, trace + [Polled(r)], Unreadable;
          AppendPoll(trace, r);
          StaysPromptInCleanup(trace, r, cleanup);
        case ReadingCrash =>
          go, o, after, why := false, Crashed, trace + [Polled(r)], Died;
          AppendPoll(trace, r);
          StaysPromptInCleanup(trace, r, cleanup);
      }
    }

    /** The part of the turn that has not found the deployment. */
    method HandleMiss(cleanup: bool, missingReads: nat, cancelSubmitted: bool, ghost trace: seq<PollStep>, ghost patience: nat)
      returns (go: bool, o: Outcome, misses: nat, ghost after: seq<PollStep>, ghost why: Why)
      requires Valid() && Polling(trace, cleanup, missingReads, cancelSubmitted)
      requires cloud.calm ==> !cloud.w.metadata
      modifies cloud, this
      ensures Valid() && Polls(after) == Polls(trace) + 1
      ensures if go then Polling(after, cleanup, misses, cancelSubmitted) && Unfinished(after) && o == Failure
              else Explains(why, after, cleanup, patience, o)
      ensures CancelsProperly(after) && (CancelSent in after ==> cleanup) && (cleanup ==> CancelsPromptly(after))
      ensures o == Success ==> known == Some(false) && SawTheEnd(after, cleanup, cloud.w.phase) && cleanup
      ensures cloud.calm ==> CalmTurn(old(cloud.w), old(known), cloud.w, known, go, o, cleanup, missingReads, misses)
      ensures old(Hopeless()) ==> Hopeless() && o != Success && NothingMoved()
    {
      go, o, misses, why := false, Failure, missingReads, SixMisses;
      AppendPoll(trace, Missing);
      StaysPromptInCleanup(trace, Missing, cleanup);
      after := trace + [Polled(Missing)];
      if missingReads < 5 {
        go, misses := true, missingReads + 1;
        return;
      }
      o := AfterMissingReads(cleanup);
    }

    /** The part of the turn that has read a state. */
    method HandleState(state: DeploymentState, cleanup: bool, cancelSubmitted: bool, ghost trace: seq<PollStep>, ghost patience: nat)
      returns (go: bool, o: Outcome, submitted: bool, ghost after: seq<PollStep>, ghost why: Why)
      requires Valid() && Polling(trace, cleanup, 0, cancelSubmitted)
      requires state.EndedAs? ==> cloud.w.phase == Ended(state.end) && cloud.w.metadata
      requires cloud.calm ==> state.EndedAs? || (cloud.w.metadata && !cloud.w.phase.Ended? && state != Blank)
      requires cloud.w.phase.Active? || cloud.w.phase.Ended?
      modifies cloud, this
      ensures Valid() && Polls(after) == Polls(trace) + 1
      ensures if go then Polling(after, cleanup, 0, submitted) && Unfinished(after) && o == Failure
              else Explains(why, after, cleanup, patience, o)
      ensures CancelsProperly(after) && (CancelSent in after ==> cleanup) && (cleanup ==> CancelsPromptly(after))
      ensures o == Success ==> known == Some(false) && SawTheEnd(after, cleanup, cloud.w.phase)
      ensures o == Success && !cleanup ==> cloud.w.phase == Ended(Succeeded)
      ensures cloud.calm ==> CalmTurn(old(cloud.w), old(known), cloud.w, known, go, o, cleanup, 0, 0)
      ensures old(Hopeless()) ==> Hopeless() && o != Success && NothingMoved()
    {
      go, o, submitted, why := false, Failure, cancelSubmitted, Stateless;
      AppendPoll(trace, State(state));
      after := trace + [Polled(State(state))];
      if state != Cancellable {
        StaysPromptInCleanup(trace, State(state), cleanup);
      }
      match state {
        case EndedAs(end) =>
          ghost var recorded;
          o, recorded := RecordEnd(end, cleanup);
          why := EndSeen(end, recorded);
          return;
        case Blank =>
          return;
        case _ =>
      }
      CancelKeepsPolling(trace, cleanup, cancelSubmitted, state);
      var sent: Outcome;
      sent, submitted, after := CancelOnce(cleanup, cancelSubmitted, state, after);
      if sent != Success {
        o, why := sent, CancelFailed;
        return;
      }
      go := true;
    }

    method Wait(cleanup: bool, patience: nat) returns (o: Outcome, ghost trace: seq<PollStep>, ghost why: Why)
      requires Valid()
      modifies cloud, this
      ensures Valid()
      ensures Explains(why, trace, cleanup, patience, o)
      ensures o == Success ==> known == Some(false)
      ensures o == Success && !cleanup ==> cloud.w.phase == Ended(Succeeded)
      ensures o == Success ==> SawTheEnd(trace, cleanup, cloud.w.phase)
      ensures CancelsProperly(trace) && (CancelSent in trace ==> cleanup) && (cleanup ==> CancelsPromptly(trace))
      ensures cloud.calm ==> o != Crashed && cloud.w.metadata == old(cloud.w.metadata) && cloud.w.phase == old(cloud.w.phase)
      ensures cloud.calm && cleanup && patience >= 5 ==> (o == Success <==> CanFinish(old(known), old(cloud.w)))
      ensures cloud.calm && !cleanup && old(cloud.w.metadata && cloud.w.phase.Ended?) ==>
        (o == Success <==> cloud.w.phase == Ended(Succeeded))
      ensures old(Hopeless()) ==> Hopeless() && o != Success && NothingMoved()
    {
      var missingReads, cancelSubmitted, left := 0, false, patience;
      trace := [];
      while true
        invariant Valid()
        invariant Polling(trace, cleanup, missingReads, cancelSubmitted) && Polls(trace) == patience - left
        invariant cloud.calm ==> cloud.w == old(cloud.w) && known == old(known)
        invariant cloud.calm && !cloud.w.metadata ==> left == patience - missingReads
        invariant cloud.calm && cloud.w.metadata && cloud.w.phase.Ended? ==> trace == []
        invariant old(Hopeless()) ==> Hopeless() && NothingMoved()
        decreases left
      {
        var go: bool;
        go, o, missingReads, cancelSubmitted, trace, why := PollOnce(cleanup, missingReads, cancelSubmitted, trace, patience);
        if !go {
          return;
        }
        var slept: bool;
        slept, left := Sleep(left);
        if !slept {
          why := Expired;
          return;
        }
      }
    }

    // ---- cleanup ----

    /** What deletions leave behind: less of everything, in the same phase. */
    twostate predicate Dwindled()
      reads this, cloud
    {
      && Settled(cloud.w) && cloud.w.phase == old(cloud.w.phase)
      && (cloud.w.metadata ==> old(cloud.w.metadata)) && (cloud.w.vm ==> old(cloud.w.vm))
      && (cloud.w.nic == old(cloud.w.nic) || cloud.w.nic == None)
      && (cloud.w.ip == old(cloud.w.ip) || cloud.w.ip == None)
    }

    method DeleteMetadata() returns (o: Outcome)
      requires Valid() && Settled(cloud.w)
      modifies cloud, this
      ensures Valid() && Dwindled() && cloud.w.log == old(cloud.w.log)
      ensures known == old(known) || old(known) == None
      ensures o == Success ==> !cloud.w.metadata
      ensures cloud.calm ==> o == Success
    {
      Pass();
      var applied: bool, answer: Outcome := *, *;
      if cloud.calm {
        answer := Success;
      }
      if applied || answer == Success {
        cloud.w := cloud.w.(metadata := false);
      }
      o := answer;
    }

    method DeleteVM() returns (o: Outcome)
      requires Valid() && Settled(cloud.w)
      modifies cloud, this
      ensures Valid() && Dwindled()
      ensures known == old(known) || old(known) == None
      ensures o == Success ==> !cloud.w.vm && VmGone(cloud.w.log)
      ensures cloud.calm ==> o == Success
    {
      Pass();
      var applied: bool, answer: Outcome := *, *;
      if cloud.calm {
        answer := Success;
      }
      ghost var before := cloud.w;
      cloud.w := cloud.w.(log := cloud.w.log + [Cleanup(cloud.w.phase, Machine, answer == Success)]);
      if applied || answer == Success {
        cloud.w := cloud.w.(vm := false);
      }
      CleanupKeepsInv(before, cloud.w, Machine, answer == Success, cloud.publicIP, cloud.own);
      o := answer;
    }

    method DeleteNet(n: Net) returns (o: Outcome)
      requires Valid() && Settled(cloud.w)
      requires cloud.w.phase.Unsent? || VmGone(cloud.w.log)
      modifies cloud, this
      ensures Valid() && Dwindled()
      ensures known == old(known) || old(known) == None
      ensures cloud.w.phase.Unsent? || VmGone(cloud.w.log)
      ensures o == Success ==> At(cloud.w, n) == None
      ensures cloud.calm ==> o == Success
    {
      Pass();
      var applied: bool, answer: Outcome := *, *;
      if cloud.calm {
        answer := Success;
      }
      ghost var before := cloud.w;
      cloud.w := cloud.w.(log := cloud.w.log + [Cleanup(cloud.w.phase, Network(n), answer == Success)]);
      if applied || answer == Success {
        cloud.w := With(cloud.w, n, None);
      }
      CleanupKeepsInv(before, cloud.w, Network(n), answer == Success, cloud.publicIP, cloud.own);
      o := answer;
    }

    method Finish(patience: nat) returns (o: Outcome)
      requires Valid()
      modifies cloud, this
      ensures Valid()
      ensures o == Success ==> Settled(cloud.w) && !cloud.w.metadata && known == Some(false)
      ensures cloud.calm ==> cloud.w.phase == old(cloud.w.phase)
      ensures cloud.calm && patience >= 5 ==> (o == Success <==> CanFinish(old(known), old(cloud.w)))
      ensures old(Hopeless()) ==> Hopeless() && o != Success && NothingMoved()
    {
      ghost var trace, why;
      o, trace, why := Wait(true, patience);
      if o != Success {
        return;
      }
      o := DeleteMetadata();
    }

    /** Removes everything that belongs to the VM name, or says it could not.
        `Valid` carries the safety of every single request made on the way. What
        this process learned about the submission is forgotten only by a success. */
    method Delete(patience: nat) returns (o: Outcome, ghost finished: Outcome)
      requires Valid()
      modifies cloud, this
      ensures Valid()
      ensures o == Success ==>
        && Final(cloud.w.phase) && !cloud.w.vm && cloud.w.nic == None && cloud.w.ip == None && !cloud.w.metadata
        && known == None && CanFinish(known, cloud.w)
      ensures finished != Success ==> o == finished
      ensures finished == Success && o != Success ==> known == Some(false) && Settled(cloud.w) && !cloud.w.metadata
      ensures cloud.calm ==> cloud.w.phase == old(cloud.w.phase) && (finished == Success ==> o == Success)
      ensures cloud.calm && patience >= 5 ==> (o == Success <==> CanFinish(old(known), old(cloud.w)))
      ensures old(Hopeless()) ==> Hopeless() && o != Success && NothingMoved()
    {
      o := Finish(patience);
      finished := o;
      if o != Success {
        return;
      }
      o := DeleteVM();
      if o != Success {
        return;
      }
      o := DeleteNet(Nic);
      if o == Crashed {
        return;
      }
      var last := DeleteNet(Ip);
      if last != Success {
        o := last;
      }
      if o == Success {
        known := None;
      }
    }

    // ---- creation ----

    method PutNetwork(n: Net) returns (o: Outcome)
      requires Valid() && cloud.w.phase.Unsent? && MARKER !in cloud.own
      modifies cloud, this
      ensures Valid() && Kept()
      ensures At(cloud.w, Other(n)) == old(At(cloud.w, Other(n)))
      ensures o == Success ==> At(cloud.w, n) == Some(cloud.own[MARKER := NOT_SUBMITTED])
    {
      Pass();
      var applied: bool, answer: Outcome := *, *;
      var tags := cloud.own[MARKER := NOT_SUBMITTED];
      assert tags - {MARKER} == cloud.own;
      if applied || answer == Success {
        cloud.w := With(cloud.w, n, Some(tags));
      }
      o := answer;
    }

    /** The one request that may bring a VM into being. */
    method PutDeployment() returns (a: PutAnswer)
      requires Valid() && cloud.w.phase.Unsent? && !Cleaned(cloud.w.log) && known != Some(false)
      requires Ready(cloud.w.nic, cloud.w.ip, cloud.publicIP, cloud.own)
      modifies cloud, this
      ensures Valid() && !Cleaned(cloud.w.log)
      ensures a != PutCrash ==> Sent(cloud.w.log)
      ensures a == PutRejected <==> cloud.w.phase == Refused
      ensures (a == PutOk || a == PutUncertain) ==> !Final(cloud.w.phase)
      ensures cloud.calm ==> a != PutCrash
    {
      Pass();
      var sent: bool, answer: PutAnswer := *, *;
      if cloud.calm && answer == PutCrash {
        answer := PutOk;
      }
      if answer == PutCrash && !sent {
        return PutCrash;
      }
      var e := Submitted(cloud.w.nic, cloud.w.ip);
      AppendKeepsSafe(cloud.w.log, e, cloud.publicIP, cloud.own);
      var phase := if answer == PutRejected then Refused else if answer == PutOk then Active else InTransit;
      cloud.w := cloud.w.(log := cloud.w.log + [e], phase := phase, metadata := answer == PutOk);
      a := answer;
    }

    /** `ran` tells how the polling went, if the submission got that far. */
    method CreateRunnerVM(patience: nat) returns (o: Outcome, ghost ran: Option<Story>)
      requires Valid() && cloud.w.phase.Unsent? && !Cleaned(cloud.w.log)
      modifies cloud, this
      ensures Valid()
      ensures o == Success ==> Sent(cloud.w.log) && cloud.w.phase == Ended(Succeeded) && AllTerminal(cloud.w)
      ensures ran.Some? ==> Explains(ran.value.why, ran.value.trace, false, patience, ran.value.waited)
      ensures ran.Some? && ran.value.waited != Success ==> o == ran.value.waited
      ensures ran.Some? && ran.value.waited == Success ==> o != Failure
      ensures ran == None ==> o != Success && (o == Failure ==> Final(cloud.w.phase))
      ensures cloud.calm ==> o != Crashed
      ensures cloud.calm && old(cloud.w.nic.Some? && (cloud.publicIP ==> cloud.w.ip.Some?)) ==> Sent(cloud.w.log)
      ensures cloud.calm && cloud.w.phase == Refused ==> o == Failure && known == Some(false) && AllTerminal(cloud.w)
      ensures cloud.calm && o == Failure ==> (CanFinish(known, cloud.w) <==> Final(cloud.w.phase))
    {
      ran := None;
      known := Some(false);
      o := Persist(PENDING);
      if o != Success {
        return;
      }
      known := Some(true);
      var put := PutDeployment();
      if put == PutCrash {
        o := Crashed;
        return;
      }
      if put == PutRejected {
        known := Some(false);
        o := Persist(TERMINAL);
        o := if o == Crashed then Crashed else Failure;
        return;
      }
      ghost var trace, why;
      o, trace, why := Wait(false, patience);
      ran := Some(Story(trace, why, o));
      if o != Success {
        return;
      }
      var deferred := DeleteMetadata();
      o := if deferred == Crashed then Crashed else Success;
    }

    method VmExists() returns (alive: bool, crashed: bool)
      requires Valid()
      modifies cloud, this
      ensures Valid() && Later()
      ensures alive ==> cloud.w.vm && !crashed
      ensures cloud.calm ==> !crashed
    {
      Pass();
      var fails: bool, crashes: bool := *, *;
      crashed := crashes && !cloud.calm;
      alive := !crashed && !fails && cloud.w.vm;
    }

    /** Provisions one VM. A failure of the VM step is followed by the ordinary
        cleanup unless the VM turns out to exist after a preemption. */
    method Create(patience: nat, cleanupPatience: nat) returns (o: Outcome, ghost c: Creation)
      requires Valid() && cloud.w == EmptyWorld && MARKER !in cloud.own
      modifies cloud, this
      ensures Valid()
      ensures o == Success ==> Sent(cloud.w.log) && (cloud.w.phase == Ended(Succeeded) || cloud.w.vm)
      ensures c.access == NoReading ==> o == Failure && cloud.w.nic == None && cloud.w.ip == None && cloud.w.phase.Unsent?
      ensures c.nic == Failure ==> c.dropped.Some? && (c.dropped == Some(Success) ==> cloud.w.ip == None)
      ensures c.nic == Failure && cloud.calm ==> cloud.w.ip == None
      ensures c.ran.Some? ==> Explains(c.ran.value.why, c.ran.value.trace, false, patience, c.ran.value.waited)
      ensures c.ran.Some? && c.ran.value.waited == Success ==> o != Failure && c.cleaned == None
      ensures c.preempted && c.alive ==> o == Success && c.cleaned == None
      ensures o == Success ==> (c.ran.Some? && c.ran.value.waited == Success) || (c.preempted && c.alive)
      ensures o == Failure && c.access != NoReading && c.network == Success ==> c.cleaned.Some?
      ensures o == Failure && c.cleaned == None ==> cloud.w.phase.Unsent? && !cloud.w.vm
      ensures c.cleaned == Some(Success) ==>
        o == Failure && Final(cloud.w.phase) && !cloud.w.vm && cloud.w.nic == None && cloud.w.ip == None && known == None
      ensures cloud.calm && c.network == Success && c.access != NoReading ==> Sent(cloud.w.log)
      ensures cloud.calm && cleanupPatience >= 5 && c.cleaned.Some? ==> (c.cleaned == Some(Success) <==> Final(cloud.w.phase))
      ensures cloud.calm && cleanupPatience >= 5 && cloud.w.phase == Refused ==>
        o == Failure && cloud.w.nic == None && cloud.w.ip == None && !cloud.w.vm && known == None
    {
      c := Creation(Missing, Success, Success, None, None, false, false, None);
      var access := GetDeployment();
      c := c.(access := access);
      if access == ReadingCrash {
        o := Crashed;
        return;
      }
      if access == NoReading {
        o := Failure;
        return;
      }
      ghost var nic, dropped;
      o, nic, dropped := PutNetworks();
      c := c.(network := o, nic := nic, dropped := dropped);
      if o != Success {
        return;
      }
      ghost var machine;
      o, machine := CreateMachine(patience, cleanupPatience);
      c := c.(ran := machine.ran, preempted := machine.preempted, alive := machine.alive, cleaned := machine.cleaned);
    }

    /** The network resources of the VM; a failing NIC takes the public IP back. */
    method PutNetworks() returns (o: Outcome, ghost nic: Outcome, ghost dropped: Option<Outcome>)
      requires Valid() && cloud.w.phase.Unsent? && MARKER !in cloud.own && !Cleaned(cloud.w.log)
      modifies cloud, this
      ensures Valid() && cloud.w.phase.Unsent? && cloud.w.metadata == old(cloud.w.metadata) && (cloud.w.vm ==> old(cloud.w.vm))
      ensures o == Success ==> cloud.w.nic.Some? && (cloud.publicIP ==> cloud.w.ip.Some?) && !Cleaned(cloud.w.log)
      ensures nic != Success ==> o == nic || dropped == Some(Crashed)
      ensures nic == Failure ==> dropped.Some? && (dropped == Some(Success) ==> cloud.w.ip == None)
      ensures nic == Failure && cloud.calm ==> dropped == Some(Success)
    {
      nic, dropped := Success, None;
      if cloud.publicIP {
        o := PutNetwork(Ip);
        if o != Success {
          return;
        }
      }
      o := PutNetwork(Nic);
      if o != Success {
        nic := o;
        if o == Failure {
          var deleted := DeleteNet(Ip);
          dropped := Some(deleted);
          o := if deleted == Crashed then Crashed else Failure;
        }
      }
    }

    /** The VM step and what follows its failure. */
    method CreateMachine(patience: nat, cleanupPatience: nat) returns (o: Outcome, ghost c: Creation)
      requires Valid() && cloud.w.phase.Unsent? && !Cleaned(cloud.w.log)
      modifies cloud, this
      ensures Valid()
      ensures o == Success ==> Sent(cloud.w.log) && (cloud.w.phase == Ended(Succeeded) || cloud.w.vm)
      ensures c.ran.Some? ==> Explains(c.ran.value.why, c.ran.value.trace, false, patience, c.ran.value.waited)
      ensures c.ran.Some? && c.ran.value.waited == Success ==> o != Failure && c.cleaned == None
      ensures c.preempted && c.alive ==> o == Success && c.cleaned == None
      ensures o == Success ==> (c.ran.Some? && c.ran.value.waited == Success) || (c.preempted && c.alive)
      ensures o == Failure ==> c.cleaned.Some?
      ensures c.cleaned == Some(Success) ==>
        o == Failure && Final(cloud.w.phase) && !cloud.w.vm && cloud.w.nic == None && cloud.w.ip == None && known == None
      ensures cloud.calm && old(cloud.w.nic.Some? && (cloud.publicIP ==> cloud.w.ip.Some?)) ==> Sent(cloud.w.log)
      ensures cloud.calm && cleanupPatience >= 5 && c.cleaned.Some? ==> (c.cleaned == Some(Success) <==> Final(cloud.w.phase))
      ensures cloud.calm && cleanupPatience >= 5 && cloud.w.phase == Refused ==> c.cleaned == Some(Success)
    {
      c := Creation(Missing, Success, Success, None, None, false, false, None);
      ghost var ran;
      o, ran := CreateRunnerVM(patience);
      c := c.(ran := ran);
      if o == Failure {
        var preempted: bool := *;
        if preempted {
          var alive, crashed := VmExists();
          c := c.(preempted := true, alive := alive);
          if crashed {
            o := Crashed;
            return;
          }
          if alive {
            o := Success;
            return;
          }
        }
        var cleanup;
        ghost var finished;
        cleanup, finished := Delete(cleanupPatience);
        c := c.(cleaned := Some(cleanup));
        o := if cleanup == Crashed then Crashed else Failure;
      }
    }
  }

  /** The whole life of one VM name: created once by one process, then deleted
      and retried any number of times, by that process or by successors that
      start without memory after a crash anywhere. */
  method Lifetime(cloud: Cloud, rounds: nat)
    requires cloud.w == EmptyWorld && MARKER !in cloud.own
    modifies cloud
    ensures Inv(cloud.w, cloud.publicIP, cloud.own) && Safe(cloud.w.log, cloud.publicIP, cloud.own)
    ensures Cleaned(cloud.w.log) ==> Final(cloud.w.phase) && forall gs :: Blows(cloud.w, gs).log == cloud.w.log
  {
    var m := new Manager(cloud);
    var patience: nat, extra: nat := *, *;
    ghost var creation;
    var o: Outcome;
    o, creation := m.Create(patience, extra);
    for i := 0 to rounds
      invariant m.cloud == cloud && m.Valid() && fresh(m)
    {
      var restart: bool, next: nat := *, *;
      if o == Crashed || restart {
        m := new Manager(cloud);
      }
      ghost var finished;
      o, finished := m.Delete(next);
    }
    if Cleaned(cloud.w.log) {
      forall gs ensures Blows(cloud.w, gs).log == cloud.w.log {
        NoVmAfterCleanup(cloud.w, gs, cloud.publicIP, cloud.own);
      }
    }
  }

  // ---- restarts ----

  /** A process that starts from nothing while the cloud is still finishes a cleanup
      exactly when the deployment has ended, or never took effect and no marker
      holds the network back; then nothing is left. */
  method RestartAndDelete(cloud: Cloud, patience: nat) returns (o: Outcome)
    requires Inv(cloud.w, cloud.publicIP, cloud.own) && cloud.calm && patience >= 5
    modifies cloud
    ensures Inv(cloud.w, cloud.publicIP, cloud.own) && cloud.w.phase == old(cloud.w.phase)
    ensures o == Success <==>
      old(cloud.w.phase.Ended? || ((cloud.w.phase.Unsent? || cloud.w.phase.Refused?) && MarkersAllow(cloud.w, false)))
    ensures o == Success ==> !cloud.w.vm && cloud.w.nic == None && cloud.w.ip == None && !cloud.w.metadata
  {
    RestartIsStuckExactlyWhen(cloud.w, cloud.publicIP, cloud.own);
    var m := new Manager(cloud);
    ghost var finished;
    o, finished := m.Delete(patience);
  }

  /** Deleting again after a success succeeds again and leaves nothing, whether by
      the same process or by a successor. */
  method DeleteTwice(m: Manager, patience: nat, restart: bool) returns (first: Outcome, second: Outcome)
    requires m.Valid() && m.cloud.calm && patience >= 5
    modifies m, m.cloud
    ensures first == Success ==> second == Success
    ensures first == Success ==> !m.cloud.w.vm && m.cloud.w.nic == None && m.cloud.w.ip == None && !m.cloud.w.metadata
  {
    ghost var finished;
    first, finished := m.Delete(patience);
    var next := m;
    if restart {
      next := new Manager(m.cloud);
      RestartIsStuckExactlyWhen(m.cloud.w, m.cloud.publicIP, m.cloud.own);
    }
    second, finished := next.Delete(patience);
  }

  /** A network resource with an unreleasing marker blocks cleanup for good when the
      submission never took effect: whatever the cloud does and however often the
      controller restarts, no process that starts from here ever succeeds, and
      nothing is deleted. */
  method BlockedForGood(cloud: Cloud, rounds: nat) returns (outcomes: seq<Outcome>)
    requires Inv(cloud.w, cloud.publicIP, cloud.own)
    requires (cloud.w.phase.Unsent? || cloud.w.phase.Refused?) && !MarkersAllow(cloud.w, false)
    modifies cloud
    ensures |outcomes| == rounds && Success !in outcomes
    ensures cloud.w.log == old(cloud.w.log) && !MarkersAllow(cloud.w, false)
  {
    var m := new Manager(cloud);
    outcomes := [];
    for i := 0 to rounds
      invariant m.cloud == cloud && m.Valid() && fresh(m) && m.Stuck()
      invariant cloud.w.log == old(cloud.w.log) && |outcomes| == i && Success !in outcomes
    {
      var restart: bool, patience: nat := *, *;
      if restart {
        m := new Manager(cloud);
      }
      ghost var finished;
      var o: Outcome;
      o, finished := m.Delete(patience);
      outcomes := outcomes + [o];
    }
  }

  /** A crash between the pending markers and the submission is such a state. */
  method CrashBeforeSubmissionBlocks(publicIP: bool, own: Tags, calm: bool, rounds: nat) returns (outcomes: seq<Outcome>)
    requires MARKER !in own
    ensures |outcomes| == rounds && Success !in outcomes
  {
    var cloud := new Cloud(publicIP, own, calm);
    cloud.w := Unsubmitted(publicIP, own);
    UnsubmittedIsAState(publicIP, own);
    outcomes := BlockedForGood(cloud, rounds);
  }

  /** A process that remembers an uncertain submission without a trace of it never
      succeeds while it lives, whatever the cloud does. */
  method RememberingBlocks(m: Manager, rounds: nat) returns (outcomes: seq<Outcome>)
    requires m.Valid() && m.Bereft()
    modifies m, m.cloud
    ensures m.Valid() && m.Bereft() && m.cloud.w.log == old(m.cloud.w.log)
    ensures |outcomes| == rounds && Success !in outcomes
  {
    outcomes := [];
    for i := 0 to rounds
      invariant m.Valid() && m.Bereft() && m.cloud.w.log == old(m.cloud.w.log)
      invariant |outcomes| == i && Success !in outcomes
    {
      var patience: nat := *;
      ghost var finished;
      var o: Outcome;
      o, finished := m.Delete(patience);
      outcomes := outcomes + [o];
    }
  }

  /** How a process gets there: it lists a VM whose deployment ended long ago, and
      the VM is evicted with its network. */
  method EvictedAfterAdoption(cloud: Cloud) returns (m: Manager)
    requires Inv(cloud.w, cloud.publicIP, cloud.own) && cloud.w.phase.Ended? && !cloud.w.metadata
    modifies cloud
    ensures fresh(m) && m.cloud == cloud && m.Valid() && m.Bereft()
    ensures Evolved(old(cloud.w), cloud.w) && !cloud.w.vm
  {
    m := new Manager(cloud);
    m.NoteListing();
    var gs := [EvictVM, EvictNet(Nic), EvictNet(Ip)];
    WeatherKeepsInv(cloud.w, gs, cloud.publicIP, cloud.own);
    EvictionEmpties(cloud.w);
    ghost var before := cloud.w;
    cloud.w := Blows(cloud.w, gs);
    assert Evolved(before, cloud.w);
  }

  lemma EvictionEmpties(w: World)
    requires w.phase.Ended?
    ensures Blows(w, [EvictVM, EvictNet(Nic), EvictNet(Ip)]) == w.(vm := false, nic := None, ip := None)
  {
    var a, b, c := EvictVM, EvictNet(Nic), EvictNet(Ip);
    assert [a, b, c][..2] == [a, b] && [a, b][..1] == [a] && [a][..0] == [];
    assert Blows(w, [a]) == w.(vm := false);
    assert Blows(w, [a, b]) == w.(vm := false, nic := None);
  }
}

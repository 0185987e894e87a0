/** The demand counters of a pool: the closed form of the completion
    correction, and a ledger of individual completions that the counters refine. */
module Demand {
  import opened Common
  import opened RunnerState

  /** Assigned jobs whose completion this process has not seen. */
  function Target(s: State): int {
    s.jobs - s.completedPending
  }

  predicate DemandOk(s: State) {
    0 <= s.completedPending <= s.jobs && 0 <= s.desired
  }

  /** A stale count lowers the target only as far as itself and raises it by
      the rise; fresh statistics discard the correction. The new target is
      always the unclipped demand. */
  lemma UpdateClosedForm(s: State, count: int, cap: int)
    requires DemandOk(s)
    ensures var n, t := Max(0, count), UpdateDesired(s, count, cap);
      && DemandOk(t)
      && Target(t) == (if n < s.jobs then Min(Target(s), n) else Target(s) + (n - s.jobs))
      && t.desired == (if cap > 0 then Min(cap, Target(t)) else Target(t))
      && t.runners == s.runners && t.deleted == s.deleted
  {
  }

  lemma CompletionClosedForm(s: State, name: string)
    requires DemandOk(s)
    ensures var t := MarkCompleted(s, name);
      && DemandOk(t) && t.jobs == s.jobs
      && Target(t) == (if CountsCompletion(s, name) then Max(0, Target(s) - 1) else Target(s))
      && (CountsCompletion(s, name) ==> t.desired == Min(s.desired, Target(t)))
      && (!CountsCompletion(s, name) ==> t == s)
      && !CountsCompletion(t, name)
  {
  }

  lemma FreshStatisticsDropTheCorrection(s: State, count: int)
    requires DemandOk(s)
    ensures var t := ObserveStatistics(s, count);
      && DemandOk(t) && Target(t) == Max(0, count) && t.completedPending == 0
      && t.desired == s.desired && t.runners == s.runners && t.deleted == s.deleted
  {
  }

  // ---- one snapshot, replayed ----

  /** Between two fresh statistics the same count may be replayed any number of
      times, mixed with completions. */
  datatype Report = Replay | Completed(name: string)

  function Hear(s: State, count: int, cap: int, r: Report): State {
    match r
    case Replay => UpdateDesired(s, count, cap)
    case Completed(name) => MarkCompleted(s, name)
  }

  function HearAll(s: State, count: int, cap: int, reports: seq<Report>): State {
    if reports == [] then ObserveStatistics(s, count)
    else Hear(HearAll(s, count, cap, reports[..|reports| - 1]), count, cap, reports[|reports| - 1])
  }

  /** How many of the reports were completions that counted. */
  function Corrections(s: State, count: int, cap: int, reports: seq<Report>): nat {
    if reports == [] then 0 else
      var front, last := reports[..|reports| - 1], reports[|reports| - 1];
      Corrections(s, count, cap, front) +
      if last.Completed? && CountsCompletion(HearAll(s, count, cap, front), last.name) then 1 else 0
  }

  /** Replays neither lose nor repeat a correction: after any mixture the target
      is the snapshot less the completions that counted, and a replay asks for
      exactly that, clipped by the cap. */
  lemma {:induction false} ReplaysKeepTheCorrection(s: State, count: int, cap: int, reports: seq<Report>)
    requires DemandOk(s)
    ensures var t := HearAll(s, count, cap, reports);
      && DemandOk(t) && t.jobs == Max(0, count)
      && Target(t) == Max(0, Max(0, count) - Corrections(s, count, cap, reports))
      && (reports != [] && reports[|reports| - 1].Replay? ==> t.desired == Clip(Target(t), cap))
  {
    if reports == [] {
      FreshStatisticsDropTheCorrection(s, count);
    } else {
      var front, last := reports[..|reports| - 1], reports[|reports| - 1];
      ReplaysKeepTheCorrection(s, count, cap, front);
      var before := HearAll(s, count, cap, front);
      HearOneMore(before, count, cap, last);
    }
  }

  lemma HearOneMore(t: State, count: int, cap: int, r: Report)
    requires DemandOk(t) && t.jobs == Max(0, count)
    ensures var t' := Hear(t, count, cap, r);
      && DemandOk(t') && t'.jobs == t.jobs
      && Target(t') == (if r.Completed? && CountsCompletion(t, r.name) then Max(0, Target(t) - 1) else Target(t))
      && (r.Replay? ==> t'.desired == Clip(Target(t'), cap))
  {
    match r
    case Replay => UpdateClosedForm(t, count, cap);
    case Completed(name) => CompletionClosedForm(t, name);
  }

  // ---- the ledger ----

  /** Where each counted completion stands: still correcting the demand,
      acknowledged by a falling count, in excess of the assigned jobs when it
      arrived, or overtaken by fresh statistics. */
  datatype Ledger = Ledger(pending: seq<string>, acked: seq<string>, surplus: seq<string>, overtaken: seq<string>)

  const EmptyLedger := Ledger([], [], [], [])

  function Entries(l: Ledger): multiset<string> {
    multiset(l.pending) + multiset(l.acked) + multiset(l.surplus) + multiset(l.overtaken)
  }

  function LedgerFresh(l: Ledger): Ledger {
    l.(overtaken := l.overtaken + l.pending, pending := [])
  }

  /** A count that fell by `drop` acknowledges the oldest `drop` completions. */
  function LedgerStale(l: Ledger, drop: nat): Ledger {
    var k := Min(|l.pending|, drop);
    l.(acked := l.acked + l.pending[..k], pending := l.pending[k..])
  }

  function LedgerCompletion(l: Ledger, name: string, room: bool): Ledger {
    if room then l.(pending := l.pending + [name]) else l.(surplus := l.surplus + [name])
  }

  predicate Agrees(s: State, l: Ledger) {
    DemandOk(s) && s.completedPending == |l.pending|
  }

  lemma FreshAgrees(s: State, l: Ledger, count: int)
    requires Agrees(s, l)
    ensures Agrees(ObserveStatistics(s, count), LedgerFresh(l))
    ensures Entries(LedgerFresh(l)) == Entries(l)
  {
  }

  /** The saturating subtraction acknowledges whole completions, never the same
      one twice. */
  lemma StaleAgrees(s: State, l: Ledger, count: int, cap: int)
    requires Agrees(s, l)
    ensures var l' := LedgerStale(l, Max(0, s.jobs - Max(0, count)));
      && Agrees(UpdateDesired(s, count, cap), l')
      && Entries(l') == Entries(l)
  {
    var k := Min(|l.pending|, Max(0, s.jobs - Max(0, count)));
    assert l.pending == l.pending[..k] + l.pending[k..];
  }

  lemma CompletionAgrees(s: State, l: Ledger, name: string)
    requires Agrees(s, l) && CountsCompletion(s, name)
    ensures var l' := LedgerCompletion(l, name, s.completedPending < s.jobs);
      && Agrees(MarkCompleted(s, name), l')
      && Entries(l') == Entries(l) + multiset{name}
  {
  }
}

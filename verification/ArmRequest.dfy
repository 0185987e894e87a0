/** One Azure management request with its retries and the polling of an accepted
    operation. The remote side is an arbitrary script: `wire(n)` is what happens
    at the n-th exchange, so a statement for every `wire` is one about every
    behaviour of Azure. Waiting consumes `patience`, the seconds until the
    context ends. */
module ArmRequest {
  import opened Common

  datatype Verb = Get | Put | Patch | Delete | Post

  datatype Body = Empty | Unparsable | Operation(status: Status)

  datatype Status = Blank | Succeeded | Failed | Canceled | Ongoing

  datatype Reply = Reply(status: int, operationURL: string, retryAfter: Option<int>, body: Body)

  datatype Exchange =
    | NoToken
    | Unbuildable
    | Lost
    | Unread
    | Answer(reply: Reply)

  datatype Error =
    | TokenError
    | BuildError
    | TransportError
    | ReadError
    | Cancelled
    | HttpError(verb: Verb, status: int)
    | PollError(inner: Error)
    | DecodeError
    | OperationError
    | Exhausted

  /** The HTTP failure that `errors.As` finds in a chain of wrapped errors. */
  function HttpCause(e: Error): Option<(Verb, int)> {
    match e
    case HttpError(verb, status) => Some((verb, status))
    case PollError(inner) => HttpCause(inner)
    case _ => None
  }

  const MAX_ATTEMPTS := 5

  function Attempts(retry: bool): nat {
    if retry then MAX_ATTEMPTS else 1
  }

  function Power2(n: nat): (p: nat)
    ensures p >= 1
  {
    if n == 0 then 1 else 2 * Power2(n - 1)
  }

  /** Whole seconds, whatever the server asks for. */
  function RetryDelay(retryAfter: Option<int>, attempt: nat): (seconds: nat)
    ensures 1 <= seconds <= 60
    ensures retryAfter.Some? && 1 <= retryAfter.value <= 60 ==> seconds == retryAfter.value
  {
    if retryAfter.Some? && 0 < retryAfter.value <= 60 then retryAfter.value
    else
      assert Power2(0) == 1 && Power2(1) == 2 && Power2(2) == 4;
      assert Power2(3) == 8 && Power2(4) == 16 && Power2(5) == 32;
      Power2(Min(attempt, 5))
  }

  /** Without a usable wish the delays double from one second up to 32. */
  lemma BackoffDoubles(attempt: nat)
    ensures RetryDelay(None, 0) == 1
    ensures attempt < 5 ==> RetryDelay(None, attempt + 1) == 2 * RetryDelay(None, attempt)
    ensures attempt >= 5 ==> RetryDelay(None, attempt) == 32
  {
    assert Power2(0) == 1 && Power2(1) == 2 && Power2(2) == 4;
    assert Power2(3) == 8 && Power2(4) == 16 && Power2(5) == 32;
  }

  /** A wish of no or of more than sixty seconds counts as none. */
  lemma UnusableWishIsIgnored(wish: int, attempt: nat)
    requires wish <= 0 || wish > 60
    ensures RetryDelay(Some(wish), attempt) == RetryDelay(None, attempt)
  {
  }

  /** Azure has taken the request on, or may have: only polling is safe now. */
  predicate TakenOn(x: Exchange, accepted: seq<int>) {
    && x.Answer? && x.reply.status != 404
    && x.reply.operationURL != "" && (x.reply.status in accepted || x.reply.status >= 500)
  }

  /** What the loop answers with another attempt, if one is left. */
  predicate Retryable(x: Exchange, accepted: seq<int>) {
    x.Lost? || (x.Answer? && !TakenOn(x, accepted) && (x.reply.status == 429 || x.reply.status >= 500))
  }

  /** The pause before the next attempt; never more than a minute. */
  function PauseAfter(x: Exchange, attempt: nat): (seconds: nat)
    ensures attempt < MAX_ATTEMPTS ==> 1 <= seconds <= 60
    ensures x == Lost ==> seconds == attempt + 1
  {
    if x.Answer? then RetryDelay(x.reply.retryAfter, attempt) else attempt + 1
  }

  /** Polling answers that end an accepted operation. */
  predicate SaysDone(x: Exchange) {
    x.Answer? && (x.reply.body == Empty || x.reply.body == Operation(Blank) || x.reply.body == Operation(Succeeded))
  }

  predicate SaysFailed(x: Exchange) {
    x.Answer? && (x.reply.body == Operation(Failed) || x.reply.body == Operation(Canceled))
  }

  /** An answer that says the request itself was turned down. */
  predicate TurnsDown(x: Exchange, accepted: seq<int>) {
    && x.Answer? && 400 <= x.reply.status < 500
    && (x.reply.status == 404 || x.reply.status !in accepted)
    && x.reply.status != 408 && x.reply.status != 409 && x.reply.status != 429
  }

  /** How the deployment submission recognises a rejection of its PUT. */
  predicate CountsAsRejection(r: Result<Body, Error>) {
    && r.Err? && HttpCause(r.error).Some?
    && var (verb, status) := HttpCause(r.error).value;
       verb == Put && 400 <= status < 500 && status != 408 && status != 409 && status != 429
  }

  method SleepContext(left: nat, seconds: nat) returns (ok: bool, rest: nat)
    requires seconds >= 1
    ensures ok == (seconds <= left) && rest == Max(0, left - seconds)
  {
    ok := seconds <= left;
    rest := if ok then left - seconds else 0;
  }

  /** What the pauses after all of these attempts take. */
  function RetryCost(tries: seq<Exchange>): nat {
    if tries == [] then 0 else RetryCost(tries[..|tries| - 1]) + PauseAfter(tries[|tries| - 1], |tries| - 1)
  }

  /** The attempts before the current one, all to be repeated. */
  ghost predicate Retried(wire: nat -> Exchange, at: nat, tries: seq<Exchange>, accepted: seq<int>) {
    tries == [] ||
    (var n := |tries| - 1;
     tries[n] == wire(at + n) && Retryable(tries[n], accepted) && Retried(wire, at, tries[..n], accepted))
  }

  lemma {:induction false} RetriedThroughout(wire: nat -> Exchange, at: nat, tries: seq<Exchange>, accepted: seq<int>)
    requires Retried(wire, at, tries, accepted)
    ensures forall i :: 0 <= i < |tries| ==> tries[i] == wire(at + i) && Retryable(tries[i], accepted)
  {
    if tries != [] {
      RetriedThroughout(wire, at, tries[..|tries| - 1], accepted);
    }
  }

  /** Every attempt but the last was answered in a way that allows another one;
      in particular nothing is sent again after Azure has taken a request on. */
  ghost predicate ProperAttempts(wire: nat -> Exchange, at: nat, tries: seq<Exchange>, accepted: seq<int>, retry: bool) {
    && 1 <= |tries| <= Attempts(retry)
    && var n := |tries| - 1; tries[n] == wire(at + n) && Retried(wire, at, tries[..n], accepted)
  }

  /** At most five attempts, or one without retries, each a new exchange; what is sent
      again was lost, or was answered 429 or by a server failure that names no
      operation. */
  lemma ResendingIsSafe(wire: nat -> Exchange, at: nat, tries: seq<Exchange>, accepted: seq<int>, retry: bool, i: nat)
    requires ProperAttempts(wire, at, tries, accepted, retry)
    ensures |tries| <= (if retry then 5 else 1)
    ensures i < |tries| ==> tries[i] == wire(at + i)
    ensures i < |tries| - 1 ==>
      || tries[i] == Lost
      || (tries[i].Answer? && tries[i].reply.status == 429 && (tries[i].reply.operationURL == "" || 429 !in accepted))
      || (tries[i].Answer? && tries[i].reply.status >= 500 && tries[i].reply.operationURL == "")
  {
    RetriedThroughout(wire, at, tries[..|tries| - 1], accepted);
  }

  /** One poll: the exchange that answered, what the request made of it, and the
      seconds it slept. */
  datatype Poll = Poll(index: nat, outcome: Result<Body, Error>, cost: nat)

  function DelayBefore(retryAfter: Option<int>, k: nat): nat {
    if k == 0 then RetryDelay(retryAfter, 0) else 3
  }

  function PollingCost(retryAfter: Option<int>, polls: seq<Poll>): nat {
    if polls == [] then 0 else
      PollingCost(retryAfter, polls[..|polls| - 1]) + DelayBefore(retryAfter, |polls| - 1) + polls[|polls| - 1].cost
  }

  lemma PollingCostAppend(retryAfter: Option<int>, polls: seq<Poll>, p: Poll)
    ensures PollingCost(retryAfter, polls + [p]) == PollingCost(retryAfter, polls) + DelayBefore(retryAfter, |polls|) + p.cost
  {
    assert (polls + [p])[..|polls|] == polls;
  }

  predicate GoesOn(p: Poll) {
    p.outcome == Ok(Operation(Ongoing))
  }

  /** The polls were answered by different exchanges, in order, and each but the
      last one found the operation under way. */
  ghost predicate ProperPolls(wire: nat -> Exchange, at: nat, next: nat, polls: seq<Poll>) {
    polls == [] ||
    (var n := |polls| - 1;
     && at <= polls[n].index < next
     && (polls[n].outcome.Ok? ==> wire(polls[n].index).Answer? && wire(polls[n].index).reply.body == polls[n].outcome.value)
     && (n > 0 ==> GoesOn(polls[n - 1]))
     && ProperPolls(wire, at, polls[n].index, polls[..n]))
  }

  lemma ProperPollsExtend(wire: nat -> Exchange, at: nat, start: nat, next: nat, polls: seq<Poll>, p: Poll)
    requires ProperPolls(wire, at, start, polls) && (polls != [] ==> GoesOn(polls[|polls| - 1]))
    requires at <= start <= p.index < next
    requires p.outcome.Ok? ==> wire(p.index).Answer? && wire(p.index).reply.body == p.outcome.value
    ensures ProperPolls(wire, at, next, polls + [p])
  {
    assert (polls + [p])[..|polls|] == polls;
  }

  lemma {:induction false} EarlierPollsGoOn(wire: nat -> Exchange, at: nat, next: nat, polls: seq<Poll>, i: nat)
    requires ProperPolls(wire, at, next, polls) && i < |polls|
    ensures i < |polls| - 1 ==> GoesOn(polls[i]) && polls[i].index < polls[|polls| - 1].index
    ensures polls[i].outcome.Ok? ==> wire(polls[i].index).Answer? && wire(polls[i].index).reply.body == polls[i].outcome.value
  {
    var n := |polls| - 1;
    if i < n {
      EarlierPollsGoOn(wire, at, polls[n].index, polls[..n], i);
    }
  }

  /** The verdict that the polls impose: a poll that says done, that it failed, or
      that cannot be read decides at once; without one, waiting was cut short. */
  predicate Decides(polls: seq<Poll>, failure: Option<Error>) {
    if polls == [] || GoesOn(polls[|polls| - 1]) then failure == Some(Cancelled)
    else match polls[|polls| - 1].outcome
      case Err(e) => failure == Some(PollError(e))
      case Ok(Unparsable) => failure == Some(DecodeError)
      case Ok(Empty) => failure == None
      case Ok(Operation(status)) =>
        if status == Failed || status == Canceled then failure == Some(OperationError) else failure == None
  }

  /** The polls of an accepted operation: none before the last decides it, and the
      last one does. */
  lemma FinishedOperationsAreReported(wire: nat -> Exchange, at: nat, next: nat, polls: seq<Poll>, failure: Option<Error>)
    requires ProperPolls(wire, at, next, polls) && Decides(polls, failure)
    ensures forall i :: 0 <= i < |polls| - 1 ==> !SaysDone(wire(polls[i].index)) && !SaysFailed(wire(polls[i].index))
    ensures polls != [] && polls[|polls| - 1].outcome.Ok? ==>
      var last := wire(polls[|polls| - 1].index);
      && (SaysDone(last) <==> failure == None)
      && (SaysFailed(last) <==> failure == Some(OperationError))
    ensures failure == None ==> polls != [] && polls[|polls| - 1].outcome.Ok?
    ensures failure == Some(OperationError) ==> polls != [] && polls[|polls| - 1].outcome.Ok?
  {
    forall i | 0 <= i < |polls| - 1 ensures !SaysDone(wire(polls[i].index)) && !SaysFailed(wire(polls[i].index)) {
      EarlierPollsGoOn(wire, at, next, polls, i);
    }
  }

  /** What an error chain starts from. */
  function Root(e: Error): Error {
    if e.PollError? then Root(e.inner) else e
  }

  /** Sleeping is all that uses up the context, and a context error is reported
      exactly when it did. */
  predicate Spent(patience: nat, left: nat, cost: nat, failure: Option<Error>) {
    && left == Max(0, patience - cost)
    && (cost > patience <==> failure.Some? && Root(failure.value) == Cancelled)
  }

  lemma SpentInTwoParts(patience: nat, first: nat, left: nat, second: nat, failure: Option<Error>)
    requires first <= patience && Spent(patience - first, left, second, failure)
    ensures Spent(patience, left, first + second, failure)
  {
  }

  function Failure(r: Result<Body, Error>): Option<Error> {
    if r.Ok? then None else Some(r.error)
  }

  /** What the last answer of a request says when Azure did not take it on. */
  function Reading(x: Exchange, verb: Verb, accepted: seq<int>): Result<Body, Error> {
    match x
    case NoToken => Err(TokenError)
    case Unbuildable => Err(BuildError)
    case Lost => Err(TransportError)
    case Unread => Err(ReadError)
    case Answer(reply) =>
      if reply.status == 404 || reply.status !in accepted then Err(HttpError(verb, reply.status)) else Ok(reply.body)
  }

  /** How a request may end, given its last exchange: a request taken on is only
      polled, and a failing poll blames the polling, never the request. */
  predicate Ends(r: Result<Body, Error>, x: Exchange, verb: Verb, accepted: seq<int>) {
    if TakenOn(x, accepted) then
      if r.Ok? then r.value == x.reply.body
      else r.error != Exhausted && (HttpCause(r.error).Some? ==> HttpCause(r.error).value.0 == Get)
    else
      r == Reading(x, verb, accepted) || (r == Err(Cancelled) && Retryable(x, accepted))
  }

  /** Reading a rejection off the error chain is exact for a PUT: no transport
      failure, expired context or failed poll of an accepted one looks like it. */
  lemma RejectionIsReadExactly(r: Result<Body, Error>, x: Exchange, accepted: seq<int>)
    requires Ends(r, x, Put, accepted)
    requires forall status :: status in accepted ==> status < 400
    ensures CountsAsRejection(r) <==> TurnsDown(x, accepted)
  {
    if CountsAsRejection(r) {
      assert !TakenOn(x, accepted);
      assert r == Reading(x, Put, accepted);
    }
  }

  /** The seconds slept for an operation, including a sleep that was cut short. */
  function OperationCost(retryAfter: Option<int>, polls: seq<Poll>, failure: Option<Error>): nat {
    PollingCost(retryAfter, polls) + if failure == Some(Cancelled) then DelayBefore(retryAfter, |polls|) else 0
  }

  /** An accepted operation was polled properly, with this verdict and in this time. */
  ghost predicate Operated(wire: nat -> Exchange, at: nat, next: nat, polls: seq<Poll>, failure: Option<Error>,
                           retryAfter: Option<int>, cost: int)
  {
    ProperPolls(wire, at, next, polls) && Decides(polls, failure) && cost == OperationCost(retryAfter, polls, failure)
  }

  /** What one attempt comes to when it is the last one. */
  ghost predicate Settles(wire: nat -> Exchange, at: nat, next: nat, x: Exchange, verb: Verb, accepted: seq<int>,
                          attempt: nat, maxAttempts: nat, r: Result<Body, Error>, polls: seq<Poll>, cost: nat)
  {
    if TakenOn(x, accepted) then
      Ends(r, x, verb, accepted) && Operated(wire, at + 1, next, polls, Failure(r), x.reply.retryAfter, cost)
    else
      && next == at + 1 && polls == []
      && if Retryable(x, accepted) && attempt < maxAttempts - 1 then r == Err(Cancelled) && cost == PauseAfter(x, attempt)
         else r == Reading(x, verb, accepted) && cost == 0
  }

  /** What a request comes to. It pauses after every attempt but the last, and after
      that one only when the context ends during the pause. */
  ghost predicate Answered(wire: nat -> Exchange, at: nat, verb: Verb, retry: bool, accepted: seq<int>, r: Result<Body, Error>,
                           next: nat, tries: seq<Exchange>, polls: seq<Poll>, cost: nat)
  {
    && ProperAttempts(wire, at, tries, accepted, retry)
    && var n := |tries| - 1;
       var last := tries[n];
    && Ends(r, last, verb, accepted) && next > at + n
    && if TakenOn(last, accepted) then
         Operated(wire, at + n + 1, next, polls, Failure(r), last.reply.retryAfter, cost - RetryCost(tries[..n]))
       else
         && next == at + n + 1 && polls == []
         && if Retryable(last, accepted) && |tries| < Attempts(retry) then r == Err(Cancelled) && cost == RetryCost(tries)
            else r == Reading(last, verb, accepted) && cost == RetryCost(tries[..n])
  }

  lemma SettledAsItEnds(wire: nat -> Exchange, at: nat, next: nat, x: Exchange, verb: Verb, accepted: seq<int>,
                        attempt: nat, maxAttempts: nat, r: Result<Body, Error>, polls: seq<Poll>, cost: nat)
    requires Settles(wire, at, next, x, verb, accepted, attempt, maxAttempts, r, polls, cost)
    ensures Ends(r, x, verb, accepted)
  {
  }

  /** The state of the loop before an attempt. */
  ghost predicate Looping(wire: nat -> Exchange, at: nat, tries: seq<Exchange>, accepted: seq<int>, patience: nat, left: nat, cost: nat) {
    Retried(wire, at, tries, accepted) && cost == RetryCost(tries) <= patience && left == patience - cost
  }

  /** The first answer is final: it neither asks for polling nor may be tried again. */
  predicate FirstIsLast(x: Exchange, retry: bool, accepted: seq<int>) {
    !TakenOn(x, accepted) && (!retry || !Retryable(x, accepted))
  }

  lemma FirstAnswerDecides(wire: nat -> Exchange, at: nat, verb: Verb, retry: bool, accepted: seq<int>, r: Result<Body, Error>,
                           next: nat, tries: seq<Exchange>, polls: seq<Poll>, cost: nat)
    requires Answered(wire, at, verb, retry, accepted, r, next, tries, polls, cost)
    ensures FirstIsLast(wire(at), retry, accepted) ==> r == Reading(wire(at), verb, accepted) && next == at + 1 && cost == 0
    ensures !retry && TakenOn(wire(at), accepted) && r.Ok? ==> r.value == wire(at).reply.body
  {
    RetriedThroughout(wire, at, tries[..|tries| - 1], accepted);
    assert |tries| > 1 ==> tries[..|tries| - 1][0] == wire(at);
    assert |tries| == 1 ==> tries[0] == wire(at) && tries[..0] == [];
  }

  /** A lost or throttled request, or a server failure that names no operation, is
      given up only after the fifth attempt, or the only one, or when the context
      ends. */
  lemma TransientAnswersAreRetried(wire: nat -> Exchange, at: nat, verb: Verb, retry: bool, accepted: seq<int>, r: Result<Body, Error>,
                                   next: nat, tries: seq<Exchange>, polls: seq<Poll>, cost: nat)
    requires Answered(wire, at, verb, retry, accepted, r, next, tries, polls, cost)
    requires var x := tries[|tries| - 1];
      x == Lost || (x.Answer? && x.reply.operationURL == "" && (x.reply.status == 429 || x.reply.status >= 500))
    ensures r == Err(Cancelled) || |tries| == (if retry then 5 else 1)
  {
  }

  lemma RetryOnce(wire: nat -> Exchange, at: nat, tries: seq<Exchange>, now: nat, x: Exchange, accepted: seq<int>,
                  patience: nat, left: nat, cost: nat, pause: nat)
    requires Looping(wire, at, tries, accepted, patience, left, cost) && now == at + |tries| && x == wire(now)
    requires Retryable(x, accepted) && pause == PauseAfter(x, |tries|) <= left
    ensures Looping(wire, at, tries + [x], accepted, patience, left - pause, cost + pause)
  {
    RetryCostAppend(tries, x);
    assert (tries + [x])[..|tries|] == tries;
  }

  lemma LastAttempt(wire: nat -> Exchange, at: nat, verb: Verb, retry: bool, accepted: seq<int>, r: Result<Body, Error>, next: nat,
                    tries: seq<Exchange>, now: nat, x: Exchange, polls: seq<Poll>, cost: nat, spent: nat)
    requires Retried(wire, at, tries, accepted) && |tries| < Attempts(retry) && now == at + |tries| < next && x == wire(now)
    requires Settles(wire, now, next, x, verb, accepted, |tries|, Attempts(retry), r, polls, spent) && cost == RetryCost(tries)
    ensures Answered(wire, at, verb, retry, accepted, r, next, tries + [x], polls, cost + spent)
  {
    SettledAsItEnds(wire, now, next, x, verb, accepted, |tries|, Attempts(retry), r, polls, spent);
    RetryCostAppend(tries, x);
    assert (tries + [x])[..|tries|] == tries;
  }

  lemma RetryCostAppend(tries: seq<Exchange>, x: Exchange)
    ensures RetryCost(tries + [x]) == RetryCost(tries) + PauseAfter(x, |tries|)
  {
    assert (tries + [x])[..|tries|] == tries;
  }

  /** One turn of the loop; `go` asks for another. */
  method Attempt(wire: nat -> Exchange, at: nat, patience: nat, verb: Verb, accepted: seq<int>, attempt: nat, maxAttempts: nat)
    returns (go: bool, r: Result<Body, Error>, next: nat, left: nat, ghost polls: seq<Poll>, ghost cost: nat)
    requires attempt < maxAttempts
    ensures go ==>
      && Retryable(wire(at), accepted) && attempt < maxAttempts - 1 && next == at + 1
      && PauseAfter(wire(at), attempt) <= patience && left == patience - PauseAfter(wire(at), attempt)
    ensures go ==> polls == [] && cost == PauseAfter(wire(at), attempt)
    ensures !go ==> next > at && Spent(patience, left, cost, Failure(r))
    ensures !go ==> Settles(wire, at, next, wire(at), verb, accepted, attempt, maxAttempts, r, polls, cost)
    decreases patience, 1
  {
    var x := wire(at);
    go, next, left, polls, cost := false, at + 1, patience, [], 0;
    var slept: bool;
    match x {
      case NoToken =>
        r := Err(TokenError);
      case Unbuildable =>
        r := Err(BuildError);
      case Unread =>
        r := Err(ReadError);
      case Lost =>
        r := Err(TransportError);
        if attempt == maxAttempts - 1 {
          return;
        }
        cost := attempt + 1;
        go, left := SleepContext(left, attempt + 1);
        r := Err(Cancelled);
      case Answer(reply) =>
        if reply.status == 404 {
          r := Err(HttpError(verb, 404));
          return;
        }
        if reply.operationURL != "" && (reply.status in accepted || reply.status >= 500) {
          var failure: Option<Error>;
          failure, next, left, polls, cost := WaitForOperation(wire, next, left, reply.retryAfter);
          r := if failure.Some? then Err(failure.value) else Ok(reply.body);
          return;
        }
        if (reply.status == 429 || reply.status >= 500) && attempt < maxAttempts - 1 {
          var delay := RetryDelay(reply.retryAfter, attempt);
          cost := delay;
          go, left := SleepContext(left, delay);
          r := Err(Cancelled);
          return;
        }
        r := if reply.status !in accepted then Err(HttpError(verb, reply.status)) else Ok(reply.body);
    }
  }

  /** One turn of the loop, with the account of the whole request kept up. */
  method Turn(wire: nat -> Exchange, ghost at: nat, ghost patience: nat, now: nat, left: nat, verb: Verb, retry: bool,
              accepted: seq<int>, attempt: nat, ghost tries: seq<Exchange>, ghost cost: nat)
    returns (go: bool, r: Result<Body, Error>, next: nat, rest: nat, ghost tries': seq<Exchange>, ghost polls: seq<Poll>, ghost cost': nat)
    requires attempt == |tries| < Attempts(retry) && now == at + attempt && Looping(wire, at, tries, accepted, patience, left, cost)
    ensures |tries'| == attempt + 1
    ensures go ==> attempt < Attempts(retry) - 1 && next == now + 1 && Retryable(wire(now), accepted) && rest <= left
    ensures go ==> Looping(wire, at, tries', accepted, patience, rest, cost')
    ensures !go ==> Answered(wire, at, verb, retry, accepted, r, next, tries', polls, cost') && Spent(patience, rest, cost', Failure(r))
    decreases left, 2
  {
    ghost var x, spent := wire(now), 0;
    go, r, next, rest, polls, spent := Attempt(wire, now, left, verb, accepted, attempt, Attempts(retry));
    tries', cost' := tries + [x], cost + spent;
    if go {
      RetryOnce(wire, at, tries, now, x, accepted, patience, left, cost, spent);
    } else {
      SpentInTwoParts(patience, cost, rest, spent, Failure(r));
      LastAttempt(wire, at, verb, retry, accepted, r, next, tries, now, x, polls, cost, spent);
    }
  }

  /** Sends one request; the error behind the loop is never reached. */
  method RequestWithRetry(wire: nat -> Exchange, at: nat, patience: nat, verb: Verb, retry: bool, accepted: seq<int>)
    returns (r: Result<Body, Error>, next: nat, left: nat, ghost tries: seq<Exchange>, ghost polls: seq<Poll>, ghost cost: nat)
    ensures Answered(wire, at, verb, retry, accepted, r, next, tries, polls, cost)
    ensures Spent(patience, left, cost, Failure(r))
    ensures FirstIsLast(wire(at), retry, accepted) ==>
      r == Reading(wire(at), verb, accepted) && next == at + 1 && left == patience
    ensures !retry && TakenOn(wire(at), accepted) && r.Ok? ==> r.value == wire(at).reply.body
    decreases patience, 3
  {
    var maxAttempts := Attempts(retry);
    var attempt := 0;
    tries, polls, cost, next, left := [], [], 0, at, patience;
    while attempt < maxAttempts
      invariant 0 <= attempt == |tries| < maxAttempts && next == at + attempt
      invariant Looping(wire, at, tries, accepted, patience, left, cost)
      decreases maxAttempts - attempt
    {
      var go: bool;
      go, r, next, left, tries, polls, cost := Turn(wire, at, patience, next, left, verb, retry, accepted, attempt, tries, cost);
      if !go {
        FirstAnswerDecides(wire, at, verb, retry, accepted, r, next, tries, polls, cost);
        return;
      }
      attempt := attempt + 1;
    }
    assert false;
  }

  /** Polls until the operation ends. Whatever goes wrong here is never an HTTP
      failure of a mutation. */
  method WaitForOperation(wire: nat -> Exchange, at: nat, patience: nat, retryAfter: Option<int>)
    returns (failure: Option<Error>, next: nat, left: nat, ghost polls: seq<Poll>, ghost cost: nat)
    ensures next >= at && Spent(patience, left, cost, failure)
    ensures failure.Some? && HttpCause(failure.value).Some? ==> HttpCause(failure.value).value.0 == Get
    ensures Operated(wire, at, next, polls, failure, retryAfter, cost)
    ensures failure != Some(Exhausted)
    decreases patience, 0
  {
    var delay := RetryDelay(retryAfter, 0);
    next, left, polls, cost := at, patience, [], 0;
    while true
      invariant Waiting(wire, at, next, polls, retryAfter, patience, left, cost) && delay == DelayBefore(retryAfter, |polls|)
      decreases left
    {
      var slept: bool;
      slept, left := SleepContext(left, delay);
      if !slept {
        failure := Some(Cancelled);
        cost := cost + delay;
        return;
      }
      var go: bool;
      go, failure, next, left, polls, cost := PollTurn(wire, at, patience, next, left, retryAfter, polls, cost);
      if !go {
        return;
      }
      delay := 3;
    }
  }

  /** The state of the loop before a sleep. */
  ghost predicate Waiting(wire: nat -> Exchange, at: nat, next: nat, polls: seq<Poll>, retryAfter: Option<int>,
                          patience: nat, left: nat, cost: nat)
  {
    && next >= at && cost == PollingCost(retryAfter, polls) <= patience && left == patience - cost
    && ProperPolls(wire, at, next, polls) && (polls != [] ==> GoesOn(polls[|polls| - 1]))
  }

  /** One poll after its sleep, with the account of the whole operation kept up. */
  method PollTurn(wire: nat -> Exchange, ghost at: nat, ghost patience: nat, now: nat, left: nat, retryAfter: Option<int>,
                  ghost polls: seq<Poll>, ghost cost: nat)
    returns (go: bool, failure: Option<Error>, next: nat, rest: nat, ghost polls': seq<Poll>, ghost cost': nat)
    requires Waiting(wire, at, now, polls, retryAfter, patience, left + DelayBefore(retryAfter, |polls|), cost)
    ensures rest <= left && |polls'| == |polls| + 1
    ensures go ==> Waiting(wire, at, next, polls', retryAfter, patience, rest, cost')
    ensures !go ==> next >= at && Spent(patience, rest, cost', failure) && Operated(wire, at, next, polls', failure, retryAfter, cost')
    ensures !go && failure.Some? ==>
      failure.value != Exhausted && (HttpCause(failure.value).Some? ==> HttpCause(failure.value).value.0 == Get)
    decreases left, 5
  {
    var r;
    ghost var p;
    r, next, rest, p := PollOnce(wire, now, left);
    ghost var first := cost + DelayBefore(retryAfter, |polls|);
    polls', cost' := polls + [p], first + p.cost;
    PollingCostAppend(retryAfter, polls, p);
    ProperPollsExtend(wire, at, now, next, polls, p);
    if r.Err? {
      go, failure := false, Some(PollError(r.error));
      SpentInTwoParts(patience, first, rest, p.cost, failure);
      return;
    }
    SpentInTwoParts(patience, first, rest, p.cost, None);
    go, failure := ReadOperation(r.value);
  }

  method PollOnce(wire: nat -> Exchange, at: nat, patience: nat)
    returns (r: Result<Body, Error>, next: nat, left: nat, ghost p: Poll)
    ensures at <= p.index < next && p.outcome == r && Spent(patience, left, p.cost, Failure(r))
    ensures r.Ok? ==> wire(p.index).Answer? && wire(p.index).reply.body == r.value
    ensures r.Err? ==> r.error != Exhausted && (HttpCause(r.error).Some? ==> HttpCause(r.error).value.0 == Get)
    decreases patience, 4
  {
    ghost var tries, polls, cost;
    r, next, left, tries, polls, cost := RequestWithRetry(wire, at, patience, Get, true, [200, 201, 202, 204]);
    p := Poll(at + |tries| - 1, r, cost);
  }

  /** What the body of a poll says about the operation; `go` if it is under way. */
  method ReadOperation(body: Body) returns (go: bool, failure: Option<Error>)
    ensures go <==> body == Operation(Ongoing)
    ensures !go ==> failure == match body
      case Empty => None
      case Unparsable => Some(DecodeError)
      case Operation(status) => if status == Failed || status == Canceled then Some(OperationError) else None
  {
    go, failure := false, None;
    match body
    case Empty =>
    case Unparsable => failure := Some(DecodeError);
    case Operation(status) =>
      if status == Failed || status == Canceled {
        failure := Some(OperationError);
      } else if status != Blank && status != Succeeded {
        go := true;
      }
  }

  /** A request that Azure took on succeeds exactly when a poll says that the
      operation is done. */
  lemma TakenOnSucceedsIffDone(wire: nat -> Exchange, at: nat, next: nat, polls: seq<Poll>, r: Result<Body, Error>)
    requires ProperPolls(wire, at, next, polls) && Decides(polls, Failure(r))
    ensures r.Ok? <==> polls != [] && polls[|polls| - 1].outcome.Ok? && SaysDone(wire(polls[|polls| - 1].index))
  {
    FinishedOperationsAreReported(wire, at, next, polls, Failure(r));
  }

  /** The deployment submission is sent at most once, and is called rejected
      exactly when Azure turned that one request down. */
  method SubmitDeployment(wire: nat -> Exchange, at: nat, patience: nat) returns (r: Result<Body, Error>, rejected: bool)
    ensures rejected <==> TurnsDown(wire(at), [200, 201, 202])
    ensures rejected ==> r == Err(HttpError(Put, wire(at).reply.status))
  {
    var next, left;
    ghost var tries, polls, cost;
    r, next, left, tries, polls, cost := RequestWithRetry(wire, at, patience, Put, false, [200, 201, 202]);
    rejected := CountsAsRejection(r);
    assert tries == [wire(at)];
    RejectionIsReadExactly(r, wire(at), [200, 201, 202]);
  }
}

/**
 The daemon client's connection supervisor (`connect`'s polling loop).

 Timers and promises are abstract: the loop is a fold over the outcomes of
 the successive `status` polls. Each poll increments `tryNum`; a resolved
 poll settles the connection with its value; a rejected poll schedules the
 next one (after 400 ms while `tryNum < 50`, 1000 ms after that) while
 `tryNum <= 200`, and otherwise gives up with "Unable to connect to LBRY".
 */
module Supervisor {
  import opened JsValues
  import opened Transport

  /** `CHECK_DAEMON_STARTED_TRY_NUMBER`. */
  const MaxTries: nat := 200
  /** Polls before the first one followed by the long delay. */
  const FastTries: nat := 50
  const FastDelay: nat := 400
  const SlowDelay: nat := 1000
  const GiveUpMessage := "Unable to connect to LBRY"

  /** The delay scheduled after failed poll number `tryNum`. */
  function RetryDelay(tryNum: nat): (d: nat)
    ensures tryNum < FastTries ==> d == FastDelay
    ensures tryNum >= FastTries ==> d == SlowDelay
  {
    if tryNum < FastTries then FastDelay else SlowDelay
  }

  /** How the shared connect promise stands once the given answers are consumed. */
  datatype Settlement =
    | Waiting                    // a timer or a poll is still pending
    | Connected(status: Option<Json>)
    | GaveUp(reason: Reason)

  /** The polls made, the delays scheduled between them, and the settlement. */
  datatype Run = Run(polls: nat, delays: seq<nat>, settlement: Settlement)

  /** The rejection of an exhausted budget. */
  const GiveUpReason: Reason := NewError(Some(JStr(GiveUpMessage)))

  /**
   The loop from the point where `tryNum` polls have failed and another is
   about to start, consuming `answers` one per poll.
   */
  function Continue(answers: seq<Outcome>, tryNum: nat): (r: Run)
    requires tryNum <= MaxTries
    ensures tryNum <= r.polls <= tryNum + |answers|
    ensures r.polls <= MaxTries + 1
    ensures |r.delays| == r.polls - tryNum - (if r.settlement.Waiting? then 0 else 1)
    ensures forall i :: 0 <= i < |r.delays| ==> r.delays[i] == RetryDelay(tryNum + i + 1)
    ensures forall i :: 0 <= i < |r.delays| ==> answers[i].Rejected?
    ensures r.settlement.Waiting? ==> r.polls == tryNum + |answers| && r.polls <= MaxTries
    ensures r.settlement.GaveUp? ==>
      r.polls == MaxTries + 1 && r.settlement.reason == GiveUpReason && answers[r.polls - tryNum - 1].Rejected?
    ensures r.settlement.Connected? ==>
      answers[r.polls - tryNum - 1] == Resolved(r.settlement.status)
    decreases |answers|
  {
    if |answers| == 0 then Run(tryNum, [], Waiting)
    else
      var attempt := tryNum + 1;
      match answers[0]
      case Resolved(v) => Run(attempt, [], Connected(v))
      case Rejected(_) =>
        if attempt <= MaxTries then
          var rest := Continue(answers[1..], attempt);
          Run(rest.polls, [RetryDelay(attempt)] + rest.delays, rest.settlement)
        else
          Run(attempt, [], GaveUp(GiveUpReason))
  }

  /** The loop started by the first `connect()`. */
  function Supervise(answers: seq<Outcome>): Run
  {
    Continue(answers, 0)
  }

  /**
   The loop's result once `tryNum` polls have failed and `delays` were
   scheduled after them.
   */
  function Resume(answers: seq<Outcome>, tryNum: nat, delays: seq<nat>): Run
    requires tryNum <= MaxTries && tryNum <= |answers|
  {
    var rest := Continue(answers[tryNum..], tryNum);
    Run(rest.polls, delays + rest.delays, rest.settlement)
  }

  /**
   The same loop written as the source's timer chain: `tryNum += 1`, poll,
   then resolve, reschedule or reject.
   */
  method RunSupervisor(answers: seq<Outcome>) returns (r: Run)
    ensures r == Supervise(answers)
    ensures r.polls <= MaxTries + 1
    ensures forall i :: 0 <= i < |r.delays| ==> r.delays[i] == RetryDelay(i + 1)
  {
    var tryNum: nat := 0;
    var delays: seq<nat> := [];
    assert answers[0..] == answers;
    while tryNum < |answers|
      invariant tryNum <= MaxTries && tryNum <= |answers|
      invariant |delays| == tryNum
      invariant forall i :: 0 <= i < tryNum ==> delays[i] == RetryDelay(i + 1)
      invariant Supervise(answers) == Resume(answers, tryNum, delays)
      decreases |answers| - tryNum
    {
      var answer := answers[tryNum];
      ResumeStep(answers, tryNum, delays);
      tryNum := tryNum + 1;
      if answer.Resolved? {
        return Run(tryNum, delays, Connected(answer.value));
      }
      if tryNum <= MaxTries {
        delays := delays + [RetryDelay(tryNum)];
      } else {
        return Run(tryNum, delays, GaveUp(GiveUpReason));
      }
    }
    ResumeAtEnd(answers, tryNum, delays);
    return Run(tryNum, delays, Waiting);
  }

  /** One step of the loop. */
  lemma ResumeStep(answers: seq<Outcome>, tryNum: nat, delays: seq<nat>)
    requires tryNum <= MaxTries && tryNum < |answers|
    ensures answers[tryNum].Resolved? ==>
      Resume(answers, tryNum, delays) == Run(tryNum + 1, delays, Connected(answers[tryNum].value))
    ensures answers[tryNum].Rejected? && tryNum < MaxTries ==>
      Resume(answers, tryNum, delays) == Resume(answers, tryNum + 1, delays + [RetryDelay(tryNum + 1)])
    ensures answers[tryNum].Rejected? && tryNum == MaxTries ==>
      Resume(answers, tryNum, delays) == Run(tryNum + 1, delays, GaveUp(GiveUpReason))
  {
    var now := answers[tryNum..];
    assert now[0] == answers[tryNum] && now[1..] == answers[tryNum + 1..];
    if answers[tryNum].Rejected? && tryNum < MaxTries {
      var rest := Continue(answers[tryNum + 1..], tryNum + 1);
      assert delays + ([RetryDelay(tryNum + 1)] + rest.delays) == (delays + [RetryDelay(tryNum + 1)]) + rest.delays;
    }
  }

  lemma ResumeAtEnd(answers: seq<Outcome>, tryNum: nat, delays: seq<nat>)
    requires tryNum <= MaxTries && tryNum == |answers|
    ensures Resume(answers, tryNum, delays) == Run(tryNum, delays, Waiting)
  {
    assert answers[tryNum..] == [];
  }

  // ---------------------------------------------------------------------
  // The delay budget
  // ---------------------------------------------------------------------

  function Total(delays: seq<nat>): nat
  {
    if delays == [] then 0 else Total(delays[..|delays| - 1]) + delays[|delays| - 1]
  }

  /** The sum of the delays scheduled after failed polls 1..n. */
  function Schedule(n: nat): nat
  {
    if n == 0 then 0 else Schedule(n - 1) + RetryDelay(n)
  }

  /** The largest total delay: 49 short waits and 151 long ones, 170600 ms. */
  const MaxTotalDelay: nat := (FastTries - 1) * FastDelay + (MaxTries - FastTries + 1) * SlowDelay

  lemma {:induction false} ScheduleClosedForm(n: nat)
    ensures n < FastTries ==> Schedule(n) == n * FastDelay
    ensures n >= FastTries ==> Schedule(n) == (FastTries - 1) * FastDelay + (n - FastTries + 1) * SlowDelay
  {
    if n > 0 {
      ScheduleClosedForm(n - 1);
    }
  }

  lemma {:induction false} TotalOfSchedule(delays: seq<nat>)
    requires forall i :: 0 <= i < |delays| ==> delays[i] == RetryDelay(i + 1)
    ensures Total(delays) == Schedule(|delays|)
  {
    if delays != [] {
      TotalOfSchedule(delays[..|delays| - 1]);
    }
  }

  /**
   At most 201 polls are made and at most 49·400 + 151·1000 ms of delay is
   scheduled; a loop that gave up made exactly 201 polls and waited exactly
   that long.
   */
  lemma RetryBudget(answers: seq<Outcome>)
    ensures Supervise(answers).polls <= MaxTries + 1
    ensures Total(Supervise(answers).delays) <= MaxTotalDelay
    ensures Supervise(answers).settlement.GaveUp? ==>
      Supervise(answers).polls == MaxTries + 1 && Total(Supervise(answers).delays) == MaxTotalDelay
  {
    var r := Supervise(answers);
    TotalOfSchedule(r.delays);
    ScheduleClosedForm(|r.delays|);
  }

  /** 201 rejected polls in a row exhaust the budget. */
  lemma ExhaustedBudgetGivesUp(answers: seq<Outcome>)
    requires |answers| > MaxTries
    requires forall i :: 0 <= i <= MaxTries ==> answers[i].Rejected?
    ensures Supervise(answers).settlement == GaveUp(GiveUpReason)
    ensures Supervise(answers).polls == MaxTries + 1
  {
  }

  /** The first resolved poll within the budget connects, with that poll's value. */
  lemma FirstSuccessConnects(answers: seq<Outcome>, k: nat)
    requires k <= MaxTries && k < |answers| && answers[k].Resolved?
    requires forall i :: 0 <= i < k ==> answers[i].Rejected?
    ensures Supervise(answers) == Run(k + 1, Supervise(answers).delays, Connected(answers[k].value))
  {
  }
}

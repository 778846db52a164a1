/** The trigger-wait logic a recording camera runs on every frame while it
    waits for the external trigger: a gap of more than 0.2 s between two
    frames is the trigger edge, and a 3 s budget, spent frame by frame,
    ends the wait without a trigger. */
module TriggerWait {

  import MovingAverage

  /** Inter-frame gap, in seconds, read as the trigger edge. */
  const TriggerGap: real := 0.2
  /** Wait budget, in seconds, granted at the start of a take. */
  const WaitBudget: real := 3.0

  /** The camera fields the trigger wait reads and writes:
      m_waiting_for_trigger, m_waiting_delay and m_got_trigger_timeout. */
  datatype TriggerState = TriggerState(waiting: bool, delay: real, timedOut: bool)

  /** One frame, `dt` seconds after the previous one. Nothing moves while the
      hold is on or once the wait is over; otherwise the budget shrinks by
      exactly `dt`, a gap ends the wait, and an overdrawn budget ends it with
      the timeout flag raised. */
  function Step(s: TriggerState, hold: bool, dt: real): (r: TriggerState)
    ensures hold || !s.waiting ==> r == s
    ensures s.waiting && !hold ==> r.delay == s.delay - dt
    ensures r.waiting <==> s.waiting && (hold || (dt <= TriggerGap && s.delay - dt >= 0.0))
    ensures r.timedOut <==> s.timedOut || (s.waiting && !hold && s.delay - dt < 0.0)
  {
    if s.waiting && !hold then
      var waiting := if dt > TriggerGap then false else s.waiting;
      var delay := s.delay - dt;
      if delay < 0.0 then TriggerState(false, delay, true)
      else TriggerState(waiting, delay, s.timedOut)
    else
      s
  }

  /** Successive frames with the hold released, `dts` the gaps between them. */
  function Run(s: TriggerState, dts: seq<real>): TriggerState
    decreases |dts|
  {
    if dts == [] then s else Run(Step(s, false, dts[0]), dts[1..])
  }

  /** Once the wait is over, further frames change nothing. */
  lemma {:induction false} RunAfterWait(s: TriggerState, dts: seq<real>)
    requires !s.waiting
    ensures Run(s, dts) == s
    decreases |dts|
  {
    if dts != [] {
      RunAfterWait(Step(s, false, dts[0]), dts[1..]);
    }
  }

  /** Without a gap above 0.2 s the wait lasts exactly as long as every
      cumulative elapsed time stays within the budget, and the only way it
      ends is by the timeout. */
  lemma {:induction false} RunWithoutGap(s: TriggerState, dts: seq<real>)
    requires s.waiting
    requires forall i :: 0 <= i < |dts| ==> dts[i] <= TriggerGap
    ensures Run(s, dts).waiting <==>
      forall k :: 1 <= k <= |dts| ==> MovingAverage.Sum(dts[..k]) <= s.delay
    ensures Run(s, dts).timedOut <==> s.timedOut || !Run(s, dts).waiting
    decreases |dts|
  {
    if dts != [] {
      var s' := Step(s, false, dts[0]);
      var rest := dts[1..];
      assert MovingAverage.Sum(dts[..1]) == dts[0] by {
        assert dts[..1][1..] == [];
      }
      forall k | 1 <= k <= |rest|
        ensures MovingAverage.Sum(dts[..k + 1]) == dts[0] + MovingAverage.Sum(rest[..k])
      {
        assert dts[..k + 1][1..] == rest[..k];
      }
      if s'.waiting {
        RunWithoutGap(s', rest);
        var run := Run(s', rest);
        if run.waiting {
          forall k | 1 <= k <= |dts| ensures MovingAverage.Sum(dts[..k]) <= s.delay {
            if k > 1 {
              assert MovingAverage.Sum(rest[..k - 1]) <= s'.delay;
            }
          }
        } else {
          var k :| 1 <= k <= |rest| && MovingAverage.Sum(rest[..k]) > s'.delay;
          assert MovingAverage.Sum(dts[..k + 1]) > s.delay;
        }
      } else {
        RunAfterWait(s', rest);
      }
    }
  }

  /** The timed scenario: hold released, gaps of 0.05, 0.05, 0.25 and 0.05 s.
      The wait survives the first two frames and ends, by trigger and not by
      timeout, at the frame that arrives after the 0.25 s gap. */
  lemma TriggerScenario()
    ensures Run(TriggerState(true, WaitBudget, false), [0.05, 0.05]).waiting
    ensures !Run(TriggerState(true, WaitBudget, false), [0.05, 0.05, 0.25]).waiting
    ensures !Run(TriggerState(true, WaitBudget, false), [0.05, 0.05, 0.25, 0.05]).timedOut
  {
    var s2 := Run(TriggerState(true, WaitBudget, false), [0.05, 0.05]);
    assert s2 == TriggerState(true, 2.9, false);
    var s3 := Run(TriggerState(true, WaitBudget, false), [0.05, 0.05, 0.25]);
    assert s3 == TriggerState(false, 2.65, false);
    RunAfterWait(s3, [0.05]);
  }
}

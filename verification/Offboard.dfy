/** Getting PX4 into OFFBOARD and armed (offboard.py): stream first, then ask, and keep asking at a
    fixed interval until the autopilot's own state says it happened. */
module Offboard {

  import opened Wrappers

  datatype Mode = OFFBOARD | AUTO_LAND | AUTO_RTL | AUTO_LOITER | OtherMode(name: nat)

  datatype Phase = Idle | Warmup | RequestMode | RequestArm | Active | Released

  datatype Sequencer = Sequencer(
    warmupTicks: nat, retryInterval: real, phase: Phase, streamed: nat, lastRequest: Option<real>)

  /** What the adapter should do on this tick. */
  datatype OffboardStep = OffboardStep(stream: bool, requestOffboard: bool, requestArm: bool)

  const SILENT := OffboardStep(false, false, false)
  const STREAM := OffboardStep(true, false, false)

  function Started(q: Sequencer): Sequencer {
    q.(phase := Warmup, streamed := 0, lastRequest := None)
  }

  predicate IsDue(q: Sequencer, now: real) {
    q.lastRequest.None? || now - q.lastRequest.value >= q.retryInterval
  }

  function AfterDue(q: Sequencer, now: real): Sequencer {
    if IsDue(q, now) then q.(lastRequest := Some(now)) else q
  }

  function AskMode(q: Sequencer, now: real): (Sequencer, OffboardStep) {
    (AfterDue(q.(phase := RequestMode), now), OffboardStep(true, IsDue(q, now), false))
  }

  function AskArm(q: Sequencer, now: real, armed: Option<bool>): (Sequencer, OffboardStep) {
    if armed == Some(true) then (q.(phase := Active), STREAM)
    else (AfterDue(q.(phase := RequestArm), now), OffboardStep(true, false, IsDue(q, now)))
  }

  /** One control step, given what the autopilot reports. */
  function Step(q: Sequencer, now: real, armed: Option<bool>, mode: Option<Mode>): (Sequencer, OffboardStep) {
    match q.phase
    case Idle => (q, SILENT)
    case Released => (q, SILENT)
    case Warmup =>
      (q.(streamed := q.streamed + 1, phase := if q.streamed + 1 >= q.warmupTicks then RequestMode else Warmup), STREAM)
    case RequestMode =>
      if mode == Some(OFFBOARD) then AskArm(q.(lastRequest := None), now, armed) else AskMode(q, now)
    case RequestArm =>
      if mode != Some(OFFBOARD) then AskMode(q, now) else AskArm(q, now, armed)
    case Active =>
      if mode.Some? && mode != Some(OFFBOARD) then (q.(phase := Released), SILENT) else (q, STREAM)
  }

  class OffboardSequencer {
    const warmupTicks: nat
    const retryInterval: real
    var phase: Phase
    var streamed: nat
    var lastRequest: Option<real>

    function View(): Sequencer
      reads this
    {
      Sequencer(warmupTicks, retryInterval, phase, streamed, lastRequest)
    }

    static method Create(warmup: int, retry: real) returns (result: Result<OffboardSequencer, string>)
      ensures result.Success? <==> warmup >= 1
      ensures result.Success? ==>
        fresh(result.value) && result.value.View() == Sequencer(warmup, retry, Idle, 0, None)
    {
      if warmup < 1 {
        return Failure("warmup_ticks must be at least 1");
      }
      var sequencer := new OffboardSequencer(warmup, retry);
      return Success(sequencer);
    }

    constructor (warmup: nat, retry: real)
      ensures View() == Sequencer(warmup, retry, Idle, 0, None)
    {
      warmupTicks, retryInterval := warmup, retry;
      phase, streamed, lastRequest := Idle, 0, None;
    }

    method Start()
      modifies this
      ensures View() == Started(old(View()))
    {
      phase, streamed, lastRequest := Warmup, 0, None;
    }

    method Release()
      modifies this
      ensures View() == old(View()).(phase := Released)
    {
      phase := Released;
    }

    method Due(now: real) returns (due: bool)
      modifies this`lastRequest
      ensures due == IsDue(old(View()), now)
      ensures View() == AfterDue(old(View()), now)
    {
      if lastRequest.None? || now - lastRequest.value >= retryInterval {
        lastRequest := Some(now);
        return true;
      }
      return false;
    }

    method Advance(now: real, armed: Option<bool>, mode: Option<Mode>) returns (step: OffboardStep)
      modifies this
      ensures (View(), step) == Step(old(View()), now, armed, mode)
    {
      if phase == Idle || phase == Released {
        return SILENT;
      }
      if phase == Warmup {
        streamed := streamed + 1;
        if streamed >= warmupTicks {
          phase := RequestMode;
        }
        return STREAM;
      }
      if phase == RequestMode {
        if mode == Some(OFFBOARD) {
          phase := RequestArm;
          lastRequest := None;
        } else {
          var due := Due(now);
          return OffboardStep(true, due, false);
        }
      }
      if phase == RequestArm {
        if mode != Some(OFFBOARD) {
          phase := RequestMode;
          var due := Due(now);
          return OffboardStep(true, due, false);
        }
        if armed == Some(true) {
          phase := Active;
        } else {
          var due := Due(now);
          return OffboardStep(true, false, due);
        }
      }
      if mode.Some? && mode != Some(OFFBOARD) {
        phase := Released;
        return SILENT;
      }
      return STREAM;
    }
  }

  // ----- whole runs between two starts -----

  datatype Input = Input(now: real, armed: Option<bool>, mode: Option<Mode>)

  function Outputs(q: Sequencer, inputs: seq<Input>): (steps: seq<OffboardStep>)
    ensures |steps| == |inputs|
    decreases |inputs|
  {
    if inputs == [] then []
    else
      var (next, step) := Step(q, inputs[0].now, inputs[0].armed, inputs[0].mode);
      [step] + Outputs(next, inputs[1..])
  }

  function After(q: Sequencer, inputs: seq<Input>): Sequencer
    decreases |inputs|
  {
    if inputs == [] then q else After(Step(q, inputs[0].now, inputs[0].armed, inputs[0].mode).0, inputs[1..])
  }

  /** Time does not go back. */
  ghost predicate Timed(since: real, inputs: seq<Input>)
    decreases |inputs|
  {
    inputs != [] ==> since <= inputs[0].now && Timed(inputs[0].now, inputs[1..])
  }

  function Streamed(steps: seq<OffboardStep>): nat {
    if steps == [] then 0 else (if steps[0].stream then 1 else 0) + Streamed(steps[1..])
  }

  ghost predicate Consistent(q: Sequencer) {
    q.phase.RequestMode? || q.phase.RequestArm? || q.phase.Active? ==> q.streamed >= q.warmupTicks
  }

  /** OFFBOARD is asked for only once `warmupTicks` setpoints have been streamed. */
  lemma {:induction false} WarmUpFirst(q: Sequencer, inputs: seq<Input>, k: nat)
    requires Consistent(q) && k < |inputs| && Outputs(q, inputs)[k].requestOffboard
    ensures q.streamed + Streamed(Outputs(q, inputs)[..k]) >= q.warmupTicks
    decreases k
  {
    if k > 0 {
      var next := Step(q, inputs[0].now, inputs[0].armed, inputs[0].mode).0;
      WarmUpFirst(next, inputs[1..], k - 1);
      assert Outputs(q, inputs)[..k][1..] == Outputs(next, inputs[1..])[..k - 1];
    }
  }

  /** Whatever is asked for next waits for an interval from `last`, a past OFFBOARD request. */
  ghost predicate Spaced(q: Sequencer, last: real) {
    && !q.phase.Warmup?
    && (q.phase.RequestMode? || q.phase.RequestArm? ==> q.lastRequest.Some? && q.lastRequest.value >= last)
  }

  lemma {:induction false} NextRequestWaits(q: Sequencer, inputs: seq<Input>, last: real, since: real, k: nat)
    requires Spaced(q, last) && Timed(since, inputs) && last <= since && k < |inputs|
    requires Outputs(q, inputs)[k].requestOffboard
    ensures inputs[k].now - last >= q.retryInterval
    decreases k
  {
    if k > 0 {
      NextRequestWaits(Step(q, inputs[0].now, inputs[0].armed, inputs[0].mode).0, inputs[1..], last, inputs[0].now, k - 1);
    }
  }

  /** OFFBOARD is never asked for twice within the retry interval, however the reported mode flaps. */
  lemma {:induction false} RequestsSpaced(q: Sequencer, inputs: seq<Input>, since: real, i: nat, j: nat)
    requires Timed(since, inputs) && i < j < |inputs|
    requires Outputs(q, inputs)[i].requestOffboard && Outputs(q, inputs)[j].requestOffboard
    ensures inputs[j].now - inputs[i].now >= q.retryInterval
    decreases i
  {
    var next := Step(q, inputs[0].now, inputs[0].armed, inputs[0].mode).0;
    if i == 0 {
      NextRequestWaits(next, inputs[1..], inputs[0].now, inputs[0].now, j - 1);
    } else {
      RequestsSpaced(next, inputs[1..], inputs[0].now, i - 1, j - 1);
    }
  }

  /** Arming is asked for only while OFFBOARD is reported. */
  lemma {:induction false} ArmOnlyInOffboard(q: Sequencer, inputs: seq<Input>, k: nat)
    requires k < |inputs| && Outputs(q, inputs)[k].requestArm
    ensures inputs[k].mode == Some(OFFBOARD) && inputs[k].armed != Some(true)
    decreases k
  {
    if k > 0 {
      ArmOnlyInOffboard(Step(q, inputs[0].now, inputs[0].armed, inputs[0].mode).0, inputs[1..], k - 1);
    }
  }

  /** Once released, nothing is streamed or asked for again. */
  lemma {:induction false} ReleasedIsFinal(q: Sequencer, inputs: seq<Input>, k: nat)
    requires q.phase.Released? && k < |inputs|
    ensures Outputs(q, inputs)[k] == SILENT
    ensures After(q, inputs).phase.Released?
    decreases |inputs|
  {
    if |inputs| > 1 {
      ReleasedIsFinal(q, inputs[1..], if k > 0 then k - 1 else 0);
    }
  }

  /** OFFBOARD was reported at every tick strictly between `i` and `j`. */
  ghost predicate OffboardBetween(inputs: seq<Input>, i: int, j: nat)
    requires j <= |inputs|
  {
    forall m: nat :: i < m < j ==> inputs[m].mode == Some(OFFBOARD)
  }

  lemma {:induction false} NextArmWaits(q: Sequencer, inputs: seq<Input>, last: real, since: real, k: nat)
    requires q.phase.RequestArm? && q.lastRequest.Some? && q.lastRequest.value >= last
    requires Timed(since, inputs) && last <= since && k < |inputs|
    requires OffboardBetween(inputs, -1, k) && Outputs(q, inputs)[k].requestArm
    ensures inputs[k].now - last >= q.retryInterval
    decreases k
  {
    if k > 0 {
      var next := Step(q, inputs[0].now, inputs[0].armed, inputs[0].mode).0;
      assert inputs[0].mode == Some(OFFBOARD);
      assert forall m :: 0 <= m < k - 1 ==> inputs[1..][m] == inputs[m + 1];
      if next.phase.RequestArm? {
        NextArmWaits(next, inputs[1..], last, inputs[0].now, k - 1);
      } else {
        ActiveAsksNothing(next, inputs[1..], k - 1);
      }
    }
  }

  /** While OFFBOARD stays reported, arming too is never asked for twice within the retry interval. */
  lemma {:induction false} ArmRequestsSpaced(q: Sequencer, inputs: seq<Input>, since: real, i: nat, j: nat)
    requires Timed(since, inputs) && i < j < |inputs| && OffboardBetween(inputs, i, j)
    requires Outputs(q, inputs)[i].requestArm && Outputs(q, inputs)[j].requestArm
    ensures inputs[j].now - inputs[i].now >= q.retryInterval
    decreases i
  {
    var next := Step(q, inputs[0].now, inputs[0].armed, inputs[0].mode).0;
    assert forall m :: 0 <= m < |inputs| - 1 ==> inputs[1..][m] == inputs[m + 1];
    if i == 0 {
      NextArmWaits(next, inputs[1..], inputs[0].now, inputs[0].now, j - 1);
    } else {
      ArmRequestsSpaced(next, inputs[1..], inputs[0].now, i - 1, j - 1);
    }
  }

  lemma {:induction false} ActiveAsksNothing(q: Sequencer, inputs: seq<Input>, k: nat)
    requires q.phase.Active? || q.phase.Released?
    requires k < |inputs|
    ensures !Outputs(q, inputs)[k].requestArm && !Outputs(q, inputs)[k].requestOffboard
    decreases k
  {
    if k > 0 {
      ActiveAsksNothing(Step(q, inputs[0].now, inputs[0].armed, inputs[0].mode).0, inputs[1..], k - 1);
    }
  }

  // ----- when exactly arming is asked for again -----

  ghost predicate ArmedInOffboard(input: Input) {
    input.mode == Some(OFFBOARD) && input.armed == Some(true)
  }

  /** Strictly between `i` and `k` arming was not asked for, nor reported in OFFBOARD. */
  ghost predicate StillUnarmed(q: Sequencer, inputs: seq<Input>, i: int, k: nat)
    requires k <= |inputs|
  {
    forall m: nat :: i < m < k ==> !Outputs(q, inputs)[m].requestArm && !ArmedInOffboard(inputs[m])
  }

  /** Asking for the mode again, the sequencer arms on the first tick that reports OFFBOARD. */
  lemma {:induction false} ArmsOnReturn(q: Sequencer, inputs: seq<Input>, k: nat)
    requires q.phase.RequestMode? && k < |inputs| && StillUnarmed(q, inputs, -1, k)
    ensures Outputs(q, inputs)[k].requestArm <==> inputs[k].mode == Some(OFFBOARD) && inputs[k].armed != Some(true)
    decreases k
  {
    if k > 0 {
      var next := Step(q, inputs[0].now, inputs[0].armed, inputs[0].mode).0;
      assert !Outputs(q, inputs)[0].requestArm && !ArmedInOffboard(inputs[0]);
      Later(q, inputs, k);
      ArmsOnReturn(next, inputs[1..], k - 1);
    }
  }

  lemma Later(q: Sequencer, inputs: seq<Input>, k: nat)
    requires 0 < k <= |inputs| && StillUnarmed(q, inputs, -1, k)
    ensures StillUnarmed(Step(q, inputs[0].now, inputs[0].armed, inputs[0].mode).0, inputs[1..], -1, k - 1)
  {
    var next := Step(q, inputs[0].now, inputs[0].armed, inputs[0].mode).0;
    forall m: nat | -1 < m < k - 1
      ensures !Outputs(next, inputs[1..])[m].requestArm && !ArmedInOffboard(inputs[1..][m])
    {
      assert Outputs(q, inputs)[m + 1] == Outputs(next, inputs[1..])[m] && inputs[m + 1] == inputs[1..][m];
    }
  }

  /** The next arm request after one at `last` comes with the interval, or as soon as OFFBOARD is back. */
  lemma {:induction false} NextArmExactly(q: Sequencer, inputs: seq<Input>, last: real, k: nat)
    requires q.phase.RequestArm? && q.lastRequest == Some(last) && k < |inputs| && StillUnarmed(q, inputs, -1, k)
    ensures Outputs(q, inputs)[k].requestArm <==>
      && inputs[k].mode == Some(OFFBOARD) && inputs[k].armed != Some(true)
      && (!OffboardBetween(inputs, -1, k) || inputs[k].now - last >= q.retryInterval)
    decreases k
  {
    if k > 0 {
      var next := Step(q, inputs[0].now, inputs[0].armed, inputs[0].mode).0;
      assert !Outputs(q, inputs)[0].requestArm && !ArmedInOffboard(inputs[0]);
      Later(q, inputs, k);
      if inputs[0].mode != Some(OFFBOARD) {
        ArmsOnReturn(next, inputs[1..], k - 1);
      } else {
        NextArmExactly(next, inputs[1..], last, k - 1);
        assert OffboardBetween(inputs, -1, k) <==> OffboardBetween(inputs[1..], -1, k - 1) by {
          assert forall m: nat :: 0 < m < k ==> inputs[m] == inputs[1..][m - 1];
          assert forall m: nat :: m < k - 1 ==> inputs[1..][m] == inputs[m + 1];
        }
      }
    }
  }

  /** When arming is asked for again, in any run: arm requests are not limited to one in an interval exactly when
      the reported mode drops out of OFFBOARD in between. */
  lemma {:induction false} ArmsAgainExactly(q: Sequencer, inputs: seq<Input>, i: nat, k: nat)
    requires i < k < |inputs| && Outputs(q, inputs)[i].requestArm && StillUnarmed(q, inputs, i, k)
    ensures Outputs(q, inputs)[k].requestArm <==>
      && inputs[k].mode == Some(OFFBOARD) && inputs[k].armed != Some(true)
      && (!OffboardBetween(inputs, i, k) || inputs[k].now - inputs[i].now >= q.retryInterval)
    decreases i
  {
    var next := Step(q, inputs[0].now, inputs[0].armed, inputs[0].mode).0;
    LaterBetween(q, inputs, i, k);
    if i == 0 {
      NextArmExactly(next, inputs[1..], inputs[0].now, k - 1);
    } else {
      ArmsAgainExactly(next, inputs[1..], i - 1, k - 1);
    }
  }

  lemma LaterBetween(q: Sequencer, inputs: seq<Input>, i: nat, k: nat)
    requires i < k < |inputs| && StillUnarmed(q, inputs, i, k)
    ensures StillUnarmed(Step(q, inputs[0].now, inputs[0].armed, inputs[0].mode).0, inputs[1..], i - 1, k - 1)
    ensures OffboardBetween(inputs, i, k) <==> OffboardBetween(inputs[1..], i - 1, k - 1)
  {
    var next := Step(q, inputs[0].now, inputs[0].armed, inputs[0].mode).0;
    forall m: nat | i - 1 < m < k - 1
      ensures !Outputs(next, inputs[1..])[m].requestArm && !ArmedInOffboard(inputs[1..][m])
    {
      assert Outputs(q, inputs)[m + 1] == Outputs(next, inputs[1..])[m] && inputs[m + 1] == inputs[1..][m];
    }
    assert forall m: nat :: i < m < k ==> inputs[m] == inputs[1..][m - 1];
    assert forall m: nat :: m < k - 1 ==> inputs[1..][m] == inputs[m + 1];
  }

  /** And it happens: from a start, whatever the settings, a mode that drops out for one tick brings two arm
      requests within the interval, in a run whose clock never goes back. */
  lemma {:induction false} ArmRequestsTooClose(q: Sequencer) returns (inputs: seq<Input>, i: nat)
    requires q.phase.Warmup? && q.retryInterval > 0.0
    ensures Timed(0.0, inputs) && i + 2 < |inputs|
    ensures Outputs(q, inputs)[i].requestArm && Outputs(q, inputs)[i + 2].requestArm
    ensures inputs[i + 2].now - inputs[i].now < q.retryInterval
    decreases q.warmupTicks - q.streamed
  {
    var first := Input(0.0, None, None);
    var next := Step(q, first.now, first.armed, first.mode).0;
    var rest: seq<Input>;
    if next.phase.RequestMode? {
      rest, i := FlappedRun(next);
    } else {
      rest, i := ArmRequestsTooClose(next);
    }
    inputs, i := [first] + rest, i + 1;
    assert inputs[1..] == rest;
  }

  lemma FlappedRun(q: Sequencer) returns (inputs: seq<Input>, i: nat)
    requires q.phase.RequestMode? && q.retryInterval > 0.0
    ensures Timed(0.0, inputs) && i + 2 < |inputs|
    ensures Outputs(q, inputs)[i].requestArm && Outputs(q, inputs)[i + 2].requestArm
    ensures inputs[i + 2].now - inputs[i].now < q.retryInterval
  {
    var on := Input(0.0, Some(false), Some(OFFBOARD));
    var off := Input(q.retryInterval / 3.0, Some(false), Some(AUTO_LOITER));
    var back := Input(q.retryInterval / 2.0, Some(false), Some(OFFBOARD));
    inputs, i := [on, off, back], 0;
    var asked := Step(q, on.now, on.armed, on.mode).0;
    var dropped := Step(asked, off.now, off.armed, off.mode).0;
    assert inputs[1..] == [off, back] && [off, back][1..] == [back];
    assert Timed(off.now, [back]) && Timed(on.now, [off, back]);
    assert Outputs(q, inputs)[1..] == Outputs(asked, [off, back]);
    assert Outputs(asked, [off, back])[1..] == Outputs(dropped, [back]);
    assert Outputs(q, inputs)[2] == Outputs(q, inputs)[1..][1] == Outputs(asked, [off, back])[1..][0];
  }
}

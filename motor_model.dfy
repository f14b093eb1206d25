/**
 * The motion logic of the stepper-motor window, as values: one datatype for
 * everything the window's non-GUI methods read or write (motor fields, the
 * two hardware PWM channels, the two motion timers, the DIO bits of the DA
 * board, the latest analog samples, the persisted settings and the settings
 * file), and one function per method, timer tick and button handler. The
 * class in MotorControl updates the same state field by field and is proved
 * equal to these functions.
 */
module MotorModel {
  import opened Wrappers
  import opened SettingsCodec

  /** MotorStart ramps only above this frequency; MotorCount integrates the ramp frequency from it on. */
  const RampThreshold: int := 10000
  /** Period of the ramp timer (AccelTimeMS). */
  const AccelTimeMs: int := 10
  const Retract: int := 1
  const Approach: int := -1

  /** One hardware PWM channel: whether it outputs, at which frequency, with which duty cycle. */
  datatype Pwm = Pwm(running: bool, freqHz: int, duty: int)

  /** `change_frequency(f)` followed by `start(duty)`. */
  function PwmStart(f: int, duty: int): Pwm {
    Pwm(true, f, duty)
  }

  function PwmStop(p: Pwm): Pwm {
    p.(running := false)
  }

  /** A periodic timer: whether it fires, and its period. */
  datatype Timer = Timer(active: bool, intervalMs: int)

  function TimerStart(ms: int): Timer {
    Timer(true, ms)
  }

  function TimerStop(t: Timer): Timer {
    t.(active := false)
  }

  /**
   * The state of the window. cw is the retract channel (pwm_cw), ccw the
   * approach channel (pwm_ccw, also the only pulse channel in output mode 1);
   * dio maps DA-board digital channels to the bit last written.
   */
  datatype Motor = Motor(
    pos: int, direction: int, running: bool, autoApproach: bool,
    pulseFreq: int, startPos: int, slowTravel: int, fastTravel: int, motorDist: int,
    cw: Pwm, ccw: Pwm, accelTimer: Timer, countTimer: Timer, dio: map<int, int>,
    sumV: real, defV: real, ampV: real, zpiV: real, initialAmp: real,
    meterRunning: bool, cfg: Settings, settingsFile: Option<seq<Byte>>)

  function Abs(x: int): (r: int)
    ensures r >= 0 && (r == x || r == -x)
  {
    if x < 0 then -x else x
  }

  /** Python's `int(a / b)` for b > 0: the quotient truncated toward zero. */
  function TruncDiv(a: int, b: int): (q: int)
    requires b > 0
    ensures a >= 0 ==> q >= 0 && q * b <= a < q * b + b
    ensures a < 0 ==> q <= 0 && q * b - b < a <= q * b
  {
    if a >= 0 then a / b else -((-a) / b)
  }

  /**
   * Pulses counted per position tick: `int(1e-3*T*f/1e1)`, taken here as the
   * exact quotient of T*f by 10000 (the floating-point rounding is not modelled).
   */
  function StepsPerTick(timeMs: int, f: int): (n: int)
    ensures timeMs * f >= 0 ==> 0 <= n && n * 10000 <= timeMs * f < n * 10000 + 10000
    ensures timeMs * f < 0 ==> n <= 0 && n * 10000 - 10000 < timeMs * f <= n * 10000
  {
    TruncDiv(timeMs * f, 10000)
  }

  // ----- stopping -----

  /** Everything MotorStop switches off is off. */
  predicate Halted(m: Motor) {
    && !m.running && !m.autoApproach
    && !m.cw.running && !m.ccw.running
    && !m.accelTimer.active && !m.countTimer.active
    && m.pulseFreq == 0 && m.slowTravel == 0 && m.fastTravel == 0
  }

  /** The fields no motion command touches. */
  predicate SameSetup(a: Motor, b: Motor) {
    && a.cfg == b.cfg && a.settingsFile == b.settingsFile && a.meterRunning == b.meterRunning
    && a.sumV == b.sumV && a.defV == b.defV && a.ampV == b.ampV && a.zpiV == b.zpiV
    && a.initialAmp == b.initialAmp
  }

  /** The motion fields of `a` and `b` agree (all but pos, motorDist and the setup). */
  predicate SameMotion(a: Motor, b: Motor) {
    && a.direction == b.direction && a.running == b.running && a.autoApproach == b.autoApproach
    && a.pulseFreq == b.pulseFreq && a.startPos == b.startPos
    && a.slowTravel == b.slowTravel && a.fastTravel == b.fastTravel
    && a.cw == b.cw && a.ccw == b.ccw && a.accelTimer == b.accelTimer
    && a.countTimer == b.countTimer && a.dio == b.dio
  }

  /** MotorStop: both channels and both timers off, flags and target frequency cleared. */
  function MotorStop(m: Motor): (r: Motor)
    ensures Halted(r)
    ensures SameSetup(r, m) && r.pos == m.pos && r.direction == m.direction
    ensures r.startPos == m.startPos && r.dio == m.dio && r.motorDist == m.motorDist
    ensures r.cw.freqHz == m.cw.freqHz && r.ccw.freqHz == m.ccw.freqHz
    ensures r.accelTimer.intervalMs == m.accelTimer.intervalMs
  {
    m.(accelTimer := TimerStop(m.accelTimer), cw := PwmStop(m.cw), ccw := PwmStop(m.ccw),
       countTimer := TimerStop(m.countTimer), running := false, autoApproach := false,
       pulseFreq := 0, slowTravel := 0, fastTravel := 0)
  }

  lemma MotorStopIdempotent(m: Motor)
    ensures MotorStop(MotorStop(m)) == MotorStop(m)
  {
  }

  // ----- commanding a channel -----

  /** The two PWM channels and the DIO bits together: everything a channel command may touch. */
  datatype Outputs = Outputs(cw: Pwm, ccw: Pwm, dio: map<int, int>)

  function Outs(m: Motor): Outputs {
    Outputs(m.cw, m.ccw, m.dio)
  }

  /**
   * What commanding frequency f in direction dir does to the outputs: in
   * output mode 0 the direction's own channel starts; in any other mode the
   * direction bit is written (1 retract, 0 approach) and the single pulse
   * channel ccw starts; a direction other than +-1 commands nothing. The
   * other channel is never touched.
   */
  predicate Commanded(before: Outputs, after: Outputs, dir: int, c: Settings, f: int) {
    if dir == Retract && c.outputMode == 0 then
      after.cw == PwmStart(f, c.powerCycle) && after.ccw == before.ccw && after.dio == before.dio
    else if dir == Approach && c.outputMode == 0 then
      after.ccw == PwmStart(f, c.powerCycle) && after.cw == before.cw && after.dio == before.dio
    else if dir == Retract || dir == Approach then
      && after.ccw == PwmStart(f, c.powerCycle) && after.cw == before.cw
      && after.dio == before.dio[c.directionChn := if dir == Retract then 1 else 0]
    else
      after == before
  }

  /**
   * The channel block repeated in MotorStart, FasterButtonFunction and
   * SlowerButtonFunction. It reads only the direction, the output mode, the
   * direction channel and the duty cycle.
   */
  function Command(o: Outputs, dir: int, c: Settings, f: int): (r: Outputs)
    ensures Commanded(o, r, dir, c, f)
  {
    if dir == Retract then
      if c.outputMode == 0 then o.(cw := PwmStart(f, c.powerCycle))
      else o.(dio := o.dio[c.directionChn := 1], ccw := PwmStart(f, c.powerCycle))
    else if dir == Approach then
      if c.outputMode == 0 then o.(ccw := PwmStart(f, c.powerCycle))
      else o.(dio := o.dio[c.directionChn := 0], ccw := PwmStart(f, c.powerCycle))
    else o
  }

  /** Command applied to the window state. */
  function CommandChannel(m: Motor, f: int): (r: Motor)
    ensures Commanded(Outs(m), Outs(r), m.direction, m.cfg, f)
    ensures r.(cw := m.cw, ccw := m.ccw, dio := m.dio) == m
  {
    var o := Command(Outs(m), m.direction, m.cfg, f);
    m.(cw := o.cw, ccw := o.ccw, dio := o.dio)
  }

  // ----- starting -----

  /**
   * MotorStart: above the ramp threshold the ramp restarts from 0 and no
   * channel is commanded; otherwise the channel for the direction is
   * commanded at pulseFreq. Either way the motor is marked running and the
   * position timer started.
   */
  function MotorStart(m: Motor): (r: Motor)
    ensures r.running && r.countTimer == TimerStart(m.cfg.motorUpdateTimeMs)
    ensures m.pulseFreq > RampThreshold ==>
              && r.cfg == m.cfg.(accelFreq := 0) && r.accelTimer == TimerStart(AccelTimeMs)
              && r.cw == m.cw && r.ccw == m.ccw && r.dio == m.dio
    ensures m.pulseFreq <= RampThreshold ==>
              r.cfg == m.cfg && r.accelTimer == m.accelTimer && Commanded(Outs(m), Outs(r), m.direction, m.cfg, m.pulseFreq)
    ensures r.pos == m.pos && r.direction == m.direction && r.pulseFreq == m.pulseFreq
    ensures r.startPos == m.startPos && r.slowTravel == m.slowTravel && r.fastTravel == m.fastTravel
    ensures r.autoApproach == m.autoApproach && r.motorDist == m.motorDist
    ensures r.settingsFile == m.settingsFile && r.initialAmp == m.initialAmp
  {
    var s :=
      if m.pulseFreq > RampThreshold then
        m.(cfg := m.cfg.(accelFreq := 0), accelTimer := TimerStart(AccelTimeMs))
      else CommandChannel(m, m.pulseFreq);
    s.(running := true, countTimer := TimerStart(m.cfg.motorUpdateTimeMs))
  }

  /** The four manual start buttons. */
  datatype StartButton = SlowRetract | SlowApproach | FastRetract | FastApproach {
    predicate IsFast() { this == FastRetract || this == FastApproach }
    function Direction(): int { if this == SlowRetract || this == FastRetract then Retract else Approach }
  }

  /**
   * A start button: remember where the motion starts, choose the direction,
   * the speed setting and the matching travel flag, then MotorStart.
   */
  function PressStart(m: Motor, b: StartButton): (r: Motor)
    ensures r.startPos == m.pos && r.pos == m.pos && r.direction == b.Direction()
    ensures r.pulseFreq == (if b.IsFast() then m.cfg.fastMoveFreq else m.cfg.slowMoveFreq)
    ensures b.IsFast() ==> r.fastTravel == 1 && r.slowTravel == 0
    ensures !b.IsFast() ==> r.slowTravel == 1 && r.fastTravel == 0
    ensures r.running && r.countTimer.active && r.autoApproach == m.autoApproach
    ensures r.pulseFreq > RampThreshold ==>
              r.accelTimer.active && r.cfg.accelFreq == 0 && r.cw == m.cw && r.ccw == m.ccw
    ensures r.pulseFreq <= RampThreshold ==> Commanded(Outs(m), Outs(r), b.Direction(), m.cfg, r.pulseFreq)
  {
    var f := if b.IsFast() then m.cfg.fastMoveFreq else m.cfg.slowMoveFreq;
    MotorStart(m.(pulseFreq := f, direction := b.Direction(), startPos := m.pos,
                  slowTravel := if b.IsFast() then 0 else 1,
                  fastTravel := if b.IsFast() then 1 else 0))
  }

  /**
   * AutoApproachButtonFunction: approach at the auto-approach speed with the
   * monitor armed and the current amplitude as reference; startPos and the
   * travel flags are left as they were.
   */
  function PressAutoApproach(m: Motor): (r: Motor)
    ensures r.pulseFreq == m.cfg.autoApproachFreq && r.direction == Approach
    ensures r.autoApproach && r.initialAmp == m.ampV && r.running && r.countTimer.active
    ensures r.pos == m.pos && r.startPos == m.startPos
    ensures r.slowTravel == m.slowTravel && r.fastTravel == m.fastTravel
    ensures r.pulseFreq > RampThreshold ==> r.accelTimer.active && r.cw == m.cw && r.ccw == m.ccw
    ensures r.pulseFreq <= RampThreshold ==> Commanded(Outs(m), Outs(r), Approach, m.cfg, r.pulseFreq)
  {
    MotorStart(m.(pulseFreq := m.cfg.autoApproachFreq, direction := Approach,
                  autoApproach := true, initialAmp := m.ampV))
  }

  // ----- the position tick -----

  /** The frequency the position tick integrates: pulseFreq below the threshold, the ramp frequency from it on. */
  function TickFrequency(m: Motor): int {
    if m.pulseFreq < RampThreshold then m.pulseFreq else m.cfg.accelFreq
  }

  predicate SlowLimitArmed(m: Motor) {
    m.cfg.slowLimitState != 0 && m.slowTravel == 1
  }

  predicate FastLimitArmed(m: Motor) {
    m.cfg.fastLimitState != 0 && m.fastTravel == 1
  }

  /** A travel limit is armed: the limit check box of the mode that is moving is set. */
  predicate LimitArmed(c: Settings, slowTravel: int, fastTravel: int) {
    (c.slowLimitState != 0 && slowTravel == 1) || (c.fastLimitState != 0 && fastTravel == 1)
  }

  /** Position p is at or beyond the travel limit of the armed (slow or fast) mode. */
  predicate LimitHit(c: Settings, slowTravel: int, fastTravel: int, startPos: int, p: int) {
    || (c.slowLimitState != 0 && slowTravel == 1 && Abs(p - startPos) >= c.maxTravelSlow)
    || (c.fastLimitState != 0 && fastTravel == 1 && Abs(p - startPos) >= c.maxTravelFast)
  }

  predicate TravelLimitHit(m: Motor, p: int) {
    LimitHit(m.cfg, m.slowTravel, m.fastTravel, m.startPos, p)
  }

  /**
   * The two travel-limit tests at the end of MotorCount and MotorCountAccel:
   * motorDist is refreshed whenever a limit is armed, and the motor is
   * stopped exactly when the position is at or past the armed limit.
   */
  function LimitChecks(m: Motor): (r: Motor)
    ensures TravelLimitHit(m, m.pos) ==> Halted(r)
    ensures !TravelLimitHit(m, m.pos) ==> SameMotion(r, m)
    ensures r.pos == m.pos && SameSetup(r, m) && r.direction == m.direction && r.startPos == m.startPos
  {
    var d := m.(motorDist := if LimitArmed(m.cfg, m.slowTravel, m.fastTravel) then Abs(m.pos - m.startPos) else m.motorDist);
    if TravelLimitHit(m, m.pos) then MotorStop(d) else d
  }

  /**
   * MotorCount, the position tick: the position moves by direction times the
   * pulses of one period at TickFrequency, and the motor is stopped exactly
   * when the new position reaches the armed travel limit; otherwise every
   * motion field is left as it was.
   */
  function MotorCount(m: Motor): (r: Motor)
    ensures r.pos == m.pos + m.direction * StepsPerTick(m.cfg.motorUpdateTimeMs, TickFrequency(m))
    ensures TravelLimitHit(m, r.pos) ==> Halted(r)
    ensures !TravelLimitHit(m, r.pos) ==> SameMotion(r, m)
    ensures SameSetup(r, m) && r.direction == m.direction && r.startPos == m.startPos
  {
    LimitChecks(m.(pos := m.pos + m.direction * StepsPerTick(m.cfg.motorUpdateTimeMs, TickFrequency(m))))
  }

  // ----- the ramp tick -----

  /**
   * AcceleratedMovement, the ramp tick: the ramp frequency grows by exactly
   * `acceleration`; in output mode 0 the direction's channel is commanded at
   * the new value (other modes command nothing); the ramp timer stops on the
   * first tick whose new value reaches pulseFreq.
   */
  function AcceleratedMovement(m: Motor): (r: Motor)
    ensures r.cfg == m.cfg.(accelFreq := m.cfg.accelFreq + m.cfg.acceleration)
    ensures r.cfg.accelFreq >= m.pulseFreq ==> r.accelTimer == TimerStop(m.accelTimer)
    ensures r.cfg.accelFreq < m.pulseFreq ==> r.accelTimer == m.accelTimer
    ensures m.cfg.outputMode == 0 && m.direction == Retract ==>
              r.cw == PwmStart(r.cfg.accelFreq, m.cfg.powerCycle) && r.ccw == m.ccw
    ensures m.cfg.outputMode == 0 && m.direction == Approach ==>
              r.ccw == PwmStart(r.cfg.accelFreq, m.cfg.powerCycle) && r.cw == m.cw
    ensures m.cfg.outputMode != 0 || (m.direction != Retract && m.direction != Approach) ==>
              r.cw == m.cw && r.ccw == m.ccw
    ensures r.pos == m.pos && r.running == m.running && r.pulseFreq == m.pulseFreq
    ensures r.direction == m.direction && r.countTimer == m.countTimer && r.dio == m.dio
    ensures r.autoApproach == m.autoApproach && r.slowTravel == m.slowTravel && r.fastTravel == m.fastTravel
  {
    var a := m.cfg.accelFreq + m.cfg.acceleration;
    var pulsed := m.cfg.outputMode == 0;
    m.(cfg := m.cfg.(accelFreq := a),
       cw := if pulsed && m.direction == Retract then PwmStart(a, m.cfg.powerCycle) else m.cw,
       ccw := if pulsed && m.direction == Approach then PwmStart(a, m.cfg.powerCycle) else m.ccw,
       accelTimer := if a >= m.pulseFreq then TimerStop(m.accelTimer) else m.accelTimer)
  }

  /** k ramp-timer periods: the tick runs only while the ramp timer is active. */
  function RampTicks(m: Motor, k: nat): Motor
    decreases k
  {
    if k == 0 || !m.accelTimer.active then m else RampTicks(AcceleratedMovement(m), k - 1)
  }

  /**
   * While the ramp has not reached pulseFreq, each period adds exactly
   * `acceleration`: after k periods whose first k-1 stayed below the target,
   * the ramp frequency is the start value plus k steps, and the timer is
   * still active iff that value is below the target.
   */
  lemma {:induction false} RampProgress(m: Motor, k: nat)
    requires m.accelTimer.active && m.cfg.acceleration >= 0
    requires k > 0 ==> m.cfg.accelFreq + (k - 1) * m.cfg.acceleration < m.pulseFreq
    ensures RampTicks(m, k).cfg.accelFreq == m.cfg.accelFreq + k * m.cfg.acceleration
    ensures RampTicks(m, k).accelTimer.active <==> (k == 0 || m.cfg.accelFreq + k * m.cfg.acceleration < m.pulseFreq)
    ensures RampTicks(m, k).pulseFreq == m.pulseFreq && RampTicks(m, k).pos == m.pos
    ensures RampTicks(m, k).running == m.running && RampTicks(m, k).direction == m.direction
    ensures RampTicks(m, k).cfg.acceleration == m.cfg.acceleration
    decreases k
  {
    if k > 0 {
      var n := AcceleratedMovement(m);
      var acc := m.cfg.acceleration;
      assert RampTicks(m, k) == RampTicks(n, k - 1);
      if k > 1 {
        assert n.accelTimer.active by {
          assert acc <= (k - 1) * acc;
        }
        RampProgress(n, k - 1);
        assert n.cfg.accelFreq + (k - 1) * acc == m.cfg.accelFreq + k * acc;
      }
    }
  }

  /** Number of ramp periods until a ramp from 0 reaches `target` in steps of `acc`. */
  function RampPeriods(target: int, acc: int): (n: nat)
    requires target > 0 && acc > 0
    ensures (n - 1) * acc < target <= n * acc < target + acc
  {
    var n := (target + acc - 1) / acc;
    assert n * acc <= target + acc - 1 < n * acc + acc;
    n
  }

  /**
   * A ramp started by MotorStart (ramp frequency 0, target pulseFreq > 0)
   * with a positive acceleration stops after exactly RampPeriods periods, at
   * a frequency at least the target and below target + acceleration: it may
   * overshoot, by less than one step.
   */
  lemma RampConverges(m: Motor)
    requires m.accelTimer.active && m.cfg.accelFreq == 0
    requires m.pulseFreq > 0 && m.cfg.acceleration > 0
    ensures var n := RampPeriods(m.pulseFreq, m.cfg.acceleration);
            && !RampTicks(m, n).accelTimer.active
            && m.pulseFreq <= RampTicks(m, n).cfg.accelFreq < m.pulseFreq + m.cfg.acceleration
            && forall k :: 0 < k < n ==> RampTicks(m, k).accelTimer.active
                                         && RampTicks(m, k).cfg.accelFreq < m.pulseFreq
  {
    var acc := m.cfg.acceleration;
    var n := RampPeriods(m.pulseFreq, acc);
    RampProgress(m, n);
    forall k | 0 < k < n
      ensures RampTicks(m, k).accelTimer.active && RampTicks(m, k).cfg.accelFreq < m.pulseFreq
    {
      MulMonotone(k, n - 1, acc);
      RampProgress(m, k);
    }
  }

  lemma MulMonotone(a: int, b: int, c: int)
    requires a <= b && c >= 0
    ensures (a - 1) * c <= (b - 1) * c && a * c <= b * c
  {
    assert (b - a) * c >= 0;
  }

  /** With acceleration 0 the ramp never ends: the timer keeps firing and the frequency stays where it is. */
  lemma RampWithoutAccelerationNeverStops(m: Motor, k: nat)
    requires m.accelTimer.active && m.cfg.acceleration == 0 && m.cfg.accelFreq < m.pulseFreq
    ensures RampTicks(m, k).accelTimer.active && RampTicks(m, k).cfg.accelFreq == m.cfg.accelFreq
  {
    RampProgress(m, k);
  }

  // ----- speed changes while running -----

  /**
   * FasterButtonFunction: while running, raise pulseFreq by dSpeed and
   * re-command the active channel; the position timer is restarted.
   */
  function Faster(m: Motor): (r: Motor)
    ensures !m.running ==> r == m
    ensures m.running ==> && r.pulseFreq == m.pulseFreq + m.cfg.dSpeed && r.running
                          && r.countTimer == TimerStart(m.cfg.motorUpdateTimeMs)
                          && Commanded(Outs(m), Outs(r), m.direction, m.cfg, r.pulseFreq)
                          && r.accelTimer == m.accelTimer && r.cfg == m.cfg
                          && r.pos == m.pos && r.startPos == m.startPos && r.direction == m.direction
                          && r.slowTravel == m.slowTravel && r.fastTravel == m.fastTravel
                          && r.autoApproach == m.autoApproach
  {
    if m.running then
      var s := m.(countTimer := TimerStop(m.countTimer), pulseFreq := m.pulseFreq + m.cfg.dSpeed);
      CommandChannel(s, s.pulseFreq).(running := true, countTimer := TimerStart(m.cfg.motorUpdateTimeMs))
    else m
  }

  /**
   * SlowerButtonFunction: while running, lower pulseFreq by dSpeed but not
   * below 1, and re-command the active channel.
   */
  function Slower(m: Motor): (r: Motor)
    ensures !m.running ==> r == m
    ensures m.running ==> && r.pulseFreq == (if m.pulseFreq - m.cfg.dSpeed < 1 then 1 else m.pulseFreq - m.cfg.dSpeed)
                          && r.pulseFreq >= 1 && r.running
                          && r.countTimer == TimerStart(m.cfg.motorUpdateTimeMs)
                          && Commanded(Outs(m), Outs(r), m.direction, m.cfg, r.pulseFreq)
                          && r.accelTimer == m.accelTimer && r.cfg == m.cfg
                          && r.pos == m.pos && r.startPos == m.startPos && r.direction == m.direction
                          && r.slowTravel == m.slowTravel && r.fastTravel == m.fastTravel
                          && r.autoApproach == m.autoApproach
  {
    if m.running then
      var lowered := m.pulseFreq - m.cfg.dSpeed;
      var s := m.(countTimer := TimerStop(m.countTimer), pulseFreq := if lowered < 1 then 1 else lowered);
      CommandChannel(s, s.pulseFreq).(running := true, countTimer := TimerStart(m.cfg.motorUpdateTimeMs))
    else m
  }

  // ----- the acquisition tick and the auto-approach monitor -----

  /** The contact condition of AutoApproachCheck: amplitude damped, z-piezo below its limit, or deflection above its limit. */
  predicate Trips(c: Settings, ampV: real, zpiV: real, defV: real, initialAmp: real) {
    ampV < initialAmp * c.ampRatio || zpiV < c.zpiLimit || defV > c.defLimit
  }

  predicate ApproachTrips(m: Motor) {
    Trips(m.cfg, m.ampV, m.zpiV, m.defV, m.initialAmp)
  }

  function AutoApproachCheck(m: Motor): (r: Motor)
    ensures ApproachTrips(m) ==> Halted(r) && r.pos == m.pos && SameSetup(r, m)
    ensures !ApproachTrips(m) ==> r == m
  {
    if ApproachTrips(m) then MotorStop(m) else m
  }

  /** The graph-throttle counter of updateADTimer: count samples, reset once they span graphUpdateTimeMS. */
  function NextGraphCount(c: Settings): int {
    var n := c.currGraphCount + 1;
    if n * c.adUpdateTimeMs >= c.graphUpdateTimeMs then 0 else n
  }

  /**
   * updateADTimer, the acquisition tick: read the four channels through the
   * channel map (`read` stands for the analog board), run the auto-approach
   * check when running with the monitor armed, and advance the graph counter
   * while the meter runs.
   */
  function UpdateAdTimer(m: Motor, read: int -> real): (r: Motor)
    ensures r.sumV == read(m.cfg.sumChn) && r.defV == read(m.cfg.defChn)
    ensures r.ampV == read(m.cfg.ampChn) && r.zpiV == read(m.cfg.zpiChn)
    ensures var s := m.(sumV := r.sumV, defV := r.defV, ampV := r.ampV, zpiV := r.zpiV);
            if m.running && m.autoApproach && ApproachTrips(s) then Halted(r) else SameMotion(r, m)
    ensures r.pos == m.pos && r.initialAmp == m.initialAmp && r.settingsFile == m.settingsFile
    ensures r.cfg == m.cfg.(currGraphCount := if m.meterRunning then NextGraphCount(m.cfg) else m.cfg.currGraphCount)
  {
    var s := m.(sumV := read(m.cfg.sumChn), defV := read(m.cfg.defChn),
                ampV := read(m.cfg.ampChn), zpiV := read(m.cfg.zpiChn));
    var c := if m.running && m.autoApproach && ApproachTrips(s) then MotorStop(s) else s;
    c.(cfg := m.cfg.(currGraphCount := if m.meterRunning then NextGraphCount(m.cfg) else m.cfg.currGraphCount))
  }

  /**
   * With a positive sample period the graph counter stays inside one display
   * period: 0, or a count whose elapsed time is still below graphUpdateTimeMS.
   */
  lemma GraphCountStaysBelowPeriod(c: Settings)
    requires c.adUpdateTimeMs > 0
    requires c.currGraphCount == 0 || (c.currGraphCount > 0 && c.currGraphCount * c.adUpdateTimeMs < c.graphUpdateTimeMs)
    ensures var n := NextGraphCount(c);
            n == 0 || (n > 0 && n * c.adUpdateTimeMs < c.graphUpdateTimeMs)
  {
  }

  /** MeterStopButtonFunction: toggles whether the meter display (and its counter) runs. */
  function MeterStopButton(m: Motor): (r: Motor)
    ensures r.meterRunning != m.meterRunning
    ensures r.(meterRunning := m.meterRunning) == m
  {
    m.(meterRunning := !m.meterRunning)
  }

  // ----- settings -----

  /** SaveSettings: the settings file is rewritten from the current settings. */
  function SaveSettings(m: Motor, pack: real -> Block8): (r: Motor)
    ensures r.settingsFile == Some(SaveBytes(m.cfg, pack))
    ensures r.(settingsFile := m.settingsFile) == m
  {
    m.(settingsFile := Some(SaveBytes(m.cfg, pack)))
  }

  /**
   * LoadSettings: read the file; if that raised (missing file, short float
   * slot) the fields read so far stay assigned and a fresh file is saved
   * from the resulting settings.
   */
  function LoadSettings(m: Motor, pack: real -> Block8, unpack: Block8 -> real): (r: Motor)
    ensures var l := LoadFrom(m.settingsFile, m.cfg, unpack);
            && r.cfg == l.cfg
            && r.settingsFile == (if l.ok then m.settingsFile else Some(SaveBytes(l.cfg, pack)))
    ensures r.(cfg := m.cfg, settingsFile := m.settingsFile) == m
  {
    var l := LoadFrom(m.settingsFile, m.cfg, unpack);
    if l.ok then m.(cfg := l.cfg) else SaveSettings(m.(cfg := l.cfg), pack)
  }

  /**
   * A save followed by a load gives back the same settings (but for the
   * retrachChn attribute the load creates), when every integer setting fits
   * in 8 bytes and the three float settings unpack to the same values.
   */
  lemma SaveThenLoad(m: Motor, pack: real -> Block8, unpack: Block8 -> real)
    requires SettingsFit(m.cfg)
    requires unpack(pack(m.cfg.defLimit)) == m.cfg.defLimit && unpack(pack(m.cfg.zpiLimit)) == m.cfg.zpiLimit
    requires unpack(pack(m.cfg.ampRatio)) == m.cfg.ampRatio
    ensures LoadSettings(SaveSettings(m, pack), pack, unpack).cfg
            == m.cfg.(retrachChn := Some(m.cfg.retractChn))
  {
    LoadAfterSaveExact(m.cfg, m.cfg, pack, unpack);
  }

  /** The up/down buttons of the settings tab. */
  datatype SettingButton =
    | AutoAppUp | SlowSpeedUp | FastSpeedUp | AccelerationUp | AmplitudeUp | DeflectionUp | ZPiezoUp
    | AutoAppDown | SlowSpeedDown | FastSpeedDown | AccelerationDown | AmplitudeDown | DeflectionDown | ZPiezoDown
    | OtherButton

  /** Lower a speed setting by a step, clamping below at 0. */
  function StepDown(v: int, step: int): (r: int)
    ensures r >= 0 && (r == 0 || r == v - step)
    ensures v - step >= 0 ==> r == v - step
  {
    if v - step < 0 then 0 else v - step
  }

  /** Lower a float threshold by a step, clamping below at `floor`. */
  function StepDownReal(v: real, step: real, floor: real): (r: real)
    ensures r >= floor && (r == floor || r == v - step)
    ensures v - step >= floor ==> r == v - step
  {
    if v - step < floor then floor else v - step
  }

  /** The acceleration step: `int(dSpeed/10)`. */
  function AccelerationStep(dSpeed: int): int {
    TruncDiv(dSpeed, 10)
  }

  /**
   * The setting change of UpDownButtonFunction. Integer speeds move by
   * dSpeed, acceleration by int(dSpeed/10), the amplitude ratio by 0.05 and
   * the two voltage limits by 0.2; "down" clamps speeds and acceleration at
   * 0, the ratio at 0 and the limits at -10. Float arithmetic is taken as
   * exact.
   */
  function AdjustSetting(c: Settings, b: SettingButton): (r: Settings)
    ensures b.AutoAppUp? ==> r == c.(autoApproachFreq := c.autoApproachFreq + c.dSpeed)
    ensures b.SlowSpeedUp? ==> r == c.(slowMoveFreq := c.slowMoveFreq + c.dSpeed)
    ensures b.FastSpeedUp? ==> r == c.(fastMoveFreq := c.fastMoveFreq + c.dSpeed)
    ensures b.AccelerationUp? ==> r == c.(acceleration := c.acceleration + AccelerationStep(c.dSpeed))
    ensures b.AutoAppDown? ==> r == c.(autoApproachFreq := StepDown(c.autoApproachFreq, c.dSpeed))
    ensures b.SlowSpeedDown? ==> r == c.(slowMoveFreq := StepDown(c.slowMoveFreq, c.dSpeed))
    ensures b.FastSpeedDown? ==> r == c.(fastMoveFreq := StepDown(c.fastMoveFreq, c.dSpeed))
    ensures b.AccelerationDown? ==> r == c.(acceleration := StepDown(c.acceleration, AccelerationStep(c.dSpeed)))
    ensures b.AmplitudeUp? ==> r == c.(ampRatio := c.ampRatio + 0.05)
    ensures b.AmplitudeDown? ==> r == c.(ampRatio := StepDownReal(c.ampRatio, 0.05, 0.0))
    ensures b.DeflectionUp? ==> r == c.(defLimit := c.defLimit + 0.2)
    ensures b.DeflectionDown? ==> r == c.(defLimit := StepDownReal(c.defLimit, 0.2, -10.0))
    ensures b.ZPiezoUp? ==> r == c.(zpiLimit := c.zpiLimit + 0.2)
    ensures b.ZPiezoDown? ==> r == c.(zpiLimit := StepDownReal(c.zpiLimit, 0.2, -10.0))
    ensures b.OtherButton? ==> r == c
  {
    match b
    case AutoAppUp => c.(autoApproachFreq := c.autoApproachFreq + c.dSpeed)
    case SlowSpeedUp => c.(slowMoveFreq := c.slowMoveFreq + c.dSpeed)
    case FastSpeedUp => c.(fastMoveFreq := c.fastMoveFreq + c.dSpeed)
    case AccelerationUp => c.(acceleration := c.acceleration + AccelerationStep(c.dSpeed))
    case AmplitudeUp => c.(ampRatio := c.ampRatio + 0.05)
    case DeflectionUp => c.(defLimit := c.defLimit + 0.2)
    case ZPiezoUp => c.(zpiLimit := c.zpiLimit + 0.2)
    case AutoAppDown => c.(autoApproachFreq := StepDown(c.autoApproachFreq, c.dSpeed))
    case SlowSpeedDown => c.(slowMoveFreq := StepDown(c.slowMoveFreq, c.dSpeed))
    case FastSpeedDown => c.(fastMoveFreq := StepDown(c.fastMoveFreq, c.dSpeed))
    case AccelerationDown => c.(acceleration := StepDown(c.acceleration, AccelerationStep(c.dSpeed)))
    case AmplitudeDown => c.(ampRatio := StepDownReal(c.ampRatio, 0.05, 0.0))
    case DeflectionDown => c.(defLimit := StepDownReal(c.defLimit, 0.2, -10.0))
    case ZPiezoDown => c.(zpiLimit := StepDownReal(c.zpiLimit, 0.2, -10.0))
    case OtherButton => c
  }

  /** UpDownButtonFunction: adjust one setting, then save. */
  function UpDownButton(m: Motor, b: SettingButton, pack: real -> Block8): (r: Motor)
    ensures r.cfg == AdjustSetting(m.cfg, b) && r.settingsFile == Some(SaveBytes(r.cfg, pack))
    ensures r.(cfg := m.cfg, settingsFile := m.settingsFile) == m
  {
    SaveSettings(m.(cfg := AdjustSetting(m.cfg, b)), pack)
  }

  /** The up and down button of a speed setting undo each other for a non-negative speed and step. */
  lemma SpeedUpThenDown(c: Settings)
    requires c.slowMoveFreq >= 0 && c.fastMoveFreq >= 0 && c.autoApproachFreq >= 0 && c.dSpeed >= 0
    ensures AdjustSetting(AdjustSetting(c, SlowSpeedUp), SlowSpeedDown) == c
    ensures AdjustSetting(AdjustSetting(c, FastSpeedUp), FastSpeedDown) == c
    ensures AdjustSetting(AdjustSetting(c, AutoAppUp), AutoAppDown) == c
  {
  }

  /** Down then up restores a speed that was at least one step above 0; from below one step, down then up lands on dSpeed. */
  lemma SpeedDownThenUp(c: Settings)
    requires c.dSpeed >= 0
    ensures var r := AdjustSetting(AdjustSetting(c, SlowSpeedDown), SlowSpeedUp);
            r.slowMoveFreq == (if c.slowMoveFreq >= c.dSpeed then c.slowMoveFreq else c.dSpeed)
  {
  }

  /** The two limit check boxes: 0 becomes 1, anything else becomes 0. */
  function ToggleLimit(state: int): (r: int)
    ensures r == 0 || r == 1
    ensures (r != 0) <==> (state == 0)
  {
    if state == 0 then 1 else 0
  }

  lemma ToggleLimitTwice(state: int)
    requires state == 0 || state == 1
    ensures ToggleLimit(ToggleLimit(state)) == state
  {
  }

  /** SlowLimitCheckFunction: flip the slow travel limit, then save. */
  function SlowLimitCheck(m: Motor, pack: real -> Block8): (r: Motor)
    ensures r.cfg == m.cfg.(slowLimitState := ToggleLimit(m.cfg.slowLimitState))
    ensures r.settingsFile == Some(SaveBytes(r.cfg, pack))
    ensures r.(cfg := m.cfg, settingsFile := m.settingsFile) == m
  {
    SaveSettings(m.(cfg := m.cfg.(slowLimitState := ToggleLimit(m.cfg.slowLimitState))), pack)
  }

  /** FastLimitCheckFunction: flip the fast travel limit, then save. */
  function FastLimitCheck(m: Motor, pack: real -> Block8): (r: Motor)
    ensures r.cfg == m.cfg.(fastLimitState := ToggleLimit(m.cfg.fastLimitState))
    ensures r.settingsFile == Some(SaveBytes(r.cfg, pack))
    ensures r.(cfg := m.cfg, settingsFile := m.settingsFile) == m
  {
    SaveSettings(m.(cfg := m.cfg.(fastLimitState := ToggleLimit(m.cfg.fastLimitState))), pack)
  }

  /** OutputSelectFunction: choose the output mode, then save. */
  function OutputSelect(m: Motor, index: int, pack: real -> Block8): (r: Motor)
    ensures r.cfg == m.cfg.(outputMode := index) && r.settingsFile == Some(SaveBytes(r.cfg, pack))
    ensures r.(cfg := m.cfg, settingsFile := m.settingsFile) == m
  {
    SaveSettings(m.(cfg := m.cfg.(outputMode := index)), pack)
  }

  /** The spin boxes of the advanced tab. */
  datatype AdvancedBox =
    | DirectionChnBox | ApproachChnBox | RetractChnBox | SumChnBox | DefChnBox | AmpChnBox | ZChnBox
    | PowerCycleBox | MaxTravFastBox | MaxTravSlowBox | AdIntervalBox | GraphIntervalBox | OtherBox

  /** The field update of DoAdvancedSettings. */
  function AdvancedSetting(c: Settings, box: AdvancedBox, value: int): (r: Settings)
    ensures box.OtherBox? ==> r == c
    ensures box.ApproachChnBox? ==> r == c.(approachChn := value)
    ensures box.RetractChnBox? ==> r == c.(retractChn := value)
    ensures box.PowerCycleBox? ==> r == c.(powerCycle := value)
    ensures box.MaxTravSlowBox? ==> r == c.(maxTravelSlow := value)
    ensures box.MaxTravFastBox? ==> r == c.(maxTravelFast := value)
    ensures box.DirectionChnBox? ==> r == c.(directionChn := value)
    ensures box.SumChnBox? ==> r == c.(sumChn := value)
    ensures box.DefChnBox? ==> r == c.(defChn := value)
    ensures box.AmpChnBox? ==> r == c.(ampChn := value)
    ensures box.ZChnBox? ==> r == c.(zpiChn := value)
    ensures box.AdIntervalBox? ==> r == c.(adUpdateTimeMs := value)
    ensures box.GraphIntervalBox? ==> r == c.(graphUpdateTimeMs := value)
  {
    match box
    case DirectionChnBox => c.(directionChn := value)
    case ApproachChnBox => c.(approachChn := value)
    case RetractChnBox => c.(retractChn := value)
    case SumChnBox => c.(sumChn := value)
    case DefChnBox => c.(defChn := value)
    case AmpChnBox => c.(ampChn := value)
    case ZChnBox => c.(zpiChn := value)
    case PowerCycleBox => c.(powerCycle := value)
    case MaxTravFastBox => c.(maxTravelFast := value)
    case MaxTravSlowBox => c.(maxTravelSlow := value)
    case AdIntervalBox => c.(adUpdateTimeMs := value)
    case GraphIntervalBox => c.(graphUpdateTimeMs := value)
    case OtherBox => c
  }

  /** DoAdvancedSettings: set one field, then save. */
  function DoAdvancedSettings(m: Motor, box: AdvancedBox, value: int, pack: real -> Block8): (r: Motor)
    ensures r.cfg == AdvancedSetting(m.cfg, box, value) && r.settingsFile == Some(SaveBytes(r.cfg, pack))
    ensures r.(cfg := m.cfg, settingsFile := m.settingsFile) == m
  {
    SaveSettings(m.(cfg := AdvancedSetting(m.cfg, box, value)), pack)
  }

  // ----- construction -----

  /** The settings __init__ assigns before it loads the settings file. */
  const DefaultSettings: Settings :=
    Settings(adUpdateTimeMs := 2, graphUpdateTimeMs := 50, currGraphCount := 0,
             fastMoveFreq := 15000, slowMoveFreq := 3000, autoApproachFreq := 5000,
             acceleration := 1000, dSpeed := 1000, powerCycle := 50, accelFreq := 0,
             approachChn := 2, retractChn := 3, sumChn := 0, defChn := 1, ampChn := 2,
             zpiChn := 3, defLimit := 1.0, zpiLimit := 1.0, ampRatio := 0.5,
             motorUpdateTimeMs := 10, outputMode := 0,
             maxTravelFast := 500000, maxTravelSlow := 10000, directionChn := 0,
             fastLimitState := 0, slowLimitState := 0, retrachChn := None)

  /** The values __init__ assigns before it loads the settings file. */
  function Defaults(file: Option<seq<Byte>>): Motor {
    Motor(pos := 0, direction := Retract, running := false, autoApproach := false,
          pulseFreq := 0, startPos := 0, slowTravel := 0, fastTravel := 0, motorDist := 0,
          cw := Pwm(false, 0, 0), ccw := Pwm(false, 0, 0),
          accelTimer := Timer(false, 0), countTimer := Timer(false, 0), dio := map[0 := 0],
          sumV := 0.0, defV := 0.0, ampV := 0.0, zpiV := 0.0, initialAmp := 0.0,
          meterRunning := true,
          cfg := DefaultSettings,
          settingsFile := file)
  }

  /**
   * __init__: defaults, then LoadSettings, then both PWM channels created
   * at slowMoveFreq and stopped.
   */
  function Initial(file: Option<seq<Byte>>, pack: real -> Block8, unpack: Block8 -> real): (r: Motor)
    ensures !r.running && !r.autoApproach && !r.cw.running && !r.ccw.running
    ensures !r.accelTimer.active && !r.countTimer.active && r.pos == 0
    ensures r.cfg == LoadFrom(file, DefaultSettings, unpack).cfg
  {
    var l := LoadSettings(Defaults(file), pack, unpack);
    l.(cw := Pwm(false, l.cfg.slowMoveFreq, 0), ccw := Pwm(false, l.cfg.slowMoveFreq, 0))
  }

  /** With no settings file, the built-in defaults are used and written out as a fresh file. */
  lemma InitialWithoutFile(pack: real -> Block8, unpack: Block8 -> real)
    ensures Initial(None, pack, unpack).cfg == DefaultSettings
    ensures Initial(None, pack, unpack).settingsFile == Some(SaveBytes(DefaultSettings, pack))
  {
  }

  // ----- every input, one at a time -----

  /** Everything that can happen to the window: a button, a check box, or a timer period elapsing. */
  datatype Input =
    | Start(button: StartButton) | AutoApproachPress | StopPress | FasterPress | SlowerPress
    | SettingPress(setting: SettingButton) | SlowLimitToggle | FastLimitToggle | MeterToggle
    | OutputChoice(index: int) | AdvancedEdit(box: AdvancedBox, value: int)
    | AccelPeriod | CountPeriod | AdPeriod(read: int -> real)

  /** One input. A timer period only runs its tick while that timer is active. */
  function Step(m: Motor, e: Input, pack: real -> Block8): (r: Motor)
    ensures r.pos != m.pos ==> e.CountPeriod?
    ensures m.running && !r.running ==> Halted(r)
  {
    match e
    case Start(b) => PressStart(m, b)
    case AutoApproachPress => PressAutoApproach(m)
    case StopPress => MotorStop(m)
    case FasterPress => Faster(m)
    case SlowerPress => Slower(m)
    case SettingPress(b) => UpDownButton(m, b, pack)
    case SlowLimitToggle => SlowLimitCheck(m, pack)
    case FastLimitToggle => FastLimitCheck(m, pack)
    case MeterToggle => MeterStopButton(m)
    case OutputChoice(i) => OutputSelect(m, i, pack)
    case AdvancedEdit(box, v) => DoAdvancedSettings(m, box, v, pack)
    case AccelPeriod => if m.accelTimer.active then AcceleratedMovement(m) else m
    case CountPeriod => if m.countTimer.active then MotorCount(m) else m
    case AdPeriod(read) => UpdateAdTimer(m, read)
  }

  function Run(m: Motor, es: seq<Input>, pack: real -> Block8): Motor
    decreases |es|
  {
    if es == [] then m else Step(Run(m, es[..|es| - 1], pack), es[|es| - 1], pack)
  }

  /**
   * The safety invariant: a motor that is not running drives no channel and
   * has no motion timer or monitor armed; the travel flags are 0/1 and never
   * both set.
   */
  predicate Safe(m: Motor)
    ensures Halted(m) ==> Safe(m)
  {
    && (!m.running ==> !m.cw.running && !m.ccw.running && !m.accelTimer.active
                       && !m.countTimer.active && !m.autoApproach)
    && (m.slowTravel == 0 || m.slowTravel == 1)
    && (m.fastTravel == 0 || m.fastTravel == 1)
    && !(m.slowTravel == 1 && m.fastTravel == 1)
  }

  lemma InitialIsSafe(file: Option<seq<Byte>>, pack: real -> Block8, unpack: Block8 -> real)
    ensures Safe(Initial(file, pack, unpack))
  {
  }

  lemma StepPreservesSafe(m: Motor, e: Input, pack: real -> Block8)
    requires Safe(m)
    ensures Safe(Step(m, e, pack))
  {
  }

  /** After any sequence of inputs from a safe state, the state is safe. */
  lemma {:induction false} RunPreservesSafe(m: Motor, es: seq<Input>, pack: real -> Block8)
    requires Safe(m)
    ensures Safe(Run(m, es, pack))
  {
    if es != [] {
      RunPreservesSafe(m, es[..|es| - 1], pack);
      StepPreservesSafe(Run(m, es[..|es| - 1], pack), es[|es| - 1], pack);
    }
  }

  /**
   * The start and the position tick disagree at exactly 10000 Hz: MotorStart
   * commands the channel directly (no ramp), yet MotorCount integrates the
   * ramp frequency, which is whatever an earlier ramp (or the settings file)
   * left there.
   */
  lemma ThresholdMismatch(m: Motor)
    requires m.pulseFreq == RampThreshold
    ensures !MotorStart(m).accelTimer.active || m.accelTimer.active
    ensures MotorCount(MotorStart(m)).pos
            == m.pos + m.direction * StepsPerTick(m.cfg.motorUpdateTimeMs, m.cfg.accelFreq)
  {
  }
  /**
   * A start does not stop the idle channel: reversing a retract that runs in
   * output mode 0 below the ramp threshold leaves both channels driving.
   */
  lemma ReverseLeavesBothChannelsRunning(m: Motor)
    requires m.cw.running && m.cfg.outputMode == 0 && m.cfg.slowMoveFreq <= RampThreshold
    ensures PressStart(m, SlowApproach).cw.running && PressStart(m, SlowApproach).ccw.running
  {
  }

  /**
   * A start while running is neither rejected nor a stop followed by a start:
   * the travel origin moves to the current position, and a ramp still in
   * progress keeps its timer, so its next tick overrides the slower command.
   */
  lemma StartWhileRunning(m: Motor, b: StartButton)
    requires m.running && m.accelTimer.active
    requires (if b.IsFast() then m.cfg.fastMoveFreq else m.cfg.slowMoveFreq) <= RampThreshold
    ensures PressStart(m, b).running && PressStart(m, b).startPos == m.pos
    ensures PressStart(m, b).accelTimer.active && PressStart(m, b).cfg.accelFreq == m.cfg.accelFreq
  {
  }

  /** A stop leaves the ramp frequency where the last ramp put it. */
  lemma StopKeepsRampFrequency(m: Motor)
    ensures !MotorStop(m).running && MotorStop(m).cfg.accelFreq == m.cfg.accelFreq
  {
  }

  /**
   * The last ramp step overshoots a target that is not a multiple of the
   * acceleration: in output mode 0 the channel is driven above pulseFreq.
   */
  lemma RampOvershoots(m: Motor)
    requires m.accelTimer.active && m.cfg.outputMode == 0 && m.direction == Retract
    requires m.cfg.accelFreq < m.pulseFreq < m.cfg.accelFreq + m.cfg.acceleration
    ensures !AcceleratedMovement(m).accelTimer.active
    ensures AcceleratedMovement(m).cw.running && AcceleratedMovement(m).cw.freqHz > m.pulseFreq
  {
  }

  /**
   * A running motor can be driven at 0 Hz: the Down button clamps the slow
   * speed at 0 (only the Slower button clamps at 1), and a start then marks
   * the motor running with its channel commanded at 0 Hz.
   */
  lemma ZeroSpeedStart(m: Motor, pack: real -> Block8)
    requires m.cfg.dSpeed >= m.cfg.slowMoveFreq >= 0 && m.cfg.outputMode == 0
    ensures var r := Step(Step(m, SettingPress(SlowSpeedDown), pack), Start(SlowApproach), pack);
            && r.running && r.pulseFreq == 0 && r.ccw == PwmStart(0, m.cfg.powerCycle)
  {
  }

  /**
   * A settings file cut short before the first float slot is not replaced by
   * the defaults: the integer slots read so far stay in force (0 for a slot
   * past the end of the file), and that mixture is saved back.
   */
  lemma ShortRecordKeepsPartialValues(f: seq<Byte>, pack: real -> Block8, unpack: Block8 -> real)
    requires |f| < 8 * 17
    ensures var r := Initial(Some(f), pack, unpack);
            && r.cfg.fastMoveFreq == IntAt(f, 3) && r.cfg.slowMoveFreq == IntAt(f, 4)
            && r.cfg.defLimit == DefaultSettings.defLimit
            && r.settingsFile == Some(SaveBytes(r.cfg, pack))
    ensures |f| <= 8 * 3 ==> Initial(Some(f), pack, unpack).cfg.fastMoveFreq == 0 != DefaultSettings.fastMoveFreq
  {
    if |f| <= 8 * 3 {
      ReadPastEndIsZero(f, 3);
    }
  }
}

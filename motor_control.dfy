/**
 * The motion part of the main window as the object it is: one field per
 * attribute the handlers and timer callbacks update, the two PWM channels
 * and the two motion timers as small records, the DA board's digital
 * outputs as a map, and the settings file as the byte string on disk.
 * Every method is proved to leave the state that the matching function of
 * MotorModel computes from the state before it.
 */
module MotorControl {
  import opened Wrappers
  import opened SettingsCodec
  import M = MotorModel

  class MainWindow {
    var motorPos: int
    var motorDirection: int
    var motorRunning: bool
    var autoApproach: bool
    var pulseFreq: int
    var startPos: int
    var slowTravel: int
    var fastTravel: int
    var motorDist: int
    var pwmCw: M.Pwm
    var pwmCcw: M.Pwm
    var accelTimer: M.Timer
    var motorCountTimer: M.Timer
    var dio: map<int, int>
    var sumV: real
    var defV: real
    var ampV: real
    var zpiV: real
    var initialAmp: real
    var meterRunning: bool

    /**
     * The 27 attributes that SaveSettings persists (ADUpdateTimeMS,
     * fastMoveFreq, accelFreq, the channel numbers, the limits, ...), kept
     * together as one record; retrachChn is None until a complete load.
     */
    var cfg: Settings

    /** The contents of the settings file, None while it does not exist. */
    var settingsFile: Option<seq<Byte>>
    /** `struct.pack('d', x)` and `struct.unpack('d', b)`: native IEEE-754 bytes, kept abstract. */
    const pack: real -> Block8
    const unpack: Block8 -> real

    /** The abstract value of the window. */
    function State(): M.Motor
      reads this
    {
      M.Motor(motorPos, motorDirection, motorRunning, autoApproach, pulseFreq, startPos,
              slowTravel, fastTravel, motorDist, pwmCw, pwmCcw, accelTimer, motorCountTimer, dio,
              sumV, defV, ampV, zpiV, initialAmp, meterRunning, cfg, settingsFile)
    }

    /**
     * __init__: the DIO bit 0 cleared, the default settings, a load of the
     * settings file, then both PWM channels created at slowMoveFreq and stopped.
     */
    constructor (file: Option<seq<Byte>>, pack: real -> Block8, unpack: Block8 -> real)
      ensures State() == M.Initial(file, pack, unpack)
      ensures this.pack == pack && this.unpack == unpack
    {
      this.pack := pack;
      this.unpack := unpack;
      dio := map[0 := 0];
      cfg := M.DefaultSettings;
      sumV, defV, ampV, zpiV := 0.0, 0.0, 0.0, 0.0;
      initialAmp := 0.0;
      meterRunning := true;
      motorPos := 0;
      pulseFreq := 0;
      motorDirection := 1;
      motorRunning := false;
      autoApproach := false;
      startPos := 0;
      motorDist := 0;
      slowTravel := 0;
      fastTravel := 0;
      pwmCw := M.Pwm(false, 0, 0);
      pwmCcw := M.Pwm(false, 0, 0);
      accelTimer := M.Timer(false, 0);
      motorCountTimer := M.Timer(false, 0);
      settingsFile := file;
      new;
      LoadSettings();
      pwmCcw := M.PwmStop(M.Pwm(true, cfg.slowMoveFreq, 0));
      pwmCw := M.PwmStop(M.Pwm(true, cfg.slowMoveFreq, 0));
    }

    /** The outputs a channel command may touch. */
    function Outputs(): M.Outputs
      reads this
    {
      M.Outputs(pwmCw, pwmCcw, dio)
    }

    /** What MotorStop leaves, relative to the state before. */
    twostate predicate Stopped()
      reads this
    {
      && accelTimer == M.TimerStop(old(accelTimer)) && motorCountTimer == M.TimerStop(old(motorCountTimer))
      && pwmCw == M.PwmStop(old(pwmCw)) && pwmCcw == M.PwmStop(old(pwmCcw))
      && !motorRunning && !autoApproach && pulseFreq == 0 && slowTravel == 0 && fastTravel == 0
    }

    /** None of the fields MotorStop writes has changed. */
    twostate predicate MotionKept()
      reads this
    {
      unchanged(this`accelTimer, this`motorCountTimer, this`pwmCw, this`pwmCcw, this`motorRunning,
                this`autoApproach, this`pulseFreq, this`slowTravel, this`fastTravel)
    }

    /**
     * What MotorStart leaves, for the pulseFreq and direction now set: above
     * the ramp threshold the ramp restarts from 0 and no output changes;
     * otherwise the direction's channel is commanded at pulseFreq. The motor
     * runs and the position timer is started.
     */
    twostate predicate Started()
      reads this
    {
      && (pulseFreq > M.RampThreshold ==>
            && cfg == old(cfg).(accelFreq := 0) && accelTimer == M.TimerStart(M.AccelTimeMs)
            && Outputs() == old(Outputs()))
      && (pulseFreq <= M.RampThreshold ==>
            && cfg == old(cfg) && accelTimer == old(accelTimer)
            && Outputs() == M.Command(old(Outputs()), motorDirection, cfg, pulseFreq))
      && motorRunning && motorCountTimer == M.TimerStart(cfg.motorUpdateTimeMs)
    }

    // ----- stopping and starting -----

    method MotorStop()
      modifies this`accelTimer, this`motorCountTimer, this`pwmCw, this`pwmCcw, this`motorRunning,
               this`autoApproach, this`pulseFreq, this`slowTravel, this`fastTravel
      ensures Stopped()
    {
      accelTimer := M.TimerStop(accelTimer);
      pwmCw := M.PwmStop(pwmCw);
      pwmCcw := M.PwmStop(pwmCcw);
      motorCountTimer := M.TimerStop(motorCountTimer);
      motorRunning := false;
      autoApproach := false;
      pulseFreq := 0;
      slowTravel := 0;
      fastTravel := 0;
    }

    method MotorStopButton()
      modifies this`accelTimer, this`motorCountTimer, this`pwmCw, this`pwmCcw, this`motorRunning,
               this`autoApproach, this`pulseFreq, this`slowTravel, this`fastTravel
      ensures State() == M.MotorStop(old(State()))
    {
      MotorStop();
    }

    /** The channel command that MotorStart, FasterButtonFunction and SlowerButtonFunction each spell out. */
    method CommandChannel(f: int)
      modifies this`pwmCw, this`pwmCcw, this`dio
      ensures Outputs() == M.Command(old(Outputs()), motorDirection, cfg, f)
    {
      if motorDirection == 1 {
        if cfg.outputMode == 0 {
          pwmCw := M.PwmStart(f, cfg.powerCycle);
        } else {
          dio := dio[cfg.directionChn := 1];
          pwmCcw := M.PwmStart(f, cfg.powerCycle);
        }
      } else if motorDirection == -1 {
        if cfg.outputMode == 0 {
          pwmCcw := M.PwmStart(f, cfg.powerCycle);
        } else {
          dio := dio[cfg.directionChn := 0];
          pwmCcw := M.PwmStart(f, cfg.powerCycle);
        }
      }
    }

    method MotorStart()
      modifies this`cfg, this`accelTimer, this`pwmCw, this`pwmCcw, this`dio, this`motorRunning,
               this`motorCountTimer
      ensures Started()
    {
      if pulseFreq > 10000 {
        cfg := cfg.(accelFreq := 0);
        accelTimer := M.TimerStart(M.AccelTimeMs);
      } else {
        CommandChannel(pulseFreq);
      }
      motorRunning := true;
      motorCountTimer := M.TimerStart(cfg.motorUpdateTimeMs);
    }

    method SlowRetractButton()
      modifies this`cfg, this`accelTimer, this`pwmCw, this`pwmCcw, this`dio, this`motorRunning,
               this`motorCountTimer, this`pulseFreq, this`motorDirection, this`startPos,
               this`slowTravel, this`fastTravel
      ensures pulseFreq == old(cfg.slowMoveFreq) && motorDirection == M.Retract && startPos == motorPos
      ensures slowTravel == 1 && fastTravel == 0 && Started()
    {
      pulseFreq := cfg.slowMoveFreq;
      motorDirection := 1;
      startPos := motorPos;
      slowTravel := 1;
      fastTravel := 0;
      MotorStart();
    }

    method SlowApproachButton()
      modifies this`cfg, this`accelTimer, this`pwmCw, this`pwmCcw, this`dio, this`motorRunning,
               this`motorCountTimer, this`pulseFreq, this`motorDirection, this`startPos,
               this`slowTravel, this`fastTravel
      ensures pulseFreq == old(cfg.slowMoveFreq) && motorDirection == M.Approach && startPos == motorPos
      ensures slowTravel == 1 && fastTravel == 0 && Started()
    {
      pulseFreq := cfg.slowMoveFreq;
      motorDirection := -1;
      startPos := motorPos;
      slowTravel := 1;
      fastTravel := 0;
      MotorStart();
    }

    method FastRetractButton()
      modifies this`cfg, this`accelTimer, this`pwmCw, this`pwmCcw, this`dio, this`motorRunning,
               this`motorCountTimer, this`pulseFreq, this`motorDirection, this`startPos,
               this`slowTravel, this`fastTravel
      ensures pulseFreq == old(cfg.fastMoveFreq) && motorDirection == M.Retract && startPos == motorPos
      ensures slowTravel == 0 && fastTravel == 1 && Started()
    {
      pulseFreq := cfg.fastMoveFreq;
      motorDirection := 1;
      startPos := motorPos;
      slowTravel := 0;
      fastTravel := 1;
      MotorStart();
    }

    method FastApproachButton()
      modifies this`cfg, this`accelTimer, this`pwmCw, this`pwmCcw, this`dio, this`motorRunning,
               this`motorCountTimer, this`pulseFreq, this`motorDirection, this`startPos,
               this`slowTravel, this`fastTravel
      ensures pulseFreq == old(cfg.fastMoveFreq) && motorDirection == M.Approach && startPos == motorPos
      ensures slowTravel == 0 && fastTravel == 1 && Started()
    {
      pulseFreq := cfg.fastMoveFreq;
      motorDirection := -1;
      startPos := motorPos;
      slowTravel := 0;
      fastTravel := 1;
      MotorStart();
    }

    method AutoApproachButton()
      modifies this`cfg, this`accelTimer, this`pwmCw, this`pwmCcw, this`dio, this`motorRunning,
               this`motorCountTimer, this`pulseFreq, this`motorDirection, this`autoApproach,
               this`initialAmp
      ensures pulseFreq == old(cfg.autoApproachFreq) && motorDirection == M.Approach
      ensures autoApproach && initialAmp == ampV && Started()
    {
      pulseFreq := cfg.autoApproachFreq;
      motorDirection := -1;
      autoApproach := true;
      initialAmp := ampV;
      MotorStart();
    }

    method AutoApproachCheck()
      modifies this`accelTimer, this`motorCountTimer, this`pwmCw, this`pwmCcw, this`motorRunning,
               this`autoApproach, this`pulseFreq, this`slowTravel, this`fastTravel
      ensures M.Trips(cfg, ampV, zpiV, defV, initialAmp) ==> Stopped()
      ensures !M.Trips(cfg, ampV, zpiV, defV, initialAmp) ==> MotionKept()
    {
      if ampV < initialAmp * cfg.ampRatio || zpiV < cfg.zpiLimit || defV > cfg.defLimit {
        MotorStop();
      }
    }

    // ----- speed changes -----

    method FasterButton()
      modifies this`motorCountTimer, this`pulseFreq, this`pwmCw, this`pwmCcw, this`dio, this`motorRunning
      ensures !old(motorRunning) ==>
                unchanged(this`motorCountTimer, this`pulseFreq, this`pwmCw, this`pwmCcw, this`dio, this`motorRunning)
      ensures old(motorRunning) ==>
                && pulseFreq == old(pulseFreq) + cfg.dSpeed
                && Outputs() == M.Command(old(Outputs()), motorDirection, cfg, pulseFreq)
                && motorRunning && motorCountTimer == M.TimerStart(cfg.motorUpdateTimeMs)
    {
      if motorRunning {
        motorCountTimer := M.TimerStop(motorCountTimer);
        pulseFreq := pulseFreq + cfg.dSpeed;
        CommandChannel(pulseFreq);
        motorRunning := true;
        motorCountTimer := M.TimerStart(cfg.motorUpdateTimeMs);
      }
    }

    method SlowerButton()
      modifies this`motorCountTimer, this`pulseFreq, this`pwmCw, this`pwmCcw, this`dio, this`motorRunning
      ensures !old(motorRunning) ==>
                unchanged(this`motorCountTimer, this`pulseFreq, this`pwmCw, this`pwmCcw, this`dio, this`motorRunning)
      ensures old(motorRunning) ==>
                && pulseFreq == (if old(pulseFreq) - cfg.dSpeed < 1 then 1 else old(pulseFreq) - cfg.dSpeed)
                && Outputs() == M.Command(old(Outputs()), motorDirection, cfg, pulseFreq)
                && motorRunning && motorCountTimer == M.TimerStart(cfg.motorUpdateTimeMs)
    {
      if motorRunning {
        motorCountTimer := M.TimerStop(motorCountTimer);
        pulseFreq := pulseFreq - cfg.dSpeed;
        if pulseFreq < 1 {
          pulseFreq := 1;
        }
        CommandChannel(pulseFreq);
        motorRunning := true;
        motorCountTimer := M.TimerStart(cfg.motorUpdateTimeMs);
      }
    }

    // ----- timer ticks -----

    /**
     * What the two travel-limit tests leave, for the position now reached:
     * the motor is stopped exactly when that position is at or past the
     * armed limit, and motorDist is refreshed whenever a limit is armed.
     */
    twostate predicate LimitsChecked()
      reads this
    {
      var hit := M.LimitHit(cfg, old(slowTravel), old(fastTravel), startPos, motorPos);
      var armed := M.LimitArmed(cfg, old(slowTravel), old(fastTravel));
      && (hit ==> Stopped()) && (!hit ==> MotionKept())
      && motorDist == (if armed then M.Abs(motorPos - startPos) else old(motorDist))
    }

    /** The two travel-limit tests that close MotorCount and MotorCountAccel. */
    method CheckTravelLimits()
      modifies this`motorDist, this`accelTimer, this`motorCountTimer, this`pwmCw, this`pwmCcw,
               this`motorRunning, this`autoApproach, this`pulseFreq, this`slowTravel, this`fastTravel
      ensures LimitsChecked()
    {
      if cfg.slowLimitState != 0 && slowTravel == 1 {
        motorDist := M.Abs(motorPos - startPos);
        if motorDist >= cfg.maxTravelSlow {
          MotorStop();
        }
      }
      if cfg.fastLimitState != 0 && fastTravel == 1 {
        motorDist := M.Abs(motorPos - startPos);
        if motorDist >= cfg.maxTravelFast {
          MotorStop();
        }
      }
    }

    method MotorCountAccel()
      modifies this`motorPos, this`motorDist, this`accelTimer, this`motorCountTimer, this`pwmCw, this`pwmCcw,
               this`motorRunning, this`autoApproach, this`pulseFreq, this`slowTravel, this`fastTravel
      ensures motorPos == old(motorPos) + motorDirection * M.StepsPerTick(cfg.motorUpdateTimeMs, cfg.accelFreq)
      ensures LimitsChecked()
    {
      var dStep := M.StepsPerTick(cfg.motorUpdateTimeMs, cfg.accelFreq);
      motorPos := motorPos + motorDirection * dStep;
      CheckTravelLimits();
    }

    /**
     * The position timer's callback: the position moves by the pulses of one
     * period, at pulseFreq below the ramp threshold and at the ramp frequency
     * from it on, then the travel limits are tested.
     */
    method MotorCount()
      modifies this`motorPos, this`motorDist, this`accelTimer, this`motorCountTimer, this`pwmCw, this`pwmCcw,
               this`motorRunning, this`autoApproach, this`pulseFreq, this`slowTravel, this`fastTravel
      ensures var f := if old(pulseFreq) < M.RampThreshold then old(pulseFreq) else cfg.accelFreq;
              motorPos == old(motorPos) + motorDirection * M.StepsPerTick(cfg.motorUpdateTimeMs, f)
      ensures LimitsChecked()
    {
      if pulseFreq < 10000 {
        var dStep := M.StepsPerTick(cfg.motorUpdateTimeMs, pulseFreq);
        motorPos := motorPos + motorDirection * dStep;
        CheckTravelLimits();
      } else {
        MotorCountAccel();
      }
    }

    /**
     * The ramp timer's callback: the ramp frequency grows by `acceleration`,
     * the direction's channel follows it in output mode 0, and the ramp
     * timer stops once the ramp frequency reaches pulseFreq.
     */
    method AcceleratedMovement()
      modifies this`cfg, this`pwmCw, this`pwmCcw, this`accelTimer
      ensures cfg == old(cfg).(accelFreq := old(cfg.accelFreq) + cfg.acceleration)
      ensures pwmCw == (if cfg.outputMode == 0 && motorDirection == M.Retract
                        then M.PwmStart(cfg.accelFreq, cfg.powerCycle) else old(pwmCw))
      ensures pwmCcw == (if cfg.outputMode == 0 && motorDirection == M.Approach
                         then M.PwmStart(cfg.accelFreq, cfg.powerCycle) else old(pwmCcw))
      ensures accelTimer == (if cfg.accelFreq >= pulseFreq then M.TimerStop(old(accelTimer)) else old(accelTimer))
    {
      cfg := cfg.(accelFreq := cfg.accelFreq + cfg.acceleration);
      if motorDirection == 1 {
        if cfg.outputMode == 0 {
          pwmCw := M.PwmStart(cfg.accelFreq, cfg.powerCycle);
        }
      } else if motorDirection == -1 {
        if cfg.outputMode == 0 {
          pwmCcw := M.PwmStart(cfg.accelFreq, cfg.powerCycle);
        }
      }
      if cfg.accelFreq >= pulseFreq {
        accelTimer := M.TimerStop(accelTimer);
      }
    }

    /**
     * The acquisition timer's callback; `read` stands for the analog board's
     * a_in_read. The four samples are taken through the channel map, the
     * auto-approach monitor runs on them while the motor is running with the
     * monitor armed, and the graph counter advances while the meter runs.
     */
    method UpdateAdTimer(read: int -> real)
      modifies this`sumV, this`defV, this`ampV, this`zpiV, this`cfg,
               this`accelTimer, this`motorCountTimer, this`pwmCw, this`pwmCcw, this`motorRunning,
               this`autoApproach, this`pulseFreq, this`slowTravel, this`fastTravel
      ensures sumV == read(old(cfg.sumChn)) && defV == read(old(cfg.defChn))
      ensures ampV == read(old(cfg.ampChn)) && zpiV == read(old(cfg.zpiChn))
      ensures old(motorRunning && autoApproach) && M.Trips(old(cfg), ampV, zpiV, defV, initialAmp) ==> Stopped()
      ensures !(old(motorRunning && autoApproach) && M.Trips(old(cfg), ampV, zpiV, defV, initialAmp)) ==> MotionKept()
      ensures cfg == old(cfg).(currGraphCount := if meterRunning then M.NextGraphCount(old(cfg)) else old(cfg.currGraphCount))
    {
      sumV := read(cfg.sumChn);
      defV := read(cfg.defChn);
      ampV := read(cfg.ampChn);
      zpiV := read(cfg.zpiChn);
      if motorRunning && autoApproach {
        AutoApproachCheck();
      }
      if meterRunning {
        cfg := cfg.(currGraphCount := cfg.currGraphCount + 1);
        if cfg.currGraphCount * cfg.adUpdateTimeMs >= cfg.graphUpdateTimeMs {
          cfg := cfg.(currGraphCount := 0);
        }
      }
    }

    method MeterStopButton()
      modifies this`meterRunning
      ensures meterRunning == !old(meterRunning)
    {
      meterRunning := !meterRunning;
    }

    // ----- settings handlers -----

    /** UpDownButtonFunction: one setting moves by its step (clamped going down), then the file is saved. */
    method UpDownButton(b: M.SettingButton)
      modifies this`cfg, this`settingsFile
      ensures cfg == M.AdjustSetting(old(cfg), b) && settingsFile == Some(SaveBytes(cfg, pack))
    {
      match b {
        case AutoAppUp => cfg := cfg.(autoApproachFreq := cfg.autoApproachFreq + cfg.dSpeed);
        case SlowSpeedUp => cfg := cfg.(slowMoveFreq := cfg.slowMoveFreq + cfg.dSpeed);
        case FastSpeedUp => cfg := cfg.(fastMoveFreq := cfg.fastMoveFreq + cfg.dSpeed);
        case AccelerationUp => cfg := cfg.(acceleration := cfg.acceleration + M.TruncDiv(cfg.dSpeed, 10));
        case AmplitudeUp => cfg := cfg.(ampRatio := cfg.ampRatio + 0.05);
        case DeflectionUp => cfg := cfg.(defLimit := cfg.defLimit + 0.2);
        case ZPiezoUp => cfg := cfg.(zpiLimit := cfg.zpiLimit + 0.2);
        case AutoAppDown =>
          cfg := cfg.(autoApproachFreq := cfg.autoApproachFreq - cfg.dSpeed);
          if cfg.autoApproachFreq < 0 { cfg := cfg.(autoApproachFreq := 0); }
        case SlowSpeedDown =>
          cfg := cfg.(slowMoveFreq := cfg.slowMoveFreq - cfg.dSpeed);
          if cfg.slowMoveFreq < 0 { cfg := cfg.(slowMoveFreq := 0); }
        case FastSpeedDown =>
          cfg := cfg.(fastMoveFreq := cfg.fastMoveFreq - cfg.dSpeed);
          if cfg.fastMoveFreq < 0 { cfg := cfg.(fastMoveFreq := 0); }
        case AccelerationDown =>
          cfg := cfg.(acceleration := cfg.acceleration - M.TruncDiv(cfg.dSpeed, 10));
          if cfg.acceleration < 0 { cfg := cfg.(acceleration := 0); }
        case AmplitudeDown =>
          cfg := cfg.(ampRatio := cfg.ampRatio - 0.05);
          if cfg.ampRatio < 0.0 { cfg := cfg.(ampRatio := 0.0); }
        case DeflectionDown =>
          cfg := cfg.(defLimit := cfg.defLimit - 0.2);
          if cfg.defLimit < -10.0 { cfg := cfg.(defLimit := -10.0); }
        case ZPiezoDown =>
          cfg := cfg.(zpiLimit := cfg.zpiLimit - 0.2);
          if cfg.zpiLimit < -10.0 { cfg := cfg.(zpiLimit := -10.0); }
        case OtherButton =>
      }
      var written := SaveSettings();
    }

    method SlowLimitCheck()
      modifies this`cfg, this`settingsFile
      ensures cfg == old(cfg).(slowLimitState := M.ToggleLimit(old(cfg.slowLimitState)))
      ensures settingsFile == Some(SaveBytes(cfg, pack))
    {
      if cfg.slowLimitState == 0 {
        cfg := cfg.(slowLimitState := 1);
      } else {
        cfg := cfg.(slowLimitState := 0);
      }
      var written := SaveSettings();
    }

    method FastLimitCheck()
      modifies this`cfg, this`settingsFile
      ensures cfg == old(cfg).(fastLimitState := M.ToggleLimit(old(cfg.fastLimitState)))
      ensures settingsFile == Some(SaveBytes(cfg, pack))
    {
      if cfg.fastLimitState == 0 {
        cfg := cfg.(fastLimitState := 1);
      } else {
        cfg := cfg.(fastLimitState := 0);
      }
      var written := SaveSettings();
    }

    method OutputSelect(index: int)
      modifies this`cfg, this`settingsFile
      ensures cfg == old(cfg).(outputMode := index) && settingsFile == Some(SaveBytes(cfg, pack))
    {
      cfg := cfg.(outputMode := index);
      var written := SaveSettings();
    }

    method DoAdvancedSettings(box: M.AdvancedBox, value: int)
      modifies this`cfg, this`settingsFile
      ensures cfg == M.AdvancedSetting(old(cfg), box, value) && settingsFile == Some(SaveBytes(cfg, pack))
    {
      match box {
        case DirectionChnBox => cfg := cfg.(directionChn := value);
        case ApproachChnBox => cfg := cfg.(approachChn := value);
        case RetractChnBox => cfg := cfg.(retractChn := value);
        case SumChnBox => cfg := cfg.(sumChn := value);
        case DefChnBox => cfg := cfg.(defChn := value);
        case AmpChnBox => cfg := cfg.(ampChn := value);
        case ZChnBox => cfg := cfg.(zpiChn := value);
        case PowerCycleBox => cfg := cfg.(powerCycle := value);
        case MaxTravFastBox => cfg := cfg.(maxTravelFast := value);
        case MaxTravSlowBox => cfg := cfg.(maxTravelSlow := value);
        case AdIntervalBox => cfg := cfg.(adUpdateTimeMs := value);
        case GraphIntervalBox => cfg := cfg.(graphUpdateTimeMs := value);
        case OtherBox =>
      }
      var written := SaveSettings();
    }

    // ----- the signal/slot connections -----
    //
    // Each widget signal and timer timeout runs its slot; each method below
    // is one such connection, proved to leave the state MotorModel computes.

    /** The slow-retract button. */
    method OnSlowRetract()
      modifies this
      ensures State() == M.PressStart(old(State()), M.SlowRetract)
    {
      SlowRetractButton();
    }

    /** The slow-approach button. */
    method OnSlowApproach()
      modifies this
      ensures State() == M.PressStart(old(State()), M.SlowApproach)
    {
      SlowApproachButton();
    }

    /** The fast-retract button. */
    method OnFastRetract()
      modifies this
      ensures State() == M.PressStart(old(State()), M.FastRetract)
    {
      FastRetractButton();
    }

    /** The fast-approach button. */
    method OnFastApproach()
      modifies this
      ensures State() == M.PressStart(old(State()), M.FastApproach)
    {
      FastApproachButton();
    }

    /** The auto-approach button. */
    method OnAutoApproach()
      modifies this
      ensures State() == M.PressAutoApproach(old(State()))
    {
      AutoApproachButton();
    }

    /** The faster button. */
    method OnFaster()
      modifies this
      ensures State() == M.Faster(old(State()))
    {
      FasterButton();
    }

    /** The slower button. */
    method OnSlower()
      modifies this
      ensures State() == M.Slower(old(State()))
    {
      SlowerButton();
    }

    /** An up or down button of the settings tab. */
    method OnSettingButton(b: M.SettingButton)
      modifies this
      ensures State() == M.UpDownButton(old(State()), b, pack)
    {
      UpDownButton(b);
    }

    /** The slow travel-limit check box. */
    method OnSlowLimit()
      modifies this
      ensures State() == M.SlowLimitCheck(old(State()), pack)
    {
      SlowLimitCheck();
    }

    /** The fast travel-limit check box. */
    method OnFastLimit()
      modifies this
      ensures State() == M.FastLimitCheck(old(State()), pack)
    {
      FastLimitCheck();
    }

    /** The meter start/stop button. */
    method OnMeterButton()
      modifies this
      ensures State() == M.MeterStopButton(old(State()))
    {
      MeterStopButton();
    }

    /** The output-mode selector. */
    method OnOutputMode(index: int)
      modifies this
      ensures State() == M.OutputSelect(old(State()), index, pack)
    {
      OutputSelect(index);
    }

    /** A spin box of the advanced tab. */
    method OnAdvancedSetting(box: M.AdvancedBox, value: int)
      modifies this
      ensures State() == M.DoAdvancedSettings(old(State()), box, value, pack)
    {
      DoAdvancedSettings(box, value);
    }

    /** The ramp timer's timeout. */
    method OnAccelTimeout()
      modifies this
      ensures State() == M.AcceleratedMovement(old(State()))
    {
      AcceleratedMovement();
    }

    /** The position timer's timeout. */
    method OnCountTimeout()
      modifies this
      ensures State() == M.MotorCount(old(State()))
    {
      MotorCount();
    }

    /** The acquisition timer's timeout; `read` stands for the analog board. */
    method OnAdTimeout(read: int -> real)
      modifies this
      ensures State() == M.UpdateAdTimer(old(State()), read)
    {
      ghost var m := State();
      UpdateAdTimer(read);
      ghost var s := m.(sumV := sumV, defV := defV, ampV := ampV, zpiV := zpiV);
      if m.running && m.autoApproach && M.ApproachTrips(s) {
        assert State() == M.MotorStop(s).(cfg := cfg);
      } else {
        assert State() == s.(cfg := cfg);
      }
    }

    /**
     * Any input: a button, a check box or a widget delivered to its slot, or
     * a timer period elapsing, whose callback runs only while that timer is
     * active. The window then holds the state MotorModel.Step computes.
     */
    method Deliver(e: M.Input)
      modifies this
      ensures State() == M.Step(old(State()), e, pack)
    {
      match e {
        case Start(b) =>
          match b {
            case SlowRetract => OnSlowRetract();
            case SlowApproach => OnSlowApproach();
            case FastRetract => OnFastRetract();
            case FastApproach => OnFastApproach();
          }
        case AutoApproachPress => OnAutoApproach();
        case StopPress => MotorStopButton();
        case FasterPress => OnFaster();
        case SlowerPress => OnSlower();
        case SettingPress(b) => OnSettingButton(b);
        case SlowLimitToggle => OnSlowLimit();
        case FastLimitToggle => OnFastLimit();
        case MeterToggle => OnMeterButton();
        case OutputChoice(i) => OnOutputMode(i);
        case AdvancedEdit(box, v) => OnAdvancedSetting(box, v);
        case AccelPeriod =>
          if accelTimer.active {
            OnAccelTimeout();
          }
        case CountPeriod =>
          if motorCountTimer.active {
            OnCountTimeout();
          }
        case AdPeriod(read) => OnAdTimeout(read);
      }
    }

    // ----- the settings file -----

    /**
     * SaveSettings: truncate the file and write the 34 slots in order; an
     * integer outside [0, 2^64) raises in `to_bytes`, which leaves the slots
     * written so far. `written` is false exactly when that happens.
     */
    method SaveSettings() returns (written: bool)
      modifies this`settingsFile
      ensures settingsFile == Some(SaveBytes(cfg, pack))
      ensures written <==> SettingsFit(cfg)
    {
      var rec := Record(cfg);
      var out: seq<Byte> := [];
      settingsFile := Some(out);
      var i := 0;
      while i < FieldCount
        invariant 0 <= i <= FieldCount
        invariant Encode(rec[..i], pack) == Written(out, true)
        invariant settingsFile == Some(out)
        invariant rec == Record(cfg)
      {
        var v := rec[i];
        assert rec[..i + 1][..i] == rec[..i];
        if v.IntValue? && !FitsU64(v.n) {
          EncodeFailureIsFinal(rec, pack, i + 1);
          EncodeOkIffAllFit(rec, pack);
          return false;
        }
        out := out + Slot(v, pack);
        settingsFile := Some(out);
        i := i + 1;
      }
      assert rec[..i] == rec;
      EncodeOkIffAllFit(rec, pack);
      written := true;
    }

    /**
     * LoadSettings: read the slots in order, each assignment taking effect at
     * once; a missing file, or a float slot with fewer than 8 bytes left,
     * raises and the except-clause saves a fresh file.
     */
    method LoadSettings()
      modifies this`cfg, this`settingsFile
      ensures var l := LoadFrom(old(settingsFile), old(cfg), unpack);
              && cfg == l.cfg
              && settingsFile == (if l.ok then old(settingsFile) else Some(SaveBytes(cfg, pack)))
    {
      if settingsFile.None? {
        var written := SaveSettings();
        return;
      }
      var f := settingsFile.value;
      var c := cfg;
      c := c.(adUpdateTimeMs := IntAt(f, 0));
      c := c.(graphUpdateTimeMs := IntAt(f, 1));
      c := c.(currGraphCount := IntAt(f, 2));
      c := c.(fastMoveFreq := IntAt(f, 3));
      c := c.(slowMoveFreq := IntAt(f, 4));
      c := c.(autoApproachFreq := IntAt(f, 5));
      c := c.(acceleration := IntAt(f, 6));
      c := c.(dSpeed := IntAt(f, 7));
      c := c.(powerCycle := IntAt(f, 8));
      c := c.(accelFreq := IntAt(f, 9));
      c := c.(approachChn := IntAt(f, 10));
      c := c.(retractChn := IntAt(f, 11));
      c := c.(sumChn := IntAt(f, 12));
      c := c.(defChn := IntAt(f, 13));
      c := c.(ampChn := IntAt(f, 14));
      c := c.(zpiChn := IntAt(f, 15));
      if !HasBlock(f, 16) {
        cfg := c;
        var written := SaveSettings();
        return;
      }
      c := c.(defLimit := unpack(BlockAt(f, 16)));
      if !HasBlock(f, 17) {
        cfg := c;
        var written := SaveSettings();
        return;
      }
      c := c.(zpiLimit := unpack(BlockAt(f, 17)));
      if !HasBlock(f, 18) {
        cfg := c;
        var written := SaveSettings();
        return;
      }
      c := c.(ampRatio := unpack(BlockAt(f, 18)));
      var dummy := IntAt(f, 19);
      c := c.(outputMode := IntAt(f, 20));
      c := c.(adUpdateTimeMs := IntAt(f, 21));
      c := c.(graphUpdateTimeMs := IntAt(f, 22));
      c := c.(maxTravelFast := IntAt(f, 23));
      c := c.(maxTravelSlow := IntAt(f, 24));
      c := c.(directionChn := IntAt(f, 25));
      c := c.(approachChn := IntAt(f, 26));
      c := c.(retrachChn := Some(IntAt(f, 27)));
      c := c.(sumChn := IntAt(f, 28));
      c := c.(defChn := IntAt(f, 29));
      c := c.(ampChn := IntAt(f, 30));
      c := c.(zpiChn := IntAt(f, 31));
      c := c.(fastLimitState := IntAt(f, 32));
      c := c.(slowLimitState := IntAt(f, 33));
      cfg := c;
    }
  }
}

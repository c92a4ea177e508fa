/** The PiFace stepper focuser driver: the object whose fields the move
    routines update step by step, with every register write it issues
    recorded in a ghost log. The stepping routine, the three moves, the reset
    and preset switches and the parking move on disconnect are proved to have
    exactly the effect that module Motion defines for them; abort, connect,
    the port switch, the per-step write and the setters state their effect
    directly. */
module Focuser {
  import opened Mcp23s17
  import opened Phases
  import opened Motion

  class PiFaceFocuser {
    /** Tracked absolute position (`FocusAbsPosN[0].value`). */
    var pos: int
    /** Direction of the last move (`dir`). */
    var dir: Direction
    /** Phase cursor; rests in 0..8 between calls (`step_index`). */
    var stepIndex: int
    /** Backlash pre-roll steps (`FocusBacklashN[0].value`). */
    var backlash: int
    /** Step delay in milliseconds (`MotorDelayN[0].value`). */
    var delay: int
    /** Motor polarity switch set to "Reverse" (`MotorDirS[1]`). */
    var reversed: bool
    /** Port A selected (`GPIOSelectS[0]`); port B otherwise. */
    var portA: bool
    /** Park on disconnect enabled (`FocusParkingS[0]`). */
    var parking: bool
    /** The framework's connection state, as `isConnected()` reports it. */
    var connected: bool
    /** The three preset positions (`PresetN[0..2].value`). */
    var presets: seq<int>
    /** What the stepping loop reads as its phase table. The array it reads is
        declared without an initialiser (the literal tables shadow it in inner
        blocks), so its contents are left open: any 8 values, fixed per object. */
    const stepStates: seq<int>
    /** Every register write issued so far, in order. */
    ghost var log: seq<Write>

    ghost predicate Valid()
      reads this
    {
      |stepStates| == TableSize && 0 <= stepIndex <= TableSize && delay >= 1 && |presets| == 3
    }

    /** The tracked motor state. */
    function State(): MotorState
      reads this
    {
      MotorState(pos, dir, stepIndex)
    }

    /** What moves read and never change. */
    function Config(): MotorConfig
      reads this
    {
      MotorConfig(stepStates, portA, backlash)
    }

    /** The defaults of initProperties. */
    constructor (stepStates: seq<int>)
      requires |stepStates| == TableSize
      ensures Valid()
      ensures State() == MotorState(0, Outward, 0)
      ensures backlash == 0 && delay == 2 && !reversed && portA && parking && !connected
      ensures presets == [0, 0, 0] && this.stepStates == stepStates && log == []
    {
      pos := 0;
      dir := Outward;
      stepIndex := 0;
      backlash := 0;
      delay := 2;
      reversed := false;
      portA := true;
      parking := true;
      connected := false;
      presets := [0, 0, 0];
      this.stepStates := stepStates;
      log := [];
    }

    /** StepperMotor(steps, direction): `steps` iterations (none when steps is
        not positive), each moving the tracked position one step in the
        direction held in `dir` (the parameter has no effect), reading the next
        phase code cyclically and writing its payload to the selected GPIO
        register; then one coast write of 0x00 to that register. */
    method StepperMotor(steps: int, direction: Direction)
      requires Valid()
      modifies `pos, `stepIndex, `log
      ensures Valid()
      ensures var e := Run(old(Config()), old(State()), steps);
        State() == e.motor && log == old(log) + e.writes
    {
      ghost var c0, log0 := stepIndex, log;
      var i := 0;
      var payload: bv32 := 0x00;
      while i < steps
        invariant 0 <= i <= Ticks(steps)
        invariant 0 <= stepIndex <= TableSize
        invariant stepIndex == Cursor(c0, i)
        invariant pos == old(pos) + Signed(dir, i)
        invariant log == log0 + PhaseWrites(stepStates, portA, c0, i)
        invariant portA ==> payload & 0x0f == 0
        invariant !portA ==> payload & 0xf0 == 0
      {
        if dir == Inward {
          pos := pos - 1;
        }
        if dir == Outward {
          pos := pos + 1;
        }

        if stepIndex == TableSize {
          stepIndex := 0;
        }
        var value := stepStates[stepIndex];
        stepIndex := stepIndex + 1;

        ghost var done := PhaseWrites(stepStates, portA, c0, i);
        assert PhaseWrites(stepStates, portA, c0, i + 1) == done + [Write(Gpio(portA), PhasePayload(portA, value))];
        payload := WritePhase(payload, value);
        AppendAssoc(log0, done, [Write(Gpio(portA), PhasePayload(portA, value))]);
        i := i + 1;
      }

      // Coast.
      AppendAssoc(log0, PhaseWrites(stepStates, portA, c0, i), [Coast(portA)]);
      if portA {
        log := log + [Write(GPIOA, 0x00)];
      } else {
        log := log + [Write(GPIOB, 0x00)];
      }
    }

    /** The body of one loop iteration after the phase code is read: the
        payload accumulator updated for the selected port, then written to
        that port's GPIO register. */
    method WritePhase(payload: bv32, value: int) returns (next: bv32)
      requires portA ==> payload & 0x0f == 0
      requires !portA ==> payload & 0xf0 == 0
      modifies `log
      ensures next as int == PhasePayload(portA, value)
      ensures portA ==> next & 0x0f == 0
      ensures !portA ==> next & 0xf0 == 0
      ensures log == old(log) + [Write(Gpio(portA), PhasePayload(portA, value))]
    {
      next := Accumulate(payload, portA, value);
      if portA {
        log := log + [Write(GPIOA, next as int)];
      } else {
        log := log + [Write(GPIOB, next as int)];
      }
    }

    /** MoveAbsFocuser(targetTicks). */
    method MoveAbsFocuser(targetTicks: int) returns (status: IPState)
      requires Valid()
      modifies `pos, `dir, `stepIndex, `log
      ensures Valid()
      ensures var o := MoveAbs(old(Config()), old(State()), targetTicks);
        status == o.status && State() == o.motor && log == old(log) + o.writes
      ensures status == Alert <==> targetTicks < MinPos || targetTicks > MaxSteps
      ensures status == Alert ==> State() == old(State()) && log == old(log)
    {
      if targetTicks < MinPos || targetTicks > MaxSteps {
        return Alert;
      }
      if targetTicks == pos {
        return Ok;
      }

      ghost var cfg, m, log0 := Config(), State(), log;
      ghost var m1 := m.(dir := NewDir(m.pos, targetTicks));
      ghost var pre := if PreRolls(cfg, m, targetTicks) then Run(cfg, m1, cfg.backlash) else Effect(m1, []);
      ghost var main := Run(cfg, pre.motor, Abs(targetTicks - pre.motor.pos));

      var lastdir := dir;
      if targetTicks > pos {
        dir := Outward;
      } else {
        dir := Inward;
      }

      if lastdir != dir && pos != 0 && backlash != 0 {
        StepperMotor(backlash, dir);
      } else {
        assert log0 + pre.writes == log0;
      }
      ghost var log1 := log;
      assert State() == pre.motor && log1 == log0 + pre.writes;

      var ticks := Abs(targetTicks - pos);
      assert Config() == cfg && ticks == Abs(targetTicks - pre.motor.pos);
      StepperMotor(ticks, dir);
      AppendAssoc(log0, pre.writes, main.writes);
      return Ok;
    }

    /** MoveRelFocuser(direction, ticks). */
    method MoveRelFocuser(direction: Direction, ticks: int) returns (status: IPState)
      requires Valid()
      modifies `pos, `dir, `stepIndex, `log
      ensures Valid()
      ensures var o := MoveRel(old(Config()), old(State()), direction, ticks);
        status == o.status && State() == o.motor && log == old(log) + o.writes
    {
      var targetTicks := pos + ticks * (if direction == Inward then -1 else 1);
      status := MoveAbsFocuser(targetTicks);
    }

    /** MoveFocuser(direction, speed, duration). */
    method MoveFocuser(direction: Direction, speed: int, duration: int) returns (status: IPState)
      requires Valid()
      modifies `pos, `dir, `stepIndex, `log
      ensures Valid()
      ensures var o := MoveTimed(old(Config()), old(State()), delay, direction, duration);
        status == o.status && State() == o.motor && log == old(log) + o.writes
    {
      var ticks := TimedTicks(duration, delay);
      status := MoveRelFocuser(direction, ticks);
    }

    /** AbortFocuser: a brake write of 0xf0 and a coast write of 0x00 to the
        selected GPIO register, the same value for either port; the tracked
        state is left as it is. */
    method AbortFocuser() returns (ok: bool)
      modifies `log
      ensures ok
      ensures log == old(log) + [Write(Gpio(portA), 0xf0), Write(Gpio(portA), 0x00)]
      ensures State() == old(State())
    {
      if portA {
        log := log + [Write(GPIOA, 0xf0)];
      } else {
        log := log + [Write(GPIOB, 0xf0)];
      }
      if portA {
        log := log + [Write(GPIOA, 0x00)];
      } else {
        log := log + [Write(GPIOB, 0x00)];
      }
      ok := true;
    }

    /** Connect, with `openOk` the outcome of opening the device. On failure
        nothing is written and false is returned; on success the IOCON value,
        then all-outputs to the selected port's direction register, then
        pull-ups off for that port, and the framework records the connection. */
    method Connect(openOk: bool) returns (ok: bool)
      modifies `log, `connected
      ensures ok == openOk
      ensures !ok ==> log == old(log) && connected == old(connected)
      ensures ok ==> connected
      ensures ok ==> log == old(log) + [Write(IOCON, IoConfig), Write(IoDir(portA), 0x00), Write(PullUp(portA), 0x00)]
      ensures State() == old(State())
    {
      if !openOk {
        return false;
      }
      log := log + [Write(IOCON, IoConfig)];
      if portA {
        log := log + [Write(IODIRA, 0x00)];
      } else {
        log := log + [Write(IODIRB, 0x00)];
      }
      if portA {
        log := log + [Write(GPPUA, 0x00)];
      } else {
        log := log + [Write(GPPUB, 0x00)];
      }
      connected := true;
      ok := true;
    }

    /** Disconnect: with parking enabled, first an absolute move to the minimum
        position, whatever its status; then the device is closed in every case
        and the framework records the disconnection. */
    method Disconnect() returns (ok: bool)
      requires Valid()
      modifies `pos, `dir, `stepIndex, `log, `connected
      ensures Valid() && ok && !connected
      ensures parking ==> var o := MoveAbs(old(Config()), old(State()), MinPos);
        State() == o.motor && log == old(log) + o.writes
      ensures !parking ==> State() == old(State()) && log == old(log)
    {
      if parking {
        var _ := MoveAbsFocuser(MinPos);
      }
      connected := false;
      ok := true;
    }

    /** The port-selection switch: refused while connected, leaving the port
        as it was; otherwise the requested port is selected. */
    method SelectPort(wantA: bool) returns (ok: bool)
      modifies `portA
      ensures ok == !connected
      ensures portA == (if ok then wantA else old(portA))
    {
      if connected {
        return false;
      }
      portA := wantA;
      ok := true;
    }

    /** The position-reset switch: when on and at the minimum position, the
        tracked position is set to 200 and the focuser is moved to 0. */
    method ResetSwitch(on: bool)
      requires Valid()
      modifies `pos, `dir, `stepIndex, `log
      ensures Valid()
      ensures var e := ResetFromZero(old(Config()), old(State()), on);
        State() == e.motor && log == old(log) + e.writes
    {
      if on && pos == MinPos {
        pos := ResetPos;
        var _ := MoveAbsFocuser(0);
      }
    }

    /** The goto-preset switch, given which of its three switches are on after
        the update: the three branches in order, each an absolute move to its
        preset. */
    method GotoPresetSwitch(on: seq<bool>)
      requires Valid() && |on| == 3
      modifies `pos, `dir, `stepIndex, `log
      ensures Valid()
      ensures var e := GotoPresets(old(Config()), old(State()), presets, on);
        State() == e.motor && log == old(log) + e.writes
    {
      ghost var cfg, log0 := Config(), log;
      ghost var e1 := MaybeMove(cfg, State(), on[0], presets[0]);
      ghost var e2 := MaybeMove(cfg, e1.motor, on[1], presets[1]);
      ghost var e3 := MaybeMove(cfg, e2.motor, on[2], presets[2]);
      if on[0] {
        var _ := MoveAbsFocuser(presets[0]);
      }
      ghost var log1 := log;
      assert State() == e1.motor && log1 == log0 + e1.writes;
      if on[1] {
        var _ := MoveAbsFocuser(presets[1]);
      }
      ghost var log2 := log;
      assert State() == e2.motor && log2 == log1 + e2.writes;
      if on[2] {
        var _ := MoveAbsFocuser(presets[2]);
      }
      assert State() == e3.motor && log == log2 + e3.writes;
      AppendAssoc(log0, e1.writes, e2.writes);
      AppendAssoc(log0, e1.writes + e2.writes, e3.writes);
    }

    // The number handlers take a new value through the framework's
    // IUUpdateNumber, which refuses a value outside the property's range and
    // then leaves the property as it was. The result `accepted` is that
    // acceptance; the handlers themselves return true either way (lines 293
    // and 302).

    /** The step-delay number property, ranging over 1 to 100 ms. */
    method SetDelay(ms: int) returns (accepted: bool)
      requires Valid()
      modifies `delay
      ensures Valid()
      ensures accepted <==> 1 <= ms <= 100
      ensures delay == (if accepted then ms else old(delay))
    {
      if ms < 1 || ms > 100 {
        return false;
      }
      delay := ms;
      accepted := true;
    }

    /** The backlash number property, ranging over 0 to 100 steps. */
    method SetBacklash(steps: int) returns (accepted: bool)
      modifies `backlash
      ensures accepted <==> 0 <= steps <= 100
      ensures backlash == (if accepted then steps else old(backlash))
    {
      if steps < 0 || steps > 100 {
        return false;
      }
      backlash := steps;
      accepted := true;
    }

    /** One of the three preset number properties, each ranging over the
        absolute positions 0 to 20000. */
    method SetPreset(k: int, position: int) returns (accepted: bool)
      requires Valid() && 0 <= k < 3
      modifies `presets
      ensures Valid()
      ensures accepted <==> InRange(position)
      ensures presets == (if accepted then old(presets)[k := position] else old(presets))
    {
      if !InRange(position) {
        return false;
      }
      presets := presets[k := position];
      accepted := true;
    }

    /** The parking switch only records its new setting. */
    method SetParking(on: bool)
      modifies `parking
      ensures parking == on
    {
      parking := on;
    }

    /** The motor-direction switch only records its new setting; no move reads
        it, since the phase tables it selects are never used. */
    method SetReversed(on: bool)
      modifies `reversed
      ensures reversed == on
    {
      reversed := on;
    }
  }
}

/** The focuser's motion logic as functions of its tracked state: what one
    call of the stepping routine, of the absolute, relative and timed moves, of
    the position reset and of the preset goto does to the tracked position,
    the last direction and the phase cursor, and which register writes it
    issues, in order. The class in module Focuser is proved to behave exactly
    like these functions. */
module Motion {
  import opened Mcp23s17
  import opened Phases

  lemma AppendAssoc<T>(a: seq<T>, b: seq<T>, c: seq<T>)
    ensures (a + b) + c == a + (b + c)
  {
  }

  /** Bounds of the absolute position (the property's minimum and maximum). */
  const MinPos := 0
  const MaxSteps := 20000

  /** The position the reset switch pretends the focuser is at before it
      drives it back to 0 (`MAX_STEPS/100`). */
  const ResetPos := MaxSteps / 100

  /** The move status reported to the framework. */
  datatype IPState = Ok | Alert

  /** Tracked position, last motion direction and phase cursor `step_index`. */
  datatype MotorState = MotorState(pos: int, dir: Direction, cursor: int)

  /** What a move reads and never changes: the phase table the loop reads, the
      selected port (true for port A) and the backlash steps. */
  datatype MotorConfig = MotorConfig(table: seq<int>, portA: bool, backlash: int)

  /** The state after an operation and the register writes it issued, in order. */
  datatype Effect = Effect(motor: MotorState, writes: seq<Write>)

  /** An Effect together with the status a move returns. */
  datatype Outcome = Outcome(status: IPState, motor: MotorState, writes: seq<Write>)

  predicate Wf(cfg: MotorConfig, m: MotorState) {
    |cfg.table| == TableSize && 0 <= m.cursor <= TableSize
  }

  /** The number of iterations of `for (i = 0; i < steps; i++)`. */
  function Ticks(steps: int): nat {
    if steps > 0 then steps else 0
  }

  function Abs(x: int): nat {
    if x < 0 then -x else x
  }

  /** n steps taken in direction d, as a change of position. */
  function Signed(d: Direction, n: int): int {
    if d == Outward then n else -n
  }

  /** The write that de-energises the coils of the selected port. */
  function Coast(portA: bool): Write {
    Write(Gpio(portA), 0x00)
  }

  /** StepperMotor(steps, _): one position update per iteration in the
      direction held in the state (not the routine's parameter), one phase
      write per iteration, then the coast write. */
  function Run(cfg: MotorConfig, m: MotorState, steps: int): (e: Effect)
    requires Wf(cfg, m)
    ensures Wf(cfg, e.motor)
  {
    var n := Ticks(steps);
    Effect(MotorState(m.pos + Signed(m.dir, n), m.dir, Cursor(m.cursor, n)),
           PhaseWrites(cfg.table, cfg.portA, m.cursor, n) + [Coast(cfg.portA)])
  }

  /** What one call of the stepping routine does: `steps` steps (none when
      not positive) in the state's direction, which it keeps; the cursor ends
      one past the last index read, and the next read is at (c + n) mod 8;
      then n phase writes to the selected GPIO register, the j-th with the
      payload of table entry (c + j) mod 8, and last the coast write. */
  lemma RunTrace(cfg: MotorConfig, m: MotorState, steps: int)
    requires Wf(cfg, m)
    ensures var e, n := Run(cfg, m, steps), Ticks(steps);
      e.motor.pos == m.pos + Signed(m.dir, n) && e.motor.dir == m.dir &&
      ReadIndex(e.motor.cursor) == (m.cursor + n) % TableSize &&
      |e.writes| == n + 1 && e.writes[n] == Coast(cfg.portA) &&
      forall j :: 0 <= j < n ==>
        e.writes[j] == Write(Gpio(cfg.portA), PhasePayload(cfg.portA, cfg.table[(m.cursor + j) % TableSize]))
    ensures steps <= 0 ==> Run(cfg, m, steps) == Effect(m, [Coast(cfg.portA)])
  {
    var n := Ticks(steps);
    CursorClosedForm(m.cursor, n);
    PhaseWritesAt(cfg.table, cfg.portA, m.cursor, n);
  }

  predicate InRange(target: int) {
    MinPos <= target <= MaxSteps
  }

  /** The direction a move to `target` from `pos` takes. */
  function NewDir(pos: int, target: int): Direction {
    if target > pos then Outward else Inward
  }

  /** Whether a move to `target` starts with a backlash pre-roll: the direction
      reverses, the focuser is not at 0 and a backlash is configured. */
  predicate PreRolls(cfg: MotorConfig, m: MotorState, target: int) {
    m.dir != NewDir(m.pos, target) && m.pos != 0 && cfg.backlash != 0
  }

  /** Steps taken by the pre-roll of a move. */
  function PreRollSteps(cfg: MotorConfig, m: MotorState, target: int): nat {
    if PreRolls(cfg, m, target) then Ticks(cfg.backlash) else 0
  }

  /** Steps taken by the main part of a move: the distance left once the
      pre-roll has moved the tracked position. */
  function MainSteps(cfg: MotorConfig, m: MotorState, target: int): nat {
    Abs(target - (m.pos + Signed(NewDir(m.pos, target), PreRollSteps(cfg, m, target))))
  }

  /** MoveAbsFocuser(target). */
  function MoveAbs(cfg: MotorConfig, m: MotorState, target: int): (o: Outcome)
    requires Wf(cfg, m)
    ensures Wf(cfg, o.motor)
  {
    if !InRange(target) then Outcome(Alert, m, [])
    else if target == m.pos then Outcome(Ok, m, [])
    else
      var m1 := m.(dir := NewDir(m.pos, target));
      var pre := if PreRolls(cfg, m, target) then Run(cfg, m1, cfg.backlash) else Effect(m1, []);
      var main := Run(cfg, pre.motor, Abs(target - pre.motor.pos));
      Outcome(Ok, main.motor, pre.writes + main.writes)
  }

  /** A target outside [0, 20000] is refused with Alert, and only such a target
      is; a refused move writes nothing and changes nothing. */
  lemma MoveAbsRejects(cfg: MotorConfig, m: MotorState, target: int)
    requires Wf(cfg, m)
    ensures MoveAbs(cfg, m, target).status == Alert <==> !InRange(target)
    ensures !InRange(target) ==> MoveAbs(cfg, m, target) == Outcome(Alert, m, [])
  {
  }

  /** A move writes nothing exactly when it is refused or the focuser is
      already at the target; then the state is unchanged. */
  lemma MoveAbsNoOp(cfg: MotorConfig, m: MotorState, target: int)
    requires Wf(cfg, m)
    ensures MoveAbs(cfg, m, target).writes == [] <==> (!InRange(target) || target == m.pos)
    ensures MoveAbs(cfg, m, target).writes == [] ==> MoveAbs(cfg, m, target).motor == m
    ensures InRange(target) && target == m.pos ==> MoveAbs(cfg, m, target).status == Ok
  {
  }

  /** An in-range move that goes somewhere succeeds, and its direction,
      recorded before any stepping, is outward exactly when the target lies
      above the starting position. */
  lemma MoveAbsDirection(cfg: MotorConfig, m: MotorState, target: int)
    requires Wf(cfg, m) && InRange(target) && target != m.pos
    ensures MoveAbs(cfg, m, target).status == Ok
    ensures MoveAbs(cfg, m, target).motor.dir == Outward <==> target > m.pos
  {
  }

  /** An in-range move that goes somewhere, spelled out: k pre-roll steps
      (k = 0 without a pre-roll, and then no pre-roll writes at all), then the
      main steps from where the pre-roll left the cursor, both in the new
      direction. */
  lemma MoveAbsUnfold(cfg: MotorConfig, m: MotorState, target: int)
    requires Wf(cfg, m) && InRange(target) && target != m.pos
    ensures var o, dir, k, n := MoveAbs(cfg, m, target), NewDir(m.pos, target), PreRollSteps(cfg, m, target), MainSteps(cfg, m, target);
      o.status == Ok &&
      o.motor == MotorState(m.pos + Signed(dir, k) + Signed(dir, n), dir, Cursor(Cursor(m.cursor, k), n))
    ensures var o, k, n := MoveAbs(cfg, m, target), PreRollSteps(cfg, m, target), MainSteps(cfg, m, target);
      PreRolls(cfg, m, target) ==>
        o.writes == PhaseWrites(cfg.table, cfg.portA, m.cursor, k) + [Coast(cfg.portA)]
                    + PhaseWrites(cfg.table, cfg.portA, Cursor(m.cursor, k), n) + [Coast(cfg.portA)]
    ensures var o, n := MoveAbs(cfg, m, target), MainSteps(cfg, m, target);
      !PreRolls(cfg, m, target) ==>
        o.writes == PhaseWrites(cfg.table, cfg.portA, m.cursor, n) + [Coast(cfg.portA)]
  {
  }

  /** The main part of a move takes |d - k| steps, where d is the distance to
      the target and k the pre-roll's steps. */
  lemma MainStepsDistance(cfg: MotorConfig, m: MotorState, target: int)
    requires target != m.pos
    ensures MainSteps(cfg, m, target) == Abs(Abs(target - m.pos) - PreRollSteps(cfg, m, target))
  {
  }

  /** The trace of an in-range move, with k the pre-roll's steps (the backlash
      when a pre-roll happens, else 0) and n the main steps. With a pre-roll the
      trace is k phase writes, a coast, n phase writes and a coast; without one,
      n phase writes and a coast. Either way the phase writes, read without the
      intermediate coast, are one cyclic run of k + n reads of the table from
      the starting cursor, and the cursor ends where that run ends. */
  lemma MoveAbsTrace(cfg: MotorConfig, m: MotorState, target: int)
    requires Wf(cfg, m) && InRange(target) && target != m.pos
    ensures var o, k, n := MoveAbs(cfg, m, target), PreRollSteps(cfg, m, target), MainSteps(cfg, m, target);
      o.motor.cursor == Cursor(m.cursor, k + n)
    ensures var o, k, n := MoveAbs(cfg, m, target), PreRollSteps(cfg, m, target), MainSteps(cfg, m, target);
      PreRolls(cfg, m, target) ==>
        |o.writes| == k + n + 2 && o.writes[k] == Coast(cfg.portA) &&
        o.writes[..k] + o.writes[k + 1..] == PhaseWrites(cfg.table, cfg.portA, m.cursor, k + n) + [Coast(cfg.portA)]
    ensures var o, n := MoveAbs(cfg, m, target), MainSteps(cfg, m, target);
      !PreRolls(cfg, m, target) ==> o.writes == PhaseWrites(cfg.table, cfg.portA, m.cursor, n) + [Coast(cfg.portA)]
  {
    var o, k, n := MoveAbs(cfg, m, target), PreRollSteps(cfg, m, target), MainSteps(cfg, m, target);
    MoveAbsUnfold(cfg, m, target);
    CursorCompose(m.cursor, k, n);
    assert o.motor.cursor == Cursor(Cursor(m.cursor, k), n);
    if PreRolls(cfg, m, target) {
      SplitRunWrites(cfg.table, cfg.portA, m.cursor, k, n);
    } else {
      assert k == 0;
    }
  }

  /** k phase writes, a coast, n more phase writes and a coast: the coast
      sits at index k, and without it the writes are one run of k + n reads. */
  lemma SplitRunWrites(table: seq<int>, portA: bool, c: int, k: nat, n: nat)
    requires |table| == TableSize && 0 <= c <= TableSize
    ensures var w := PhaseWrites(table, portA, c, k) + [Coast(portA)]
                   + PhaseWrites(table, portA, Cursor(c, k), n) + [Coast(portA)];
      |w| == k + n + 2 && w[k] == Coast(portA) &&
      w[..k] + w[k + 1..] == PhaseWrites(table, portA, c, k + n) + [Coast(portA)]
  {
    var w1, w2 := PhaseWrites(table, portA, c, k), PhaseWrites(table, portA, Cursor(c, k), n);
    var w := w1 + [Coast(portA)] + w2 + [Coast(portA)];
    PhaseWritesAt(table, portA, c, k);
    PhaseWritesAt(table, portA, Cursor(c, k), n);
    assert w[..k] == w1;
    assert w[k + 1..] == w2 + [Coast(portA)];
    PhaseWritesCompose(table, portA, c, k, n);
    AppendAssoc(w1, w2, [Coast(portA)]);
  }

  /** Where an in-range move ends. With d the distance to the target and k the
      pre-roll's steps, the focuser ends at the target when k <= d, and
      otherwise 2 * (k - d) steps beyond it in the move's direction, because
      the pre-roll moves the tracked position and the main part still runs in
      the same direction. So it ends at the target exactly when there is no
      pre-roll or the backlash is at most the distance. */
  lemma MoveAbsFinalPos(cfg: MotorConfig, m: MotorState, target: int)
    requires Wf(cfg, m) && InRange(target) && target != m.pos
    ensures var d, k := Abs(target - m.pos), PreRollSteps(cfg, m, target);
      MoveAbs(cfg, m, target).motor.pos ==
        target + Signed(NewDir(m.pos, target), if k <= d then 0 else 2 * (k - d))
    ensures MoveAbs(cfg, m, target).motor.pos == target <==>
      (!PreRolls(cfg, m, target) || cfg.backlash <= Abs(target - m.pos))
  {
    MoveAbsUnfold(cfg, m, target);
    MainStepsDistance(cfg, m, target);
  }

  /** Repeating an in-range absolute move that reached its target changes
      nothing and writes nothing. */
  lemma MoveAbsIdempotent(cfg: MotorConfig, m: MotorState, target: int)
    requires Wf(cfg, m) && InRange(target)
    requires !PreRolls(cfg, m, target) || cfg.backlash <= Abs(target - m.pos)
    ensures MoveAbs(cfg, m, target).motor.pos == target
    ensures var o := MoveAbs(cfg, m, target);
      MoveAbs(cfg, o.motor, target) == Outcome(Ok, o.motor, [])
  {
    if target != m.pos {
      MoveAbsFinalPos(cfg, m, target);
    }
  }

  /** From position 0 a move never pre-rolls: the first move to 100 of a
      focuser at 0 is 100 outward phase writes from the current cursor and a
      coast, and ends at 100 facing outward. */
  lemma FirstMoveFromZero(cfg: MotorConfig, m: MotorState)
    requires Wf(cfg, m) && m.pos == 0
    ensures MoveAbs(cfg, m, 100) ==
      Outcome(Ok, MotorState(100, Outward, Cursor(m.cursor, 100)),
              PhaseWrites(cfg.table, cfg.portA, m.cursor, 100) + [Coast(cfg.portA)])
  {
  }

  /** A reversal with backlash 5 from 100 to 50: 5 inward pre-roll steps, a
      coast, then only 45 main steps (the pre-roll already moved the tracked
      position to 95), a coast, ending at 50 facing inward. */
  lemma ReversalWithBacklash(table: seq<int>, portA: bool, c: int)
    requires |table| == TableSize && 0 <= c <= TableSize
    ensures var cfg := MotorConfig(table, portA, 5);
      var o := MoveAbs(cfg, MotorState(100, Outward, c), 50);
      o.motor == MotorState(50, Inward, Cursor(c, 50)) &&
      |o.writes| == 52 && o.writes[5] == Coast(portA) &&
      o.writes[..5] == PhaseWrites(table, portA, c, 5) &&
      o.writes[6..51] == PhaseWrites(table, portA, Cursor(c, 5), 45) &&
      o.writes[51] == Coast(portA)
  {
    var cfg, m := MotorConfig(table, portA, 5), MotorState(100, Outward, c);
    MoveAbsTrace(cfg, m, 50);
    MoveAbsFinalPos(cfg, m, 50);
    MoveAbsUnfold(cfg, m, 50);
    PhaseWritesAt(table, portA, c, 5);
    PhaseWritesAt(table, portA, Cursor(c, 5), 45);
  }

  /** The target of MoveRelFocuser(direction, ticks). */
  function RelTarget(pos: int, direction: Direction, ticks: int): int {
    pos + ticks * (if direction == Inward then -1 else 1)
  }

  /** MoveRelFocuser(direction, ticks). */
  function MoveRel(cfg: MotorConfig, m: MotorState, direction: Direction, ticks: int): (o: Outcome)
    requires Wf(cfg, m)
    ensures Wf(cfg, o.motor)
  {
    MoveAbs(cfg, m, RelTarget(m.pos, direction, ticks))
  }

  /** A relative move is refused exactly when it would leave [0, 20000]; zero
      ticks write nothing; positive ticks move in the requested direction and
      negative ticks in the opposite one; and when there is no pre-roll or the
      backlash is at most the tick count, a positive move ends exactly `ticks`
      steps away in the requested direction. */
  lemma MoveRelSemantics(cfg: MotorConfig, m: MotorState, direction: Direction, ticks: int)
    requires Wf(cfg, m)
    ensures var target := m.pos + Signed(direction, ticks);
      MoveRel(cfg, m, direction, ticks).status == Alert <==> !InRange(target)
    ensures ticks == 0 ==> MoveRel(cfg, m, direction, ticks).writes == [] &&
                           MoveRel(cfg, m, direction, ticks).motor == m
    ensures var target := m.pos + Signed(direction, ticks);
      ticks > 0 && InRange(target) ==> MoveRel(cfg, m, direction, ticks).motor.dir == direction
    ensures var target := m.pos + Signed(direction, ticks);
      ticks < 0 && InRange(target) ==> MoveRel(cfg, m, direction, ticks).motor.dir == Opposite(direction)
    ensures var target := m.pos + Signed(direction, ticks);
      ticks > 0 && InRange(target) && (!PreRolls(cfg, m, target) || cfg.backlash <= ticks) ==>
        MoveRel(cfg, m, direction, ticks).motor.pos == target
  {
    var target := RelTarget(m.pos, direction, ticks);
    assert target == m.pos + Signed(direction, ticks);
    if InRange(target) && target != m.pos {
      MoveAbsDirection(cfg, m, target);
      MoveAbsFinalPos(cfg, m, target);
    }
  }

  /** `(int)(duration / delay)` of MoveFocuser: division of the two values as
      reals, truncated toward zero. */
  function TimedTicks(duration: int, delay: int): (t: int)
    requires delay >= 1
    ensures Abs(t) * delay <= Abs(duration) < (Abs(t) + 1) * delay
    ensures (t > 0 ==> duration > 0) && (t < 0 ==> duration < 0)
  {
    var q := Abs(duration) / delay;
    DivBounds(Abs(duration), delay);
    if duration >= 0 then q else -q
  }

  lemma DivBounds(a: nat, b: int)
    requires b >= 1
    ensures (a / b) * b <= a < (a / b + 1) * b
  {
    assert a == (a / b) * b + a % b;
    assert (a / b + 1) * b == (a / b) * b + b;
  }

  /** Less than one delay's worth of duration gives no ticks; at least one
      delay's worth of positive duration gives positive ticks. */
  lemma TimedTicksSign(duration: int, delay: int)
    requires delay >= 1
    ensures Abs(duration) < delay ==> TimedTicks(duration, delay) == 0
    ensures duration >= delay ==> TimedTicks(duration, delay) >= 1
  {
    ScaleBounds(Abs(TimedTicks(duration, delay)), delay);
  }

  lemma ScaleBounds(x: nat, y: int)
    requires y >= 1
    ensures x >= 1 ==> x * y >= y
    ensures x == 0 ==> (x + 1) * y == y
  {
  }

  /** MoveFocuser(direction, speed, duration); the speed is not used. */
  function MoveTimed(cfg: MotorConfig, m: MotorState, delay: int, direction: Direction, duration: int): (o: Outcome)
    requires Wf(cfg, m) && delay >= 1
    ensures Wf(cfg, o.motor)
  {
    MoveRel(cfg, m, direction, TimedTicks(duration, delay))
  }

  /** A timed move shorter than one step delay writes nothing; a longer one in
      range moves in the requested direction. */
  lemma MoveTimedSemantics(cfg: MotorConfig, m: MotorState, delay: int, direction: Direction, duration: int)
    requires Wf(cfg, m) && delay >= 1
    ensures Abs(duration) < delay ==>
      MoveTimed(cfg, m, delay, direction, duration).writes == [] &&
      MoveTimed(cfg, m, delay, direction, duration).motor == m
    ensures duration >= delay && InRange(m.pos + Signed(direction, TimedTicks(duration, delay))) ==>
      MoveTimed(cfg, m, delay, direction, duration).motor.dir == direction
  {
    TimedTicksSign(duration, delay);
    MoveRelSemantics(cfg, m, direction, TimedTicks(duration, delay));
  }

  /** The position-reset switch: only when it is on and the focuser is at 0,
      the position is set to 200 and the focuser is moved back to 0. */
  function ResetFromZero(cfg: MotorConfig, m: MotorState, on: bool): (e: Effect)
    requires Wf(cfg, m)
    ensures Wf(cfg, e.motor)
  {
    if on && m.pos == MinPos then
      var o := MoveAbs(cfg, m.(pos := ResetPos), MinPos);
      Effect(o.motor, o.writes)
    else Effect(m, [])
  }

  /** A reset does nothing unless it is on and the focuser is at 0. Otherwise
      it drives the focuser inward back to 0 whenever the last direction was
      inward or the backlash is at most 200; without a pre-roll that is exactly
      200 inward phase writes and a coast. */
  lemma ResetDrivesHome(cfg: MotorConfig, m: MotorState, on: bool)
    requires Wf(cfg, m)
    ensures !(on && m.pos == 0) ==> ResetFromZero(cfg, m, on) == Effect(m, [])
    ensures on && m.pos == 0 && (m.dir == Inward || cfg.backlash <= ResetPos) ==>
      ResetFromZero(cfg, m, on).motor.pos == 0 && ResetFromZero(cfg, m, on).motor.dir == Inward
    ensures on && m.pos == 0 && (m.dir == Inward || cfg.backlash == 0) ==>
      ResetFromZero(cfg, m, on).writes == PhaseWrites(cfg.table, cfg.portA, m.cursor, ResetPos) + [Coast(cfg.portA)]
  {
    if on && m.pos == 0 {
      var m1 := m.(pos := ResetPos);
      MoveAbsFinalPos(cfg, m1, 0);
      MoveAbsTrace(cfg, m1, 0);
    }
  }

  /** One goto-preset branch: move when its switch is on. */
  function MaybeMove(cfg: MotorConfig, m: MotorState, go: bool, target: int): (e: Effect)
    requires Wf(cfg, m)
    ensures Wf(cfg, e.motor)
  {
    if go then
      var o := MoveAbs(cfg, m, target);
      Effect(o.motor, o.writes)
    else Effect(m, [])
  }

  /** The goto-preset switch: the three branches one after another, each
      moving to its preset when its switch is on. */
  function GotoPresets(cfg: MotorConfig, m: MotorState, presets: seq<int>, on: seq<bool>): (e: Effect)
    requires Wf(cfg, m) && |presets| == 3 && |on| == 3
    ensures Wf(cfg, e.motor)
  {
    var e1 := MaybeMove(cfg, m, on[0], presets[0]);
    var e2 := MaybeMove(cfg, e1.motor, on[1], presets[1]);
    var e3 := MaybeMove(cfg, e2.motor, on[2], presets[2]);
    Effect(e3.motor, e1.writes + e2.writes + e3.writes)
  }

  /** With exactly one preset switch on, the goto is that preset's absolute
      move; with none on, it does nothing. */
  lemma GotoOnePreset(cfg: MotorConfig, m: MotorState, presets: seq<int>, on: seq<bool>, k: int)
    requires Wf(cfg, m) && |presets| == 3 && |on| == 3
    requires 0 <= k < 3 && on[k] && forall i :: 0 <= i < 3 && i != k ==> !on[i]
    ensures GotoPresets(cfg, m, presets, on) ==
      Effect(MoveAbs(cfg, m, presets[k]).motor, MoveAbs(cfg, m, presets[k]).writes)
    ensures GotoPresets(cfg, m, presets, [false, false, false]) == Effect(m, [])
  {
    assert forall i :: 0 <= i < 3 && i != k ==> !on[i];
    if k == 0 {
      assert !on[1] && !on[2];
    } else if k == 1 {
      assert !on[0] && !on[2];
    } else {
      assert !on[0] && !on[1];
    }
  }
}

/**
 * Sequences of calls into the controller, as the web layer makes them over the
 * life of the process, and what holds after any such sequence: the relay is
 * never left energised while LOW writes go through and no wait is negative, the configured pin is the
 * one of the last `init`, and the recorded pulse time is the clock reading of the
 * last pulse that passed.
 */
module GpioSessions {
  import opened Gpio

  /** One state-changing call of the controller; a status query changes nothing. */
  datatype Op =
    | InitOp(pin: int)
    | PulseOp(duration: real, now: real)
    | CleanupOp

  function Step(m: Machine, refused: set<Call>, fmt: real -> string, op: Op): Machine
  {
    match op
    case InitOp(p) => InitStep(m, refused, p).0
    case PulseOp(d, now) => PulseStep(m, refused, fmt, d, now).0
    case CleanupOp => CleanupStep(m, refused)
  }

  /** The state after the calls `ops`, in order, from `m`; raised errors are reported to the caller and do not stop the run. */
  function Run(m: Machine, refused: set<Call>, fmt: real -> string, ops: seq<Op>): Machine
    decreases |ops|
  {
    if ops == [] then m else Run(Step(m, refused, fmt, ops[0]), refused, fmt, ops[1..])
  }

  /** No pin is held HIGH. */
  predicate Deenergised(levels: Levels)
  {
    forall p :: p in levels ==> levels[p] != Some(HIGH)
  }

  /** The backend never raises on a LOW write. */
  predicate LowWritesSucceed(refused: set<Call>)
  {
    forall c :: c in refused ==> !(c.OutputCall? && c.value == LOW)
  }

  /** Every pulse in `ops` waits a non-negative time. */
  predicate WaitsNonNegative(ops: seq<Op>)
  {
    forall i :: 0 <= i < |ops| && ops[i].PulseOp? ==> ops[i].duration >= 0.0
  }

  /** The pin of the last `init` in `ops`, if there is one. */
  function LastInitPin(ops: seq<Op>): Option<int>
    decreases |ops|
  {
    if ops == [] then None
    else if ops[|ops| - 1].InitOp? then Some(ops[|ops| - 1].pin)
    else LastInitPin(ops[..|ops| - 1])
  }

  /** Running `ops` then `op` is running `op` after `ops`. */
  lemma {:induction false} RunAppend(m: Machine, refused: set<Call>, fmt: real -> string, ops: seq<Op>, op: Op)
    ensures Run(m, refused, fmt, ops + [op]) == Step(Run(m, refused, fmt, ops), refused, fmt, op)
    decreases |ops|
  {
    if ops == [] {
      assert [op][1..] == [];
    } else {
      assert (ops + [op])[1..] == ops[1..] + [op];
      RunAppend(Step(m, refused, fmt, ops[0]), refused, fmt, ops[1..], op);
    }
  }

  /**
   * While no LOW write raises and no pulse waits a negative time, a relay that
   * starts released is released after any sequence of calls: a pulse that passes
   * ends LOW, and one whose HIGH write raises wrote nothing.
   */
  lemma {:induction false} RelayNeverLeftEnergised(m: Machine, refused: set<Call>, fmt: real -> string, ops: seq<Op>)
    requires Deenergised(m.levels) && LowWritesSucceed(refused) && WaitsNonNegative(ops)
    ensures Deenergised(Run(m, refused, fmt, ops).levels)
    decreases |ops|
  {
    if ops != [] {
      var next := Step(m, refused, fmt, ops[0]);
      match ops[0] {
        case InitOp(p) =>
          forall q | q in next.levels ensures next.levels[q] != Some(HIGH) {
            if q != p {
              assert q in next.levels - {p};
            }
          }
        case PulseOp(d, now) =>
          assert d >= 0.0 by { assert ops[0].PulseOp?; }
          if m.pin.Some? {
            var p := m.pin.value;
            assert OutputCall(p, LOW) !in refused;
            forall q | q in next.levels ensures next.levels[q] != Some(HIGH) {
              if q != p {
                assert q in next.levels - {p};
              }
            }
          }
        case CleanupOp =>
      }
      forall i | 0 <= i < |ops[1..]| && ops[1..][i].PulseOp? ensures ops[1..][i].duration >= 0.0 {
        assert ops[1..][i] == ops[i + 1];
      }
      RelayNeverLeftEnergised(next, refused, fmt, ops[1..]);
    }
  }

  /**
   * A LOW write that raises leaves the pulsed pin energised, whatever the wait: the
   * pulse fails, its HIGH is never undone, no other pin changes and no time is recorded.
   */
  lemma FailedLowWriteLeavesRelayEnergised(m: Machine, refused: set<Call>, fmt: real -> string, d: real, now: real)
    requires m.pin.Some? && OutputCall(m.pin.value, HIGH) !in refused && d >= 0.0
    requires OutputCall(m.pin.value, LOW) in refused
    ensures var p, r := m.pin.value, PulseStep(m, refused, fmt, d, now);
      && r.1 == Failure(BackendError(OutputCall(p, LOW)))
      && Run(m, refused, fmt, [PulseOp(d, now)]) == r.0
      && p in r.0.levels && r.0.levels[p] == Some(HIGH) && r.0.levels - {p} == m.levels - {p}
      && r.0.lastTrigger == m.lastTrigger
  {
  }

  /**
   * A wait of negative length raises after the HIGH write: the pulse fails, the pulsed
   * pin stays energised, no other pin changes and no time is recorded.
   */
  lemma NegativeWaitLeavesRelayEnergised(m: Machine, refused: set<Call>, fmt: real -> string, d: real, now: real)
    requires m.pin.Some? && OutputCall(m.pin.value, HIGH) !in refused && d < 0.0
    ensures var p, r := m.pin.value, PulseStep(m, refused, fmt, d, now);
      && r.1 == Failure(SleepError(d))
      && Run(m, refused, fmt, [PulseOp(d, now)]) == r.0
      && p in r.0.levels && r.0.levels[p] == Some(HIGH) && r.0.levels - {p} == m.levels - {p}
      && r.0.lastTrigger == m.lastTrigger
  {
  }

  /** The configured pin is that of the last `init`, whether or not its setup raised; nothing else sets or clears it. */
  lemma {:induction false} PinIsLastInit(m: Machine, refused: set<Call>, fmt: real -> string, ops: seq<Op>)
    ensures Run(m, refused, fmt, ops).pin == (if LastInitPin(ops).Some? then LastInitPin(ops) else m.pin)
    decreases |ops|
  {
    if ops != [] {
      var init, last := ops[..|ops| - 1], ops[|ops| - 1];
      assert ops == init + [last];
      RunAppend(m, refused, fmt, init, last);
      PinIsLastInit(m, refused, fmt, init);
    }
  }

  /** The call at index `i` of `ops` is a pulse that passes, in the state the calls before it leave. */
  predicate PassesAt(m: Machine, refused: set<Call>, fmt: real -> string, ops: seq<Op>, i: int)
    requires 0 <= i < |ops|
  {
    && ops[i].PulseOp?
    && PulseStep(Run(m, refused, fmt, ops[..i]), refused, fmt, ops[i].duration, ops[i].now).1.Success?
  }

  /**
   * The last-trigger time after any sequence of calls is the clock reading of the
   * last pulse that passed, or the starting one when no pulse passed.
   */
  lemma {:induction false} LastTriggerIsLastPassingPulse(m: Machine, refused: set<Call>, fmt: real -> string, ops: seq<Op>)
    ensures var t := Run(m, refused, fmt, ops).lastTrigger;
      || (t == m.lastTrigger && forall j :: 0 <= j < |ops| ==> !PassesAt(m, refused, fmt, ops, j))
      || exists i :: && 0 <= i < |ops| && PassesAt(m, refused, fmt, ops, i) && t == Some(ops[i].now)
                     && forall j :: i < j < |ops| ==> !PassesAt(m, refused, fmt, ops, j)
    decreases |ops|
  {
    if ops != [] {
      var k := |ops| - 1;
      var init, last := ops[..k], ops[k];
      assert ops == init + [last];
      RunAppend(m, refused, fmt, init, last);
      LastTriggerIsLastPassingPulse(m, refused, fmt, init);
      forall j | 0 <= j < k ensures PassesAt(m, refused, fmt, ops, j) == PassesAt(m, refused, fmt, init, j) {
        assert ops[..j] == init[..j];
      }
      var before := Run(m, refused, fmt, init);
      var t := Run(m, refused, fmt, ops).lastTrigger;
      if PassesAt(m, refused, fmt, ops, k) {
        assert t == Some(ops[k].now);
      } else {
        assert t == before.lastTrigger;
        if !(before.lastTrigger == m.lastTrigger && forall j :: 0 <= j < k ==> !PassesAt(m, refused, fmt, init, j)) {
          var i :| && 0 <= i < k && PassesAt(m, refused, fmt, init, i) && before.lastTrigger == Some(init[i].now)
                   && forall j :: i < j < k ==> !PassesAt(m, refused, fmt, init, j);
          assert PassesAt(m, refused, fmt, ops, i) && t == Some(ops[i].now);
        }
      }
    }
  }

  /** Pulse times never go backwards when the clock does not: with a non-decreasing clock, the last trigger only grows. */
  lemma {:induction false} LastTriggerMonotone(m: Machine, refused: set<Call>, fmt: real -> string, ops: seq<Op>)
    requires forall i :: 0 <= i < |ops| && ops[i].PulseOp? && m.lastTrigger.Some? ==> m.lastTrigger.value <= ops[i].now
    requires forall i, j :: 0 <= i < j < |ops| && ops[i].PulseOp? && ops[j].PulseOp? ==> ops[i].now <= ops[j].now
    ensures var t := Run(m, refused, fmt, ops).lastTrigger;
      m.lastTrigger.Some? ==> t.Some? && m.lastTrigger.value <= t.value
    decreases |ops|
  {
    if ops != [] {
      var next := Step(m, refused, fmt, ops[0]);
      forall i | 0 <= i < |ops[1..]| && ops[1..][i].PulseOp? && next.lastTrigger.Some?
        ensures next.lastTrigger.value <= ops[1..][i].now
      {
        assert ops[1..][i] == ops[i + 1];
        if next.lastTrigger != m.lastTrigger {
          assert ops[0].PulseOp?;
        }
      }
      LastTriggerMonotone(next, refused, fmt, ops[1..]);
    }
  }

  /**
   * After a pulse that passes, a second one with a non-negative wait passes too, and
   * with a clock that does not go back between them the two record their times in
   * order: the second's is at least the first's.
   */
  lemma SuccessivePulsesInOrder(m: Machine, refused: set<Call>, fmt: real -> string, d1: real, t1: real, d2: real, t2: real)
    requires t1 <= t2 && d2 >= 0.0
    requires PulseStep(m, refused, fmt, d1, t1).1.Success?
    ensures var first := PulseStep(m, refused, fmt, d1, t1);
      var second := PulseStep(first.0, refused, fmt, d2, t2);
      && second.1.Success?
      && first.0.lastTrigger == Some(t1) && second.0.lastTrigger == Some(t2)
      && first.0.lastTrigger.value <= second.0.lastTrigger.value
  {
  }
}

/**
 * The echo-edge handler of the Node.js driver as a pure state machine.
 * `Echo` is the value of the five module-level variables; `Step` is one
 * call of the `alert` callback; `Run` is a sequence of calls in order.
 */
module EchoTimer {
  import opened Values
  import opened Conversion

  /** One `alert` callback invocation: the echo pin's new level and its microsecond tick. */
  datatype Event = Event(level: int, usTime: int)

  /** The driver's variables `pulseStart`, `pulseEnd`, `diff`, `resCm`, `resInch`. */
  datatype Echo = Echo(
    pulseStart: Option<int>,
    pulseEnd: Option<int>,
    diff: JsNum<int>,
    resCm: JsNum<real>,
    resInch: JsNum<real>)

  /** All five variables are declared without an initialiser. */
  const Initial: Echo := Echo(None, None, Undefined, Undefined, Undefined)

  /** The callback compares the level loosely with 1: only 1 is a rising edge. */
  predicate IsRising(ev: Event) {
    ev.level == 1
  }

  /**
   * One `alert` callback. A rising edge records its tick as the start; every
   * other level records the end, the difference and both distances.
   */
  function Step(s: Echo, ev: Event): Echo {
    if IsRising(ev) then
      s.(pulseStart := Some(ev.usTime))
    else
      var end := Some(ev.usTime);
      var d := Minus(end, s.pulseStart);
      Echo(s.pulseStart, end, d, ToCm(d), ToInch(d))
  }

  /** The callbacks for `evs`, delivered one after the other from state `s`. */
  function Run(s: Echo, evs: seq<Event>): Echo
    decreases |evs|
  {
    if evs == [] then s else Run(Step(s, evs[0]), evs[1..])
  }

  /**
   * The state invariant the handler keeps: `pulseEnd` and `diff` are assigned
   * together, the distances are always the conversions of `diff`, and a
   * numeric `diff` implies that a start has been recorded.
   */
  ghost predicate Consistent(s: Echo) {
    (s.pulseEnd.None? <==> s.diff == Undefined) &&
    (s.diff == Undefined ==> s.resCm == Undefined && s.resInch == Undefined) &&
    (s.diff != Undefined ==> s.resCm == ToCm(s.diff) && s.resInch == ToInch(s.diff)) &&
    (s.diff.Num? ==> s.pulseStart.Some?)
  }

  // ---------------------------------------------------------------------
  // Reference definitions, read backwards from the last event
  // ---------------------------------------------------------------------

  /** The start recorded after `evs`: the tick of the last rising edge, else the old start. */
  function StartAfter(s: Echo, evs: seq<Event>): Option<int>
    decreases |evs|
  {
    if evs == [] then s.pulseStart
    else if IsRising(evs[|evs| - 1]) then Some(evs[|evs| - 1].usTime)
    else StartAfter(s, evs[..|evs| - 1])
  }

  /** The end recorded after `evs`: the tick of the last non-rising edge, else the old end. */
  function EndAfter(s: Echo, evs: seq<Event>): Option<int>
    decreases |evs|
  {
    if evs == [] then s.pulseEnd
    else if !IsRising(evs[|evs| - 1]) then Some(evs[|evs| - 1].usTime)
    else EndAfter(s, evs[..|evs| - 1])
  }

  /**
   * The width measured after `evs`: the last non-rising edge's tick minus the
   * start that was recorded just before it; the old `diff` if there is none.
   */
  function DiffAfter(s: Echo, evs: seq<Event>): JsNum<int>
    decreases |evs|
  {
    if evs == [] then s.diff
    else if IsRising(evs[|evs| - 1]) then DiffAfter(s, evs[..|evs| - 1])
    else Minus(Some(evs[|evs| - 1].usTime), StartAfter(s, evs[..|evs| - 1]))
  }

  /** Some event of `evs` ends a pulse. */
  predicate HasFalling(evs: seq<Event>) {
    exists i :: 0 <= i < |evs| && !IsRising(evs[i])
  }

  // ---------------------------------------------------------------------
  // Single-event properties
  // ---------------------------------------------------------------------

  /** A rising edge sets `pulseStart` to its tick and leaves the other four variables alone. */
  lemma RisingRecordsStart(s: Echo, ev: Event)
    requires IsRising(ev)
    ensures Step(s, ev).pulseStart == Some(ev.usTime)
    ensures Step(s, ev).pulseEnd == s.pulseEnd && Step(s, ev).diff == s.diff
    ensures Step(s, ev).resCm == s.resCm && Step(s, ev).resInch == s.resInch
  {
  }

  /**
   * Any other level ends the pulse: `pulseEnd` is its tick, `pulseStart` is kept,
   * and the width and distances are numbers exactly when a start was recorded.
   */
  lemma FallingMeasures(s: Echo, ev: Event)
    requires !IsRising(ev)
    ensures Step(s, ev).pulseStart == s.pulseStart
    ensures Step(s, ev).pulseEnd == Some(ev.usTime)
    ensures Step(s, ev).diff.Num? <==> s.pulseStart.Some?
    ensures Step(s, ev).resCm.Num? <==> s.pulseStart.Some?
    ensures Step(s, ev).resInch.Num? <==> s.pulseStart.Some?
    ensures s.pulseStart.Some? ==>
      var w := ev.usTime - s.pulseStart.value;
      Step(s, ev).diff == Num(w) &&
      Step(s, ev).resCm == Num(Cm(w)) && Step(s, ev).resInch == Num(Inch(w))
  {
  }

  /** After a measured falling edge, 58 times the centimetres equals 148 times the inches. */
  lemma FallingReadingsAgree(s: Echo, ev: Event)
    requires !IsRising(ev) && s.pulseStart.Some?
    ensures Step(s, ev).resCm.Num? && Step(s, ev).resInch.Num?
    ensures Step(s, ev).resCm.n * UsPerCm as real == Step(s, ev).resInch.n * UsPerInch as real
  {
    CmInchAgree(ev.usTime - s.pulseStart.value);
  }

  /** A falling edge with no recorded start gives `NaN` for the width and both distances. */
  lemma FallingWithoutStartIsNaN(s: Echo, ev: Event)
    requires !IsRising(ev) && s.pulseStart.None?
    ensures Step(s, ev).diff == NaN && Step(s, ev).resCm == NaN && Step(s, ev).resInch == NaN
  {
  }

  /** The handler keeps `Consistent`. */
  lemma StepConsistent(s: Echo, ev: Event)
    requires Consistent(s)
    ensures Consistent(Step(s, ev))
  {
  }

  // ---------------------------------------------------------------------
  // Properties of event sequences
  // ---------------------------------------------------------------------

  /** Running `evs` and then one more event is one more step. */
  lemma {:induction false} RunSnoc(s: Echo, evs: seq<Event>, ev: Event)
    ensures Run(s, evs + [ev]) == Step(Run(s, evs), ev)
    decreases |evs|
  {
    if evs == [] {
      assert [] + [ev] == [ev];
    } else {
      assert (evs + [ev])[1..] == evs[1..] + [ev];
      RunSnoc(Step(s, evs[0]), evs[1..], ev);
    }
  }

  /** A run consists of a run of its prefix followed by its last event. */
  lemma RunLast(s: Echo, evs: seq<Event>)
    requires evs != []
    ensures Run(s, evs) == Step(Run(s, evs[..|evs| - 1]), evs[|evs| - 1])
  {
    var k := |evs| - 1;
    assert evs == evs[..k] + [evs[k]];
    RunSnoc(s, evs[..k], evs[k]);
  }

  /**
   * The forward fold agrees with the backward reference definitions: the start
   * is the last rising edge's tick, the end the last non-rising edge's tick, and
   * the width is measured from the start recorded before that last end.
   */
  lemma {:induction false} RunMatchesReference(s: Echo, evs: seq<Event>)
    ensures Run(s, evs).pulseStart == StartAfter(s, evs)
    ensures Run(s, evs).pulseEnd == EndAfter(s, evs)
    ensures Run(s, evs).diff == DiffAfter(s, evs)
    decreases |evs|
  {
    if evs != [] {
      var k := |evs| - 1;
      RunLast(s, evs);
      RunMatchesReference(s, evs[..k]);
    }
  }

  /**
   * Once a pulse has ended in `evs`, the distances are the conversions of the
   * reference width; otherwise they are unchanged.
   */
  lemma {:induction false} RunDistances(s: Echo, evs: seq<Event>)
    ensures HasFalling(evs) ==>
      Run(s, evs).resCm == ToCm(DiffAfter(s, evs)) && Run(s, evs).resInch == ToInch(DiffAfter(s, evs))
    ensures !HasFalling(evs) ==> Run(s, evs).resCm == s.resCm && Run(s, evs).resInch == s.resInch
    decreases |evs|
  {
    if evs != [] {
      var k := |evs| - 1;
      RunLast(s, evs);
      RunDistances(s, evs[..k]);
      RunMatchesReference(s, evs[..k]);
      if IsRising(evs[k]) {
        if HasFalling(evs) {
          var i :| 0 <= i < |evs| && !IsRising(evs[i]);
          assert evs[..k][i] == evs[i];
        } else {
          assert !HasFalling(evs[..k]) by {
            forall i | 0 <= i < k ensures IsRising(evs[..k][i]) {
              assert evs[..k][i] == evs[i];
            }
          }
        }
      } else {
        assert HasFalling(evs);
      }
    }
  }

  /** `Consistent` holds after any sequence of events from a consistent state. */
  lemma {:induction false} RunConsistent(s: Echo, evs: seq<Event>)
    requires Consistent(s)
    ensures Consistent(Run(s, evs))
    decreases |evs|
  {
    if evs != [] {
      StepConsistent(s, evs[0]);
      RunConsistent(Step(s, evs[0]), evs[1..]);
    }
  }

  /** Falling edges never reset `pulseStart`: a run without rising edges keeps it. */
  lemma {:induction false} FallingKeepsStart(s: Echo, evs: seq<Event>)
    requires forall i :: 0 <= i < |evs| ==> !IsRising(evs[i])
    ensures Run(s, evs).pulseStart == s.pulseStart
    decreases |evs|
  {
    if evs != [] {
      assert forall i :: 0 <= i < |evs| - 1 ==> evs[1..][i] == evs[i + 1];
      FallingKeepsStart(Step(s, evs[0]), evs[1..]);
    }
  }

  /**
   * Without a rising edge since start-up there is never a numeric width or distance:
   * a falling edge before any rising edge measures against an unset start.
   */
  lemma {:induction false} NoRisingNoDistance(evs: seq<Event>)
    requires forall i :: 0 <= i < |evs| ==> !IsRising(evs[i])
    ensures Run(Initial, evs).pulseStart.None?
    ensures !Run(Initial, evs).diff.Num?
    ensures !Run(Initial, evs).resCm.Num? && !Run(Initial, evs).resInch.Num?
  {
    FallingKeepsStart(Initial, evs);
    RunConsistent(Initial, evs);
  }

  /** A later rising edge overwrites the start: the latest rising edge is the one measured from. */
  lemma RisingOverwritesStart(s: Echo, t1: int, t2: int, t3: int)
    ensures
      var s' := Run(s, [Event(1, t1), Event(1, t2), Event(0, t3)]);
      s'.pulseStart == Some(t2) && s'.diff == Num(t3 - t2) && s'.resCm == Num(Cm(t3 - t2))
  {
    var evs := [Event(1, t1), Event(1, t2), Event(0, t3)];
    RunMatchesReference(s, evs);
    RunDistances(s, evs);
    assert evs[..2][..1] == [Event(1, t1)];
    assert !IsRising(evs[2]);
  }

  /** Two falling edges in a row both measure from the same recorded start. */
  lemma RepeatedFallingSameStart(s: Echo, l1: int, t1: int, l2: int, t2: int)
    requires l1 != 1 && l2 != 1 && s.pulseStart.Some?
    ensures
      var p := s.pulseStart.value;
      var s1 := Step(s, Event(l1, t1));
      var s2 := Step(s1, Event(l2, t2));
      s1.diff == Num(t1 - p) && s2.diff == Num(t2 - p) && s2.pulseStart == s.pulseStart
  {
  }

  /** A rising edge at 1000 us and a falling edge at 1058 us read exactly one centimetre. */
  lemma OneCentimetrePulse()
    ensures
      var s := Run(Initial, [Event(1, 1000), Event(0, 1058)]);
      s.diff == Num(58) && s.resCm == Num(1.0) && s.resInch == Num(58.0 / 148.0)
  {
  }
}

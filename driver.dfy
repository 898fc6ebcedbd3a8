/**
 * The Node.js driver's mutable state: the five module-level variables are
 * fields of one object, the `alert` callback is `OnAlert` and the
 * once-per-second trigger is `Tick`. Callbacks are delivered one at a time.
 */
module Driver {
  import opened Values
  import opened Conversion
  import opened EchoTimer

  /** Width, in microseconds, of the trigger pulse the tick asks for. */
  const TriggerWidthUs: nat := 10
  /** Level the trigger pin is driven to for that width. */
  const TriggerLevel: int := 1

  class EchoDriver {
    var pulseStart: Option<int>
    var pulseEnd: Option<int>
    var diff: JsNum<int>
    var resCm: JsNum<real>
    var resInch: JsNum<real>

    /** The five variables as one value of the pure model. */
    ghost function State(): Echo
      reads this
    {
      Echo(pulseStart, pulseEnd, diff, resCm, resInch)
    }

    ghost predicate Valid()
      reads this
    {
      Consistent(State())
    }

    /** At start-up every variable is unassigned. */
    constructor ()
      ensures Valid() && State() == Initial
    {
      pulseStart, pulseEnd := None, None;
      diff, resCm, resInch := Undefined, Undefined, Undefined;
    }

    /** The `alert` callback for a change of the echo pin to `state` at tick `usTime`. */
    method OnAlert(state: int, usTime: int)
      requires Valid()
      modifies this
      ensures Valid()
      ensures State() == Step(old(State()), Event(state, usTime))
      ensures state == 1 ==>
        pulseStart == Some(usTime) && pulseEnd == old(pulseEnd) && diff == old(diff) &&
        resCm == old(resCm) && resInch == old(resInch)
      ensures state != 1 ==>
        pulseStart == old(pulseStart) && pulseEnd == Some(usTime) &&
        (diff.Num? <==> old(pulseStart).Some?) &&
        (diff.Num? ==> old(pulseStart).value + diff.n == usTime &&
                       resCm == Num(Cm(diff.n)) && resInch == Num(Inch(diff.n))) &&
        (!diff.Num? ==> diff == NaN && resCm == NaN && resInch == NaN)
    {
      StepConsistent(State(), Event(state, usTime));
      if state == 1 {
        pulseStart := Some(usTime);
      } else {
        pulseEnd := Some(usTime);
        diff := Minus(pulseEnd, pulseStart);
        resCm := ToCm(diff);
        resInch := ToInch(diff);
      }
    }

    /**
     * The periodic trigger: it asks the GPIO layer for a pulse of
     * `width` microseconds at `level` and changes no measurement variable.
     * The driver calls it every 1000 ms; that scheduling is not modelled.
     */
    method Tick() returns (width: nat, level: int)
      ensures width == TriggerWidthUs && level == TriggerLevel
      ensures unchanged(this)
    {
      width, level := TriggerWidthUs, TriggerLevel;
    }
  }

  /** What a caller can derive from the contracts alone: one tick and one echo pulse. */
  method OnePulse(t0: int)
  {
    var d := new EchoDriver();
    var w, l := d.Tick();
    assert w == 10 && l == 1 && d.State() == Initial;
    d.OnAlert(1, t0);
    d.OnAlert(0, t0 + 58);
    assert d.resCm == Num(1.0) && d.diff == Num(58);
    w, l := d.Tick();
    assert w == 10 && d.resCm == Num(1.0);
  }
}

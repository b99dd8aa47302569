/**
  The thermostat of org.concord.energy2d.model: a bang-bang controller that reads one thermometer
  and throws the power switch of one part (a heater when its power is positive, a cooler when it
  is negative), asking the model to rebuild its power array after every switch it writes.
*/
module Thermostats {
  import opened Common
  import opened Xml
  import opened Elements

  const DefaultSetpoint: real := 20.0
  const DefaultDeadband: real := 1.0

  /** The reading lies within the dead band around the set point. */
  predicate InBand(t: real, setpoint: real, deadband: real) {
    setpoint - deadband <= t <= setpoint + deadband
  }

  /**
    The switch setting one control() step writes, or None when it writes nothing: a heater is
    switched off above the band and on below it, a cooler the other way round, and a part
    without power is left alone.
  */
  function Decide(power: real, t: real, setpoint: real, deadband: real): (r: Option<bool>)
    ensures r.Some? <==> power != 0.0 && !InBand(t, setpoint, deadband)
    ensures power > 0.0 && t > setpoint + deadband ==> r == Some(false)
    ensures power > 0.0 && t < setpoint - deadband && t <= setpoint + deadband ==> r == Some(true)
    ensures power < 0.0 && t < setpoint - deadband ==> r == Some(false)
    ensures power < 0.0 && t > setpoint + deadband && t >= setpoint - deadband ==> r == Some(true)
  {
    if power == 0.0 then None
    else if power > 0.0 then
      if t > setpoint + deadband then Some(false)
      else if t < setpoint - deadband then Some(true)
      else None
    else
      if t < setpoint - deadband then Some(false)
      else if t > setpoint + deadband then Some(true)
      else None
  }

  /** With a band of non-negative width the switch is on exactly when the part works against the reading: heating when cold, cooling when warm. */
  lemma DecideWorksAgainstDeviation(power: real, t: real, setpoint: real, deadband: real)
    requires deadband >= 0.0
    ensures Decide(power, t, setpoint, deadband) == Some(true) <==>
      (power > 0.0 && t < setpoint - deadband) || (power < 0.0 && t > setpoint + deadband)
    ensures Decide(power, t, setpoint, deadband) == Some(false) <==>
      (power > 0.0 && t > setpoint + deadband) || (power < 0.0 && t < setpoint - deadband)
  {
  }

  /**
    A thermostat run over a series of readings, the power fixed: the final switch setting and the
    number of power-array refreshes requested.
  */
  function Trace(power: real, switch: bool, readings: seq<real>, setpoint: real, deadband: real): (bool, nat)
  {
    if readings == [] then (switch, 0)
    else
      var (s, n) := Trace(power, switch, readings[..|readings| - 1], setpoint, deadband);
      var d := Decide(power, readings[|readings| - 1], setpoint, deadband);
      (if d.Some? then d.value else s, n + (if d.Some? then 1 else 0))
  }

  /** The number of readings outside the dead band. */
  function Excursions(readings: seq<real>, setpoint: real, deadband: real): nat {
    if readings == [] then 0
    else
      var last := if InBand(readings[|readings| - 1], setpoint, deadband) then 0 else 1;
      Excursions(readings[..|readings| - 1], setpoint, deadband) + last
  }

  /**
    A powered part asks for a refresh on every reading outside the band, whether or not the switch
    changes; an unpowered one never does and keeps its switch.
  */
  lemma {:induction false} TraceRefreshes(power: real, switch: bool, readings: seq<real>, setpoint: real, deadband: real)
    ensures Trace(power, switch, readings, setpoint, deadband).1 ==
      (if power == 0.0 then 0 else Excursions(readings, setpoint, deadband))
    ensures power == 0.0 ==> Trace(power, switch, readings, setpoint, deadband).0 == switch
  {
    if readings != [] {
      TraceRefreshes(power, switch, readings[..|readings| - 1], setpoint, deadband);
    }
  }

  /** The final setting of a powered part follows its last reading outside the band, whatever came before it. */
  lemma {:induction false} TraceFollowsLastExcursion(power: real, switch: bool, readings: seq<real>, setpoint: real, deadband: real)
    requires power != 0.0 && readings != []
    requires !InBand(readings[|readings| - 1], setpoint, deadband)
    ensures Trace(power, switch, readings, setpoint, deadband).0 ==
      Decide(power, readings[|readings| - 1], setpoint, deadband).value
  {
  }

  /**
    A heater of power 5 that starts on and reads 22, 22 and 18 is switched off, off and on, and a
    refresh is asked for on all three ticks, the second one changing nothing.
  */
  lemma RefreshWithoutChange()
    ensures Trace(5.0, true, [22.0, 22.0], DefaultSetpoint, DefaultDeadband) == (false, 2)
    ensures Trace(5.0, true, [22.0, 22.0, 18.0], DefaultSetpoint, DefaultDeadband) == (true, 3)
  {
    assert [22.0, 22.0, 18.0][..2] == [22.0, 22.0];
    assert [22.0, 22.0][..1] == [22.0];
    assert [22.0][..0] == [];
  }

  class Thermostat {
    const model: Model2D
    const thermometer: Thermometer
    const powerSource: Part
    var setpoint: real
    var deadband: real

    constructor (model: Model2D, thermometer: Thermometer, powerSource: Part)
      ensures this.model == model && this.thermometer == thermometer && this.powerSource == powerSource
      ensures setpoint == DefaultSetpoint && deadband == DefaultDeadband
    {
      this.model := model;
      this.thermometer := thermometer;
      this.powerSource := powerSource;
      setpoint := DefaultSetpoint;
      deadband := DefaultDeadband;
    }

    /** The public constructor, which refuses a missing thermometer or power source. */
    static method Create(model: Model2D, thermometer: Thermometer?, powerSource: Part?) returns (r: Thermostat?)
      ensures r == null <==> thermometer == null || powerSource == null
      ensures r != null ==> fresh(r) && r.model == model && r.thermometer == thermometer
      ensures r != null ==> r.powerSource == powerSource && r.setpoint == DefaultSetpoint && r.deadband == DefaultDeadband
    {
      if thermometer == null || powerSource == null {
        return null;
      }
      r := new Thermostat(model, thermometer, powerSource);
    }

    /** One control step: throws the switch as Decide says, and asks for one refresh when it does. */
    method Control()
      modifies powerSource, model
      ensures powerSource.props == old(powerSource.props)
      ensures var d := Decide(old(powerSource.props.power), thermometer.reading, setpoint, deadband);
        powerSource.powerSwitch == (if d.Some? then d.value else old(powerSource.powerSwitch))
        && model.powerRefreshes == old(model.powerRefreshes) + (if d.Some? then 1 else 0)
    {
      var power := powerSource.props.power;
      if power == 0.0 {
        return;
      }
      var refresh := false;
      var t := thermometer.reading;
      if power > 0.0 {
        if t > setpoint + deadband {
          powerSource.powerSwitch := false;
          refresh := true;
        } else if t < setpoint - deadband {
          powerSource.powerSwitch := true;
          refresh := true;
        }
      } else {
        if t < setpoint - deadband {
          powerSource.powerSwitch := false;
          refresh := true;
        } else if t > setpoint + deadband {
          powerSource.powerSwitch := true;
          refresh := true;
        }
      }
      if refresh {
        model.RefreshPowerArray();
      }
    }

    method SetDeadband(deadband: real)
      modifies this
      ensures this.deadband == deadband && setpoint == old(setpoint)
    {
      this.deadband := deadband;
    }

    method SetSetPoint(setpoint: real)
      modifies this
      ensures this.setpoint == setpoint && deadband == old(deadband)
    {
      this.setpoint := setpoint;
    }

    /** toXml(): a thermostat element naming its thermometer and power source by uid ("null" when they have none). */
    function ToXml(): (e: Element)
      reads this, thermometer, powerSource
      ensures e.name == "thermostat"
      ensures Names(e.attrs) == ["set_point", "deadband", "thermometer", "power_source"]
      ensures AttrValue(e.attrs, "set_point") == Some(Real(setpoint))
      ensures AttrValue(e.attrs, "deadband") == Some(Real(deadband))
      ensures AttrValue(e.attrs, "thermometer") == Some(UidValue(thermometer.uid))
      ensures AttrValue(e.attrs, "power_source") == Some(UidValue(powerSource.props.uid))
    {
      var attrs := [
        Attr("set_point", Real(setpoint)),
        Attr("deadband", Real(deadband)),
        Attr("thermometer", UidValue(thermometer.uid)),
        Attr("power_source", UidValue(powerSource.props.uid))];
      AttrValueAt(attrs, 2, "thermometer");
      AttrValueAt(attrs, 3, "power_source");
      Element("thermostat", attrs)
    }
  }

  /** A uid as string concatenation writes it. */
  function UidValue(uid: Option<string>): Value {
    match uid
    case Some(s) => Text(s)
    case None => Null
  }
}

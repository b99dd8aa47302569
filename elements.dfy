/**
  The model objects the controllers, the dialog and the dispatcher work on, reduced to the
  properties they read and write. Their geometry, their own serialisers and the solver arrays are
  not part of this model.
*/
module Elements {
  import opened Common

  /** The outline of a part, as far as the dialog distinguishes it. */
  datatype ShapeKind = Rectangular | Polygonal | OtherShape

  /** The thermal, optical and bookkeeping properties of a part (org.concord.energy2d.model.Part). */
  datatype PartProps = PartProps(
    uid: Option<string>,
    labelText: Option<string>,
    shape: ShapeKind,
    power: real,
    temperature: real,
    constantTemperature: bool,
    conductivity: real,
    specificHeat: real,
    density: real,
    windSpeed: real,
    windAngle: real,
    absorption: real,
    reflection: real,
    transmission: real,
    emissivity: real)

  /** A part of the model: its properties, and the power switch a thermostat throws. */
  class Part {
    var props: PartProps
    var powerSwitch: bool

    constructor (props: PartProps, powerSwitch: bool)
      ensures this.props == props && this.powerSwitch == powerSwitch
    {
      this.props := props;
      this.powerSwitch := powerSwitch;
    }
  }

  /** A thermometer: its uid and its latest reading (getCurrentData()). */
  class Thermometer {
    var uid: Option<string>
    var reading: real

    constructor (uid: Option<string>, reading: real)
      ensures this.uid == uid && this.reading == reading
    {
      this.uid := uid;
      this.reading := reading;
    }
  }

  /** The simulation model, as far as a controller touches it: the requests to rebuild its power array. */
  class Model2D {
    var powerRefreshes: nat

    constructor ()
      ensures powerRefreshes == 0
    {
      powerRefreshes := 0;
    }

    /** refreshPowerArray(): one more request. */
    method RefreshPowerArray()
      modifies this
      ensures powerRefreshes == old(powerRefreshes) + 1
    {
      powerRefreshes := powerRefreshes + 1;
    }
  }
}

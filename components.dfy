/** Component.py: a unit of work flowing from an inspector through a buffer to a workstation. */
module Components {
  import opened Outcomes

  /** The kinds of raw part (Simulation.py:21-25 uses C1, C2 and C3). */
  datatype ComponentType = C1 | C2 | C3

  class Component {
    const arrivalTime: real
    const componentType: ComponentType
    var departureTime: Option<real>

    /** A new component has arrived but not departed. */
    constructor (arrivalTime: real, componentType: ComponentType)
      ensures this.arrivalTime == arrivalTime && this.componentType == componentType
      ensures departureTime == None
    {
      this.arrivalTime := arrivalTime;
      this.componentType := componentType;
      departureTime := None;
    }

    /** Stamps the departure time; arrival time and type are constants, so only this field changes. */
    method SetDepartureTime(t: real)
      modifies this`departureTime
      ensures departureTime == Some(t)
    {
      departureTime := Some(t);
    }
  }

  /** A client: the last of two stamps is the one that remains. */
  method StampTwice(c: Component, first: real, second: real)
    modifies c
    ensures c.departureTime == Some(second)
  {
    c.SetDepartureTime(first);
    c.SetDepartureTime(second);
  }
}

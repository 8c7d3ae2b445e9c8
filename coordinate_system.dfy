// Controller helpers around the interpreter: four-axis coordinates, the six
// work coordinate systems G54..G59, the program axes tied to the machine
// position, and the address register table that hands NC words to the
// controller.
module CoordinateSystem {
  import opened MacroValues

  /** A point in the four controlled axes. */
  datatype Coordinate = Coordinate(x: real, y: real, z: real, b: real)

  datatype Axis = X | Y | Z | B

  /** The coordinate of one axis. */
  function Component(c: Coordinate, a: Axis): real {
    match a
    case X => c.x
    case Y => c.y
    case Z => c.z
    case B => c.b
  }

  /** `c` with axis `a` set to `v`; the other three axes keep their value. */
  function WithComponent(c: Coordinate, a: Axis, v: real): (r: Coordinate)
    ensures Component(r, a) == v
    ensures forall o: Axis :: o != a ==> Component(r, o) == Component(c, o)
  {
    match a
    case X => c.(x := v)
    case Y => c.(y := v)
    case Z => c.(z := v)
    case B => c.(b := v)
  }

  /** A machine coordinate held by reference: the program axes write
      through it when they move. */
  class MachineCoordinate {
    var position: Coordinate

    constructor(position: Coordinate)
      ensures this.position == position
    {
      this.position := position;
    }
  }

  /** One program axis, bound to one axis of the machine coordinate. */
  class CoordinateAxis {
    var position: real
    const machine: MachineCoordinate
    const axis: Axis
    var delta: real

    /** The axis starts at `value`, with the difference to the machine
        position as its delta. */
    constructor(value: real, machine: MachineCoordinate, axis: Axis)
      ensures position == value && this.machine == machine && this.axis == axis
      ensures delta == Component(machine.position, axis) - value
    {
      position := value;
      this.machine := machine;
      this.axis := axis;
      delta := Component(machine.position, axis) - value;
    }

    function GetPosition(): (r: real)
      reads this
      ensures r == position
    {
      position
    }

    /** Overwrites the axis position alone. */
    method SetPosition(value: real)
      modifies this
      ensures position == value && delta == old(delta)
    {
      position := value;
    }

    /** Overwrites the delta alone. */
    method SetDelta(d: real)
      modifies this
      ensures delta == d && position == old(position)
    {
      delta := d;
    }

    /** Moves the axis to `target` and the machine axis along with it, so
        the machine stays `delta` ahead of the program axis. */
    method MovePosition(target: real) returns (ok: bool)
      modifies this, machine
      ensures ok
      ensures position == target && delta == old(delta)
      ensures machine.position == WithComponent(old(machine.position), axis, target + delta)
      ensures Component(machine.position, axis) - position == delta
    {
      position := target;
      machine.position := WithComponent(machine.position, axis, target + delta);
      ok := true;
    }
  }

  /** The origins of G54..G59 at power-up: G55 at -500 on X, Y and Z, the
      others at -700, all with B at 0. */
  function InitialOrigins(): (r: seq<Coordinate>)
    ensures |r| == 6
    ensures forall i :: 0 <= i < 6 && i != 1 ==> r[i] == Coordinate(-700.0, -700.0, -700.0, 0.0)
    ensures r[1] == Coordinate(-500.0, -500.0, -500.0, 0.0)
  {
    var g := Coordinate(-700.0, -700.0, -700.0, 0.0);
    [g, Coordinate(-500.0, -500.0, -500.0, 0.0), g, g, g, g]
  }

  /** Every origin moved by `offset` along axis `a`. */
  function Shifted(origins: seq<Coordinate>, a: Axis, offset: real): (r: seq<Coordinate>)
    ensures |r| == |origins|
    ensures forall i :: 0 <= i < |r| ==> Component(r[i], a) == Component(origins[i], a) + offset
    ensures forall i, o: Axis :: 0 <= i < |r| && o != a ==> Component(r[i], o) == Component(origins[i], o)
  {
    seq(|origins|, i requires 0 <= i < |origins| => WithComponent(origins[i], a, Component(origins[i], a) + offset))
  }

  /** A shift keeps the distance between any two origins along every axis. */
  lemma ShiftKeepsGaps(origins: seq<Coordinate>, a: Axis, offset: real, i: int, j: int, o: Axis)
    requires 0 <= i < |origins| && 0 <= j < |origins|
    ensures var r := Shifted(origins, a, offset);
            Component(r[i], o) - Component(r[j], o) == Component(origins[i], o) - Component(origins[j], o)
  {
    if o != a {
      assert Component(Shifted(origins, a, offset)[i], o) == Component(origins[i], o);
    }
  }

  /** The six work coordinate systems and the one currently selected. The
      C++ pointer to the selected origin is the index `selected`, 0 for G54
      through 5 for G59. */
  class WorkingCoordinateSystem {
    var origins: seq<Coordinate>
    var selected: nat

    predicate Valid()
      reads this
    {
      |origins| == 6 && selected < 6
    }

    /** Power-up origins, with G54 selected. */
    constructor()
      ensures Valid()
      ensures origins == InitialOrigins() && selected == 0
    {
      origins := InitialOrigins();
      selected := 0;
    }

    /** The machine coordinate of the selected origin along axis `a`
        (SystemPositionAxisX/Y/Z/B). */
    function SystemPosition(a: Axis): (r: real)
      requires Valid()
      reads this
      ensures r == Component(origins[selected], a)
    {
      Component(origins[selected], a)
    }

    /** Selects G<id>; only 54..59 are accepted, anything else keeps the
        current selection. */
    method Select(id: ushort) returns (ok: bool)
      requires Valid()
      modifies this
      ensures Valid() && origins == old(origins)
      ensures ok <==> 54 <= id <= 59
      ensures ok ==> selected == id - 54
      ensures !ok ==> selected == old(selected)
    {
      if 54 <= id <= 59 {
        selected := id - 54;
        ok := true;
      } else {
        ok := false;
      }
    }

    /** Moves all six origins along `a` so that the selected origin places
        the program coordinate `program` at machine coordinate `machine`. */
    method ShiftByProgramAxis(a: Axis, machine: real, program: real)
      requires Valid()
      modifies this
      ensures Valid() && selected == old(selected)
      ensures origins == Shifted(old(origins), a, machine - program - Component(old(origins)[selected], a))
      ensures SystemPosition(a) == machine - program
    {
      var offset := machine - program - Component(origins[selected], a);
      origins := Shifted(origins, a, offset);
    }
  }

  /** The four program axes, each bound to one axis of the machine
      coordinate and starting at machine minus the selected origin. */
  class ProgramCoordinateSystem {
    const axisX: CoordinateAxis
    const axisY: CoordinateAxis
    const axisZ: CoordinateAxis
    const axisB: CoordinateAxis

    constructor(machine: MachineCoordinate, working: WorkingCoordinateSystem)
      requires working.Valid()
      ensures fresh(axisX) && fresh(axisY) && fresh(axisZ) && fresh(axisB)
      ensures axisX.machine == machine && axisX.axis == X
      ensures axisY.machine == machine && axisY.axis == Y
      ensures axisZ.machine == machine && axisZ.axis == Z
      ensures axisB.machine == machine && axisB.axis == B
      ensures axisX.position == machine.position.x - working.SystemPosition(X) && axisX.delta == working.SystemPosition(X)
      ensures axisY.position == machine.position.y - working.SystemPosition(Y) && axisY.delta == working.SystemPosition(Y)
      ensures axisZ.position == machine.position.z - working.SystemPosition(Z) && axisZ.delta == working.SystemPosition(Z)
      ensures axisB.position == machine.position.b - working.SystemPosition(B) && axisB.delta == working.SystemPosition(B)
    {
      axisX := new CoordinateAxis(machine.position.x - working.SystemPosition(X), machine, X);
      axisY := new CoordinateAxis(machine.position.y - working.SystemPosition(Y), machine, Y);
      axisZ := new CoordinateAxis(machine.position.z - working.SystemPosition(Z), machine, Z);
      axisB := new CoordinateAxis(machine.position.b - working.SystemPosition(B), machine, B);
    }
  }

  /** What `map::insert` does: an address already present keeps its value. */
  function Inserted<V>(m: map<char, V>, address: char, value: V): (r: map<char, V>)
    ensures address in r && r.Keys == m.Keys + {address}
    ensures address in m ==> r == m
    ensures address !in m ==> r[address] == value
    ensures forall k :: k in m ==> r[k] == m[k]
  {
    if address in m then m else m[address := value]
  }

  /** What find-then-erase does: the value stored at `address`, if any, and
      the map without it; a missing address leaves the map as it is. */
  function Taken<V>(m: map<char, V>, address: char): (r: (Option<V>, map<char, V>))
    ensures r.0.Some? <==> address in m
    ensures r.0.Some? ==> r.0.value == m[address]
    ensures r.1.Keys == m.Keys - {address}
    ensures forall k :: k in r.1 ==> r.1[k] == m[k]
  {
    if address in m then (Some(m[address]), m - {address}) else (None, m)
  }

  /** Taking back an address that was absent before an insert returns the
      inserted value and the map as it was. */
  lemma TakeUndoesInsert<V>(m: map<char, V>, address: char, value: V)
    requires address !in m
    ensures Taken(Inserted(m, address, value), address) == (Some(value), m)
  {
    assert Inserted(m, address, value) - {address} == m;
  }

  /** Typed registers of NC words: each address maps to at most one integer,
      one float and one string. */
  class AddressValueTable {
    var integers: map<char, int>
    var floats: map<char, real>
    var strings: map<char, string>

    constructor()
      ensures integers == map[] && floats == map[] && strings == map[]
    {
      integers := map[];
      floats := map[];
      strings := map[];
    }

    /** No address holds a register of any type. */
    predicate Empty(): (r: bool)
      reads this
      ensures r <==> forall a: char :: a !in integers && a !in floats && a !in strings
    {
      integers == map[] && floats == map[] && strings == map[]
    }

    method InputInteger(address: char, value: int)
      modifies this
      ensures integers == Inserted(old(integers), address, value)
      ensures floats == old(floats) && strings == old(strings)
    {
      integers := Inserted(integers, address, value);
    }

    method InputFloat(address: char, value: real)
      modifies this
      ensures floats == Inserted(old(floats), address, value)
      ensures integers == old(integers) && strings == old(strings)
    {
      floats := Inserted(floats, address, value);
    }

    method InputString(address: char, value: string)
      modifies this
      ensures strings == Inserted(old(strings), address, value)
      ensures integers == old(integers) && floats == old(floats)
    {
      strings := Inserted(strings, address, value);
    }

    /** Hands out and erases the integer at `address`; `prior` is the
        caller's variable, returned unchanged when the address is absent. */
    method OutputInteger(address: char, prior: int) returns (found: bool, value: int)
      modifies this
      ensures found <==> address in old(integers)
      ensures found ==> value == old(integers)[address]
      ensures !found ==> value == prior
      ensures integers == Taken(old(integers), address).1
      ensures floats == old(floats) && strings == old(strings)
    {
      found := address in integers;
      if found {
        value := integers[address];
        integers := integers - {address};
      } else {
        value := prior;
      }
    }

    method OutputFloat(address: char, prior: real) returns (found: bool, value: real)
      modifies this
      ensures found <==> address in old(floats)
      ensures found ==> value == old(floats)[address]
      ensures !found ==> value == prior
      ensures floats == Taken(old(floats), address).1
      ensures integers == old(integers) && strings == old(strings)
    {
      found := address in floats;
      if found {
        value := floats[address];
        floats := floats - {address};
      } else {
        value := prior;
      }
    }

    method OutputString(address: char, prior: string) returns (found: bool, value: string)
      modifies this
      ensures found <==> address in old(strings)
      ensures found ==> value == old(strings)[address]
      ensures !found ==> value == prior
      ensures strings == Taken(old(strings), address).1
      ensures integers == old(integers) && floats == old(floats)
    {
      found := address in strings;
      if found {
        value := strings[address];
        strings := strings - {address};
      } else {
        value := prior;
      }
    }
  }
}

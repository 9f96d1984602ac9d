/** The tween accessor that exposes a velocity component's two coordinates
    to the tween engine, one value per tween type. */
module VelocityAccessor {
  import opened Components

  const VELOCITY_X: int := 0
  const VELOCITY_Y: int := 1

  /** The value a tween type reads from a velocity (x, y), if the type is known. */
  function ValueOf(x: real, y: real, tweenType: int): (r: (int, real))
  {
    if tweenType == VELOCITY_X then (1, x)
    else if tweenType == VELOCITY_Y then (1, y)
    else (-1, 0.0)
  }

  /** `getValues`: a known type writes one value into slot 0 and returns 1;
      an unknown type returns -1 and writes nothing. */
  method GetValues(target: VelocityComponent, tweenType: int, returnValues: array<real>) returns (count: int)
    requires tweenType == VELOCITY_X || tweenType == VELOCITY_Y ==> returnValues.Length >= 1
    modifies returnValues
    ensures count == ValueOf(target.x, target.y, tweenType).0
    ensures count == 1 ==> returnValues[0] == ValueOf(target.x, target.y, tweenType).1
    ensures count == -1 ==> returnValues[..] == old(returnValues[..])
    ensures forall i | 1 <= i < returnValues.Length :: returnValues[i] == old(returnValues[i])
  {
    if tweenType == VELOCITY_X {
      returnValues[0] := target.x;
      return 1;
    } else if tweenType == VELOCITY_Y {
      returnValues[0] := target.y;
      return 1;
    } else {
      return -1;
    }
  }

  /** `setValues`: a known type sets its one coordinate from slot 0, an
      unknown type changes nothing. */
  method SetValues(target: VelocityComponent, tweenType: int, newValues: array<real>)
    requires tweenType == VELOCITY_X || tweenType == VELOCITY_Y ==> newValues.Length >= 1
    modifies target
    ensures tweenType == VELOCITY_X ==> target.x == newValues[0] && target.y == old(target.y)
    ensures tweenType == VELOCITY_Y ==> target.y == newValues[0] && target.x == old(target.x)
    ensures tweenType != VELOCITY_X && tweenType != VELOCITY_Y ==> target.x == old(target.x) && target.y == old(target.y)
  {
    if tweenType == VELOCITY_X {
      target.x := newValues[0];
    } else if tweenType == VELOCITY_Y {
      target.y := newValues[0];
    }
  }

  /** Writing a value with a known type and reading it back with the same
      type returns what was written. */
  method SetThenGet(target: VelocityComponent, tweenType: int, v: real) returns (read: real)
    requires tweenType == VELOCITY_X || tweenType == VELOCITY_Y
    modifies target
    ensures read == v
  {
    var buffer := new real[1](_ => v);
    SetValues(target, tweenType, buffer);
    var out := new real[1];
    var count := GetValues(target, tweenType, out);
    read := out[0];
  }
}

/** A position component: a pooled (x, y) record. */
module Position {

  class PositionComponent {
    var x: real
    var y: real

    /** A fresh component sits at the origin. */
    constructor ()
      ensures x == 0.0 && y == 0.0
    {
      x, y := 0.0, 0.0;
    }

    /** The pool reset: back to the origin, whatever was set before, so a
        reset component equals a fresh one. */
    method Reset()
      modifies this
      ensures x == 0.0 && y == 0.0
    {
      x := 0.0;
      y := 0.0;
    }

    method SetPosition(x': real, y': real)
      modifies this
      ensures x == x' && y == y'
    {
      x := x';
      y := y';
    }
  }

  /** Resetting after any SetPosition gives the state of a fresh component. */
  method ResetAfterSet(p: PositionComponent, a: real, b: real)
    modifies p
    ensures p.x == 0.0 && p.y == 0.0
  {
    p.SetPosition(a, b);
    p.Reset();
  }
}

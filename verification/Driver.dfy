/** The driver's share of a soft reset (src/driver.c): the steps that never played
    come off the core's position, axis by axis. */
module Driver {
  import opened PulseBytes
  import opened StreamEngine

  const AXES := 3

  function Axis(v: Vec, i: nat): int
    requires i < AXES
  {
    if i == 0 then v.x else if i == 1 then v.y else v.z
  }

  class Core {
    const position: array<int>
    var positionLost: bool

    ghost predicate Valid() { position.Length == AXES }

    ghost function Position(): Vec
      reads position
      requires Valid()
    {
      Vec(position[0], position[1], position[2])
    }

    constructor ()
      ensures Valid() && fresh(position) && Position() == ZERO && !positionLost
    {
      position := new int[AXES](_ => 0);
      positionLost := false;
    }

    /** Takes the read-back the engine holds: done, the position drops the steps and
        is trusted; lost or not owed, it stays, and so does what was lost. */
    method ReadbackPosition(g: Gf) returns (h: Gf)
      requires Valid()
      modifies this, position
      ensures h == TakeReadback(g).0 && h.readback.RbNone?
      ensures Position() == (if g.readback.RbDone? then Minus(old(Position()), TakeReadback(g).2) else old(Position()))
      ensures positionLost == (old(positionLost) && !g.readback.RbDone?)
    {
      var (taken, rc, unplayed) := TakeReadback(g);
      h := taken;
      if rc > 0 {
        var i := 0;
        while i < AXES
          invariant 0 <= i <= AXES && positionLost == old(positionLost)
          invariant forall j :: 0 <= j < i ==> position[j] == old(position[j]) - Axis(unplayed, j)
          invariant forall j :: i <= j < AXES ==> position[j] == old(position[j])
        {
          position[i] := position[i] - Axis(unplayed, i);
          i := i + 1;
        }
        positionLost := false;
      }
    }
  }
}

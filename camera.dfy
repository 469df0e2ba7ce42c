/** Camera follow: each tick the viewport moves by the ship's displacement since the last one. */
module Camera {
  import opened Geometry

  /** The reference point after the ship has been seen at each of `ps`, starting from `where`. */
  function LastSeen(where: Vec, ps: seq<Vec>): Vec
  {
    if ps == [] then where else ps[|ps| - 1]
  }

  /** The viewport offsets applied over ticks at which the ship stands at `ps` in turn: each is
      the new position minus the previous reference, which then becomes the new position. */
  function Offsets(where: Vec, ps: seq<Vec>): seq<Vec>
  {
    if ps == [] then []
    else Offsets(where, ps[..|ps| - 1]) + [Sub(ps[|ps| - 1], LastSeen(where, ps[..|ps| - 1]))]
  }

  /** The offsets telescope: together they move the viewport by the ship's total displacement. */
  lemma {:induction false} OffsetsTelescope(where: Vec, ps: seq<Vec>)
    ensures |Offsets(where, ps)| == |ps|
    ensures SumVec(Offsets(where, ps)) == Sub(LastSeen(where, ps), where)
  {
    if ps != [] {
      var n := |ps| - 1;
      OffsetsTelescope(where, ps[..n]);
      assert Offsets(where, ps)[..n] == Offsets(where, ps[..n]);
    }
  }
}

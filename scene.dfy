/// The game scene: three towers, three rings stacked on the first tower, and the
/// keyboard handlers acting on the selected ring.
module Scene {
  import opened Wrappers
  import opened Stacking
  import opened Entities
  import opened Input

  class GameScene {
    const tower1: Tower
    const tower2: Tower
    const tower3: Tower
    const ring1: Ring
    const ring2: Ring
    const ring3: Ring
    /// The ring the keys act on; the scene starts with none and never sets one.
    var selectedRing: Ring?

    /// Builds the towers and rings and places large, medium and small on tower1.
    constructor ()
      ensures tower1.x == 150 && tower2.x == 400 && tower3.x == 650
      ensures tower1.y == 550 && tower2.y == 550 && tower3.y == 550
      ensures ring1.color == Red && ring1.width == Width(Large)
      ensures ring2.color == Yellow && ring2.width == Width(Medium)
      ensures ring3.color == Green && ring3.width == Width(Small)
      ensures ring1.height == RING_HEIGHT && ring2.height == RING_HEIGHT && ring3.height == RING_HEIGHT
      ensures ring1.outlineColor == Black && ring1.outlineWidth == 1
      ensures ring2.outlineColor == Black && ring2.outlineWidth == 1
      ensures ring3.outlineColor == Black && ring3.outlineWidth == 1
      ensures tower1.rings == [ring1, ring2, ring3]
      ensures tower2.rings == [] && tower3.rings == []
      ensures ring1.Pos() == Vec2(150, 550)
      ensures ring2.Pos() == Vec2(150, 510)
      ensures ring3.Pos() == Vec2(150, 470)
      ensures [ring1.Pos(), ring2.Pos(), ring3.Pos()] == Seats(tower1.x, tower1.y, 0, 3)
      ensures tower1.AvailableRing() == Some(ring3)
      ensures tower2.AvailableRing() == None && tower3.AvailableRing() == None
      ensures selectedRing == null
      ensures fresh(tower1) && fresh(tower2) && fresh(tower3)
      ensures fresh(ring1) && fresh(ring2) && fresh(ring3)
    {
      var t1 := new Tower(150, 550);
      var t2 := new Tower(400, 550);
      var t3 := new Tower(650, 550);
      var r1 := new Ring(Red, Large);
      var r2 := new Ring(Yellow, Medium);
      var r3 := new Ring(Green, Small);
      r1.PlaceOnTower(t1);
      r2.PlaceOnTower(t1);
      r3.PlaceOnTower(t1);
      tower1, tower2, tower3 := t1, t2, t3;
      ring1, ring2, ring3 := r1, r2, r3;
      selectedRing := null;
    }

    /// Jump key: requests an upward impulse on the selected ring when it is grounded.
    method OnSpace(grounded: bool) returns (e: Effect)
      ensures e == Handler(Space, selectedRing != null, grounded)
      ensures e != NoEffect <==> selectedRing != null && grounded
    {
      if selectedRing == null || !grounded {
        return NoEffect;
      }
      e := Jump(JUMP_FORCE);
    }

    /// Right key held: moves the selected ring one step right when it is airborne.
    method OnRight(grounded: bool) returns (e: Effect)
      modifies selectedRing
      ensures e == Handler(Right, selectedRing != null, grounded)
      ensures selectedRing != null && !grounded ==>
        selectedRing.x == old(selectedRing.x) + MOVE_STEP && selectedRing.y == old(selectedRing.y)
      ensures selectedRing != null && grounded ==> selectedRing.Pos() == old(selectedRing.Pos())
      ensures selectedRing != null ==>
        selectedRing.outlineColor == old(selectedRing.outlineColor) &&
        selectedRing.outlineWidth == old(selectedRing.outlineWidth)
    {
      if selectedRing == null || grounded {
        return NoEffect;
      }
      selectedRing.MoveBy(MOVE_STEP, 0);
      e := Move(MOVE_STEP, 0);
    }

    /// Left key held: moves the selected ring one step left when it is airborne.
    method OnLeft(grounded: bool) returns (e: Effect)
      modifies selectedRing
      ensures e == Handler(Left, selectedRing != null, grounded)
      ensures selectedRing != null && !grounded ==>
        selectedRing.x == old(selectedRing.x) - MOVE_STEP && selectedRing.y == old(selectedRing.y)
      ensures selectedRing != null && grounded ==> selectedRing.Pos() == old(selectedRing.Pos())
      ensures selectedRing != null ==>
        selectedRing.outlineColor == old(selectedRing.outlineColor) &&
        selectedRing.outlineWidth == old(selectedRing.outlineWidth)
    {
      if selectedRing == null || grounded {
        return NoEffect;
      }
      selectedRing.MoveBy(-MOVE_STEP, 0);
      e := Move(-MOVE_STEP, 0);
    }

    /// Enter key held: bound to a handler that does nothing.
    method OnEnter() returns (e: Effect)
      ensures e == NoEffect
    {
      e := NoEffect;
    }
  }

  /// Adding `rings` to `tower` one after another appends them in order and hands out
  /// the seats of successive stack positions, starting from the tower's old length.
  method AddRings(tower: Tower, rings: seq<Ring>) returns (seats: seq<Vec2>)
    modifies tower`rings
    ensures tower.rings == old(tower.rings) + rings
    ensures seats == Seats(tower.x, tower.y, |old(tower.rings)|, |rings|)
  {
    seats := [];
    var i := 0;
    while i < |rings|
      invariant 0 <= i <= |rings|
      invariant tower.rings == old(tower.rings) + rings[..i]
      invariant seats == Seats(tower.x, tower.y, |old(tower.rings)|, i)
    {
      var seat := tower.AddRing(rings[i]);
      assert rings[..i + 1] == rings[..i] + [rings[i]];
      seats := seats + [seat];
      i := i + 1;
    }
    assert rings[..i] == rings;
  }

  /// Placing a ring on a second tower seats it on that tower, while the first tower
  /// still lists it: no tower ever drops a ring from its stack.
  method PlaceOnTwoTowers(ring: Ring, first: Tower, second: Tower)
    requires first != second
    modifies ring`x, ring`y, first`rings, second`rings
    ensures first.rings == old(first.rings) + [ring]
    ensures second.rings == old(second.rings) + [ring]
    ensures ring in first.rings && first.AvailableRing() == Some(ring)
    ensures ring.Pos() == Seat(second.x, second.y, |old(second.rings)|)
  {
    ring.PlaceOnTower(first);
    ring.PlaceOnTower(second);
  }

  /// Selecting a ring twice leaves it as selecting it once does, and selecting never
  /// moves it or touches a tower.
  method SelectTwice(ring: Ring, tower: Tower)
    modifies ring`outlineColor, ring`outlineWidth
    ensures ring.outlineColor == Cyan && ring.outlineWidth == 2
    ensures ring.Pos() == old(ring.Pos()) && tower.rings == old(tower.rings)
  {
    ring.Select();
    ring.Select();
  }
}

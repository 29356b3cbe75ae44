/// The two kinds of game object: towers, which keep a stack of rings, and rings,
/// which can be highlighted and seated on a tower.
module Entities {
  import opened Wrappers
  import opened Stacking

  /// The engine's named colours that the scene uses.
  datatype Color = Red | Yellow | Green | Cyan | Black

  /// The three ring sizes.
  datatype Size = Large | Medium | Small

  /// Width in pixels of a ring of the given size; each size has its own width.
  function Width(size: Size): (w: int)
    ensures w == 150 <==> size == Large
    ensures w == 110 <==> size == Medium
    ensures w == 70 <==> size == Small
  {
    match size
    case Large => 150
    case Medium => 110
    case Small => 70
  }

  /// A tower anchored at (x, y) holding the rings placed on it, bottom first.
  class Tower {
    const x: int
    const y: int
    var rings: seq<Ring>

    constructor (x: int, y: int)
      ensures this.x == x && this.y == y && rings == []
    {
      this.x := x;
      this.y := y;
      rings := [];
    }

    /// Appends `ring` to the stack, whatever its size and whatever is already there,
    /// and returns the seat of the new top position.
    method AddRing(ring: Ring) returns (seat: Vec2)
      modifies this`rings
      ensures rings == old(rings) + [ring]
      ensures seat == Seat(x, y, |rings| - 1)
    {
      rings := rings + [ring];
      seat := Vec2(x, y - (|rings| - 1) * RING_HEIGHT);
    }

    /// The ring most recently added, or None when no ring was ever added.
    function AvailableRing(): (r: Option<Ring>)
      reads this
      ensures r.None? <==> rings == []
      ensures r.Some? ==> r.value == rings[|rings| - 1]
    {
      Top(rings)
    }
  }

  /// A ring: its size fixes its width, its height is always RING_HEIGHT.
  class Ring {
    const color: Color
    const width: int
    const height: int
    var x: int
    var y: int
    var outlineColor: Color
    var outlineWidth: int

    /// A new ring at the origin with a thin black outline.
    constructor (color: Color, size: Size)
      ensures this.color == color && width == Width(size) && height == RING_HEIGHT
      ensures x == 0 && y == 0
      ensures outlineColor == Black && outlineWidth == 1
    {
      this.color := color;
      width := Width(size);
      height := RING_HEIGHT;
      x, y := 0, 0;
      outlineColor, outlineWidth := Black, 1;
    }

    function Pos(): Vec2
      reads this
    {
      Vec2(x, y)
    }

    /// Highlights the ring; position and every tower's stack are untouched.
    method Select()
      modifies this`outlineColor, this`outlineWidth
      ensures outlineColor == Cyan && outlineWidth == 2
      ensures x == old(x) && y == old(y)
    {
      outlineColor := Cyan;
      outlineWidth := 2;
    }

    /// Registers the ring on `tower` and moves it to the seat the tower hands out.
    /// A tower the ring was placed on before keeps its entry for the ring.
    method PlaceOnTower(tower: Tower)
      modifies this`x, this`y, tower`rings
      ensures tower.rings == old(tower.rings) + [this]
      ensures Pos() == Seat(tower.x, tower.y, |old(tower.rings)|)
    {
      var seat := tower.AddRing(this);
      x := seat.x;
      y := seat.y;
    }

    /// Shifts the ring by (dx, dy).
    method MoveBy(dx: int, dy: int)
      modifies this`x, this`y
      ensures x == old(x) + dx && y == old(y) + dy
    {
      x := x + dx;
      y := y + dy;
    }
  }
}

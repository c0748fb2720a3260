/**
 * A simulated body: its generated name and editable display name, its mass
 * as coefficient × 10^exponent, its place in the scene and its trail.
 */
module Stars {
  import opened Trail
  import Decimal

  /** Metres per scene unit. */
  const Scale: real := 2000000000.0

  /** The generated name of the n-th star created into the list. */
  function StarName(n: nat): string {
    "Star" + Decimal.NatToString(n)
  }

  /** Two positions in the list never receive the same generated name. */
  lemma StarNameInjective(a: nat, b: nat)
    ensures StarName(a) == StarName(b) ==> a == b
  {
    if StarName(a) == StarName(b) {
      assert StarName(a)[4..] == Decimal.NatToString(a);
      assert StarName(b)[4..] == Decimal.NatToString(b);
      Decimal.NatToStringInjective(a, b);
    }
  }

  /** A list named by position, as newStar names it, never holds a name twice. */
  lemma NamesUnique(names: seq<string>)
    requires forall i :: 0 <= i < |names| ==> names[i] == StarName(i + 1)
    ensures forall i, j :: 0 <= i < j < |names| ==> names[i] != names[j]
  {
    forall i, j | 0 <= i < j < |names|
      ensures names[i] != names[j]
    {
      StarNameInjective(i + 1, j + 1);
    }
  }

  class Star {
    const name: string
    const line: Line
    var displayName: string
    var radius: real
    var color: int
    var massCof: real
    var massExp: real
    var position: Vec3
    var startPosition: Vec3
    var velocity: Vec3
    var emitLight: bool
    var isSun: bool

    /**
     * A star placed at startPosition; `existing` is the length of the star
     * list at the moment of creation, which fixes the generated name.
     */
    constructor (startPosition: Vec3, radius: real, color: int, massCof: real, massExp: real, existing: nat)
      ensures name == StarName(existing + 1) && displayName == name
      ensures this.startPosition == startPosition && position == startPosition
      ensures velocity == Origin && emitLight && !isSun
      ensures this.radius == radius && this.color == color
      ensures this.massCof == massCof && this.massExp == massExp
      ensures fresh(line) && fresh(line.positions) && line.Valid()
      ensures line.points == [startPosition] && line.maxPoints == DefaultMaxPoints
    {
      this.startPosition := startPosition;
      position := startPosition;
      velocity := Origin;
      this.radius := radius;
      this.massCof := massCof;
      this.massExp := massExp;
      line := new Line(startPosition);
      name := StarName(existing + 1);
      displayName := StarName(existing + 1);
      this.color := color;
      emitLight := true;
      isSun := false;
    }

    /** Renames the label shown for the star; the generated name stays. */
    method SetName(newName: string)
      modifies this
      ensures displayName == newName
      ensures radius == old(radius) && color == old(color) && massCof == old(massCof) && massExp == old(massExp)
      ensures position == old(position) && startPosition == old(startPosition) && velocity == old(velocity)
      ensures emitLight == old(emitLight) && isSun == old(isSun)
    {
      displayName := newName;
    }

    method SetEmitLight(mode: bool)
      modifies this
      ensures emitLight == mode
      ensures displayName == old(displayName) && radius == old(radius) && color == old(color)
      ensures massCof == old(massCof) && massExp == old(massExp)
      ensures position == old(position) && startPosition == old(startPosition) && velocity == old(velocity)
      ensures isSun == old(isSun)
    {
      emitLight := mode;
    }

    /** Puts the star back at its start position: where it was created, or where its Position controls last set it. */
    method Reposition()
      modifies this
      ensures position == startPosition
      ensures startPosition == old(startPosition) && displayName == old(displayName)
      ensures radius == old(radius) && color == old(color) && massCof == old(massCof) && massExp == old(massExp)
      ensures velocity == old(velocity) && emitLight == old(emitLight) && isSun == old(isSun)
    {
      position := startPosition;
    }
  }
}

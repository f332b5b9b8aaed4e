/**
 * The game state of the music page: the title letters with their explosion
 * systems, the decoy spaceships, the score and the high score. A click is
 * given as what the two raycasts found (the scene graph and the raycaster are
 * not modelled), and the random draws the explosions use are parameters.
 */
module Music {
  import opened Vectors
  import opened Explosion
  import opened Ships
  import opened Scoring

  datatype Option<+T> = None | Some(value: T)

  /** The number of decoy spaceships the page creates. */
  const ShipCount: nat := 5

  /** What a click is taken to have hit. */
  datatype Hit = LetterHit(letter: nat) | ShipHit(ship: nat) | NoHit

  /**
   * `textHit` is `None` when the ray meets no letter mesh, and otherwise
   * `Some(i)` with `i` the `indexOf` of the first letter mesh hit (-1 when it
   * is not a child of the text group). `shipHit` is the index of the ship
   * whose mesh group the first spaceship mesh hit belongs to, `None` when the
   * ray meets no spaceship or `find` returns nothing.
   */
  function Dispatch(textHit: Option<int>, shipHit: Option<nat>): (h: Hit)
    requires textHit.Some? ==> textHit.value >= -1
    ensures h.LetterHit? <==> textHit.Some? && textHit.value != -1
    ensures h.LetterHit? ==> h.letter == textHit.value
    ensures h.ShipHit? <==> textHit.None? && shipHit.Some?
    ensures h.ShipHit? ==> h.ship == shipHit.value
  {
    match textHit
    case Some(i) => if i != -1 then LetterHit(i) else NoHit
    case None => if shipHit.Some? then ShipHit(shipHit.value) else NoHit
  }

  /** A letter mesh under the ray always wins: the spaceships are then not tested. */
  lemma TextTakesPriority(textHit: Option<int>, shipHit: Option<nat>)
    requires textHit.Some? && textHit.value >= -1
    ensures !Dispatch(textHit, shipHit).ShipHit?
    ensures Dispatch(textHit, shipHit) == Dispatch(textHit, None)
  {
  }

  /** The points a click earns, given whether the ship it hit was already exploding. */
  function Points(h: Hit, shipWasExploding: bool): (p: nat)
    ensures h.LetterHit? ==> p == LetterPoints
    ensures h.ShipHit? ==> p == if shipWasExploding then 0 else ShipPoints
    ensures h.NoHit? ==> p == 0
  {
    match h
    case LetterHit(_) => LetterPoints
    case ShipHit(_) => if shipWasExploding then 0 else ShipPoints
    case NoHit => 0
  }

  /** Every click earns 0, 10 or 100 points, so the score stays a multiple of ten. */
  lemma PointsAreTens(h: Hit, shipWasExploding: bool, score: nat)
    requires score % 10 == 0
    ensures (score + Points(h, shipWasExploding)) % 10 == 0
  {
  }

  /** The five `new Spaceship(scene)` calls: fresh, valid ships placed by `reset`, each with its own objects. */
  method BuildShips(rotationDraws: seq<Vec3>, resetDraws: seq<ResetDraws>) returns (ships: seq<Spaceship>)
    requires |rotationDraws| == ShipCount && |resetDraws| == ShipCount
    requires forall i :: 0 <= i < ShipCount ==> IsDrawVec(rotationDraws[i]) && ValidResetDraws(resetDraws[i])
    ensures |ships| == ShipCount
    ensures forall i :: 0 <= i < ShipCount ==>
      fresh(ships[i]) && fresh(ships[i].Repr) && ships[i].Valid() && !ships[i].isExploding &&
      ships[i].position == SpawnPosition(resetDraws[i]) && ships[i].velocity == SpawnVelocity(resetDraws[i])
    ensures forall i, j :: 0 <= i < j < ShipCount ==> ships[i].Repr !! ships[j].Repr
  {
    ships := [];
    for i := 0 to ShipCount
      invariant |ships| == i
      invariant forall k :: 0 <= k < i ==>
        fresh(ships[k]) && fresh(ships[k].Repr) && ships[k].Valid() && !ships[k].isExploding &&
        ships[k].position == SpawnPosition(resetDraws[k]) && ships[k].velocity == SpawnVelocity(resetDraws[k])
      invariant forall k, l :: 0 <= k < l < i ==> ships[k].Repr !! ships[l].Repr
    {
      var ship := new Spaceship(rotationDraws[i], resetDraws[i]);
      ships := ships + [ship];
    }
  }

  /** One fresh explosion system of 30 fragments per title letter, letter `i` at `LetterX(i, 7)`. */
  method BuildLetters() returns (systems: seq<ExplosionSystem>)
    ensures |systems| == |Title|
    ensures forall i :: 0 <= i < |Title| ==>
      fresh(systems[i]) && fresh(systems[i].fragments) &&
      systems[i].letterPosition == Vec3(LetterX(i, |Title|), 0.0, 0.0) &&
      systems[i].fragments.Length == DefaultFragmentCount &&
      systems[i].letterVisible && !systems[i].isReforming
    ensures forall i, j :: 0 <= i < j < |Title| ==> systems[i].fragments != systems[j].fragments
  {
    systems := [];
    for i := 0 to |Title|
      invariant |systems| == i
      invariant forall k :: 0 <= k < i ==>
        fresh(systems[k]) && fresh(systems[k].fragments) &&
        systems[k].letterPosition == Vec3(LetterX(k, |Title|), 0.0, 0.0) &&
        systems[k].fragments.Length == DefaultFragmentCount &&
        systems[k].letterVisible && !systems[k].isReforming
      invariant forall k, l :: 0 <= k < l < i ==> systems[k].fragments != systems[l].fragments
    {
      var system := new ExplosionSystem(Vec3(LetterX(i, |Title|), 0.0, 0.0), DefaultFragmentCount);
      systems := systems + [system];
    }
  }

  class Game {
    var score: nat
    var highScore: nat
    /** The last value this page wrote to `localStorage` under 'highScore', if any. */
    var written: Option<string>
    /** One explosion system per title letter, in title order. */
    const letters: seq<ExplosionSystem>
    const ships: seq<Spaceship>

    /**
     * The object invariant: every ship is valid and the ships, with everything
     * they own, are separate objects; so are the letters' fragment arrays, and
     * none of the letters' objects belongs to a ship.
     */
    ghost predicate Valid()
      reads this, ships, set i, o | 0 <= i < |ships| && o in ships[i].Repr :: o
    {
      |ships| == ShipCount && |letters| == |Title| &&
      (forall i :: 0 <= i < |ships| ==> ships[i].Valid()) &&
      (forall i, j :: 0 <= i < j < |ships| ==> ships[i].Repr !! ships[j].Repr) &&
      (forall i, j :: 0 <= i < j < |letters| ==> letters[i].fragments != letters[j].fragments) &&
      (forall i, k :: 0 <= i < |letters| && 0 <= k < |ships| ==>
        letters[i] !in ships[k].Repr && letters[i].fragments !in ships[k].Repr)
    }

    /**
     * The set-up: five spaceships, then one explosion system of 30 fragments
     * per letter of the title, each letter at its place in the row.
     * `savedHighScore` is what `parseInt` made of the stored high score
     * (`None` when nothing was stored).
     */
    constructor (rotationDraws: seq<Vec3>, resetDraws: seq<ResetDraws>, savedHighScore: Option<nat>)
      requires |rotationDraws| == ShipCount && |resetDraws| == ShipCount
      requires forall i :: 0 <= i < ShipCount ==> IsDrawVec(rotationDraws[i]) && ValidResetDraws(resetDraws[i])
      ensures Valid()
      ensures score == 0 && written == None
      ensures highScore == if savedHighScore.Some? then savedHighScore.value else 0
      ensures |ships| == ShipCount
      ensures forall i :: 0 <= i < ShipCount ==>
        fresh(ships[i]) && fresh(ships[i].Repr) && ships[i].Valid() && !ships[i].isExploding &&
        ships[i].position == SpawnPosition(resetDraws[i]) && ships[i].velocity == SpawnVelocity(resetDraws[i])
      ensures |letters| == |Title|
      ensures forall i :: 0 <= i < |Title| ==>
        fresh(letters[i]) && fresh(letters[i].fragments) &&
        letters[i].letterPosition == Vec3(LetterX(i, |Title|), 0.0, 0.0) &&
        letters[i].fragments.Length == DefaultFragmentCount &&
        letters[i].letterVisible && !letters[i].isReforming
    {
      var shipList := BuildShips(rotationDraws, resetDraws);
      var systems := BuildLetters();
      ships := shipList;
      letters := systems;
      score := 0;
      highScore := if savedHighScore.Some? then savedHighScore.value else 0;
      written := None;
    }

    /** `updateHighScore`: a strictly larger score replaces the high score and is written out. */
    method UpdateHighScore(newScore: nat)
      modifies this`highScore, this`written
      ensures highScore == RaisedHighScore(old(highScore), newScore)
      ensures newScore > old(highScore) ==> written == Some(DecimalString(newScore))
      ensures newScore <= old(highScore) ==> written == old(written)
    {
      if newScore > highScore {
        highScore := newScore;
        written := Some(DecimalString(newScore));
      }
    }

    /**
     * `handleClick`: a letter hit explodes that letter's system from the
     * position of the letter mesh the ray hit (`hitPosition`, where the frame
     * loop has currently moved it) and scores 10; a hit on a ship that is not
     * exploding explodes it and scores 100; anything else changes nothing.
     * After a scoring click the high score is raised with the new score and,
     * when it rose, written out.
     */
    method HandleClick(textHit: Option<int>, hitPosition: Vec3, shipHit: Option<nat>,
                       burst: seq<Vec3>, lengths: seq<real>, sparks: seq<ParticleDraw>)
      requires textHit.Some? ==> -1 <= textHit.value < |letters|
      requires shipHit.Some? ==> shipHit.value < |ships|
      requires var h := Dispatch(textHit, shipHit);
        h.LetterHit? ==> ValidLaunch(burst, lengths) && |burst| == letters[h.letter].fragments.Length
      requires Valid()
      requires var h := Dispatch(textHit, shipHit);
        h.ShipHit? ==> |sparks| == ParticleCount && ValidParticleDraws(sparks)
      modifies this
      modifies var h := Dispatch(textHit, shipHit);
        if h.LetterHit? then {letters[h.letter], letters[h.letter].fragments} else {}
      modifies var h := Dispatch(textHit, shipHit);
        if h.ShipHit? then {ships[h.ship]} else {}
      ensures Valid()
      ensures var h := Dispatch(textHit, shipHit);
        var exploding := h.ShipHit? && old(ships[h.ship].isExploding);
        score == old(score) + Points(h, exploding) &&
        highScore == (if Points(h, exploding) == 0 then old(highScore) else RaisedHighScore(old(highScore), score))
      ensures var h := Dispatch(textHit, shipHit);
        var exploding := h.ShipHit? && old(ships[h.ship].isExploding);
        written == (if Points(h, exploding) != 0 && score > old(highScore) then Some(DecimalString(score)) else old(written))
      ensures var h := Dispatch(textHit, shipHit);
        h.LetterHit? ==>
          var system := letters[h.letter];
          system.fragments[..] == LaunchAll(hitPosition, burst, lengths) &&
          !system.letterVisible && !system.isReforming && system.released == old(system.released)
      ensures var h := Dispatch(textHit, shipHit);
        h.ShipHit? && old(ships[h.ship].isExploding) ==> unchanged(ships[h.ship])
      ensures var h := Dispatch(textHit, shipHit);
        h.ShipHit? ==>
          var ship := ships[h.ship];
          ship.Valid() && ship.isExploding && !ship.visible &&
          ship.position == old(ship.position) && ship.velocity == old(ship.velocity) &&
          ship.rotation == old(ship.rotation) && ship.meshReleased == old(ship.meshReleased) &&
          fresh(ship.Repr - old(ship.Repr))
      ensures var h := Dispatch(textHit, shipHit);
        h.ShipHit? && !old(ships[h.ship].isExploding) ==>
          var ship := ships[h.ship];
          |ship.particles| == |old(ship.particles)| + 1 && ship.particles[..|old(ship.particles)|] == old(ship.particles) &&
          var ps := ship.particles[|old(ship.particles)|];
          fresh(ps) && fresh(ps.positions) && fresh(ps.velocities) && fresh(ps.colors) &&
          ps.inScene && !ps.released && ps.count == ParticleCount &&
          ps.positions[..] == Flatten(Repeat(ship.position, ParticleCount)) &&
          ps.velocities[..] == Flatten(Velocities(sparks)) &&
          ps.colors[..] == Flatten(Colors(sparks))
      ensures old(score) <= old(highScore) ==> score <= highScore
      ensures highScore >= old(highScore)
    {
      var h := Dispatch(textHit, shipHit);
      match h
      case LetterHit(i) =>
        letters[i].Explode(hitPosition, burst, lengths);
        var newScore := score + LetterPoints;
        UpdateHighScore(newScore);
        score := newScore;
      case ShipHit(j) =>
        if !ships[j].isExploding {
          ships[j].Explode(sparks);
          var newScore := score + ShipPoints;
          UpdateHighScore(newScore);
          score := newScore;
        }
      case NoHit =>
    }
  }
}

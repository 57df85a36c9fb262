/** The two-player game: building layout, tank placement, hit dispatch, one shot's
    walk over its samples, and the turn loop. The pure functions first define what a
    shot and a whole match do; the class then does it step by step and is proved
    against them. */
module TankGame {
  import Buildings
  import Tanks

  const FieldWidth: int := 595
  const FieldHeight: int := 375
  /** Buildings laid out when a match starts. */
  const BuildingCount: nat := 3
  /** Lowest building the layout draws. */
  const MinBuildingHeight: int := 10
  /** Distance of each tank from its side of the field. */
  const TankInset: int := 5
  /** The force a player enters is multiplied by this to give the velocity. */
  const VelocityScale: int := 10

  /** A projectile sample as the trajectory yields it, and an integer pixel. */
  type Sample = (real, real)
  type Point = (int, int)

  /** The tanks' hit test, which the game is given rather than defines. */
  type TankHitTest = (Tanks.Tank, int, int) -> bool

  /** An explosion record; the game keeps a list of them and never changes it. */
  datatype Explosion = Explosion(x: int, y: int, radius: int)

  /** What the collision test and the shot see of a game. */
  datatype Arena = Arena(width: int, height: int, tanks: map<int, Tanks.Tank>,
                         buildings: seq<Buildings.Building>, tankIsHit: TankHitTest)

  // ---------------------------------------------------------------------------
  // Hit dispatch

  datatype Hit = TankHit | BuildingHit | NoHit

  predicate AnyTankHit(a: Arena, x: int, y: int)
  {
    exists k :: k in a.tanks && a.tankIsHit(a.tanks[k], x, y)
  }

  predicate AnyBuildingHit(bs: seq<Buildings.Building>, x: int, y: int)
  {
    exists i :: 0 <= i < |bs| && Buildings.IsHit(bs[i], x, y)
  }

  /** First match wins: tanks, then buildings. */
  function Resolve(a: Arena, x: int, y: int): Hit
  {
    if AnyTankHit(a, x, y) then TankHit
    else if AnyBuildingHit(a.buildings, x, y) then BuildingHit
    else NoHit
  }

  /** The loop over the tanks, in the dict's key order, stopping at the first one hit. */
  method ScanTanks(tanks: map<int, Tanks.Tank>, keys: seq<int>, isHit: TankHitTest, x: int, y: int) returns (hit: bool)
    requires forall i :: 0 <= i < |keys| ==> keys[i] in tanks
    ensures hit <==> exists i :: 0 <= i < |keys| && isHit(tanks[keys[i]], x, y)
  {
    for i := 0 to |keys|
      invariant forall j :: 0 <= j < i ==> !isHit(tanks[keys[j]], x, y)
    {
      if isHit(tanks[keys[i]], x, y) {
        return true;
      }
    }
    return false;
  }

  /** The loop over the buildings, in order, stopping at the first one hit. */
  method ScanBuildings(bs: seq<Buildings.Building>, x: int, y: int) returns (hit: bool)
    ensures hit <==> AnyBuildingHit(bs, x, y)
  {
    for i := 0 to |bs|
      invariant forall j :: 0 <= j < i ==> !Buildings.IsHit(bs[j], x, y)
    {
      if Buildings.IsHit(bs[i], x, y) {
        return true;
      }
    }
    return false;
  }

  // ---------------------------------------------------------------------------
  // One shot

  /** Python's int() on a float: truncation toward zero. */
  function Trunc(r: real): (t: int)
    ensures 0.0 <= r ==> t as real <= r < t as real + 1.0
    ensures r < 0.0 ==> t as real - 1.0 < r <= t as real
  {
    if r >= 0.0 then r.Floor else -((-r).Floor)
  }

  function Pixel(s: Sample): Point { (Trunc(s.0), Trunc(s.1)) }

  /** Sample `i` (at pixel `p`) is a dash end point: the first or last of a run of
      ten, every other run, strictly inside the field. */
  predicate IsDashPoint(a: Arena, i: nat, p: Point)
  {
    (i % 10 == 0 || i % 10 == 9) && (i / 10) % 2 == 0
    && 0 < p.0 < a.width && 0 < p.1 < a.height
  }

  /** The dash filter keeps the two ends of every other run of ten, strictly inside the
      field: exactly the indices congruent to 0 or 9 modulo 20 whose pixel is inside. */
  lemma DashEndsModulo20(a: Arena, i: nat, p: Point)
    ensures IsDashPoint(a, i, p) <==> (i % 20 == 0 || i % 20 == 9) && 0 < p.0 < a.width && 0 < p.1 < a.height
  {
    var q, r := i / 20, i % 20;
    assert i == 20 * q + r && 0 <= r < 20;
    assert i / 10 == 2 * q + r / 10;
    assert i % 10 == r % 10;
  }

  /** A recorded point: the pixel with y counted from the top of the field. */
  function Flip(a: Arena, p: Point): Point { (p.0, a.height - p.1) }

  /** Leaving the field, tested on the unrounded sample; there is no upper bound on y. */
  predicate OutOfField(a: Arena, s: Sample)
  {
    s.0 < 0.0 || s.0 > a.width as real || s.1 < 0.0
  }

  /** A sample ends the shot: it hits something, or it is out of the field. */
  predicate Stops(a: Arena, s: Sample)
  {
    Resolve(a, Pixel(s).0, Pixel(s).1) != NoHit || OutOfField(a, s)
  }

  /** Index of the first sample from `from` on that ends the shot, or |samples| if none does. */
  function FirstStop(a: Arena, samples: seq<Sample>, from: nat): (k: nat)
    requires from <= |samples|
    ensures from <= k <= |samples|
    ensures forall j :: from <= j < k ==> !Stops(a, samples[j])
    ensures k < |samples| ==> Stops(a, samples[k])
    decreases |samples| - from
  {
    if from == |samples| then from
    else if Stops(a, samples[from]) then from
    else FirstStop(a, samples, from + 1)
  }

  /** Indices, in increasing order, of the dash points among the first `n` samples. */
  function DashIndices(a: Arena, samples: seq<Sample>, n: nat): seq<nat>
    requires n <= |samples|
  {
    if n == 0 then []
    else DashIndices(a, samples, n - 1)
         + (if IsDashPoint(a, n - 1, Pixel(samples[n - 1])) then [n - 1] else [])
  }

  /** The recorded path of the first `n` samples. */
  function DashPath(a: Arena, samples: seq<Sample>, n: nat): seq<Point>
    requires n <= |samples|
  {
    if n == 0 then []
    else DashPath(a, samples, n - 1)
         + (if IsDashPoint(a, n - 1, Pixel(samples[n - 1])) then [Flip(a, Pixel(samples[n - 1]))] else [])
  }

  /** Sample `i` is among the dash indices exactly when it is a dash point. */
  lemma {:induction false} DashIndicesExact(a: Arena, samples: seq<Sample>, n: nat)
    requires n <= |samples|
    ensures forall i :: 0 <= i < n ==> (i in DashIndices(a, samples, n) <==> IsDashPoint(a, i, Pixel(samples[i])))
    ensures forall i :: i in DashIndices(a, samples, n) ==> i < n
  {
    if n > 0 {
      DashIndicesExact(a, samples, n - 1);
    }
  }

  /** The dash indices increase strictly. */
  lemma {:induction false} DashIndicesIncrease(a: Arena, samples: seq<Sample>, n: nat)
    requires n <= |samples|
    ensures forall j, l :: 0 <= j < l < |DashIndices(a, samples, n)| ==>
              DashIndices(a, samples, n)[j] < DashIndices(a, samples, n)[l]
  {
    if n > 0 {
      DashIndicesIncrease(a, samples, n - 1);
      DashIndicesExact(a, samples, n - 1);
      var prev := DashIndices(a, samples, n - 1);
      assert forall j :: 0 <= j < |prev| ==> prev[j] in prev;
    }
  }

  /** The path is the flipped pixel of each dash index, in order. */
  lemma {:induction false} DashPathFollowsIndices(a: Arena, samples: seq<Sample>, n: nat)
    requires n <= |samples|
    ensures |DashPath(a, samples, n)| == |DashIndices(a, samples, n)|
    ensures forall j :: 0 <= j < |DashPath(a, samples, n)| ==>
              DashIndices(a, samples, n)[j] < |samples|
              && DashPath(a, samples, n)[j] == Flip(a, Pixel(samples[DashIndices(a, samples, n)[j]]))
  {
    if n > 0 {
      DashPathFollowsIndices(a, samples, n - 1);
      DashIndicesExact(a, samples, n - 1);
    }
  }

  /** Every recorded point lies strictly inside the field. */
  lemma {:induction false} DashPathInside(a: Arena, samples: seq<Sample>, n: nat)
    requires n <= |samples|
    ensures forall p :: p in DashPath(a, samples, n) ==> 0 < p.0 < a.width && 0 < p.1 < a.height
  {
    if n > 0 {
      DashPathInside(a, samples, n - 1);
    }
  }

  /** The first stopping sample is at `i` when none before it stops and it does, or when
      none stops at all and `i` is past the end. */
  lemma FirstStopIs(a: Arena, samples: seq<Sample>, i: nat)
    requires i <= |samples|
    requires forall j :: 0 <= j < i ==> !Stops(a, samples[j])
    requires i < |samples| ==> Stops(a, samples[i])
    ensures FirstStop(a, samples, 0) == i
  {
  }

  /** How a shot ends: a hit, leaving the field, or running out of samples. */
  datatype ShotEnd = Hit | Out | Exhausted

  datatype Shot = Shot(path: seq<Point>, end: ShotEnd)

  /** One shot: the samples are walked in order up to the first that ends the shot;
      that sample is recorded too, and a hit is tested before leaving the field. */
  function Simulate(a: Arena, samples: seq<Sample>): Shot
  {
    var k := FirstStop(a, samples, 0);
    if k == |samples| then Shot(DashPath(a, samples, k), Exhausted)
    else
      var p := Pixel(samples[k]);
      Shot(DashPath(a, samples, k + 1), if Resolve(a, p.0, p.1) != NoHit then Hit else Out)
  }

  /** The shot ends the match: its last sample hits a tank. */
  predicate EndsMatch(a: Arena, samples: seq<Sample>)
  {
    var k := FirstStop(a, samples, 0);
    k < |samples| && Resolve(a, Pixel(samples[k]).0, Pixel(samples[k]).1) == TankHit
  }

  /** The shot runs through every sample exactly when no sample hits or leaves the
      field; otherwise it ends at the first that does, with `Hit` whenever that sample
      hits, even if it is also outside the field. */
  lemma SimulateEnds(a: Arena, samples: seq<Sample>)
    ensures Simulate(a, samples).end == Exhausted <==> forall i :: 0 <= i < |samples| ==> !Stops(a, samples[i])
    ensures Simulate(a, samples).end == Exhausted ==> Simulate(a, samples).path == DashPath(a, samples, |samples|)
    ensures Simulate(a, samples).end != Exhausted ==>
              exists k :: 0 <= k < |samples| && Stops(a, samples[k])
                && (forall j :: 0 <= j < k ==> !Stops(a, samples[j]))
                && Simulate(a, samples).path == DashPath(a, samples, k + 1)
                && (Simulate(a, samples).end == Hit <==> Resolve(a, Pixel(samples[k]).0, Pixel(samples[k]).1) != NoHit)
    ensures EndsMatch(a, samples) ==> Simulate(a, samples).end == Hit
  {
    var k := FirstStop(a, samples, 0);
    if k < |samples| {
      assert Stops(a, samples[k]);
    }
  }

  /** The sample that ends the shot is itself recorded when it is a dash point. */
  lemma LastSampleRecorded(a: Arena, samples: seq<Sample>)
    requires FirstStop(a, samples, 0) < |samples|
    requires IsDashPoint(a, FirstStop(a, samples, 0), Pixel(samples[FirstStop(a, samples, 0)]))
    ensures Simulate(a, samples).path != []
    ensures Simulate(a, samples).path[|Simulate(a, samples).path| - 1] == Flip(a, Pixel(samples[FirstStop(a, samples, 0)]))
  {
  }

  // ---------------------------------------------------------------------------
  // A whole match

  /** A player's command: the angle in degrees and the force. */
  datatype Command = Command(angle: int, force: int)

  /** Number of turns played, whether the match is over, and whose turn is next. */
  datatype Outcome = Outcome(turns: nat, over: bool, player: int)

  predicate TwoTanks(a: Arena) { 1 in a.tanks && -1 in a.tanks }

  predicate IsPlayer(p: int) { p == 1 || p == -1 }

  /** The player on turn `j` when `p` starts. */
  function PlayerAt(p: int, j: nat): int { if j % 2 == 0 then p else -p }

  /** The samples fired by `player` for command `c`. */
  function TurnSamples(a: Arena, player: int, c: Command, trig: int -> (real, real)): seq<Sample>
    requires player in a.tanks
  {
    Tanks.Shoot(a.tanks[player], c.angle, c.force * VelocityScale, trig)
  }

  /** Whether the shot that `player` fires for a command hits a tank. */
  function TankHitBy(a: Arena, trig: int -> (real, real)): (int, Command) -> bool
  {
    (p: int, c: Command) => p in a.tanks && EndsMatch(a, TurnSamples(a, p, c, trig))
  }

  /** The turn loop, given whether each player's shot for each command hits a tank:
      players take turns firing the commands in order, the player flips after every
      shot, and the match stops after the first shot that hits a tank. */
  function Match(player: int, commands: seq<Command>, hitsTank: (int, Command) -> bool): Outcome
    decreases |commands|
  {
    if |commands| == 0 then Outcome(0, false, player)
    else if hitsTank(player, commands[0]) then Outcome(1, true, -player)
    else
      var r := Match(-player, commands[1..], hitsTank);
      Outcome(r.turns + 1, r.over, r.player)
  }

  /** Turn `j` of the match started by `player` hits a tank. */
  predicate TurnHitsTank(player: int, commands: seq<Command>, hitsTank: (int, Command) -> bool, j: nat)
    requires j < |commands|
  {
    hitsTank(PlayerAt(player, j), commands[j])
  }

  lemma PlayerAtNext(p: int, j: nat)
    ensures PlayerAt(p, j + 1) == PlayerAt(-p, j)
  {
  }

  /** Turn j + 1 of a match is turn j of the match that the other player starts with
      the remaining commands. */
  lemma TurnShift(player: int, commands: seq<Command>, hitsTank: (int, Command) -> bool, j: nat)
    requires j + 1 < |commands|
    ensures TurnHitsTank(player, commands, hitsTank, j + 1) == TurnHitsTank(-player, commands[1..], hitsTank, j)
  {
    PlayerAtNext(player, j);
    assert commands[1..][j] == commands[j + 1];
  }

  /** A match plays at most one turn per command and only stops early when it is over;
      the player alternates and is flipped by every shot, the last one included. */
  lemma {:induction false} MatchTurns(player: int, commands: seq<Command>, hitsTank: (int, Command) -> bool)
    requires IsPlayer(player)
    decreases |commands|
    ensures var r := Match(player, commands, hitsTank);
      && r.turns <= |commands|
      && (!r.over ==> r.turns == |commands|)
      && (r.over ==> r.turns > 0)
      && r.player == PlayerAt(player, r.turns)
      && IsPlayer(r.player)
  {
    if |commands| > 0 && !hitsTank(player, commands[0]) {
      MatchTurns(-player, commands[1..], hitsTank);
      PlayerAtNext(player, Match(-player, commands[1..], hitsTank).turns);
    }
  }

  /** A match is over exactly when its last turn hit a tank, and no earlier turn did. */
  lemma {:induction false} MatchEndsAtFirstTankHit(player: int, commands: seq<Command>, hitsTank: (int, Command) -> bool)
    decreases |commands|
    ensures var r := Match(player, commands, hitsTank);
      && r.turns <= |commands|
      && (r.over <==> r.turns > 0 && TurnHitsTank(player, commands, hitsTank, r.turns - 1))
      && forall j :: 0 <= j < r.turns - 1 ==> !TurnHitsTank(player, commands, hitsTank, j)
  {
    if |commands| > 0 && !hitsTank(player, commands[0]) {
      var rest := commands[1..];
      MatchEndsAtFirstTankHit(-player, rest, hitsTank);
      var r := Match(-player, rest, hitsTank);
      if r.turns > 0 {
        TurnShift(player, commands, hitsTank, r.turns - 1);
      }
      forall j | 0 <= j < r.turns
        ensures !TurnHitsTank(player, commands, hitsTank, j)
      {
        if j > 0 {
          TurnShift(player, commands, hitsTank, j - 1);
        }
      }
    }
  }

  // ---------------------------------------------------------------------------
  // Tank placement

  datatype Edge = Left | Right

  /** A building counts for the tank on `e`'s side of a field `fieldWidth` wide. */
  predicate NearEdge(b: Buildings.Building, e: Edge, fieldWidth: int)
  {
    match e
    case Left => b.xPosition - b.width < TankInset
    case Right => b.xPosition + b.width > fieldWidth - TankInset
  }

  /** The heights of the buildings near edge `e`, in order. */
  function NearHeights(bs: seq<Buildings.Building>, e: Edge, fieldWidth: int): (hs: seq<int>)
    ensures forall h :: h in hs <==> exists i :: 0 <= i < |bs| && NearEdge(bs[i], e, fieldWidth) && bs[i].height == h
  {
    if bs == [] then []
    else (if NearEdge(bs[0], e, fieldWidth) then [bs[0].height] else [])
         + NearHeights(bs[1..], e, fieldWidth)
  }

  /** The largest of the heights, or 0 when there are none. */
  function MaxOrZero(hs: seq<int>): (m: int)
    ensures hs == [] ==> m == 0
    ensures hs != [] ==> m in hs && forall h :: h in hs ==> h <= m
  {
    if hs == [] then 0
    else if |hs| == 1 then hs[0]
    else
      var rest := MaxOrZero(hs[1..]);
      assert forall h :: h in hs ==> h == hs[0] || h in hs[1..];
      if hs[0] >= rest then hs[0] else rest
  }

  /** Height of the tank on edge `e`. */
  function EdgeHeight(bs: seq<Buildings.Building>, e: Edge, fieldWidth: int): int
  {
    MaxOrZero(NearHeights(bs, e, fieldWidth))
  }

  /** A tank stands on the tallest building passing its edge test, or on the ground. */
  lemma EdgeHeightIsTallest(bs: seq<Buildings.Building>, e: Edge, fieldWidth: int)
    ensures (forall i :: 0 <= i < |bs| ==> !NearEdge(bs[i], e, fieldWidth)) ==> EdgeHeight(bs, e, fieldWidth) == 0
    ensures (exists i :: 0 <= i < |bs| && NearEdge(bs[i], e, fieldWidth)) ==>
              (exists i :: 0 <= i < |bs| && NearEdge(bs[i], e, fieldWidth) && bs[i].height == EdgeHeight(bs, e, fieldWidth))
              && forall i :: 0 <= i < |bs| && NearEdge(bs[i], e, fieldWidth) ==> bs[i].height <= EdgeHeight(bs, e, fieldWidth)
  {
    var hs := NearHeights(bs, e, fieldWidth);
    if exists i :: 0 <= i < |bs| && NearEdge(bs[i], e, fieldWidth) {
      var i :| 0 <= i < |bs| && NearEdge(bs[i], e, fieldWidth);
      assert bs[i].height in hs;
      forall j | 0 <= j < |bs| && NearEdge(bs[j], e, fieldWidth)
        ensures bs[j].height <= EdgeHeight(bs, e, fieldWidth)
      {
        assert bs[j].height in hs;
      }
    }
  }

  /** The tank placed at the left edge gets direction +1, the one at the right edge -1.
      Nothing reads the direction: it does not change where a shot goes. */
  lemma PlacedTankDirections(leftHeight: int, rightHeight: int)
    ensures Tanks.Direction(Tanks.New(TankInset, leftHeight)) == 1
    ensures Tanks.Direction(Tanks.New(FieldWidth - TankInset, rightHeight)) == -1
  {
  }

  // ---------------------------------------------------------------------------
  // The game

  /** Where the random building layout may put a building. */
  predicate LaidOut(b: Buildings.Building, width: int, height: int)
  {
    0 <= b.xPosition <= width && MinBuildingHeight <= b.height <= height
    && b.width == Buildings.DefaultWidth && b.hits == []
  }

  /** The key order of a dict after assigning key `k`: a new key goes last, an existing one keeps its place. */
  function InsertKey(keys: seq<int>, k: int): (r: seq<int>)
    ensures keys <= r && |r| <= |keys| + 1
    ensures forall i :: |keys| <= i < |r| ==> r[i] == k
    ensures k in r
    ensures k in keys ==> r == keys
  {
    if k in keys then keys else keys + [k]
  }

  class TwoPlayerTankGame {
    const width: int
    const height: int
    const tankIsHit: TankHitTest
    var buildings: seq<Buildings.Building>
    var tanks: map<int, Tanks.Tank>
    /** The keys of `tanks` in insertion order, the order the dict iterates in. */
    var tankKeys: seq<int>
    var explosions: seq<Explosion>
    var gameOver: bool
    var activePlayer: int

    ghost predicate Valid()
      reads this`activePlayer, this`tanks, this`tankKeys, this`buildings
    {
      && width == FieldWidth && height == FieldHeight
      && IsPlayer(activePlayer)
      && (forall k :: k in tanks ==> k == 1 || k == -1)
      && (forall i :: 0 <= i < |tankKeys| ==> tankKeys[i] in tanks)
      && (1 in tanks ==> 1 in tankKeys) && (-1 in tanks ==> -1 in tankKeys)
      && forall i :: 0 <= i < |buildings| ==> LaidOut(buildings[i], width, height)
    }

    /** What hit tests and shots see of the game. */
    function Scene(): Arena
      reads this`tanks, this`buildings
    {
      Arena(width, height, tanks, buildings, tankIsHit)
    }

    constructor (tankIsHit: TankHitTest)
      ensures Valid()
      ensures width == FieldWidth && height == FieldHeight && this.tankIsHit == tankIsHit
      ensures buildings == [] && tanks == map[] && tankKeys == [] && explosions == []
      ensures !gameOver && activePlayer == 1
    {
      width, height := FieldWidth, FieldHeight;
      this.tankIsHit := tankIsHit;
      buildings, tanks, tankKeys, explosions := [], map[], [], [];
      gameOver := false;
      activePlayer := 1;
    }

    /** Appends `n` buildings at random columns and heights within the field, keeping the existing ones. */
    method CreateBuildings(n: nat)
      requires Valid()
      modifies this`buildings
      ensures Valid()
      ensures |buildings| == |old(buildings)| + n
      ensures buildings[..|old(buildings)|] == old(buildings)
      ensures forall i :: |old(buildings)| <= i < |buildings| ==> LaidOut(buildings[i], width, height)
    {
      for j := 0 to n
        invariant Valid()
        invariant |buildings| == |old(buildings)| + j
        invariant buildings[..|old(buildings)|] == old(buildings)
      {
        var x :| 0 <= x <= width;
        var h :| MinBuildingHeight <= h <= height;
        buildings := buildings + [Buildings.New(x, h)];
      }
    }

    /** Places tank 1 at column 5 and tank -1 at column width - 5, each on the tallest
        building passing its edge test. */
    method PlaceTanks()
      requires Valid()
      modifies this`tanks, this`tankKeys
      ensures Valid() && TwoTanks(Scene())
      ensures tanks == old(tanks)[1 := Tanks.New(TankInset, EdgeHeight(buildings, Left, width))]
                                 [-1 := Tanks.New(width - TankInset, EdgeHeight(buildings, Right, width))]
      ensures tankKeys == InsertKey(InsertKey(old(tankKeys), 1), -1)
    {
      var leftHeight := EdgeHeight(buildings, Left, width);
      tanks, tankKeys := tanks[1 := Tanks.New(TankInset, leftHeight)], InsertKey(tankKeys, 1);
      var rightHeight := EdgeHeight(buildings, Right, width);
      tanks, tankKeys := tanks[-1 := Tanks.New(width - TankInset, rightHeight)], InsertKey(tankKeys, -1);
    }

    /** Tests the tanks first and ends the match on a tank hit; only then the buildings.
        Nothing but the match-over flag changes. */
    method CheckHit(x: int, y: int) returns (hit: bool)
      requires Valid()
      modifies this`gameOver
      ensures AnyTankHit(Scene(), x, y) ==> hit && gameOver
      ensures !AnyTankHit(Scene(), x, y) ==> (hit <==> AnyBuildingHit(buildings, x, y)) && gameOver == old(gameOver)
    {
      var tankHit := ScanTanks(tanks, tankKeys, tankIsHit, x, y);
      if tankHit {
        ghost var i :| 0 <= i < |tankKeys| && tankIsHit(tanks[tankKeys[i]], x, y);
        ghost var scene, k := Scene(), tankKeys[i];
        assert k in scene.tanks && scene.tankIsHit(scene.tanks[k], x, y);
        gameOver := true;
        return true;
      }
      hit := ScanBuildings(buildings, x, y);
    }

    /** Walks one shot's samples: records the dash points, stops at the first hit or at
        the first sample out of the field. */
    method FireShot(samples: seq<Sample>) returns (path: seq<Point>, end: ShotEnd)
      requires Valid()
      modifies this`gameOver
      ensures Shot(path, end) == Simulate(Scene(), samples)
      ensures gameOver == (old(gameOver) || EndsMatch(Scene(), samples))
    {
      ghost var a := Scene();
      path := [];
      var i := 0;
      while i < |samples|
        invariant 0 <= i <= |samples|
        invariant Scene() == a
        invariant forall j :: 0 <= j < i ==> !Stops(a, samples[j])
        invariant path == DashPath(a, samples, i)
        invariant gameOver == old(gameOver)
      {
        var x, y := Trunc(samples[i].0), Trunc(samples[i].1);
        if (i % 10 == 0 || i % 10 == 9) && (i / 10) % 2 == 0 && 0 < x < width && 0 < y < height {
          path := path + [(x, height - y)];
        }
        assert path == DashPath(a, samples, i + 1);
        var hit := CheckHit(x, y);
        if hit {
          end := Hit;
          FirstStopIs(a, samples, i);
          return;
        }
        if samples[i].0 < 0.0 || samples[i].0 > width as real || samples[i].1 < 0.0 {
          end := Out;
          FirstStopIs(a, samples, i);
          return;
        }
        i := i + 1;
      }
      FirstStopIs(a, samples, i);
      end := Exhausted;
    }

    /** One turn: the active tank fires the command's shot, then the turn passes to the
        other player, whether or not the shot ended the match. */
    method PlayTurn(c: Command, trig: int -> (real, real))
      requires Valid() && TwoTanks(Scene())
      modifies this`gameOver, this`activePlayer
      ensures Valid()
      ensures activePlayer == -old(activePlayer)
      ensures gameOver == (old(gameOver) || TankHitBy(Scene(), trig)(old(activePlayer), c))
    {
      var samples := Tanks.Shoot(tanks[activePlayer], c.angle, c.force * VelocityScale, trig);
      assert samples == TurnSamples(Scene(), activePlayer, c, trig);
      var path, end := FireShot(samples);
      activePlayer := -activePlayer;
    }

    /** The turn loop: plays turns until a tank is hit or the commands run out;
        `trig` gives the cosine and sine of an angle in degrees. */
    method PlayTurns(commands: seq<Command>, trig: int -> (real, real)) returns (turns: nat)
      requires Valid() && TwoTanks(Scene())
      modifies this`gameOver, this`activePlayer
      ensures Valid()
      ensures old(gameOver) ==> turns == 0 && gameOver && activePlayer == old(activePlayer)
      ensures !old(gameOver) ==> Outcome(turns, gameOver, activePlayer) == Match(old(activePlayer), commands, TankHitBy(Scene(), trig))
    {
      ghost var first := activePlayer;
      ghost var hitsTank := TankHitBy(Scene(), trig);
      turns := 0;
      while !gameOver && turns < |commands|
        invariant Valid() && TwoTanks(Scene())
        invariant Scene() == old(Scene())
        invariant turns <= |commands|
        invariant old(gameOver) ==> turns == 0 && gameOver && activePlayer == first
        invariant !old(gameOver) && gameOver ==> Match(first, commands, hitsTank) == Outcome(turns, true, activePlayer)
        invariant !gameOver ==>
          var r := Match(activePlayer, commands[turns..], hitsTank);
          Match(first, commands, hitsTank) == Outcome(r.turns + turns, r.over, r.player)
      {
        assert commands[turns..][1..] == commands[turns + 1..];
        PlayTurn(commands[turns], trig);
        turns := turns + 1;
      }
      if !gameOver {
        assert commands[turns..] == [];
      }
    }

    /** The first two steps of a game: three buildings at random, then the tanks on them. */
    method SetUpField()
      requires Valid()
      modifies this`buildings, this`tanks, this`tankKeys
      ensures Valid() && TwoTanks(Scene())
      ensures |buildings| == |old(buildings)| + BuildingCount
      ensures buildings[..|old(buildings)|] == old(buildings)
      ensures tanks == old(tanks)[1 := Tanks.New(TankInset, EdgeHeight(buildings, Left, width))]
                                 [-1 := Tanks.New(width - TankInset, EdgeHeight(buildings, Right, width))]
      ensures tankKeys == InsertKey(InsertKey(old(tankKeys), 1), -1)
    {
      CreateBuildings(BuildingCount);
      PlaceTanks();
    }

    /** Lays out the three buildings, places the tanks, then runs the turn loop. */
    method StartGame(commands: seq<Command>, trig: int -> (real, real)) returns (turns: nat)
      requires Valid()
      modifies this`buildings, this`tanks, this`tankKeys, this`gameOver, this`activePlayer
      ensures Valid() && TwoTanks(Scene())
      ensures |buildings| == |old(buildings)| + BuildingCount
      ensures buildings[..|old(buildings)|] == old(buildings)
      ensures tanks == old(tanks)[1 := Tanks.New(TankInset, EdgeHeight(buildings, Left, width))]
                                 [-1 := Tanks.New(width - TankInset, EdgeHeight(buildings, Right, width))]
      ensures tankKeys == InsertKey(InsertKey(old(tankKeys), 1), -1)
      ensures old(gameOver) ==> turns == 0 && gameOver && activePlayer == old(activePlayer)
      ensures !old(gameOver) ==> Outcome(turns, gameOver, activePlayer) == Match(old(activePlayer), commands, TankHitBy(Scene(), trig))
    {
      SetUpField();
      turns := PlayTurns(commands, trig);
    }

  }
}

/** The farm economy and the pig lifecycle: one money balance, the player's
    position, and the pigs the player buys, which wander about and are sold
    when their lifetime runs out. */
module Farm {
  import opened Timers

  const NANOS_PER_SECOND: nat := 1_000_000_000

  /** The balance a new game starts with. */
  const STARTING_MONEY: int := 100
  /** What a pig costs; buying needs strictly more than this. */
  const PIG_COST: int := 10
  /** What a pig fetches when its lifetime runs out. */
  const PIG_PRICE: int := 15
  /** How long a pig lives: 25 seconds. */
  const PIG_LIFETIME: nat := 25 * NANOS_PER_SECOND
  /** How often a pig picks a new heading: every second. */
  const WANDER_PERIOD: nat := 1 * NANOS_PER_SECOND
  /** A pig's walking speed, in units per second. */
  const PIG_SPEED: real := 50.0

  /** A point or a heading in the plane. */
  datatype Vec2 = Vec2(x: real, y: real) {
    function Plus(v: Vec2): Vec2 {
      Vec2(x + v.x, y + v.y)
    }
  }

  const ZERO: Vec2 := Vec2(0.0, 0.0)

  /** The four movement keys, each held down or not. */
  datatype Keys = Keys(w: bool, s: bool, d: bool, a: bool)

  datatype Pig = Pig(position: Vec2, lifetime: Timer, speed: real, wanderTimer: Timer, direction: Vec2)

  /** A heading as the random draw yields it: both components in [-1, 1). */
  predicate InDrawRange(v: Vec2) {
    -1.0 <= v.x < 1.0 && -1.0 <= v.y < 1.0
  }

  /** What holds of every pig on the farm between two systems: it is still
      alive, its wander timer is counting towards the next heading, and its
      heading is one the draw can yield (or the initial zero). */
  ghost predicate PigWf(p: Pig) {
    && Wf(p.lifetime) && p.lifetime.mode == Once && p.lifetime.duration == PIG_LIFETIME
    && !p.lifetime.finished
    && Wf(p.wanderTimer) && p.wanderTimer.mode == Repeating && p.wanderTimer.duration == WANDER_PERIOD
    && !p.wanderTimer.finished
    && p.speed == PIG_SPEED
    && InDrawRange(p.direction)
  }

  /** The pig bought at the player's position. */
  function NewPig(at: Vec2): Pig {
    Pig(at, FromDuration(PIG_LIFETIME, Once), PIG_SPEED, FromDuration(WANDER_PERIOD, Repeating), ZERO)
  }

  /** The pig after its lifetime timer has been advanced by one frame. */
  function Aged(p: Pig, delta: nat): Pig {
    p.(lifetime := Tick(p.lifetime, delta))
  }

  /** The pigs still alive after one frame of ageing, in their order. */
  function Survivors(pigs: seq<Pig>, delta: nat): seq<Pig> {
    if pigs == [] then []
    else
      var last := Aged(pigs[|pigs| - 1], delta);
      Survivors(pigs[..|pigs| - 1], delta) + if last.lifetime.finished then [] else [last]
  }

  /** Every pig after one frame of ageing, in order. */
  function AgedAll(pigs: seq<Pig>, delta: nat): seq<Pig> {
    if pigs == [] then [] else AgedAll(pigs[..|pigs| - 1], delta) + [Aged(pigs[|pigs| - 1], delta)]
  }

  /** The pigs one frame of ageing sells, aged, in order. */
  function SoldPigs(pigs: seq<Pig>, delta: nat): seq<Pig> {
    if pigs == [] then []
    else
      var last := Aged(pigs[|pigs| - 1], delta);
      SoldPigs(pigs[..|pigs| - 1], delta) + if last.lifetime.finished then [last] else []
  }

  /** How many pigs one frame of ageing sells. */
  function SoldCount(pigs: seq<Pig>, delta: nat): nat {
    if pigs == [] then 0
    else
      var last := Aged(pigs[|pigs| - 1], delta);
      SoldCount(pigs[..|pigs| - 1], delta) + if last.lifetime.finished then 1 else 0
  }

  /** The pig after one frame of wandering: its wander timer advances, and when
      it fires the pig takes the drawn heading and the timer starts over; a pig
      with a non-zero heading then moves by `offset`, the heading normalized and
      scaled by speed and frame time. */
  function WanderStep(p: Pig, delta: nat, draw: Vec2, offset: Vec2): Pig {
    var ticked := Tick(p.wanderTimer, delta);
    var turned := if ticked.finished then p.(wanderTimer := Reset(ticked), direction := draw)
                  else p.(wanderTimer := ticked);
    if turned.direction != ZERO then turned.(position := p.position.Plus(offset)) else turned
  }

  /** Whether the held keys add up to a non-zero direction. */
  predicate Steers(keys: Keys) {
    keys.w != keys.s || keys.d != keys.a
  }

  /** The player's direction before normalization: each held key adds one
      unit along its axis, W up, S down, D right, A left. */
  method InputDirection(keys: Keys) returns (dx: int, dy: int)
    ensures -1 <= dx <= 1 && -1 <= dy <= 1
    ensures dy == 1 <==> keys.w && !keys.s
    ensures dy == -1 <==> keys.s && !keys.w
    ensures dx == 1 <==> keys.d && !keys.a
    ensures dx == -1 <==> keys.a && !keys.d
    ensures (dx != 0 || dy != 0) <==> Steers(keys)
  {
    dx, dy := 0, 0;
    if keys.w {
      dy := dy + 1;
    }
    if keys.s {
      dy := dy - 1;
    }
    if keys.d {
      dx := dx + 1;
    }
    if keys.a {
      dx := dx - 1;
    }
  }

  /** A freshly bought pig starts at the player's position, alive, idle and
      counting towards its first heading. */
  lemma NewPigWf(at: Vec2)
    ensures PigWf(NewPig(at)) && NewPig(at).position == at
    ensures NewPig(at).direction == ZERO && NewPig(at).speed == PIG_SPEED
    ensures NewPig(at).lifetime.elapsed == 0 && NewPig(at).wanderTimer.elapsed == 0
  {
  }

  /** A pig bought for the farm is sold exactly when the frames since its
      purchase add up to its 25-second lifetime: not a frame earlier. */
  lemma SoldAfterLifetime(at: Vec2, deltas: seq<nat>)
    ensures TickAll(NewPig(at).lifetime, deltas).finished <==> Sum(deltas) >= PIG_LIFETIME
  {
    OnceAccumulates(NewPig(at).lifetime, deltas);
  }

  /** Ageing a live pig touches nothing but its lifetime timer; unless the
      timer has just finished, the pig is still a live pig. */
  lemma AgedWf(p: Pig, delta: nat)
    requires PigWf(p)
    ensures Aged(p, delta).lifetime.finished <==> p.lifetime.elapsed + delta >= PIG_LIFETIME
    ensures !Aged(p, delta).lifetime.finished ==> PigWf(Aged(p, delta))
    ensures Aged(p, delta).(lifetime := p.lifetime) == p
  {
  }

  /** One frame of ageing sells every pig whose lifetime has run out and keeps
      every other one, aged, in order; no finished pig is kept, and the kept and
      the sold pigs together are the pigs there were. */
  lemma {:induction false} SurvivorsSpec(pigs: seq<Pig>, delta: nat)
    ensures |Survivors(pigs, delta)| + SoldCount(pigs, delta) == |pigs|
    ensures forall x :: x in Survivors(pigs, delta) ==>
      !x.lifetime.finished && exists i :: 0 <= i < |pigs| && x == Aged(pigs[i], delta)
    ensures forall i :: 0 <= i < |pigs| && !Aged(pigs[i], delta).lifetime.finished ==>
      Aged(pigs[i], delta) in Survivors(pigs, delta)
    ensures (forall i :: 0 <= i < |pigs| ==> PigWf(pigs[i])) ==>
      forall x :: x in Survivors(pigs, delta) ==> PigWf(x)
  {
    if pigs != [] {
      var init := pigs[..|pigs| - 1];
      SurvivorsSpec(init, delta);
      var last := Aged(pigs[|pigs| - 1], delta);
      forall x | x in Survivors(pigs, delta)
        ensures !x.lifetime.finished && exists i :: 0 <= i < |pigs| && x == Aged(pigs[i], delta)
      {
        if x in Survivors(init, delta) {
          var i :| 0 <= i < |init| && x == Aged(init[i], delta);
          assert pigs[i] == init[i];
        } else {
          assert x == last;
        }
      }
      forall i | 0 <= i < |pigs| && !Aged(pigs[i], delta).lifetime.finished
        ensures Aged(pigs[i], delta) in Survivors(pigs, delta)
      {
        if i < |init| {
          assert pigs[i] == init[i];
        }
      }
      if forall i :: 0 <= i < |pigs| ==> PigWf(pigs[i]) {
        forall x | x in Survivors(pigs, delta) ensures PigWf(x) {
          var i :| 0 <= i < |pigs| && x == Aged(pigs[i], delta);
          AgedWf(pigs[i], delta);
        }
      }
    }
  }

  /** One frame of ageing splits the aged pigs, counted with multiplicity,
      into the pigs kept and the pigs sold; every pig sold has a finished
      lifetime, and there are as many as the sales counted. */
  lemma {:induction false} SalesPartition(pigs: seq<Pig>, delta: nat)
    ensures multiset(Survivors(pigs, delta)) + multiset(SoldPigs(pigs, delta)) == multiset(AgedAll(pigs, delta))
    ensures SoldCount(pigs, delta) == |SoldPigs(pigs, delta)|
    ensures forall x :: x in SoldPigs(pigs, delta) ==> x.lifetime.finished
  {
    if pigs != [] {
      var init := pigs[..|pigs| - 1];
      SalesPartition(init, delta);
      var last := Aged(pigs[|pigs| - 1], delta);
      assert AgedAll(pigs, delta) == AgedAll(init, delta) + [last];
      if last.lifetime.finished {
        assert SoldPigs(pigs, delta) == SoldPigs(init, delta) + [last];
        assert Survivors(pigs, delta) == Survivors(init, delta);
      } else {
        assert SoldPigs(pigs, delta) == SoldPigs(init, delta);
        assert Survivors(pigs, delta) == Survivors(init, delta) + [last];
      }
    }
  }

  /** Ageing one more pig of a herd extends the survivors and the sales of
      the pigs before it by that pig alone. */
  lemma AgeOneMore(pigs: seq<Pig>, i: nat, delta: nat)
    requires i < |pigs|
    ensures var p := Aged(pigs[i], delta);
      && Survivors(pigs[..i + 1], delta) == Survivors(pigs[..i], delta) + (if p.lifetime.finished then [] else [p])
      && SoldCount(pigs[..i + 1], delta) == SoldCount(pigs[..i], delta) + (if p.lifetime.finished then 1 else 0)
  {
    assert pigs[..i + 1][..i] == pigs[..i];
  }

  /** One frame of wandering leaves a live pig a live pig with the same
      lifetime. The heading changes exactly when the wander timer reaches its
      period, to the drawn heading, and the timer then starts over; otherwise
      the timer just accumulates the frame. A pig whose heading is zero
      afterwards does not move. */
  lemma WanderStepSpec(p: Pig, delta: nat, draw: Vec2, offset: Vec2)
    requires PigWf(p) && InDrawRange(draw)
    ensures var r := WanderStep(p, delta, draw, offset);
      && PigWf(r)
      && r.lifetime == p.lifetime && r.speed == p.speed
      && (p.wanderTimer.elapsed + delta >= WANDER_PERIOD ==> r.direction == draw && r.wanderTimer.elapsed == 0)
      && (p.wanderTimer.elapsed + delta < WANDER_PERIOD ==>
            r.direction == p.direction && r.wanderTimer.elapsed == p.wanderTimer.elapsed + delta)
      && (r.direction == ZERO ==> r.position == p.position)
      && (r.direction != ZERO ==> r.position == p.position.Plus(offset))
  {
  }

  /** The farm's shared state: the balance, the pigs, and the player's
      position. The ghost counters record how many pigs were ever bought and
      sold, so that the ledger can be checked against them. */
  class FarmState {
    var money: int
    var pigs: seq<Pig>
    var player: Vec2
    ghost var bought: nat
    ghost var sold: nat

    /** The ledger balances: the money is the starting balance plus what the
        pigs sold brought in minus what the pigs bought cost; every pig bought
        is either still on the farm or sold, and sold once; the balance never
        drops to zero; every pig on the farm is a live one. */
    ghost predicate Valid()
      reads this
    {
      && money == STARTING_MONEY + PIG_PRICE * sold - PIG_COST * bought
      && |pigs| + sold == bought
      && money > 0
      && forall i :: 0 <= i < |pigs| ==> PigWf(pigs[i])
    }

    /** A new game: the starting balance, no pigs, the player at the origin. */
    constructor ()
      ensures Valid()
      ensures money == STARTING_MONEY && pigs == [] && player == ZERO
    {
      money, pigs, player := STARTING_MONEY, [], ZERO;
      bought, sold := 0, 0;
    }

    /** Buys a pig at the player's position when the buy key was just pressed
        and the balance is strictly above the price; otherwise does nothing. */
    method SpawnPig(justPressed: bool)
      requires Valid()
      modifies this
      ensures Valid()
      ensures player == old(player)
      ensures !justPressed || old(money) <= PIG_COST ==> money == old(money) && pigs == old(pigs)
      ensures justPressed && old(money) > PIG_COST ==>
        && money == old(money) - PIG_COST
        && |pigs| == |old(pigs)| + 1 && pigs[..|old(pigs)|] == old(pigs)
        && pigs[|old(pigs)|] == NewPig(player)
        && pigs[|old(pigs)|].position == player
        && pigs[|old(pigs)|].lifetime == Timer(PIG_LIFETIME, 0, Once, false)
        && pigs[|old(pigs)|].wanderTimer == Timer(WANDER_PERIOD, 0, Repeating, false)
        && pigs[|old(pigs)|].direction == ZERO
        && pigs[|old(pigs)|].speed == PIG_SPEED
    {
      if !justPressed {
        return;
      }
      if money > PIG_COST {
        money := money - PIG_COST;
        NewPigWf(player);
        pigs := pigs + [NewPig(player)];
        bought := bought + 1;
      }
    }

    /** Ages every pig by the frame time; each pig whose lifetime has run out
        is sold for its price and leaves the farm, each other pig stays with
        only its lifetime advanced. */
    method LifetimeTick(delta: nat)
      requires Valid()
      modifies this
      ensures Valid()
      ensures player == old(player)
      ensures pigs == Survivors(old(pigs), delta)
      ensures money == old(money) + PIG_PRICE * SoldCount(old(pigs), delta)
      ensures sold == old(sold) + SoldCount(old(pigs), delta)
    {
      var herd := pigs;
      var kept: seq<Pig> := [];
      var i := 0;
      while i < |herd|
        invariant 0 <= i <= |herd|
        invariant herd == pigs == old(pigs) && player == old(player)
        invariant bought == old(bought) && sold == old(sold)
        invariant kept == Survivors(herd[..i], delta)
        invariant money == old(money) + PIG_PRICE * SoldCount(herd[..i], delta)
      {
        var pig := herd[i].(lifetime := Tick(herd[i].lifetime, delta));
        AgeOneMore(herd, i, delta);
        if pig.lifetime.finished {
          money := money + PIG_PRICE;
        } else {
          kept := kept + [pig];
        }
        i := i + 1;
      }
      assert herd[..i] == herd;
      SurvivorsSpec(herd, delta);
      ghost var n := SoldCount(herd, delta);
      assert PIG_PRICE * (sold + n) == PIG_PRICE * sold + PIG_PRICE * n;
      sold := sold + n;
      pigs := kept;
    }

    /** Advances every pig's wander timer by the frame time; a pig whose timer
        fires takes the next drawn heading and restarts its timer, and a pig
        with a non-zero heading moves by its offset. The draws stand for the
        random heading and the offsets for the heading normalized and scaled by
        the pig's speed and the frame time. */
    method WanderTick(delta: nat, draws: seq<Vec2>, offsets: seq<Vec2>)
      requires Valid()
      requires |draws| == |pigs| && |offsets| == |pigs|
      requires forall i :: 0 <= i < |draws| ==> InDrawRange(draws[i])
      modifies this
      ensures Valid()
      ensures money == old(money) && player == old(player)
      ensures |pigs| == |old(pigs)|
      ensures forall i :: 0 <= i < |pigs| ==> pigs[i] == WanderStep(old(pigs)[i], delta, draws[i], offsets[i])
    {
      var i := 0;
      while i < |pigs|
        invariant 0 <= i <= |pigs| == |old(pigs)|
        invariant money == old(money) && player == old(player)
        invariant bought == old(bought) && sold == old(sold)
        invariant forall j :: 0 <= j < i ==> pigs[j] == WanderStep(old(pigs)[j], delta, draws[j], offsets[j])
        invariant forall j :: i <= j < |pigs| ==> pigs[j] == old(pigs)[j]
        invariant forall j :: 0 <= j < |pigs| ==> PigWf(pigs[j])
      {
        var pig := pigs[i];
        WanderStepSpec(pig, delta, draws[i], offsets[i]);
        pig := pig.(wanderTimer := Tick(pig.wanderTimer, delta));
        if pig.wanderTimer.finished {
          pig := pig.(direction := draws[i]);
          pig := pig.(wanderTimer := Reset(pig.wanderTimer));
        }
        if pig.direction != ZERO {
          pig := pig.(position := pig.position.Plus(offsets[i]));
        }
        pigs := pigs[i := pig];
        i := i + 1;
      }
    }

    /** Moves the player by `offset`, the direction normalized and scaled by
        the player's speed and the frame time, when the held keys give a
        non-zero direction; otherwise the player stays where it is. */
    method MovePlayer(keys: Keys, offset: Vec2)
      requires Valid()
      modifies this
      ensures Valid()
      ensures money == old(money) && pigs == old(pigs)
      ensures player == if Steers(keys) then old(player).Plus(offset) else old(player)
    {
      var dx, dy := InputDirection(keys);
      if dx != 0 || dy != 0 {
        player := player.Plus(offset);
      }
    }
  }

  /** A new game, one pig bought, then 25 seconds in one frame: the pig is sold
      and the balance ends five above where it started. */
  method FirstSale() returns (balance: int, herd: nat)
    ensures balance == 105 && herd == 0
  {
    var farm := new FarmState();
    farm.SpawnPig(true);
    assert farm.money == 90 && |farm.pigs| == 1;
    assert farm.pigs[..0] == [];
    farm.LifetimeTick(PIG_LIFETIME);
    balance, herd := farm.money, |farm.pigs|;
  }
}

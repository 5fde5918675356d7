/** The game rules of the second level (`GameView2.on_update`): pickups,
    spikes with a shared cooldown, one-shot bombs, rescues, and the lose and
    win checks. Player movement belongs to the platformer engine and the
    enemies' movement to `Patrol`; what the player overlaps after moving is an
    input. */
module LevelTwo {
  import opened Records
  import opened Pickups

  const LEVEL := 2
  const MAX_HP := 100
  const SPIKE_DAMAGE := 10
  const SPIKE_COOLDOWN := 1.0

  /** The live items the player overlaps this tick; spikes and doors are
      never removed, so for them only "some overlap" matters. */
  datatype Contacts = Contacts(coins: set<nat>, diamonds: set<nat>, keys: set<nat>,
                               mice: set<nat>, frogs: set<nat>, bombs: set<nat>,
                               spikes: bool, door: bool)

  /** Health and the single spike cooldown timer. */
  datatype Health = Health(hp: int, timer: real)

  /** The cooldown countdown at the start of a tick: only a positive timer
      runs down, and it is not floored at zero. */
  function CoolDown(timer: real, dt: real): (t: real)
    requires dt >= 0.0
    ensures t <= timer
    ensures timer <= 0.0 ==> t == timer
    ensures timer > 0.0 ==> timer - t == dt
  {
    if timer > 0.0 then timer - dt else timer
  }

  /** The spike rule: touching spikes with an expired cooldown costs
      SPIKE_DAMAGE once, however many spikes overlap, clamps hp at 0 and
      restarts the cooldown. */
  function SpikeRule(hp: int, timer: real, touching: bool): (r: Health)
    ensures 0 <= hp ==> 0 <= r.hp <= hp
    ensures hp - r.hp <= SPIKE_DAMAGE
    ensures r != Health(hp, timer) ==> touching && timer <= 0.0
    ensures touching && timer <= 0.0 ==>
              r.timer == SPIKE_COOLDOWN && r.hp == (if hp < SPIKE_DAMAGE then 0 else hp - SPIKE_DAMAGE)
  {
    if touching && timer <= 0.0 then
      var hit := hp - SPIKE_DAMAGE;
      Health(if hit < 0 then 0 else hit, SPIKE_COOLDOWN)
    else
      Health(hp, timer)
  }

  /** The spike part of one tick: the countdown, then the contact check. */
  function SpikeTick(h: Health, dt: real, touching: bool): (r: Health)
    requires dt >= 0.0
    ensures 0 <= h.hp ==> 0 <= r.hp <= h.hp
    ensures h.hp - r.hp <= SPIKE_DAMAGE
    ensures r.timer <= SPIKE_COOLDOWN || r.timer <= h.timer
  {
    SpikeRule(h.hp, CoolDown(h.timer, dt), touching)
  }

  /** hp after `n` bombs, each applying `hp //= 2`. */
  function HalveTimes(hp: int, n: nat): (r: int)
    requires hp >= 0
    ensures 0 <= r <= hp
    ensures n > 0 ==> r <= hp / 2
  {
    if n == 0 then hp else HalveTimes(hp, n - 1) / 2
  }

  /** Seven bombs empty any health bar: 2^7 exceeds MAX_HP. */
  lemma {:induction false} HalveTimesReachesZero(hp: int, n: nat)
    requires 0 <= hp < 128
    requires n >= 7
    ensures HalveTimes(hp, n) == 0
  {
    if n == 7 {
      var h := hp;
      assert HalveTimes(h, 1) < 64;
      assert HalveTimes(h, 2) < 32;
      assert HalveTimes(h, 3) < 16;
      assert HalveTimes(h, 4) < 8;
      assert HalveTimes(h, 5) < 4;
      assert HalveTimes(h, 6) < 2;
    } else {
      HalveTimesReachesZero(hp, n - 1);
    }
  }

  /** The per-session state the rules change. */
  datatype Session = Session(hp: int, spikeHitTimer: real,
                             coins: nat, diamonds: nat,
                             hasKey: bool, savedMouse: bool, savedFrog: bool,
                             coinsList: seq<nat>, diamondsList: seq<nat>, keys: seq<nat>,
                             mice: seq<nat>, frogs: seq<nat>, bombs: seq<nat>)

  /** How many items of each removable kind the level started with. */
  datatype Totals = Totals(coins: nat, diamonds: nat, keys: nat, mice: nat, frogs: nat)

  /** The session invariant: hp in [0, MAX_HP], the cooldown never above its
      reset value, distinct live sprites, every coin and diamond either counted
      or live, the key list untouched until the key is taken and empty after,
      and each rescue flag set exactly when a creature of its kind is gone. */
  ghost predicate SessionValid(s: Session, t: Totals) {
    && 0 <= s.hp <= MAX_HP
    && s.spikeHitTimer <= SPIKE_COOLDOWN
    && Distinct(s.coinsList) && Distinct(s.diamondsList) && Distinct(s.keys)
    && Distinct(s.mice) && Distinct(s.frogs) && Distinct(s.bombs)
    && s.coins + |s.coinsList| == t.coins
    && s.diamonds + |s.diamondsList| == t.diamonds
    && (s.hasKey ==> s.keys == []) && (!s.hasKey ==> |s.keys| == t.keys)
    && |s.mice| <= t.mice && (s.savedMouse <==> |s.mice| < t.mice)
    && |s.frogs| <= t.frogs && (s.savedFrog <==> |s.frogs| < t.frogs)
  }

  /** The session `setup` starts: full health, cooldown expired, nothing
      collected or rescued. */
  function InitialSession(coinsList: seq<nat>, diamondsList: seq<nat>, keys: seq<nat>,
                          mice: seq<nat>, frogs: seq<nat>, bombs: seq<nat>): Session
  {
    Session(MAX_HP, 0.0, 0, 0, false, false, false, coinsList, diamondsList, keys, mice, frogs, bombs)
  }

  /** Step 1 of a tick: the cooldown countdown. */
  function CoolDownStep(s: Session, dt: real): Session
    requires dt >= 0.0
  {
    s.(spikeHitTimer := CoolDown(s.spikeHitTimer, dt))
  }

  /** Step 2: coins and diamonds are removed and counted once each; any key
      overlap clears the key list and gives the key. */
  function PickupStep(s: Session, c: Contacts): Session {
    KeyStep(DiamondStep(CoinStep(s, c.coins), c.diamonds), c.keys)
  }

  function CoinStep(s: Session, touched: set<nat>): Session {
    s.(coinsList := Untouched(s.coinsList, touched),
       coins := s.coins + |Touched(s.coinsList, touched)|)
  }

  function DiamondStep(s: Session, touched: set<nat>): Session {
    s.(diamondsList := Untouched(s.diamondsList, touched),
       diamonds := s.diamonds + |Touched(s.diamondsList, touched)|)
  }

  function KeyStep(s: Session, touched: set<nat>): Session {
    var hit := Touched(s.keys, touched) != [];
    s.(keys := if hit then [] else s.keys, hasKey := s.hasKey || hit)
  }

  /** Step 3: the spike rule. */
  function SpikeStep(s: Session, touching: bool): Session {
    var h := SpikeRule(s.hp, s.spikeHitTimer, touching);
    s.(hp := h.hp, spikeHitTimer := h.timer)
  }

  /** Step 4: a rescue sets its flag and removes every overlapped creature. */
  function RescueStep(s: Session, c: Contacts): Session {
    s.(mice := Untouched(s.mice, c.mice),
       savedMouse := s.savedMouse || Touched(s.mice, c.mice) != [],
       frogs := Untouched(s.frogs, c.frogs),
       savedFrog := s.savedFrog || Touched(s.frogs, c.frogs) != [])
  }

  /** Step 5: each overlapped bomb halves hp once and is removed. */
  function BombStep(s: Session, touched: set<nat>): Session
    requires s.hp >= 0
  {
    s.(hp := HalveTimes(s.hp, |Touched(s.bombs, touched)|),
       bombs := Untouched(s.bombs, touched))
  }

  /** The rules of one tick, in the order `on_update` applies them. */
  function Tick(s: Session, dt: real, c: Contacts): Session
    requires dt >= 0.0 && s.hp >= 0
  {
    var afterSpikes := SpikeStep(PickupStep(CoolDownStep(s, dt), c), c.spikes);
    BombStep(RescueStep(afterSpikes, c), c.bombs)
  }

  /** A tick keeps the session invariant. */
  lemma TickPreservesValid(s: Session, t: Totals, dt: real, c: Contacts)
    requires SessionValid(s, t) && dt >= 0.0
    ensures SessionValid(Tick(s, dt, c), t)
  {
    UntouchedDistinct(s.coinsList, c.coins);
    UntouchedDistinct(s.diamondsList, c.diamonds);
    UntouchedDistinct(s.mice, c.mice);
    UntouchedDistinct(s.frogs, c.frogs);
    UntouchedDistinct(s.bombs, c.bombs);
    SplitCounts(s.coinsList, c.coins);
    SplitCounts(s.diamondsList, c.diamonds);
    SplitCounts(s.mice, c.mice);
    SplitCounts(s.frogs, c.frogs);
  }

  /** hp never increases within a tick, and a tick costs at most SPIKE_DAMAGE
      before the bombs, whatever the number of spikes touched. */
  lemma TickHealth(s: Session, dt: real, c: Contacts)
    requires dt >= 0.0 && s.hp >= 0
    ensures var r := Tick(s, dt, c);
            var spiked := SpikeRule(s.hp, CoolDown(s.spikeHitTimer, dt), c.spikes).hp;
            && 0 <= r.hp <= spiked <= s.hp
            && s.hp - spiked <= SPIKE_DAMAGE
            && (spiked < s.hp ==> c.spikes && CoolDown(s.spikeHitTimer, dt) <= 0.0)
            && (Touched(s.bombs, c.bombs) != [] ==> r.hp <= spiked / 2)
  {
  }

  /** Pickups and rescues are monotone: counters only grow, by exactly the
      number of live items touched; flags only go from false to true; lists
      only lose the items touched. */
  lemma {:induction false} TickMonotone(s: Session, dt: real, c: Contacts)
    requires dt >= 0.0 && s.hp >= 0
    ensures var r := Tick(s, dt, c);
            && r.coins == s.coins + |Touched(s.coinsList, c.coins)|
            && r.coins + |r.coinsList| == s.coins + |s.coinsList|
            && r.diamonds == s.diamonds + |Touched(s.diamondsList, c.diamonds)|
            && r.diamonds + |r.diamondsList| == s.diamonds + |s.diamondsList|
            && (s.hasKey ==> r.hasKey)
            && (s.savedMouse ==> r.savedMouse)
            && (s.savedFrog ==> r.savedFrog)
            && (forall x :: x in r.coinsList <==> x in s.coinsList && x !in c.coins)
            && (forall x :: x in r.mice <==> x in s.mice && x !in c.mice)
            && (forall x :: x in r.frogs <==> x in s.frogs && x !in c.frogs)
  {
    SplitCounts(s.coinsList, c.coins);
    SplitCounts(s.diamondsList, c.diamonds);
    UntouchedMembers(s.coinsList, c.coins);
    UntouchedMembers(s.mice, c.mice);
    UntouchedMembers(s.frogs, c.frogs);
  }

  /** Bombs are one-shot: a bomb that went off is gone from the list, so no
      later tick can set it off again; untouched bombs stay. */
  lemma BombsAreOneShot(s: Session, dt: real, c: Contacts, b: nat)
    requires dt >= 0.0 && s.hp >= 0
    requires b in s.bombs
    ensures b in c.bombs ==> b !in Tick(s, dt, c).bombs
    ensures b !in c.bombs ==> b in Tick(s, dt, c).bombs
  {
    UntouchedMembers(s.bombs, c.bombs);
  }

  /** A touched mouse or frog sets its flag; the flag stays false otherwise. */
  lemma RescueFlags(s: Session, dt: real, c: Contacts)
    requires dt >= 0.0 && s.hp >= 0
    ensures Tick(s, dt, c).savedMouse <==> s.savedMouse || (exists m :: m in s.mice && m in c.mice)
    ensures Tick(s, dt, c).savedFrog <==> s.savedFrog || (exists f :: f in s.frogs && f in c.frogs)
  {
    TouchedNonEmpty(s.mice, c.mice);
    TouchedNonEmpty(s.frogs, c.frogs);
  }

  class GameView2 {
    var hp: int
    var coins: nat
    var diamonds: nat
    var hasKey: bool
    var savedMouse: bool
    var savedFrog: bool
    var spikeHitTimer: real
    /** Live sprites of each removable kind. */
    var coinsList: seq<nat>
    var diamondsList: seq<nat>
    var keys: seq<nat>
    var mice: seq<nat>
    var frogs: seq<nat>
    var bombs: seq<nat>
    ghost const totals: Totals

    ghost function Snapshot(): Session
      reads this
    {
      Session(hp, spikeHitTimer, coins, diamonds, hasKey, savedMouse, savedFrog,
              coinsList, diamondsList, keys, mice, frogs, bombs)
    }

    ghost predicate Valid()
      reads this
    {
      SessionValid(Snapshot(), totals)
    }

    /** The state `setup` leaves. */
    constructor (coinsList: seq<nat>, diamondsList: seq<nat>, keys: seq<nat>,
                 mice: seq<nat>, frogs: seq<nat>, bombs: seq<nat>)
      requires Distinct(coinsList) && Distinct(diamondsList) && Distinct(keys)
      requires Distinct(mice) && Distinct(frogs) && Distinct(bombs)
      ensures Valid()
      ensures Snapshot() == InitialSession(coinsList, diamondsList, keys, mice, frogs, bombs)
    {
      hp, spikeHitTimer := MAX_HP, 0.0;
      coins, diamonds := 0, 0;
      hasKey, savedMouse, savedFrog := false, false, false;
      this.coinsList, this.diamondsList, this.keys := coinsList, diamondsList, keys;
      this.mice, this.frogs, this.bombs := mice, frogs, bombs;
      totals := Totals(|coinsList|, |diamondsList|, |keys|, |mice|, |frogs|);
    }

    /** One tick of the level's rules. `lost` is the game-over check and
        `won` the record-store outcome of leaving through the door; the two
        checks are independent and can both fire in the same tick. */
    method OnUpdate(dt: real, contacts: Contacts, file: RecordsFile, elapsed: nat)
      returns (lost: bool, won: Option<SaveResult>)
      requires Valid() && dt >= 0.0
      modifies this
      ensures Valid()
      ensures Snapshot() == Tick(old(Snapshot()), dt, contacts)
      ensures lost <==> hp <= 0
      ensures won.Some? <==> hasKey && contacts.door
      ensures won.Some? ==> won.value == SaveRecord(LEVEL, coins, diamonds, savedMouse, savedFrog, elapsed, file)
    {
      TickPreservesValid(Snapshot(), totals, dt, contacts);
      CountDownCooldown(dt);
      CollectPickups(contacts);
      ApplySpikes(contacts.spikes);
      RescueCreatures(contacts);
      ExplodeBombs(contacts.bombs);

      lost := hp <= 0;

      won := None;
      if hasKey && contacts.door {
        won := Some(SaveRecord(LEVEL, coins, diamonds, savedMouse, savedFrog, elapsed, file));
      }
    }

    /** Only a positive cooldown runs down. */
    method CountDownCooldown(dt: real)
      requires dt >= 0.0
      modifies this`spikeHitTimer
      ensures Snapshot() == CoolDownStep(old(Snapshot()), dt)
    {
      if spikeHitTimer > 0.0 {
        spikeHitTimer := spikeHitTimer - dt;
      }
    }

    method CollectPickups(contacts: Contacts)
      modifies this`coinsList, this`coins, this`diamondsList, this`diamonds, this`keys, this`hasKey
      ensures Snapshot() == PickupStep(old(Snapshot()), contacts)
    {
      CollectCoins(contacts.coins);
      CollectDiamonds(contacts.diamonds);
      TakeKey(contacts.keys);
    }

    method CollectCoins(touched: set<nat>)
      modifies this`coinsList, this`coins
      ensures Snapshot() == CoinStep(old(Snapshot()), touched)
    {
      var kept, collected := RemoveTouched(coinsList, touched);
      coinsList, coins := kept, coins + collected;
    }

    method CollectDiamonds(touched: set<nat>)
      modifies this`diamondsList, this`diamonds
      ensures Snapshot() == DiamondStep(old(Snapshot()), touched)
    {
      var kept, collected := RemoveTouched(diamondsList, touched);
      diamondsList, diamonds := kept, diamonds + collected;
    }

    /** Any overlap with a key sprite clears the whole key list. */
    method TakeKey(touched: set<nat>)
      modifies this`keys, this`hasKey
      ensures Snapshot() == KeyStep(old(Snapshot()), touched)
    {
      var keyHits := Touched(keys, touched);
      if keyHits != [] {
        keys := [];
        hasKey := true;
      }
    }

    method ApplySpikes(touching: bool)
      modifies this`hp, this`spikeHitTimer
      ensures Snapshot() == SpikeStep(old(Snapshot()), touching)
    {
      if touching {
        if spikeHitTimer <= 0.0 {
          hp := hp - SPIKE_DAMAGE;
          spikeHitTimer := SPIKE_COOLDOWN;
          if hp < 0 {
            hp := 0;
          }
        }
      }
    }

    method RescueCreatures(contacts: Contacts)
      modifies this`mice, this`savedMouse, this`frogs, this`savedFrog
      ensures Snapshot() == RescueStep(old(Snapshot()), contacts)
    {
      RescueMouse(contacts.mice);
      RescueFrog(contacts.frogs);
    }

    method RescueMouse(touched: set<nat>)
      modifies this`mice, this`savedMouse
      ensures mice == Untouched(old(mice), touched)
      ensures savedMouse == (old(savedMouse) || Touched(old(mice), touched) != [])
    {
      var kept, collected := RemoveTouched(mice, touched);
      if collected > 0 {
        savedMouse := true;
      }
      mice := kept;
    }

    method RescueFrog(touched: set<nat>)
      modifies this`frogs, this`savedFrog
      ensures frogs == Untouched(old(frogs), touched)
      ensures savedFrog == (old(savedFrog) || Touched(old(frogs), touched) != [])
    {
      var kept, collected := RemoveTouched(frogs, touched);
      if collected > 0 {
        savedFrog := true;
      }
      frogs := kept;
    }

    method ExplodeBombs(touched: set<nat>)
      requires hp >= 0
      modifies this`hp, this`bombs
      ensures Snapshot() == BombStep(old(Snapshot()), touched)
    {
      var kept, collected := RemoveTouched(bombs, touched);
      var k := 0;
      while k < collected
        invariant 0 <= k <= collected
        invariant hp == HalveTimes(old(hp), k)
      {
        hp := hp / 2;
        k := k + 1;
      }
      bombs := kept;
    }
  }

  /** The spike timeline under continuous contact at 60 ticks per second. */
  function SpikeRun(h: Health, ticks: nat): Health
    decreases ticks
  {
    if ticks == 0 then h else SpikeRun(SpikeTick(h, 1.0 / 60.0, true), ticks - 1)
  }

  /** With `m` sixtieths of a second left on the cooldown, the next hit lands
      exactly `m` ticks later. */
  lemma {:induction false} CountdownThenHit(hp: int, m: nat)
    requires m >= 1
    ensures SpikeRun(Health(hp, m as real / 60.0), m)
            == Health(if hp < SPIKE_DAMAGE then 0 else hp - SPIKE_DAMAGE, SPIKE_COOLDOWN)
  {
    var next := SpikeTick(Health(hp, m as real / 60.0), 1.0 / 60.0, true);
    if m == 1 {
      assert next == Health(if hp < SPIKE_DAMAGE then 0 else hp - SPIKE_DAMAGE, SPIKE_COOLDOWN);
    } else {
      assert next == Health(hp, (m - 1) as real / 60.0);
      CountdownThenHit(hp, m - 1);
    }
  }

  /** While the cooldown has not run out, contact does no damage. */
  lemma {:induction false} CountdownNoHit(hp: int, m: nat, k: nat)
    requires k < m
    ensures SpikeRun(Health(hp, m as real / 60.0), k) == Health(hp, (m - k) as real / 60.0)
  {
    if k > 0 {
      var next := SpikeTick(Health(hp, m as real / 60.0), 1.0 / 60.0, true);
      assert next == Health(hp, (m - 1) as real / 60.0);
      CountdownNoHit(hp, m - 1, k - 1);
    }
  }

  lemma {:induction false} SpikeRunAdditive(h: Health, a: nat, b: nat)
    ensures SpikeRun(h, a + b) == SpikeRun(SpikeRun(h, a), b)
    decreases a
  {
    if a > 0 {
      SpikeRunAdditive(SpikeTick(h, 1.0 / 60.0, true), a - 1, b);
    }
  }

  /** Three seconds of continuous spike contact from full health, with the
      cooldown expired, land exactly three hits: 30 damage. */
  lemma ThreeSecondsOfSpikes()
    ensures SpikeRun(Health(MAX_HP, 0.0), 180).hp == MAX_HP - 3 * SPIKE_DAMAGE
  {
    var start := Health(MAX_HP, 0.0);
    var first := SpikeTick(start, 1.0 / 60.0, true);
    assert first == Health(90, 60 as real / 60.0);
    assert SpikeRun(start, 1) == first;
    CountdownThenHit(90, 60);
    assert SpikeRun(first, 60) == Health(80, 60 as real / 60.0);
    CountdownThenHit(80, 60);
    CountdownNoHit(70, 60, 59);
    SpikeRunAdditive(start, 1, 60);
    SpikeRunAdditive(start, 61, 60);
    SpikeRunAdditive(start, 121, 59);
  }
}

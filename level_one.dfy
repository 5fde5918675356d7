/** The game rules of the first level (`GameView.on_update`): coins, the key,
    and leaving through the door. Player movement belongs to the platformer
    engine and is not part of this model; what the player overlaps after moving
    is an input. */
module LevelOne {
  import opened Records
  import opened Pickups

  /** The record-store level number of this level. */
  const LEVEL := 1

  /** The live items the player overlaps this tick, and whether a door is
      among the overlapped sprites. */
  datatype Contacts = Contacts(coins: set<nat>, keys: set<nat>, door: bool)

  class GameView {
    /** Coins collected so far; the first level counts coins, not points. */
    var score: nat
    var hasKey: bool
    /** Live coin and key sprites. */
    var coins: seq<nat>
    var keys: seq<nat>
    /** How many coins and keys the level started with. */
    ghost const totalCoins: nat
    ghost const totalKeys: nat

    ghost predicate Valid()
      reads this
    {
      && Distinct(coins) && Distinct(keys)
      && score + |coins| == totalCoins
      && |keys| <= totalKeys && (hasKey <==> |keys| < totalKeys)
    }

    /** The state `setup` leaves: nothing collected, every placed item live. */
    constructor (coins: seq<nat>, keys: seq<nat>)
      requires Distinct(coins) && Distinct(keys)
      ensures Valid()
      ensures this.coins == coins && this.keys == keys
      ensures score == 0 && !hasKey
      ensures totalCoins == |coins| && totalKeys == |keys|
    {
      score, hasKey := 0, false;
      this.coins, this.keys := coins, keys;
      totalCoins, totalKeys := |coins|, |keys|;
    }

    /** One tick of the level's rules. The result is the record-store outcome
        when the player leaves through the door with the key this tick. */
    method OnUpdate(contacts: Contacts, file: RecordsFile, elapsed: nat) returns (won: Option<SaveResult>)
      requires Valid()
      modifies this
      ensures Valid()
      ensures coins == Untouched(old(coins), contacts.coins)
      ensures score == old(score) + |Touched(old(coins), contacts.coins)|
      ensures var keyHit := Touched(old(keys), contacts.keys) != [];
              && keys == (if keyHit then old(keys)[1..] else old(keys))
              && hasKey == (old(hasKey) || keyHit)
      ensures won.Some? <==> hasKey && contacts.door
      ensures won.Some? ==> won.value == SaveRecord(LEVEL, score, 0, false, false, elapsed, file)
    {
      // Coins: every overlapped coin is removed and counted once.
      var kept, collected := RemoveTouched(coins, contacts.coins);
      UntouchedDistinct(coins, contacts.coins);
      coins := kept;
      score := score + collected;

      // Key: any overlap removes the first key sprite of the list.
      var keyHits := Touched(keys, contacts.keys);
      if keyHits != [] {
        TouchedMembers(keys, contacts.keys);
        assert keyHits[0] in keys;
        keys := keys[1..];
        hasKey := true;
      }

      // Door: with the key, the level is won and the result is submitted.
      won := None;
      if hasKey && contacts.door {
        won := Some(SaveRecord(LEVEL, score, 0, false, false, elapsed, file));
      }
    }
  }
}

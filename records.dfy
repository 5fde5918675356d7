/** The best-result store: `load_records` and `save_record`.
    The JSON file itself is not modelled; what reading it yields is an input
    (`RecordsFile`) and what `save_record` would write back is part of the result. */
module Records {

  datatype Option<T> = None | Some(value: T)

  /** One stored best result, with the fields `save_record` writes. */
  datatype Entry = Entry(score: int, coins: nat, diamonds: nat,
                         savedMouse: bool, savedFrog: bool, time: nat)

  /** What opening and parsing the records file can give. */
  datatype RecordsFile = Missing | Unparseable | Parsed(records: map<string, Entry>)

  /** The outcome of `save_record`: the entry it reports, whether it is a new
      record, and the records mapping after the call (the file is rewritten
      with this mapping exactly when `isNew`). */
  datatype SaveResult = SaveResult(entry: Entry, isNew: bool, records: map<string, Entry>)

  const COIN_POINTS := 10
  const DIAMOND_POINTS := 50
  const RESCUE_POINTS := 100

  /** `load_records`: a missing or unreadable file gives the empty mapping. */
  function LoadRecords(f: RecordsFile): (m: map<string, Entry>)
    ensures f.Parsed? ==> m == f.records
    ensures !f.Parsed? ==> m == map[]
  {
    match f
    case Parsed(records) => records
    case _ => map[]
  }

  /** The score `save_record` computes, built up the way the source does. */
  function Score(coins: nat, diamonds: nat, savedMouse: bool, savedFrog: bool): (s: int)
    ensures s >= 0
    ensures s == coins * COIN_POINTS + diamonds * DIAMOND_POINTS
                 + (if savedMouse then RESCUE_POINTS else 0)
                 + (if savedFrog then RESCUE_POINTS else 0)
  {
    var base := coins * COIN_POINTS + diamonds * DIAMOND_POINTS;
    var withMouse := if savedMouse then base + RESCUE_POINTS else base;
    if savedFrog then withMouse + RESCUE_POINTS else withMouse
  }

  /** The entry `save_record` would store for a result. */
  function Candidate(coins: nat, diamonds: nat, savedMouse: bool, savedFrog: bool, timeSec: nat): (e: Entry)
    ensures e.score == Score(coins, diamonds, savedMouse, savedFrog)
    ensures e.coins == coins && e.diamonds == diamonds && e.time == timeSec
    ensures e.savedMouse == savedMouse && e.savedFrog == savedFrog
  {
    Entry(Score(coins, diamonds, savedMouse, savedFrog), coins, diamonds, savedMouse, savedFrog, timeSec)
  }

  /** The ranking of results: a higher score wins, and on equal scores the
      shorter time wins. */
  predicate Better(a: Entry, b: Entry) {
    a.score > b.score || (a.score == b.score && a.time < b.time)
  }

  /** Decimal digits of a natural number, as Python's `str` writes them. */
  function NatToString(n: nat): (s: string)
    ensures |s| >= 1
    ensures n < 10 <==> |s| == 1
    ensures forall i :: 0 <= i < |s| ==> '0' <= s[i] <= '9'
  {
    if n < 10 then [DigitChar(n)] else NatToString(n / 10) + [DigitChar(n % 10)]
  }

  function DigitChar(d: nat): (c: char)
    requires d < 10
    ensures '0' <= c <= '9'
    ensures c as int - '0' as int == d
  {
    ('0' as int + d) as char
  }

  /** The key `f"level_{level}"` under which a level's record is stored. */
  function LevelKey(level: nat): (k: string)
    ensures |k| > 6 && k[..6] == "level_"
    ensures k[6..] == NatToString(level)
  {
    "level_" + NatToString(level)
  }

  /** Different numbers have different decimal strings. */
  lemma {:induction false} NatToStringInjective(a: nat, b: nat)
    requires NatToString(a) == NatToString(b)
    ensures a == b
  {
    var sa, sb := NatToString(a), NatToString(b);
    if a < 10 || b < 10 {
      assert a < 10 && b < 10;
      assert sa[0] == DigitChar(a) && sb[0] == DigitChar(b);
    } else {
      assert sa[|sa| - 1] == DigitChar(a % 10) && sb[|sb| - 1] == DigitChar(b % 10);
      assert sa[..|sa| - 1] == NatToString(a / 10);
      assert sb[..|sb| - 1] == NatToString(b / 10);
      NatToStringInjective(a / 10, b / 10);
    }
  }

  /** Two levels never share a record key. */
  lemma LevelKeyInjective(a: nat, b: nat)
    requires a != b
    ensures LevelKey(a) != LevelKey(b)
  {
    if LevelKey(a) == LevelKey(b) {
      assert LevelKey(a)[6..] == LevelKey(b)[6..];
      NatToStringInjective(a, b);
    }
  }

  /** `save_record`: compute the score, compare with the stored entry for the
      level, and overwrite that one key only when the new result is better. */
  function SaveRecord(level: nat, coins: nat, diamonds: nat, savedMouse: bool, savedFrog: bool,
                      timeSec: nat, f: RecordsFile): (r: SaveResult)
    ensures var prior := LoadRecords(f);
            var key := LevelKey(level);
            var cand := Candidate(coins, diamonds, savedMouse, savedFrog, timeSec);
            && (r.isNew <==> (key !in prior || cand.score > prior[key].score
                              || (cand.score == prior[key].score && timeSec < prior[key].time)))
            && (r.isNew ==> r.entry == cand && r.records == prior[key := cand])
            && (!r.isNew ==> key in prior && r.entry == prior[key] && r.records == prior)
  {
    var records := LoadRecords(f);
    var key := LevelKey(level);
    var cand := Candidate(coins, diamonds, savedMouse, savedFrog, timeSec);
    var isNew := key !in records || Better(cand, records[key]);
    if isNew then SaveResult(cand, true, records[key := cand])
    else SaveResult(records[key], false, records)
  }

  /** After a save the stored entry is the better of the old entry and the
      candidate: it is one of the two, and neither of them beats it. */
  lemma SaveKeepsBest(level: nat, coins: nat, diamonds: nat, savedMouse: bool, savedFrog: bool,
                      timeSec: nat, f: RecordsFile)
    ensures var r := SaveRecord(level, coins, diamonds, savedMouse, savedFrog, timeSec, f);
            var prior := LoadRecords(f);
            var key := LevelKey(level);
            var cand := Candidate(coins, diamonds, savedMouse, savedFrog, timeSec);
            && key in r.records
            && r.records[key] == r.entry
            && (r.entry == cand || (key in prior && r.entry == prior[key]))
            && !Better(cand, r.entry)
            && (key in prior ==> !Better(prior[key], r.entry))
  {
  }

  /** Saving a result touches no other level's entry. */
  lemma SaveLeavesOtherLevels(level: nat, other: nat, coins: nat, diamonds: nat,
                              savedMouse: bool, savedFrog: bool, timeSec: nat, f: RecordsFile)
    requires other != level
    ensures var r := SaveRecord(level, coins, diamonds, savedMouse, savedFrog, timeSec, f);
            var prior := LoadRecords(f);
            (LevelKey(other) in r.records <==> LevelKey(other) in prior)
            && (LevelKey(other) in prior ==> r.records[LevelKey(other)] == prior[LevelKey(other)])
  {
    LevelKeyInjective(level, other);
  }

  /** Submitting the same result again, against the file the first save wrote,
      is not a new record and changes nothing. */
  lemma SaveIdempotent(level: nat, coins: nat, diamonds: nat, savedMouse: bool, savedFrog: bool,
                       timeSec: nat, f: RecordsFile)
    ensures var r1 := SaveRecord(level, coins, diamonds, savedMouse, savedFrog, timeSec, f);
            var r2 := SaveRecord(level, coins, diamonds, savedMouse, savedFrog, timeSec, Parsed(r1.records));
            !r2.isNew && r2.records == r1.records && r2.entry == r1.entry
  {
  }

  /** The ranking is a strict order: never reflexive, and transitive. */
  lemma BetterIsStrictOrder(a: Entry, b: Entry, c: Entry)
    ensures !Better(a, a)
    ensures Better(a, b) ==> !Better(b, a)
    ensures Better(a, b) && Better(b, c) ==> Better(a, c)
  {
  }

  /** The worked examples of the record comparator and the level-2 score. */
  lemma ComparatorExamples()
    ensures Better(Entry(150, 0, 3, false, false, 25), Entry(150, 0, 3, false, false, 30))
    ensures Better(Entry(160, 16, 0, false, false, 999), Entry(150, 0, 3, false, false, 25))
    ensures Score(3, 2, true, false) == 230
    ensures Score(6, 0, false, false) == 60
  {
  }
}

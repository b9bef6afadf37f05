/** The progress and settings store (js/storage.js). The two IndexedDB object
    stores are maps; a put that the database rejects is an `Outcome` of `Failed`
    and leaves its store as it was. Timestamps are opaque strings supplied by
    the caller in place of `new Date().toISOString()`. */
module Storage {
  import opened Common

  type Timestamp = string

  datatype Confidence = Low | Medium | High

  /** One record of the 'progress' object store, whose key path is `birdId`. */
  datatype ProgressRecord = ProgressRecord(
    birdId: string,
    timesStudied: nat,
    timesCorrectQuiz: nat,
    timesIncorrectQuiz: nat,
    lastStudied: Option<Timestamp>,
    confidenceLevel: Confidence,
    notes: string)

  /** A setting's value: the app stores strings and booleans; null is the default default. */
  datatype Value = Null | Bool(b: bool) | Str(s: string)

  /** How an IndexedDB request settled. */
  datatype Outcome = Done | Failed

  /** The record `getProgress` hands out for a bird that has none stored. */
  function DefaultProgress(birdId: string): (p: ProgressRecord)
    ensures p.birdId == birdId
    ensures p.timesStudied == 0 && p.timesCorrectQuiz == 0 && p.timesIncorrectQuiz == 0
    ensures p.lastStudied == None && p.confidenceLevel == Low && p.notes == ""
  {
    ProgressRecord(birdId, 0, 0, 0, None, Low, "")
  }

  // ---------------------------------------------------------------------
  // The confidence rule

  /** Fewer than this many answers leave the confidence level alone. */
  const MIN_ANSWERS := 3

  /** The level after an answer, given the counters after the increment. The
      accuracy tests `c / t >= 0.8` and `c / t >= 0.5` are written as the
      equivalent integer tests `5c >= 4t` and `2c >= t`. */
  function NextConfidence(correct: nat, incorrect: nat, prior: Confidence): Confidence
  {
    var total := correct + incorrect;
    if total < MIN_ANSWERS then prior
    else if 5 * correct >= 4 * total then High
    else if 2 * correct >= total then Medium
    else Low
  }

  /** Quiz accuracy as the source computes it, in exact rational arithmetic. */
  ghost function Accuracy(correct: nat, total: nat): real
    requires total > 0
  {
    correct as real / total as real
  }

  /** The integer rule agrees with the accuracy thresholds 0.8 and 0.5, and leaves
      the level unchanged below three answers. */
  lemma NextConfidenceMeetsThresholds(correct: nat, incorrect: nat, prior: Confidence)
    ensures correct + incorrect < 3 ==> NextConfidence(correct, incorrect, prior) == prior
    ensures correct + incorrect >= 3 ==>
      var acc := Accuracy(correct, correct + incorrect);
      && (NextConfidence(correct, incorrect, prior) == High <==> acc >= 0.8)
      && (NextConfidence(correct, incorrect, prior) == Medium <==> 0.5 <= acc < 0.8)
      && (NextConfidence(correct, incorrect, prior) == Low <==> acc < 0.5)
  {
    var total := correct + incorrect;
    if total >= 3 {
      AccuracyAtLeast(correct, total, 0.8);
      AccuracyAtLeast(correct, total, 0.5);
    }
  }

  /** For a positive total, `c / t >= q` exactly when `c >= q * t`. */
  lemma AccuracyAtLeast(c: nat, t: nat, q: real)
    requires t > 0
    ensures Accuracy(c, t) >= q <==> c as real >= q * t as real
  {
    var x := Accuracy(c, t);
    var tr := t as real;
    assert x * tr == c as real;
    if x >= q {
      assert (x - q) * tr >= 0.0;
    } else {
      assert (q - x) * tr > 0.0;
    }
  }

  /** The record after one study: one more study, stamped now. */
  function Studied(p: ProgressRecord, now: Timestamp): (q: ProgressRecord)
    ensures q.timesStudied == p.timesStudied + 1 && q.lastStudied == Some(now)
    ensures q.birdId == p.birdId && q.notes == p.notes
    ensures q.timesCorrectQuiz == p.timesCorrectQuiz && q.timesIncorrectQuiz == p.timesIncorrectQuiz
    ensures q.confidenceLevel == p.confidenceLevel
  {
    p.(timesStudied := p.timesStudied + 1, lastStudied := Some(now))
  }

  /** The record after one quiz answer: exactly one answer counter goes up, the
      record is stamped now and the confidence level follows the rule. */
  function Answered(p: ProgressRecord, correct: bool, now: Timestamp): (q: ProgressRecord)
    ensures q.timesCorrectQuiz + q.timesIncorrectQuiz == p.timesCorrectQuiz + p.timesIncorrectQuiz + 1
    ensures correct ==> q.timesCorrectQuiz == p.timesCorrectQuiz + 1 && q.timesIncorrectQuiz == p.timesIncorrectQuiz
    ensures !correct ==> q.timesIncorrectQuiz == p.timesIncorrectQuiz + 1 && q.timesCorrectQuiz == p.timesCorrectQuiz
    ensures q.confidenceLevel == NextConfidence(q.timesCorrectQuiz, q.timesIncorrectQuiz, p.confidenceLevel)
    ensures q.timesCorrectQuiz + q.timesIncorrectQuiz < 3 ==> q.confidenceLevel == p.confidenceLevel
    ensures q.lastStudied == Some(now)
    ensures q.birdId == p.birdId && q.timesStudied == p.timesStudied && q.notes == p.notes
  {
    var c := if correct then p.timesCorrectQuiz + 1 else p.timesCorrectQuiz;
    var i := if correct then p.timesIncorrectQuiz else p.timesIncorrectQuiz + 1;
    p.(timesCorrectQuiz := c, timesIncorrectQuiz := i, lastStudied := Some(now),
       confidenceLevel := NextConfidence(c, i, p.confidenceLevel))
  }

  /** Three answers on a fresh record: all correct gives high, two of three medium,
      none low. */
  lemma ThreeAnswersFromDefault(id: string, now: Timestamp)
    ensures var d := DefaultProgress(id);
      Answered(Answered(Answered(d, true, now), true, now), true, now).confidenceLevel == High
    ensures var d := DefaultProgress(id);
      Answered(Answered(Answered(d, true, now), true, now), false, now).confidenceLevel == Medium
    ensures var d := DefaultProgress(id);
      Answered(Answered(Answered(d, false, now), false, now), false, now).confidenceLevel == Low
  {
  }

  // ---------------------------------------------------------------------
  // Settings

  const THEME := "theme"
  const SHOW_SCIENTIFIC := "showScientific"
  const SORT_BY := "sortBy"

  /** The `defaults` object of getAllSettings, in its own key order. */
  const DEFAULT_SETTINGS: seq<(string, Value)> :=
    [(THEME, Str("light")), (SHOW_SCIENTIFIC, Bool(true)), (SORT_BY, Str("frequency"))]

  /** The keys of a list of entries. */
  function Keys(entries: seq<(string, Value)>): set<string>
  {
    set i | 0 <= i < |entries| :: entries[i].0
  }

  /** No key occurs twice, as in the entries of a JavaScript object. */
  predicate DistinctKeys(entries: seq<(string, Value)>)
  {
    forall i, j :: 0 <= i < j < |entries| ==> entries[i].0 != entries[j].0
  }

  /** The settings store after putting each entry in turn. */
  function PutAll(m: map<string, Value>, entries: seq<(string, Value)>): map<string, Value>
    decreases |entries|
  {
    if entries == [] then m
    else PutAll(m[entries[0].0 := entries[0].1], entries[1..])
  }

  /** After putting distinct entries, each key holds its entry's value and every
      other key is as before. */
  lemma {:induction false} PutAllEffect(m: map<string, Value>, entries: seq<(string, Value)>)
    requires DistinctKeys(entries)
    ensures PutAll(m, entries).Keys == m.Keys + Keys(entries)
    ensures forall i :: 0 <= i < |entries| ==> entries[i].0 in PutAll(m, entries)
    ensures forall i :: 0 <= i < |entries| ==> PutAll(m, entries)[entries[i].0] == entries[i].1
    ensures forall k :: k !in Keys(entries) && k in m ==> PutAll(m, entries)[k] == m[k]
    decreases |entries|
  {
    if entries != [] {
      var rest := entries[1..];
      assert DistinctKeys(rest) by {
        forall i, j | 0 <= i < j < |rest| ensures rest[i].0 != rest[j].0 {
          assert rest[i] == entries[i + 1] && rest[j] == entries[j + 1];
        }
      }
      PutAllEffect(m[entries[0].0 := entries[0].1], rest);
      assert Keys(entries) == {entries[0].0} + Keys(rest) by {
        forall k | k in Keys(entries) ensures k in {entries[0].0} + Keys(rest) {
          var i :| 0 <= i < |entries| && entries[i].0 == k;
          if i > 0 { assert rest[i - 1] == entries[i]; }
        }
        forall k | k in Keys(rest) ensures k in Keys(entries) {
          var i :| 0 <= i < |rest| && rest[i].0 == k;
          assert entries[i + 1] == rest[i];
        }
      }
      forall i | 0 <= i < |entries|
        ensures PutAll(m, entries)[entries[i].0] == entries[i].1
      {
        if i == 0 {
          assert entries[0].0 !in Keys(rest) by {
            forall j | 0 <= j < |rest| ensures rest[j].0 != entries[0].0 {
              assert rest[j] == entries[j + 1];
            }
          }
        } else {
          assert entries[i] == rest[i - 1];
        }
      }
    }
  }

  /** The index of the first `false`, or the length when there is none. */
  function FirstFailure(oks: seq<bool>): (n: nat)
    ensures n <= |oks|
    ensures forall i :: 0 <= i < n ==> oks[i]
    ensures n < |oks| ==> !oks[n]
  {
    if oks == [] || !oks[0] then 0 else 1 + FirstFailure(oks[1..])
  }

  /** The progress store after one updateStudyProgress of `birdId`: when the put
      is accepted, the stored record (or a fresh one) counts one more study and
      is stamped now; every other record is kept. A rejected put changes nothing. */
  function AfterStudy(progress: map<string, ProgressRecord>, birdId: string, now: Timestamp, writeOk: bool)
    : (r: map<string, ProgressRecord>)
    ensures r.Keys == if writeOk then progress.Keys + {birdId} else progress.Keys
    ensures forall id :: id in progress && id != birdId ==> r[id] == progress[id]
    ensures writeOk ==> r[birdId].timesStudied == (if birdId in progress then progress[birdId].timesStudied else 0) + 1
    ensures writeOk ==> r[birdId].lastStudied == Some(now)
    ensures !writeOk ==> r == progress
  {
    if writeOk then
      progress[birdId := Studied(if birdId in progress then progress[birdId] else DefaultProgress(birdId), now)]
    else progress
  }

  /** The two IndexedDB object stores. */
  class Store {
    var progress: map<string, ProgressRecord>
    var settings: map<string, Value>

    /** Every stored record sits under its own `birdId` (the store's key path). */
    ghost predicate Valid()
      reads this
    {
      forall id :: id in progress ==> progress[id].birdId == id
    }

    constructor ()
      ensures Valid() && progress == map[] && settings == map[]
    {
      progress, settings := map[], map[];
    }

    /** getProgress: the stored record, or a default one that is not stored. */
    function GetProgress(birdId: string): (p: ProgressRecord)
      reads this
      ensures birdId in progress ==> p == progress[birdId]
      ensures birdId !in progress ==> p == DefaultProgress(birdId)
      ensures Valid() ==> p.birdId == birdId
    {
      if birdId in progress then progress[birdId] else DefaultProgress(birdId)
    }

    /** getAllProgress: every stored record once, in an order the model leaves open. */
    method GetAllProgress() returns (all: seq<ProgressRecord>)
      requires Valid()
      ensures |all| == |progress|
      ensures forall i :: 0 <= i < |all| ==> all[i].birdId in progress && progress[all[i].birdId] == all[i]
      ensures forall i, j :: 0 <= i < j < |all| ==> all[i].birdId != all[j].birdId
      ensures forall id :: id in progress ==> progress[id] in all
    {
      all := [];
      var remaining := progress.Keys;
      ghost var ids: seq<string> := [];
      while remaining != {}
        invariant remaining <= progress.Keys
        invariant forall id :: id in progress ==> (id in remaining <==> id !in ids)
        invariant |all| == |ids| && |ids| + |remaining| == |progress.Keys|
        invariant forall i :: 0 <= i < |ids| ==> ids[i] in progress && all[i] == progress[ids[i]]
        invariant forall i, j :: 0 <= i < j < |ids| ==> ids[i] != ids[j]
        decreases remaining
      {
        var id :| id in remaining;
        all := all + [progress[id]];
        ids := ids + [id];
        remaining := remaining - {id};
      }
      forall id | id in progress ensures progress[id] in all {
        var i :| 0 <= i < |ids| && ids[i] == id;
        assert all[i] == progress[id];
      }
    }

    /** saveProgress: a put keyed by the record's `birdId`; a later put overwrites. */
    method SaveProgress(p: ProgressRecord, writeOk: bool) returns (o: Outcome)
      requires Valid()
      modifies this
      ensures Valid()
      ensures o == (if writeOk then Done else Failed)
      ensures progress == if writeOk then old(progress)[p.birdId := p] else old(progress)
      ensures settings == old(settings)
    {
      if writeOk {
        progress := progress[p.birdId := p];
        o := Done;
      } else {
        o := Failed;
      }
    }

    /** updateStudyProgress: read, count one study, stamp it, put it back. */
    method UpdateStudyProgress(birdId: string, now: Timestamp, writeOk: bool) returns (p: ProgressRecord, o: Outcome)
      requires Valid()
      modifies this
      ensures Valid()
      ensures p == Studied(old(GetProgress(birdId)), now) && p.birdId == birdId
      ensures progress == AfterStudy(old(progress), birdId, now, writeOk)
      ensures o == (if writeOk then Done else Failed)
      ensures progress == if writeOk then old(progress)[birdId := p] else old(progress)
      ensures settings == old(settings)
    {
      p := GetProgress(birdId);
      p := p.(timesStudied := p.timesStudied + 1);
      p := p.(lastStudied := Some(now));
      o := SaveProgress(p, writeOk);
    }

    /** updateQuizProgress: read, count the answer, stamp it, apply the confidence
        rule, put it back. */
    method UpdateQuizProgress(birdId: string, correct: bool, now: Timestamp, writeOk: bool)
      returns (p: ProgressRecord, o: Outcome)
      requires Valid()
      modifies this
      ensures Valid()
      ensures p == Answered(old(GetProgress(birdId)), correct, now) && p.birdId == birdId
      ensures o == (if writeOk then Done else Failed)
      ensures progress == if writeOk then old(progress)[birdId := p] else old(progress)
      ensures settings == old(settings)
    {
      p := GetProgress(birdId);
      if correct {
        p := p.(timesCorrectQuiz := p.timesCorrectQuiz + 1);
      } else {
        p := p.(timesIncorrectQuiz := p.timesIncorrectQuiz + 1);
      }
      p := p.(lastStudied := Some(now));
      var total := p.timesCorrectQuiz + p.timesIncorrectQuiz;
      if total >= 3 {
        if 5 * p.timesCorrectQuiz >= 4 * total {
          p := p.(confidenceLevel := High);
        } else if 2 * p.timesCorrectQuiz >= total {
          p := p.(confidenceLevel := Medium);
        } else {
          p := p.(confidenceLevel := Low);
        }
      }
      o := SaveProgress(p, writeOk);
    }

    /** getSetting: the stored value (even a stored false or null), else the default. */
    function GetSetting(key: string, defaultValue: Value): (v: Value)
      reads this
      ensures key in settings ==> v == settings[key]
      ensures key !in settings ==> v == defaultValue
    {
      if key in settings then settings[key] else defaultValue
    }

    /** saveSetting: a put keyed by the setting's name. */
    method SaveSetting(key: string, value: Value, writeOk: bool) returns (o: Outcome)
      modifies this
      ensures o == (if writeOk then Done else Failed)
      ensures settings == if writeOk then old(settings)[key := value] else old(settings)
      ensures progress == old(progress)
    {
      if writeOk {
        settings := settings[key := value];
        o := Done;
      } else {
        o := Failed;
      }
    }

    /** getAllSettings: exactly the three known keys, each stored or defaulted. */
    method GetAllSettings() returns (r: map<string, Value>)
      ensures r.Keys == {THEME, SHOW_SCIENTIFIC, SORT_BY}
      ensures r[THEME] == (if THEME in settings then settings[THEME] else Str("light"))
      ensures r[SHOW_SCIENTIFIC] == (if SHOW_SCIENTIFIC in settings then settings[SHOW_SCIENTIFIC] else Bool(true))
      ensures r[SORT_BY] == (if SORT_BY in settings then settings[SORT_BY] else Str("frequency"))
    {
      r := map[];
      for i := 0 to |DEFAULT_SETTINGS|
        invariant r.Keys == Keys(DEFAULT_SETTINGS[..i])
        invariant forall j :: 0 <= j < i ==> r[DEFAULT_SETTINGS[j].0] == GetSetting(DEFAULT_SETTINGS[j].0, DEFAULT_SETTINGS[j].1)
      {
        var (key, defaultValue) := DEFAULT_SETTINGS[i];
        r := r[key := GetSetting(key, defaultValue)];
        assert Keys(DEFAULT_SETTINGS[..i + 1]) == Keys(DEFAULT_SETTINGS[..i]) + {key} by {
          assert DEFAULT_SETTINGS[..i + 1] == DEFAULT_SETTINGS[..i] + [DEFAULT_SETTINGS[i]];
        }
      }
      assert DEFAULT_SETTINGS[..3] == DEFAULT_SETTINGS;
      assert DEFAULT_SETTINGS[0].0 == THEME && DEFAULT_SETTINGS[1].0 == SHOW_SCIENTIFIC && DEFAULT_SETTINGS[2].0 == SORT_BY;
    }

    /** saveAllSettings: one put per entry, in order; the first rejected put ends
        the loop, so the entries before it are stored and none after it. */
    method SaveAllSettings(entries: seq<(string, Value)>, writeOk: seq<bool>) returns (o: Outcome)
      requires |writeOk| == |entries|
      modifies this
      ensures o == (if FirstFailure(writeOk) == |entries| then Done else Failed)
      ensures settings == PutAll(old(settings), entries[..FirstFailure(writeOk)])
      ensures progress == old(progress)
    {
      var i := 0;
      o := Done;
      while i < |entries|
        invariant 0 <= i <= FirstFailure(writeOk)
        invariant settings == PutAll(old(settings), entries[..i])
        invariant progress == old(progress)
        decreases |entries| - i
      {
        var (key, value) := entries[i];
        var put := SaveSetting(key, value, writeOk[i]);
        if put == Failed {
          return Failed;
        }
        PutAllSnoc(old(settings), entries[..i], entries[i]);
        assert entries[..i + 1] == entries[..i] + [entries[i]];
        i := i + 1;
      }
    }
  }

  /** Putting one more entry after a list of entries. */
  lemma {:induction false} PutAllSnoc(m: map<string, Value>, entries: seq<(string, Value)>, e: (string, Value))
    ensures PutAll(m, entries + [e]) == PutAll(m, entries)[e.0 := e.1]
    decreases |entries|
  {
    if entries == [] {
      assert [] + [e] == [e];
    } else {
      assert (entries + [e])[1..] == entries[1..] + [e];
      PutAllSnoc(m[entries[0].0 := entries[0].1], entries[1..], e);
    }
  }

}

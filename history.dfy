/**
 * The mood history page (components/HistoryPage.tsx): the five mood buttons,
 * the diary shown newest first, and logging a new mood through the store.
 */
module History {
  import opened Types
  import opened Text
  import opened MoodService

  /** How a mood level is shown: its emoji, its label (`name`) and its colour class. */
  datatype MoodOption = MoodOption(emoji: string, name: string, color: string)

  /** `moodOptions`: the presentation of each mood level; every level of the scale has one. */
  function MoodOptions(): (m: map<int, MoodOption>)
    ensures forall k :: k in m <==> 1 <= k <= 5
  {
    map[1 := MoodOption("😟", "Muito Ansioso", "bg-red-200"),
        2 := MoodOption("🙁", "Ansioso", "bg-orange-200"),
        3 := MoodOption("😐", "Neutro", "bg-yellow-200"),
        4 := MoodOption("🙂", "Calmo", "bg-green-200"),
        5 := MoodOption("😊", "Muito Calmo", "bg-teal-200")]
  }

  /** `moodOptions[entry.level]`: defined for every entry, whatever its level. */
  function OptionFor(level: MoodLevel): (o: MoodOption)
    ensures o in MoodOptions().Values
  {
    MoodOptions()[level]
  }

  /** Newest first: timestamps never increase along the list. */
  ghost predicate NewestFirst(s: seq<MoodEntry>)
  {
    forall i, j :: 0 <= i < j < |s| ==> s[i].timestamp >= s[j].timestamp
  }

  /** `e` placed into a newest-first list ahead of the first entry that is not newer. */
  function InsertByTime(e: MoodEntry, s: seq<MoodEntry>): (r: seq<MoodEntry>)
    ensures multiset(r) == multiset(s) + multiset{e}
    ensures r[0] == e || r[0] == s[0]
  {
    if s == [] || s[0].timestamp <= e.timestamp then [e] + s
    else
      assert s == [s[0]] + s[1..];
      [s[0]] + InsertByTime(e, s[1..])
  }

  /** Inserting keeps a list newest first. */
  lemma {:induction false} InsertKeepsOrder(e: MoodEntry, s: seq<MoodEntry>)
    requires NewestFirst(s)
    ensures NewestFirst(InsertByTime(e, s))
  {
    if s != [] && s[0].timestamp > e.timestamp {
      var tail := s[1..];
      assert NewestFirst(tail) by {
        forall i, j | 0 <= i < j < |tail| ensures tail[i].timestamp >= tail[j].timestamp {
          assert tail[i] == s[i + 1] && tail[j] == s[j + 1];
        }
      }
      InsertKeepsOrder(e, tail);
      var rest := InsertByTime(e, tail);
      assert rest[0].timestamp <= s[0].timestamp by {
        if rest[0] != e {
          assert rest[0] == s[1];
        }
      }
      var r := InsertByTime(e, s);
      assert r == [s[0]] + rest;
      forall i, j | 0 <= i < j < |r| ensures r[i].timestamp >= r[j].timestamp {
        assert r[j] == rest[j - 1];
        if i > 0 {
          assert r[i] == rest[i - 1];
        } else if j > 1 {
          assert rest[0].timestamp >= rest[j - 1].timestamp;
        }
      }
    }
  }

  /**
   * `sortedEntries`: a copy of the diary in order of
   * `(a, b) => b.timestamp - a.timestamp`, newest first. It holds exactly the
   * diary's entries, as often as the diary holds them.
   */
  function SortedEntries(s: seq<MoodEntry>): (r: seq<MoodEntry>)
    ensures multiset(r) == multiset(s)
    ensures NewestFirst(r)
  {
    if s == [] then []
    else
      assert s == [s[0]] + s[1..];
      InsertKeepsOrder(s[0], SortedEntries(s[1..]));
      InsertByTime(s[0], SortedEntries(s[1..]))
  }

  /** The entries stamped `t`, in their order in `s`. */
  function WithStamp(s: seq<MoodEntry>, t: int): seq<MoodEntry>
  {
    if s == [] then [] else (if s[0].timestamp == t then [s[0]] else []) + WithStamp(s[1..], t)
  }

  /** `WithStamp` of a list with a given head. */
  lemma WithStampCons(x: MoodEntry, s: seq<MoodEntry>, t: int)
    ensures WithStamp([x] + s, t) == (if x.timestamp == t then [x] else []) + WithStamp(s, t)
  {
    assert ([x] + s)[1..] == s;
  }

  /** Insertion puts `e` ahead of every entry with its timestamp, and moves no other entry past another. */
  lemma {:induction false} InsertWithStamp(e: MoodEntry, s: seq<MoodEntry>, t: int)
    ensures WithStamp(InsertByTime(e, s), t) == (if e.timestamp == t then [e] else []) + WithStamp(s, t)
  {
    if s == [] || s[0].timestamp <= e.timestamp {
      WithStampCons(e, s, t);
    } else {
      var rest := InsertByTime(e, s[1..]);
      assert InsertByTime(e, s) == [s[0]] + rest;
      WithStampCons(s[0], rest, t);
      InsertWithStamp(e, s[1..], t);
      WithStampCons(s[0], s[1..], t);
      assert s == [s[0]] + s[1..];
    }
  }

  /**
   * The sort is stable, as `Array.prototype.sort` is since ES2019: entries
   * with the same timestamp keep the order the diary has them in.
   */
  lemma {:induction false} SortIsStable(s: seq<MoodEntry>, t: int)
    ensures WithStamp(SortedEntries(s), t) == WithStamp(s, t)
  {
    if s != [] {
      SortIsStable(s[1..], t);
      InsertWithStamp(s[0], SortedEntries(s[1..]), t);
    }
  }

  /** The id `handleLogMood` gives an entry logged at `now`. */
  function MoodId(now: nat): (r: string)
    ensures |r| > 5 && r[..5] == "mood-"
    ensures IsDigits(r[5..]) && DecimalValue(r[5..]) == now
  {
    NatToStringRoundTrip(now);
    assert ("mood-" + NatToString(now))[5..] == NatToString(now);
    "mood-" + NatToString(now)
  }

  /** The history page of one user, over the shared mood store. */
  class HistoryPage {
    const currentUser: string
    const store: MoodStore
    var moodEntries: seq<MoodEntry>
    var showConfirmation: bool

    /** Mounting the page: the `useEffect` loads the user's diary. */
    constructor(user: string, s: MoodStore)
      ensures currentUser == user && store == s
      ensures moodEntries == Load(s.data, user) && !showConfirmation
    {
      var loaded := s.LoadMoods(user);
      currentUser := user;
      store := s;
      moodEntries := loaded;
      showConfirmation := false;
    }

    /**
     * `handleLogMood(level)`: `idTime` and `stamp` are the two readings of
     * the clock, and `writeFails` says whether the store's write throws.
     * The page shows what the store returns and raises the confirmation.
     */
    method LogMood(level: MoodLevel, idTime: nat, stamp: int, writeFails: bool)
      modifies this, store
      ensures var o := Save(old(store.data), currentUser, MoodEntry(MoodId(idTime), level, stamp), writeFails);
        store.data == o.data && moodEntries == o.entries
      ensures moodEntries[0] == MoodEntry(MoodId(idTime), level, stamp)
      ensures showConfirmation
    {
      var entry := MoodEntry(MoodId(idTime), level, stamp);
      var updated := store.SaveMood(currentUser, entry, writeFails);
      moodEntries := updated;
      showConfirmation := true;
    }

    /** The list the page renders. */
    function Shown(): (r: seq<MoodEntry>)
      reads this
      ensures multiset(r) == multiset(moodEntries) && NewestFirst(r)
    {
      SortedEntries(moodEntries)
    }
  }

  /** Every diary entry is rendered, and nothing else is. */
  lemma ShownIsDiaryReordered(p: HistoryPage)
    ensures forall e :: e in p.Shown() <==> e in p.moodEntries
  {
    var r := p.Shown();
    forall e ensures e in r <==> e in p.moodEntries {
      assert e in r <==> e in multiset(r);
      assert e in p.moodEntries <==> e in multiset(p.moodEntries);
    }
  }
}

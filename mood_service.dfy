/**
 * The mood diary store (services/moodService.ts): one list of entries per
 * user, newest first, kept under one storage key, and the two operations
 * that read and extend it.
 */
module MoodService {
  import opened Types

  /**
   * What the storage key holds, as `JSON.parse` sees it: a map from user to
   * that user's list, or text that does not parse. An absent key reads as
   * `'{}'`, which is `Moods(map[])`.
   */
  datatype MoodData = Moods(all: map<string, seq<MoodEntry>>) | Unparsable

  /** What `saveMood` leaves in storage and what it returns. */
  datatype SaveOutcome = SaveOutcome(data: MoodData, entries: seq<MoodEntry>)

  /** `loadMoods`: the user's list, or the empty list when there is none or storage does not parse. */
  function Load(d: MoodData, user: string): (r: seq<MoodEntry>)
    ensures d.Moods? && user in d.all ==> r == d.all[user]
    ensures d.Unparsable? || user !in d.all ==> r == []
  {
    match d
    case Unparsable => []
    case Moods(all) => if user in all then all[user] else []
  }

  /**
   * `saveMood`: the new entry goes in front of the user's list. Storage is
   * rewritten only when it parsed and the write went through; otherwise the
   * `catch` branch answers with the entry in front of whatever `loadMoods`
   * still finds.
   */
  function Save(d: MoodData, user: string, entry: MoodEntry, writeFails: bool): (o: SaveOutcome)
    ensures o.entries == [entry] + Load(d, user)
    ensures |o.entries| == |Load(d, user)| + 1 && o.entries[0] == entry
    ensures d.Moods? && !writeFails ==> o.data == Moods(d.all[user := o.entries])
    ensures d.Unparsable? || writeFails ==> o.data == d
    ensures d.Moods? && !writeFails ==> Load(o.data, user) == o.entries
    ensures forall other :: other != user ==> Load(o.data, other) == Load(d, other)
  {
    var updated := [entry] + Load(d, user);
    if d.Moods? && !writeFails then SaveOutcome(Moods(d.all[user := updated]), updated)
    else SaveOutcome(d, updated)
  }

  /** There is no deduplication: saving the same entry twice stores two more copies of it. */
  lemma SaveTwiceKeepsBoth(d: MoodData, user: string, entry: MoodEntry)
    requires d.Moods?
    ensures var once := Save(d, user, entry, false).data;
      var twice := Save(once, user, entry, false).data;
      && Load(twice, user) == [entry, entry] + Load(d, user)
      && multiset(Load(twice, user))[entry] == multiset(Load(d, user))[entry] + 2
  {
    var once := Save(d, user, entry, false).data;
    var twice := Save(once, user, entry, false).data;
    assert Load(twice, user) == [entry] + ([entry] + Load(d, user));
    assert [entry] + ([entry] + Load(d, user)) == [entry, entry] + Load(d, user);
  }

  /** The storage behind the service: the value under the one key. */
  class MoodStore {
    var data: MoodData

    constructor(initial: MoodData)
      ensures data == initial
    {
      data := initial;
    }

    /** `loadMoods(currentUser)`, step by step; `Load` is what it computes. */
    method LoadMoods(user: string) returns (entries: seq<MoodEntry>)
      ensures entries == Load(data, user)
    {
      match data
      case Unparsable =>
        entries := [];
      case Moods(all) =>
        entries := if user in all then all[user] else [];
    }

    /**
     * `saveMood(currentUser, newEntry)`, step by step, with the `catch`
     * falling back to `LoadMoods`; `Save` is what it computes. `writeFails`
     * says whether `setItem` throws (a full quota, say).
     */
    method SaveMood(user: string, entry: MoodEntry, writeFails: bool) returns (entries: seq<MoodEntry>)
      modifies this
      ensures var o := Save(old(data), user, entry, writeFails);
        data == o.data && entries == o.entries
    {
      if data.Moods? {
        var all := data.all;
        var userMoods := if user in all then all[user] else [];
        var updated := [entry] + userMoods;
        if !writeFails {
          data := Moods(all[user := updated]);
          return updated;
        }
      }
      var current := LoadMoods(user);
      entries := [entry] + current;
    }
  }
}

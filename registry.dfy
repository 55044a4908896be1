/**
 * The stone registry: the `stones` and `stone_history` tables of
 * `src/database/models.py` and the two writes the bot performs on them,
 * `register_stone` and `add_to_history` (`src/bot/handlers.py`).
 *
 * Ids are assigned from an auto-increment counter per table and `created_at`
 * is the clock reading passed in as `now`. `commits` counts the committed
 * transactions, so that "exactly one write" can be stated.
 */
module Registry {
  import opened Common

  /** A row of `stones`. */
  datatype Stone = Stone(
    id: int,
    name: string,
    description: Option<string>,
    photoFileId: string,
    embedding: Option<Vector>,
    registeredBy: int,
    createdAt: int)

  /** A row of `stone_history`: one sighting of a stone. */
  datatype StoneHistory = StoneHistory(
    id: int,
    stoneId: int,
    telegramUserId: int,
    photoFileId: string,
    latitude: Option<real>,
    longitude: Option<real>,
    zipCode: Option<string>,
    createdAt: int)

  /** `Stone.history`: the sightings of one stone. */
  function HistoryFor(history: seq<StoneHistory>, stoneId: int): (r: seq<StoneHistory>)
    ensures |r| <= |history|
    ensures forall h {:trigger h in r} :: h in r <==> h in history && h.stoneId == stoneId
  {
    Filter(history, (h: StoneHistory) => h.stoneId == stoneId)
  }

  /** The first stone with the given id. */
  function FindById(stones: seq<Stone>, id: int): (r: Option<Stone>)
    ensures r.Some? ==> r.value in stones && r.value.id == id
    ensures r.None? ==> forall s :: s in stones ==> s.id != id
  {
    if stones == [] then None
    else if stones[0].id == id then Some(stones[0])
    else FindById(stones[1..], id)
  }

  /** Lemma: a registration adds exactly its own entry to the new stone's history. */
  lemma {:induction false} HistoryForAppend(history: seq<StoneHistory>, entry: StoneHistory, stoneId: int)
    ensures HistoryFor(history + [entry], stoneId)
         == HistoryFor(history, stoneId) + (if entry.stoneId == stoneId then [entry] else [])
  {
    FilterAppend(history, [entry], (h: StoneHistory) => h.stoneId == stoneId);
    assert [entry][1..] == [];
  }

  /** The two tables with their id counters. */
  class Database {
    var stones: seq<Stone>
    var history: seq<StoneHistory>
    var nextStoneId: int
    var nextHistoryId: int
    var commits: nat

    function StoneIds(): set<int>
      reads this
    {
      set s | s in stones :: s.id
    }

    function HistoryStoneIds(): set<int>
      reads this
    {
      set h | h in history :: h.stoneId
    }

    /**
     * Ids are positive, increasing and below the counters; every history row
     * references an existing stone (the foreign key) and every stone has at
     * least one history row.
     */
    ghost predicate Valid()
      reads this
    {
      Consistent(stones, history, nextStoneId, nextHistoryId)
    }

    /** `Valid` on the values of the four fields. */
    static ghost predicate Consistent(stones: seq<Stone>, history: seq<StoneHistory>, nextStoneId: int, nextHistoryId: int) {
      && 1 <= nextStoneId && 1 <= nextHistoryId
      && (forall i :: 0 <= i < |stones| ==> 1 <= stones[i].id < nextStoneId)
      && (forall i, j :: 0 <= i < j < |stones| ==> stones[i].id < stones[j].id)
      && (forall i :: 0 <= i < |history| ==> 1 <= history[i].id < nextHistoryId)
      && (forall i, j :: 0 <= i < j < |history| ==> history[i].id < history[j].id)
      && (set h | h in history :: h.stoneId) <= (set s | s in stones :: s.id)
      && (set s | s in stones :: s.id) <= (set h | h in history :: h.stoneId)
    }

    constructor ()
      ensures Valid()
      ensures stones == [] && history == [] && commits == 0
    {
      stones := [];
      history := [];
      nextStoneId := 1;
      nextHistoryId := 1;
      commits := 0;
    }

    /** Lemma: in a valid registry every stone has a sighting. */
    lemma EveryStoneHasHistory(s: Stone)
      requires Valid() && s in stones
      ensures HistoryFor(history, s.id) != []
    {
      assert s.id in StoneIds();
      var h :| h in history && h.stoneId == s.id;
      assert h in HistoryFor(history, s.id);
    }

    /** Lemma: appending a stone adds its id to the ids of a stone sequence. */
    static lemma IdsAppend(ss: seq<Stone>, stone: Stone)
      ensures (set s | s in ss + [stone] :: s.id) == (set s | s in ss :: s.id) + {stone.id}
    {
      assert forall s :: s in ss + [stone] <==> s in ss || s == stone;
    }

    /** Lemma: appending a history entry adds its stone id to the referenced ids. */
    static lemma RefsAppend(hs: seq<StoneHistory>, entry: StoneHistory)
      ensures (set h | h in hs + [entry] :: h.stoneId) == (set h | h in hs :: h.stoneId) + {entry.stoneId}
    {
      assert forall h :: h in hs + [entry] <==> h in hs || h == entry;
    }

    /** Lemma: a new stone with the next id and its first entry with the next id keep the tables consistent. */
    static lemma RegisterKeepsConsistent(stones: seq<Stone>, history: seq<StoneHistory>, nextStoneId: int, nextHistoryId: int,
                                         stone: Stone, entry: StoneHistory)
      requires Consistent(stones, history, nextStoneId, nextHistoryId)
      requires stone.id == nextStoneId && entry.id == nextHistoryId && entry.stoneId == nextStoneId
      ensures Consistent(stones + [stone], history + [entry], nextStoneId + 1, nextHistoryId + 1)
    {
      IdsAppend(stones, stone);
      RefsAppend(history, entry);
    }

    /**
     * `register_stone`: one transaction that inserts the stone and its first
     * history row, which references the new id and carries the same user
     * and photo.
     */
    method RegisterStone(name: string, description: Option<string>, photoFileId: string,
                         embedding: Vector, userId: int,
                         latitude: Option<real>, longitude: Option<real>, zipCode: Option<string>,
                         now: int)
      returns (stoneId: int)
      requires Valid()
      modifies this
      ensures Valid()
      ensures stoneId == old(nextStoneId) && stoneId !in old(StoneIds())
      ensures stones == old(stones) + [Stone(stoneId, name, description, photoFileId, Some(embedding), userId, now)]
      ensures history == old(history)
                         + [StoneHistory(old(nextHistoryId), stoneId, userId, photoFileId, latitude, longitude, zipCode, now)]
      ensures nextStoneId == old(nextStoneId) + 1 && nextHistoryId == old(nextHistoryId) + 1
      ensures commits == old(commits) + 1
    {
      stoneId := nextStoneId;
      var stone := Stone(stoneId, name, description, photoFileId, Some(embedding), userId, now);
      var entry := StoneHistory(nextHistoryId, stoneId, userId, photoFileId, latitude, longitude, zipCode, now);
      RegisterKeepsConsistent(stones, history, nextStoneId, nextHistoryId, stone, entry);
      stones := stones + [stone];
      history := history + [entry];
      nextStoneId := nextStoneId + 1;
      nextHistoryId := nextHistoryId + 1;
      commits := commits + 1;
    }

    /**
     * `add_to_history`: one transaction inserting a history row; the
     * foreign key rejects a stone id that does not exist, and then nothing
     * is written.
     */
    method AddToHistory(stoneId: int, userId: int, photoFileId: string,
                        latitude: Option<real>, longitude: Option<real>, zipCode: Option<string>,
                        now: int)
      returns (ok: bool)
      requires Valid()
      modifies this
      ensures Valid()
      ensures ok <==> stoneId in old(StoneIds())
      ensures stones == old(stones) && nextStoneId == old(nextStoneId)
      ensures ok ==> history == old(history)
                               + [StoneHistory(old(nextHistoryId), stoneId, userId, photoFileId, latitude, longitude, zipCode, now)]
      ensures ok ==> nextHistoryId == old(nextHistoryId) + 1 && commits == old(commits) + 1
      ensures !ok ==> unchanged(this)
    {
      ok := stoneId in StoneIds();
      if ok {
        history := history + [StoneHistory(nextHistoryId, stoneId, userId, photoFileId, latitude, longitude, zipCode, now)];
        nextHistoryId := nextHistoryId + 1;
        commits := commits + 1;
      }
    }
  }
}

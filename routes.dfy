/**
 * The web map's JSON endpoints (`src/web/routes.py`): the chronological
 * points of one stone, and the list of all stones with their history count
 * and latest location. Both read the registry; a history entry counts as
 * located only when both coordinates are truthy, so 0.0 counts as missing.
 */
module Routes {
  import opened Common
  import opened Registry
  import opened Sorting

  /** Python truthiness of an optional float: None and 0.0 are false. */
  predicate Truthy(x: Option<real>) {
    x.Some? && x.value != 0.0
  }

  /** `h.latitude and h.longitude`. */
  predicate Located(h: StoneHistory) {
    Truthy(h.latitude) && Truthy(h.longitude)
  }

  function CreatedAt(h: StoneHistory): int { h.createdAt }

  /** The key of `sorted(..., key=created_at, reverse=True)`, as an ascending key. */
  function NewestFirst(h: StoneHistory): int { -h.createdAt }

  /** A point of the map: coordinates, date and postal code of one located entry. */
  datatype MapPoint = MapPoint(lat: real, lon: real, date: int, zipCode: Option<string>)

  /** The `stone` part of the response. */
  datatype StoneInfo = StoneInfo(id: int, name: string, description: Option<string>)

  /** The response of `get_stone_map_data`. */
  datatype MapData = MapData(stone: StoneInfo, points: seq<MapPoint>)

  function PointOf(h: StoneHistory): (p: MapPoint)
    requires Located(h)
    ensures p.lat == h.latitude.value && p.lon == h.longitude.value
    ensures p.date == h.createdAt && p.zipCode == h.zipCode
  {
    MapPoint(h.latitude.value, h.longitude.value, h.createdAt, h.zipCode)
  }

  /** One point per entry of an all-located sequence, in the same order. */
  function PointsOf(hs: seq<StoneHistory>): (r: seq<MapPoint>)
    requires forall h :: h in hs ==> Located(h)
    ensures |r| == |hs| && forall k :: 0 <= k < |hs| ==> r[k] == PointOf(hs[k])
  {
    seq(|hs|, k requires 0 <= k < |hs| => PointOf(hs[k]))
  }

  /** Lemma: one more entry adds its point exactly when it is located. */
  lemma PointsOfStep(hs: seq<StoneHistory>, h: StoneHistory)
    ensures PointsOf(Filter(hs + [h], Located))
         == PointsOf(Filter(hs, Located)) + (if Located(h) then [PointOf(h)] else [])
  {
    FilterAppend(hs, [h], Located);
    FilterSingleton(h, Located);
    var front := Filter(hs, Located);
    if Located(h) {
      var whole, parts := PointsOf(front + [h]), PointsOf(front) + [PointOf(h)];
      assert |whole| == |parts|;
      forall k | 0 <= k < |whole| ensures whole[k] == parts[k] {
        if k < |front| {
          assert (front + [h])[k] == front[k];
        }
      }
    } else {
      assert front + [] == front;
    }
  }

  /** The map points of a history: its located entries, oldest first. */
  function MapPoints(history: seq<StoneHistory>): seq<MapPoint>
  {
    PointsOf(Filter(SortBy(history, CreatedAt), Located))
  }

  /** Lemma: filtering keeps a sequence sorted. */
  lemma {:induction false} FilterSorted<T(!new)>(s: seq<T>, key: T -> int, p: T -> bool)
    requires SortedBy(s, key)
    ensures SortedBy(Filter(s, p), key)
  {
    if s != [] {
      assert SortedBy(s[1..], key);
      FilterSorted(s[1..], key, p);
      var rest := Filter(s[1..], p);
      assert forall x :: x in rest ==> key(s[0]) <= key(x) by {
        forall x | x in rest ensures key(s[0]) <= key(x) {
          var j :| 0 <= j < |s[1..]| && s[1..][j] == x;
          assert s[j + 1] == x;
        }
      }
    }
  }

  /**
   * Lemma: the map points are in ascending date order, each has truthy
   * coordinates, and each copies a located entry of the stone's history.
   */
  lemma MapPointsChronological(history: seq<StoneHistory>)
    ensures var pts := MapPoints(history);
            && (forall i, j :: 0 <= i < j < |pts| ==> pts[i].date <= pts[j].date)
            && (forall i :: 0 <= i < |pts| ==> pts[i].lat != 0.0 && pts[i].lon != 0.0)
            && |pts| <= |history|
            && (forall p :: p in pts ==> exists h :: h in history && Located(h) && p == PointOf(h))
  {
    var sorted := SortBy(history, CreatedAt);
    FilterSorted(sorted, CreatedAt, Located);
    var located := Filter(sorted, Located);
    assert forall i :: 0 <= i < |located| ==> Located(located[i]);
    MapPointsFromHistory(history);
  }

  /** Lemma: each map point is the point of a located entry of the history. */
  lemma MapPointsFromHistory(history: seq<StoneHistory>)
    ensures forall p :: p in MapPoints(history) ==> exists h :: h in history && Located(h) && p == PointOf(h)
  {
    var sorted := SortBy(history, CreatedAt);
    SortByMembers(history, CreatedAt);
    var located := Filter(sorted, Located);
    var pts := MapPoints(history);
    forall p | p in pts
      ensures exists h :: h in history && Located(h) && p == PointOf(h)
    {
      var i :| 0 <= i < |pts| && pts[i] == p;
      assert located[i] in located;
      assert located[i] in history && Located(located[i]) && p == PointOf(located[i]);
    }
  }

  /**
   * `get_stone_map_data`: None (the 404 response) when no stone has the id;
   * otherwise the stone's fields and the points of its history, built by
   * walking the history in ascending `created_at` order.
   */
  method GetStoneMapData(db: Database, stoneId: int) returns (r: Option<MapData>)
    ensures r.None? <==> FindById(db.stones, stoneId).None?
    ensures r.Some? ==>
              var stone := FindById(db.stones, stoneId).value;
              && r.value.stone == StoneInfo(stone.id, stone.name, stone.description)
              && r.value.points == MapPoints(HistoryFor(db.history, stoneId))
  {
    var found := FindById(db.stones, stoneId);
    if found.None? {
      return None;
    }
    var stone := found.value;
    var sorted := SortBy(HistoryFor(db.history, stoneId), CreatedAt);
    var points: seq<MapPoint> := [];
    var i := 0;
    while i < |sorted|
      invariant 0 <= i <= |sorted|
      invariant points == PointsOf(Filter(sorted[..i], Located))
    {
      var h := sorted[i];
      assert sorted[..i + 1] == sorted[..i] + [h];
      PointsOfStep(sorted[..i], h);
      if Located(h) {
        points := points + [PointOf(h)];
      }
      i := i + 1;
    }
    assert sorted[..i] == sorted;
    return Some(MapData(StoneInfo(stone.id, stone.name, stone.description), points));
  }

  /** The `latest_location` of the response. */
  datatype LatLon = LatLon(lat: real, lon: real)

  /** One element of `get_all_stones`'s list. */
  datatype StoneSummary = StoneSummary(id: int, name: string, historyCount: nat, latestLocation: Option<LatLon>)

  /** The first located entry of a sequence. */
  function FirstLocated(hs: seq<StoneHistory>): (r: Option<nat>)
    ensures r.Some? ==> r.value < |hs| && Located(hs[r.value])
                        && forall k :: 0 <= k < r.value ==> !Located(hs[k])
    ensures r.None? ==> forall k :: 0 <= k < |hs| ==> !Located(hs[k])
  {
    if hs == [] then None
    else if Located(hs[0]) then Some(0)
    else match FirstLocated(hs[1..])
      case None => None
      case Some(k) => Some(k + 1)
  }

  /** The latest location of a history: the first located entry, newest first. */
  function LatestLocation(history: seq<StoneHistory>): Option<LatLon>
  {
    var sorted := SortBy(history, NewestFirst);
    match FirstLocated(sorted)
    case None => None
    case Some(k) => Some(LatLon(sorted[k].latitude.value, sorted[k].longitude.value))
  }

  /** The summary of a stone with the given history. */
  function Summary(stone: Stone, history: seq<StoneHistory>): StoneSummary
  {
    StoneSummary(stone.id, stone.name, |history|, LatestLocation(history))
  }

  /**
   * Lemma: the latest location is None exactly when no entry is located;
   * otherwise it is the position of a located entry no older than any other
   * located entry.
   */
  lemma LatestIsNewest(history: seq<StoneHistory>)
    ensures LatestLocation(history).None? <==> forall h :: h in history ==> !Located(h)
    ensures LatestLocation(history).Some? ==>
              exists h :: h in history && Located(h)
                && LatestLocation(history).value == LatLon(h.latitude.value, h.longitude.value)
                && forall g :: g in history && Located(g) ==> g.createdAt <= h.createdAt
  {
    var sorted := SortBy(history, NewestFirst);
    SortByMembers(history, NewestFirst);
    match FirstLocated(sorted)
    case None =>
      forall h | h in history ensures !Located(h) {
        var j :| 0 <= j < |sorted| && sorted[j] == h;
      }
    case Some(k) =>
      NewestLocated(sorted, k);
      assert sorted[k] in history;
  }

  /** Lemma: in a newest-first sequence, the first located entry is no older than any located entry. */
  lemma NewestLocated(sorted: seq<StoneHistory>, k: nat)
    requires SortedBy(sorted, NewestFirst) && FirstLocated(sorted) == Some(k)
    ensures forall g :: g in sorted && Located(g) ==> g.createdAt <= sorted[k].createdAt
  {
    forall g | g in sorted && Located(g) ensures g.createdAt <= sorted[k].createdAt {
      var j :| 0 <= j < |sorted| && sorted[j] == g;
      assert k <= j;
      assert NewestFirst(sorted[k]) <= NewestFirst(sorted[j]);
    }
  }

  /**
   * The inner loop of `get_all_stones`: walk the history newest first and
   * stop at the first entry with truthy coordinates.
   */
  method FindLatest(entries: seq<StoneHistory>) returns (latest: Option<LatLon>)
    ensures latest == LatestLocation(entries)
  {
    var sorted := SortBy(entries, NewestFirst);
    var j := 0;
    while j < |sorted|
      invariant 0 <= j <= |sorted|
      invariant forall k :: 0 <= k < j ==> !Located(sorted[k])
    {
      if Located(sorted[j]) {
        FirstLocatedAt(sorted, j);
        return Some(LatLon(sorted[j].latitude.value, sorted[j].longitude.value));
      }
      j := j + 1;
    }
    return None;
  }

  /** Lemma: a located entry preceded only by unlocated ones is the first located entry. */
  lemma {:induction false} FirstLocatedAt(hs: seq<StoneHistory>, j: nat)
    requires j < |hs| && Located(hs[j])
    requires forall k :: 0 <= k < j ==> !Located(hs[k])
    ensures FirstLocated(hs) == Some(j)
  {
    if j > 0 {
      FirstLocatedAt(hs[1..], j - 1);
    }
  }

  /** One more summary, for the stone at position `i`, extends the summaries of the stones before it. */
  lemma AppendSummary(r: seq<StoneSummary>, summary: StoneSummary, stones: seq<Stone>, history: seq<StoneHistory>, i: nat)
    requires i < |stones| && |r| == i
    requires forall k :: 0 <= k < i ==> r[k] == Summary(stones[k], HistoryFor(history, stones[k].id))
    requires summary == Summary(stones[i], HistoryFor(history, stones[i].id))
    ensures forall k :: 0 <= k < i + 1 ==> (r + [summary])[k] == Summary(stones[k], HistoryFor(history, stones[k].id))
  {
    forall k | 0 <= k < i + 1
      ensures (r + [summary])[k] == Summary(stones[k], HistoryFor(history, stones[k].id))
    {
      if k < i {
        assert (r + [summary])[k] == r[k];
      } else {
        assert (r + [summary])[k] == summary;
      }
    }
  }

  /**
   * `get_all_stones`: one summary per stone, in registry order, with the
   * number of all its history entries and its latest location.
   */
  method GetAllStones(db: Database) returns (r: seq<StoneSummary>)
    ensures |r| == |db.stones|
    ensures forall i :: 0 <= i < |r| ==> r[i] == Summary(db.stones[i], HistoryFor(db.history, db.stones[i].id))
  {
    var stones := db.stones;
    var history := db.history;
    r := [];
    for i := 0 to |stones|
      invariant |r| == i
      invariant forall k :: 0 <= k < i ==> r[k] == Summary(stones[k], HistoryFor(history, stones[k].id))
    {
      var entries := HistoryFor(history, stones[i].id);
      var location := FindLatest(entries);
      var summary := StoneSummary(stones[i].id, stones[i].name, |entries|, location);
      assert summary == Summary(stones[i], entries);
      AppendSummary(r, summary, stones, history, i);
      r := r + [summary];
    }
  }
}

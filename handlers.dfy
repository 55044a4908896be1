/**
 * The intake conversation of the bot (`src/bot/handlers.py`): a photo is
 * recognised and either matched to a registered stone or starts a
 * registration that asks for a name, a description and a location; every
 * accepted location answer ends the conversation with exactly one registry
 * write. Replies and keyboards are not modelled; the handlers' results are
 * the next state, the session data (`context.user_data`) and the registry.
 */
module Handlers {
  import opened Common
  import opened PyStr
  import opened Translations
  import opened Registry
  import opened Vision

  /** The conversation states; `End` is `ConversationHandler.END`, the others are 1, 2 and 3. */
  datatype State = End | WaitingName | WaitingDescription | WaitingLocation

  /** The least similarity at which a photo is taken for a registered stone. */
  const SimilarityThreshold: real := 0.82

  /** What reverse geocoding returns: postal code, city and country, each possibly missing. */
  datatype GeoData = GeoData(zipCode: Option<string>, city: Option<string>, country: Option<string>)

  /** A value stored in the session data. */
  datatype Value =
    | Null
    | Str(s: string)
    | Real(x: real)
    | Vec(v: Vector)
    | Blob(b: Bytes)
    | Int(i: int)
    | StoneRef(stone: Stone)
    | Geo(geo: GeoData)

  /**
   * The keys the handlers store in `context.user_data`: `photo_file_id`,
   * `embedding`, `thumbnail_bytes`, `latitude`, `longitude`, `zip_code`,
   * `location`, `found_stone_id`, `existing_stone`, `name`, `description`.
   */
  datatype Key =
    | PhotoFileId | Embedding | ThumbnailBytes | Latitude | Longitude | ZipCode
    | Place | FoundStoneId | ExistingStone | Name | Description

  /** `context.user_data`. */
  type UserData = map<Key, Value>

  /**
   * An update as the conversation sees it: a photo (file id and downloaded
   * bytes), a text message that is not a command, a shared location, or a
   * command such as `/cancel`.
   */
  datatype Event = Photo(fileId: string, image: Bytes) | Text(text: string) | Location(lat: real, lon: real) | Command(name: string)

  /**
   * The services outside the bot: the recognition service, the database's
   * cosine distance, and the two geocoding requests (which report any
   * failure as None).
   */
  datatype Services = Services(
    clip: ClipService,
    distance: (Vector, Vector) -> real,
    reverseGeocode: (real, real) -> Option<GeoData>,
    zipToCoords: string -> Option<(real, real)>)

  function OptStr(o: Option<string>): Value {
    match o
    case None => Null
    case Some(s) => Str(s)
  }

  function OptReal(o: Option<real>): Value {
    match o
    case None => Null
    case Some(x) => Real(x)
  }

  /** `data.get(key)` for a number that may be None or missing. */
  function GetOptReal(data: UserData, key: Key): Option<real> {
    if key in data && data[key].Real? then Some(data[key].x) else None
  }

  /** `data.get(key)` for a text that may be None or missing. */
  function GetOptStr(data: UserData, key: Key): Option<string> {
    if key in data && data[key].Str? then Some(data[key].s) else None
  }

  // ---------------------------------------------------------------------
  // find_similar_stone
  // ---------------------------------------------------------------------

  predicate HasEmbedding(s: Stone) {
    s.embedding.Some?
  }

  /** `select(Stone).where(Stone.embedding.isnot(None))`. */
  function Candidates(stones: seq<Stone>): (r: seq<Stone>)
    ensures forall s :: s in r <==> s in stones && s.embedding.Some?
  {
    Filter(stones, HasEmbedding)
  }

  /** `1 - cosine_distance`: the similarity of a registered stone to a new embedding. */
  function Similarity(stone: Stone, embedding: Vector, distance: (Vector, Vector) -> real): real
    requires stone.embedding.Some?
  {
    1.0 - distance(stone.embedding.value, embedding)
  }

  /** The similarities of the candidates, in query order. */
  function MatchScores(cands: seq<Stone>, embedding: Vector, distance: (Vector, Vector) -> real): (r: seq<real>)
    requires forall s :: s in cands ==> s.embedding.Some?
    ensures |r| == |cands|
    ensures forall i :: 0 <= i < |cands| ==> r[i] == Similarity(cands[i], embedding, distance)
  {
    seq(|cands|, i requires 0 <= i < |cands| => Similarity(cands[i], embedding, distance))
  }

  /** The position of the first maximum of a non-empty sequence. */
  function FirstMaxIndex(s: seq<real>): (i: nat)
    requires |s| > 0
    ensures i < |s|
    ensures forall j :: 0 <= j < |s| ==> s[j] <= s[i]
    ensures forall j :: 0 <= j < i ==> s[j] < s[i]
  {
    if |s| == 1 then 0
    else
      var k := FirstMaxIndex(s[..|s| - 1]);
      if s[|s| - 1] > s[k] then |s| - 1 else k
  }

  /** Lemma: one more element moves the first maximum to it exactly when it is strictly greater. */
  lemma FirstMaxExtend(s: seq<real>, i: nat)
    requires 0 < i < |s|
    ensures var k := FirstMaxIndex(s[..i]);
            FirstMaxIndex(s[..i + 1]) == if s[i] > s[k] then i else k
  {
    assert s[..i + 1][..i] == s[..i];
  }

  /**
   * The stone a new embedding is taken for: the first candidate of maximal
   * similarity, when that similarity reaches the threshold; no stone when
   * there is no candidate or the best is below the threshold.
   */
  function BestMatch(stones: seq<Stone>, embedding: Vector, distance: (Vector, Vector) -> real): (r: Option<Stone>)
    ensures r.Some? ==>
              && r.value in stones && r.value.embedding.Some?
              && Similarity(r.value, embedding, distance) >= SimilarityThreshold
              && forall s :: s in stones && s.embedding.Some? ==>
                   Similarity(s, embedding, distance) <= Similarity(r.value, embedding, distance)
    ensures r.None? ==>
              forall s :: s in stones && s.embedding.Some? ==> Similarity(s, embedding, distance) < SimilarityThreshold
    ensures r.Some? ==>
              var cands := Candidates(stones);
              exists i :: 0 <= i < |cands| && cands[i] == r.value
                && forall j :: 0 <= j < i ==> Similarity(cands[j], embedding, distance) < Similarity(r.value, embedding, distance)
  {
    var cands := Candidates(stones);
    if cands == [] then None
    else
      var scores := MatchScores(cands, embedding, distance);
      var i := FirstMaxIndex(scores);
      assert forall s :: s in cands ==> Similarity(s, embedding, distance) <= scores[i];
      if scores[i] >= SimilarityThreshold then Some(cands[i]) else None
  }

  /** Lemma: the first element above -1.0, after elements at most -1.0, is the first maximum so far. */
  lemma FirstMaxAbove(s: seq<real>, i: nat)
    requires i < |s| && s[i] > -1.0
    requires forall j :: 0 <= j < i ==> s[j] <= -1.0
    ensures FirstMaxIndex(s[..i + 1]) == i
  {
    assert s[..i + 1][i] == s[i];
  }

  /** Lemma: the whole of a sequence is its longest prefix. */
  lemma FirstMaxWhole(s: seq<real>)
    requires |s| > 0
    ensures FirstMaxIndex(s[..|s|]) == FirstMaxIndex(s)
  {
    assert s[..|s|] == s;
  }

  /**
   * The loop of `find_similar_stone`: walk the candidates keeping the best
   * similarity so far, starting from -1.0 and replaced only by a strictly
   * greater one. It ends on the first candidate of maximal similarity,
   * unless no similarity exceeds -1.0.
   */
  method BestCandidate(cands: seq<Stone>, embedding: Vector, distance: (Vector, Vector) -> real)
    returns (bestStone: Option<Stone>, bestSimilarity: real)
    requires |cands| > 0 && forall s :: s in cands ==> s.embedding.Some?
    ensures var scores := MatchScores(cands, embedding, distance);
            var k := FirstMaxIndex(scores);
            && (scores[k] > -1.0 ==> bestStone == Some(cands[k]) && bestSimilarity == scores[k])
            && (scores[k] <= -1.0 ==> bestStone == None && bestSimilarity == -1.0)
  {
    ghost var scores := MatchScores(cands, embedding, distance);
    bestStone := None;
    bestSimilarity := -1.0;
    ghost var bestIndex: nat := 0;
    for i := 0 to |cands|
      invariant bestStone.None? ==> bestSimilarity == -1.0 && forall j :: 0 <= j < i ==> scores[j] <= -1.0
      invariant bestStone.Some? ==>
                  && bestIndex < i && bestIndex == FirstMaxIndex(scores[..i])
                  && bestStone.value == cands[bestIndex] && bestSimilarity == scores[bestIndex]
                  && bestSimilarity > -1.0
    {
      var similarity := 1.0 - distance(cands[i].embedding.value, embedding);
      assert similarity == scores[i];
      if bestStone.Some? {
        FirstMaxExtend(scores, i);
      } else if similarity > bestSimilarity {
        FirstMaxAbove(scores, i);
      }
      if similarity > bestSimilarity {
        bestSimilarity := similarity;
        bestStone := Some(cands[i]);
        bestIndex := i;
      }
    }
    FirstMaxWhole(scores);
  }

  /**
   * `find_similar_stone`: no stone without candidates; otherwise the best
   * candidate when its similarity reaches the threshold (inclusive).
   */
  method FindSimilarStone(stones: seq<Stone>, embedding: Vector, distance: (Vector, Vector) -> real)
    returns (r: Option<Stone>)
    ensures r == BestMatch(stones, embedding, distance)
  {
    var cands := Candidates(stones);
    if cands == [] {
      return None;
    }
    var bestStone, bestSimilarity := BestCandidate(cands, embedding, distance);
    if bestStone.Some? && bestSimilarity >= SimilarityThreshold {
      return bestStone;
    }
    return None;
  }

  // ---------------------------------------------------------------------
  // The WAITING_LOCATION text classifier
  // ---------------------------------------------------------------------

  /** How `handle_location_fallback` reads a text. */
  datatype LocationInput = SkipInput | ZipRequest | PostalCode | Unrecognized

  const SkipVariants: seq<string> := ["пропустить", "skip", "pomiń", "пропуск", "-", "нет", "no", "nie"]
  const ZipVariants: seq<string> := ["ввести zip код", "ввести zip", "zip", "zip код", "enter zip", "wpisz kod"]

  /** 3 to 10 characters that are alphanumeric once every '-' and ' ' is deleted. */
  predicate LooksLikePostalCode(text: string) {
    3 <= |text| <= 10 && IsAlnum(RemoveChar(RemoveChar(text, '-'), ' '))
  }

  /**
   * The classification of a stripped text, given the user's lower-cased
   * skip and zip button labels: skip first, then the zip request, then a
   * postal code.
   */
  function ClassifyLocationText(text: string, skipLabel: string, zipLabel: string): LocationInput {
    var lower := Lower(text);
    if lower == skipLabel || lower in SkipVariants then SkipInput
    else if lower == zipLabel || lower in ZipVariants then ZipRequest
    else if LooksLikePostalCode(text) then PostalCode
    else Unrecognized
  }

  /**
   * Lemma: a text passes the postal-code test exactly when it has 3 to 10
   * characters, each of them a letter, a digit, '-' or ' ', and at least
   * one of them a letter or a digit.
   */
  lemma PostalCodeShape(text: string)
    ensures LooksLikePostalCode(text) <==>
              && 3 <= |text| <= 10
              && (forall c :: c in text ==> c == '-' || c == ' ' || IsAlnumChar(c))
              && (exists c :: c in text && IsAlnumChar(c))
  {
    var once := RemoveChar(text, '-');
    var r := RemoveChar(once, ' ');
    assert forall d :: d != '-' && d != ' ' ==> (d in r <==> d in text);
    assert '-' !in r && ' ' !in r;
    if IsAlnum(r) {
      forall c | c in text && c != '-' && c != ' ' ensures IsAlnumChar(c) {
        var k :| 0 <= k < |r| && r[k] == c;
      }
      assert r[0] in text;
    }
    if (forall c :: c in text ==> c == '-' || c == ' ' || IsAlnumChar(c)) && (exists c :: c in text && IsAlnumChar(c)) {
      var c :| c in text && IsAlnumChar(c);
      assert c in r;
      forall k | 0 <= k < |r| ensures IsAlnumChar(r[k]) {
        assert r[k] in text;
      }
    }
  }

  /**
   * Lemma: whatever the button labels, a text whose lower case is one of the
   * skip or zip words ("skip", "нет", "zip", ...) is never taken for a
   * postal code, and a skip word always skips.
   */
  lemma VariantsNeverPostal(text: string, skipLabel: string, zipLabel: string)
    requires Lower(text) in SkipVariants || Lower(text) in ZipVariants
    ensures ClassifyLocationText(text, skipLabel, zipLabel) != PostalCode
    ensures Lower(text) in SkipVariants ==> ClassifyLocationText(text, skipLabel, zipLabel) == SkipInput
  {
  }

  // ---------------------------------------------------------------------
  // mine_command
  // ---------------------------------------------------------------------

  function OwnedBy(userId: int): Stone -> bool {
    (s: Stone) => s.registeredBy == userId
  }

  /**
   * `/mine`: the name and history count of every stone the user registered,
   * in query order; an empty list is the "no stones" reply.
   */
  method MineCommand(db: Database, userId: int) returns (lines: seq<(string, nat)>)
    ensures var owned := Filter(db.stones, OwnedBy(userId));
            && |lines| == |owned|
            && forall i :: 0 <= i < |owned| ==> lines[i] == (owned[i].name, |HistoryFor(db.history, owned[i].id)|)
  {
    var stones := Filter(db.stones, OwnedBy(userId));
    lines := [];
    for i := 0 to |stones|
      invariant |lines| == i
      invariant forall k :: 0 <= k < i ==> lines[k] == (stones[k].name, |HistoryFor(db.history, stones[k].id)|)
    {
      lines := lines + [(stones[i].name, |HistoryFor(db.history, stones[i].id)|)];
    }
  }

  /** Lemma: in a valid registry every stone listed by `/mine` has been seen at least once. */
  lemma MineCountsPositive(db: Database, userId: int)
    requires db.Valid()
    ensures forall s :: s in Filter(db.stones, OwnedBy(userId)) ==> |HistoryFor(db.history, s.id)| >= 1
  {
    forall s | s in Filter(db.stones, OwnedBy(userId)) ensures |HistoryFor(db.history, s.id)| >= 1 {
      db.EveryStoneHasHistory(s);
    }
  }

  // ---------------------------------------------------------------------
  // The conversation
  // ---------------------------------------------------------------------

  /** The registry write a finished conversation asks for. */
  datatype Write =
    | AddSighting(stoneId: int, photoFileId: string,
                  latitude: Option<real>, longitude: Option<real>, zipCode: Option<string>)
    | Register(name: string, description: Option<string>, photoFileId: string, embedding: Vector,
               latitude: Option<real>, longitude: Option<real>, zipCode: Option<string>)

  /** The session `handle_photo` leaves for a recognised stone. */
  function PhotoSession(fileId: string, embedding: Vector, thumbnail: Bytes, found: Option<Stone>): UserData {
    var data := map[][PhotoFileId := Str(fileId)][Embedding := Vec(embedding)][ThumbnailBytes := Blob(thumbnail)]
                [Latitude := Null][Longitude := Null][ZipCode := Null][Place := Null];
    if found.Some? then data[FoundStoneId := Int(found.value.id)][ExistingStone := StoneRef(found.value)]
    else data
  }

  /** The session after a shared location: the coordinates, and the postal code and place when geocoding answers. */
  function LocatedByGps(data: UserData, lat: real, lon: real, geo: Option<GeoData>): UserData {
    var located := data[Latitude := Real(lat)][Longitude := Real(lon)];
    if geo.Some? then located[ZipCode := OptStr(geo.value.zipCode)][Place := Geo(geo.value)] else located
  }

  /** The postal code reverse geocoding found, if any. */
  function GeoZip(geo: Option<GeoData>): Option<string> {
    if geo.Some? then geo.value.zipCode else None
  }

  /** The coordinates the postal-code lookup found: `lat, lon = coords if coords else (None, None)`. */
  function CodeLat(coords: Option<(real, real)>): Option<real> {
    if coords.Some? then Some(coords.value.0) else None
  }

  function CodeLon(coords: Option<(real, real)>): Option<real> {
    if coords.Some? then Some(coords.value.1) else None
  }

  /** The session after a typed postal code: the code and the coordinates found for it. */
  function LocatedByCode(data: UserData, code: string, coords: Option<(real, real)>): UserData {
    data[ZipCode := Str(code)][Latitude := OptReal(CodeLat(coords))][Longitude := OptReal(CodeLon(coords))]
  }

  /** The same write with the given location. */
  function WithLocation(w: Write, lat: Option<real>, lon: Option<real>, zip: Option<string>): Write {
    match w
    case AddSighting(id, photo, _, _, _) => AddSighting(id, photo, lat, lon, zip)
    case Register(name, description, photo, embedding, _, _, _) => Register(name, description, photo, embedding, lat, lon, zip)
  }

  /**
   * The write a session calls for when the location step ends: a sighting
   * of the matched stone, or the registration of a new one, each with the
   * session's location; None when a value it needs is missing (the source
   * then fails on a missing key).
   */
  function PendingWriteOf(data: UserData): Option<Write> {
    var lat, lon, zip := GetOptReal(data, Latitude), GetOptReal(data, Longitude), GetOptStr(data, ZipCode);
    var hasPhoto := PhotoFileId in data && data[PhotoFileId].Str?;
    if ExistingStone in data && data[ExistingStone].StoneRef? then
      if hasPhoto then Some(AddSighting(data[ExistingStone].stone.id, data[PhotoFileId].s, lat, lon, zip))
      else None
    else if hasPhoto && Embedding in data && data[Embedding].Vec? && Name in data && data[Name].Str? then
      Some(Register(data[Name].s, GetOptStr(data, Description), data[PhotoFileId].s, data[Embedding].v, lat, lon, zip))
    else None
  }

  /** The keys that hold the location of a sighting. */
  predicate IsLocationKey(k: Key) {
    k == Latitude || k == Longitude || k == ZipCode || k == Place
  }

  /** `updated` differs from `data` at most in the location keys. */
  predicate SameOffLocation(data: UserData, updated: UserData) {
    forall k :: !IsLocationKey(k) ==> (k in updated <==> k in data) && (k in data ==> updated[k] == data[k])
  }

  /** Lemma: setting a location key keeps a session the same off the location keys. */
  lemma SetLocationKey(data: UserData, updated: UserData, k: Key, v: Value)
    requires SameOffLocation(data, updated) && IsLocationKey(k)
    ensures SameOffLocation(data, updated[k := v])
  {
  }

  /**
   * Lemma: changing only the location keys of a session keeps its write
   * and gives it the new location.
   */
  lemma RelocatedWrite(data: UserData, updated: UserData)
    requires SameOffLocation(data, updated)
    requires PendingWriteOf(data).Some?
    ensures PendingWriteOf(updated)
         == Some(WithLocation(PendingWriteOf(data).value, GetOptReal(updated, Latitude),
                              GetOptReal(updated, Longitude), GetOptStr(updated, ZipCode)))
  {
    assert !IsLocationKey(ExistingStone) && !IsLocationKey(PhotoFileId) && !IsLocationKey(Embedding);
    assert !IsLocationKey(Name) && !IsLocationKey(Description);
  }

  /** Lemma: a shared location gives the session's write those coordinates and the geocoded postal code. */
  lemma GpsKeepsWrite(data: UserData, lat: real, lon: real, geo: Option<GeoData>)
    requires PendingWriteOf(data).Some?
    ensures PendingWriteOf(LocatedByGps(data, lat, lon, geo))
         == Some(WithLocation(PendingWriteOf(data).value, Some(lat), Some(lon),
                              if geo.Some? then geo.value.zipCode else GetOptStr(data, ZipCode)))
  {
    var withLat := data[Latitude := Real(lat)];
    SetLocationKey(data, data, Latitude, Real(lat));
    var located := withLat[Longitude := Real(lon)];
    SetLocationKey(data, withLat, Longitude, Real(lon));
    if geo.Some? {
      var withZip := located[ZipCode := OptStr(geo.value.zipCode)];
      SetLocationKey(data, located, ZipCode, OptStr(geo.value.zipCode));
      SetLocationKey(data, withZip, Place, Geo(geo.value));
      var updated := withZip[Place := Geo(geo.value)];
      RelocatedWrite(data, updated);
      assert GetOptReal(updated, Latitude) == Some(lat) && GetOptReal(updated, Longitude) == Some(lon);
      assert GetOptStr(updated, ZipCode) == geo.value.zipCode;
    } else {
      RelocatedWrite(data, located);
      assert GetOptReal(located, Latitude) == Some(lat) && GetOptReal(located, Longitude) == Some(lon);
      assert GetOptStr(located, ZipCode) == GetOptStr(data, ZipCode);
    }
  }

  /** Lemma: a typed postal code gives the session's write that code and the coordinates found for it. */
  lemma CodeKeepsWrite(data: UserData, code: string, coords: Option<(real, real)>)
    requires PendingWriteOf(data).Some?
    ensures PendingWriteOf(LocatedByCode(data, code, coords))
         == Some(WithLocation(PendingWriteOf(data).value, CodeLat(coords), CodeLon(coords), Some(code)))
  {
    var withZip := data[ZipCode := Str(code)];
    SetLocationKey(data, data, ZipCode, Str(code));
    var withLat := withZip[Latitude := OptReal(CodeLat(coords))];
    SetLocationKey(data, withZip, Latitude, OptReal(CodeLat(coords)));
    var updated := withLat[Longitude := OptReal(CodeLon(coords))];
    SetLocationKey(data, withLat, Longitude, OptReal(CodeLon(coords)));
    RelocatedWrite(data, updated);
    assert GetOptReal(updated, Latitude) == CodeLat(coords);
    assert GetOptReal(updated, Longitude) == CodeLon(coords);
  }

  /**
   * Lemma: the session of a recognised stone holds the photo and its
   * embedding, no location yet, and a matched stone exactly when one was found.
   */
  lemma PhotoSessionFacts(fileId: string, embedding: Vector, thumbnail: Bytes, found: Option<Stone>)
    ensures var data := PhotoSession(fileId, embedding, thumbnail, found);
            && PhotoFileId in data && data[PhotoFileId] == Str(fileId)
            && Embedding in data && data[Embedding] == Vec(embedding)
            && ThumbnailBytes in data && data[ThumbnailBytes] == Blob(thumbnail)
            && Latitude in data && data[Latitude] == Null && Longitude in data && data[Longitude] == Null
            && ZipCode in data && data[ZipCode] == Null && Place in data && data[Place] == Null
            && Name !in data && Description !in data
            && (ExistingStone in data <==> found.Some?)
            && (found.Some? ==> data[ExistingStone] == StoneRef(found.value))
  {
  }

  /**
   * Lemma: storing a postal code and coordinates leaves the photo, the
   * matched stone, the name and the description as they were.
   */
  lemma LocationUpdateKeeps(data: UserData, zip: Value, lat: Value, lon: Value)
    ensures var updated := data[ZipCode := zip][Latitude := lat][Longitude := lon];
            forall k :: k in [PhotoFileId, Embedding, ExistingStone, Name, Description] ==>
              (k in updated <==> k in data) && (k in data ==> updated[k] == data[k])
  {
  }

  /** Lemma: a text longer than every skip word, typed as the zip label, is a zip request. */
  lemma LongZipLabel(text: string, skipLabel: string)
    requires |text| > 10 && |skipLabel| <= 10
    ensures ClassifyLocationText(text, skipLabel, Lower(text)) == ZipRequest
  {
    assert forall v :: v in SkipVariants ==> |v| <= 10;
  }

  /**
   * Lemma: in each language the postal-code button's text is unpadded and
   * longer than the skip button's text.
   */
  lemma ZipLabelLonger(lang: string)
    requires lang in Languages
    ensures var zip, skip := Translate(lang, "btn_enter_zip"), Translate(lang, "btn_skip");
            && Unpadded(zip)
            && |zip| >= 14 && |skip| <= 10
  {
    SkipLabels();
    ZipLabels();
    ButtonTexts();
  }

  /** Lemma: the button texts of the three tables, as literals. */
  lemma ButtonTexts()
    ensures Unpadded("Wpisz kod pocztowy") && |"Wpisz kod pocztowy"| >= 14 && |"Pomiń"| <= 10
    ensures Unpadded("Enter ZIP code") && |"Enter ZIP code"| >= 14 && |"Skip"| <= 10
    ensures Unpadded("Ввести ZIP код") && |"Ввести ZIP код"| >= 14 && |"Пропустить"| <= 10
    ensures Unpadded("Pomiń") && Unpadded("Skip") && Unpadded("Пропустить")
  {
  }

  /** Lemma: in each language the postal-code button's own text is read as a request to type a code. */
  lemma ZipButtonClassified(lang: string)
    requires lang in Languages
    ensures var zip := Translate(lang, "btn_enter_zip");
            ClassifyLocationText(Strip(zip), Lower(Translate(lang, "btn_skip")), Lower(zip)) == ZipRequest
  {
    var zip, skip := Translate(lang, "btn_enter_zip"), Translate(lang, "btn_skip");
    ZipLabelLonger(lang);
    StripUnpadded(zip);
    LongZipLabel(zip, Lower(skip));
  }

  /** One user's conversation with the bot, over the shared registry and language preferences. */
  class Conversation {
    const userId: int
    const db: Database
    const prefs: LanguagePreferences
    var state: State
    var userData: UserData

    constructor (userId: int, db: Database, prefs: LanguagePreferences)
      ensures this.userId == userId && this.db == db && this.prefs == prefs
      ensures state == End && userData == map[]
    {
      this.userId := userId;
      this.db := db;
      this.prefs := prefs;
      state := End;
      userData := map[];
    }

    /** `context.user_data.get("existing_stone")` is a stone. */
    predicate HasExisting()
      reads this`userData
    {
      ExistingStone in userData && userData[ExistingStone].StoneRef?
    }

    predicate HasPhotoFileId()
      reads this`userData
    {
      PhotoFileId in userData && userData[PhotoFileId].Str?
    }

    predicate HasPhoto()
      reads this`userData
    {
      HasPhotoFileId() && Embedding in userData && userData[Embedding].Vec?
    }

    predicate HasName()
      reads this`userData
    {
      Name in userData && userData[Name].Str?
    }

    /** Latitude, longitude, postal code and place are all None. */
    predicate LocationUnset()
      reads this`userData
    {
      && Latitude in userData && userData[Latitude] == Null
      && Longitude in userData && userData[Longitude] == Null
      && ZipCode in userData && userData[ZipCode] == Null
      && Place in userData && userData[Place] == Null
    }

    /** The write the session data calls for. */
    function PendingWrite(): Option<Write>
      reads this`userData
    {
      PendingWriteOf(userData)
    }

    /**
     * What each state may assume about the session: a photo and its
     * embedding, no location yet, and either a registered stone that
     * still exists or (past the name) a name of at least two characters.
     */
    ghost predicate SessionValid()
      reads this, db
    {
      && db.Valid()
      && match state
         case End => true
         case WaitingName => HasPhoto() && !HasExisting() && LocationUnset()
         case WaitingDescription =>
           HasPhoto() && !HasExisting() && LocationUnset() && HasName() && |userData[Name].s| >= 2
         case WaitingLocation =>
           && HasPhoto() && LocationUnset()
           && (HasExisting() ==> userData[ExistingStone].stone.id in db.StoneIds())
           && (!HasExisting() ==> HasName())
    }

    /**
     * The registry after a write: the sighting or the stone and its first
     * sighting appended in one commit, or nothing at all when a sighting
     * names a stone that does not exist (the foreign key rejects it).
     */
    twostate predicate Written(new w: Write, new now: int)
      reads db
    {
      match w
      case AddSighting(id, photo, lat, lon, zip) =>
        if id in old(db.StoneIds()) then
          && db.stones == old(db.stones)
          && db.history == old(db.history) + [StoneHistory(old(db.nextHistoryId), id, userId, photo, lat, lon, zip, now)]
          && db.commits == old(db.commits) + 1
        else
          unchanged(db)
      case Register(name, description, photo, embedding, lat, lon, zip) =>
        && db.stones == old(db.stones) + [Stone(old(db.nextStoneId), name, description, photo, Some(embedding), userId, now)]
        && db.history == old(db.history)
                         + [StoneHistory(old(db.nextHistoryId), old(db.nextStoneId), userId, photo, lat, lon, zip, now)]
        && db.commits == old(db.commits) + 1
    }

    /** `add_to_history(...)` or `register_stone(context.user_data, user_id)`. */
    method Perform(w: Write, now: int)
      requires db.Valid()
      modifies db
      ensures db.Valid()
      ensures Written(w, now)
    {
      match w
      case AddSighting(id, photo, lat, lon, zip) =>
        var _ := db.AddToHistory(id, userId, photo, lat, lon, zip, now);
      case Register(name, description, photo, embedding, lat, lon, zip) =>
        var _ := db.RegisterStone(name, description, photo, embedding, userId, lat, lon, zip, now);
    }

    /**
     * `handle_photo`: clear the session; end when nothing is cropped or the
     * crop is not a stone; otherwise store the photo, the embedding and the
     * thumbnail with an empty location, and wait for the location of a
     * matched stone or for the name of a new one.
     */
    method HandlePhoto(fileId: string, imageBytes: Bytes, services: Services) returns (next: State)
      requires services.clip.Valid()
      modifies this
      ensures var clip := services.clip;
              var crop := clip.SmartCropStone(imageBytes);
              && (crop.None? ==> next == End && userData == map[])
              && (crop.Some? && !clip.IsStone(crop.value.0, DefaultThreshold).0 ==> next == End && userData == map[])
              && (crop.Some? && clip.IsStone(crop.value.0, DefaultThreshold).0 ==>
                    var embedding := clip.GetEmbedding(crop.value.0);
                    var found := BestMatch(db.stones, embedding, services.distance);
                    && userData == PhotoSession(fileId, embedding, crop.value.1, found)
                    && next == (if found.Some? then WaitingLocation else WaitingName))
    {
      userData := map[];
      var clip := services.clip;
      var crop := clip.SmartCropStone(imageBytes);
      if crop.None? {
        return End;
      }
      var (cropped, thumbnail) := crop.value;
      var (isStone, confidence) := clip.IsStone(cropped, DefaultThreshold);
      if !isStone {
        return End;
      }
      var embedding := clip.GetEmbedding(cropped);
      var existing := FindSimilarStone(db.stones, embedding, services.distance);
      userData := userData[PhotoFileId := Str(fileId)];
      userData := userData[Embedding := Vec(embedding)];
      userData := userData[ThumbnailBytes := Blob(thumbnail)];
      userData := userData[Latitude := Null];
      userData := userData[Longitude := Null];
      userData := userData[ZipCode := Null];
      userData := userData[Place := Null];
      if existing.Some? {
        userData := userData[FoundStoneId := Int(existing.value.id)];
        userData := userData[ExistingStone := StoneRef(existing.value)];
        return WaitingLocation;
      }
      return WaitingName;
    }

    /** `handle_name`: a stripped name of two characters or more is stored and the description asked for. */
    method HandleName(text: string) returns (next: State)
      modifies this
      ensures |Strip(text)| < 2 ==> next == WaitingName && userData == old(userData)
      ensures |Strip(text)| >= 2 ==> next == WaitingDescription && userData == old(userData)[Name := Str(Strip(text))]
    {
      var name := Strip(text);
      if |name| < 2 {
        return WaitingName;
      }
      userData := userData[Name := Str(name)];
      return WaitingDescription;
    }

    /**
     * `handle_description`: the stripped text is stored, or None when it is
     * exactly the user's skip button label; then the location is asked for.
     */
    method HandleDescription(text: string) returns (next: State)
      modifies this
      ensures next == WaitingLocation
      ensures Description in userData && userData == old(userData)[Description := userData[Description]]
      ensures Strip(text) == prefs.GetText("btn_skip", userId) ==> userData == old(userData)[Description := Null]
      ensures Strip(text) != prefs.GetText("btn_skip", userId) ==> userData == old(userData)[Description := Str(Strip(text))]
    {
      var stripped := Strip(text);
      var skipLabel := prefs.GetText("btn_skip", userId);
      if stripped == skipLabel {
        userData := userData[Description := Null];
      } else {
        userData := userData[Description := Str(stripped)];
      }
      return WaitingLocation;
    }

    /**
     * `handle_location`: store the coordinates and, when reverse geocoding
     * answers, the postal code and place; then perform the write the session
     * calls for and end. A missing session value ends without a write.
     */
    method HandleLocation(lat: real, lon: real, now: int, reverseGeocode: (real, real) -> Option<GeoData>)
      returns (next: State)
      requires db.Valid()
      modifies this, db
      ensures db.Valid()
      ensures next == End
      ensures userData == LocatedByGps(old(userData), lat, lon, reverseGeocode(lat, lon))
      ensures PendingWrite().None? ==> unchanged(db)
      ensures PendingWrite().Some? ==> Written(PendingWrite().value, now)
    {
      ghost var before := userData;
      userData := userData[Latitude := Real(lat)];
      userData := userData[Longitude := Real(lon)];
      var geo := reverseGeocode(lat, lon);
      if geo.Some? {
        userData := userData[ZipCode := OptStr(geo.value.zipCode)];
        userData := userData[Place := Geo(geo.value)];
      }
      assert userData == LocatedByGps(before, lat, lon, geo);
      var w := PendingWrite();
      if w.Some? {
        Perform(w.value, now);
      }
      return End;
    }

    /**
     * `handle_skip_location`: a sighting of the matched stone without any
     * location, or the registration with the session's (empty) location;
     * then end.
     */
    method HandleSkipLocation(now: int) returns (next: State)
      requires db.Valid()
      modifies db
      ensures db.Valid()
      ensures next == End
      ensures PendingWrite().None? ==> unchanged(db)
      ensures PendingWrite().Some? ==> Written(WithoutLocation(PendingWrite().value), now)
    {
      var w := PendingWrite();
      if w.Some? {
        Perform(WithoutLocation(w.value), now);
      }
      return End;
    }

    /** The skip button's write: a sighting loses its location, a registration keeps the session's. */
    function WithoutLocation(w: Write): (r: Write)
    {
      match w
      case AddSighting(id, photo, _, _, _) => AddSighting(id, photo, None, None, None)
      case Register(_, _, _, _, _, _, _) => w
    }

    /** The classification of a text by the labels of this user's language. */
    function Classify(text: string): LocationInput
      reads prefs
    {
      ClassifyLocationText(Strip(text), Lower(prefs.GetText("btn_skip", userId)), Lower(prefs.GetText("btn_enter_zip", userId)))
    }

    /**
     * The postal-code branch of `handle_location_fallback`: store the code
     * and the coordinates found for it (None when the lookup finds none),
     * then perform the write. Nothing here is caught: when the write fails
     * (a missing session value, or a sighting of a stone that is not in the
     * registry) the state stays `WaitingLocation`.
     */
    method HandlePostalCode(code: string, coords: Option<(real, real)>, now: int) returns (next: State)
      requires db.Valid()
      modifies this, db
      ensures db.Valid()
      ensures userData == LocatedByCode(old(userData), code, coords)
      ensures PendingWrite().None? ==> next == WaitingLocation && unchanged(db)
      ensures PendingWrite().Some? ==>
                && Written(PendingWrite().value, now)
                && next == (if Rejected(PendingWrite().value, old(db.StoneIds())) then WaitingLocation else End)
    {
      var lat, lon := CodeLat(coords), CodeLon(coords);
      userData := userData[ZipCode := Str(code)];
      userData := userData[Latitude := OptReal(lat)];
      userData := userData[Longitude := OptReal(lon)];
      var w := PendingWrite();
      if w.None? {
        return WaitingLocation;
      }
      var rejected := Rejected(w.value, db.StoneIds());
      Perform(w.value, now);
      return if rejected then WaitingLocation else End;
    }

    /**
     * `handle_location_fallback`: skip as the skip button does; stay on a
     * zip request or an unrecognised text; treat anything that looks like a
     * postal code as one, with the coordinates the lookup finds for it.
     */
    method HandleLocationFallback(text: string, now: int, zipToCoords: string -> Option<(real, real)>)
      returns (next: State)
      requires db.Valid()
      modifies this, db
      ensures db.Valid()
      ensures old(Classify(text)) == SkipInput ==>
                && next == End && userData == old(userData)
                && (PendingWrite().None? ==> unchanged(db))
                && (PendingWrite().Some? ==> Written(WithoutLocation(PendingWrite().value), now))
      ensures old(Classify(text)) == ZipRequest || old(Classify(text)) == Unrecognized ==>
                next == WaitingLocation && userData == old(userData) && unchanged(db)
      ensures old(Classify(text)) == PostalCode ==>
                && userData == LocatedByCode(old(userData), Strip(text), zipToCoords(Strip(text)))
                && (PendingWrite().None? ==> next == WaitingLocation && unchanged(db))
                && (PendingWrite().Some? ==>
                      && Written(PendingWrite().value, now)
                      && next == (if Rejected(PendingWrite().value, old(db.StoneIds())) then WaitingLocation else End))
    {
      var input := Classify(text);
      next := HandleClassified(input, text, now, zipToCoords);
    }

    /** The branches of `handle_location_fallback`, once the text is classified as `input`. */
    method HandleClassified(input: LocationInput, text: string, now: int, zipToCoords: string -> Option<(real, real)>)
      returns (next: State)
      requires db.Valid()
      modifies this, db
      ensures db.Valid()
      ensures input == SkipInput ==>
                && next == End && userData == old(userData)
                && (PendingWrite().None? ==> unchanged(db))
                && (PendingWrite().Some? ==> Written(WithoutLocation(PendingWrite().value), now))
      ensures input == ZipRequest || input == Unrecognized ==>
                next == WaitingLocation && userData == old(userData) && unchanged(db)
      ensures input == PostalCode ==>
                && userData == LocatedByCode(old(userData), Strip(text), zipToCoords(Strip(text)))
                && (PendingWrite().None? ==> next == WaitingLocation && unchanged(db))
                && (PendingWrite().Some? ==>
                      && Written(PendingWrite().value, now)
                      && next == (if Rejected(PendingWrite().value, old(db.StoneIds())) then WaitingLocation else End))
    {
      if input == SkipInput {
        next := HandleSkipLocation(now);
      } else if input == ZipRequest || input == Unrecognized {
        next := WaitingLocation;
      } else {
        var code := Strip(text);
        next := HandlePostalCode(code, zipToCoords(code), now);
      }
    }

    /** A sighting of a stone whose id is not among `ids`. */
    function Rejected(w: Write, ids: set<int>): bool {
      w.AddSighting? && w.stoneId !in ids
    }

    /**
     * Lemma: while waiting for the location the session calls for a write,
     * and the registry accepts it whatever location it is given.
     */
    lemma LocationWriteAccepted(lat: Option<real>, lon: Option<real>, zip: Option<string>)
      requires state == WaitingLocation && SessionValid()
      ensures PendingWrite().Some?
      ensures !Rejected(WithLocation(PendingWrite().value, lat, lon, zip), db.StoneIds())
    {
    }

    /** `cancel`: end the conversation; nothing is written. */
    method Cancel() returns (next: State)
      ensures next == End
    {
      return End;
    }

    /** Lemma: the keyboard's skip button, in the user's language, is read as a skip. */
    lemma SkipButtonIsSkip()
      requires prefs.Valid()
      ensures Classify(prefs.GetText("btn_skip", userId)) == SkipInput
    {
      SkipLabels();
      ButtonTexts();
      var button := prefs.GetText("btn_skip", userId);
      StripUnpadded(button);
    }

    /** Lemma: the keyboard's postal-code button, in the user's language, is read as a request to type one. */
    lemma ZipButtonIsZipRequest()
      requires prefs.Valid()
      ensures Classify(prefs.GetText("btn_enter_zip", userId)) == ZipRequest
    {
      ZipButtonClassified(prefs.GetUserLanguage(userId));
    }

    /** The inputs that finish the conversation in `WaitingLocation`: a location, a skip, a postal code. */
    function Accepts(event: Event): bool
      reads prefs
    {
      || event.Location?
      || (event.Text? && (Classify(event.text) == SkipInput || Classify(event.text) == PostalCode))
    }

    /**
     * The updates the conversation handler passes to a handler in a state:
     * a photo outside a conversation, a text while waiting for name,
     * description or location, a location while waiting for the location,
     * and `/cancel` inside a conversation.
     */
    predicate Handles(s: State, event: Event) {
      || (s == End && event.Photo?)
      || (s != End && event.Text?)
      || (s == WaitingLocation && event.Location?)
      || (s != End && event == Command("cancel"))
    }

    /** The next state and session `handle_photo` gives for a photo. */
    function PhotoOutcome(fileId: string, image: Bytes, services: Services): (State, UserData)
      requires services.clip.Valid()
      reads db
    {
      var clip := services.clip;
      var crop := clip.SmartCropStone(image);
      if crop.None? || !clip.IsStone(crop.value.0, DefaultThreshold).0 then (End, map[])
      else
        var embedding := clip.GetEmbedding(crop.value.0);
        var found := BestMatch(db.stones, embedding, services.distance);
        (if found.Some? then WaitingLocation else WaitingName, PhotoSession(fileId, embedding, crop.value.1, found))
    }

    /**
     * The conversation has ended after performing the write the session
     * called for when the update arrived, carrying the given location.
     */
    twostate predicate Finished(new lat: Option<real>, new lon: Option<real>, new zip: Option<string>, new now: int)
      reads this, db
    {
      && state == End
      && old(PendingWrite()).Some?
      && Written(WithLocation(old(PendingWrite()).value, lat, lon, zip), now)
      && db.commits == old(db.commits) + 1
    }

    /** A photo outside a conversation: `handle_photo` chooses the next state and the session. */
    method StepPhoto(fileId: string, image: Bytes, services: Services)
      requires state == End && SessionValid() && services.clip.Valid()
      modifies this
      ensures SessionValid()
      ensures (state, userData) == PhotoOutcome(fileId, image, services)
    {
      var next := HandlePhoto(fileId, image, services);
      state := next;
      if next != End {
        ghost var crop := services.clip.SmartCropStone(image).value;
        ghost var embedding := services.clip.GetEmbedding(crop.0);
        PhotoSessionValid(fileId, embedding, crop.1, BestMatch(db.stones, embedding, services.distance));
      }
    }

    /** Lemma: the session a recognised photo starts is valid in the state it leads to. */
    lemma PhotoSessionValid(fileId: string, embedding: Vector, thumbnail: Bytes, found: Option<Stone>)
      requires db.Valid() && (found.Some? ==> found.value in db.stones)
      requires state == (if found.Some? then WaitingLocation else WaitingName)
      requires userData == PhotoSession(fileId, embedding, thumbnail, found)
      ensures SessionValid()
    {
      PhotoSessionFacts(fileId, embedding, thumbnail, found);
      if found.Some? {
        assert found.value.id in db.StoneIds();
      }
    }

    /** A text while waiting for the name: a name of two characters or more moves on to the description. */
    method StepName(text: string)
      requires state == WaitingName && SessionValid()
      modifies this
      ensures SessionValid()
      ensures |Strip(text)| < 2 ==> state == WaitingName && userData == old(userData)
      ensures |Strip(text)| >= 2 ==> state == WaitingDescription && userData == old(userData)[Name := Str(Strip(text))]
    {
      state := HandleName(text);
    }

    /** Lemma: a session waiting for the description stays valid when only its description is set. */
    twostate lemma DescriptionKeepsSession()
      requires old(state) == WaitingDescription && old(SessionValid())
      requires state == WaitingLocation && unchanged(db)
      requires Description in userData && userData == old(userData)[Description := userData[Description]]
      ensures SessionValid()
    {
    }

    /** A text while waiting for the description: stored (None for the skip label), then the location. */
    method StepDescription(text: string)
      requires state == WaitingDescription && SessionValid()
      modifies this
      ensures SessionValid()
      ensures state == WaitingLocation
      ensures Strip(text) == prefs.GetText("btn_skip", userId) ==> userData == old(userData)[Description := Null]
      ensures Strip(text) != prefs.GetText("btn_skip", userId) ==> userData == old(userData)[Description := Str(Strip(text))]
    {
      state := HandleDescription(text);
      DescriptionKeepsSession();
    }

    /**
     * Lemma: a location step that stored a location and performed the
     * session's write with it ends the conversation, valid, after one commit.
     */
    twostate lemma LocationStepFinishes(new lat: Option<real>, new lon: Option<real>, new zip: Option<string>, new now: int)
      requires old(state) == WaitingLocation && old(SessionValid()) && db.Valid()
      requires old(PendingWrite()).Some?
      requires PendingWrite() == Some(WithLocation(old(PendingWrite()).value, lat, lon, zip))
      requires Written(PendingWrite().value, now)
      requires state == (if Rejected(PendingWrite().value, old(db.StoneIds())) then WaitingLocation else End)
      ensures SessionValid() && Finished(lat, lon, zip, now)
    {
    }

    /**
     * A shared location while waiting for the location: the coordinates
     * (and the geocoded postal code) are stored, and the session's write is
     * performed once with them.
     */
    method StepLocation(lat: real, lon: real, now: int, services: Services)
      requires state == WaitingLocation && SessionValid()
      modifies this, db
      ensures SessionValid()
      ensures userData == LocatedByGps(old(userData), lat, lon, services.reverseGeocode(lat, lon))
      ensures Finished(Some(lat), Some(lon), GeoZip(services.reverseGeocode(lat, lon)), now)
    {
      var geo := services.reverseGeocode(lat, lon);
      LocationWriteAccepted(Some(lat), Some(lon), GeoZip(geo));
      GpsKeepsWrite(userData, lat, lon, geo);
      state := HandleLocation(lat, lon, now, services.reverseGeocode);
      LocationStepFinishes(Some(lat), Some(lon), GeoZip(geo), now);
    }

    /** A skip while waiting for the location: the session's write, without any location, then the end. */
    method StepSkip(text: string, now: int, services: Services)
      requires state == WaitingLocation && SessionValid() && Classify(text) == SkipInput
      modifies this, db
      ensures SessionValid()
      ensures userData == old(userData)
      ensures Finished(None, None, None, now)
    {
      LocationWriteAccepted(None, None, None);
      assert WithoutLocation(PendingWrite().value) == WithLocation(PendingWrite().value, None, None, None);
      // the skip branch of `handle_location_fallback`
      state := HandleSkipLocation(now);
      LocationStepFinishes(None, None, None, now);
    }

    /**
     * A postal code while waiting for the location: the code and the
     * coordinates found for it are stored, and the session's write is
     * performed once with them.
     */
    method StepPostalCode(text: string, now: int, services: Services)
      requires state == WaitingLocation && SessionValid() && Classify(text) == PostalCode
      modifies this, db
      ensures SessionValid()
      ensures var coords := services.zipToCoords(Strip(text));
              && userData == LocatedByCode(old(userData), Strip(text), coords)
              && Finished(CodeLat(coords), CodeLon(coords), Some(Strip(text)), now)
    {
      var code := Strip(text);
      var coords := services.zipToCoords(code);
      LocationWriteAccepted(CodeLat(coords), CodeLon(coords), Some(code));
      CodeKeepsWrite(userData, code, coords);
      // the postal-code branch of `handle_location_fallback`
      state := HandlePostalCode(code, coords, now);
      LocationStepFinishes(CodeLat(coords), CodeLon(coords), Some(code), now);
    }

    /** Lemma: a session whose state, values and registry are unchanged stays valid. */
    twostate lemma UnchangedKeepsSession()
      requires old(SessionValid())
      requires state == old(state) && userData == old(userData) && unchanged(db)
      ensures SessionValid()
    {
    }

    /** A zip request or an unrecognised text while waiting for the location: a prompt, and nothing changes. */
    method StepOtherText(text: string, now: int, services: Services)
      requires state == WaitingLocation && SessionValid()
      requires Classify(text) == ZipRequest || Classify(text) == Unrecognized
      modifies this, db
      ensures SessionValid()
      ensures state == WaitingLocation && userData == old(userData) && unchanged(db)
    {
      state := HandleLocationFallback(text, now, services.zipToCoords);
      UnchangedKeepsSession();
    }

    /**
     * A text while waiting for the location: a skip or a postal code ends
     * the conversation after the session's write; any other text changes
     * nothing.
     */
    method StepLocationText(text: string, now: int, services: Services)
      requires state == WaitingLocation && SessionValid()
      modifies this, db
      ensures SessionValid()
      ensures Classify(text) == SkipInput ==> userData == old(userData) && Finished(None, None, None, now)
      ensures Classify(text) == PostalCode ==>
                var coords := services.zipToCoords(Strip(text));
                && userData == LocatedByCode(old(userData), Strip(text), coords)
                && Finished(CodeLat(coords), CodeLon(coords), Some(Strip(text)), now)
      ensures !Accepts(Text(text)) ==> state == WaitingLocation && userData == old(userData) && unchanged(db)
    {
      var input := Classify(text);
      if input == SkipInput {
        StepSkip(text, now, services);
      } else if input == PostalCode {
        StepPostalCode(text, now, services);
      } else {
        StepOtherText(text, now, services);
      }
    }

    /** A text update: the handler of the current state, if it has one, reacts to it. */
    method DispatchText(text: string, now: int, services: Services)
      requires SessionValid()
      modifies this, db
      ensures SessionValid()
      ensures db.commits <= old(db.commits) + 1
      ensures db.commits == old(db.commits) + 1 ==> old(state) == WaitingLocation && state == End
      ensures old(state) == End ==> unchanged(this) && unchanged(db)
      ensures old(state) == WaitingName ==>
                && unchanged(db)
                && (|Strip(text)| < 2 ==> state == WaitingName && userData == old(userData))
                && (|Strip(text)| >= 2 ==> state == WaitingDescription && userData == old(userData)[Name := Str(Strip(text))])
      ensures old(state) == WaitingDescription ==>
                && unchanged(db) && state == WaitingLocation
                && userData == old(userData)[Description :=
                     if Strip(text) == prefs.GetText("btn_skip", userId) then Null else Str(Strip(text))]
      ensures old(state) == WaitingLocation && Classify(text) == SkipInput ==>
                userData == old(userData) && Finished(None, None, None, now)
      ensures old(state) == WaitingLocation && Classify(text) == PostalCode ==>
                var coords := services.zipToCoords(Strip(text));
                && userData == LocatedByCode(old(userData), Strip(text), coords)
                && Finished(CodeLat(coords), CodeLon(coords), Some(Strip(text)), now)
      ensures old(state) == WaitingLocation && !Accepts(Text(text)) ==>
                state == WaitingLocation && userData == old(userData) && unchanged(db)
    {
      if state == WaitingName {
        StepName(text);
      } else if state == WaitingDescription {
        StepDescription(text);
      } else if state == WaitingLocation {
        StepLocationText(text, now, services);
      } else {
        UnchangedKeepsSession();
      }
    }

    /**
     * The conversation handler of `setup_handlers`: a photo starts the
     * conversation (and is ignored while one is running); in each state
     * only its own handlers react; `/cancel` ends a running conversation.
     * Every other update leaves the conversation as it is.
     */
    method Dispatch(event: Event, now: int, services: Services)
      requires SessionValid() && services.clip.Valid()
      modifies this, db
      ensures SessionValid()
      ensures db.commits <= old(db.commits) + 1
      ensures db.commits == old(db.commits) + 1 ==> old(state) == WaitingLocation && state == End
      ensures !Handles(old(state), event) ==> unchanged(this) && unchanged(db)
      ensures old(state) == End && event.Photo? ==>
                unchanged(db) && (state, userData) == old(PhotoOutcome(event.fileId, event.image, services))
      ensures old(state) == WaitingName && event.Text? ==>
                && unchanged(db)
                && (|Strip(event.text)| < 2 ==> state == WaitingName && userData == old(userData))
                && (|Strip(event.text)| >= 2 ==>
                      state == WaitingDescription && userData == old(userData)[Name := Str(Strip(event.text))])
      ensures old(state) == WaitingDescription && event.Text? ==>
                && unchanged(db) && state == WaitingLocation
                && userData == old(userData)[Description :=
                     if Strip(event.text) == prefs.GetText("btn_skip", userId) then Null else Str(Strip(event.text))]
      ensures old(state) == WaitingLocation && event.Location? ==>
                var geo := services.reverseGeocode(event.lat, event.lon);
                && userData == LocatedByGps(old(userData), event.lat, event.lon, geo)
                && Finished(Some(event.lat), Some(event.lon), GeoZip(geo), now)
      ensures old(state) == WaitingLocation && event.Text? && Classify(event.text) == SkipInput ==>
                userData == old(userData) && Finished(None, None, None, now)
      ensures old(state) == WaitingLocation && event.Text? && Classify(event.text) == PostalCode ==>
                var coords := services.zipToCoords(Strip(event.text));
                && userData == LocatedByCode(old(userData), Strip(event.text), coords)
                && Finished(CodeLat(coords), CodeLon(coords), Some(Strip(event.text)), now)
      ensures old(state) == WaitingLocation && event.Text? && !Accepts(event) ==>
                state == WaitingLocation && userData == old(userData) && unchanged(db)
      ensures old(state) != End && event == Command("cancel") ==> state == End && userData == old(userData) && unchanged(db)
    {
      match event
      case Photo(fileId, image) =>
        if state == End {
          StepPhoto(fileId, image, services);
        } else {
          UnchangedKeepsSession();
        }
      case Text(text) =>
        DispatchText(text, now, services);
      case Location(lat, lon) =>
        if state == WaitingLocation {
          StepLocation(lat, lon, now, services);
        } else {
          UnchangedKeepsSession();
        }
      case Command(name) =>
        if state != End && name == "cancel" {
          state := Cancel();
        } else {
          UnchangedKeepsSession();
        }
    }
  }
}

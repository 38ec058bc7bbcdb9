/** Content, Track and AudioBookChapter (main.py:791-1028): constructors,
    setters, the de-duplicating `add_*` methods, and serialisation. */
module Contents {
  import opened Wrappers
  import opened Errors
  import opened Values
  import opened Domain
  import opened Runtime
  import opened Validation

  const MicrosPerSecond: int := 1_000_000

  const SecondsPerDay: int := 86_400

  /** Python's `timedelta.max.days`: a timedelta spans at most this many days either way. */
  const MaxDays: int := 999_999_999

  /** The spans a `timedelta` can hold, in microseconds. */
  predicate InTimedeltaRange(micros: int) {
    -MaxDays * SecondsPerDay * MicrosPerSecond <= micros < (MaxDays + 1) * SecondsPerDay * MicrosPerSecond
  }

  // ---------------------------------------------------------- constructors

  /** `Content(...)`: stores its arguments; a falsy id list becomes `[]`. */
  function NewContent(id: Value, title: Value, duration: Duration, artistId: Value,
                      collaboratorIds: Value, sourceId: Value): (c: Content)
    ensures c.Content? && c.id == id && c.title == title && c.duration == duration
    ensures c.artistId == artistId && c.sourceId == sourceId
    ensures Truthy(collaboratorIds) ==> c.collaboratorIds == collaboratorIds
    ensures !Truthy(collaboratorIds) ==> c.collaboratorIds == EmptyList
  {
    Content(id, title, duration, artistId, Or(collaboratorIds, EmptyList), sourceId)
  }

  /** `Track(...)`: stores its arguments; the album id is the source id. */
  function NewTrack(id: Value, title: Value, genres: seq<TrackGenre>, duration: Duration,
                    artistId: Value, collaboratorIds: Value, producerIds: Value,
                    albumId: Value): (t: Content)
    ensures t.Track? && t.id == id && t.title == title && t.genres == genres
    ensures t.duration == duration && t.artistId == artistId && t.sourceId == albumId
    ensures Truthy(collaboratorIds) ==> t.collaboratorIds == collaboratorIds
    ensures !Truthy(collaboratorIds) ==> t.collaboratorIds == EmptyList
    ensures Truthy(producerIds) ==> t.producerIds == producerIds
    ensures !Truthy(producerIds) ==> t.producerIds == EmptyList
  {
    Track(id, title, duration, artistId, Or(collaboratorIds, EmptyList), albumId,
          genres, Or(producerIds, EmptyList))
  }

  /** `AudioBookChapter(...)`: without narrators the author narrates. */
  function NewChapter(id: Value, title: Value, duration: Duration, authorId: Value,
                      audioBookId: Value, collaboratorIds: Value, narratorIds: Value): (ch: Content)
    ensures ch.Chapter? && ch.id == id && ch.title == title && ch.duration == duration
    ensures ch.artistId == authorId && ch.sourceId == audioBookId
    ensures Truthy(collaboratorIds) ==> ch.collaboratorIds == collaboratorIds
    ensures !Truthy(collaboratorIds) ==> ch.collaboratorIds == EmptyList
    ensures Truthy(narratorIds) ==> ch.narratorIds == narratorIds
    ensures !Truthy(narratorIds) ==> ch.narratorIds == List([authorId])
  {
    Chapter(id, title, duration, authorId, Or(collaboratorIds, EmptyList), audioBookId,
            Or(narratorIds, List([authorId])))
  }

  // --------------------------------------------------------------- setters

  /** The list of strings a validated `List[str]` argument stands for. */
  function StrListValue(items: seq<PyValue>): (r: Value)
    requires forall i :: 0 <= i < |items| ==> items[i].PStr?
    ensures r.List? && |r.items| == |items|
    ensures forall i :: 0 <= i < |items| ==> r.items[i] == Str(items[i].s)
  {
    List(seq(|items|, i requires 0 <= i < |items| => Str(items[i].s)))
  }

  /** Validates a `List[str]` argument and returns the list it holds. */
  function CheckedStrList(v: PyValue, field: string): (r: Result<Value, DataError>)
    ensures r.Success? <==> v.PList? && forall i :: 0 <= i < |v.items| ==> v.items[i].PStr?
    ensures r.Success? ==> FromTree(r.value) == v
    ensures r.Failure? ==> Fail(r.error) == ValidateList(v, field, StrClass)
  {
    if !v.PList? then Failure(ValidateList(v, field, StrClass).error)
    else
      AllStrInstances(v.items);
      match ValidateList(v, field, StrClass)
      case Fail(e) => Failure(e)
      case Pass =>
        var r := StrListValue(v.items);
        assert FromTree(r).items == v.items;
        Success(r)
  }

  lemma AllStrInstances(items: seq<PyValue>)
    ensures (forall i :: 0 <= i < |items| ==> IsInstance(items[i], StrClass)) <==>
            (forall i :: 0 <= i < |items| ==> items[i].PStr?)
  {
    forall i | 0 <= i < |items| { StrInstances(items[i]); }
  }

  lemma AllTrackGenreInstances(items: seq<PyValue>)
    ensures (forall i :: 0 <= i < |items| ==> IsInstance(items[i], TrackGenreClass)) <==>
            (forall i :: 0 <= i < |items| ==> items[i].PEnum? && items[i].member.TrackGenreMember?)
  {
    forall i | 0 <= i < |items| { EnumInstances(items[i]); }
  }

  /** The genres a validated `List[TrackGenre]` argument holds. */
  function TrackGenresOf(items: seq<PyValue>): (r: seq<TrackGenre>)
    requires forall i :: 0 <= i < |items| ==> items[i].PEnum? && items[i].member.TrackGenreMember?
    ensures |r| == |items| && forall i :: 0 <= i < |items| ==> items[i] == PEnum(TrackGenreMember(r[i]))
  {
    seq(|items|, i requires 0 <= i < |items| && items[i].PEnum? && items[i].member.TrackGenreMember?
                   => items[i].member.trackGenre)
  }

  /** `content.title = v` */
  function SetTitle(c: Content, v: PyValue): (r: Result<Content, DataError>)
    ensures r.Success? <==> v.PStr? && exists k :: 0 <= k < |v.s| && !IsSpace(v.s[k])
    ensures r.Success? ==> r.value == c.(title := Str(v.s))
    ensures r.Failure? ==> Fail(r.error) == ValidateStr(v, "title", false)
  {
    match ValidateStr(v, "title", false)
    case Fail(e) => Failure(e)
    case Pass => Success(c.(title := Str(v.s)))
  }

  /** `content.duration = v`: a non-timedelta or a negative span is ignored
      (the source prints a notice and returns); no exception is raised. */
  function SetDuration(c: Content, v: PyValue): (r: Content)
    ensures v.PTimedelta? && v.micros >= 0 ==> r == c.(duration := TimeDelta(v.micros))
    ensures !(v.PTimedelta? && v.micros >= 0) ==> r == c
  {
    if v.PTimedelta? && v.micros >= 0 then c.(duration := TimeDelta(v.micros)) else c
  }

  /** The duration setter keeps a non-negative timedelta non-negative, whatever it is given. */
  lemma SetDurationKeepsNonNegative(c: Content, v: PyValue)
    requires c.duration.TimeDelta? && c.duration.micros >= 0
    ensures SetDuration(c, v).duration.TimeDelta? && SetDuration(c, v).duration.micros >= 0
    ensures SetDuration(c, v).id == c.id && SetDuration(c, v).title == c.title
  {
  }

  /** `content.collaborator_ids = v` */
  function SetCollaboratorIds(c: Content, v: PyValue): (r: Result<Content, DataError>)
    ensures r.Success? <==> v.PList? && forall i :: 0 <= i < |v.items| ==> v.items[i].PStr?
    ensures r.Success? ==> FromTree(r.value.collaboratorIds) == v
                           && r.value == c.(collaboratorIds := r.value.collaboratorIds)
    ensures r.Failure? ==> Fail(r.error) == ValidateList(v, "collaborator_ids", StrClass)
  {
    var ids :- CheckedStrList(v, "collaborator_ids");
    Success(c.(collaboratorIds := ids))
  }

  /** `track.producer_ids = v` */
  function SetProducerIds(t: Content, v: PyValue): (r: Result<Content, DataError>)
    requires t.Track?
    ensures r.Success? <==> v.PList? && forall i :: 0 <= i < |v.items| ==> v.items[i].PStr?
    ensures r.Success? ==> r.value.Track? && FromTree(r.value.producerIds) == v
                           && r.value == t.(producerIds := r.value.producerIds)
    ensures r.Failure? ==> Fail(r.error) == ValidateList(v, "producer_ids", StrClass)
  {
    var ids :- CheckedStrList(v, "producer_ids");
    Success(t.(producerIds := ids))
  }

  /** `chapter.narrator_ids = v` */
  function SetNarratorIds(ch: Content, v: PyValue): (r: Result<Content, DataError>)
    requires ch.Chapter?
    ensures r.Success? <==> v.PList? && forall i :: 0 <= i < |v.items| ==> v.items[i].PStr?
    ensures r.Success? ==> r.value.Chapter? && FromTree(r.value.narratorIds) == v
                           && r.value == ch.(narratorIds := r.value.narratorIds)
    ensures r.Failure? ==> Fail(r.error) == ValidateList(v, "narrator_ids", StrClass)
  {
    var ids :- CheckedStrList(v, "narrator_ids");
    Success(ch.(narratorIds := ids))
  }

  /** `track.genres = v`: every element must be a TrackGenre member. */
  function SetGenres(t: Content, v: PyValue): (r: Result<Content, DataError>)
    requires t.Track?
    ensures r.Success? <==> v.PList? && forall i :: 0 <= i < |v.items| ==>
                                          v.items[i].PEnum? && v.items[i].member.TrackGenreMember?
    ensures r.Success? ==> r.value.Track? && |r.value.genres| == |v.items|
                           && (forall i :: 0 <= i < |v.items| ==> v.items[i] == PEnum(TrackGenreMember(r.value.genres[i])))
                           && r.value == t.(genres := r.value.genres)
    ensures r.Failure? ==> Fail(r.error) == ValidateList(v, "genres", TrackGenreClass)
  {
    if !v.PList? then Failure(ValidateList(v, "genres", TrackGenreClass).error)
    else
      AllTrackGenreInstances(v.items);
      match ValidateList(v, "genres", TrackGenreClass)
      case Fail(e) => Failure(e)
      case Pass => Success(t.(genres := TrackGenresOf(v.items)))
  }

  // ---------------------------------------------------------- add_ methods

  /** `track.add_genre(g)`: appends `g` unless it is already there. */
  function AddGenre(t: Content, g: TrackGenre): (r: Content)
    requires t.Track?
    ensures r.Track? && g in r.genres
    ensures g in t.genres ==> r == t
    ensures g !in t.genres ==> r == t.(genres := t.genres + [g])
  {
    if g in t.genres then t else t.(genres := t.genres + [g])
  }

  predicate NoDuplicates<T(==)>(xs: seq<T>) {
    forall i, j :: 0 <= i < j < |xs| ==> xs[i] != xs[j]
  }

  /** Adding a genre twice is adding it once, and a duplicate-free genre list stays duplicate-free. */
  lemma AddGenreIdempotent(t: Content, g: TrackGenre)
    requires t.Track?
    ensures AddGenre(AddGenre(t, g), g) == AddGenre(t, g)
    ensures NoDuplicates(t.genres) ==> NoDuplicates(AddGenre(t, g).genres)
  {
  }

  /** `if x not in ids: ids.append(x)` on a raw id-list attribute. */
  function AddUnique(ids: Value, x: Value): (r: Result<Value, PyError>)
    ensures ids.List? ==> r.Success? && r.value.List?
    ensures ids.List? && (exists i :: 0 <= i < |ids.items| && PyEq(x, ids.items[i])) ==> r.value == ids
    ensures ids.List? && !(exists i :: 0 <= i < |ids.items| && PyEq(x, ids.items[i])) ==> r.value == List(ids.items + [x])
    ensures r.Success? && !ids.List? ==> r.value == ids
    ensures r.Failure? ==> Contains(ids, x).Failure? || Append(ids, x).Failure?
  {
    var present :- Contains(ids, x);
    if present then Success(ids) else Append(ids, x)
  }

  /** `track.add_producer_id(x)` */
  function AddProducerId(t: Content, x: Value): (r: Result<Content, PyError>)
    requires t.Track?
    ensures r.Success? ==> r.value.Track? && r.value == t.(producerIds := r.value.producerIds)
    ensures r.Success? <==> AddUnique(t.producerIds, x).Success?
    ensures r.Success? ==> r.value.producerIds == AddUnique(t.producerIds, x).value
  {
    var ids :- AddUnique(t.producerIds, x);
    Success(t.(producerIds := ids))
  }

  /** `chapter.add_narrator_id(x)` */
  function AddNarratorId(ch: Content, x: Value): (r: Result<Content, PyError>)
    requires ch.Chapter?
    ensures r.Success? ==> r.value.Chapter? && r.value == ch.(narratorIds := r.value.narratorIds)
    ensures r.Success? <==> AddUnique(ch.narratorIds, x).Success?
    ensures r.Success? ==> r.value.narratorIds == AddUnique(ch.narratorIds, x).value
  {
    var ids :- AddUnique(ch.narratorIds, x);
    Success(ch.(narratorIds := ids))
  }

  /** After a successful add the id is present, and adding it again changes nothing. */
  lemma AddUniqueIdempotent(ids: Value, x: Value)
    requires ids.List?
    ensures AddUnique(ids, x).Success?
    ensures exists i :: 0 <= i < |AddUnique(ids, x).value.items| && PyEq(x, AddUnique(ids, x).value.items[i])
    ensures AddUnique(AddUnique(ids, x).value, x) == AddUnique(ids, x)
  {
    var r := AddUnique(ids, x).value;
    if !(exists i :: 0 <= i < |ids.items| && PyEq(x, ids.items[i])) {
      PyEqReflexive(x);
      assert r.items[|ids.items|] == x;
    }
  }

  /** `content.add_collaborator_id(x)` appends to the copy the property
      returns, so it never changes the content; it can still raise. */
  function AddCollaboratorId(c: Content, x: Value): (r: Result<Content, PyError>)
    ensures r.Success? ==> r.value == c
    ensures c.collaboratorIds.List? ==> r.Success?
  {
    var present :- Contains(c.collaboratorIds, x);
    if present then Success(c)
    else
      var copy :- Copy(c.collaboratorIds);
      var _ :- Append(copy, x);
      Success(c)
  }

  // ----------------------------------------------------------- serialise

  /** `int(x)` on a float: rounds toward zero. */
  function TruncDiv(a: int, b: int): int
    requires b > 0
  {
    if a >= 0 then a / b else -((-a) / b)
  }

  /** `int(duration.total_seconds())`: the whole seconds, truncated toward zero. */
  function DurationSeconds(d: Duration): (r: Result<Value, PyError>)
    ensures r.Success? <==> d.TimeDelta?
    ensures r.Success? ==> r.value.Int?
    ensures r.Success? && d.micros >= 0 ==>
              0 <= r.value.i * MicrosPerSecond <= d.micros < (r.value.i + 1) * MicrosPerSecond
    ensures r.Success? && d.micros < 0 ==>
              (r.value.i - 1) * MicrosPerSecond < d.micros <= r.value.i * MicrosPerSecond <= 0
  {
    match d
    case TimeDelta(m) => Success(Int(TruncDiv(m, MicrosPerSecond)))
    case RawDuration(_) => Failure(AttributeError("total_seconds"))
  }

  /** The entries `Content.serialize` writes, in order, given the whole seconds. */
  function BaseEntries(c: Content, seconds: Value): seq<(string, Value)> {
    [("id", c.id), ("title", c.title), ("duration", seconds), ("artist", c.artistId),
     ("collaborator_ids", c.collaboratorIds), ("source", c.sourceId)]
  }

  function GenreValues(gs: seq<TrackGenre>): (r: Value)
    ensures r.List? && |r.items| == |gs|
    ensures forall i :: 0 <= i < |gs| ==> r.items[i] == Str(TrackGenreValue(gs[i]))
  {
    List(seq(|gs|, i requires 0 <= i < |gs| => Str(TrackGenreValue(gs[i]))))
  }

  /** The entries a subclass's `serialize` appends to its parent's. */
  function ExtraEntries(c: Content): seq<(string, Value)> {
    match c
    case Content(_, _, _, _, _, _) => []
    case Track(_, _, _, _, _, _, genres, producers) =>
      [("genres", GenreValues(genres)), ("producer_ids", producers)]
    case Chapter(_, _, _, _, _, _, narrators) => [("narrator_ids", narrators)]
  }

  function Entries(c: Content, seconds: Value): seq<(string, Value)> {
    BaseEntries(c, seconds) + ExtraEntries(c)
  }

  /** The id lists a subclass's `serialize` copies: each must have `.copy()`. */
  function CopyExtra(c: Content): (r: Outcome<PyError>)
    ensures r.Pass? <==> (c.Track? ==> c.producerIds.List? || c.producerIds.Map?) &&
                         (c.Chapter? ==> c.narratorIds.List? || c.narratorIds.Map?)
  {
    match c
    case Content(_, _, _, _, _, _) => Pass
    case Track(_, _, _, _, _, _, _, producers) =>
      if Copy(producers).Failure? then Fail(Copy(producers).error) else Pass
    case Chapter(_, _, _, _, _, _, narrators) =>
      if Copy(narrators).Failure? then Fail(Copy(narrators).error) else Pass
  }

  /** `serialize()` of a Content, Track or AudioBookChapter: the duration
      becomes whole seconds, id lists are copied, genres become their values. */
  function SerializeContent(c: Content): (r: Result<Value, PyError>)
    ensures r.Success? <==>
              c.duration.TimeDelta? && (c.collaboratorIds.List? || c.collaboratorIds.Map?) &&
              (c.Track? ==> c.producerIds.List? || c.producerIds.Map?) &&
              (c.Chapter? ==> c.narratorIds.List? || c.narratorIds.Map?)
    ensures r.Success? ==> r.value == Map(Entries(c, DurationSeconds(c.duration).value))
  {
    var seconds :- DurationSeconds(c.duration);
    var collaborators :- Copy(c.collaboratorIds);
    if CopyExtra(c).Fail? then Failure(CopyExtra(c).error)
    else Success(Map(Entries(c, seconds)))
  }

  // --------------------------------------------------------- deserialise

  /** `timedelta(seconds=v)` for an int or bool; other tree values raise TypeError. */
  function SecondsToTimedelta(v: Value): (r: Result<Duration, PyError>)
    ensures r.Success? ==> Numeric(v).Some? && r.value == TimeDelta(Numeric(v).value * MicrosPerSecond)
    ensures Numeric(v).None? ==> r.Failure? && r.error.TypeError?
    ensures Numeric(v).Some? ==> (r.Success? <==> InTimedeltaRange(Numeric(v).value * MicrosPerSecond))
    ensures Numeric(v).Some? && r.Failure? ==> r.error.OverflowError?
  {
    match Numeric(v)
    case None => Failure(TypeError("unsupported type for timedelta seconds component"))
    case Some(n) =>
      if n < -MaxDays * SecondsPerDay || n >= (MaxDays + 1) * SecondsPerDay then Failure(OverflowError("days"))
      else Success(TimeDelta(n * MicrosPerSecond))
  }

  /** The keys every deserialiser reads for the common fields: "id", "title",
      the artist id from `artistKey`, "source_id", and "collaborator_ids"
      (missing or falsy becomes `[]`). A missing key reads as None. */
  predicate ReadsKeys(c: Content, e: seq<(string, Value)>, artistKey: string) {
    c.id == Get(e, "id", Null) && c.title == Get(e, "title", Null)
    && c.artistId == Get(e, artistKey, Null) && c.sourceId == Get(e, "source_id", Null)
    && c.collaboratorIds == Or(Get(e, "collaborator_ids", EmptyList), EmptyList)
  }

  /** `Content.deserialize(data)`: reads "artist_id" and "source_id", and
      converts the duration back into a timedelta. */
  function DeserializeContent(d: Value): (r: Result<Content, PyError>)
    ensures r.Success? <==> d.Map? && SecondsToTimedelta(Get(d.entries, "duration", Null)).Success?
    ensures r.Success? ==> r.value.Content? && r.value.duration.TimeDelta?
                           && r.value.duration.micros % MicrosPerSecond == 0
    ensures r.Success? ==> r.value.duration == SecondsToTimedelta(Get(d.entries, "duration", Null)).value
    ensures r.Success? ==> ReadsKeys(r.value, d.entries, "artist_id")
  {
    if !d.Map? then Failure(AttributeError("get"))
    else
      var e := d.entries;
      var duration :- SecondsToTimedelta(Get(e, "duration", Null));
      Success(NewContent(Get(e, "id", Null), Get(e, "title", Null), duration,
                         Get(e, "artist_id", Null), Get(e, "collaborator_ids", EmptyList),
                         Get(e, "source_id", Null)))
  }

  /** `Track.deserialize(data)`: reads "creator_id" and "source_id", and
      stores the duration exactly as found. */
  function DeserializeTrack(d: Value): (r: Result<Content, PyError>)
    ensures r.Success? <==> d.Map? && Iterate(Get(d.entries, "genres", EmptyList)).Success?
                            && MapAll(Iterate(Get(d.entries, "genres", EmptyList)).value, TrackGenreOf).Success?
    ensures r.Success? ==> r.value.Track? && r.value.duration == RawDuration(Get(d.entries, "duration", Null))
    ensures r.Success? ==> ReadsKeys(r.value, d.entries, "creator_id")
    ensures r.Success? ==> r.value.genres == MapAll(Iterate(Get(d.entries, "genres", EmptyList)).value, TrackGenreOf).value
    ensures r.Success? ==> r.value.producerIds == Or(Get(d.entries, "producer_ids", EmptyList), EmptyList)
  {
    if !d.Map? then Failure(AttributeError("get"))
    else
      var e := d.entries;
      var genreItems :- Iterate(Get(e, "genres", EmptyList));
      var genres :- MapAll(genreItems, TrackGenreOf);
      Success(NewTrack(Get(e, "id", Null), Get(e, "title", Null), genres,
                       RawDuration(Get(e, "duration", Null)), Get(e, "creator_id", Null),
                       Get(e, "collaborator_ids", EmptyList), Get(e, "producer_ids", EmptyList),
                       Get(e, "source_id", Null)))
  }

  /** `AudioBookChapter.deserialize(data)`: reads "artist_id" and "source_id",
      and stores the duration exactly as found. */
  function DeserializeChapter(d: Value): (r: Result<Content, PyError>)
    ensures r.Success? <==> d.Map?
    ensures r.Success? ==> r.value.Chapter? && r.value.duration == RawDuration(Get(d.entries, "duration", Null))
    ensures r.Success? ==> ReadsKeys(r.value, d.entries, "artist_id")
    ensures r.Success? && Truthy(Get(d.entries, "narrator_ids", EmptyList)) ==>
              r.value.narratorIds == Get(d.entries, "narrator_ids", EmptyList)
    ensures r.Success? && !Truthy(Get(d.entries, "narrator_ids", EmptyList)) ==>
              r.value.narratorIds == List([Get(d.entries, "artist_id", Null)])
  {
    if !d.Map? then Failure(AttributeError("get"))
    else
      var e := d.entries;
      Success(NewChapter(Get(e, "id", Null), Get(e, "title", Null),
                         RawDuration(Get(e, "duration", Null)), Get(e, "artist_id", Null),
                         Get(e, "source_id", Null), Get(e, "collaborator_ids", EmptyList),
                         Get(e, "narrator_ids", EmptyList)))
  }

  // ------------------------------------------------------------ round trips

  /** Each key `Content.serialize` writes is found at its own entry. */
  lemma {:induction false} BaseLookup(c: Content, seconds: Value, extra: seq<(string, Value)>)
    ensures Lookup(BaseEntries(c, seconds) + extra, "id") == Some(c.id)
    ensures Lookup(BaseEntries(c, seconds) + extra, "title") == Some(c.title)
    ensures Lookup(BaseEntries(c, seconds) + extra, "duration") == Some(seconds)
    ensures Lookup(BaseEntries(c, seconds) + extra, "artist") == Some(c.artistId)
    ensures Lookup(BaseEntries(c, seconds) + extra, "collaborator_ids") == Some(c.collaboratorIds)
    ensures Lookup(BaseEntries(c, seconds) + extra, "source") == Some(c.sourceId)
  {
    var e := BaseEntries(c, seconds) + extra;
    LookupFirst(e, 0);
    LookupFirst(e, 1);
    LookupFirst(e, 2);
    LookupFirst(e, 3);
    LookupFirst(e, 4);
    LookupFirst(e, 5);
  }

  /** The keys a subclass adds are found at their own entries. */
  lemma ExtraLookup(c: Content, seconds: Value)
    ensures c.Track? ==> Lookup(Entries(c, seconds), "genres") == Some(GenreValues(c.genres))
    ensures c.Track? ==> Lookup(Entries(c, seconds), "producer_ids") == Some(c.producerIds)
    ensures c.Chapter? ==> Lookup(Entries(c, seconds), "narrator_ids") == Some(c.narratorIds)
  {
    var e := Entries(c, seconds);
    if c.Track? {
      LookupFirst(e, 6);
      LookupFirst(e, 7);
    } else if c.Chapter? {
      LookupFirst(e, 6);
    }
  }

  /** None of the keys the deserialisers read for the artist and source is written. */
  lemma MissingKeys(c: Content, seconds: Value)
    ensures Lookup(Entries(c, seconds), "creator_id").None?
    ensures Lookup(Entries(c, seconds), "artist_id").None?
    ensures Lookup(Entries(c, seconds), "source_id").None?
  {
  }

  /** Where each key of a serialised content is found, and which keys are missing. */
  lemma EntriesLookup(c: Content, seconds: Value)
    ensures Lookup(Entries(c, seconds), "id") == Some(c.id)
    ensures Lookup(Entries(c, seconds), "title") == Some(c.title)
    ensures Lookup(Entries(c, seconds), "duration") == Some(seconds)
    ensures Lookup(Entries(c, seconds), "artist") == Some(c.artistId)
    ensures Lookup(Entries(c, seconds), "collaborator_ids") == Some(c.collaboratorIds)
    ensures Lookup(Entries(c, seconds), "source") == Some(c.sourceId)
    ensures c.Track? ==> Lookup(Entries(c, seconds), "genres") == Some(GenreValues(c.genres))
    ensures c.Track? ==> Lookup(Entries(c, seconds), "producer_ids") == Some(c.producerIds)
    ensures c.Chapter? ==> Lookup(Entries(c, seconds), "narrator_ids") == Some(c.narratorIds)
    ensures Lookup(Entries(c, seconds), "creator_id").None?
    ensures Lookup(Entries(c, seconds), "artist_id").None?
    ensures Lookup(Entries(c, seconds), "source_id").None?
  {
    BaseLookup(c, seconds, ExtraEntries(c));
    ExtraLookup(c, seconds);
    MissingKeys(c, seconds);
  }

  /** `serialize` writes the creator under "artist" and the source under
      "source", while every deserialiser looks for other keys. */
  lemma SerializedKeysMismatch(c: Content)
    requires SerializeContent(c).Success?
    ensures Lookup(SerializeContent(c).value.entries, "artist") == Some(c.artistId)
    ensures Lookup(SerializeContent(c).value.entries, "source") == Some(c.sourceId)
    ensures Lookup(SerializeContent(c).value.entries, "creator_id").None?
    ensures Lookup(SerializeContent(c).value.entries, "artist_id").None?
    ensures Lookup(SerializeContent(c).value.entries, "source_id").None?
  {
    EntriesLookup(c, DurationSeconds(c.duration).value);
  }

  lemma GenresRoundTrip(gs: seq<TrackGenre>)
    ensures MapAll(GenreValues(gs).items, TrackGenreOf) == Success(gs)
  {
    var r := MapAll(GenreValues(gs).items, TrackGenreOf);
    EnumValuesRoundTrip();
    assert r.Success?;
    assert r.value == gs;
  }

  /** What a Track looks like after `Track.deserialize(t.serialize())`. */
  function ReloadedTrack(t: Content): Content
    requires t.Track? && t.duration.TimeDelta?
  {
    Track(t.id, t.title, RawDuration(DurationSeconds(t.duration).value), Null,
          Or(t.collaboratorIds, EmptyList), Null, t.genres, Or(t.producerIds, EmptyList))
  }

  /** What a chapter looks like after `AudioBookChapter.deserialize(ch.serialize())`. */
  function ReloadedChapter(ch: Content): Content
    requires ch.Chapter? && ch.duration.TimeDelta?
  {
    Chapter(ch.id, ch.title, RawDuration(DurationSeconds(ch.duration).value), Null,
            Or(ch.collaboratorIds, EmptyList), Null, Or(ch.narratorIds, List([Null])))
  }

  /** Track round trip: id, title, genres, collaborator and producer ids come
      back; the artist and album ids come back as None, and the duration as
      the bare whole-second count rather than a timedelta. */
  lemma TrackRoundTrip(t: Content)
    requires t.Track? && SerializeContent(t).Success?
    ensures DeserializeTrack(SerializeContent(t).value) == Success(ReloadedTrack(t))
  {
    EntriesLookup(t, DurationSeconds(t.duration).value);
    GenresRoundTrip(t.genres);
  }

  /** A deserialised Track cannot be serialised again: its duration is no longer a timedelta. */
  lemma TrackReserialiseFails(t: Content)
    requires t.Track? && SerializeContent(t).Success?
    ensures SerializeContent(DeserializeTrack(SerializeContent(t).value).value) == Failure(AttributeError("total_seconds"))
  {
    TrackRoundTrip(t);
  }

  /** Chapter round trip: the author and book ids come back as None, so an
      empty narrator list comes back as `[None]`. */
  lemma ChapterRoundTrip(ch: Content)
    requires ch.Chapter? && SerializeContent(ch).Success?
    ensures DeserializeChapter(SerializeContent(ch).value) == Success(ReloadedChapter(ch))
  {
    EntriesLookup(ch, DurationSeconds(ch.duration).value);
  }

  /** Content round trip: the duration comes back as a timedelta of whole
      seconds (within timedelta's range); artist and source ids are lost. */
  lemma ContentRoundTrip(c: Content)
    requires c.Content? && SerializeContent(c).Success?
    requires InTimedeltaRange(c.duration.micros)
    ensures DeserializeContent(SerializeContent(c).value) ==
            Success(Content(c.id, c.title,
                            TimeDelta(DurationSeconds(c.duration).value.i * MicrosPerSecond), Null,
                            Or(c.collaboratorIds, EmptyList), Null))
  {
    EntriesLookup(c, DurationSeconds(c.duration).value);
    SecondsRoundTrip(c.duration.micros);
  }

  /** Writing a timedelta as whole seconds and reading it back loses less
      than a second, and nothing at all for a whole number of seconds. */
  lemma SecondsRoundTrip(m: int)
    requires InTimedeltaRange(m)
    ensures SecondsToTimedelta(DurationSeconds(TimeDelta(m)).value)
            == Success(TimeDelta(DurationSeconds(TimeDelta(m)).value.i * MicrosPerSecond))
    ensures -MicrosPerSecond < DurationSeconds(TimeDelta(m)).value.i * MicrosPerSecond - m < MicrosPerSecond
    ensures m % MicrosPerSecond == 0 ==> DurationSeconds(TimeDelta(m)).value.i * MicrosPerSecond == m
  {
    var q := DurationSeconds(TimeDelta(m)).value.i;
    assert -MaxDays * SecondsPerDay <= q < (MaxDays + 1) * SecondsPerDay;
  }
}

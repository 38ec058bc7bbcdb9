/** Collection, Album, Playlist and AudioBook (main.py:484-788): the
    consistency engine that rebuilds the collaborator list from the contents,
    the content mutators, and serialisation. */
module Collections {
  import opened Wrappers
  import opened Errors
  import opened Values
  import opened Domain
  import opened Runtime
  import opened Validation
  import opened Contents

  // ---------------------------------------------------------- constructors

  /** `Collection(...)`: stores its arguments; the collaborator list is NOT
      derived from the contents. */
  function NewCollection(id: Value, title: Value, contents: seq<Content>, creatorId: Value,
                         collaboratorIds: Value): (k: Collection)
    ensures k.Collection? && k.id == id && k.title == title && k.contents == contents
    ensures k.creatorId == creatorId
    ensures Truthy(collaboratorIds) ==> k.collaboratorIds == collaboratorIds
    ensures !Truthy(collaboratorIds) ==> k.collaboratorIds == EmptyList
  {
    Collection(id, title, contents, creatorId, Or(collaboratorIds, EmptyList))
  }

  /** `Album(...)`: an empty genre list is "refreshed", which finds nothing. */
  function NewAlbum(id: Value, title: Value, tracks: seq<Content>, artistId: Value,
                    collaboratorIds: Value, genres: seq<TrackGenre>): (k: Collection)
    ensures k.Album? && k.id == id && k.title == title && k.contents == tracks
    ensures k.creatorId == artistId && k.genres == genres
    ensures Truthy(collaboratorIds) ==> k.collaboratorIds == collaboratorIds
    ensures !Truthy(collaboratorIds) ==> k.collaboratorIds == EmptyList
  {
    GenreBearersEmpty(tracks);
    Album(id, title, tracks, artistId, Or(collaboratorIds, EmptyList),
          if genres == [] then RefreshGenres(tracks) else genres)
  }

  /** `Playlist(...)`: a playlist starts with no collaborators. */
  function NewPlaylist(id: Value, title: Value, tracks: seq<Content>, ownerId: Value,
                       genres: seq<TrackGenre>): (k: Collection)
    ensures k.Playlist? && k.id == id && k.title == title && k.contents == tracks
    ensures k.creatorId == ownerId && k.genres == genres && k.collaboratorIds == EmptyList
  {
    GenreBearersEmpty(tracks);
    Playlist(id, title, tracks, ownerId, EmptyList, if genres == [] then RefreshGenres(tracks) else genres)
  }

  /** `AudioBook(...)`: an audiobook starts with no collaborators. */
  function NewAudioBook(id: Value, title: Value, chapters: seq<Content>, authorId: Value,
                        genres: seq<AudioBookGenre>): (k: Collection)
    ensures k.AudioBook? && k.id == id && k.title == title && k.contents == chapters
    ensures k.creatorId == authorId && k.bookGenres == genres && k.collaboratorIds == EmptyList
  {
    GenreBearersEmpty(chapters);
    AudioBook(id, title, chapters, authorId, EmptyList, if genres == [] then RefreshGenres(chapters) else genres)
  }

  /** The `creator_id` property answers with the collection's own id. */
  function CreatorIdProperty(k: Collection): Value {
    k.id
  }

  // -------------------------------------------------- collaborator refresh

  /** The ids `refresh_collaborator_ids` sees in one content. The property
      returns `.copy()` of the stored value; when that raises AttributeError
      `hasattr` answers False and the content is skipped. A dict is iterated
      by its keys. */
  function ListedIds(c: Content): (r: seq<Value>)
    ensures Copy(c.collaboratorIds).Failure? ==> r == []
    ensures c.collaboratorIds.List? ==> r == c.collaboratorIds.items
    ensures c.collaboratorIds.Map? ==> r == KeysOf(c.collaboratorIds.entries)
  {
    match Copy(c.collaboratorIds)
    case Failure(_) => []
    case Success(ids) => Iterate(ids).value
  }

  /** Some content of the list lists `x` among its collaborators. */
  predicate Collaborates(contents: seq<Content>, x: Value) {
    exists j :: 0 <= j < |contents| && x in ListedIds(contents[j])
  }

  /** Every id the loop visits, in visiting order. */
  function AllListedIds(contents: seq<Content>): (r: seq<Value>)
    ensures forall x :: x in r <==> Collaborates(contents, x)
  {
    if contents == [] then []
    else
      var rest := AllListedIds(contents[1..]);
      assert forall x :: Collaborates(contents, x) <==>
                         x in ListedIds(contents[0]) || Collaborates(contents[1..], x) by {
        forall x ensures Collaborates(contents, x) <==>
                         x in ListedIds(contents[0]) || Collaborates(contents[1..], x) {
          if Collaborates(contents, x) && x !in ListedIds(contents[0]) {
            var j :| 0 <= j < |contents| && x in ListedIds(contents[j]);
            assert contents[j] == contents[1..][j - 1];
          }
          if Collaborates(contents[1..], x) {
            var j :| 0 <= j < |contents| - 1 && x in ListedIds(contents[1..][j]);
            assert contents[1..][j] == contents[j + 1];
          }
        }
      }
      ListedIds(contents[0]) + rest
  }

  /** The collaborator list is exactly the collaborators of the contents:
      every one of them is there, nothing else is, and no id twice. */
  ghost predicate Consistent(k: Collection) {
    k.collaboratorIds.List? &&
    (forall x :: Collaborates(k.contents, x) ==>
       exists i :: 0 <= i < |k.collaboratorIds.items| && PyEq(x, k.collaboratorIds.items[i])) &&
    (forall i {:trigger Collaborates(k.contents, k.collaboratorIds.items[i])} ::
       0 <= i < |k.collaboratorIds.items| ==> Collaborates(k.contents, k.collaboratorIds.items[i])) &&
    (forall i, j :: 0 <= i < j < |k.collaboratorIds.items| ==>
       !PyEq(k.collaboratorIds.items[i], k.collaboratorIds.items[j]))
  }

  /** `refresh_collaborator_ids`: the union, as a set, of the collaborator
      ids of all contents. Adding a list or dict id to the set raises TypeError. */
  function RefreshCollaborators(contents: seq<Content>): (r: Result<Value, PyError>)
    ensures r.Failure? <==> exists x :: Collaborates(contents, x) && !Hashable(x)
    ensures r.Failure? ==> r.error.TypeError?
    ensures r.Success? ==> r.value.List?
    ensures r.Success? ==> forall x :: Collaborates(contents, x) ==>
                             exists i :: 0 <= i < |r.value.items| && PyEq(x, r.value.items[i])
    ensures r.Success? ==> forall i {:trigger Collaborates(contents, r.value.items[i])} ::
                             0 <= i < |r.value.items| ==> Collaborates(contents, r.value.items[i])
    ensures r.Success? ==> forall i, j :: 0 <= i < j < |r.value.items| ==>
                             !PyEq(r.value.items[i], r.value.items[j])
  {
    var all := AllListedIds(contents);
    if forall x :: x in all ==> Hashable(x) then
      var ids := SetOf(all);
      assert forall i {:trigger Collaborates(contents, ids[i])} ::
               0 <= i < |ids| ==> Collaborates(contents, ids[i]) by {
        forall i | 0 <= i < |ids| ensures Collaborates(contents, ids[i]) {
          assert Among(all, ids[i]);
        }
      }
      Success(List(ids))
    else
      Failure(TypeError("unhashable type"))
  }

  /** The attributes `hasattr` finds on a content object. */
  function Attributes(c: Content): (r: set<string>) {
    var base := {"content_id", "title", "duration", "artist_id", "collaborator_ids", "source_id",
                 "add_collaborator_id", "serialize", "deserialize"};
    match c
    case Content(_, _, _, _, _, _) => base
    case Track(_, _, _, _, _, _, _, _) =>
      base + {"track_id", "genres", "producer_ids", "add_genre", "add_producer_id"}
    case Chapter(_, _, _, _, _, _, _) => base + {"chapter_id", "narrator_ids", "add_narrator_id"}
  }

  /** The contents `refresh_genres` would collect: those with a `genre` attribute. */
  function GenreBearers(contents: seq<Content>): (r: seq<Content>)
    ensures forall c :: c in r <==> c in contents && "genre" in Attributes(c)
  {
    if contents == [] then []
    else if "genre" in Attributes(contents[0]) then [contents[0]] + GenreBearers(contents[1..])
    else GenreBearers(contents[1..])
  }

  /** `refresh_genres`: the list of what the loop collected, empty exactly
      when no content has a `genre` attribute. The loop would add the
      contents themselves, not their genres; since no content class has that
      attribute, the collected list is always empty. */
  function RefreshGenres<G>(contents: seq<Content>): (r: seq<G>)
    ensures r == [] <==> GenreBearers(contents) == []
  {
    GenreBearersEmpty(contents);
    if GenreBearers(contents) == [] then [] else assert false; []
  }

  /** No content class has an attribute named `genre` (Track's is `genres`),
      so `refresh_genres` always leaves the genre list empty. */
  lemma {:induction false} GenreBearersEmpty(contents: seq<Content>)
    ensures GenreBearers(contents) == []
  {
    if contents != [] {
      assert "genre" !in Attributes(contents[0]);
      GenreBearersEmpty(contents[1..]);
    }
  }

  predicate SameKind(a: Collection, b: Collection) {
    (a.Collection? <==> b.Collection?) && (a.Album? <==> b.Album?) &&
    (a.Playlist? <==> b.Playlist?) && (a.AudioBook? <==> b.AudioBook?)
  }

  /** The genre list, for the kinds that have one, is empty. */
  predicate NoGenres(k: Collection) {
    match k
    case Collection(_, _, _, _, _) => true
    case Album(_, _, _, _, _, genres) => genres == []
    case Playlist(_, _, _, _, _, genres) => genres == []
    case AudioBook(_, _, _, _, _, genres) => genres == []
  }

  /** `update()`: refreshes the collaborators, and in the three subclasses
      also the genres, which therefore become empty. */
  function Update(k: Collection): (r: Result<Collection, PyError>)
    ensures r.Success? <==> RefreshCollaborators(k.contents).Success?
    ensures r.Success? ==> Consistent(r.value)
    ensures r.Success? ==> r.value.id == k.id && r.value.title == k.title
                           && r.value.contents == k.contents && r.value.creatorId == k.creatorId
    ensures r.Success? ==> SameKind(k, r.value) && NoGenres(r.value)
  {
    var ids :- RefreshCollaborators(k.contents);
    GenreBearersEmpty(k.contents);
    match k
    case Collection(id, title, contents, creator, _) => Success(Collection(id, title, contents, creator, ids))
    case Album(id, title, contents, creator, _, _) => Success(Album(id, title, contents, creator, ids, RefreshGenres(contents)))
    case Playlist(id, title, contents, creator, _, _) => Success(Playlist(id, title, contents, creator, ids, RefreshGenres(contents)))
    case AudioBook(id, title, contents, creator, _, _) => Success(AudioBook(id, title, contents, creator, ids, RefreshGenres(contents)))
  }

  /** Every collaborator id listed by any content can go into a set. */
  predicate IdsHashable(contents: seq<Content>) {
    forall j, x :: 0 <= j < |contents| && x in ListedIds(contents[j]) ==> Hashable(x)
  }

  /** `update()` raises exactly when some listed collaborator id is a list or a dict. */
  lemma UpdateSucceedsIff(k: Collection)
    ensures Update(k).Success? <==> IdsHashable(k.contents)
  {
    if !IdsHashable(k.contents) {
      var j, x :| 0 <= j < |k.contents| && x in ListedIds(k.contents[j]) && !Hashable(x);
      assert Collaborates(k.contents, x);
    }
  }

  /** Updating twice is updating once. */
  lemma UpdateIdempotent(k: Collection)
    requires IdsHashable(k.contents)
    ensures Update(k).Success?
    ensures Update(Update(k).value) == Update(k)
  {
    UpdateSucceedsIff(k);
  }

  // ------------------------------------------------------------- mutators

  /** The state a mutator leaves behind, and what it returned or raised.
      When `update()` raises, the change to the contents has already been made. */
  datatype Mutation<T> = Mutation(state: Collection, result: Result<T, PyError>)

  /** `add_content(c)`: append, then update. */
  function AddContent(k: Collection, c: Content): (r: Mutation<()>)
    ensures r.state.contents == k.contents + [c]
    ensures r.result.Success? <==> RefreshCollaborators(k.contents + [c]).Success?
    ensures r.result.Success? ==> Consistent(r.state) && r.state.id == k.id && r.state.title == k.title
    ensures r.result.Success? ==> r.state.creatorId == k.creatorId && SameKind(k, r.state) && NoGenres(r.state)
    ensures r.result.Failure? ==> r.state == k.(contents := k.contents + [c]) && r.result.error.TypeError?
  {
    var appended := k.(contents := k.contents + [c]);
    match Update(appended)
    case Success(updated) => Mutation(updated, Success(()))
    case Failure(e) => Mutation(appended, Failure(e))
  }

  /** The index of the first occurrence of `c`. */
  function FirstIndex(xs: seq<Content>, c: Content): (r: Option<nat>)
    ensures r.None? <==> c !in xs
    ensures r.Some? ==> r.value < |xs| && xs[r.value] == c && c !in xs[..r.value]
  {
    if xs == [] then None
    else if xs[0] == c then Some(0)
    else
      match FirstIndex(xs[1..], c)
      case None => None
      case Some(i) =>
        assert xs[..i + 1] == [xs[0]] + xs[1..][..i];
        Some(i + 1)
  }

  function RemoveAt(xs: seq<Content>, i: nat): (r: seq<Content>)
    requires i < |xs|
    ensures |r| == |xs| - 1
    ensures forall j :: 0 <= j < i ==> r[j] == xs[j]
    ensures forall j :: i <= j < |r| ==> r[j] == xs[j + 1]
  {
    xs[..i] + xs[i + 1..]
  }

  /** `remove_content(c)`: removes the first occurrence, then updates; a
      content that is not there raises ValueError and changes nothing. */
  function RemoveContent(k: Collection, c: Content): (r: Mutation<()>)
    ensures c !in k.contents ==> r.state == k && r.result.Failure? && r.result.error.ValueError?
    ensures c in k.contents ==> r.state.contents == RemoveAt(k.contents, FirstIndex(k.contents, c).value)
    ensures c in k.contents && r.result.Success? ==> Consistent(r.state)
    ensures r.result.Success? ==> r.state.id == k.id && r.state.title == k.title
                                  && r.state.creatorId == k.creatorId && SameKind(k, r.state) && NoGenres(r.state)
    ensures r.result.Failure? && c in k.contents ==> r.result.error.TypeError?
    ensures r.result.Failure? && c in k.contents ==>
              r.state == k.(contents := RemoveAt(k.contents, FirstIndex(k.contents, c).value))
  {
    match FirstIndex(k.contents, c)
    case None => Mutation(k, Failure(ValueError("list.remove(x): x not in list")))
    case Some(i) =>
      var removed := k.(contents := RemoveAt(k.contents, i));
      match Update(removed)
      case Success(updated) => Mutation(updated, Success(()))
      case Failure(e) => Mutation(removed, Failure(e))
  }

  /** `remove_content(c)` takes out exactly one copy of `c`, whatever `update()` does. */
  lemma RemoveContentDropsOne(k: Collection, c: Content)
    requires c in k.contents
    ensures multiset(RemoveContent(k, c).state.contents) == multiset(k.contents) - multiset{c}
  {
    var i := FirstIndex(k.contents, c).value;
    assert RemoveContent(k, c).state.contents == RemoveAt(k.contents, i);
    RemoveAtMultiset(k.contents, i);
  }

  lemma RemoveAtMultiset(xs: seq<Content>, i: nat)
    requires i < |xs|
    ensures multiset(RemoveAt(xs, i)) == multiset(xs) - multiset{xs[i]}
  {
    assert xs == xs[..i] + [xs[i]] + xs[i + 1..];
    assert RemoveAt(xs, i) == xs[..i] + xs[i + 1..];
  }

  /** Python's reading of a list index: negative indices count from the end. */
  function NormalIndex(index: int, n: nat): (i: nat)
    requires 0 <= index + n && index < n
    ensures i < n && (i == index || i == index + n)
  {
    if index < 0 then index + n else index
  }

  /** `pop_content(index)`: removes and returns the content at the index,
      then updates. An index out of range prints the CustomIndexError message
      and returns None without changing anything. */
  function PopContent(k: Collection, index: int): (r: Mutation<Option<Content>>)
    ensures !(-|k.contents| <= index < |k.contents|) ==> r == Mutation(k, Success(None))
    ensures -|k.contents| <= index < |k.contents| ==>
              r.state.contents == RemoveAt(k.contents, NormalIndex(index, |k.contents|))
    ensures -|k.contents| <= index < |k.contents| && r.result.Success? ==>
              r.result.value == Some(k.contents[NormalIndex(index, |k.contents|)]) && Consistent(r.state)
    ensures -|k.contents| <= index < |k.contents| && r.result.Success? ==>
              r.state.id == k.id && r.state.title == k.title
              && r.state.creatorId == k.creatorId && SameKind(k, r.state) && NoGenres(r.state)
    ensures r.result.Failure? ==> r.result.error.TypeError?
    ensures r.result.Failure? ==> -|k.contents| <= index < |k.contents|
                                  && r.state == k.(contents := RemoveAt(k.contents, NormalIndex(index, |k.contents|)))
  {
    var n := |k.contents|;
    if !(-n <= index < n) then Mutation(k, Success(None))
    else
      var i := NormalIndex(index, n);
      var removed := k.(contents := RemoveAt(k.contents, i));
      match Update(removed)
      case Success(updated) => Mutation(updated, Success(Some(k.contents[i])))
      case Failure(e) => Mutation(removed, Failure(e))
  }

  /** Popping the last content right after adding it returns that content
      and restores the previous contents. */
  lemma AddThenPop(k: Collection, c: Content)
    requires IdsHashable(k.contents + [c])
    ensures AddContent(k, c).result.Success?
    ensures PopContent(AddContent(k, c).state, -1).result == Success(Some(c))
    ensures PopContent(AddContent(k, c).state, -1).state.contents == k.contents
  {
    UpdateSucceedsIff(k.(contents := k.contents + [c]));
    var added := AddContent(k, c).state;
    assert RemoveAt(added.contents, |k.contents|) == k.contents;
    assert Update(added.(contents := k.contents)).Success? by {
      assert forall x :: Collaborates(k.contents, x) ==> Collaborates(k.contents + [c], x) by {
        forall x | Collaborates(k.contents, x) ensures Collaborates(k.contents + [c], x) {
          var j :| 0 <= j < |k.contents| && x in ListedIds(k.contents[j]);
          assert (k.contents + [c])[j] == k.contents[j];
        }
      }
    }
  }

  /** `contents = v`: validates a `List[Content]` and stores it without
      calling `update()`, so the collaborator list is left as it was. */
  function SetContents(k: Collection, v: PyValue): (r: Result<Collection, DataError>)
    ensures r.Success? <==> v.PList? && forall i :: 0 <= i < |v.items| ==>
                                          v.items[i].PObject? && v.items[i].obj.ContentObj?
    ensures r.Success? ==> |r.value.contents| == |v.items|
                           && (forall i :: 0 <= i < |v.items| ==> v.items[i] == PObject(ContentObj(r.value.contents[i])))
                           && r.value == k.(contents := r.value.contents)
    ensures r.Failure? ==> Fail(r.error) == ValidateList(v, "contents", ContentClass)
  {
    if !v.PList? then Failure(ValidateList(v, "contents", ContentClass).error)
    else
      AllContentInstances(v.items);
      match ValidateList(v, "contents", ContentClass)
      case Fail(e) => Failure(e)
      case Pass => Success(k.(contents := ContentsOf(v.items)))
  }

  lemma AllContentInstances(items: seq<PyValue>)
    ensures (forall i :: 0 <= i < |items| ==> IsInstance(items[i], ContentClass)) <==>
            (forall i :: 0 <= i < |items| ==> items[i].PObject? && items[i].obj.ContentObj?)
  {
    forall i | 0 <= i < |items| { ContentInstances(items[i]); }
  }

  function ContentsOf(items: seq<PyValue>): (r: seq<Content>)
    requires forall i :: 0 <= i < |items| ==> items[i].PObject? && items[i].obj.ContentObj?
    ensures |r| == |items| && forall i :: 0 <= i < |items| ==> items[i] == PObject(ContentObj(r[i]))
  {
    seq(|items|, i requires 0 <= i < |items| && items[i].PObject? && items[i].obj.ContentObj?
                   => items[i].obj.content)
  }

  /** Replacing the contents of a consistent collection can leave it
      inconsistent: the new content's collaborator is not listed. */
  lemma SetContentsLeavesCollaboratorsStale()
    ensures var k := NewCollection(Str("c1"), Str("Mix"), [], Str("u1"), EmptyList);
            var t := NewContent(Str("t1"), Str("Song"), TimeDelta(0), Str("a1"), List([Str("a2")]), Null);
            Consistent(k) && SetContents(k, PList([PObject(ContentObj(t))])).Success? &&
            !Consistent(SetContents(k, PList([PObject(ContentObj(t))])).value)
  {
    var k := NewCollection(Str("c1"), Str("Mix"), [], Str("u1"), EmptyList);
    var t := NewContent(Str("t1"), Str("Song"), TimeDelta(0), Str("a1"), List([Str("a2")]), Null);
    var k2 := SetContents(k, PList([PObject(ContentObj(t))])).value;
    assert k2.contents == [t];
    assert Str("a2") in ListedIds(k2.contents[0]);
    assert Collaborates(k2.contents, Str("a2"));
  }

  /** `title = v` on a collection. */
  function SetCollectionTitle(k: Collection, v: PyValue): (r: Result<Collection, DataError>)
    ensures r.Success? <==> v.PStr? && exists i :: 0 <= i < |v.s| && !IsSpace(v.s[i])
    ensures r.Success? ==> r.value == k.(title := Str(v.s))
    ensures r.Failure? ==> Fail(r.error) == ValidateStr(v, "title", false)
  {
    match ValidateStr(v, "title", false)
    case Fail(e) => Failure(e)
    case Pass => Success(k.(title := Str(v.s)))
  }

  // ----------------------------------------------------------- serialise

  function BookGenreValues(gs: seq<AudioBookGenre>): (r: Value)
    ensures r.List? && |r.items| == |gs|
    ensures forall i :: 0 <= i < |gs| ==> r.items[i] == Str(AudioBookGenreValue(gs[i]))
  {
    List(seq(|gs|, i requires 0 <= i < |gs| => Str(AudioBookGenreValue(gs[i]))))
  }

  /** The "genres" entry the three subclasses append. */
  function GenreEntries(k: Collection): seq<(string, Value)> {
    match k
    case Collection(_, _, _, _, _) => []
    case Album(_, _, _, _, _, genres) => [("genres", GenreValues(genres))]
    case Playlist(_, _, _, _, _, genres) => [("genres", GenreValues(genres))]
    case AudioBook(_, _, _, _, _, genres) => [("genres", BookGenreValues(genres))]
  }

  /** The entries `serialize` writes, given the serialised contents. */
  function CollectionEntries(k: Collection, contents: seq<Value>): seq<(string, Value)> {
    CollectionBase(k, contents) + GenreEntries(k)
  }

  /** `serialize()` of a collection: every content serialised in order, the
      real creator id, a copy of the collaborator list, and the genres' values. */
  function SerializeCollection(k: Collection): (r: Result<Value, PyError>)
    ensures r.Success? <==> (forall i :: 0 <= i < |k.contents| ==> SerializeContent(k.contents[i]).Success?)
                            && (k.collaboratorIds.List? || k.collaboratorIds.Map?)
    ensures r.Success? ==> r.value == Map(CollectionEntries(k, MapAll(k.contents, SerializeContent).value))
  {
    var contents :- MapAll(k.contents, SerializeContent);
    var collaborators :- Copy(k.collaboratorIds);
    Success(Map(CollectionEntries(k, contents)))
  }

  function CollectionBase(k: Collection, contents: seq<Value>): seq<(string, Value)> {
    [("id", k.id), ("title", k.title), ("contents", List(contents)),
     ("creator_id", k.creatorId), ("collaborator_ids", k.collaboratorIds)]
  }

  /** Each key of `Collection.serialize` is found at its own entry. */
  lemma {:induction false} CollectionBaseLookup(k: Collection, contents: seq<Value>, extra: seq<(string, Value)>)
    ensures Lookup(CollectionBase(k, contents) + extra, "id") == Some(k.id)
    ensures Lookup(CollectionBase(k, contents) + extra, "title") == Some(k.title)
    ensures Lookup(CollectionBase(k, contents) + extra, "contents") == Some(List(contents))
    ensures Lookup(CollectionBase(k, contents) + extra, "creator_id") == Some(k.creatorId)
    ensures Lookup(CollectionBase(k, contents) + extra, "collaborator_ids") == Some(k.collaboratorIds)
  {
    var e := CollectionBase(k, contents) + extra;
    LookupFirst(e, 0);
    LookupFirst(e, 1);
    LookupFirst(e, 2);
    LookupFirst(e, 3);
    LookupFirst(e, 4);
  }

  /** Where each key of a serialised collection is found. */
  lemma CollectionLookup(k: Collection, contents: seq<Value>)
    ensures Lookup(CollectionEntries(k, contents), "id") == Some(k.id)
    ensures Lookup(CollectionEntries(k, contents), "title") == Some(k.title)
    ensures Lookup(CollectionEntries(k, contents), "contents") == Some(List(contents))
    ensures Lookup(CollectionEntries(k, contents), "creator_id") == Some(k.creatorId)
    ensures Lookup(CollectionEntries(k, contents), "collaborator_ids") == Some(k.collaboratorIds)
    ensures (k.Album? || k.Playlist?) ==> Lookup(CollectionEntries(k, contents), "genres") == Some(GenreValues(k.genres))
    ensures k.AudioBook? ==> Lookup(CollectionEntries(k, contents), "genres") == Some(BookGenreValues(k.bookGenres))
  {
    CollectionBaseLookup(k, contents, GenreEntries(k));
    if !k.Collection? {
      GenreLookup(k, contents);
    }
  }

  lemma GenreLookup(k: Collection, contents: seq<Value>)
    requires !k.Collection?
    ensures Lookup(CollectionEntries(k, contents), "genres") == Some(GenreEntries(k)[0].1)
  {
    var e := CollectionEntries(k, contents);
    assert e[5] == GenreEntries(k)[0] && e[5].0 == "genres";
    LookupFirst(e, 5);
  }

  /** The creator id property and the serialised "creator_id" disagree:
      the property answers with the collection id. */
  lemma CreatorIdIsCollectionId(k: Collection)
    requires SerializeCollection(k).Success?
    ensures CreatorIdProperty(k) == k.id
    ensures Lookup(SerializeContentsOf(k), "creator_id") == Some(k.creatorId)
    ensures k.id != k.creatorId ==> Lookup(SerializeContentsOf(k), "creator_id") != Some(CreatorIdProperty(k))
  {
    CollectionLookup(k, MapAll(k.contents, SerializeContent).value);
  }

  function SerializeContentsOf(k: Collection): seq<(string, Value)>
    requires SerializeCollection(k).Success?
  {
    SerializeCollection(k).value.entries
  }

  // --------------------------------------------------------- deserialise

  /** `Album.deserialize(data)`: every content through `Track.deserialize`,
      genres through `TrackGenre(...)`. */
  function DeserializeAlbum(d: Value): (r: Result<Collection, PyError>)
    ensures r.Success? ==> r.value.Album?
    ensures !d.Map? ==> r.Failure?
  {
    if !d.Map? then Failure(AttributeError("get"))
    else
      var e := d.entries;
      var items :- Iterate(Get(e, "contents", EmptyList));
      var tracks :- MapAll(items, DeserializeTrack);
      var genreItems :- Iterate(Get(e, "genres", EmptyList));
      var genres :- MapAll(genreItems, TrackGenreOf);
      Success(NewAlbum(Get(e, "id", Null), Get(e, "title", Null), tracks, Get(e, "creator_id", Null),
                       Get(e, "collaborator_ids", EmptyList), genres))
  }

  /** `Playlist.deserialize(data)`: the collaborator list is not read. */
  function DeserializePlaylist(d: Value): (r: Result<Collection, PyError>)
    ensures r.Success? ==> r.value.Playlist? && r.value.collaboratorIds == EmptyList
    ensures !d.Map? ==> r.Failure?
  {
    if !d.Map? then Failure(AttributeError("get"))
    else
      var e := d.entries;
      var items :- Iterate(Get(e, "contents", EmptyList));
      var tracks :- MapAll(items, DeserializeTrack);
      var genreItems :- Iterate(Get(e, "genres", EmptyList));
      var genres :- MapAll(genreItems, TrackGenreOf);
      Success(NewPlaylist(Get(e, "id", Null), Get(e, "title", Null), tracks, Get(e, "creator_id", Null), genres))
  }

  /** `AudioBook.deserialize(data)`: every content through
      `AudioBookChapter.deserialize`, genres through `AudioBookGenre(...)`. */
  function DeserializeAudioBook(d: Value): (r: Result<Collection, PyError>)
    ensures r.Success? ==> r.value.AudioBook? && r.value.collaboratorIds == EmptyList
    ensures !d.Map? ==> r.Failure?
  {
    if !d.Map? then Failure(AttributeError("get"))
    else
      var e := d.entries;
      var items :- Iterate(Get(e, "contents", EmptyList));
      var chapters :- MapAll(items, DeserializeChapter);
      var genreItems :- Iterate(Get(e, "genres", EmptyList));
      var genres :- MapAll(genreItems, AudioBookGenreOf);
      Success(NewAudioBook(Get(e, "id", Null), Get(e, "title", Null), chapters, Get(e, "creator_id", Null), genres))
  }

  // ------------------------------------------------------------ round trips

  function ReloadedTracks(contents: seq<Content>): (r: seq<Content>)
    requires forall i :: 0 <= i < |contents| ==> contents[i].Track? && contents[i].duration.TimeDelta?
    ensures |r| == |contents| && forall i :: 0 <= i < |r| ==> r[i] == ReloadedTrack(contents[i])
  {
    seq(|contents|, i requires 0 <= i < |contents| && contents[i].Track? && contents[i].duration.TimeDelta?
                      => ReloadedTrack(contents[i]))
  }

  function ReloadedChapters(contents: seq<Content>): (r: seq<Content>)
    requires forall i :: 0 <= i < |contents| ==> contents[i].Chapter? && contents[i].duration.TimeDelta?
    ensures |r| == |contents| && forall i :: 0 <= i < |r| ==> r[i] == ReloadedChapter(contents[i])
  {
    seq(|contents|, i requires 0 <= i < |contents| && contents[i].Chapter? && contents[i].duration.TimeDelta?
                      => ReloadedChapter(contents[i]))
  }

  /** Every serialised track reads back as its reloaded form. */
  lemma TracksRoundTrip(contents: seq<Content>, serialised: seq<Value>)
    requires MapAll(contents, SerializeContent) == Success(serialised)
    requires forall i :: 0 <= i < |contents| ==> contents[i].Track?
    ensures forall i :: 0 <= i < |contents| ==> contents[i].duration.TimeDelta?
    ensures MapAll(serialised, DeserializeTrack) == Success(ReloadedTracks(contents))
  {
    forall i | 0 <= i < |contents|
      ensures contents[i].duration.TimeDelta?
      ensures DeserializeTrack(serialised[i]) == Success(ReloadedTrack(contents[i]))
    {
      assert SerializeContent(contents[i]) == Success(serialised[i]);
      TrackRoundTrip(contents[i]);
    }
    MapAllSucceeds(serialised, DeserializeTrack, ReloadedTracks(contents));
  }

  lemma ChaptersRoundTrip(contents: seq<Content>, serialised: seq<Value>)
    requires MapAll(contents, SerializeContent) == Success(serialised)
    requires forall i :: 0 <= i < |contents| ==> contents[i].Chapter?
    ensures forall i :: 0 <= i < |contents| ==> contents[i].duration.TimeDelta?
    ensures MapAll(serialised, DeserializeChapter) == Success(ReloadedChapters(contents))
  {
    forall i | 0 <= i < |contents|
      ensures contents[i].duration.TimeDelta?
      ensures DeserializeChapter(serialised[i]) == Success(ReloadedChapter(contents[i]))
    {
      assert SerializeContent(contents[i]) == Success(serialised[i]);
      ChapterRoundTrip(contents[i]);
    }
    MapAllSucceeds(serialised, DeserializeChapter, ReloadedChapters(contents));
  }

  lemma TrackGenresRoundTrip(gs: seq<TrackGenre>)
    ensures Iterate(GenreValues(gs)) == Success(GenreValues(gs).items)
    ensures MapAll(GenreValues(gs).items, TrackGenreOf) == Success(gs)
  {
    GenresRoundTrip(gs);
  }

  lemma BookGenresRoundTrip(gs: seq<AudioBookGenre>)
    ensures MapAll(BookGenreValues(gs).items, AudioBookGenreOf) == Success(gs)
  {
    var r := MapAll(BookGenreValues(gs).items, AudioBookGenreOf);
    EnumValuesRoundTrip();
    assert r.Success?;
    assert r.value == gs;
  }

  /** Album round trip: id, title, creator, genres and collaborators come
      back; every track comes back in its reloaded form. */
  lemma AlbumRoundTrip(k: Collection)
    requires k.Album? && SerializeCollection(k).Success?
    requires forall i :: 0 <= i < |k.contents| ==> k.contents[i].Track?
    ensures forall i :: 0 <= i < |k.contents| ==> k.contents[i].duration.TimeDelta?
    ensures DeserializeAlbum(SerializeCollection(k).value) ==
            Success(Album(k.id, k.title, ReloadedTracks(k.contents), k.creatorId,
                          Or(k.collaboratorIds, EmptyList), k.genres))
  {
    var serialised := MapAll(k.contents, SerializeContent).value;
    var e := CollectionEntries(k, serialised);
    assert SerializeCollection(k).value == Map(e);
    CollectionLookup(k, serialised);
    TracksRoundTrip(k.contents, serialised);
    TrackGenresRoundTrip(k.genres);
    assert Get(e, "contents", EmptyList) == List(serialised);
    assert Get(e, "genres", EmptyList) == GenreValues(k.genres);
  }

  /** Playlist round trip: as for an album, but the collaborators are lost. */
  lemma PlaylistRoundTrip(k: Collection)
    requires k.Playlist? && SerializeCollection(k).Success?
    requires forall i :: 0 <= i < |k.contents| ==> k.contents[i].Track?
    ensures forall i :: 0 <= i < |k.contents| ==> k.contents[i].duration.TimeDelta?
    ensures DeserializePlaylist(SerializeCollection(k).value) ==
            Success(Playlist(k.id, k.title, ReloadedTracks(k.contents), k.creatorId, EmptyList, k.genres))
  {
    var serialised := MapAll(k.contents, SerializeContent).value;
    var e := CollectionEntries(k, serialised);
    assert SerializeCollection(k).value == Map(e);
    CollectionLookup(k, serialised);
    TracksRoundTrip(k.contents, serialised);
    TrackGenresRoundTrip(k.genres);
    assert Get(e, "contents", EmptyList) == List(serialised);
    assert Get(e, "genres", EmptyList) == GenreValues(k.genres);
  }

  /** AudioBook round trip: chapters come back in their reloaded form, the
      collaborators are lost. */
  lemma AudioBookRoundTrip(k: Collection)
    requires k.AudioBook? && SerializeCollection(k).Success?
    requires forall i :: 0 <= i < |k.contents| ==> k.contents[i].Chapter?
    ensures forall i :: 0 <= i < |k.contents| ==> k.contents[i].duration.TimeDelta?
    ensures DeserializeAudioBook(SerializeCollection(k).value) ==
            Success(AudioBook(k.id, k.title, ReloadedChapters(k.contents), k.creatorId, EmptyList, k.bookGenres))
  {
    var serialised := MapAll(k.contents, SerializeContent).value;
    var e := CollectionEntries(k, serialised);
    assert SerializeCollection(k).value == Map(e);
    CollectionLookup(k, serialised);
    ChaptersRoundTrip(k.contents, serialised);
    BookGenresRoundTrip(k.bookGenres);
    assert Get(e, "contents", EmptyList) == List(serialised);
    assert Get(e, "genres", EmptyList) == BookGenreValues(k.bookGenres);
  }
}

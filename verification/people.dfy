/** Person, User and Admin (main.py:155-481): the validating setters, and
    the serialisers of Person and Admin. */
module People {
  import opened Wrappers
  import opened Errors
  import opened Values
  import opened Domain
  import opened Runtime
  import opened Validation
  import opened Contents
  import opened Collections

  /** Some character of `s` is not whitespace, i.e. `s.strip()` is non-empty. */
  predicate NonBlank(s: string) {
    exists k :: 0 <= k < |s| && !IsSpace(s[k])
  }

  // ---------------------------------------------------------------- Person

  /** `Person(...)`: stores its arguments without validation. */
  function NewPerson(id: Value, name: Value, email: Value): (p: Person)
    ensures p.Person? && p.id == id && p.name == name && p.email == email
  {
    Person(id, name, email)
  }

  /** `person.person_id = v`: written out inline in the source, with the
      same checks and the same order as `validate_str`. */
  function SetPersonId(p: Person, v: PyValue): (r: Result<Person, DataError>)
    ensures r.Success? <==> v.PStr? && NonBlank(v.s)
    ensures r.Success? ==> r.value == p.(id := Str(v.s))
    ensures !v.PStr? ==> r == Failure(InvalidType("person_id", "str", TypeName(v)))
    ensures v.PStr? && r.Failure? ==> r == Failure(EmptyValue("person_id"))
  {
    if !v.PStr? then Failure(InvalidType("person_id", "str", TypeName(v)))
    else if Strip(v.s) == "" then
      StripEmptyIff(v.s);
      Failure(EmptyValue("person_id"))
    else
      StripEmptyIff(v.s);
      Success(p.(id := Str(v.s)))
  }

  /** The inline id checks accept and reject exactly what `validate_str` does. */
  lemma PersonIdIsValidateStr(p: Person, v: PyValue)
    ensures SetPersonId(p, v).Success? <==> ValidateStr(v, "person_id", false).Pass?
    ensures SetPersonId(p, v).Failure? ==> Fail(SetPersonId(p, v).error) == ValidateStr(v, "person_id", false)
  {
  }

  /** `person.name = v` */
  function SetName(p: Person, v: PyValue): (r: Result<Person, DataError>)
    ensures r.Success? <==> v.PStr? && NonBlank(v.s)
    ensures r.Success? ==> r.value == p.(name := Str(v.s))
    ensures r.Failure? ==> Fail(r.error) == ValidateStr(v, "name", false)
  {
    match ValidateStr(v, "name", false)
    case Fail(e) => Failure(e)
    case Pass => Success(p.(name := Str(v.s)))
  }

  /** The position of the last occurrence of `c` in `s`. */
  function LastIndexOf(s: string, c: char): (r: Option<nat>)
    ensures r.None? <==> c !in s
    ensures r.Some? ==> r.value < |s| && s[r.value] == c && c !in s[r.value + 1..]
  {
    if s == [] then None
    else if s[|s| - 1] == c then Some(|s| - 1)
    else
      match LastIndexOf(s[..|s| - 1], c)
      case None =>
        assert s == s[..|s| - 1] + [s[|s| - 1]];
        None
      case Some(i) =>
        assert s[i + 1..] == s[..|s| - 1][i + 1..] + [s[|s| - 1]];
        Some(i)
  }

  /** `s.split("@")[-1]`: what follows the last "@", or all of `s`. */
  function AfterLastAt(s: string): (r: string)
    ensures '@' !in r
    ensures '@' !in s ==> r == s
    ensures '@' in s ==> |r| < |s| && s[|s| - |r| - 1] == '@' && s[|s| - |r|..] == r
  {
    match LastIndexOf(s, '@')
    case None => s
    case Some(i) => s[i + 1..]
  }

  /** The shape the email setter demands: an "@", and a "." somewhere after the last "@". */
  predicate PlausibleEmail(s: string) {
    exists i :: 0 <= i < |s| && s[i] == '@' && '@' !in s[i + 1..] && '.' in s[i + 1..]
  }

  /** Nothing after position `j` is an "@" when `s[j + 1..]` holds none. */
  lemma NoAtAfter(s: string, j: nat, i: nat)
    requires j < |s| && i < |s| && '@' !in s[j + 1..]
    ensures j < i ==> s[i] != '@'
  {
    if j < i { assert s[i] == s[j + 1..][i - j - 1]; }
  }

  /** The last "@" is the only "@" with no "@" after it, so the email
      shape is exactly: an "@", and a "." in `s.split("@")[-1]`. */
  lemma PlausibleEmailIff(s: string)
    ensures PlausibleEmail(s) <==> '@' in s && '.' in AfterLastAt(s)
  {
    var last := LastIndexOf(s, '@');
    if last.Some? {
      var j := last.value;
      assert AfterLastAt(s) == s[j + 1..];
      forall i | 0 <= i < |s| && s[i] == '@' && '@' !in s[i + 1..] ensures i == j {
        NoAtAfter(s, j, i);
        NoAtAfter(s, i, j);
      }
    }
  }

  /** `person.email = v`: a non-blank string with an "@" whose last part contains a ".". */
  function SetEmail(p: Person, v: PyValue): (r: Result<Person, DataError>)
    ensures r.Success? <==> v.PStr? && NonBlank(v.s) && PlausibleEmail(v.s)
    ensures r.Success? ==> r.value == p.(email := Str(v.s))
    ensures ValidateStr(v, "email", false).Fail? ==> Fail(r.error) == ValidateStr(v, "email", false)
    ensures ValidateStr(v, "email", false).Pass? && r.Failure? ==>
              r.error == Raised("Некорректный адрес электронной почты: \"" + v.s + "\"")
  {
    match ValidateStr(v, "email", false)
    case Fail(e) => Failure(e)
    case Pass =>
      var s := v.s;
      PlausibleEmailIff(s);
      if '@' !in s || '.' !in AfterLastAt(s) then
        Failure(Raised("Некорректный адрес электронной почты: \"" + s + "\""))
      else
        Success(p.(email := Str(s)))
  }

  /** An address with a dot after its only "@" is accepted. */
  lemma EmailAccepted(p: Person)
    ensures SetEmail(p, PStr("a@b.c")) == Success(p.(email := Str("a@b.c")))
  {
    var s := "a@b.c";
    assert s[1] == '@' && s[2..] == "b.c";
    assert PlausibleEmail(s);
    assert !IsSpace(s[0]);
    assert NonBlank(s);
  }

  /** A dot only before the "@" is not enough. */
  lemma EmailDotBeforeAtRejected(p: Person)
    ensures SetEmail(p, PStr("a.b@c")).Failure?
  {
    var s := "a.b@c";
    assert s[..4][..3] == "a.b";
    assert LastIndexOf(s, '@') == Some(3) by { assert s[..4] == "a.b@"; }
    assert s[4..] == "c";
    PlausibleEmailIff(s);
  }

  /** Only the part after the last "@" counts: a dot between two "@"s is not enough. */
  lemma EmailLastPartRejected(p: Person)
    ensures SetEmail(p, PStr("x@y.z@w")).Failure?
  {
    var s := "x@y.z@w";
    assert LastIndexOf(s, '@') == Some(5) by { assert s[..6] == "x@y.z@"; }
    assert s[6..] == "w";
    PlausibleEmailIff(s);
  }

  /** A blank address fails the string check before the shape is looked at. */
  lemma EmailBlankRejected(p: Person)
    ensures SetEmail(p, PStr("  ")) == Failure(EmptyValue("email"))
  {
    assert !NonBlank("  ");
  }

  /** `Person.serialize()` */
  function SerializePerson(p: Person): (r: Value)
    requires p.Person?
    ensures r.Map? && Lookup(r.entries, "id") == Some(p.id)
    ensures Lookup(r.entries, "name") == Some(p.name) && Lookup(r.entries, "email") == Some(p.email)
  {
    var r := Map([("id", p.id), ("name", p.name), ("email", p.email)]);
    LookupFirst(r.entries, 1);
    LookupFirst(r.entries, 2);
    r
  }

  /** `Person.deserialize(data)`: the three keys are read with `data[...]`,
      so a missing one raises KeyError. */
  function DeserializePerson(d: Value): (r: Result<Person, PyError>)
    ensures r.Success? <==> d.Map? && Lookup(d.entries, "id").Some? && Lookup(d.entries, "name").Some?
                            && Lookup(d.entries, "email").Some?
    ensures r.Success? ==> r.value == Person(Lookup(d.entries, "id").value, Lookup(d.entries, "name").value,
                                             Lookup(d.entries, "email").value)
    ensures d.Map? && Lookup(d.entries, "id").None? ==> r == Failure(KeyError("id"))
    ensures !d.Map? ==> r.Failure? && r.error.TypeError?
  {
    var id :- DictIndex(d, "id");
    var name :- DictIndex(d, "name");
    var email :- DictIndex(d, "email");
    Success(NewPerson(id, name, email))
  }

  /** A Person survives serialisation unchanged. */
  lemma PersonRoundTrip(p: Person)
    requires p.Person?
    ensures DeserializePerson(SerializePerson(p)) == Success(p)
  {
  }

  // ------------------------------------------------------------------ User

  /** `user.subscribed = v`: only a bool is accepted (an int is not). */
  function SetSubscribed(u: Person, v: PyValue): (r: Result<Person, DataError>)
    requires u.User?
    ensures r.Success? <==> v.PBool?
    ensures r.Success? ==> r.value == u.(subscribed := Bool(v.b))
    ensures r.Failure? ==> r.error == InvalidType("subscribed", "bool", TypeName(v))
  {
    StrInstances(v);
    if !IsInstance(v, BoolClass) then Failure(InvalidType("subscribed", "bool", TypeName(v)))
    else Success(u.(subscribed := Bool(v.b)))
  }

  lemma AllCollectionInstances(items: seq<PyValue>)
    ensures (forall i :: 0 <= i < |items| ==> IsInstance(items[i], PlaylistClass)) <==>
            (forall i :: 0 <= i < |items| ==> items[i].PObject? && items[i].obj.CollectionObj?
                                              && items[i].obj.collection.Playlist?)
    ensures (forall i :: 0 <= i < |items| ==> IsInstance(items[i], AlbumClass)) <==>
            (forall i :: 0 <= i < |items| ==> items[i].PObject? && items[i].obj.CollectionObj?
                                              && items[i].obj.collection.Album?)
  {
    forall i | 0 <= i < |items| { CollectionInstances(items[i]); }
  }

  lemma AllTrackInstances(items: seq<PyValue>)
    ensures (forall i :: 0 <= i < |items| ==> IsInstance(items[i], TrackClass)) <==>
            (forall i :: 0 <= i < |items| ==> items[i].PObject? && items[i].obj.ContentObj?
                                              && items[i].obj.content.Track?)
  {
    forall i | 0 <= i < |items| { ContentInstances(items[i]); }
  }

  lemma AllArtistInstances(items: seq<PyValue>)
    ensures (forall i :: 0 <= i < |items| ==> IsInstance(items[i], ArtistClass)) <==>
            (forall i :: 0 <= i < |items| ==> items[i].PObject? && items[i].obj.PersonObj?
                                              && items[i].obj.person.Artist?)
  {
    forall i | 0 <= i < |items| { ArtistInstances(items[i]); }
  }

  function CollectionsOf(items: seq<PyValue>): (r: seq<Collection>)
    requires forall i :: 0 <= i < |items| ==> items[i].PObject? && items[i].obj.CollectionObj?
    ensures |r| == |items| && forall i :: 0 <= i < |items| ==> items[i] == PObject(CollectionObj(r[i]))
  {
    seq(|items|, i requires 0 <= i < |items| && items[i].PObject? && items[i].obj.CollectionObj?
                   => items[i].obj.collection)
  }

  function PersonsOf(items: seq<PyValue>): (r: seq<Person>)
    requires forall i :: 0 <= i < |items| ==> items[i].PObject? && items[i].obj.PersonObj?
    ensures |r| == |items| && forall i :: 0 <= i < |items| ==> items[i] == PObject(PersonObj(r[i]))
  {
    seq(|items|, i requires 0 <= i < |items| && items[i].PObject? && items[i].obj.PersonObj?
                   => items[i].obj.person)
  }

  /** `user.playlists = v`: a list of Playlist objects. */
  function SetPlaylists(u: Person, v: PyValue): (r: Result<Person, DataError>)
    requires u.User?
    ensures r.Success? <==> v.PList? && forall i :: 0 <= i < |v.items| ==>
              v.items[i].PObject? && v.items[i].obj.CollectionObj? && v.items[i].obj.collection.Playlist?
    ensures r.Success? ==> r.value.User? && r.value == u.(playlists := r.value.playlists)
                           && |r.value.playlists| == |v.items|
                           && forall i :: 0 <= i < |v.items| ==> v.items[i] == PObject(CollectionObj(r.value.playlists[i]))
    ensures r.Failure? ==> Fail(r.error) == ValidateList(v, "playlists", PlaylistClass)
  {
    if !v.PList? then Failure(ValidateList(v, "playlists", PlaylistClass).error)
    else
      AllCollectionInstances(v.items);
      match ValidateList(v, "playlists", PlaylistClass)
      case Fail(e) => Failure(e)
      case Pass => Success(u.(playlists := CollectionsOf(v.items)))
  }

  /** `user.favourite_tracks = v`: a list of Track objects. */
  function SetFavouriteTracks(u: Person, v: PyValue): (r: Result<Person, DataError>)
    requires u.User?
    ensures r.Success? <==> v.PList? && forall i :: 0 <= i < |v.items| ==>
              v.items[i].PObject? && v.items[i].obj.ContentObj? && v.items[i].obj.content.Track?
    ensures r.Success? ==> r.value.User? && r.value == u.(favouriteTracks := r.value.favouriteTracks)
                           && |r.value.favouriteTracks| == |v.items|
                           && forall i :: 0 <= i < |v.items| ==> v.items[i] == PObject(ContentObj(r.value.favouriteTracks[i]))
    ensures r.Failure? ==> Fail(r.error) == ValidateList(v, "favourite_tracks", TrackClass)
  {
    if !v.PList? then Failure(ValidateList(v, "favourite_tracks", TrackClass).error)
    else
      AllTrackInstances(v.items);
      match ValidateList(v, "favourite_tracks", TrackClass)
      case Fail(e) => Failure(e)
      case Pass => Success(u.(favouriteTracks := ContentsOf(v.items)))
  }

  /** `user.favourite_albums = v`: a list of Album objects. */
  function SetFavouriteAlbums(u: Person, v: PyValue): (r: Result<Person, DataError>)
    requires u.User?
    ensures r.Success? <==> v.PList? && forall i :: 0 <= i < |v.items| ==>
              v.items[i].PObject? && v.items[i].obj.CollectionObj? && v.items[i].obj.collection.Album?
    ensures r.Success? ==> r.value.User? && r.value == u.(favouriteAlbums := r.value.favouriteAlbums)
                           && |r.value.favouriteAlbums| == |v.items|
                           && forall i :: 0 <= i < |v.items| ==> v.items[i] == PObject(CollectionObj(r.value.favouriteAlbums[i]))
    ensures r.Failure? ==> Fail(r.error) == ValidateList(v, "favourite_albums", AlbumClass)
  {
    if !v.PList? then Failure(ValidateList(v, "favourite_albums", AlbumClass).error)
    else
      AllCollectionInstances(v.items);
      match ValidateList(v, "favourite_albums", AlbumClass)
      case Fail(e) => Failure(e)
      case Pass => Success(u.(favouriteAlbums := CollectionsOf(v.items)))
  }

  /** `user.favourite_artists = v`: a list of Artist objects. */
  function SetFavouriteArtists(u: Person, v: PyValue): (r: Result<Person, DataError>)
    requires u.User?
    ensures r.Success? <==> v.PList? && forall i :: 0 <= i < |v.items| ==>
              v.items[i].PObject? && v.items[i].obj.PersonObj? && v.items[i].obj.person.Artist?
    ensures r.Success? ==> r.value.User? && r.value == u.(favouriteArtists := r.value.favouriteArtists)
                           && |r.value.favouriteArtists| == |v.items|
                           && forall i :: 0 <= i < |v.items| ==> v.items[i] == PObject(PersonObj(r.value.favouriteArtists[i]))
    ensures r.Failure? ==> Fail(r.error) == ValidateList(v, "favourite_artists", ArtistClass)
  {
    if !v.PList? then Failure(ValidateList(v, "favourite_artists", ArtistClass).error)
    else
      AllArtistInstances(v.items);
      match ValidateList(v, "favourite_artists", ArtistClass)
      case Fail(e) => Failure(e)
      case Pass => Success(u.(favouriteArtists := PersonsOf(v.items)))
  }

  // ----------------------------------------------------------------- Admin

  /** `Admin(...)`: an absent or empty permission list becomes `[]`. */
  function NewAdmin(id: Value, name: Value, email: Value, permissions: Option<seq<Permission>>): (a: Person)
    ensures a.Admin? && a.id == id && a.name == name && a.email == email
    ensures permissions.Some? ==> a.permissions == permissions.value
    ensures permissions.None? ==> a.permissions == []
  {
    Admin(id, name, email, if permissions.Some? then permissions.value else [])
  }

  function PermissionsOf(items: seq<PyValue>): (r: seq<Permission>)
    requires forall i :: 0 <= i < |items| ==> items[i].PEnum? && items[i].member.PermissionMember?
    ensures |r| == |items| && forall i :: 0 <= i < |items| ==> items[i] == PEnum(PermissionMember(r[i]))
  {
    seq(|items|, i requires 0 <= i < |items| && items[i].PEnum? && items[i].member.PermissionMember?
                   => items[i].member.permission)
  }

  lemma AllPermissionInstances(items: seq<PyValue>)
    ensures (forall i :: 0 <= i < |items| ==> IsInstance(items[i], PermissionClass)) <==>
            (forall i :: 0 <= i < |items| ==> items[i].PEnum? && items[i].member.PermissionMember?)
  {
    forall i | 0 <= i < |items| { EnumInstances(items[i]); }
  }

  /** `admin.permissions = v`: a list of Permission members. */
  function SetPermissions(a: Person, v: PyValue): (r: Result<Person, DataError>)
    requires a.Admin?
    ensures r.Success? <==> v.PList? && forall i :: 0 <= i < |v.items| ==>
              v.items[i].PEnum? && v.items[i].member.PermissionMember?
    ensures r.Success? ==> r.value.Admin? && r.value == a.(permissions := r.value.permissions)
                           && |r.value.permissions| == |v.items|
                           && forall i :: 0 <= i < |v.items| ==> v.items[i] == PEnum(PermissionMember(r.value.permissions[i]))
    ensures r.Failure? ==> Fail(r.error) == ValidateList(v, "permissions", PermissionClass)
  {
    if !v.PList? then Failure(ValidateList(v, "permissions", PermissionClass).error)
    else
      AllPermissionInstances(v.items);
      match ValidateList(v, "permissions", PermissionClass)
      case Fail(e) => Failure(e)
      case Pass => Success(a.(permissions := PermissionsOf(v.items)))
  }

  function PermissionValues(ps: seq<Permission>): (r: Value)
    ensures r.List? && |r.items| == |ps|
    ensures forall i :: 0 <= i < |ps| ==> r.items[i] == Str(PermissionValue(ps[i]))
  {
    List(seq(|ps|, i requires 0 <= i < |ps| => Str(PermissionValue(ps[i]))))
  }

  /** `Admin.serialize()`: the Person entries, then the permission values. */
  function SerializeAdmin(a: Person): (r: Value)
    requires a.Admin?
    ensures r.Map? && Lookup(r.entries, "id") == Some(a.id)
    ensures Lookup(r.entries, "name") == Some(a.name) && Lookup(r.entries, "email") == Some(a.email)
    ensures Lookup(r.entries, "permissions") == Some(PermissionValues(a.permissions))
  {
    var r := Map([("id", a.id), ("name", a.name), ("email", a.email),
                  ("permissions", PermissionValues(a.permissions))]);
    LookupFirst(r.entries, 1);
    LookupFirst(r.entries, 2);
    LookupFirst(r.entries, 3);
    r
  }

  /** `Admin.deserialize(data)`: keys read with `.get`, permissions through `Permission(...)`. */
  function DeserializeAdmin(d: Value): (r: Result<Person, PyError>)
    ensures r.Success? ==> r.value.Admin?
    ensures r.Success? ==> d.Map? && r.value.id == Get(d.entries, "id", Null) && r.value.name == Get(d.entries, "name", Null)
                           && r.value.email == Get(d.entries, "email", Null)
    ensures !d.Map? ==> r == Failure(AttributeError("get"))
  {
    if !d.Map? then Failure(AttributeError("get"))
    else
      var items :- Iterate(Get(d.entries, "permissions", EmptyList));
      var permissions :- MapAll(items, PermissionOf);
      Success(NewAdmin(Get(d.entries, "id", Null), Get(d.entries, "name", Null),
                       Get(d.entries, "email", Null), Some(permissions)))
  }

  /** An Admin survives serialisation unchanged, permissions and their order included. */
  lemma AdminRoundTrip(a: Person)
    requires a.Admin?
    ensures DeserializeAdmin(SerializeAdmin(a)) == Success(a)
  {
    var ps := PermissionValues(a.permissions);
    EnumValuesRoundTrip();
    MapAllSucceeds(ps.items, PermissionOf, a.permissions);
  }
}

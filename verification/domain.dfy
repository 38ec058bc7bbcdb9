/** The entities of main.py: the three enumerations and the Person, Content
    and Collection families. Constructors in main.py store their arguments
    without validation, so scalar attributes are raw tree values. */
module Domain {
  import opened Wrappers
  import opened Errors
  import opened Values

  // ---------------------------------------------------------- enumerations

  datatype TrackGenre = Rock | Pop | HipHop | Electronic | Classic

  /** `genre.value` */
  function TrackGenreValue(g: TrackGenre): string {
    match g
    case Rock => "rock"
    case Pop => "pop"
    case HipHop => "hip-hop"
    case Electronic => "electronic"
    case Classic => "classic"
  }

  /** `TrackGenre(v)`: the member whose value equals `v`, else ValueError. */
  function TrackGenreOf(v: Value): (r: Result<TrackGenre, PyError>)
    ensures r.Success? <==> exists g :: v == Str(TrackGenreValue(g))
    ensures r.Success? ==> v == Str(TrackGenreValue(r.value))
  {
    if v == Str(TrackGenreValue(Rock)) then Success(Rock)
    else if v == Str(TrackGenreValue(Pop)) then Success(Pop)
    else if v == Str(TrackGenreValue(HipHop)) then Success(HipHop)
    else if v == Str(TrackGenreValue(Electronic)) then Success(Electronic)
    else if v == Str(TrackGenreValue(Classic)) then Success(Classic)
    else Failure(ValueError("not a valid TrackGenre"))
  }

  datatype AudioBookGenre = Comedy | Horror | Triller | Roman | Novell

  function AudioBookGenreValue(g: AudioBookGenre): string {
    match g
    case Comedy => "comedy"
    case Horror => "horror"
    case Triller => "triller"
    case Roman => "roman"
    case Novell => "novell"
  }

  /** `AudioBookGenre(v)` */
  function AudioBookGenreOf(v: Value): (r: Result<AudioBookGenre, PyError>)
    ensures r.Success? <==> exists g :: v == Str(AudioBookGenreValue(g))
    ensures r.Success? ==> v == Str(AudioBookGenreValue(r.value))
  {
    if v == Str(AudioBookGenreValue(Comedy)) then Success(Comedy)
    else if v == Str(AudioBookGenreValue(Horror)) then Success(Horror)
    else if v == Str(AudioBookGenreValue(Triller)) then Success(Triller)
    else if v == Str(AudioBookGenreValue(Roman)) then Success(Roman)
    else if v == Str(AudioBookGenreValue(Novell)) then Success(Novell)
    else Failure(ValueError("not a valid AudioBookGenre"))
  }

  /** Administrator privileges; note that UsePlayground's value is "see_analytics". */
  datatype Permission = ViewUsers | EditUsers | BanUsers | UsePlayground | InviteAdmins

  function PermissionValue(p: Permission): string {
    match p
    case ViewUsers => "view_users"
    case EditUsers => "edit_users"
    case BanUsers => "ban_users"
    case UsePlayground => "see_analytics"
    case InviteAdmins => "invite_admins"
  }

  /** `Permission(v)` */
  function PermissionOf(v: Value): (r: Result<Permission, PyError>)
    ensures r.Success? <==> exists p :: v == Str(PermissionValue(p))
    ensures r.Success? ==> v == Str(PermissionValue(r.value))
  {
    if v == Str(PermissionValue(ViewUsers)) then Success(ViewUsers)
    else if v == Str(PermissionValue(EditUsers)) then Success(EditUsers)
    else if v == Str(PermissionValue(BanUsers)) then Success(BanUsers)
    else if v == Str(PermissionValue(UsePlayground)) then Success(UsePlayground)
    else if v == Str(PermissionValue(InviteAdmins)) then Success(InviteAdmins)
    else Failure(ValueError("not a valid Permission"))
  }

  /** `Permission.all()`: every member once, in declaration order. */
  function AllPermissions(): (r: seq<Permission>)
    ensures |r| == 5 && forall p :: r[DeclarationIndex(p)] == p
    ensures forall i, j :: 0 <= i < j < |r| ==> r[i] != r[j]
  {
    var r := [ViewUsers, EditUsers, BanUsers, UsePlayground, InviteAdmins];
    assert forall p :: r[DeclarationIndex(p)] == p by {
      forall p ensures r[DeclarationIndex(p)] == p {
        DeclarationIndexOf(p, r);
      }
    }
    r
  }

  /** The position of a member in the declaration of Permission. */
  function DeclarationIndex(p: Permission): (i: nat)
    ensures i < 5
  {
    match p
    case ViewUsers => 0
    case EditUsers => 1
    case BanUsers => 2
    case UsePlayground => 3
    case InviteAdmins => 4
  }

  lemma DeclarationIndexOf(p: Permission, r: seq<Permission>)
    requires r == [ViewUsers, EditUsers, BanUsers, UsePlayground, InviteAdmins]
    ensures r[DeclarationIndex(p)] == p
  {
    match p
    case ViewUsers => case EditUsers => case BanUsers => case UsePlayground => case InviteAdmins =>
  }

  /** Looking a member up by its own value gives the member back, for all three enumerations. */
  lemma EnumValuesRoundTrip()
    ensures forall g :: TrackGenreOf(Str(TrackGenreValue(g))) == Success(g)
    ensures forall g :: AudioBookGenreOf(Str(AudioBookGenreValue(g))) == Success(g)
    ensures forall p :: PermissionOf(Str(PermissionValue(p))) == Success(p)
  {
    forall g ensures TrackGenreOf(Str(TrackGenreValue(g))) == Success(g) {
      TrackGenreRoundTrip(g);
    }
    forall g ensures AudioBookGenreOf(Str(AudioBookGenreValue(g))) == Success(g) {
      AudioBookGenreRoundTrip(g);
    }
    forall p ensures PermissionOf(Str(PermissionValue(p))) == Success(p) {
      PermissionRoundTrip(p);
    }
  }

  lemma TrackGenreRoundTrip(g: TrackGenre)
    ensures TrackGenreOf(Str(TrackGenreValue(g))) == Success(g)
  {
    match g
    case Rock => case Pop => case HipHop => case Electronic => case Classic =>
  }

  lemma AudioBookGenreRoundTrip(g: AudioBookGenre)
    ensures AudioBookGenreOf(Str(AudioBookGenreValue(g))) == Success(g)
  {
    match g
    case Comedy => case Horror => case Triller => case Roman => case Novell =>
  }

  lemma PermissionRoundTrip(p: Permission)
    ensures PermissionOf(Str(PermissionValue(p))) == Success(p)
  {
    match p
    case ViewUsers => case EditUsers => case BanUsers => case UsePlayground => case InviteAdmins =>
  }

  // -------------------------------------------------------------- entities

  /** A Content's duration attribute: a `timedelta`, held as whole microseconds,
      or whatever other value a deserialiser stored there unconverted. */
  datatype Duration = TimeDelta(micros: int) | RawDuration(raw: Value)

  /** Content and its two subclasses. Id lists are raw values: the
      constructors store `collaborator_ids or []` without checking it. */
  datatype Content =
    | Content(id: Value, title: Value, duration: Duration, artistId: Value,
              collaboratorIds: Value, sourceId: Value)
    | Track(id: Value, title: Value, duration: Duration, artistId: Value,
            collaboratorIds: Value, sourceId: Value,
            genres: seq<TrackGenre>, producerIds: Value)
    | Chapter(id: Value, title: Value, duration: Duration, artistId: Value,
              collaboratorIds: Value, sourceId: Value,
              narratorIds: Value)

  /** Collection and its three subclasses; `collaboratorIds` and `genres`
      are the derived fields `update()` recomputes. */
  datatype Collection =
    | Collection(id: Value, title: Value, contents: seq<Content>, creatorId: Value,
                 collaboratorIds: Value)
    | Album(id: Value, title: Value, contents: seq<Content>, creatorId: Value,
            collaboratorIds: Value, genres: seq<TrackGenre>)
    | Playlist(id: Value, title: Value, contents: seq<Content>, creatorId: Value,
               collaboratorIds: Value, genres: seq<TrackGenre>)
    | AudioBook(id: Value, title: Value, contents: seq<Content>, creatorId: Value,
                collaboratorIds: Value, bookGenres: seq<AudioBookGenre>)

  /** Person and its three subclasses. */
  datatype Person =
    | Person(id: Value, name: Value, email: Value)
    | User(id: Value, name: Value, email: Value, subscribed: Value,
           playlists: seq<Collection>, favouriteTracks: seq<Content>,
           favouriteAlbums: seq<Collection>, favouriteArtists: seq<Person>)
    | Artist(id: Value, name: Value, email: Value,
             tracks: seq<Content>, albums: seq<Collection>,
             collabedTracks: seq<Content>, collabedAlbums: seq<Collection>,
             producedTracks: seq<Content>)
    | Admin(id: Value, name: Value, email: Value, permissions: seq<Permission>)
}

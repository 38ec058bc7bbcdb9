# Music catalogue data core

A model of the data logic of a small music-catalogue program: people (users,
artists, administrators), content (tracks and audiobook chapters) and
collections of content (albums, playlists, audiobooks). The program validates
fields in property setters, keeps a collection's derived collaborator list in
step with its contents, and serialises every entity to a format-neutral tree
of dicts, lists and scalars, which a JSON or a flat XML file handler writes
out.

The model is functional: every entity is an immutable datatype, every setter
and mutator maps an old state to a new one (or to the error the program
raises), and the tree is the datatype `Values.Value`
(`Str | Int | Bool | Null | List | Map`, dicts keeping insertion order).
Python behaviour the code relies on is written out: truthiness and `or`,
`==` across `int`/`bool`, hashing into a set, `in`, `.copy()`, `.append()`,
`dict.get`, `dict[...]`, `str()`/`repr()`, `str.strip`, `isinstance` over the
program's class hierarchy, and `int(td.total_seconds())` as truncation toward
zero on integer microseconds.

Modules, one per file:

- `wrappers.dfy` — `Option`, `Result`, `Outcome`, and `MapAll` (a list
  comprehension that stops at the first exception).
- `errors.dfy` — the `DataError` kinds of errors.py with their message text,
  and the built-in exceptions the modelled code can raise.
- `values.dfy` — the tree and the Python built-ins applied to it.
- `domain.dfy` — the three enumerations and the entity datatypes.
- `runtime.dfy` — the class hierarchy, runtime values passed to setters,
  `isinstance`, `type(v).__name__`, `str.strip`.
- `validation.dfy` — `validate_str` and `validate_list`.
- `people.dfy` — Person, User and Admin setters; Person and Admin serialisers.
- `contents.dfy` — Content, Track and AudioBookChapter.
- `collections.dfy` — Collection, Album, Playlist and AudioBook.
- `flatxml.dfy` — the per-field text encoding of the XML file handler.

## Model

| member | source | states |
|---|---|---|
| Errors.EmptyValueMessageNamesField | errors.py:7-11 | EmptyValueError's message contains the field name right after its fixed prefix |
| Errors.EmptyValueMessageInjective | errors.py:7-11 | two EmptyValueErrors with the same message carry the same field name |
| Errors.InvalidTypeMessageOrder | errors.py:14-18 | InvalidTypeError's message names the field, the expected type and the actual type, in that order, without overlap |
| Errors.InvalidElementTypeMessageOrder | errors.py:21-25 | InvalidElementTypeError's message names the field and then the expected element type |
| Runtime.EveryErrorIsDataError | errors.py:1-32 | every error kind, CustomIndexError included, is a subclass of DataError and so of Exception |
| Runtime.StripEmptyIff | utils.py:8-9 | `s.strip()` is empty exactly when every character of `s` is whitespace |
| Runtime.BoolIsInt | utils.py:16-18 | a bool is an instance of int, an int is not an instance of bool |
| Validation.ValidateStr | utils.py:4-9 | passes iff the value is a str and either empty values are allowed or some character is not whitespace; a non-str raises InvalidTypeError(field, "str", type name), a blank str raises EmptyValueError(field) |
| Validation.TypeCheckFirst | utils.py:5-9 | a non-string never produces EmptyValueError, because the type check runs first |
| Validation.AllowEmptyAcceptsEveryString | utils.py:8-9 | with `allow_empty` every string passes, blank ones included |
| Validation.FirstNonInstance | utils.py:16-18 | finds the first element, in order, that is not an instance of the class, or reports that all are |
| Validation.ValidateList | utils.py:12-18 | passes iff the value is a list whose every element is an instance of the class, subclasses included; a non-list raises InvalidTypeError with `List[<class>]`, otherwise the first bad element raises InvalidElementTypeError |
| Validation.EmptyListPasses | utils.py:16-18 | an empty list passes whatever element class is expected |
| Validation.SubclassElementsPass | utils.py:16-18 | a list of bools passes as a list of ints |
| Domain.TrackGenreOf | main.py:14-21 | `TrackGenre(v)` succeeds exactly on the value text of a member and returns the member with that value |
| Domain.AudioBookGenreOf | main.py:24-31 | `AudioBookGenre(v)` succeeds exactly on the value text of a member |
| Domain.PermissionOf | main.py:34-41 | `Permission(v)` succeeds exactly on the value text of a member |
| Domain.EnumValuesRoundTrip | main.py:14-41 | looking a member up by its own value gives that member back, for all three enumerations |
| Domain.AllPermissions | main.py:44-46 | `Permission.all()` lists every permission exactly once, in declaration order |
| People.NewPerson | main.py:158-161 | the constructor stores id, name and email unvalidated |
| People.SetPersonId | main.py:177-183 | succeeds iff the value is a non-blank str, storing it; otherwise InvalidTypeError or EmptyValueError for "person_id" |
| People.PersonIdIsValidateStr | main.py:177-183 | the inline id checks accept, reject and report exactly as `validate_str` does |
| People.SetName | main.py:191-194 | succeeds iff the value is a non-blank str; failures are those of `validate_str` for "name" |
| People.AfterLastAt | main.py:206 | `s.split("@")[-1]`: the whole string when it has no "@", otherwise the "@"-free suffix that directly follows an "@" |
| People.LastIndexOf | main.py:206 | finds the last occurrence of a character, with no occurrence after it |
| People.PlausibleEmailIff | main.py:206-207 | "contains '@' and the part after the last '@' contains '.'" holds iff some '@' has no '@' and some '.' after it |
| People.SetEmail | main.py:202-209 | succeeds iff the value is a non-blank str with an '@' and a '.' after the last '@'; a str of the wrong shape raises DataError naming the address; the person is otherwise unchanged |
| People.EmailAccepted | main.py:202-209 | "a@b.c" is accepted |
| People.EmailDotBeforeAtRejected | main.py:206-207 | "a.b@c" is rejected: the dot precedes the '@' |
| People.EmailLastPartRejected | main.py:206-207 | "x@y.z@w" is rejected: only the part after the last '@' counts |
| People.EmailBlankRejected | main.py:203-204 | a blank address raises EmptyValueError("email") before its shape is examined |
| People.SerializePerson | main.py:212-217 | the dict maps "id", "name" and "email" to the stored values |
| People.DeserializePerson | main.py:220-226 | succeeds iff the data is a dict holding "id", "name" and "email"; a missing "id" raises KeyError("id"), a non-dict raises TypeError |
| People.PersonRoundTrip | main.py:212-226 | deserialising a serialised Person gives the same Person |
| People.SetSubscribed | main.py:255-259 | succeeds iff the value is a bool (an int is refused); otherwise InvalidTypeError("subscribed", "bool", type name) |
| People.SetPlaylists | main.py:267-271 | succeeds iff the value is a list of Playlist objects, storing them in order; failures are those of `validate_list` |
| People.SetFavouriteTracks | main.py:279-283 | succeeds iff the value is a list of Track objects, storing them in order |
| People.SetFavouriteAlbums | main.py:291-295 | succeeds iff the value is a list of Album objects, storing them in order |
| People.SetFavouriteArtists | main.py:301-305 | succeeds iff the value is a list of Artist objects, storing them in order |
| People.NewAdmin | main.py:444-447 | the constructor stores its arguments; no permission list means an empty one |
| People.SetPermissions | main.py:457-461 | succeeds iff the value is a list of Permission members, storing them in order |
| People.SerializeAdmin | main.py:463-470 | the Person entries plus "permissions" holding each permission's value text in order |
| People.DeserializeAdmin | main.py:472-481 | reads keys with `.get`, so missing ones become None; a non-dict raises AttributeError |
| People.AdminRoundTrip | main.py:463-481 | deserialising a serialised Admin gives the same Admin, permissions and their order included |
| Contents.NewContent | main.py:798-809 | the constructor stores its arguments unvalidated; a falsy collaborator list becomes `[]` |
| Contents.NewTrack | main.py:903-909 | a falsy producer or collaborator list becomes `[]`; genres are stored as given |
| Contents.NewChapter | main.py:979-983 | a falsy narrator list becomes a list holding the author id |
| Contents.SetTitle | main.py:822-826 | succeeds iff the value is a non-blank str; failures are those of `validate_str` for "title" |
| Contents.SetDuration | main.py:834-846 | a non-negative timedelta replaces the duration; anything else leaves the content unchanged without raising |
| Contents.SetDurationKeepsNonNegative | main.py:834-846 | no call of the duration setter makes a non-negative duration negative |
| Contents.CheckedStrList | main.py:858-862 | a list passes iff every element is a str, and the stored tree value stands for exactly that list |
| Contents.SetCollaboratorIds | main.py:858-862 | succeeds iff the value is a list of str, storing it; otherwise raises exactly the error `validate_list` raises for "collaborator_ids" |
| Contents.SetProducerIds | main.py:934-938 | succeeds iff the value is a list of str, storing it; otherwise raises exactly the error `validate_list` raises for "producer_ids" |
| Contents.SetNarratorIds | main.py:996-1000 | succeeds iff the value is a list of str, storing it; otherwise raises exactly the error `validate_list` raises for "narrator_ids" |
| Contents.SetGenres | main.py:922-926 | succeeds iff the value is a list of TrackGenre members, storing them in order |
| Contents.AddGenre | main.py:941-943 | the genre is present afterwards; it is appended only when absent |
| Contents.AddGenreIdempotent | main.py:941-943 | adding a genre twice equals adding it once, and a duplicate-free genre list stays duplicate-free |
| Contents.AddUnique | main.py:946-948 | on a list, appends the id only when no element equals it (Python `==`); errors come from `in` or `append` on a non-list |
| Contents.AddProducerId | main.py:946-948 | changes only the producer ids, as `AddUnique` does |
| Contents.AddNarratorId | main.py:1003-1005 | changes only the narrator ids, as `AddUnique` does |
| Contents.AddUniqueIdempotent | main.py:946-948 | afterwards the id is present, and adding it again changes nothing |
| Contents.AddCollaboratorId | main.py:870-872 | never changes the content: the id is appended to a copy |
| Contents.DurationSeconds | main.py:879 | the whole-second count truncates toward zero: within one second of the duration, never past it; a raw number has no `total_seconds` |
| Contents.SerializeContent | main.py:875-885 | succeeds iff the duration is a timedelta and the id lists can be copied; the dict holds exactly the keys written, in order |
| Contents.EntriesLookup | main.py:875-885 | each written key maps to its field; "creator_id", "artist_id" and "source_id" are absent |
| Contents.SerializedKeysMismatch | main.py:875-897 | serialisation writes "artist" and "source" but never the "artist_id"/"source_id"/"creator_id" keys deserialisation reads |
| Contents.SecondsToTimedelta | main.py:893 | `timedelta(seconds=n)` for an int or bool gives n whole seconds; a non-number raises TypeError; a number succeeds iff it lies in timedelta's range, otherwise OverflowError |
| Contents.DeserializeContent | main.py:888-897 | succeeds iff the data is a dict whose "duration" converts to a timedelta; id, title, "artist_id", "source_id" and "collaborator_ids" fill the fields, a missing key giving None (or `[]` for the ids) |
| Contents.DeserializeTrack | main.py:962-973 | succeeds iff the data is a dict whose "genres" iterates to genre value texts; the duration is stored raw, the artist id comes from "creator_id", genres and producer ids from their keys |
| Contents.DeserializeChapter | main.py:1018-1028 | succeeds iff the data is a dict; the fields come from "artist_id", "source_id" and the other keys; without narrator ids the narrators are `[data.get("artist_id")]` |
| Contents.GenresRoundTrip | main.py:951-973 | the genre value texts map back to the same genres |
| Contents.TrackRoundTrip | main.py:951-973 | a Track comes back with id, title, genres, collaborator and producer ids; artist and album ids become None and the duration a bare second count |
| Contents.TrackReserialiseFails | main.py:875-885 | a deserialised Track cannot be serialised again (AttributeError on `total_seconds`) |
| Contents.ChapterRoundTrip | main.py:1008-1028 | a chapter comes back with author and book ids None, so an empty narrator list becomes `[None]` |
| Contents.ContentRoundTrip | main.py:875-897 | a Content comes back with its duration truncated to whole seconds and artist and source ids None |
| Contents.SecondsRoundTrip | main.py:879-893 | whole-second durations survive exactly; others lose less than a second |
| Collections.NewCollection | main.py:491-498 | the constructor stores its arguments; a falsy collaborator list becomes `[]` |
| Collections.NewAlbum | main.py:612-619 | non-empty given genres are kept; an empty list is refreshed, which finds nothing, so the genres are exactly the given ones |
| Collections.NewPlaylist | main.py:676-682 | the given genres are kept (an empty list is refreshed to empty); collaborator ids start empty |
| Collections.NewAudioBook | main.py:739-745 | the given genres are kept (an empty list is refreshed to empty); collaborator ids start empty |
| Collections.ListedIds | main.py:566-568 | the ids one content contributes: the items of its list, the keys of a dict, none if it cannot be copied |
| Collections.AllListedIds | main.py:565-568 | an id is gathered iff some content lists it |
| Values.SetOf | main.py:564-571 | `list(set(xs))` of hashable values: every element of the result comes from `xs`, every element of `xs` equals one of the result, and no two results are equal |
| Collections.RefreshCollaborators | main.py:563-571 | fails with TypeError iff some listed id is unhashable; otherwise yields every listed id, only listed ids, without duplicates |
| Collections.RefreshGenres | main.py:631-638 | the refreshed genre list is empty exactly when no content has a `genre` attribute |
| Collections.GenreBearers | main.py:631-638 | the contents the genre refresh collects are exactly those with a `genre` attribute |
| Collections.GenreBearersEmpty | main.py:631-638 | no content has a `genre` attribute, so the genre refresh always finds nothing |
| Collections.Update | main.py:574-575 | succeeds iff the collaborator refresh does; leaves the collection consistent, everything else unchanged, and (through the subclasses' genre refresh, as at main.py:641-644) its genres empty |
| Collections.UpdateSucceedsIff | main.py:563-575 | `update()` raises iff some content lists a collaborator id that is a list or a dict |
| Collections.UpdateIdempotent | main.py:574-575 | when every listed id is hashable, update succeeds, and updating the updated collection changes nothing |
| Collections.AddContent | main.py:534-537 | appends the content; on success the collaborator ids are consistent, id, title, creator and kind are kept and the genres are reset to `[]`; on failure the append has still happened |
| Collections.FirstIndex | main.py:541 | finds the first position holding the content |
| Collections.RemoveAt | main.py:541 | removes exactly one position, keeping the order of the rest |
| Collections.RemoveContent | main.py:540-543 | removes the first equal item and updates (id, title, creator and kind kept, genres reset to `[]`); an absent item raises ValueError and changes nothing; a TypeError from the update leaves the removal done |
| Collections.RemoveContentDropsOne | main.py:540-543 | removing a present content takes out exactly one copy of it, whatever the update does |
| Collections.NormalIndex | main.py:547 | a Python index in `-n <= i < n` names position `i` or `i + n` |
| Collections.PopContent | main.py:545-555 | a valid index removes and returns that item and updates (id, title, creator and kind kept, genres reset to `[]`); any other index returns None and changes nothing; a TypeError from the update leaves the removal done |
| Collections.AddThenPop | main.py:534-555 | when every listed id (including the new content's) is hashable, adding succeeds; popping index -1 then returns the added content and restores the contents |
| Collections.SetContents | main.py:527-531 | succeeds iff the value is a list of Content objects, storing them; collaborator ids are not refreshed |
| Collections.SetContentsLeavesCollaboratorsStale | main.py:527-531 | a collection whose contents are replaced keeps collaborator ids no content lists |
| Collections.SetCollectionTitle | main.py:515-519 | succeeds iff the value is a non-blank str |
| Collections.SerializeCollection | main.py:584-591 | succeeds iff every content serialises; the dict adds "genres" for the three subclasses |
| Collections.CollectionLookup | main.py:584-591 | each written key maps to its field, and "genres" to the genre value texts |
| Collections.CreatorIdIsCollectionId | main.py:506-508 | the `creator_id` accessor returns the collection id, while the dict holds the stored creator id; the two disagree whenever the ids differ |
| Collections.DeserializeAlbum | main.py:657-666 | produces an Album; a non-dict fails |
| Collections.DeserializePlaylist | main.py:721-729 | produces a Playlist with empty collaborator ids; a non-dict fails |
| Collections.DeserializeAudioBook | main.py:780-788 | produces an AudioBook with empty collaborator ids; a non-dict fails |
| Collections.TracksRoundTrip | main.py:657-666 | every serialised track deserialises to its reloaded form |
| Collections.ChaptersRoundTrip | main.py:780-788 | every serialised chapter deserialises to its reloaded form |
| Collections.TrackGenresRoundTrip | main.py:647-666 | the album genre texts map back to the same genres |
| Collections.BookGenresRoundTrip | main.py:770-788 | the audiobook genre texts map back to the same genres |
| Collections.AlbumRoundTrip | main.py:647-666 | an Album comes back with id, title, creator id, collaborator ids and genres, and its tracks reloaded |
| Collections.PlaylistRoundTrip | main.py:711-729 | a Playlist comes back with its genres and tracks reloaded but its collaborator ids emptied |
| Collections.AudioBookRoundTrip | main.py:770-788 | an AudioBook comes back with its genres and chapters reloaded but its collaborator ids emptied |
| FlatXml.Split | main.py:131 | `str.split(",")` yields at least one comma-free part, and joining the parts with "," gives the text back |
| FlatXml.SplitJoin | main.py:110-131 | splitting a ","-join of comma-free parts gives the parts back |
| FlatXml.EncodeField | main.py:108-113 | a list's text is its elements' `str` joined with ","; an empty list gives ""; two or more elements give a text with a "," |
| FlatXml.DecodeField | main.py:129-133 | no text gives None; text without "," stays a string; text with "," becomes a list of at least two strings that join back to it |
| FlatXml.ReloadIdentityIff | main.py:108-133 | a value survives save and load unchanged iff it is a non-empty comma-free string or a list of two or more comma-free strings |
| FlatXml.ScalarsComeBackAsText | main.py:112-133 | ints, bools and None come back as their `str()` text |
| FlatXml.EmptyAndSingletonCollapse | main.py:108-133 | "" and `[]` come back as None; a one-element list of a non-empty comma-free string comes back as that string |
| FlatXml.SingletonEdgeCases | main.py:108-133 | the other one-element lists do not: `[""]` comes back as None and `["a,b"]` as a two-element list |
| FlatXml.CommaTextBecomesList | main.py:112-133 | a string holding "," comes back as the list of its parts |
| FlatXml.LoadItemKeys | main.py:127-133 | every child tag becomes a key and every key comes from a tag |
| FlatXml.LoadItemLastWins | main.py:127-133 | the last child with a tag gives that key its value |
| FlatXml.LoadDistinct | main.py:127-133 | with distinct tags the loaded dict holds the children in order |
| FlatXml.SaveItem | main.py:108-113 | one child per key of the object's dict, in key order, with the key as tag and the value's encoded text |
| FlatXml.LoadItem | main.py:128-133 | each child assigns its tag in the item's dict, so the last child's tag maps to its decoded text |
| FlatXml.ItemRoundTrip | main.py:104-133 | one object's dict comes back with the same keys in the same order, each value as `Reload` gives it |
| FlatXml.Save | main.py:104-113 | one item per serialised object, each as `SaveItem` writes it |
| FlatXml.Load | main.py:126-136 | one dict per item, in document order, each as `LoadItem` builds it |
| FlatXml.FileRoundTrip | main.py:104-136 | a file loads back as many dicts as objects were saved, each as `ItemRoundTrip` says |

## Left out

- File access, `json.dump`/`json.load`, building the ElementTree, minidom pretty-printing and XML escaping: the XML handler is modelled per element text; `FlatXml.Transport` stands for writing and parsing a text back (only "" changes, into an element without text).
- Characters XML cannot carry (most control characters) and the parser's line-ending normalisation ("\r" becoming "\n") are not modelled: texts are assumed to pass through unchanged.
- `FileHandlerSelector` and `JSONFileHandler`: a dispatch table and library calls.
- `MusicPlayer` and the demonstration function at the end of main.py: they only store fields and print.
- User and Artist `serialize`/`deserialize`, and the Artist list setters: nested object graphs outside the modelled core; the Artist `collabed_albums` setter calls itself forever.
- `Collection.deserialize`: it passes raw dicts as contents, which no modelled operation accepts; the three subclasses' deserialisers are modelled.
- `print` diagnostics: the duration setter's notices and the CustomIndexError message printed by `pop_content` (only the None result is modelled).
- `__str__` methods, the id aliases (`user_id`, `admin_id`, ...) and the getters that only return a field or a copy of it. The copy made by the `collaborator_ids` getter does matter and is modelled: `Collections.ListedIds` skips contents whose stored ids cannot be copied, and `Contents.AddCollaboratorId` appends to the copy and so changes nothing.
- Floating point in `timedelta.total_seconds()`: durations are integer microseconds and the second count is truncating integer division, exact for durations below 2^53 microseconds.
- `Collections.RefreshCollaborators`: Python's `list(set(...))` order depends on hashing; the model keeps first-occurrence order, and its contract states only membership and absence of duplicates.
- `Collections.RemoveContent`: `list.remove` compares with `==`, which for the entity classes is identity; the model compares values.
- `Collections.DeserializeAlbum`, `Collections.DeserializePlaylist`, `Collections.DeserializeAudioBook`: their own contracts state only the kind and the error on a non-dict; the exact results are stated by the round-trip lemmas.
- `People.DeserializeAdmin`: its own contract does not state the permission list; `People.AdminRoundTrip` does.
- `repr` of non-printable non-ASCII characters inside lists written by the XML handler: only the ASCII escapes and a few Latin-1 ones are written out.
- Constructor arguments: scalar fields and id lists are stored as untyped tree values, as the program stores them. Four kinds of field are typed in the model: collection `contents` (a sequence of contents), Track `genres` (TrackGenre members), Admin `permissions` (Permission members) and content `duration` (a timedelta or a raw value). main.py stores these unchecked in its constructors (main.py:447, 495, 803, 908); a constructor call with an ill-typed value there, and the errors Python would raise on it later, are not modelled.
- Class names in error messages: `Runtime.ClassRepr` writes the classes of main.py as `<class '__main__.X'>`, which assumes main.py runs as a script; imported as a module, Python would write `<class 'main.X'>`.

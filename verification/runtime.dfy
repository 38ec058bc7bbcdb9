/** Python runtime values as the setters receive them, the class hierarchy
    `isinstance` consults, and `str.strip`. */
module Runtime {
  import opened Wrappers
  import opened Errors
  import opened Values
  import opened Domain

  /** The classes that matter here: built-ins, the enumerations, the entity
      classes of main.py and the error classes of errors.py. */
  datatype PyClass =
    | ObjectClass | StrClass | IntClass | BoolClass | NoneClass | ListClass | DictClass
    | TimedeltaClass | EnumClass | TrackGenreClass | AudioBookGenreClass | PermissionClass
    | AbcClass | SerializableClass
    | PersonClass | UserClass | ArtistClass | AdminClass
    | ContentClass | TrackClass | ChapterClass
    | CollectionClass | AlbumClass | PlaylistClass | AudioBookClass
    | BaseExceptionClass | ExceptionClass | DataErrorClass
    | EmptyValueErrorClass | InvalidTypeErrorClass | InvalidElementTypeErrorClass | CustomIndexErrorClass

  /** `cls.__mro__`: the class followed by its ancestors, ending in `object`. */
  function Mro(c: PyClass): (r: seq<PyClass>)
    ensures |r| > 0 && r[0] == c && r[|r| - 1] == ObjectClass
  {
    match c
    case ObjectClass => [ObjectClass]
    case BoolClass => [BoolClass, IntClass, ObjectClass]
    case TrackGenreClass => [TrackGenreClass, EnumClass, ObjectClass]
    case AudioBookGenreClass => [AudioBookGenreClass, EnumClass, ObjectClass]
    case PermissionClass => [PermissionClass, EnumClass, ObjectClass]
    case SerializableClass => [SerializableClass, AbcClass, ObjectClass]
    case PersonClass => [PersonClass, SerializableClass, AbcClass, ObjectClass]
    case UserClass => [UserClass, PersonClass, SerializableClass, AbcClass, ObjectClass]
    case ArtistClass => [ArtistClass, PersonClass, SerializableClass, AbcClass, ObjectClass]
    case AdminClass => [AdminClass, PersonClass, SerializableClass, AbcClass, ObjectClass]
    case ContentClass => [ContentClass, SerializableClass, AbcClass, ObjectClass]
    case TrackClass => [TrackClass, ContentClass, SerializableClass, AbcClass, ObjectClass]
    case ChapterClass => [ChapterClass, ContentClass, SerializableClass, AbcClass, ObjectClass]
    case CollectionClass => [CollectionClass, SerializableClass, AbcClass, ObjectClass]
    case AlbumClass => [AlbumClass, CollectionClass, SerializableClass, AbcClass, ObjectClass]
    case PlaylistClass => [PlaylistClass, CollectionClass, SerializableClass, AbcClass, ObjectClass]
    case AudioBookClass => [AudioBookClass, CollectionClass, SerializableClass, AbcClass, ObjectClass]
    case BaseExceptionClass => [BaseExceptionClass, ObjectClass]
    case ExceptionClass => [ExceptionClass, BaseExceptionClass, ObjectClass]
    case DataErrorClass => [DataErrorClass, ExceptionClass, BaseExceptionClass, ObjectClass]
    case EmptyValueErrorClass => [EmptyValueErrorClass, DataErrorClass, ExceptionClass, BaseExceptionClass, ObjectClass]
    case InvalidTypeErrorClass => [InvalidTypeErrorClass, DataErrorClass, ExceptionClass, BaseExceptionClass, ObjectClass]
    case InvalidElementTypeErrorClass => [InvalidElementTypeErrorClass, DataErrorClass, ExceptionClass, BaseExceptionClass, ObjectClass]
    case CustomIndexErrorClass => [CustomIndexErrorClass, DataErrorClass, ExceptionClass, BaseExceptionClass, ObjectClass]
    case _ => [c, ObjectClass]
  }

  /** `issubclass(c, d)` */
  predicate IsSubclass(c: PyClass, d: PyClass) {
    d in Mro(c)
  }

  /** `cls.__name__` */
  function ClassName(c: PyClass): string {
    match c
    case ObjectClass => "object"
    case StrClass => "str"
    case IntClass => "int"
    case BoolClass => "bool"
    case NoneClass => "NoneType"
    case ListClass => "list"
    case DictClass => "dict"
    case TimedeltaClass => "timedelta"
    case EnumClass => "Enum"
    case TrackGenreClass => "TrackGenre"
    case AudioBookGenreClass => "AudioBookGenre"
    case PermissionClass => "Permission"
    case AbcClass => "ABC"
    case SerializableClass => "Serializable"
    case PersonClass => "Person"
    case UserClass => "User"
    case ArtistClass => "Artist"
    case AdminClass => "Admin"
    case ContentClass => "Content"
    case TrackClass => "Track"
    case ChapterClass => "AudioBookChapter"
    case CollectionClass => "Collection"
    case AlbumClass => "Album"
    case PlaylistClass => "Playlist"
    case AudioBookClass => "AudioBook"
    case BaseExceptionClass => "BaseException"
    case ExceptionClass => "Exception"
    case DataErrorClass => "DataError"
    case EmptyValueErrorClass => "EmptyValueError"
    case InvalidTypeErrorClass => "InvalidTypeError"
    case InvalidElementTypeErrorClass => "InvalidElementTypeError"
    case CustomIndexErrorClass => "CustomIndexError"
  }

  /** `str(cls)`: enumerations print as `<enum 'X'>`; classes of main.py are
      qualified by `__main__`, the module name when main.py runs as a script. */
  function ClassRepr(c: PyClass): string {
    match c
    case EnumClass => "<enum '" + ClassName(c) + "'>"
    case TrackGenreClass => "<enum '" + ClassName(c) + "'>"
    case AudioBookGenreClass => "<enum '" + ClassName(c) + "'>"
    case PermissionClass => "<enum '" + ClassName(c) + "'>"
    case TimedeltaClass => "<class 'datetime.timedelta'>"
    case AbcClass => "<class 'abc.ABC'>"
    case DataErrorClass => "<class 'errors." + ClassName(c) + "'>"
    case EmptyValueErrorClass => "<class 'errors." + ClassName(c) + "'>"
    case InvalidTypeErrorClass => "<class 'errors." + ClassName(c) + "'>"
    case InvalidElementTypeErrorClass => "<class 'errors." + ClassName(c) + "'>"
    case CustomIndexErrorClass => "<class 'errors." + ClassName(c) + "'>"
    case _ =>
      if IsMainClass(c) then "<class '__main__." + ClassName(c) + "'>"
      else "<class '" + ClassName(c) + "'>"
  }

  /** The entity classes defined in main.py. */
  predicate IsMainClass(c: PyClass) {
    IsSubclass(c, SerializableClass)
  }

  /** The class of each DataError variant. */
  function ErrorClass(e: DataError): PyClass {
    match e
    case EmptyValue(_) => EmptyValueErrorClass
    case InvalidType(_, _, _) => InvalidTypeErrorClass
    case InvalidElementType(_, _) => InvalidElementTypeErrorClass
    case CustomIndex => CustomIndexErrorClass
    case Raised(_) => DataErrorClass
  }

  /** Every error kind of errors.py is a DataError, and so an Exception. */
  lemma EveryErrorIsDataError(e: DataError)
    ensures IsSubclass(ErrorClass(e), DataErrorClass)
    ensures IsSubclass(ErrorClass(e), ExceptionClass)
  {
  }

  // -------------------------------------------------------- runtime values

  datatype EnumMember =
    | TrackGenreMember(trackGenre: TrackGenre)
    | AudioBookGenreMember(bookGenre: AudioBookGenre)
    | PermissionMember(permission: Permission)

  datatype Obj =
    | PersonObj(person: Person)
    | ContentObj(content: Content)
    | CollectionObj(collection: Collection)

  /** A value a Python caller can pass to a setter. */
  datatype PyValue =
    | PStr(s: string)
    | PInt(i: int)
    | PBool(b: bool)
    | PNone
    | PList(items: seq<PyValue>)
    | PDict(entries: seq<(string, PyValue)>)
    | PTimedelta(micros: int)
    | PEnum(member: EnumMember)
    | PObject(obj: Obj)

  function ObjClass(o: Obj): PyClass {
    match o
    case PersonObj(p) =>
      if p.Person? then PersonClass
      else if p.User? then UserClass
      else if p.Artist? then ArtistClass
      else AdminClass
    case ContentObj(c) =>
      if c.Content? then ContentClass
      else if c.Track? then TrackClass
      else ChapterClass
    case CollectionObj(k) =>
      if k.Collection? then CollectionClass
      else if k.Album? then AlbumClass
      else if k.Playlist? then PlaylistClass
      else AudioBookClass
  }

  /** `type(v)` */
  function TypeOf(v: PyValue): PyClass {
    match v
    case PStr(_) => StrClass
    case PInt(_) => IntClass
    case PBool(_) => BoolClass
    case PNone => NoneClass
    case PList(_) => ListClass
    case PDict(_) => DictClass
    case PTimedelta(_) => TimedeltaClass
    case PEnum(m) =>
      if m.TrackGenreMember? then TrackGenreClass
      else if m.AudioBookGenreMember? then AudioBookGenreClass
      else PermissionClass
    case PObject(o) => ObjClass(o)
  }

  /** `type(v).__name__` */
  function TypeName(v: PyValue): string {
    ClassName(TypeOf(v))
  }

  /** `isinstance(v, c)`, subclasses included. */
  predicate IsInstance(v: PyValue, c: PyClass) {
    IsSubclass(TypeOf(v), c)
  }

  /** Only strings are instances of `str`; only booleans of `bool`. */
  lemma StrInstances(v: PyValue)
    ensures IsInstance(v, StrClass) <==> v.PStr?
    ensures IsInstance(v, BoolClass) <==> v.PBool?
  {
  }

  /** The instances of each enumeration are its members. */
  lemma EnumInstances(v: PyValue)
    ensures IsInstance(v, TrackGenreClass) <==> v.PEnum? && v.member.TrackGenreMember?
    ensures IsInstance(v, PermissionClass) <==> v.PEnum? && v.member.PermissionMember?
  {
  }

  /** The classes whose instances are Content objects are exactly Content and its subclasses. */
  lemma ContentInstances(v: PyValue)
    ensures IsInstance(v, ContentClass) <==> v.PObject? && v.obj.ContentObj?
    ensures IsInstance(v, TrackClass) <==> v.PObject? && v.obj.ContentObj? && v.obj.content.Track?
  {
  }

  /** Collection instances, and Album and Playlist instances among them. */
  lemma CollectionInstances(v: PyValue)
    ensures IsInstance(v, CollectionClass) <==> v.PObject? && v.obj.CollectionObj?
    ensures IsInstance(v, AlbumClass) <==> v.PObject? && v.obj.CollectionObj? && v.obj.collection.Album?
    ensures IsInstance(v, PlaylistClass) <==> v.PObject? && v.obj.CollectionObj? && v.obj.collection.Playlist?
  {
  }

  /** Artist instances. */
  lemma ArtistInstances(v: PyValue)
    ensures IsInstance(v, ArtistClass) <==> v.PObject? && v.obj.PersonObj? && v.obj.person.Artist?
  {
  }

  /** A bool is an int, but an int is not a bool. */
  lemma BoolIsInt(v: PyValue)
    ensures v.PBool? ==> IsInstance(v, IntClass)
    ensures IsInstance(v, BoolClass) <==> v.PBool?
  {
  }

  /** The tree value as the Python object it stands for. */
  function FromTree(v: Value): PyValue {
    match v
    case Str(s) => PStr(s)
    case Int(n) => PInt(n)
    case Bool(b) => PBool(b)
    case Null => PNone
    case List(xs) => PList(seq(|xs|, i requires 0 <= i < |xs| => FromTree(xs[i])))
    case Map(m) => PDict(seq(|m|, i requires 0 <= i < |m| => (m[i].0, FromTree(m[i].1))))
  }

  // ------------------------------------------------------------- str.strip

  /** `c.isspace()` for one character. */
  predicate IsSpace(c: char) {
    c == ' ' || ('\t' <= c <= '\r') || ('\U{1c}' <= c <= '\U{1f}') ||
    c == '\U{85}' || c == '\U{a0}' || c == '\U{1680}' ||
    ('\U{2000}' <= c <= '\U{200a}') || c == '\U{2028}' || c == '\U{2029}' ||
    c == '\U{202f}' || c == '\U{205f}' || c == '\U{3000}'
  }

  /** Number of leading whitespace characters. */
  function Leading(s: string): (n: nat)
    ensures n <= |s|
    ensures forall k :: 0 <= k < n ==> IsSpace(s[k])
    ensures n < |s| ==> !IsSpace(s[n])
  {
    if s == [] || !IsSpace(s[0]) then 0 else 1 + Leading(s[1..])
  }

  /** Number of trailing whitespace characters. */
  function Trailing(s: string): (n: nat)
    ensures n <= |s|
    ensures forall k :: |s| - n <= k < |s| ==> IsSpace(s[k])
    ensures n < |s| ==> !IsSpace(s[|s| - n - 1])
  {
    if s == [] || !IsSpace(s[|s| - 1]) then 0 else 1 + Trailing(s[..|s| - 1])
  }

  /** `s.strip()`: the text between the leading and the trailing whitespace. */
  function Strip(s: string): (r: string)
    ensures exists i, j :: 0 <= i <= j <= |s| && r == s[i..j]
              && (forall k :: 0 <= k < i ==> IsSpace(s[k]))
              && (forall k :: j <= k < |s| ==> IsSpace(s[k]))
    ensures r != [] ==> !IsSpace(r[0]) && !IsSpace(r[|r| - 1])
  {
    var i := Leading(s);
    var t := s[i..];
    var n := Trailing(t);
    assert s[i..i + (|t| - n)] == t[..|t| - n];
    t[..|t| - n]
  }

  /** A string strips to nothing exactly when it is all whitespace. */
  lemma StripEmptyIff(s: string)
    ensures Strip(s) == "" <==> forall k :: 0 <= k < |s| ==> IsSpace(s[k])
  {
    var r := Strip(s);
    var i, j :| 0 <= i <= j <= |s| && r == s[i..j]
                && (forall k :: 0 <= k < i ==> IsSpace(s[k]))
                && (forall k :: j <= k < |s| ==> IsSpace(s[k]));
    if r == "" {
      assert i == j;
    } else {
      assert !IsSpace(s[i]);
    }
  }
}

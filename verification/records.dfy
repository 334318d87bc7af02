/**
 * The values the track service passes around: the four nullable columns of a
 * track row, the arguments a request handler receives from the request parser,
 * the dictionary a handler serialises a row into, and the responses it returns.
 */
module TrackRecords {

  datatype Option<T> = None | Some(value: T)

  /** A Python value as it reaches a column: None, a str or an int. */
  datatype Value = Null | Text(s: string) | Number(n: int)

  /** The four mutable columns of a track, in declaration order. */
  datatype Field = SongName | Artist | Album | ReleaseYear
  {
    /** The argument name the parser declares and the dictionary key a handler writes. */
    function Key(): string {
      match this
      case SongName => "song_name"
      case Artist => "artist"
      case Album => "album"
      case ReleaseYear => "release_year"
    }
  }

  const AllFields: set<Field> := {SongName, Artist, Album, ReleaseYear}

  /** One stored track, without its primary key (the table's key is the id). */
  datatype Row = Row(songName: Value, artist: Value, album: Value, releaseYear: Value)
  {
    function Get(f: Field): Value {
      match f
      case SongName => songName
      case Artist => artist
      case Album => album
      case ReleaseYear => releaseYear
    }
  }

  /** The dictionary a handler returns for one track: its id and its four columns. */
  datatype TrackDict = TrackDict(id: int, songName: Value, artist: Value, album: Value, releaseYear: Value)
  {
    function Get(f: Field): Value {
      match f
      case SongName => songName
      case Artist => artist
      case Album => album
      case ReleaseYear => releaseYear
    }
  }

  /** Parsed request arguments: a map from argument name to the value received. */
  type Args = map<Field, Value>

  /** A request body as sent: any keys at all, of which the parser reads four. */
  type Sent = map<string, Value>

  const OK: int := 200
  const CREATED: int := 201
  const NO_CONTENT: int := 204
  const NOT_FOUND: int := 404

  /** What a single-track handler answers. */
  datatype Response =
    | Ok(body: TrackDict, status: int)
    | NoContent
    | NotFound(id: int)
  {
    /** The HTTP status sent: the one chosen by the handler, 204 for an empty body, 404 from the gate. */
    function Status(): int {
      match this
      case Ok(_, s) => s
      case NoContent => NO_CONTENT
      case NotFound(_) => NOT_FOUND
    }
  }

  /**
   * The request parser: it declares the four arguments, none required, and
   * fills every declared argument, with None for one the request did not send.
   * Keys it does not declare (a client may send "id") are dropped.
   */
  function Parse(sent: Sent): (args: Args)
    ensures args.Keys == AllFields
    ensures forall f :: f in args && f.Key() in sent ==> args[f] == sent[f.Key()]
    ensures forall f :: f in args && f.Key() !in sent ==> args[f] == Null
  {
    map f | f in AllFields :: if f.Key() in sent then sent[f.Key()] else Null
  }

  /** Whether the arguments carry a value (possibly None) for every column. */
  predicate Complete(args: Args) {
    AllFields <= args.Keys
  }

  /** `args[f]` as PUT and POST read it: an argument the parser did not fill reads as None. */
  function Supplied(args: Args, f: Field): Value {
    if f in args then args[f] else Null
  }

  /**
   * The row PUT and POST build: every column taken from the arguments,
   * whatever the row held before.
   */
  function Overwritten(args: Args): (r: Row)
    ensures forall f :: f in args ==> r.Get(f) == args[f]
    ensures forall f :: f !in args ==> r.Get(f) == Null
  {
    Row(Supplied(args, SongName), Supplied(args, Artist), Supplied(args, Album), Supplied(args, ReleaseYear))
  }

  /** `args.get(f, current)`: the argument's value when its key is present, the current value otherwise. */
  function ArgOr(args: Args, f: Field, current: Value): Value {
    if f in args then args[f] else current
  }

  /** The row PATCH leaves: each column replaced when its key is present, kept when it is absent. */
  function Patched(row: Row, args: Args): (r: Row)
    ensures forall f :: f in args ==> r.Get(f) == args[f]
    ensures forall f :: f !in args ==> r.Get(f) == row.Get(f)
  {
    Row(ArgOr(args, SongName, row.songName),
        ArgOr(args, Artist, row.artist),
        ArgOr(args, Album, row.album),
        ArgOr(args, ReleaseYear, row.releaseYear))
  }

  /** The dictionary a handler builds from a stored track. */
  function Serialize(id: int, row: Row): (d: TrackDict)
    ensures d.id == id
    ensures forall f :: d.Get(f) == row.Get(f)
  {
    TrackDict(id, row.songName, row.artist, row.album, row.releaseYear)
  }

  /** When every key is present, PATCH builds exactly the row PUT builds. */
  lemma PatchCompleteIsPut(row: Row, args: Args)
    requires Complete(args)
    ensures Patched(row, args) == Overwritten(args)
  {
  }

  /** With the arguments as the parser really delivers them, PATCH overwrites every column like PUT. */
  lemma PatchParsedIsPut(row: Row, sent: Sent)
    ensures Patched(row, Parse(sent)) == Overwritten(Parse(sent))
  {
    PatchCompleteIsPut(row, Parse(sent));
  }

  /**
   * An argument map with no keys (one the parser never delivers) leaves the
   * row as it was under the literal `args.get` reading of PATCH.
   */
  lemma PatchEmptyKeepsRow(row: Row)
    ensures Patched(row, map[]) == row
  {
  }

  /** A PATCH request that sends nothing clears every column, because the parser fills each with None. */
  lemma PatchParsedEmptyClears(row: Row)
    ensures Patched(row, Parse(map[])) == Row(Null, Null, Null, Null)
  {
  }

  /** The data the start-up routine seeds, as the dictionary lists it: key, then the four columns. */
  const SeedData: seq<(int, Row)> := [
    (1, Row(Text("Suck My Kiss"), Text("Red Hot Chili Peppers"), Text("Blood Sugar Sex Magik"), Number(1991))),
    (2, Row(Text("Strife"), Text("Trivium"), Text("Vengeance Falls"), Number(2013))),
    (3, Row(Text("Off the Abyss"), Text("Lorna Shore"), Text("...And I Return To Nothingness"), Number(2021))),
    (4, Row(Text("Cemetery Gates"), Text("Pantera"), Text("Cowboys from Hell"), Number(1990))),
    (5, Row(Text("Please End Me"), Text("Paleface Swiss"), Text("Single track"), Number(2023)))
  ]
}

/**
 * Request sequences a client can issue against the two resources, and what
 * the resources' contracts alone let a caller conclude about them.
 */
module TrackScenarios {
  import opened TrackRecords
  import opened TrackStore

  /** Start-up: a fresh table seeded with the five sample tracks. */
  method Startup() returns (db: Database, ghost ids: seq<int>)
    ensures fresh(db) && db.Valid()
    ensures |db.tracks| == 5 && |ids| == 5
    ensures forall id :: id in db.tracks <==> id in ids
    ensures forall i :: 0 <= i < 5 ==> ids[i] in db.tracks && db.tracks[ids[i]] == SeedData[i].1
  {
    db := new Database();
    ids := db.InitializeWithData();
  }

  /** A deleted id answers 404 afterwards, whether or not it was stored. */
  method DeleteThenGet(db: Database, id: int) returns (deleted: Response, got: Response)
    requires db.Valid()
    modifies db
    ensures deleted == (if id in old(db.tracks) then NoContent else NotFound(id))
    ensures got == NotFound(id)
  {
    var track := new Track(db);
    deleted := track.Delete(id);
    got := track.Get(id);
  }

  /** A created track reads back with the id and columns the creation answered. */
  method PostThenGet(db: Database, args: Args) returns (created: Response, got: Response)
    requires db.Valid()
    modifies db
    ensures created.Ok? && created.status == CREATED
    ensures got == Ok(created.body, OK)
    ensures created.body.id !in old(db.tracks)
  {
    var list := new TrackList(db);
    var track := new Track(db);
    created := list.Post(args);
    got := track.Get(created.body.id);
  }

  /** Creating on an empty table, then listing, lists exactly the created track. */
  method PostOnEmptyThenList(db: Database, args: Args) returns (created: Response, body: seq<TrackDict>)
    requires db.Valid() && db.tracks == map[]
    modifies db
    ensures created.Ok? && created.status == CREATED
    ensures body == [created.body]
  {
    var list := new TrackList(db);
    created := list.Post(args);
    body := list.Get();
    assert |body| == 1;
    assert body[0] in body;
  }

  /** Replacing a stored track twice with the same arguments answers and stores the same both times. */
  method PutTwice(db: Database, id: int, args: Args) returns (first: Response, second: Response)
    requires db.Valid() && id in db.tracks
    modifies db
    ensures first == second == Ok(Serialize(id, Overwritten(args)), CREATED)
    ensures db.tracks == old(db.tracks)[id := Overwritten(args)]
  {
    var track := new Track(db);
    first := track.Put(id, args);
    second := track.Put(id, args);
  }

  /**
   * PATCH on the first seeded track with an argument map holding only
   * SongName (one the parser never delivers) keeps the other three columns.
   */
  method PatchSongName(db: Database) returns (r: Response)
    requires db.Valid() && 1 in db.tracks && db.tracks[1] == SeedData[0].1
    modifies db
    ensures r == Ok(TrackDict(1, Text("Scar Tissue"), Text("Red Hot Chili Peppers"),
                              Text("Blood Sugar Sex Magik"), Number(1991)), OK)
  {
    var track := new Track(db);
    r := track.Patch(1, map[SongName := Text("Scar Tissue")]);
  }

  /**
   * A real PATCH request on the first seeded track that sends only
   * "song_name": the parser fills the other three arguments with None, so
   * artist, album and release year are cleared.
   */
  method PatchSongNameParsed(db: Database) returns (r: Response)
    requires db.Valid() && 1 in db.tracks && db.tracks[1] == SeedData[0].1
    modifies db
    ensures r == Ok(TrackDict(1, Text("Scar Tissue"), Null, Null, Null), OK)
    ensures 1 in db.tracks && db.tracks[1] == Row(Text("Scar Tissue"), Null, Null, Null)
  {
    var track := new Track(db);
    r := track.Patch(1, Parse(map["song_name" := Text("Scar Tissue")]));
  }

  /** PATCH with arguments straight from the parser stores what PUT with them would. */
  method PatchParsed(db: Database, id: int, sent: Sent) returns (r: Response)
    requires db.Valid() && id in db.tracks
    modifies db
    ensures db.tracks == old(db.tracks)[id := Overwritten(Parse(sent))]
    ensures r == Ok(Serialize(id, Overwritten(Parse(sent))), OK)
  {
    var track := new Track(db);
    PatchParsedIsPut(db.tracks[id], sent);
    r := track.Patch(id, Parse(sent));
  }
}

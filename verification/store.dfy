/**
 * The track table and the two resources that act on it. The table maps an
 * integer primary key to a row; the single-track resource gets, deletes,
 * replaces and patches by id, the collection resource lists and creates.
 */
module TrackStore {
  import opened TrackRecords

  /**
   * The track table. The store hands out primary keys; the model keeps a
   * counter above every key in use, and the operations promise only that a
   * new key was not in the table before.
   */
  class Database {
    var tracks: map<int, Row>
    var nextId: int

    ghost predicate Valid()
      reads this
    {
      forall id :: id in tracks ==> id < nextId
    }

    /** A freshly created, empty table. */
    constructor ()
      ensures Valid()
      ensures tracks == map[]
    {
      tracks := map[];
      nextId := 1;
    }

    /** Adding a new row and committing: the store picks a key not in use. */
    method Add(row: Row) returns (id: int)
      requires Valid()
      modifies this
      ensures Valid()
      ensures id !in old(tracks)
      ensures tracks == old(tracks)[id := row]
      ensures |tracks| == |old(tracks)| + 1
    {
      id := nextId;
      tracks := tracks[id := row];
      nextId := nextId + 1;
    }

    /** Deleting a stored row and committing. */
    method Remove(id: int)
      requires Valid()
      requires id in tracks
      modifies this
      ensures Valid()
      ensures tracks == old(tracks) - {id}
      ensures |tracks| == |old(tracks)| - 1
    {
      tracks := tracks - {id};
    }

    /** Writing a row over the stored row with that key and committing. */
    method Update(id: int, row: Row)
      requires Valid()
      requires id in tracks
      modifies this
      ensures Valid()
      ensures tracks == old(tracks)[id := row]
      ensures |tracks| == |old(tracks)|
    {
      tracks := tracks[id := row];
    }

    /**
     * The start-up seeding: one new row per entry of the seed dictionary, in
     * its order, all committed together. The dictionary's own keys are not
     * used; every row gets a key from the store.
     */
    method InitializeWithData() returns (ghost ids: seq<int>)
      requires Valid()
      modifies this
      ensures Valid()
      ensures |ids| == |SeedData|
      ensures forall i :: 0 <= i < |ids| ==> ids[i] !in old(tracks)
      ensures forall i, j :: 0 <= i < j < |ids| ==> ids[i] != ids[j]
      ensures forall i :: 0 <= i < |ids| ==> ids[i] in tracks && tracks[ids[i]] == SeedData[i].1
      ensures forall id :: id in tracks <==> id in old(tracks) || id in ids
      ensures forall id :: id in old(tracks) ==> tracks[id] == old(tracks)[id]
      ensures |tracks| == |old(tracks)| + |SeedData|
    {
      ids := [];
      for n := 0 to |SeedData|
        invariant Valid()
        invariant |ids| == n
        invariant forall i :: 0 <= i < n ==> ids[i] !in old(tracks)
        invariant forall i, j :: 0 <= i < j < n ==> ids[i] != ids[j]
        invariant forall i :: 0 <= i < n ==> ids[i] in tracks && tracks[ids[i]] == SeedData[i].1
        invariant forall id :: id in tracks <==> id in old(tracks) || id in ids
        invariant forall id :: id in old(tracks) ==> tracks[id] == old(tracks)[id]
        invariant |tracks| == |old(tracks)| + n
      {
        var info := SeedData[n].1;
        var id := Add(Row(info.songName, info.artist, info.album, info.releaseYear));
        ids := ids + [id];
      }
    }
  }

  /** The gate in front of get, delete and patch: a 404 for an id the table does not hold. */
  function AbortIfTrackDoesntExist(db: Database, id: int): (abort: Option<Response>)
    reads db
    ensures abort == None <==> id in db.tracks
    ensures abort != None ==> abort == Some(NotFound(id))
  {
    if id in db.tracks then None else Some(NotFound(id))
  }

  /**
   * A non-empty key set has a member. Only a helper for the key choice in
   * `TrackList.Get`: with `--warn-contradictory-assumptions` the verifier does
   * not find a witness for `k :| k in remaining` from `remaining != {}` alone.
   */
  lemma NonEmptyHasKey(keys: set<int>)
    requires keys != {}
    ensures exists k :: k in keys
  {
    if forall k :: k !in keys {
      assert false;
    }
  }

  /** The single-track resource, addressed by id. */
  class Track {
    const db: Database

    constructor (db: Database)
      ensures this.db == db
    {
      this.db := db;
    }

    /** Reading one track: its id and four columns with the default 200, or 404. */
    method Get(id: int) returns (r: Response)
      ensures id in db.tracks ==> r == Ok(Serialize(id, db.tracks[id]), OK)
      ensures id !in db.tracks ==> r == NotFound(id)
      ensures r.Status() == if id in db.tracks then OK else NOT_FOUND
    {
      var abort := AbortIfTrackDoesntExist(db, id);
      if abort.Some? {
        return abort.value;
      }
      var row := db.tracks[id];
      r := Ok(Serialize(id, row), OK);
    }

    /** Deleting one track: an empty body with 204, or 404 and nothing removed. */
    method Delete(id: int) returns (r: Response)
      requires db.Valid()
      modifies db
      ensures db.Valid()
      ensures id in old(db.tracks) ==> r == NoContent && db.tracks == old(db.tracks) - {id}
      ensures id !in old(db.tracks) ==> r == NotFound(id) && db.tracks == old(db.tracks)
      ensures r.Status() == if id in old(db.tracks) then NO_CONTENT else NOT_FOUND
      // A summary for callers, implied by the two clauses above: no other row changes.
      ensures forall other :: other in db.tracks ==> other in old(db.tracks) && db.tracks[other] == old(db.tracks)[other]
    {
      var abort := AbortIfTrackDoesntExist(db, id);
      if abort.Some? {
        return abort.value;
      }
      db.Remove(id);
      r := NoContent;
    }

    /**
     * Replacing one track. On a stored id every column is overwritten from the
     * arguments and the answer is 201; on a missing id a new row is added under
     * a key the store picks, which need not be `id`, and the answer is the
     * default 200.
     */
    method Put(id: int, args: Args) returns (r: Response)
      requires db.Valid()
      modifies db
      ensures db.Valid()
      ensures id in old(db.tracks) ==>
        && db.tracks == old(db.tracks)[id := Overwritten(args)]
        && r == Ok(Serialize(id, Overwritten(args)), CREATED)
      ensures id !in old(db.tracks) ==>
        && r.Ok? && r.status == OK
        && r.body.id !in old(db.tracks)
        && db.tracks == old(db.tracks)[r.body.id := Overwritten(args)]
        && r.body == Serialize(r.body.id, Overwritten(args))
        && |db.tracks| == |old(db.tracks)| + 1
      ensures r.Status() == if id in old(db.tracks) then CREATED else OK
    {
      if id !in db.tracks {
        var newTrack := Row(Supplied(args, SongName), Supplied(args, Artist), Supplied(args, Album), Supplied(args, ReleaseYear));
        var newId := db.Add(newTrack);
        r := Ok(Serialize(newId, newTrack), OK);
      } else {
        var track := db.tracks[id];
        track := track.(songName := Supplied(args, SongName));
        track := track.(artist := Supplied(args, Artist));
        track := track.(album := Supplied(args, Album));
        track := track.(releaseYear := Supplied(args, ReleaseYear));
        db.Update(id, track);
        r := Ok(Serialize(id, track), CREATED);
      }
    }

    /**
     * Patching one track: each column whose key is among the arguments takes
     * its value, the others keep theirs; 200, or 404 and nothing changed.
     */
    method Patch(id: int, args: Args) returns (r: Response)
      requires db.Valid()
      modifies db
      ensures db.Valid()
      ensures id in old(db.tracks) ==>
        && db.tracks == old(db.tracks)[id := Patched(old(db.tracks)[id], args)]
        && r == Ok(Serialize(id, Patched(old(db.tracks)[id], args)), OK)
      ensures id !in old(db.tracks) ==> r == NotFound(id) && db.tracks == old(db.tracks)
      ensures r.Status() == if id in old(db.tracks) then OK else NOT_FOUND
    {
      var abort := AbortIfTrackDoesntExist(db, id);
      if abort.Some? {
        return abort.value;
      }
      var track := db.tracks[id];
      track := track.(songName := ArgOr(args, SongName, track.songName));
      track := track.(artist := ArgOr(args, Artist, track.artist));
      track := track.(album := ArgOr(args, Album, track.album));
      track := track.(releaseYear := ArgOr(args, ReleaseYear, track.releaseYear));
      db.Update(id, track);
      r := Ok(Serialize(id, track), OK);
    }
  }

  /** The collection resource. */
  class TrackList {
    const db: Database

    constructor (db: Database)
      ensures this.db == db
    {
      this.db := db;
    }

    /**
     * Listing every track: one dictionary per stored row, with its id and its
     * columns, and no two for the same id. The order is the store's.
     */
    method Get() returns (body: seq<TrackDict>)
      ensures |body| == |db.tracks|
      ensures forall d :: d in body ==> d.id in db.tracks && d == Serialize(d.id, db.tracks[d.id])
      ensures forall id :: id in db.tracks ==> Serialize(id, db.tracks[id]) in body
      ensures forall i, j :: 0 <= i < j < |body| ==> body[i].id != body[j].id
    {
      var tracks := db.tracks;
      var remaining := tracks.Keys;
      body := [];
      while remaining != {}
        invariant remaining <= tracks.Keys
        invariant |body| + |remaining| == |tracks|
        invariant forall d :: d in body ==> d.id in tracks && d.id !in remaining && d == Serialize(d.id, tracks[d.id])
        invariant forall id :: id in tracks && id !in remaining ==> Serialize(id, tracks[id]) in body
        invariant forall i, j :: 0 <= i < j < |body| ==> body[i].id != body[j].id
        decreases remaining
      {
        NonEmptyHasKey(remaining);
        var k :| k in remaining;
        body := body + [Serialize(k, tracks[k])];
        remaining := remaining - {k};
      }
    }

    /** Creating a track: a new row under a key the store picks, returned with 201. */
    method Post(args: Args) returns (r: Response)
      requires db.Valid()
      modifies db
      ensures db.Valid()
      ensures r.Ok? && r.Status() == CREATED
      ensures r.body.id !in old(db.tracks)
      ensures db.tracks == old(db.tracks)[r.body.id := Overwritten(args)]
      ensures r.body == Serialize(r.body.id, Overwritten(args))
      ensures |db.tracks| == |old(db.tracks)| + 1
    {
      var newTrack := Row(Supplied(args, SongName), Supplied(args, Artist), Supplied(args, Album), Supplied(args, ReleaseYear));
      var newId := db.Add(newTrack);
      r := Ok(Serialize(newId, newTrack), CREATED);
    }
  }
}

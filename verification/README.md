# Tracks REST API: the track store and its handlers

The service keeps one table of tracks. A track has an integer primary key
and four nullable columns: `song_name`, `artist`, `album` and
`release_year`. Two resources act on the table:

- the single-track resource `/api/tracks/<id>` gets, deletes, replaces (PUT)
  and patches one track;
- the collection resource `/api/tracks` lists every track and creates one
  (POST).

GET, DELETE and PATCH first pass a gate that answers 404 for an id the
table does not hold. PUT has no gate. On a stored id it overwrites all
four columns and answers 201. On a missing id it adds a new track under a
key the store picks, not under the requested id, and answers with the
default 200. At start-up the table is emptied and seeded with five sample
tracks.

The model has three modules:

- `TrackRecords` (records.dfy) holds the values. A column value is
  `Value` (None, a str or an int). A stored track is `Row`. The handlers'
  arguments are `Args`, a map from field to value. `Parse` models the
  request parser. `Overwritten` is the row PUT and POST build. `Patched`
  is the row PATCH builds. `Serialize` builds the response dictionary.
  `Response` covers the three answers: `Ok(body, status)`, `NoContent`
  and `NotFound(id)`.
- `TrackStore` (store.dfy) holds the state. `Database` is a class whose
  `tracks: map<int, Row>` field is the table. Its methods add, remove and
  update rows and run the seeding loop. `Track` and `TrackList` are the
  two resources. Each holds the shared `Database`, and each handler is a
  method whose contract states the answer and the new table in terms of
  the old one.
- `TrackScenarios` (scenarios.dfy) holds request sequences, and what a
  caller can conclude about them from the handlers' contracts alone.

New keys come from a counter that stays above every key in use. The
invariant `Valid()` reads the counter, but no contract states its value.
Each one promises only that a new key was not in the table before, because that is all the code relies on: the
`id` column is an auto-assigned primary key.

PATCH is modelled literally as `args.get(field, current)`. A key that is
present gives its value, and an absent key keeps the current value. The
request parser, however, fills every declared argument, using None for one
that was not sent. `PatchParsedIsPut` proves the consequence: with the
parser's arguments, PATCH overwrites every column exactly as PUT does. So
a PATCH that sends only `artist` sets the other three columns to None.
This is why the bundled client fetches the whole track and sends it back
before patching.

Three consequences of the code are easy to miss:

- Ids. The code only declares an auto-assigned primary key. SQLite's
  default is one more than the largest key present, which can reuse the
  key of a just-deleted last row. The model promises freshness against the
  current table and nothing more: no contract says ids increase or are
  never reused.
- PATCH. Through the parser, fields the caller left out are overwritten
  with None (see above); they are not kept.
- `release_year`. The parser declares it `int`. Each handler calls
  `parse_args` itself (main.py:54, 89, 120), and that call answers 400 for
  a non-numeric `release_year`. PATCH checks existence first (main.py:88),
  so a PATCH with a bad `release_year` on a missing id answers 404, not
  400. In the model the arguments reach the handlers already parsed.

## Model

| member | source | states |
|---|---|---|
| TrackRecords.Parse | main.py:11-15 | the parsed arguments carry exactly the four declared fields; a field the request sent takes the sent value, an unsent one is None, undeclared keys are dropped |
| TrackRecords.Overwritten | main.py:57-77 | the row PUT and POST write takes every column from the arguments (None where absent) and does not depend on the row it replaces |
| TrackRecords.Patched | main.py:91-94 | each column whose key is in the arguments takes that value; each column whose key is absent keeps its current value |
| TrackRecords.Serialize | main.py:38-44 | the response dictionary carries the track's id and its four columns unchanged |
| TrackRecords.PatchCompleteIsPut | main.py:74-94 | when all four keys are present, the row PATCH builds equals the row PUT builds |
| TrackRecords.PatchParsedIsPut | main.py:87-94 | with the arguments the parser delivers, PATCH overwrites every column exactly as PUT does |
| TrackRecords.PatchEmptyKeepsRow | main.py:91-94 | an argument map with no keys (one the parser never delivers) leaves the row unchanged under the literal `args.get` reading |
| TrackRecords.PatchParsedEmptyClears | main.py:87-94 | a PATCH request that sends nothing sets all four columns to None, since the parser fills every unsent argument with None |
| TrackStore.AbortIfTrackDoesntExist | main.py:30-32 | the gate lets a request through exactly when the id is in the table, and otherwise answers NotFound carrying that id |
| TrackStore.Database.constructor | main.py:162-163 | a freshly created table is empty and keeps the key invariant |
| TrackStore.Database.Add | main.py:127-128 | adding a row stores it under a key that was not in the table, changes nothing else and grows the table by one |
| TrackStore.Database.Remove | main.py:49-50 | deleting removes exactly that key |
| TrackStore.Database.Update | main.py:74-78 | committing assignments to a stored row replaces exactly that row |
| TrackStore.Database.InitializeWithData | main.py:140-158 | seeding adds one row per seed entry, in order, each under a distinct fresh key from the store (not the dictionary's key), keeps every existing row, and grows the table by five |
| TrackStore.Track.Get | main.py:35-44 | a stored id answers its id and four columns with 200; a missing id answers NotFound with that id; the table is not changed |
| TrackStore.Track.Delete | main.py:46-51 | a stored id is removed (no other row changes) and the answer is an empty 204; a missing id answers NotFound and the table is unchanged |
| TrackStore.Track.Put | main.py:53-85 | a stored id keeps its key, gets all four columns from the arguments and answers 201; a missing id gets a new row under a fresh key, the table grows by one and the answer is the default 200 |
| TrackStore.Track.Patch | main.py:87-102 | a stored id gets the patched row (other rows unchanged) and answers 200 with it; a missing id answers NotFound and changes nothing |
| TrackStore.TrackList.Get | main.py:105-117 | the listing has one dictionary per stored row, each with the row's id and columns, no id twice, and nothing else; the table is not changed |
| TrackStore.TrackList.Post | main.py:119-135 | a new row with the argument values is stored under a key that was not in the table, existing rows are untouched, and the answer is 201 with the new id |
| TrackScenarios.Startup | main.py:160-164 | after start-up the table holds exactly the five seed rows under five store-assigned keys |
| TrackScenarios.DeleteThenGet | main.py:30-51 | after a delete, getting that id answers NotFound |
| TrackScenarios.PostThenGet | main.py:119-135 | a created track reads back with the id and columns the creation answered |
| TrackScenarios.PostOnEmptyThenList | main.py:105-135 | creating on an empty table and then listing yields exactly the created track |
| TrackScenarios.PutTwice | main.py:73-85 | PUT twice on a stored id with the same arguments answers the same and stores the same row |
| TrackScenarios.PatchSongName | main.py:87-102 | with an argument map holding only SongName (one the parser never delivers), PATCH on the first seed track keeps its artist, album and year |
| TrackScenarios.PatchSongNameParsed | main.py:87-102 | a real PATCH request sending only `song_name` to the first seed track sets its song name and clears artist, album and year to None |
| TrackScenarios.PatchParsed | main.py:87-102 | PATCH with parser-filled arguments stores and answers what PUT on that id would store |

## Left out

- Flask application, routing and resource registration (main.py:1-6, 137-138, 160-165). The `<int:track_id>` converter does not match negative ids, so GET `/api/tracks/-5` is a routing 404 and never reaches a handler.
- SQLAlchemy sessions and the SQLite file (main.py:9-10). Each handler's changes plus its commit are modelled as one atomic step, and `drop_all`/`create_all` as the empty table of the constructor.
- Type coercion by the request parser, its 400 answer for a bad `release_year`, and the choice between JSON body and query string. Arguments reach the handlers already parsed. `Parse` models only how the parser fills and filters them.
- TrackStore.Track.Put, TrackStore.TrackList.Post and TrackRecords.Overwritten: they read an argument the map lacks as None. The code indexes `args[...]`, which would fail on a missing key, but the parser never delivers an incomplete map.
- SQLite's concrete key-allocation policy. The counter is one admissible policy. No contract claims keys are never reused or that they increase.
- TrackStore.TrackList.Get: does not fix the order of the listing, because `query.all()` has no ORDER BY.
- The text of the 404 message ("Track <id> doesn't exist"). `NotFound` carries the id it is rendered from.
- The `String(255)` column width, which SQLite does not enforce.
- SQLite's 64-bit INTEGER range (main.py:18, 22). An id or `release_year` outside the signed 64-bit range makes the driver raise, answering 500: at the lookup (main.py:31, 55) for an id, at the commit (main.py:65, 78, 95, 128) for a year. The model's `int` is unbounded, so it answers NotFound or stores `Number(n)` instead.
- The bundled HTTP client (test.py), which is a caller and not part of the service.
- Concurrent request serving.

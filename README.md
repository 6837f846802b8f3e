# Realtime voting system: the data generator, modelled in Dafny

`main.py` prepares the data of a voting demo:

- It creates the PostgreSQL database `voting` if it is missing.
- It creates three tables (`candidates`, `voters`, `votes`) if they are missing.
- It seeds three candidates when the candidates table is empty.
- It then runs 1000 passes. Each pass fetches a random Indian identity from randomuser.me, turns it into a voter record, inserts the record as a row, and publishes it to the Kafka topic `voters_topic`, keyed by `voter_id`.

The model keeps the script's deterministic logic and abstracts the three external systems.

The model is split into six files:

- `pyops.dfy` (module `PyOps`): the Python semantics the script relies on.
  - Floor `%`, which picks the party of a candidate.
  - List indexing with negative indices and `IndexError`.
  - `str` of an int, which builds the street of a voter.
  - Helpers that exist only to state properties, because the script never uses them: floor `//` (with `%` it rebuilds the dividend), `int` of a decimal string (the inverse of `str`), and splitting at the first separator (used by `VoterFieldsRecoverable`).
- `identity.dfy` (module `Identity`): the parsed API response as a datatype, and the two record generators `generate_voter_data` and `generate_candidate_data` as total functions into a `Result`.
  - The string sentinel `"Error fetching data"` of a non-200 status becomes the typed error `FetchFailed(status)`.
  - An empty `results` list becomes `NoResults`, which is Python's `IndexError`.
  - A zero `total_parties` becomes `ZeroDivision`.
  - A party index outside the list becomes `IndexOutOfRange`.
- `rows.dfy` (module `Rows`): the parameter tuples of the two INSERT statements, in the order of their column lists, with their inverses.
- `store.dfy` (module `Store`): the outside world as a value (`State`) and the shape of the script's loops (`Iterate`).
  - `State` holds the set of databases, the set of tables, the candidates and voters tables (maps from primary key to row), the messages handed to the producer, and the URLs requested so far.
  - `Iterate` is a `for` loop whose passes may raise, where the first exception ends the script. Its lemmas hold for any loop body.
- `pipeline.dfy` (module `Pipeline`): the script as functions on `State`.
  - `DatabaseCreated`, `TablesCreated` and `Bootstrap` model the bootstrap.
  - `VoterStep` and `CandidateStep` are one pass of each loop; `Voters` and `Candidates` are the loops.
  - `Seed` seeds only an empty table, and `Script` is the `__main__` block.
  - The lemmas about them are in the same file. `Voters`, `Candidates`, `Seed`, `Script` and `Store.Iterate` have no contract of their own. Their behaviour is stated by the lemmas named after them in the table: `Voters*`, `Candidates*`, `Seed*`, `Script*` and `Iterate*`.
  - The API is an oracle `Api = nat -> Response`: the response to the n-th request of the run's history. Each pass reads the response to the request it just issued.
  - Loop lemmas are stated over a `VoterSource` / `CandidateSource`, the record generated from each response. `VoterSourceOf(api)` and `CandidateSourceOf(api)` plug in the generators.
- `orchestrator.dfy` (module `Orchestrator`): class `Cluster`, the same steps run imperatively.
  - Its fields are the database catalog, the tables, the producer's messages and the request history, and its methods change them in place.
  - The two `for` loops carry their invariants. They take the pass count as a parameter, and `RunScript` passes the script's 3 and 1000.
  - `Fetch`, `CreateDatabase`, `CreateTables`, `ProduceVoter`, `SeedCandidate`, `SeedCandidates`, `SeedVoters` and `RunScript` are each proved to leave exactly the state that the matching `Pipeline` function (`Fetched`, `DatabaseCreated`, `TablesCreated`, `VoterStep`, `CandidateStep`, `Candidates`, `Voters`, `Script`) computes.
  - `CountCandidates`, `InsertVoter`, `InsertCandidate` and `Produce` have no `Pipeline` counterpart. Each is proved against an explicit update of the state: the count returned with nothing changed, the row inserted exactly when its key is new, the one message appended.

Failures follow the source: any exception ends the whole run. A failed generation ends the run before its insert. In the source, a sentinel string makes the next `voter["voter_id"]` raise `TypeError`, so nothing is inserted or published for that pass. A duplicate primary key makes the INSERT raise. Rows and messages of earlier passes stay, because the source commits after every insert.

## Model

| member | source | states |
|---|---|---|
| PyOps.FloorMod | main.py:81-83 | Python's `%`: the result lies in [0, b) for b > 0 and in (b, 0] for b < 0, and with the floor quotient rebuilds the dividend |
| PyOps.PyIndex | main.py:81-83 | Python list indexing: defined exactly for -len ≤ i < len, and negative indices count from the end |
| PyOps.IntToString | main.py:51 | `str(n)` is non-empty, starts with '-' exactly when n is negative, is "0" for 0, and has no leading zero otherwise |
| PyOps.IntToStringRoundTrip | main.py:51 | `str(n)` reads back to n and contains no space |
| Identity.GenerateVoterData | main.py:39-64 | a record exactly for status 200 with a result; `FetchFailed(status)` otherwise, or `NoResults` for an empty list; nationality "Indian" and country "India" whatever the upstream values; id from login.uuid, registration number from login.username, name = first + " " + last, street = str(number) + " " + name, every other field copied |
| Identity.VoterFieldsRecoverable | main.py:45-51 | street number and street name can be read back from the street, and first and last name from the voter name when the first name has no space |
| Identity.CandidateRequestUrl | main.py:67 | the request asks for gender "female" exactly when the index is odd and "male" exactly when it is even |
| Identity.GenerateCandidateData | main.py:66-87 | the error cases in the order the source reaches them; success exactly when status is 200, a result exists and `n % total_parties` indexes the lists; party and platform picked by the same index; id, name, biography = prefix + state + suffix, photo; with 3 parties, always party n % 3 and platform n % 3 |
| Identity.PartyLookupTotal | main.py:81-83 | the lookups succeed for every candidate number exactly when total_parties is in 1..3 or -4..-1 |
| Rows.VoterRow | main.py:143-154 | 16 values, one per declared column, from which the voter can be rebuilt |
| Rows.VoterRowColumnOrder | main.py:144-154 | value i is the value of column i of the INSERT's column list |
| Rows.VoterRowInjective | main.py:150-154 | distinct voters give distinct rows |
| Rows.CandidateRow | main.py:178-185 | 6 values, one per column, from which the candidate can be rebuilt |
| Rows.CandidateRowColumnOrder | main.py:179-185 | value i is the value of column i of the candidates INSERT |
| Rows.PersistedOverride | main.py:48-54 | the stored row of a generated voter carries "Indian" in column 4 and "India" in column 9 |
| Store.IterateAbortSticky | main.py:189-201 | once a pass raises, no later pass runs |
| Store.IterateFetches | main.py:189-190 | one request per pass run, to url(pass), in order; k when no pass fails, and otherwise the completed passes plus the failing one |
| Store.IteratePreserves | main.py:189-201 | a property every pass keeps holds after the loop |
| Store.IterateCounts | main.py:189-191 | a counter raised by each completed pass rises by the number of completed passes |
| Store.IteratePublishes | main.py:193-198 | the loop's messages are those of its completed passes, in order |
| Store.IterateMarks | main.py:175-191 | what each completed pass stores is still stored at the end |
| Pipeline.DatabaseCreated | main.py:23-30 | `voting` exists afterwards, and nothing else changes |
| Pipeline.TablesCreated | main.py:99-141 | the three tables exist afterwards, and nothing else changes |
| Pipeline.Bootstrap | main.py:160-167 | the database and the three tables exist afterwards; no row, message or request changes |
| Pipeline.BootstrapFixed | main.py:160-167 | once the database and the tables exist, the bootstrap changes nothing |
| Pipeline.BootstrapIdempotent | main.py:99-141 | bootstrap adds `voting` and the three tables, keeps all rows, and a second bootstrap changes nothing |
| Pipeline.Fetched | main.py:40 | a request appends exactly its URL to the history, and nothing else changes |
| Pipeline.VoterStep | main.py:189-198 | one pass requests BASE_URL, and it completes exactly when a record is generated and its voter_id is not yet stored |
| Pipeline.VoterStepEffect | main.py:189-198 | one pass fetches BASE_URL; it completes exactly when a record is generated and its voter_id is new; then it inserts the row and publishes that voter keyed by its id; otherwise it inserts and publishes nothing |
| Pipeline.VoterStepExtends | main.py:143-156 | a pass only adds rows, messages and requests |
| Pipeline.VoterStepConsistent | main.py:189-198 | a pass keeps `Consistent` (every message backed by the stored row of its voter, every row under its own key) |
| Pipeline.VoterStepStores | main.py:190-191 | a completed pass stores its voter, and every pass keeps the voters stored before |
| Pipeline.VoterBodyFacts | main.py:189-198 | a pass fetches once, adds one row and one message when it completes, and keeps the store consistent |
| Pipeline.VotersRequests | main.py:189-190 | the voter loop requests BASE_URL once per pass run |
| Pipeline.VotersCount | main.py:189-198 | voters and messages each grow by the number of completed passes |
| Pipeline.VotersLog | main.py:193-198 | the messages, in order, are the voters of the completed passes |
| Pipeline.VotersFrame | main.py:189-201 | the voter loop keeps the catalog, the candidates and everything stored before |
| Pipeline.VotersStored | main.py:189-191 | every completed pass j leaves its voter stored |
| Pipeline.VotersNext | main.py:189-201 | pass i+1 runs on the state left by passes 0..i unless one of them raised |
| Pipeline.VotersConsistent | main.py:189-198 | the voter loop keeps the store consistent |
| Pipeline.DuplicateVoterAborts | main.py:143-156 | a stored voter_id makes the pass raise with nothing inserted or published, and ends the loop |
| Pipeline.VoterStepScenario | main.py:189-198 | a one-user response gives one new row whose 16 columns hold that user's fields, with the overrides and the street built as `str(number) + " " + name`, then one message keyed by its uuid whose value is the generated record |
| Pipeline.CandidateStep | main.py:176-187 | seeding pass i requests CandidateRequestUrl(i), and it completes exactly when candidate i is generated and its candidate_id is not yet stored |
| Pipeline.CandidateStepEffect | main.py:175-187 | seeding pass i fetches CandidateRequestUrl(i) and inserts candidate i unless generation fails or its id is stored |
| Pipeline.CandidateStepConsistent | main.py:178-187 | a seeding pass only adds and keeps the store consistent |
| Pipeline.CandidateBodyFacts | main.py:175-187 | a seeding pass fetches once and adds one row when it completes |
| Pipeline.CandidatesRequests | main.py:175-176 | request j of the seeding asks for the gender of candidate j |
| Pipeline.CandidatesCount | main.py:175-187 | candidates grow by the number of completed seeding passes |
| Pipeline.CandidatesFrame | main.py:175-187 | seeding touches neither voters nor messages nor the catalog |
| Pipeline.CandidatesStored | main.py:175-187 | every completed seeding pass j leaves candidate j stored |
| Pipeline.CandidatesNext | main.py:175-187 | seeding pass i+1 runs on the state left by passes 0..i unless one raised |
| Pipeline.CandidatesConsistent | main.py:175-187 | seeding keeps the store consistent |
| Pipeline.SeedSkipsFilledTable | main.py:170-174 | a non-empty candidates table gets no insert and no request |
| Pipeline.SeedRequests | main.py:174-176 | seeding an empty table that completes requests male, female, male, in that order |
| Pipeline.SeedFillsEmptyTable | main.py:174-187 | seeding an empty table that completes leaves exactly 3 candidates: candidates 0, 1 and 2 are generated and stored as their rows, and the table's keys are exactly their three ids; voters and messages are untouched |
| Pipeline.CandidatesKeys | main.py:175-187 | three completed seeding passes on an empty table leave exactly the ids of candidates 0, 1 and 2 as keys |
| Pipeline.SeededParty | main.py:176 | seeded candidate j has party j and platform j |
| Pipeline.ScriptEffect | main.py:158-201 | after any run the database and the three tables exist, consistency is kept, and candidates found at the start are kept |
| Pipeline.ScriptCompletes | main.py:158-201 | a completed run adds 1000 voters and 1000 messages, and leaves 3 candidates when it found none |
| Pipeline.ScriptRerun | main.py:160-174 | a second run after a completed one creates and seeds nothing |
| Orchestrator.Cluster.Fetch | main.py:40 | the response is the API's answer to this request, and the URL joins the history |
| Orchestrator.Cluster.CreateDatabase | main.py:12-37 | check-then-create leaves the state of `DatabaseCreated` |
| Orchestrator.Cluster.CreateTables | main.py:99-141 | leaves the state of `TablesCreated` |
| Orchestrator.Cluster.CountCandidates | main.py:170-171 | the number of stored candidates, with nothing changed |
| Orchestrator.Cluster.InsertVoter | main.py:143-156 | inserts exactly when the voter_id is new, and then exactly the voter's row |
| Orchestrator.Cluster.InsertCandidate | main.py:178-187 | inserts exactly when the candidate_id is new, and then exactly the candidate's row |
| Orchestrator.Cluster.Produce | main.py:193-198 | appends exactly one message |
| Orchestrator.Cluster.ProduceVoter | main.py:190-198 | leaves the state and outcome of `VoterStep` |
| Orchestrator.Cluster.SeedCandidate | main.py:176-187 | leaves the state and outcome of `CandidateStep` |
| Orchestrator.Cluster.SeedCandidates | main.py:175-187 | the loop leaves the state and outcome of `Candidates` |
| Orchestrator.Cluster.SeedVoters | main.py:189-201 | the loop leaves the state and outcome of `Voters` |
| Orchestrator.Cluster.RunScript | main.py:158-201 | leaves the state and outcome of `Script` |

## Left out

- HTTP (`requests.get`, main.py:40 and main.py:67) is an oracle from request number to response; the randomness of the upstream data is whatever that oracle returns. Every request gets a parsed `Response`, so an exception raised by `requests.get` (connection error, timeout) or by `response.json()` on a body that is not JSON (main.py:42 and main.py:69) is not represented. Either would be one more way for a pass to raise right after its request.
- The parsed JSON is a typed datatype, so a missing key (`KeyError`) or a field of an unexpected JSON type cannot occur in the model. The postcode keeps the two shapes it takes (number or string).
- Connections, cursors, autocommit and `commit()` of psycopg2 are left out. A connection or statement failure in `create_database` (re-raised at main.py:35-37) is not modelled; only the effect of the statements on the catalog and the tables is.
- Table schemas are left out: the column types, including the limits of `VARCHAR(255)` and `INTEGER`, and the composite key of `votes`. The `votes` table is modelled only as a name in the catalog, because the script never writes it.
- `State` does not tie rows to an existing database or table: an insert does not check that its table is in `tables`, and `DatabaseCreated` keeps whatever rows the state holds. The script never reaches such a state, because `voting` and the tables are created before any row is inserted (main.py:160, main.py:167, main.py:176, main.py:191). Starting from a state with rows but no `voting` database, the model skips seeding where the program would create an empty database and seed it.
- Kafka: `SerializingProducer`, `flush` and the `delivery_report` callback (main.py:89-93) only print or wait, so the model records the message handed to `produce` and nothing about delivery. The message value is the voter record itself; `json.dumps` is a library call and is not modelled.
- `random.seed(42)`, every `print`, the credentials and the connection strings have no behaviour the model can state.
- `candidates_topic` is declared but never used by the script; it is kept as a constant only.

/** The script as it runs: one object standing for the database server, the Kafka producer
    and the HTTP client it talks to, changed in place statement by statement. The steps of the
    script are proved to have the effect the Pipeline functions describe; the single inserts,
    the count and the produce call are proved against explicit updates of the state. */
module Orchestrator {
  import opened Identity
  import opened Rows
  import opened Store
  import opened Pipeline

  class Cluster {
    var databases: set<string>
    var tables: set<string>
    var candidates: map<string, Row>
    var voters: map<string, Row>
    var log: seq<Message>
    var requests: seq<string>

    /** Everything the script can observe or change, as a value. */
    function Snapshot(): State
      reads this
    {
      State(databases, tables, candidates, voters, log, requests)
    }

    constructor (s: State)
      ensures Snapshot() == s
    {
      databases, tables, candidates, voters, log, requests :=
        s.databases, s.tables, s.candidates, s.voters, s.log, s.requests;
    }

    /** `requests.get(url)`: the API answers with the response to this request. */
    method Fetch(api: Api, url: string) returns (resp: Response)
      modifies this
      ensures resp == api(|old(requests)|)
      ensures Snapshot() == Fetched(old(Snapshot()), url)
    {
      resp := api(|requests|);
      requests := requests + [url];
    }

    /** `create_database`: query the catalog, and issue CREATE DATABASE only when `voting`
        is not there. */
    method CreateDatabase()
      modifies this
      ensures Snapshot() == DatabaseCreated(old(Snapshot()))
    {
      var present := VOTING_DB in databases;
      if !present {
        databases := databases + {VOTING_DB};
      }
    }

    /** `create_tables`: three CREATE TABLE IF NOT EXISTS statements, in order. */
    method CreateTables()
      modifies this
      ensures Snapshot() == TablesCreated(old(Snapshot()))
    {
      tables := tables + {CANDIDATES_TABLE};
      tables := tables + {VOTERS_TABLE};
      tables := tables + {VOTES_TABLE};
    }

    /** `len(cur.fetchall())` after `SELECT * FROM candidates`. */
    method CountCandidates() returns (n: nat)
      ensures n == |candidates|
    {
      n := |candidates|;
    }

    /** `insert_voters`: the INSERT fails on a voter_id that is already stored (the primary
        key) and otherwise adds the voter's row, which the commit keeps. */
    method InsertVoter(v: Voter) returns (inserted: bool)
      modifies this
      ensures inserted <==> v.voterId !in old(voters)
      ensures Snapshot() == old(Snapshot()).(voters := if inserted then old(voters)[v.voterId := VoterRow(v)] else old(voters))
    {
      inserted := v.voterId !in voters;
      if inserted {
        voters := voters[v.voterId := VoterRow(v)];
      }
    }

    /** The candidates INSERT of the seeding loop, with the same primary-key check. */
    method InsertCandidate(c: Candidate) returns (inserted: bool)
      modifies this
      ensures inserted <==> c.candidateId !in old(candidates)
      ensures Snapshot() == old(Snapshot()).(candidates := if inserted then old(candidates)[c.candidateId := CandidateRow(c)] else old(candidates))
    {
      inserted := c.candidateId !in candidates;
      if inserted {
        candidates := candidates[c.candidateId := CandidateRow(c)];
      }
    }

    /** `producer.produce(topic, key=..., value=...)`, then `flush`. */
    method Produce(topic: string, key: string, value: Voter)
      modifies this
      ensures Snapshot() == old(Snapshot()).(log := old(log) + [Message(topic, key, value)])
    {
      log := log + [Message(topic, key, value)];
    }

    /** One pass of the voter loop: generate, insert, then publish. */
    method ProduceVoter(api: Api) returns (outcome: Outcome)
      modifies this
      ensures Run(Snapshot(), outcome) == VoterStep(old(Snapshot()), VoterSourceOf(api))
    {
      var resp := Fetch(api, BASE_URL);
      match GenerateVoterData(resp)
      case Err(e) =>
        outcome := Aborted(GenerationFailed(e));
      case Ok(v) =>
        var inserted := InsertVoter(v);
        if !inserted {
          outcome := Aborted(DuplicateKey(VOTERS_TABLE, v.voterId));
        } else {
          Produce(VOTERS_TOPIC, v.voterId, v);
          outcome := Done;
        }
    }

    /** Pass i of the seeding loop: generate candidate i with three parties, insert it. */
    method SeedCandidate(api: Api, i: nat) returns (outcome: Outcome)
      modifies this
      ensures Run(Snapshot(), outcome) == CandidateStep(old(Snapshot()), CandidateSourceOf(api), i)
    {
      var resp := Fetch(api, CandidateRequestUrl(i));
      match GenerateCandidateData(i, TOTAL_PARTIES, resp)
      case Err(e) =>
        outcome := Aborted(GenerationFailed(e));
      case Ok(c) =>
        var inserted := InsertCandidate(c);
        if !inserted {
          outcome := Aborted(DuplicateKey(CANDIDATES_TABLE, c.candidateId));
        } else {
          outcome := Done;
        }
    }

    /** `for i in range(count)` of the seeding (the script passes 3), ended by the first
        exception. */
    method SeedCandidates(api: Api, count: nat) returns (outcome: Outcome)
      modifies this
      ensures Run(Snapshot(), outcome) == Candidates(old(Snapshot()), CandidateSourceOf(api), count)
    {
      ghost var s0 := Snapshot();
      ghost var gen := CandidateSourceOf(api);
      for i := 0 to count
        invariant Candidates(s0, gen, i) == Run(Snapshot(), Done)
      {
        outcome := SeedCandidate(api, i);
        CandidatesNext(s0, gen, i);
        if outcome.Aborted? {
          IterateAbortSticky(s0, CandidateBody(gen), i + 1, count);
          return;
        }
      }
      outcome := Done;
    }

    /** `for i in range(count)` of the voter loop (the script passes 1000), ended by the
        first exception. */
    method SeedVoters(api: Api, count: nat) returns (outcome: Outcome)
      modifies this
      ensures Run(Snapshot(), outcome) == Voters(old(Snapshot()), VoterSourceOf(api), count)
    {
      ghost var s0 := Snapshot();
      ghost var gen := VoterSourceOf(api);
      for i := 0 to count
        invariant Voters(s0, gen, i) == Run(Snapshot(), Done)
      {
        outcome := ProduceVoter(api);
        VotersNext(s0, gen, i);
        if outcome.Aborted? {
          IterateAbortSticky(s0, VoterBody(gen), i + 1, count);
          return;
        }
      }
      outcome := Done;
    }

    /** The `__main__` block. */
    method RunScript(api: Api) returns (outcome: Outcome)
      modifies this
      ensures Run(Snapshot(), outcome) == Script(old(Snapshot()), api)
    {
      CreateDatabase();
      CreateTables();
      var found := CountCandidates();
      if found == 0 {
        outcome := SeedCandidates(api, CANDIDATE_COUNT);
        if outcome.Aborted? {
          return;
        }
      }
      outcome := SeedVoters(api, VOTER_COUNT);
    }
  }
}

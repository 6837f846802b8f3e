/** The script itself, as functions on the Store value: `create_database`, `create_tables`,
    the candidate seeding and the voter loop of the `__main__` block. Orchestrator.Cluster runs
    the same steps in place and is proved against these functions. */
module Pipeline {
  import opened PyOps
  import opened Identity
  import opened Rows
  import opened Store

  const VOTING_DB := "voting"
  const CANDIDATES_TABLE := "candidates"
  const VOTERS_TABLE := "voters"
  const VOTES_TABLE := "votes"
  const TABLES: set<string> := {CANDIDATES_TABLE, VOTERS_TABLE, VOTES_TABLE}
  /** `range(3)` of the seeding loop, and the `total_parties` it passes. */
  const CANDIDATE_COUNT: nat := 3
  const TOTAL_PARTIES: int := 3
  /** `range(1000)` of the voter loop. */
  const VOTER_COUNT: nat := 1000

  /** The random-identity API: the response to the n-th request of the history. */
  type Api = nat -> Response

  /** The voter record generated from the n-th response, or the exception generating it raises. */
  type VoterSource = nat -> Result<Voter>
  /** Candidate i, generated from the n-th response, or the exception generating it raises. */
  type CandidateSource = (nat, nat) -> Result<Candidate>

  /** `generate_voter_data` on every response of the API. */
  function VoterSourceOf(api: Api): VoterSource {
    (n: nat) => GenerateVoterData(api(n))
  }

  /** `generate_candidate_data(i, 3)` on every response of the API. */
  function CandidateSourceOf(api: Api): CandidateSource {
    (i: nat, n: nat) => GenerateCandidateData(i, TOTAL_PARTIES, api(n))
  }

  /** `create_database`: check the catalog, create `voting` only if it is absent. */
  function DatabaseCreated(s: State): (t: State)
    ensures t.databases == s.databases + {VOTING_DB}
    ensures t == s.(databases := t.databases)
  {
    if VOTING_DB in s.databases then s else s.(databases := s.databases + {VOTING_DB})
  }

  /** `create_tables`: three CREATE TABLE IF NOT EXISTS statements; existing rows stay. */
  function TablesCreated(s: State): (t: State)
    ensures t.tables == s.tables + TABLES
    ensures t == s.(tables := t.tables)
  {
    s.(tables := s.tables + {CANDIDATES_TABLE} + {VOTERS_TABLE} + {VOTES_TABLE})
  }

  /** `create_database` then `create_tables`: the database and the three tables exist after it,
      and no row, message or request has changed. */
  function Bootstrap(s: State): (t: State)
    ensures VOTING_DB in t.databases && TABLES <= t.tables
    ensures t.candidates == s.candidates && t.voters == s.voters
    ensures t.log == s.log && t.requests == s.requests
  {
    TablesCreated(DatabaseCreated(s))
  }

  /** One request to the API: the URL joins the request history. */
  function Fetched(s: State, url: string): (t: State)
    ensures |t.requests| == |s.requests| + 1 && t.requests[|s.requests|] == url
    ensures t.requests[..|s.requests|] == s.requests
    ensures t == s.(requests := t.requests)
  {
    s.(requests := s.requests + [url])
  }

  /** One pass of `for i in range(1000)`: fetch, generate, insert (a duplicate voter_id
      raises), then publish to voters_topic keyed by voter_id. */
  function VoterStep(s: State, gen: VoterSource): (r: Run)
    ensures r.state.requests == s.requests + [BASE_URL]
    ensures r.outcome.Done? <==> gen(|s.requests|).Ok? && gen(|s.requests|).value.voterId !in s.voters
  {
    var s1 := Fetched(s, BASE_URL);
    match gen(|s.requests|)
    case Err(e) => Run(s1, Aborted(GenerationFailed(e)))
    case Ok(v) =>
      if v.voterId in s1.voters then Run(s1, Aborted(DuplicateKey(VOTERS_TABLE, v.voterId)))
      else
        var s2 := s1.(voters := s1.voters[v.voterId := VoterRow(v)]);
        Run(s2.(log := s2.log + [Message(VOTERS_TOPIC, v.voterId, v)]), Done)
  }

  /** Pass i of `for i in range(3)`: fetch with the gender of i, generate candidate i with
      three parties, insert it (a duplicate candidate_id raises). */
  function CandidateStep(s: State, gen: CandidateSource, i: nat): (r: Run)
    ensures r.state.requests == s.requests + [CandidateRequestUrl(i)]
    ensures r.outcome.Done? <==> gen(i, |s.requests|).Ok? && gen(i, |s.requests|).value.candidateId !in s.candidates
  {
    var s1 := Fetched(s, CandidateRequestUrl(i));
    match gen(i, |s.requests|)
    case Err(e) => Run(s1, Aborted(GenerationFailed(e)))
    case Ok(c) =>
      if c.candidateId in s1.candidates then Run(s1, Aborted(DuplicateKey(CANDIDATES_TABLE, c.candidateId)))
      else Run(s1.(candidates := s1.candidates[c.candidateId := CandidateRow(c)]), Done)
  }

  function VoterBody(gen: VoterSource): Body {
    (t: State, i: nat) => VoterStep(t, gen)
  }

  function CandidateBody(gen: CandidateSource): Body {
    (t: State, i: nat) => CandidateStep(t, gen, i)
  }

  /** The first k passes of the voter loop. */
  function Voters(s: State, gen: VoterSource, k: nat): Run {
    Iterate(s, VoterBody(gen), k)
  }

  /** Passes 0 .. k-1 of the seeding loop. */
  function Candidates(s: State, gen: CandidateSource, k: nat): Run {
    Iterate(s, CandidateBody(gen), k)
  }

  /** Seed candidates only when `SELECT * FROM candidates` returns no row. */
  function Seed(s: State, api: Api): Run {
    if |s.candidates| == 0 then Candidates(s, CandidateSourceOf(api), CANDIDATE_COUNT) else Run(s, Done)
  }

  /** The `__main__` block. */
  function Script(s: State, api: Api): Run {
    var seeded := Seed(Bootstrap(s), api);
    if seeded.outcome.Aborted? then seeded else Voters(seeded.state, VoterSourceOf(api), VOTER_COUNT)
  }

  /** What a voter pass publishes after reading the n-th response, if it completes. */
  function VoterMessage(gen: VoterSource, n: nat): seq<Message> {
    match gen(n)
    case Ok(v) => [Message(VOTERS_TOPIC, v.voterId, v)]
    case Err(_) => []
  }

  /** Voter j, generated from response start+j, is stored under its voter_id as its row. */
  ghost predicate VoterStored(gen: VoterSource, start: nat, j: nat, t: State) {
    var g := gen(start + j);
    g.Ok? && g.value.voterId in t.voters && t.voters[g.value.voterId] == VoterRow(g.value)
  }

  /** Candidate j, generated from response start+j, is stored under its candidate_id. */
  ghost predicate CandidateStored(gen: CandidateSource, start: nat, j: nat, t: State) {
    var g := gen(j, start + j);
    g.Ok? && g.value.candidateId in t.candidates && t.candidates[g.value.candidateId] == CandidateRow(g.value)
  }

  // The URLs, counters, messages and facts that the loop lemmas of Store are applied to.
  function VoterUrls(): nat -> string { (i: nat) => BASE_URL }
  function CandidateUrls(): nat -> string { (i: nat) => CandidateRequestUrl(i) }
  function VoterCount(): State -> int { (t: State) => |t.voters| }
  function MessageCount(): State -> int { (t: State) => |t.log| }
  function CandidateCount(): State -> int { (t: State) => |t.candidates| }
  function VoterMessages(gen: VoterSource): nat -> seq<Message> { (n: nat) => VoterMessage(gen, n) }
  function IsConsistent(): State -> bool { (t: State) => Consistent(t) }
  ghost function VoterMark(gen: VoterSource, start: nat): (nat, State) -> bool {
    (j: nat, t: State) => VoterStored(gen, start, j, t)
  }
  ghost function CandidateMark(gen: CandidateSource, start: nat): (nat, State) -> bool {
    (j: nat, t: State) => CandidateStored(gen, start, j, t)
  }

  // ---------------------------------------------------------------------------------------
  // Bootstrap

  /** Bootstrapping creates the database and the three tables, keeps every table already
      there and every row, and a second bootstrap changes nothing. */
  lemma BootstrapIdempotent(s: State)
    ensures Bootstrap(s) == s.(databases := s.databases + {VOTING_DB}, tables := s.tables + TABLES)
    ensures Bootstrap(Bootstrap(s)) == Bootstrap(s)
  {
  }

  // ---------------------------------------------------------------------------------------
  // The voter loop

  /** One voter pass: the row is inserted before the message is published, and a failed
      generation or a duplicate voter_id inserts nothing and publishes nothing. */
  lemma VoterStepEffect(s: State, gen: VoterSource)
    ensures var r := VoterStep(s, gen); var g := gen(|s.requests|);
      && r.state == s.(requests := s.requests + [BASE_URL], voters := r.state.voters, log := r.state.log)
      && (r.outcome.Done? <==> g.Ok? && g.value.voterId !in s.voters)
      && (r.outcome.Aborted? ==> r.state.voters == s.voters && r.state.log == s.log)
      && (r.outcome.Done? ==>
            && r.state.voters == s.voters[g.value.voterId := VoterRow(g.value)]
            && r.state.log == s.log + [Message(VOTERS_TOPIC, g.value.voterId, g.value)])
      && |r.state.voters| == |s.voters| + (if r.outcome.Done? then 1 else 0)
      && |r.state.log| == |s.log| + (if r.outcome.Done? then 1 else 0)
      && r.state.log == s.log + (if r.outcome.Done? then VoterMessage(gen, |s.requests|) else [])
  {
  }

  /** One voter pass only adds to the store. */
  lemma VoterStepExtends(s: State, gen: VoterSource)
    ensures Extends(s, VoterStep(s, gen).state)
  {
    var r := VoterStep(s, gen);
    assert r.state.requests[..|s.requests|] == s.requests;
    assert r.state.log[..|s.log|] == s.log;
  }

  /** One voter pass keeps the store consistent. */
  lemma VoterStepConsistent(s: State, gen: VoterSource)
    requires Consistent(s)
    ensures Consistent(VoterStep(s, gen).state)
  {
    var r := VoterStep(s, gen);
    if r.outcome.Done? {
      var v := gen(|s.requests|).value;
      assert r.state.voters == s.voters[v.voterId := VoterRow(v)];
      assert r.state.log == s.log + [Message(VOTERS_TOPIC, v.voterId, v)];
      forall m | m in r.state.log
        ensures m.topic == VOTERS_TOPIC && m.key == m.value.voterId
        ensures m.key in r.state.voters && r.state.voters[m.key] == VoterRow(m.value)
      {
        if m !in s.log {
          assert m == Message(VOTERS_TOPIC, v.voterId, v);
        }
      }
    }
  }

  /** A voter pass that completes stores the voter it generated; every pass keeps the voters
      stored before. */
  lemma VoterStepStores(s: State, gen: VoterSource, start: nat, j: nat)
    ensures VoterStep(s, gen).outcome.Done? && start + j == |s.requests| ==> VoterStored(gen, start, j, VoterStep(s, gen).state)
    ensures VoterStored(gen, start, j, s) ==> VoterStored(gen, start, j, VoterStep(s, gen).state)
  {
  }

  /** The facts about one voter pass that the loop lemmas need, for every state and pass. */
  lemma VoterBodyFacts(gen: VoterSource)
    ensures FetchesEachPass(VoterBody(gen), VoterUrls())
    ensures CountsPasses(VoterBody(gen), VoterCount())
    ensures CountsPasses(VoterBody(gen), MessageCount())
    ensures PublishesEachPass(VoterBody(gen), VoterMessages(gen))
    ensures Preserves(VoterBody(gen), IsConsistent())
  {
    forall t: State, i: nat
      ensures VoterBody(gen)(t, i).state.requests == t.requests + [BASE_URL]
      ensures |VoterBody(gen)(t, i).state.voters| == |t.voters| + (if VoterBody(gen)(t, i).outcome.Done? then 1 else 0)
      ensures |VoterBody(gen)(t, i).state.log| == |t.log| + (if VoterBody(gen)(t, i).outcome.Done? then 1 else 0)
      ensures VoterBody(gen)(t, i).state.log == t.log + (if VoterBody(gen)(t, i).outcome.Done? then VoterMessage(gen, |t.requests|) else [])
      ensures Consistent(t) ==> Consistent(VoterBody(gen)(t, i).state)
    {
      VoterStepEffect(t, gen);
      if Consistent(t) {
        VoterStepConsistent(t, gen);
      }
    }
  }

  /** The voter loop of k passes issues one request to BASE_URL per pass it runs: k of them
      when no pass fails, and otherwise the completed passes plus the failing one. */
  lemma VotersRequests(s: State, gen: VoterSource, k: nat)
    ensures var run := Voters(s, gen, k); var r := run.state; var n := Completed(run, |s.requests|);
      && 0 <= n <= k && (run.outcome.Done? ==> n == k)
      && |r.requests| == |s.requests| + n + (if run.outcome.Aborted? then 1 else 0)
      && r.requests[..|s.requests|] == s.requests
      && (forall j | |s.requests| <= j < |r.requests| :: r.requests[j] == BASE_URL)
  {
    VoterBodyFacts(gen);
    IterateFetches(s, VoterBody(gen), VoterUrls(), k);
  }

  /** Each completed voter pass adds one voter row and one message. */
  lemma VotersCount(s: State, gen: VoterSource, k: nat)
    ensures var run := Voters(s, gen, k);
      && |run.state.voters| == |s.voters| + Completed(run, |s.requests|)
      && |run.state.log| == |s.log| + Completed(run, |s.requests|)
  {
    VoterBodyFacts(gen);
    IterateCounts(s, VoterBody(gen), VoterUrls(), VoterCount(), k);
    IterateCounts(s, VoterBody(gen), VoterUrls(), MessageCount(), k);
  }

  /** The voter loop publishes, in order, exactly the voters of its completed passes, each to
      voters_topic under its voter_id; a failing pass publishes nothing. */
  lemma VotersLog(s: State, gen: VoterSource, k: nat)
    ensures var run := Voters(s, gen, k);
      Completed(run, |s.requests|) >= 0 &&
      run.state.log == s.log + Published(VoterMessages(gen), |s.requests|, Completed(run, |s.requests|))
  {
    VoterBodyFacts(gen);
    IteratePublishes(s, VoterBody(gen), VoterUrls(), VoterMessages(gen), k);
  }

  /** The voter loop leaves the catalog and the candidates table alone and loses nothing
      stored before. */
  lemma VotersFrame(s: State, gen: VoterSource, k: nat)
    ensures Extends(s, Voters(s, gen, k).state) && Voters(s, gen, k).state.candidates == s.candidates
  {
    var body := VoterBody(gen);
    var keeps := (t: State) => Extends(s, t) && t.candidates == s.candidates;
    forall t: State, i: nat | keeps(t)
      ensures keeps(body(t, i).state)
    {
      VoterStepEffect(t, gen);
      VoterStepExtends(t, gen);
      ExtendsTransitive(s, t, body(t, i).state);
    }
    ExtendsReflexive(s);
    IteratePreserves(s, body, keeps, k);
  }

  /** Every completed voter pass j leaves the voter it generated from the j-th response
      stored under its voter_id, and later passes keep it. */
  lemma VotersStored(s: State, gen: VoterSource, k: nat)
    ensures var run := Voters(s, gen, k);
      forall j: nat | j < Completed(run, |s.requests|) :: VoterStored(gen, |s.requests|, j, run.state)
  {
    var body := VoterBody(gen);
    var start := |s.requests|;
    var mark := VoterMark(gen, start);
    VoterBodyFacts(gen);
    forall t: State, i: nat | |t.requests| == start + i && body(t, i).outcome.Done?
      ensures mark(i, body(t, i).state)
    {
      VoterStepStores(t, gen, start, i);
    }
    forall t: State, i: nat, j: nat | mark(j, t)
      ensures mark(j, body(t, i).state)
    {
      assert VoterStored(gen, start, j, t);
      VoterStepStores(t, gen, start, j);
    }
    IterateMarks(s, body, VoterUrls(), mark, k);
    var run := Voters(s, gen, k);
    forall j: nat | j < Completed(run, start)
      ensures VoterStored(gen, start, j, run.state)
    {
      assert mark(j, run.state);
    }
  }

  /** One more pass of the voter loop runs VoterStep on the state left by the passes before,
      unless one of them failed. */
  lemma VotersNext(s: State, gen: VoterSource, i: nat)
    ensures var r := Voters(s, gen, i);
      Voters(s, gen, i + 1) == if r.outcome.Aborted? then r else VoterStep(r.state, gen)
  {
  }

  /** The voter loop keeps the store consistent. */
  lemma VotersConsistent(s: State, gen: VoterSource, k: nat)
    requires Consistent(s)
    ensures Consistent(Voters(s, gen, k).state)
  {
    VoterBodyFacts(gen);
    IteratePreserves(s, VoterBody(gen), IsConsistent(), k);
  }

  // ---------------------------------------------------------------------------------------
  // Seeding the candidates

  /** One seeding pass i: it fetches CandidateRequestUrl(i), then inserts candidate i unless
      generating it fails or its candidate_id is already stored; nothing else changes. */
  lemma CandidateStepEffect(s: State, gen: CandidateSource, i: nat)
    ensures var q := CandidateStep(s, gen, i);
      var g := gen(i, |s.requests|);
      && q.state == s.(requests := s.requests + [CandidateRequestUrl(i)], candidates := q.state.candidates)
      && (q.outcome.Done? <==> g.Ok? && g.value.candidateId !in s.candidates)
      && (q.outcome.Done? ==> q.state.candidates == s.candidates[g.value.candidateId := CandidateRow(g.value)])
      && (q.outcome.Aborted? ==> q.state.candidates == s.candidates)
      && |q.state.candidates| == |s.candidates| + (if q.outcome.Done? then 1 else 0)
  {
  }

  /** One seeding pass keeps the store consistent and only adds to it. */
  lemma CandidateStepConsistent(s: State, gen: CandidateSource, i: nat)
    ensures Extends(s, CandidateStep(s, gen, i).state)
    ensures Consistent(s) ==> Consistent(CandidateStep(s, gen, i).state)
  {
    var q := CandidateStep(s, gen, i);
    CandidateStepEffect(s, gen, i);
    assert q.state.requests[..|s.requests|] == s.requests;
    assert q.state.log[..|s.log|] == s.log;
  }

  lemma CandidateBodyFacts(gen: CandidateSource)
    ensures FetchesEachPass(CandidateBody(gen), CandidateUrls())
    ensures CountsPasses(CandidateBody(gen), CandidateCount())
    ensures Preserves(CandidateBody(gen), IsConsistent())
  {
    forall t: State, i: nat
      ensures CandidateBody(gen)(t, i).state.requests == t.requests + [CandidateRequestUrl(i)]
      ensures |CandidateBody(gen)(t, i).state.candidates| == |t.candidates| + (if CandidateBody(gen)(t, i).outcome.Done? then 1 else 0)
      ensures Consistent(t) ==> Consistent(CandidateBody(gen)(t, i).state)
    {
      CandidateStepEffect(t, gen, i);
      CandidateStepConsistent(t, gen, i);
    }
  }

  /** The first k seeding passes: request j asks for the gender of candidate j, one request
      per pass run, k of them when no pass fails. */
  lemma CandidatesRequests(s: State, gen: CandidateSource, k: nat)
    ensures var run := Candidates(s, gen, k); var r := run.state; var n := Completed(run, |s.requests|);
      && 0 <= n <= k && (run.outcome.Done? ==> n == k)
      && |r.requests| == |s.requests| + n + (if run.outcome.Aborted? then 1 else 0)
      && r.requests[..|s.requests|] == s.requests
      && (forall j | |s.requests| <= j < |r.requests| :: r.requests[j] == CandidateRequestUrl(j - |s.requests|))
  {
    CandidateBodyFacts(gen);
    IterateFetches(s, CandidateBody(gen), CandidateUrls(), k);
    var r := Candidates(s, gen, k).state;
    forall j | |s.requests| <= j < |r.requests|
      ensures r.requests[j] == CandidateRequestUrl(j - |s.requests|)
    {
      assert r.requests[j] == CandidateUrls()(j - |s.requests|);
    }
  }

  /** Each completed seeding pass adds one candidate row. */
  lemma CandidatesCount(s: State, gen: CandidateSource, k: nat)
    ensures var run := Candidates(s, gen, k);
      |run.state.candidates| == |s.candidates| + Completed(run, |s.requests|)
  {
    CandidateBodyFacts(gen);
    IterateCounts(s, CandidateBody(gen), CandidateUrls(), CandidateCount(), k);
  }

  /** Seeding touches neither the voters, nor the producer, nor the catalog, and loses
      nothing stored before. */
  lemma CandidatesFrame(s: State, gen: CandidateSource, k: nat)
    ensures var r := Candidates(s, gen, k).state;
      Extends(s, r) && r.voters == s.voters && r.log == s.log
  {
    var body := CandidateBody(gen);
    var keeps := (t: State) => Extends(s, t) && t.voters == s.voters && t.log == s.log;
    forall t: State, i: nat | keeps(t)
      ensures keeps(body(t, i).state)
    {
      CandidateStepEffect(t, gen, i);
      CandidateStepConsistent(t, gen, i);
      ExtendsTransitive(s, t, body(t, i).state);
    }
    ExtendsReflexive(s);
    IteratePreserves(s, body, keeps, k);
  }

  /** Every completed seeding pass j leaves candidate j, generated from the j-th response with
      three parties, stored under its candidate_id. */
  lemma CandidatesStored(s: State, gen: CandidateSource, k: nat)
    ensures var run := Candidates(s, gen, k);
      forall j: nat | j < Completed(run, |s.requests|) :: CandidateStored(gen, |s.requests|, j, run.state)
  {
    var body := CandidateBody(gen);
    var start := |s.requests|;
    var mark := CandidateMark(gen, start);
    CandidateBodyFacts(gen);
    forall t: State, i: nat | |t.requests| == start + i && body(t, i).outcome.Done?
      ensures mark(i, body(t, i).state)
    {
      CandidateStepEffect(t, gen, i);
      assert CandidateStored(gen, start, i, CandidateStep(t, gen, i).state);
    }
    forall t: State, i: nat, j: nat | mark(j, t)
      ensures mark(j, body(t, i).state)
    {
      CandidateStepEffect(t, gen, i);
      assert CandidateStored(gen, start, j, t);
    }
    IterateMarks(s, body, CandidateUrls(), mark, k);
    var run := Candidates(s, gen, k);
    forall j: nat | j < Completed(run, start)
      ensures CandidateStored(gen, start, j, run.state)
    {
      assert mark(j, run.state);
    }
  }

  /** One more seeding pass runs CandidateStep on the state left by the passes before,
      unless one of them failed. */
  lemma CandidatesNext(s: State, gen: CandidateSource, i: nat)
    ensures var r := Candidates(s, gen, i);
      Candidates(s, gen, i + 1) == if r.outcome.Aborted? then r else CandidateStep(r.state, gen, i)
  {
  }

  /** Seeding keeps the store consistent. */
  lemma CandidatesConsistent(s: State, gen: CandidateSource, k: nat)
    requires Consistent(s)
    ensures Consistent(Candidates(s, gen, k).state)
  {
    CandidateBodyFacts(gen);
    IteratePreserves(s, CandidateBody(gen), IsConsistent(), k);
  }

  // ---------------------------------------------------------------------------------------
  // The whole script

  /** Seeding happens only on an empty candidates table: a non-empty table gets no insert and
      no request at all. */
  lemma SeedSkipsFilledTable(s: State, api: Api)
    requires |s.candidates| > 0
    ensures Seed(s, api) == Run(s, Done)
  {
  }

  /** Seeding an empty table, when it completes, requests a male, a female and a male
      identity, in that order. */
  lemma SeedRequests(s: State, api: Api)
    requires |s.candidates| == 0 && Seed(s, api).outcome.Done?
    ensures Seed(s, api).state.requests == s.requests +
      [BASE_URL + GENDER_PARAM + "male", BASE_URL + GENDER_PARAM + "female", BASE_URL + GENDER_PARAM + "male"]
  {
    var r := Seed(s, api).state;
    var start := |s.requests|;
    CandidatesRequests(s, CandidateSourceOf(api), CANDIDATE_COUNT);
    var m := BASE_URL + GENDER_PARAM + "male";
    var f := BASE_URL + GENDER_PARAM + "female";
    SeedGenders();
    assert r.requests[start] == m && r.requests[start + 1] == f && r.requests[start + 2] == m;
    assert r.requests == r.requests[..start] + [m, f, m];
  }

  /** Candidates 0, 1 and 2 are requested as male, female and male. */
  lemma SeedGenders()
    ensures CandidateRequestUrl(0) == BASE_URL + GENDER_PARAM + "male"
    ensures CandidateRequestUrl(1) == BASE_URL + GENDER_PARAM + "female"
    ensures CandidateRequestUrl(2) == BASE_URL + GENDER_PARAM + "male"
  {
  }

  /** Seeding an empty table, when it completes, stores exactly three candidates, candidate j
      generated from the j-th response of the seeding, and touches neither the voters nor
      the producer. */
  lemma SeedFillsEmptyTable(s: State, api: Api)
    requires |s.candidates| == 0 && Seed(s, api).outcome.Done?
    ensures var r := Seed(s, api).state;
      && |r.candidates| == CANDIDATE_COUNT
      && (forall j: nat | j < CANDIDATE_COUNT :: CandidateStored(CandidateSourceOf(api), |s.requests|, j, r))
      && r.voters == s.voters && r.log == s.log
    ensures var g := CandidateSourceOf(api); var st := |s.requests|;
      && g(0, st).Ok? && g(1, st + 1).Ok? && g(2, st + 2).Ok?
      && Seed(s, api).state.candidates.Keys
         == {g(0, st).value.candidateId, g(1, st + 1).value.candidateId, g(2, st + 2).value.candidateId}
  {
    var gen := CandidateSourceOf(api);
    CandidatesRequests(s, gen, CANDIDATE_COUNT);
    CandidatesCount(s, gen, CANDIDATE_COUNT);
    CandidatesFrame(s, gen, CANDIDATE_COUNT);
    CandidatesStored(s, gen, CANDIDATE_COUNT);
    CandidatesKeys(s, gen);
  }

  /** Three completed seeding passes on an empty table leave exactly the ids of candidates 0,
      1 and 2 as its keys: each pass adds its own id, and no other row appears. */
  lemma CandidatesKeys(s: State, gen: CandidateSource)
    requires |s.candidates| == 0 && Candidates(s, gen, CANDIDATE_COUNT).outcome.Done?
    ensures var st := |s.requests|;
      && gen(0, st).Ok? && gen(1, st + 1).Ok? && gen(2, st + 2).Ok?
      && Candidates(s, gen, CANDIDATE_COUNT).state.candidates.Keys
         == {gen(0, st).value.candidateId, gen(1, st + 1).value.candidateId, gen(2, st + 2).value.candidateId}
  {
    CandidatesNext(s, gen, 0);
    CandidatesNext(s, gen, 1);
    CandidatesNext(s, gen, 2);
    var r0 := Candidates(s, gen, 0);
    var r1 := Candidates(s, gen, 1);
    var r2 := Candidates(s, gen, 2);
    assert r0 == Run(s, Done);
    assert r1 == CandidateStep(r0.state, gen, 0) && r1.outcome.Done?;
    assert r2 == CandidateStep(r1.state, gen, 1) && r2.outcome.Done?;
    CandidateStepEffect(r0.state, gen, 0);
    CandidateStepEffect(r1.state, gen, 1);
    CandidateStepEffect(r2.state, gen, 2);
  }

  /** A seeded candidate j < 3 has party j and platform j: with three parties the index
      `j % 3` is j itself. */
  lemma SeededParty(api: Api, start: nat, j: nat, t: State)
    requires j < CANDIDATE_COUNT && CandidateStored(CandidateSourceOf(api), start, j, t)
    ensures var c := CandidateSourceOf(api)(j, start + j).value;
      c.partyAffiliation == PARTIES[j] && c.campaignPlatform == CAMPAIGN_PLATFORMS[j]
      && t.candidates[c.candidateId] == CandidateRow(c)
  {
    var resp := api(start + j);
    assert CandidateSourceOf(api)(j, start + j) == GenerateCandidateData(j, TOTAL_PARTIES, resp);
    assert j % 3 == j;
  }

  /** After any run, failed or not, the database and the three tables exist, a consistent
      store stays consistent, and candidates found at the start are kept as they are. */
  lemma ScriptEffect(s: State, api: Api)
    ensures var r := Script(s, api).state;
      && VOTING_DB in r.databases && TABLES <= r.tables
      && (Consistent(s) ==> Consistent(r))
      && (|s.candidates| > 0 ==> r.candidates == s.candidates)
  {
    var b := Bootstrap(s);
    var seeded := Seed(b, api);
    var cgen := CandidateSourceOf(api);
    if |b.candidates| == 0 {
      CandidatesFrame(b, cgen, CANDIDATE_COUNT);
      if Consistent(s) {
        CandidatesConsistent(b, cgen, CANDIDATE_COUNT);
      }
    }
    if seeded.outcome.Done? {
      VotersFrame(seeded.state, VoterSourceOf(api), VOTER_COUNT);
      if Consistent(seeded.state) {
        VotersConsistent(seeded.state, VoterSourceOf(api), VOTER_COUNT);
      }
    }
  }

  /** A run that completes has added 1000 voter rows and 1000 messages, and leaves three
      candidates when it found none. */
  lemma ScriptCompletes(s: State, api: Api)
    requires Script(s, api).outcome.Done?
    ensures var r := Script(s, api).state;
      && |r.voters| == |s.voters| + VOTER_COUNT
      && |r.log| == |s.log| + VOTER_COUNT
      && |r.candidates| == (if |s.candidates| == 0 then CANDIDATE_COUNT else |s.candidates|)
  {
    var b := Bootstrap(s);
    var seeded := Seed(b, api);
    var cgen := CandidateSourceOf(api);
    if |b.candidates| == 0 {
      CandidatesFrame(b, cgen, CANDIDATE_COUNT);
      CandidatesCount(b, cgen, CANDIDATE_COUNT);
      CandidatesRequests(b, cgen, CANDIDATE_COUNT);
    }
    VotersFrame(seeded.state, VoterSourceOf(api), VOTER_COUNT);
    VotersCount(seeded.state, VoterSourceOf(api), VOTER_COUNT);
    VotersRequests(seeded.state, VoterSourceOf(api), VOTER_COUNT);
  }

  /** Once the database and the three tables exist, `create_database` and `create_tables`
      change nothing. */
  lemma BootstrapFixed(s: State)
    requires VOTING_DB in s.databases && TABLES <= s.tables
    ensures Bootstrap(s) == s
  {
    assert s.databases + {VOTING_DB} == s.databases;
    assert s.tables + TABLES == s.tables;
  }

  /** Running the script again after a completed run creates nothing and seeds nothing: the
      catalog and the candidates table stay as the first run left them. */
  lemma ScriptRerun(s: State, api1: Api, api2: Api)
    requires Script(s, api1).outcome.Done?
    ensures var first := Script(s, api1).state; var second := Script(first, api2).state;
      && second.databases == first.databases && second.tables == first.tables
      && second.candidates == first.candidates
  {
    var first := Script(s, api1).state;
    ScriptEffect(s, api1);
    ScriptCompletes(s, api1);
    assert |first.candidates| > 0;
    BootstrapFixed(first);
    SeedSkipsFilledTable(first, api2);
    assert Script(first, api2) == Voters(first, VoterSourceOf(api2), VOTER_COUNT);
    VotersFrame(first, VoterSourceOf(api2), VOTER_COUNT);
  }

  /** A voter whose voter_id is already stored makes the INSERT raise: the pass inserts and
      publishes nothing, and no later pass of the loop runs. */
  lemma DuplicateVoterAborts(s: State, gen: VoterSource, k: nat)
    requires gen(|s.requests|).Ok? && gen(|s.requests|).value.voterId in s.voters
    ensures VoterStep(s, gen) == Run(Fetched(s, BASE_URL), Aborted(DuplicateKey(VOTERS_TABLE, gen(|s.requests|).value.voterId)))
    ensures k >= 1 ==> Voters(s, gen, k) == Run(Fetched(s, BASE_URL), Aborted(DuplicateKey(VOTERS_TABLE, gen(|s.requests|).value.voterId)))
  {
    if k >= 1 {
      assert Voters(s, gen, 1) == VoterStep(s, gen);
      IterateAbortSticky(s, VoterBody(gen), 1, k);
    }
  }

  /** With the API mocked to answer the next request with a single user: one row is
      inserted, then one message is published, and the stored row holds that user's data with
      the nationality and country overridden. */
  lemma VoterStepScenario(s: State, api: Api, u: User)
    requires api(|s.requests|) == Response(200, [u]) && u.login.uuid !in s.voters
    ensures var r := VoterStep(s, VoterSourceOf(api));
      && r.outcome == Done
      && r.state.voters.Keys == s.voters.Keys + {u.login.uuid}
      && |r.state.log| == |s.log| + 1
      && r.state.log[|s.log|].topic == VOTERS_TOPIC && r.state.log[|s.log|].key == u.login.uuid
      && r.state.log[|s.log|].value == GenerateVoterData(Response(200, [u])).value
      && u.login.uuid in r.state.voters
      && var row := r.state.voters[u.login.uuid];
      && row[0] == Str(u.login.uuid)
      && row[1] == Str(u.name.first + " " + u.name.last)
      && row[2] == Str(u.dobDate) && row[3] == Str(u.gender)
      && row[4] == Str(NATIONALITY) && row[5] == Str(u.login.username)
      && row[6] == Str(IntToString(u.location.street.number) + " " + u.location.street.name)
      && row[7] == Str(u.location.city) && row[8] == Str(u.location.state)
      && row[9] == Str(COUNTRY) && row[10] == u.location.postcode
      && row[11] == Str(u.email) && row[12] == Str(u.phone) && row[13] == Str(u.cell)
      && row[14] == Str(u.pictureLarge) && row[15] == Int(u.registeredAge)
  {
    var gen := VoterSourceOf(api);
    assert gen(|s.requests|) == GenerateVoterData(Response(200, [u]));
    VoterStepEffect(s, gen);
  }
}

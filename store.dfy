/** The outside world the script acts on, as a value: the database server (its databases, the
    tables of `voting`, the rows of `candidates` and `voters`), the messages handed to the
    Kafka producer, and the HTTP requests issued so far. Also the shape of the script's two
    `for` loops, whose passes may raise and so end the script, with the facts about them that
    hold for any loop body. */
module Store {
  import opened Identity
  import opened Rows

  const VOTERS_TOPIC := "voters_topic"
  const CANDIDATES_TOPIC := "candidates_topic"

  /** A message handed to the producer: topic, key and the record it serialises. */
  datatype Message = Message(topic: string, key: string, value: Voter)

  datatype State = State(
    databases: set<string>,
    tables: set<string>,
    candidates: map<string, Row>,
    voters: map<string, Row>,
    log: seq<Message>,
    requests: seq<string>)

  /** What ends the script early: an exception raised while generating or inserting a record. */
  datatype Failure = GenerationFailed(error: Error) | DuplicateKey(table: string, key: string)
  datatype Outcome = Done | Aborted(failure: Failure)
  datatype Run = Run(state: State, outcome: Outcome)

  /** What every row and message of the store satisfies: each row reads back into a record
      keyed by its own identifier, and each voter message is backed by the stored row of the
      voter it carries. */
  predicate Consistent(s: State) {
    && (forall key | key in s.voters ::
          RowToVoter(s.voters[key]).Some? && RowToVoter(s.voters[key]).value.voterId == key)
    && (forall key | key in s.candidates ::
          RowToCandidate(s.candidates[key]).Some? && RowToCandidate(s.candidates[key]).value.candidateId == key)
    && (forall m | m in s.log ::
          m.topic == VOTERS_TOPIC && m.key == m.value.voterId
          && m.key in s.voters && s.voters[m.key] == VoterRow(m.value))
  }

  /** `s` is `t` with rows, messages and requests possibly added: nothing is removed or
      rewritten, and the catalog is the same. */
  predicate Extends(t: State, s: State) {
    && s.databases == t.databases && s.tables == t.tables
    && (forall key | key in t.candidates :: key in s.candidates && s.candidates[key] == t.candidates[key])
    && (forall key | key in t.voters :: key in s.voters && s.voters[key] == t.voters[key])
    && |t.log| <= |s.log| && s.log[..|t.log|] == t.log
    && |t.requests| <= |s.requests| && s.requests[..|t.requests|] == t.requests
  }

  lemma ExtendsReflexive(s: State)
    ensures Extends(s, s)
  {
    assert s.log[..|s.log|] == s.log;
    assert s.requests[..|s.requests|] == s.requests;
  }

  lemma ExtendsTransitive(a: State, b: State, c: State)
    requires Extends(a, b) && Extends(b, c)
    ensures Extends(a, c)
  {
    assert c.log[..|a.log|] == c.log[..|b.log|][..|a.log|];
    assert c.requests[..|a.requests|] == c.requests[..|b.requests|][..|a.requests|];
  }

  // ---------------------------------------------------------------------------------------
  // Loops whose passes may raise

  /** The body of a loop: pass i run on a state. */
  type Body = (State, nat) -> Run

  /** `for i in range(k): body`, where an exception in a pass ends the script. */
  function Iterate(s: State, body: Body, k: nat): Run
    decreases k
  {
    if k == 0 then Run(s, Done)
    else
      var r := Iterate(s, body, k - 1);
      if r.outcome.Aborted? then r else body(r.state, k - 1)
  }

  /** The number of passes that completed, for a loop that issues one request per pass and
      started with `start` requests in the history. */
  function Completed(run: Run, start: nat): int {
    |run.state.requests| - start - (if run.outcome.Aborted? then 1 else 0)
  }

  /** Pass i issues exactly one request, to url(i). */
  ghost predicate FetchesEachPass(body: Body, url: nat -> string) {
    forall t: State, i: nat :: body(t, i).state.requests == t.requests + [url(i)]
  }

  ghost predicate Preserves(body: Body, p: State -> bool) {
    forall t: State, i: nat :: p(t) ==> p(body(t, i).state)
  }

  /** A completed pass adds one to `count`; a failed pass leaves it. */
  ghost predicate CountsPasses(body: Body, count: State -> int) {
    forall t: State, i: nat ::
      count(body(t, i).state) == count(t) + (if body(t, i).outcome.Done? then 1 else 0)
  }

  /** A completed pass publishes `msg` of the response it read; a failed pass publishes nothing. */
  ghost predicate PublishesEachPass(body: Body, msg: nat -> seq<Message>) {
    forall t: State, i: nat ::
      body(t, i).state.log == t.log + (if body(t, i).outcome.Done? then msg(|t.requests|) else [])
  }

  /** What passes start .. start+n-1 publish, in order. */
  function Published(msg: nat -> seq<Message>, start: nat, n: nat): seq<Message>
    decreases n
  {
    if n == 0 then [] else Published(msg, start, n - 1) + msg(start + n - 1)
  }

  /** Once a pass fails, later passes never run. */
  lemma {:induction false} IterateAbortSticky(s: State, body: Body, i: nat, k: nat)
    requires i <= k && Iterate(s, body, i).outcome.Aborted?
    ensures Iterate(s, body, k) == Iterate(s, body, i)
    decreases k
  {
    if k > i {
      IterateAbortSticky(s, body, i, k - 1);
    }
  }

  /** A loop of k passes issues url(0), url(1), ... in order, one per pass run, all k of them
      when no pass fails. */
  lemma {:induction false} IterateFetches(s: State, body: Body, url: nat -> string, k: nat)
    requires FetchesEachPass(body, url)
    ensures var run := Iterate(s, body, k); var r := run.state;
      && |s.requests| <= |r.requests| <= |s.requests| + k
      && r.requests[..|s.requests|] == s.requests
      && (forall j | |s.requests| <= j < |r.requests| :: r.requests[j] == url(j - |s.requests|))
      && (run.outcome.Done? ==> |r.requests| == |s.requests| + k)
      && (run.outcome.Aborted? ==> |r.requests| > |s.requests|)
      && 0 <= Completed(run, |s.requests|) <= k
    decreases k
  {
    if k == 0 {
      assert s.requests[..|s.requests|] == s.requests;
    } else {
      IterateFetches(s, body, url, k - 1);
      var p := Iterate(s, body, k - 1);
      if p.outcome.Done? {
        var q := body(p.state, k - 1);
        assert q.state.requests == p.state.requests + [url(k - 1)];
        assert q.state.requests[..|s.requests|] == p.state.requests[..|s.requests|];
      }
    }
  }

  lemma {:induction false} IteratePreserves(s: State, body: Body, p: State -> bool, k: nat)
    requires Preserves(body, p) && p(s)
    ensures p(Iterate(s, body, k).state)
    decreases k
  {
    if k > 0 {
      IteratePreserves(s, body, p, k - 1);
    }
  }

  /** A counter that completed passes raise by one has risen by the number of completed passes. */
  lemma {:induction false} IterateCounts(s: State, body: Body, url: nat -> string, count: State -> int, k: nat)
    requires FetchesEachPass(body, url) && CountsPasses(body, count)
    ensures count(Iterate(s, body, k).state) == count(s) + Completed(Iterate(s, body, k), |s.requests|)
    decreases k
  {
    if k > 0 {
      IterateCounts(s, body, url, count, k - 1);
      var p := Iterate(s, body, k - 1);
      if p.outcome.Done? {
        assert body(p.state, k - 1).state.requests == p.state.requests + [url(k - 1)];
      }
    }
  }

  /** The loop's messages are those of its completed passes, in order, each built from the
      response that pass read. */
  lemma {:induction false} IteratePublishes(s: State, body: Body, url: nat -> string, msg: nat -> seq<Message>, k: nat)
    requires FetchesEachPass(body, url) && PublishesEachPass(body, msg)
    ensures var run := Iterate(s, body, k); var n := Completed(run, |s.requests|);
      n >= 0 && run.state.log == s.log + Published(msg, |s.requests|, n)
    decreases k
  {
    if k == 0 {
      assert s.log + [] == s.log;
    } else {
      IteratePublishes(s, body, url, msg, k - 1);
      var p := Iterate(s, body, k - 1);
      if p.outcome.Done? {
        var n: nat := Completed(p, |s.requests|);
        var q := body(p.state, k - 1);
        assert q.state.requests == p.state.requests + [url(k - 1)];
        assert q.state.log == p.state.log + (if q.outcome.Done? then msg(|p.state.requests|) else []);
        if q.outcome.Done? {
          assert Completed(q, |s.requests|) == n + 1;
          assert Published(msg, |s.requests|, n + 1) == Published(msg, |s.requests|, n) + msg(|s.requests| + n);
        } else {
          assert Completed(q, |s.requests|) == n;
          assert q.state.log == p.state.log + [];
        }
      }
    }
  }

  /** A fact that pass i establishes when it completes, and that later passes keep, holds of
      every completed pass at the end. */
  lemma {:induction false} IterateMarks(s: State, body: Body, url: nat -> string, mark: (nat, State) -> bool, k: nat)
    requires FetchesEachPass(body, url)
    requires forall t: State, i: nat ::
      |t.requests| == |s.requests| + i && body(t, i).outcome.Done? ==> mark(i, body(t, i).state)
    requires forall t: State, i: nat, j: nat :: mark(j, t) ==> mark(j, body(t, i).state)
    ensures forall j: nat | j < Completed(Iterate(s, body, k), |s.requests|) :: mark(j, Iterate(s, body, k).state)
    decreases k
  {
    if k > 0 {
      IterateMarks(s, body, url, mark, k - 1);
      IterateFetches(s, body, url, k - 1);
      var p := Iterate(s, body, k - 1);
      if p.outcome.Done? {
        var q := body(p.state, k - 1);
        assert q.state.requests == p.state.requests + [url(k - 1)];
        assert |p.state.requests| == |s.requests| + (k - 1);
      }
    }
  }
}

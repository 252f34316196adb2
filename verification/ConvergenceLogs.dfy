/** Which log entry each tool result is charged to, and that the order in which parallel calls
    were logged does not matter. */
module ConvergenceLogs {
  import opened Prelude
  import opened Convergence

  /** What a result becomes when it is charged to a call of this tool with this input. */
  function Charged(r: Rendering, parsed: Parsed, tool: string, input: string): Item {
    var name := if tool == "" then "unknown" else tool;
    match parsed
    case Problem(error) => Failed(Failure(name, input, error))
    case Observation(value) => Succeeded(r.fingerprint(name, input, value), name, r.summary(value))
  }

  /** The entry is the last one with this id. */
  predicate LastWithId(log: seq<LogEntry>, id: string, k: nat) {
    k < |log| && log[k].toolUseId == id && forall l | k < l < |log| :: log[l].toolUseId != id
  }

  lemma {:induction false} FoundById(log: seq<LogEntry>, id: string, k: nat)
    requires id != "" && LastWithId(log, id, k)
    ensures ById(log, id) == Some(log[k])
  {
    if k < |log| - 1 {
      FoundById(log[..|log| - 1], id, k);
    }
  }

  lemma {:induction false} NotFoundById(log: seq<LogEntry>, id: string)
    requires id == "" || forall e | e in log :: e.toolUseId != id
    ensures ById(log, id) == None
  {
    if log != [] && id != "" {
      assert log[|log| - 1] in log;
      NotFoundById(log[..|log| - 1], id);
    }
  }

  /** A result with an id that was logged is charged to the last entry with that id, wherever
      it stands. */
  lemma ChargedById(r: Rendering, results: seq<ToolResult>, log: seq<LogEntry>, i: nat, k: nat)
    requires i < |results| && results[i].toolUseId != "" && LastWithId(log, results[i].toolUseId, k)
    ensures Round(r, results, log)[i] == Charged(r, results[i].parsed, log[k].tool, log[k].input)
  {
    FoundById(log, results[i].toolUseId, k);
  }

  /** A result whose id was not logged is charged by position among as many latest entries as
      there are results, and beyond them to nothing known. */
  lemma ChargedByPosition(r: Rendering, results: seq<ToolResult>, log: seq<LogEntry>, i: nat)
    requires i < |results|
    requires results[i].toolUseId == "" || forall e | e in log :: e.toolUseId != results[i].toolUseId
    ensures var first := if |log| > |results| then |log| - |results| else 0;
      Round(r, results, log)[i] ==
        if first + i < |log| then Charged(r, results[i].parsed, log[first + i].tool, log[first + i].input)
        else Charged(r, results[i].parsed, "", "{}")
  {
    NotFoundById(log, results[i].toolUseId);
  }

  // ---- The order of the log ------------------------------------------------------------------

  /** Exactly one entry has the id. */
  predicate LoggedOnce(log: seq<LogEntry>, id: string) {
    id != "" && exists k :: 0 <= k < |log| && OnlyWithId(log, id, k)
  }

  predicate OnlyWithId(log: seq<LogEntry>, id: string, k: int)
    requires 0 <= k < |log|
  {
    log[k].toolUseId == id && forall l | 0 <= l < |log| && l != k :: log[l].toolUseId != id
  }

  predicate AllLoggedOnce(results: seq<ToolResult>, log: seq<LogEntry>) {
    forall i | 0 <= i < |results| :: LoggedOnce(log, results[i].toolUseId)
  }

  lemma OnlyEntry(log: seq<LogEntry>, id: string, k: nat)
    requires k < |log| && OnlyWithId(log, id, k)
    ensures multiset(log)[log[k]] == 1
    ensures forall e | e in multiset(log) && e.toolUseId == id :: e == log[k]
  {
    var before, after := log[..k], log[k + 1..];
    assert log == before + [log[k]] + after;
    assert log[k] !in before && log[k] !in after;
    forall e | e in multiset(log) && e.toolUseId == id
      ensures e == log[k]
    {
      assert e in log;
    }
  }

  lemma TwoPlaces(log: seq<LogEntry>, l: nat, n: nat)
    requires l < n < |log|
    ensures log[l] == log[n] ==> multiset(log)[log[l]] >= 2
  {
    var before, after := log[..n], log[n..];
    assert log == before + after && before[l] == log[l] && after[0] == log[n];
  }

  /** In any reordering the one entry is still the last with its id. */
  lemma StillLast(log: seq<LogEntry>, other: seq<LogEntry>, id: string, k: nat) returns (l: nat)
    requires multiset(log) == multiset(other) && k < |log| && OnlyWithId(log, id, k)
    ensures LastWithId(other, id, l) && other[l] == log[k]
  {
    OnlyEntry(log, id, k);
    assert log[k] in multiset(other);
    l :| 0 <= l < |other| && other[l] == log[k];
    forall n | l < n < |other|
      ensures other[n].toolUseId != id
    {
      assert other[n] in multiset(other);
      TwoPlaces(other, l, n);
    }
  }

  /** When every result was logged once under its own id, the round is the same for every order
      of the log. */
  lemma RoundIgnoresLogOrder(r: Rendering, results: seq<ToolResult>, log: seq<LogEntry>, other: seq<LogEntry>)
    requires AllLoggedOnce(results, log) && multiset(log) == multiset(other)
    ensures Round(r, results, log) == Round(r, results, other)
  {
    forall i | 0 <= i < |results|
      ensures Round(r, results, log)[i] == Round(r, results, other)[i]
    {
      var id := results[i].toolUseId;
      assert LoggedOnce(log, id);
      var k :| 0 <= k < |log| && OnlyWithId(log, id, k);
      var l := StillLast(log, other, id, k);
      ChargedById(r, results, log, i, k);
      ChargedById(r, results, other, i, l);
    }
  }

  /** One call of the detector, with the log in two orders. */
  datatype Batch = Batch(results: seq<ToolResult>, log: seq<LogEntry>, other: seq<LogEntry>)

  function Rounds(r: Rendering, batches: seq<Batch>, others: bool): (rounds: seq<seq<Item>>)
    ensures |rounds| == |batches|
  {
    seq(|batches|, i requires 0 <= i < |batches| =>
      Round(r, batches[i].results, if others then batches[i].other else batches[i].log))
  }

  /** So over a whole history neither break depends on the order in which parallel calls came
      to be logged. */
  lemma BreaksIgnoreLogOrder(r: Rendering, batches: seq<Batch>)
    requires forall b | b in batches :: AllLoggedOnce(b.results, b.log) && multiset(b.log) == multiset(b.other)
    ensures AfterRounds(FRESH, Rounds(r, batches, false)) == AfterRounds(FRESH, Rounds(r, batches, true))
    ensures var one, two := AfterRounds(FRESH, Rounds(r, batches, false)), AfterRounds(FRESH, Rounds(r, batches, true));
      && (Breaks(one) <==> Breaks(two))
      && (one.streak >= SUCCESS_THRESHOLD <==> two.streak >= SUCCESS_THRESHOLD)
  {
    forall i | 0 <= i < |batches|
      ensures Rounds(r, batches, false)[i] == Rounds(r, batches, true)[i]
    {
      assert batches[i] in batches;
      RoundIgnoresLogOrder(r, batches[i].results, batches[i].log, batches[i].other);
    }
    assert Rounds(r, batches, false) == Rounds(r, batches, true);
  }
}

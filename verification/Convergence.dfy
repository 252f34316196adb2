/** The stuck-loop detector: a few bounded fields that must say the same as the whole
    history of tool results. */
module Convergence {
  import opened Prelude

  // ---- Results, and what the log says about them ----------------------------------------

  /** A tool result once its content is parsed: an object with an error, or anything else. */
  datatype Parsed = Problem(error: string) | Observation(value: string)
  datatype ToolResult = ToolResult(toolUseId: string, parsed: Parsed)
  datatype LogEntry = LogEntry(toolUseId: string, tool: string, input: string)

  datatype Failure = Failure(tool: string, input: string, error: string)
  datatype Item = Failed(failure: Failure) | Succeeded(fingerprint: string, tool: string, summary: string)

  /** The normalized key of an all-error round; the digest of its sorted errors is a
      function of their multiset, and is taken to tell multisets apart. */
  datatype Key = Key(tools: set<string>, summary: string, digest: multiset<Failure>)

  /** How a success is fingerprinted and shown: any functions of tool, input and value. */
  datatype Rendering = Rendering(fingerprint: (string, string, string) -> string, summary: string -> string)

  const KEPT := 6
  const ERROR_ROUNDS := 3
  const SUCCESS_THRESHOLD := 5

  /** The last entry with the id wins; an empty id is no id. */
  function ById(log: seq<LogEntry>, id: string): Option<LogEntry> {
    if log == [] || id == "" then None
    else if log[|log| - 1].toolUseId == id then Some(log[|log| - 1])
    else ById(log[..|log| - 1], id)
  }

  function Last<T>(s: seq<T>, n: nat): (r: seq<T>)
    ensures |r| == if |s| < n then |s| else n
  {
    if |s| <= n then s else s[|s| - n..]
  }

  /** The log entry of the `i`-th result: by id, else by position among the latest. */
  function EntryFor(results: seq<ToolResult>, log: seq<LogEntry>, i: nat): Option<LogEntry>
    requires i < |results|
  {
    var found := ById(log, results[i].toolUseId);
    var recent := Last(log, |results|);
    if found.Some? then found else if i < |recent| then Some(recent[i]) else None
  }

  function ToolName(e: Option<LogEntry>): string {
    if e.Some? && e.value.tool != "" then e.value.tool else "unknown"
  }

  function Input(e: Option<LogEntry>): string {
    if e.Some? then e.value.input else "{}"
  }

  function Observed(r: Rendering, results: seq<ToolResult>, log: seq<LogEntry>, i: nat): Item
    requires i < |results|
  {
    var e := EntryFor(results, log, i);
    match results[i].parsed
    case Problem(error) => Failed(Failure(ToolName(e), Input(e), error))
    case Observation(value) => Succeeded(r.fingerprint(ToolName(e), Input(e), value), ToolName(e), r.summary(value))
  }

  /** A round of the history: the results of one call, each with its log entry. */
  function Round(r: Rendering, results: seq<ToolResult>, log: seq<LogEntry>): (round: seq<Item>)
    ensures |round| == |results|
    ensures forall i | 0 <= i < |results| :: round[i] == Observed(r, results, log, i)
  {
    seq(|results|, i requires 0 <= i < |results| => Observed(r, results, log, i))
  }

  // ---- The machine ------------------------------------------------------------------------------

  datatype State = State(
    errors: int, recent: seq<Key>, streak: int,
    fingerprint: Option<string>, tool: Option<string>, summary: Option<string>)

  const FRESH := State(0, [], 0, None, None, None)

  function AfterItem(s: State, item: Item): State {
    match item
    case Failed(_) => s.(streak := 0, fingerprint := None, tool := None, summary := None)
    case Succeeded(f, tool, summary) =>
      s.(streak := if s.fingerprint == Some(f) then s.streak + 1 else 1,
         fingerprint := Some(f), tool := Some(tool), summary := Some(summary))
  }

  function AfterItems(s: State, items: seq<Item>): State {
    if items == [] then s else AfterItem(AfterItems(s, items[..|items| - 1]), items[|items| - 1])
  }

  predicate AllFailed(round: seq<Item>) { forall item | item in round :: item.Failed? }

  function Failures(round: seq<Item>): (failures: seq<Failure>)
    requires AllFailed(round)
    ensures |failures| == |round| && forall i | 0 <= i < |round| :: failures[i] == round[i].failure
  {
    seq(|round|, i requires 0 <= i < |round| => round[i].failure)
  }

  function KeyOf(failures: seq<Failure>): Key
    requires failures != []
  {
    Key(set f | f in failures :: f.tool, Clipped(failures[0].error), multiset(failures))
  }

  function Clipped(error: string): string {
    if |error| <= 50 then error else error[..50]
  }

  function RoundKey(round: seq<Item>): Key
    requires round != [] && AllFailed(round)
  {
    KeyOf(Failures(round))
  }

  function AfterRound(s: State, round: seq<Item>): State {
    var t := AfterItems(s, round);
    if round == [] then t
    else if AllFailed(round) then
      t.(errors := t.errors + 1, recent := Last(t.recent + [RoundKey(round)], KEPT))
    else t.(errors := 0, recent := [])
  }

  function AfterRounds(s: State, rounds: seq<seq<Item>>): State {
    if rounds == [] then s else AfterRound(AfterRounds(s, rounds[..|rounds| - 1]), rounds[|rounds| - 1])
  }

  predicate Breaks(s: State) {
    && s.errors >= ERROR_ROUNDS && |s.recent| >= ERROR_ROUNDS
    && s.recent[|s.recent| - 3] == s.recent[|s.recent| - 2] == s.recent[|s.recent| - 1]
  }

  // ---- What history says -----------------------------------------------------------------------

  function Flat(rounds: seq<seq<Item>>): seq<Item> {
    if rounds == [] then [] else Flat(rounds[..|rounds| - 1]) + rounds[|rounds| - 1]
  }

  function NonEmpty(rounds: seq<seq<Item>>): (kept: seq<seq<Item>>)
    ensures forall i | 0 <= i < |kept| :: |kept[i]| > 0
  {
    if rounds == [] then []
    else if rounds[|rounds| - 1] == [] then NonEmpty(rounds[..|rounds| - 1])
    else NonEmpty(rounds[..|rounds| - 1]) + [rounds[|rounds| - 1]]
  }

  /** How many of the last rounds were all errors. */
  function Trailing(rounds: seq<seq<Item>>): (n: nat)
    ensures n <= |rounds|
  {
    if rounds == [] || !AllFailed(rounds[|rounds| - 1]) then 0 else Trailing(rounds[..|rounds| - 1]) + 1
  }

  /** The last `n` items are successes with one fingerprint, and no longer suffix is. */
  predicate LongestRun(items: seq<Item>, n: int, f: Option<string>) {
    && 0 <= n <= |items|
    && (f.Some? <==> n > 0)
    && (forall i | |items| - n <= i < |items| :: items[i].Succeeded? && Some(items[i].fingerprint) == f)
    && (n < |items| ==>
          var before := items[|items| - n - 1]; before.Failed? || (n > 0 && Some(before.fingerprint) != f))
  }

  lemma {:induction false} TrailingRounds(rounds: seq<seq<Item>>, i: nat)
    requires |rounds| - Trailing(rounds) <= i < |rounds|
    ensures AllFailed(rounds[i])
    decreases |rounds|
  {
    if i < |rounds| - 1 {
      TrailingRounds(rounds[..|rounds| - 1], i);
    }
  }

  lemma {:induction false} TrailingIsLongest(rounds: seq<seq<Item>>)
    ensures Trailing(rounds) < |rounds| ==> !AllFailed(rounds[|rounds| - Trailing(rounds) - 1])
  {
    if rounds != [] && AllFailed(rounds[|rounds| - 1]) {
      TrailingIsLongest(rounds[..|rounds| - 1]);
    }
  }

  /** The keys of the trailing all-error rounds, oldest first. */
  function TrailingKeys(rounds: seq<seq<Item>>): (keys: seq<Key>)
    requires forall i | 0 <= i < |rounds| :: |rounds[i]| > 0
    ensures |keys| == Trailing(rounds)
  {
    if rounds == [] || !AllFailed(rounds[|rounds| - 1]) then []
    else TrailingKeys(rounds[..|rounds| - 1]) + [RoundKey(rounds[|rounds| - 1])]
  }

  lemma KeysGrow(past: seq<seq<Item>>, round: seq<Item>)
    requires round != [] && forall i | 0 <= i < |past| :: |past[i]| > 0
    ensures Trailing(past + [round]) == (if AllFailed(round) then Trailing(past) + 1 else 0)
    ensures TrailingKeys(past + [round]) == (if AllFailed(round) then TrailingKeys(past) + [RoundKey(round)] else [])
  {
    hide AllFailed, RoundKey;
    assert (past + [round])[..|past|] == past;
  }

  lemma {:induction false} KeyAt(rounds: seq<seq<Item>>, k: nat)
    requires forall i | 0 <= i < |rounds| :: |rounds[i]| > 0
    requires k < Trailing(rounds)
    ensures AllFailed(rounds[|rounds| - 1 - k])
    ensures TrailingKeys(rounds)[Trailing(rounds) - 1 - k] == RoundKey(rounds[|rounds| - 1 - k])
    decreases k
  {
    hide AllFailed, RoundKey;
    if k > 0 {
      KeyAt(rounds[..|rounds| - 1], k - 1);
    }
  }

  lemma LastNone()
    ensures Last<Key>([], KEPT) == []
  {
  }

  lemma LastOfLast(s: seq<Key>, x: Key, n: nat)
    requires n > 0
    ensures Last(Last(s, n) + [x], n) == Last(s + [x], n)
  {
  }

  /** The error counter is the number of trailing all-error rounds, the remembered keys the
      last six of theirs. */
  predicate ErrorsSummarized(s: State, past: seq<seq<Item>>)
    requires forall i | 0 <= i < |past| :: |past[i]| > 0
  {
    s.errors == Trailing(past) && s.recent == Last(TrailingKeys(past), 6)
  }

  /** The fields as summaries of the history. */
  predicate Summarizes(s: State, rounds: seq<seq<Item>>) {
    ErrorsSummarized(s, NonEmpty(rounds)) && LongestRun(Flat(rounds), s.streak, s.fingerprint)
  }

  lemma {:induction false} ItemsRun(s: State, items: seq<Item>, more: seq<Item>)
    requires LongestRun(items, s.streak, s.fingerprint)
    ensures var t := AfterItems(s, more);
      LongestRun(items + more, t.streak, t.fingerprint) && t.errors == s.errors && t.recent == s.recent
  {
    if more == [] {
      assert items + more == items;
    } else {
      var init, last := more[..|more| - 1], more[|more| - 1];
      ItemsRun(s, items, init);
      assert items + more == (items + init) + [last];
      ItemRun(AfterItems(s, init), items + init, last);
    }
  }

  lemma ItemRun(s: State, items: seq<Item>, last: Item)
    requires LongestRun(items, s.streak, s.fingerprint)
    ensures LongestRun(items + [last], AfterItem(s, last).streak, AfterItem(s, last).fingerprint)
  {
    var n, all := s.streak, items + [last];
    assert all[|items|] == last;
    assert forall i | 0 <= i < |items| :: all[i] == items[i];
  }

  lemma FlatGrows(rounds: seq<seq<Item>>, round: seq<Item>)
    ensures Flat(rounds + [round]) == Flat(rounds) + round
  {
    assert (rounds + [round])[..|rounds|] == rounds;
  }

  lemma NonEmptyGrows(rounds: seq<seq<Item>>, round: seq<Item>)
    ensures NonEmpty(rounds + [round]) == if round == [] then NonEmpty(rounds) else NonEmpty(rounds) + [round]
  {
    assert (rounds + [round])[..|rounds|] == rounds;
  }

  /** What a round does to the error fields. */
  lemma ErrorsAfterRound(s: State, round: seq<Item>)
    ensures var t, r := AfterItems(s, round), AfterRound(s, round);
      && r.streak == t.streak && r.fingerprint == t.fingerprint
      && (round == [] ==> r.errors == t.errors && r.recent == t.recent)
      && (round != [] && AllFailed(round) ==> r.errors == t.errors + 1 && r.recent == Last(t.recent + [RoundKey(round)], KEPT))
      && (round != [] && !AllFailed(round) ==> r.errors == 0 && r.recent == [])
  {
    hide AfterItems, RoundKey, AllFailed, Last;
  }

  lemma ErrorsGrow(s: State, past: seq<seq<Item>>, round: seq<Item>)
    requires (forall i | 0 <= i < |past| :: |past[i]| > 0) && round != []
    requires ErrorsSummarized(s, past)
    ensures ErrorsSummarized(AfterRound(s, round), past + [round])
  {
    ErrorsAfterRound(s, round);
    AfterItemsKeeps(s, round);
    KeysGrow(past, round);
    LastNone();
    hide AfterItems, RoundKey, AllFailed, TrailingKeys, Trailing, Last, AfterRound;
    if AllFailed(round) {
      LastOfLast(TrailingKeys(past), RoundKey(round), KEPT);
    }
  }

  lemma {:induction false} AfterItemsKeeps(s: State, items: seq<Item>)
    ensures AfterItems(s, items).errors == s.errors && AfterItems(s, items).recent == s.recent
  {
    if items != [] {
      AfterItemsKeeps(s, items[..|items| - 1]);
    }
  }

  lemma RoundSummarized(s: State, rounds: seq<seq<Item>>, round: seq<Item>)
    requires Summarizes(s, rounds)
    ensures Summarizes(AfterRound(s, round), rounds + [round])
  {
    ItemsRun(s, Flat(rounds), round);
    ErrorsAfterRound(s, round);
    FlatGrows(rounds, round);
    NonEmptyGrows(rounds, round);
    hide Flat, LongestRun, AfterItems, AfterRound, NonEmpty, ErrorsSummarized;
    if round != [] {
      ErrorsGrow(s, NonEmpty(rounds), round);
    } else {
      SameErrors(s, AfterRound(s, round), NonEmpty(rounds));
    }
  }

  lemma SameErrors(s: State, t: State, past: seq<seq<Item>>)
    requires (forall i | 0 <= i < |past| :: |past[i]| > 0) && ErrorsSummarized(s, past)
    requires t.errors == s.errors && t.recent == s.recent
    ensures ErrorsSummarized(t, past)
  {
  }

  /** From a fresh detector, after any rounds: the error counter is the number of trailing
      all-error rounds, the remembered keys are the last six of theirs, and the success
      streak is the longest error-free suffix of all results with one fingerprint. */
  lemma {:induction false} DetectorRefinesHistory(rounds: seq<seq<Item>>)
    ensures Summarizes(AfterRounds(FRESH, rounds), rounds)
  {
    if rounds != [] {
      var init, last := rounds[..|rounds| - 1], rounds[|rounds| - 1];
      DetectorRefinesHistory(init);
      RoundSummarized(AfterRounds(FRESH, init), init, last);
      assert rounds == init + [last];
    }
  }

  /** Three all-error rounds with one key at the end of the non-empty ones. */
  predicate ThreeEqualErrors(rounds: seq<seq<Item>>) {
    var past := NonEmpty(rounds);
    && |past| >= 3
    && (forall i | |past| - 3 <= i < |past| :: AllFailed(past[i]))
    && RoundKey(past[|past| - 3]) == RoundKey(past[|past| - 2]) == RoundKey(past[|past| - 1])
  }

  lemma LastThree(past: seq<seq<Item>>)
    ensures Trailing(past) >= 3 <==> |past| >= 3 && forall i | |past| - 3 <= i < |past| :: AllFailed(past[i])
  {
    if Trailing(past) >= 3 {
      forall i | |past| - 3 <= i < |past|
        ensures AllFailed(past[i])
      {
        TrailingRounds(past, i);
      }
    } else {
      TrailingIsLongest(past);
    }
  }

  /** The error break fires exactly when the last three non-empty rounds were all errors
      with equal keys. */
  lemma BreakIffThreeEqualErrors(rounds: seq<seq<Item>>)
    ensures Breaks(AfterRounds(FRESH, rounds)) <==> ThreeEqualErrors(rounds)
  {
    DetectorRefinesHistory(rounds);
    var s, past := AfterRounds(FRESH, rounds), NonEmpty(rounds);
    LastThree(past);
    hide AfterRounds, LongestRun, Flat, Trailing, RoundKey, AllFailed, TrailingKeys, NonEmpty;
    var keys := TrailingKeys(past);
    if |keys| >= 3 {
      KeyAt(past, 0);
      KeyAt(past, 1);
      KeyAt(past, 2);
      assert s.recent[|s.recent| - 1] == keys[|keys| - 1] == RoundKey(past[|past| - 1]);
      assert s.recent[|s.recent| - 2] == keys[|keys| - 2] == RoundKey(past[|past| - 2]);
      assert s.recent[|s.recent| - 3] == keys[|keys| - 3] == RoundKey(past[|past| - 3]);
    }
  }

  /** The success break fires exactly when the last five results are successes with one
      fingerprint. */
  lemma SuccessBreakIffFiveAlike(rounds: seq<seq<Item>>)
    ensures var items := Flat(rounds);
      AfterRounds(FRESH, rounds).streak >= SUCCESS_THRESHOLD <==>
        |items| >= 5 && (forall i | |items| - 5 <= i < |items| ::
          items[i].Succeeded? && items[|items| - 1].Succeeded? && items[i].fingerprint == items[|items| - 1].fingerprint)
  {
    DetectorRefinesHistory(rounds);
    hide AfterRounds, Flat, Trailing, NonEmpty, TrailingKeys;
    var items, s := Flat(rounds), AfterRounds(FRESH, rounds);
    if s.streak < 5 && |items| >= 5 {
      var stop := items[|items| - s.streak - 1];
      if s.streak > 0 {
        assert items[|items| - 1].Succeeded? && Some(items[|items| - 1].fingerprint) == s.fingerprint;
      }
    }
  }

  // ---- Keys --------------------------------------------------------------------------------------

  function CharAt(s: string, k: nat): Option<char> {
    if k < |s| then Some(s[k]) else None
  }

  /** The two texts agree on their first `n` characters. */
  predicate SameStart(x: string, y: string, n: nat) {
    forall k | 0 <= k < n :: CharAt(x, k) == CharAt(y, k)
  }

  lemma ClippedSame(x: string, y: string)
    ensures Clipped(x) == Clipped(y) <==> SameStart(x, y, 50)
  {
    var a, b := Clipped(x), Clipped(y);
    forall k | 0 <= k < 50
      ensures CharAt(a, k) == CharAt(x, k) && CharAt(b, k) == CharAt(y, k)
    {
    }
    if SameStart(x, y, 50) {
      SameText(a, b);
    }
  }

  lemma SameText(a: string, b: string)
    requires |a| <= 50 && |b| <= 50 && forall k | 0 <= k < 50 :: CharAt(a, k) == CharAt(b, k)
    ensures a == b
  {
    assert |a| < 50 ==> CharAt(a, |a|) == CharAt(b, |a|);
    assert |b| < 50 ==> CharAt(a, |b|) == CharAt(b, |b|);
    forall k | 0 <= k < |a| && |a| == |b|
      ensures a[k] == b[k]
    {
      assert CharAt(a, k) == CharAt(b, k);
    }
  }

  /** The digest does not see the order of a batch, but the key does: it also names the
      error that came first. */
  lemma KeysEqualIff(a: seq<Failure>, b: seq<Failure>)
    requires a != [] && b != []
    ensures KeyOf(a) == KeyOf(b) <==> multiset(a) == multiset(b) && SameStart(a[0].error, b[0].error, 50)
    ensures multiset(a) == multiset(b) ==> KeyOf(a).digest == KeyOf(b).digest && KeyOf(a).tools == KeyOf(b).tools
  {
    ClippedSame(a[0].error, b[0].error);
    hide Clipped;
    if multiset(a) == multiset(b) {
      assert forall f :: f in a <==> f in multiset(a);
      assert forall f :: f in b <==> f in multiset(b);
    }
  }

  /** The same two failures in the other order: one digest, two keys. */
  lemma OrderShowsInKey(tool: string, input: string, first: string, second: string)
    requires !SameStart(first, second, 50)
    ensures var a, b := Failure(tool, input, first), Failure(tool, input, second);
      KeyOf([a, b]).digest == KeyOf([b, a]).digest && KeyOf([a, b]) != KeyOf([b, a])
  {
    var a, b := Failure(tool, input, first), Failure(tool, input, second);
    assert multiset([a, b]) == multiset{a, b} == multiset([b, a]);
    KeysEqualIff([a, b], [b, a]);
  }

  // ---- Snapshots ----------------------------------------------------------------------------------

  /** A stored snapshot; what it lacks falls back to a default. */
  datatype Snapshot = Snapshot(
    errors: Option<int>, recent: Option<seq<Key>>, streak: Option<int>,
    fingerprint: Option<string>, tool: Option<string>, summary: Option<string>)

  function Saved(s: State): Snapshot {
    Snapshot(Some(s.errors), Some(s.recent), Some(s.streak), s.fingerprint, s.tool, s.summary)
  }

  function Restored(data: Snapshot): State {
    State(Or(data.errors, 0), Or(data.recent, []), Or(data.streak, 0), data.fingerprint, data.tool, data.summary)
  }

  lemma {:induction false} RoundsInTwo(s: State, before: seq<seq<Item>>, after: seq<seq<Item>>)
    ensures AfterRounds(s, before + after) == AfterRounds(AfterRounds(s, before), after)
  {
    if after == [] {
      assert before + after == before;
    } else {
      var init, last := after[..|after| - 1], after[|after| - 1];
      RoundsInTwo(s, before, init);
      assert (before + after)[..|before + after| - 1] == before + init;
    }
  }

  /** Saving and restoring at any point of a history changes no later verdict: both breaks
      are still the ones the uninterrupted history calls for. */
  lemma RestoringChangesNothing(before: seq<seq<Item>>, after: seq<seq<Item>>)
    ensures var resumed := AfterRounds(Restored(Saved(AfterRounds(FRESH, before))), after);
      && Summarizes(resumed, before + after)
      && (Breaks(resumed) <==> ThreeEqualErrors(before + after))
  {
    hide Summarizes, Breaks, ThreeEqualErrors, AfterRounds;
    RoundsInTwo(FRESH, before, after);
    DetectorRefinesHistory(before + after);
    BreakIffThreeEqualErrors(before + after);
  }

  // ---- The detector ---------------------------------------------------------------------------------

  lemma NextItem(s: State, round: seq<Item>, i: nat)
    requires i < |round|
    ensures AfterItems(s, round[..i + 1]) == AfterItem(AfterItems(s, round[..i]), round[i])
    ensures AllFailed(round[..i + 1]) <==> AllFailed(round[..i]) && round[i].Failed?
    ensures AllFailed(round[..i + 1]) ==> Failures(round[..i + 1]) == Failures(round[..i]) + [round[i].failure]
  {
    assert round[..i + 1] == round[..i] + [round[i]];
    assert round[..i + 1][..i] == round[..i];
  }

  lemma NoItems(s: State)
    ensures AfterItems(s, []) == s && AllFailed([]) && Failures([]) == []
  {
  }

  /** The fields after a round, from those after its items. */
  lemma RoundEnds(s: State, round: seq<Item>)
    ensures AfterRound(s, round) ==
      var t := AfterItems(s, round);
      if round == [] then t
      else if AllFailed(round) then t.(errors := t.errors + 1, recent := Last(t.recent + [KeyOf(Failures(round))], KEPT))
      else t.(errors := 0, recent := [])
  {
    hide AfterItems, Last, KeyOf;
  }

  class ConvergenceDetector {
    const rendering: Rendering
    var totalErrors: int
    var recentErrors: seq<Key>
    var successStreak: int
    var lastFingerprint: Option<string>
    var lastTool: Option<string>
    var lastSummary: Option<string>

    ghost function View(): State
      reads this
    {
      State(totalErrors, recentErrors, successStreak, lastFingerprint, lastTool, lastSummary)
    }

    constructor (rendering: Rendering)
      ensures View() == FRESH && this.rendering == rendering
    {
      this.rendering := rendering;
      totalErrors, recentErrors, successStreak := 0, [], 0;
      lastFingerprint, lastTool, lastSummary := None, None, None;
    }

    method ToSnapshot() returns (data: Snapshot)
      ensures data == Saved(View())
    {
      data := Snapshot(Some(totalErrors), Some(recentErrors), Some(successStreak), lastFingerprint, lastTool, lastSummary);
    }

    method ApplySnapshot(data: Snapshot)
      modifies this
      ensures View() == Restored(data)
    {
      totalErrors := Or(data.errors, 0);
      recentErrors := Or(data.recent, []);
      successStreak := Or(data.streak, 0);
      lastFingerprint, lastTool, lastSummary := data.fingerprint, data.tool, data.summary;
    }

    method UpdateSuccessStreak(fingerprint: string, tool: string, summary: string)
      modifies this
      ensures View() == AfterItem(old(View()), Succeeded(fingerprint, tool, summary))
    {
      if lastFingerprint == Some(fingerprint) {
        successStreak := successStreak + 1;
      } else {
        lastFingerprint := Some(fingerprint);
        successStreak := 1;
      }
      lastTool, lastSummary := Some(tool), Some(summary);
    }

    method ResetSuccessStreak(ghost failure: Failure)
      modifies this
      ensures View() == AfterItem(old(View()), Failed(failure))
    {
      successStreak := 0;
      lastFingerprint, lastTool, lastSummary := None, None, None;
    }

    /** `update_tool_error_tracking`. */
    method UpdateToolErrorTracking(results: seq<ToolResult>, log: seq<LogEntry>)
      modifies this
      ensures View() == AfterRound(old(View()), Round(rendering, results, log))
    {
      hide Observed, EntryFor, KeyOf, AfterRound, AfterItems, AllFailed, Failures, RoundKey, Last;
      ghost var round := Round(rendering, results, log);
      var hasSuccess, hasError := false, false;
      var errors: seq<Failure> := [];
      assert round[..0] == [];
      NoItems(old(View()));
      for i := 0 to |results|
        invariant View() == AfterItems(old(View()), round[..i])
        invariant hasSuccess <==> !AllFailed(round[..i])
        invariant hasError <==> errors != []
        invariant !hasSuccess ==> errors == Failures(round[..i])
      {
        NextItem(old(View()), round, i);
        ItemByEntry(rendering, results, log, i);
        var entry := EntryFor(results, log, i);
        match results[i].parsed {
          case Problem(error) =>
            hasError := true;
            errors := errors + [Failure(ToolName(entry), Input(entry), error)];
            ResetSuccessStreak(errors[|errors| - 1]);
          case Observation(value) =>
            hasSuccess := true;
            UpdateSuccessStreak(rendering.fingerprint(ToolName(entry), Input(entry), value), ToolName(entry),
                                rendering.summary(value));
        }
      }
      assert round[..|round|] == round;
      RoundEnds(old(View()), round);
      if hasSuccess {
        totalErrors := 0;
        recentErrors := [];
      } else if hasError {
        totalErrors := totalErrors + 1;
        recentErrors := Last(recentErrors + [KeyOf(errors)], KEPT);
      }
    }

    static lemma ItemByEntry(r: Rendering, results: seq<ToolResult>, log: seq<LogEntry>, i: nat)
      requires i < |results|
      ensures var e := EntryFor(results, log, i);
        Observed(r, results, log, i) == match results[i].parsed
          case Problem(error) => Failed(Failure(ToolName(e), Input(e), error))
          case Observation(value) => Succeeded(r.fingerprint(ToolName(e), Input(e), value), ToolName(e), r.summary(value))
    {
    }

    method CheckConvergenceBreak() returns (broken: bool)
      ensures broken <==> Breaks(View())
    {
      if totalErrors < 3 || |recentErrors| < 3 {
        return false;
      }
      var n := |recentErrors|;
      return recentErrors[n - 3] == recentErrors[n - 2] == recentErrors[n - 1];
    }

    method CheckRepeatedSuccess() returns (broken: bool)
      ensures broken <==> View().streak >= SUCCESS_THRESHOLD
    {
      broken := !(successStreak < SUCCESS_THRESHOLD);
    }
  }
}

/** The trail of one approval: its states, the legal transition table, and the grammar
    of the answers. */
module ApprovalRecords {
  import opened PythonText

  datatype State =
    | Unset | Requested | Displayed | UserSelected | Parsed
    | Granted | Denied | Propagated | Executed | Skipped

  /** A transition to make, and one that was made. */
  datatype Move = Move(state: State, detail: string)
  datatype Entry = Entry(state: State, detail: string, illegal: bool)

  datatype Trail = Trail(state: State, rawInput: string, verdict: string, entries: seq<Entry>)

  const EMPTY := Trail(Unset, "", "", [])
  const ALLOW := "allow"
  const DENY := "deny"
  const ALWAYS := "always"

  predicate Legal(from: State, to: State) {
    match from
    case Unset => to == Requested
    case Requested => to in {Displayed, Granted, Denied}
    case Displayed => to in {UserSelected, Denied}
    case UserSelected => to == Parsed
    case Parsed => to in {Granted, Denied}
    case Granted => to in {Propagated, Executed, Skipped}
    case Denied => to == Skipped
    case Propagated => to in {Executed, Skipped}
    case Executed => false
    case Skipped => false
  }

  /** One transition: legal or not, it is recorded. */
  function Extended(t: Trail, m: Move): Trail {
    Trail(m.state,
          if m.state == UserSelected then m.detail else t.rawInput,
          if m.state == Parsed then m.detail else t.verdict,
          t.entries + [Entry(m.state, m.detail, !Legal(t.state, m.state))])
  }

  function Followed(t: Trail, moves: seq<Move>): Trail {
    if moves == [] then t else Extended(Followed(t, moves[..|moves| - 1]), moves[|moves| - 1])
  }

  lemma FollowedOnce(t: Trail, moves: seq<Move>, m: Move)
    ensures Followed(t, moves + [m]) == Extended(Followed(t, moves), m)
  {
    assert (moves + [m])[..|moves|] == moves;
  }

  lemma {:induction false} FollowedTwice(t: Trail, first: seq<Move>, second: seq<Move>)
    ensures Followed(t, first + second) == Followed(Followed(t, first), second)
  {
    if second == [] {
      assert first + second == first;
    } else {
      var init, last := second[..|second| - 1], second[|second| - 1];
      assert first + second == (first + init) + [last];
      FollowedOnce(t, first + init, last);
      FollowedTwice(t, first, init);
    }
  }

  /** Every move of the path is legal where it is made. */
  predicate LegalPath(from: State, moves: seq<Move>)
    decreases |moves|
  {
    moves != [] ==> Legal(from, moves[0].state) && LegalPath(moves[0].state, moves[1..])
  }

  predicate Clean(t: Trail) {
    forall e | e in t.entries :: !e.illegal
  }

  function EndState(from: State, moves: seq<Move>): State {
    if moves == [] then from else moves[|moves| - 1].state
  }

  lemma {:induction false} PathSplits(from: State, moves: seq<Move>, m: Move)
    ensures LegalPath(from, moves + [m]) <==> LegalPath(from, moves) && Legal(EndState(from, moves), m.state)
    decreases |moves|
  {
    if moves != [] {
      assert (moves + [m])[1..] == moves[1..] + [m];
      PathSplits(moves[0].state, moves[1..], m);
    } else {
      assert (moves + [m])[1..] == [];
    }
  }

  /** The illegal flags tell exactly whether the table was followed: a clean trail stays
      clean along a path if and only if the path is legal. */
  lemma {:induction false} CleanIffLegal(t: Trail, moves: seq<Move>)
    ensures Followed(t, moves).state == EndState(t.state, moves)
    ensures Clean(Followed(t, moves)) <==> Clean(t) && LegalPath(t.state, moves)
  {
    if moves != [] {
      var init, last := moves[..|moves| - 1], moves[|moves| - 1];
      CleanIffLegal(t, init);
      PathSplits(t.state, init, last);
      assert moves == init + [last];
      var before := Followed(t, init);
      var entry := Entry(last.state, last.detail, !Legal(before.state, last.state));
      assert Followed(t, moves).entries == before.entries + [entry];
      assert entry in Followed(t, moves).entries;
      assert forall e :: e in Followed(t, moves).entries <==> e in before.entries || e == entry;
    }
  }

  /** Every flag of a trail built from nothing is the table's verdict on its two ends, and
      the trail's state, raw input and verdict are those of its last such entries. */
  ghost predicate Faithful(t: Trail) {
    && (forall i, j | 0 <= i < j < |t.entries| && j == i + 1 ::
          t.entries[j].illegal == !Legal(t.entries[i].state, t.entries[j].state))
    && (t.entries != [] ==> t.entries[0].illegal == (t.entries[0].state != Requested))
    && t.state == (if t.entries == [] then Unset else t.entries[|t.entries| - 1].state)
    && t.rawInput == LastDetail(t.entries, UserSelected)
    && t.verdict == LastDetail(t.entries, Parsed)
  }

  function LastDetail(entries: seq<Entry>, state: State): string {
    if entries == [] then ""
    else if entries[|entries| - 1].state == state then entries[|entries| - 1].detail
    else LastDetail(entries[..|entries| - 1], state)
  }

  lemma ExtendedFaithful(t: Trail, m: Move)
    requires Faithful(t)
    ensures Faithful(Extended(t, m))
  {
    var u := Extended(t, m);
    assert u.entries[..|u.entries| - 1] == t.entries;
  }

  // ---- Answers -------------------------------------------------------------------------------

  /** `parse_decision`. */
  function ParseDecision(raw: string): (string, string) {
    var text := Lower(Strip(raw));
    if text in ["a", "always"] then ("a", ALWAYS)
    else if text in ["", "y", "yes"] then ("y", ALLOW)
    else ("n", DENY)
  }

  /** `VERDICT_BY_DECISION`, anything unknown counting as a denial. */
  function VerdictOf(decision: string): string {
    if decision == "y" then ALLOW else if decision == "a" then ALWAYS else DENY
  }

  /** The console grammar and the IPC table agree on every raw input. */
  lemma ParserMatchesTable(raw: string)
    ensures VerdictOf(ParseDecision(raw).0) == ParseDecision(raw).1
    ensures ParseDecision(raw).0 in ["y", "n", "a"]
  {
  }

  class ApprovalRecord {
    var state: State
    var rawInput: string
    var verdict: string
    var entries: seq<Entry>

    ghost function View(): Trail
      reads this
    {
      Trail(state, rawInput, verdict, entries)
    }

    constructor ()
      ensures View() == EMPTY && Faithful(View())
    {
      state, rawInput, verdict, entries := Unset, "", "", [];
    }

    /** `transition`: never refuses, flags what the table does not allow. */
    method Transition(to: State, detail: string)
      modifies this
      ensures View() == Extended(old(View()), Move(to, detail))
      ensures old(Faithful(View())) ==> Faithful(View())
    {
      ghost var before := View();
      var legal := Legal(state, to);
      entries := entries + [Entry(to, detail, !legal)];
      if to == UserSelected {
        rawInput := detail;
      } else if to == Parsed {
        verdict := detail;
      }
      state := to;
      if Faithful(before) {
        ExtendedFaithful(before, Move(to, detail));
      }
    }
  }
}

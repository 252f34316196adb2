/** The conversation history: trimming to the latest messages, and the repair that drops
    tool results whose tool use is gone. */
module Conversation {
  import opened Prelude

  datatype Role = User | Assistant | OtherRole(name: string)
  datatype Block = ToolUse(id: string) | ToolResult(toolUseId: Option<string>) | OtherBlock(text: string)
  datatype Content = Text(text: string) | Blocks(blocks: seq<Block>)
  datatype Message = Message(role: Role, content: Content, origin: string)

  /** Input that a user really gave, by its recorded origin. */
  predicate Marked(m: Message) { m.role == User && m.origin == "user_input" }

  function ToolIds(blocks: seq<Block>): set<string> {
    set b | b in blocks && b.ToolUse? :: b.id
  }

  /** The tool uses a message may answer: those of the assistant message right before it. */
  function IdsBefore(messages: seq<Message>, i: nat): set<string>
    requires i < |messages|
  {
    if i > 0 && messages[i - 1].role == Assistant && messages[i - 1].content.Blocks?
    then ToolIds(messages[i - 1].content.blocks) else {}
  }

  predicate Orphan(b: Block, ids: set<string>) {
    b.ToolResult? && (b.toolUseId.None? || b.toolUseId.value !in ids)
  }

  function Surviving(blocks: seq<Block>, ids: set<string>): (kept: seq<Block>)
    ensures forall b :: b in kept <==> b in blocks && !Orphan(b, ids)
  {
    if blocks == [] then []
    else
      var init, last := Surviving(blocks[..|blocks| - 1], ids), blocks[|blocks| - 1];
      assert blocks == blocks[..|blocks| - 1] + [last];
      if Orphan(last, ids) then init else init + [last]
  }

  predicate Repairable(m: Message) { m.role == User && m.content.Blocks? }

  /** What becomes of message `i`: kept, narrowed to its paired blocks, or dropped. */
  function Repair(messages: seq<Message>, i: nat): Option<Message>
    requires i < |messages|
  {
    var m := messages[i];
    if !Repairable(m) then Some(m)
    else
      var kept := Surviving(m.content.blocks, IdsBefore(messages, i));
      if kept == [] then None else Some(m.(content := Blocks(kept)))
  }

  function RepairedUpTo(messages: seq<Message>, n: nat): seq<Message>
    requires n <= |messages|
  {
    if n == 0 then []
    else
      var before := RepairedUpTo(messages, n - 1);
      if Repair(messages, n - 1).Some? then before + [Repair(messages, n - 1).value] else before
  }

  function Repaired(messages: seq<Message>): seq<Message> {
    RepairedUpTo(messages, |messages|)
  }

  // ---- The repair re-establishes pairing -----------------------------------------------------

  /** Every tool result names a tool use of the assistant message right before it. */
  predicate Paired(messages: seq<Message>) {
    forall i, b | 0 <= i < |messages| && Repairable(messages[i]) && b in messages[i].content.blocks ::
      !Orphan(b, IdsBefore(messages, i))
  }

  predicate NoEmptyUser(messages: seq<Message>) {
    forall i | 0 <= i < |messages| && Repairable(messages[i]) :: messages[i].content.blocks != []
  }

  /** Assistant messages stay where they are, so what was right before stays right before. */
  lemma {:induction false} AssistantStays(messages: seq<Message>, n: nat)
    requires 0 < n <= |messages| && messages[n - 1].role == Assistant
    ensures var out := RepairedUpTo(messages, n); out != [] && out[|out| - 1] == messages[n - 1]
  {
  }

  lemma PairedGrows(out: seq<Message>, m: Message)
    requires Paired(out) && NoEmptyUser(out)
    requires Repairable(m) ==> m.content.blocks != [] && forall b | b in m.content.blocks :: !Orphan(b, IdsBefore(out + [m], |out|))
    ensures Paired(out + [m]) && NoEmptyUser(out + [m])
  {
    var all := out + [m];
    forall i, b | 0 <= i < |all| && Repairable(all[i]) && b in all[i].content.blocks
      ensures !Orphan(b, IdsBefore(all, i))
    {
      if i < |out| {
        assert all[i] == out[i] && IdsBefore(all, i) == IdsBefore(out, i);
      }
    }
  }

  lemma {:induction false} RepairPairs(messages: seq<Message>, n: nat)
    requires n <= |messages|
    ensures Paired(RepairedUpTo(messages, n)) && NoEmptyUser(RepairedUpTo(messages, n))
  {
    if n > 0 {
      RepairPairs(messages, n - 1);
      var out, r := RepairedUpTo(messages, n - 1), Repair(messages, n - 1);
      if n > 1 && messages[n - 2].role == Assistant {
        AssistantStays(messages, n - 1);
      }
      if r.Some? {
        assert Repairable(r.value) ==> IdsBefore(messages, n - 1) <= IdsBefore(out + [r.value], |out|);
        hide Paired, NoEmptyUser, IdsBefore;
        PairedGrows(out, r.value);
      }
    }
  }

  lemma {:induction false} AllSurvive(blocks: seq<Block>, ids: set<string>)
    ensures Surviving(blocks, ids) == blocks <==> forall b | b in blocks :: !Orphan(b, ids)
    ensures |Surviving(blocks, ids)| <= |blocks|
  {
    if blocks != [] {
      var init, last := blocks[..|blocks| - 1], blocks[|blocks| - 1];
      AllSurvive(init, ids);
      assert blocks == init + [last];
      if Surviving(blocks, ids) == blocks {
        assert last in blocks;
      }
    }
  }

  /** The repair changes nothing exactly when the history is paired and holds no empty
      user message; so a second repair changes nothing. */
  lemma {:induction false} RepairedIffPaired(messages: seq<Message>)
    ensures Repaired(messages) == messages <==> Paired(messages) && NoEmptyUser(messages)
    ensures Repaired(Repaired(messages)) == Repaired(messages)
  {
    RepairPairs(messages, |messages|);
    if Repaired(messages) != messages {
      var again := Repaired(messages);
      PairedUnchanged(again, |again|);
    }
    if Paired(messages) && NoEmptyUser(messages) {
      PairedUnchanged(messages, |messages|);
    }
  }

  lemma {:induction false} PairedUnchanged(messages: seq<Message>, n: nat)
    requires n <= |messages| && Paired(messages) && NoEmptyUser(messages)
    ensures RepairedUpTo(messages, n) == messages[..n]
  {
    if n > 0 {
      PairedUnchanged(messages, n - 1);
      var m := messages[n - 1];
      if Repairable(m) {
        AllSurvive(m.content.blocks, IdsBefore(messages, n - 1));
      }
      assert messages[..n] == messages[..n - 1] + [m];
    }
  }

  // ---- Nothing else is lost, and nothing is moved -------------------------------------------

  /** The positions whose messages stay. */
  function Sources(messages: seq<Message>, n: nat): (kept: seq<nat>)
    requires n <= |messages|
    ensures forall k | 0 <= k < |kept| :: kept[k] < n
  {
    if n == 0 then []
    else if Repair(messages, n - 1).Some? then Sources(messages, n - 1) + [n - 1]
    else Sources(messages, n - 1)
  }

  predicate Increasing(s: seq<nat>) {
    forall i, j | 0 <= i < j < |s| :: s[i] < s[j]
  }

  lemma {:induction false} SourcesIncrease(messages: seq<Message>, n: nat)
    requires n <= |messages|
    ensures Increasing(Sources(messages, n))
  {
    hide Repair;
    if n > 0 {
      SourcesIncrease(messages, n - 1);
    }
  }

  lemma {:induction false} RepairedFromSources(messages: seq<Message>, n: nat)
    requires n <= |messages|
    ensures var out, kept := RepairedUpTo(messages, n), Sources(messages, n);
      |out| == |kept| && forall k | 0 <= k < |out| :: Some(out[k]) == Repair(messages, kept[k])
  {
    hide Repair;
    if n > 0 {
      RepairedFromSources(messages, n - 1);
    }
  }

  /** A message is dropped only when every block of it is an orphan. */
  lemma DroppedIsOrphaned(messages: seq<Message>, i: nat)
    requires i < |messages| && Repair(messages, i).None?
    ensures Repairable(messages[i])
    ensures forall b | b in messages[i].content.blocks :: Orphan(b, IdsBefore(messages, i))
  {
    var m := messages[i];
    forall b | b in m.content.blocks
      ensures Orphan(b, IdsBefore(messages, i))
    {
      assert b !in Surviving(m.content.blocks, IdsBefore(messages, i));
    }
  }

  lemma {:induction false} DroppedAreOrphaned(messages: seq<Message>, n: nat)
    requires n <= |messages|
    ensures forall i | 0 <= i < n && i !in Sources(messages, n) ::
      Repairable(messages[i]) && forall b | b in messages[i].content.blocks :: Orphan(b, IdsBefore(messages, i))
  {
    hide Repair, Orphan, Repairable, IdsBefore;
    if n > 0 {
      DroppedAreOrphaned(messages, n - 1);
      if Repair(messages, n - 1).None? {
        DroppedIsOrphaned(messages, n - 1);
      } else {
        KeptSources(messages, n);
      }
    }
  }

  lemma KeptSources(messages: seq<Message>, n: nat)
    requires 0 < n <= |messages| && Repair(messages, n - 1).Some?
    ensures n - 1 in Sources(messages, n)
    ensures forall i | i in Sources(messages, n - 1) :: i in Sources(messages, n)
  {
    assert Sources(messages, n)[|Sources(messages, n - 1)|] == n - 1;
  }

  /** Messages keep their order; each one that stays is the original, its user blocks
      narrowed to those that are not orphans, in order; and each one that goes is a user
      message made of orphans only. */
  lemma {:induction false} OrderKept(messages: seq<Message>, n: nat)
    requires n <= |messages|
    ensures var out, kept := RepairedUpTo(messages, n), Sources(messages, n);
      && |out| == |kept| && Increasing(kept)
      && (forall k | 0 <= k < |out| :: Some(out[k]) == Repair(messages, kept[k]))
      && (forall i | 0 <= i < n && i !in kept ::
            Repairable(messages[i]) && forall b | b in messages[i].content.blocks :: Orphan(b, IdsBefore(messages, i)))
  {
    SourcesIncrease(messages, n);
    RepairedFromSources(messages, n);
    DroppedAreOrphaned(messages, n);
  }

  // ---- The user-first rule --------------------------------------------------------------------

  predicate UserFirst(messages: seq<Message>) {
    messages != [] ==> messages[0].role == User
  }

  /** A user message with nothing but tool results. */
  predicate OnlyResults(m: Message) {
    Repairable(m) && forall b | b in m.content.blocks :: b.ToolResult?
  }

  /** How many messages at the front consist of tool results only. */
  function BareFront(messages: seq<Message>): (n: nat)
    ensures n <= |messages|
    ensures forall i | 0 <= i < n :: OnlyResults(messages[i])
    ensures n < |messages| ==> !OnlyResults(messages[n])
  {
    if messages == [] || !OnlyResults(messages[0]) then 0 else BareFront(messages[1..]) + 1
  }

  lemma {:induction false} ResultsGo(blocks: seq<Block>)
    requires forall b | b in blocks :: b.ToolResult?
    ensures Surviving(blocks, {}) == []
  {
    if blocks != [] {
      ResultsGo(blocks[..|blocks| - 1]);
      assert blocks[|blocks| - 1] in blocks;
    }
  }

  lemma {:induction false} BareFrontGoes(messages: seq<Message>, n: nat)
    requires n <= BareFront(messages)
    ensures RepairedUpTo(messages, n) == []
  {
    if n > 0 {
      BareFrontGoes(messages, n - 1);
      var m, ids := messages[n - 1], IdsBefore(messages, n - 1);
      assert OnlyResults(m) && ids == {};
      ResultsGo(m.content.blocks);
    }
  }

  lemma {:induction false} FrontStays(messages: seq<Message>, n: nat)
    requires BareFront(messages) < n <= |messages|
    ensures var out := RepairedUpTo(messages, n); out != [] && out[0].role == messages[BareFront(messages)].role
  {
    var k := BareFront(messages);
    if n - 1 == k {
      BareFrontGoes(messages, k);
      var m := messages[k];
      if Repairable(m) {
        var b :| b in m.content.blocks && !b.ToolResult?;
        assert b in Surviving(m.content.blocks, IdsBefore(messages, k));
      }
    } else {
      FrontStays(messages, n - 1);
    }
  }

  /** The rule that a user message comes first survives the repair exactly when the run of
      bare tool results at the front is followed by a user message, or by nothing. */
  lemma UserFirstSurvives(messages: seq<Message>)
    ensures var n := BareFront(messages);
      UserFirst(Repaired(messages)) <==> n == |messages| || messages[n].role == User
  {
    var n := BareFront(messages);
    if n == |messages| {
      BareFrontGoes(messages, n);
    } else {
      FrontStays(messages, |messages|);
    }
  }

  // ---- Trimming -------------------------------------------------------------------------------------

  /** The slice `messages[-n:]`, which for 0 is everything. */
  function LastSlice(messages: seq<Message>, n: int): seq<Message> {
    if n > 0 then (if n >= |messages| then messages else messages[|messages| - n..])
    else if -n >= |messages| then [] else messages[-n..]
  }

  function FromUser(messages: seq<Message>): (r: seq<Message>)
    ensures UserFirst(r)
  {
    if messages != [] && messages[0].role != User then FromUser(messages[1..]) else messages
  }

  // ---- Putting the latest input back ----------------------------------------------------------

  /** For each message the repair leaves, the position it had if it is still the same object;
      a user message with a list of blocks is built anew. */
  function Origins(messages: seq<Message>, n: nat): (origins: seq<Option<nat>>)
    requires n <= |messages|
    ensures |origins| == |RepairedUpTo(messages, n)|
    ensures forall o | o in origins && o.Some? :: o.value < n
  {
    if n == 0 then []
    else if Repair(messages, n - 1).None? then Origins(messages, n - 1)
    else Origins(messages, n - 1) + [if Repairable(messages[n - 1]) then None else Some(n - 1)]
  }

  function Shifted(origins: seq<Option<nat>>, offset: nat): (r: seq<Option<nat>>)
    ensures |r| == |origins|
    ensures forall k | 0 <= k < |r| :: r[k] == if origins[k].Some? then Some(origins[k].value + offset) else None
  {
    seq(|origins|, k requires 0 <= k < |origins| => if origins[k].Some? then Some(origins[k].value + offset) else None)
  }

  /** The last marked message. */
  function Latest(messages: seq<Message>): (latest: Option<nat>)
    ensures latest.Some? ==> latest.value < |messages| && Marked(messages[latest.value])
    ensures latest.Some? ==> forall i | latest.value < i < |messages| :: !Marked(messages[i])
    ensures latest.None? ==> forall m | m in messages :: !Marked(m)
  {
    if messages == [] then None
    else if Marked(messages[|messages| - 1]) then Some(|messages| - 1)
    else
      assert messages == messages[..|messages| - 1] + [messages[|messages| - 1]];
      Latest(messages[..|messages| - 1])
  }

  /** Right after the last retained message that is older than the latest input. */
  function Insertion(origins: seq<Option<nat>>, latest: nat): (at: nat)
    ensures at <= |origins|
  {
    if origins == [] then 0
    else
      var last := origins[|origins| - 1];
      if last.Some? && last.value < latest then |origins| else Insertion(origins[..|origins| - 1], latest)
  }

  /** Repeated occurrences of the latest input dropped. */
  function Once(retained: seq<Message>, origins: seq<Option<nat>>, latest: nat): seq<Message>
    requires |origins| == |retained|
  {
    if retained == [] then []
    else
      var n := |retained| - 1;
      var before := Once(retained[..n], origins[..n], latest);
      if origins[n] == Some(latest) && Some(latest) in origins[..n] then before else before + [retained[n]]
  }

  /** `preserve_latest_user_input`. */
  function Preserved(original: seq<Message>, retained: seq<Message>, origins: seq<Option<nat>>): seq<Message>
    requires |origins| == |retained|
  {
    match Latest(original)
    case None => retained
    case Some(latest) =>
      if Some(latest) !in origins then
        var at := Insertion(origins, latest);
        retained[..at] + [original[latest]] + retained[at..]
      else Once(retained, origins, latest)
  }

  function Cut(messages: seq<Message>, maxTurns: int): seq<Message> {
    FromUser(LastSlice(messages, maxTurns * 2))
  }

  /** `_trim`. `native` says that the provider compacts the history. */
  function Trimmed(messages: seq<Message>, maxTurns: int, native: bool): seq<Message> {
    if |messages| <= maxTurns * 2 || native then messages
    else
      var cut := Cut(messages, maxTurns);
      CutIsSuffix(messages, maxTurns);
      Preserved(messages, Repaired(cut), Shifted(Origins(cut, |cut|), |messages| - |cut|))
  }

  lemma CutIsSuffix(messages: seq<Message>, maxTurns: int)
    ensures |Cut(messages, maxTurns)| <= |messages|
    ensures maxTurns > 0 ==> |Cut(messages, maxTurns)| <= maxTurns * 2
    ensures Cut(messages, maxTurns) == messages[|messages| - |Cut(messages, maxTurns)|..]
  {
    FromUserIsSuffix(LastSlice(messages, maxTurns * 2));
  }

  lemma {:induction false} FromUserIsSuffix(messages: seq<Message>)
    ensures |FromUser(messages)| <= |messages|
    ensures FromUser(messages) == messages[|messages| - |FromUser(messages)|..]
  {
    if messages != [] && messages[0].role != User {
      FromUserIsSuffix(messages[1..]);
    }
  }

  lemma {:induction false} RepairedIsNoLonger(messages: seq<Message>, n: nat)
    requires n <= |messages|
    ensures |RepairedUpTo(messages, n)| <= n
  {
    if n > 0 {
      RepairedIsNoLonger(messages, n - 1);
    }
  }

  lemma {:induction false} TextStays(messages: seq<Message>, n: nat, k: nat)
    requires k < n <= |messages| && !Repairable(messages[k])
    ensures Some(k) in Origins(messages, n)
    decreases n
  {
    if k == n - 1 {
      assert Origins(messages, n)[|Origins(messages, n)| - 1] == Some(k);
    } else {
      TextStays(messages, n - 1, k);
      var i :| 0 <= i < |Origins(messages, n - 1)| && Origins(messages, n - 1)[i] == Some(k);
      assert Origins(messages, n)[i] == Some(k);
    }
  }

  /** No message is retained twice, so nothing is dropped as a repetition. */
  predicate Distinct(origins: seq<Option<nat>>) {
    forall i, j | 0 <= i < j < |origins| && origins[i].Some? :: origins[i] != origins[j]
  }

  lemma {:induction false} OriginsDistinct(messages: seq<Message>, n: nat)
    requires n <= |messages|
    ensures Distinct(Origins(messages, n))
  {
    if n > 0 {
      OriginsDistinct(messages, n - 1);
    }
  }

  lemma {:induction false} OnceKeeps(retained: seq<Message>, origins: seq<Option<nat>>, latest: nat)
    requires |origins| == |retained| && Distinct(origins)
    ensures Once(retained, origins, latest) == retained
  {
    if retained != [] {
      var n := |retained| - 1;
      OnceKeeps(retained[..n], origins[..n], latest);
      assert retained == retained[..n] + [retained[n]];
      if Some(latest) in origins[..n] {
        var i :| 0 <= i < n && origins[..n][i] == Some(latest);
        assert origins[i] != origins[n];
      }
    }
  }

  lemma {:induction false} NothingOlder(origins: seq<Option<nat>>, latest: nat)
    requires forall o | o in origins && o.Some? :: o.value >= latest
    ensures Insertion(origins, latest) == 0
  {
    if origins != [] {
      assert origins[|origins| - 1] in origins;
      NothingOlder(origins[..|origins| - 1], latest);
    }
  }

  lemma ShiftedMember(origins: seq<Option<nat>>, offset: nat, k: nat)
    ensures Some(k) in origins ==> Some(k + offset) in Shifted(origins, offset)
    ensures forall o | o in Shifted(origins, offset) && o.Some? :: o.value >= offset
  {
    if Some(k) in origins {
      var i :| 0 <= i < |origins| && origins[i] == Some(k);
      assert Shifted(origins, offset)[i] == Some(k + offset);
    }
  }

  /** The latest input is not in what the slice and the search for a user message leave. */
  predicate LatestCutOff(messages: seq<Message>, maxTurns: int) {
    Latest(messages).Some? && Latest(messages).value < |messages| - |Cut(messages, maxTurns)|
  }

  predicate LatestIsText(messages: seq<Message>) {
    Latest(messages).Some? ==> messages[Latest(messages).value].content.Text?
  }

  lemma PreservedInFront(original: seq<Message>, retained: seq<Message>, origins: seq<Option<nat>>)
    requires |origins| == |retained| && Latest(original).Some?
    requires forall o | o in origins && o.Some? :: o.value > Latest(original).value
    ensures Preserved(original, retained, origins) == [original[Latest(original).value]] + retained
  {
    hide Latest, Once;
    var latest := Latest(original).value;
    NothingOlder(origins, latest);
    assert retained[..0] == [] && retained[0..] == retained;
    hide Insertion;
  }

  lemma PreservedAsIs(original: seq<Message>, retained: seq<Message>, origins: seq<Option<nat>>)
    requires |origins| == |retained|
    requires Latest(original).Some? ==> Some(Latest(original).value) in origins && Distinct(origins)
    ensures Preserved(original, retained, origins) == retained
  {
    hide Latest, Insertion;
    if Latest(original).Some? {
      OnceKeeps(retained, origins, Latest(original).value);
    }
    hide Once, Distinct;
  }

  lemma ShiftedDistinct(origins: seq<Option<nat>>, offset: nat)
    requires Distinct(origins)
    ensures Distinct(Shifted(origins, offset))
  {
  }

  function CutOrigins(messages: seq<Message>, maxTurns: int): (origins: seq<Option<nat>>)
    ensures |origins| == |Repaired(Cut(messages, maxTurns))|
  {
    var cut := Cut(messages, maxTurns);
    CutIsSuffix(messages, maxTurns);
    Shifted(Origins(cut, |cut|), |messages| - |cut|)
  }

  lemma ShiftedRetains(cut: seq<Message>, offset: nat, k: nat)
    requires k < |cut| && !Repairable(cut[k])
    ensures var origins := Shifted(Origins(cut, |cut|), offset);
      Some(k + offset) in origins && Distinct(origins)
  {
    hide Origins, RepairedUpTo;
    TextStays(cut, |cut|, k);
    ShiftedMember(Origins(cut, |cut|), offset, k);
    OriginsDistinct(cut, |cut|);
    ShiftedDistinct(Origins(cut, |cut|), offset);
    hide Distinct, Shifted;
  }

  lemma InsideIsText(messages: seq<Message>, maxTurns: int) returns (k: nat)
    requires Latest(messages).Some? && LatestIsText(messages) && !LatestCutOff(messages, maxTurns)
    ensures var cut := Cut(messages, maxTurns);
      k < |cut| <= |messages| && k + (|messages| - |cut|) == Latest(messages).value && !Repairable(cut[k])
  {
    CutIsSuffix(messages, maxTurns);
    hide Cut;
    var cut := Cut(messages, maxTurns);
    k := Latest(messages).value - (|messages| - |cut|);
    hide Latest;
    assert cut[k] == messages[Latest(messages).value];
  }

  /** The latest input, if it is text and inside the cut, is still the object it was. */
  lemma InsideIsRetained(messages: seq<Message>, maxTurns: int)
    requires Latest(messages).Some? && LatestIsText(messages) && !LatestCutOff(messages, maxTurns)
    ensures Some(Latest(messages).value) in CutOrigins(messages, maxTurns)
    ensures Distinct(CutOrigins(messages, maxTurns))
  {
    hide *;
    var k := InsideIsText(messages, maxTurns);
    var cut := Cut(messages, maxTurns);
    CutOriginsAre(messages, maxTurns);
    ShiftedRetains(cut, |messages| - |cut|, k);
  }

  lemma CutOriginsAre(messages: seq<Message>, maxTurns: int)
    ensures var cut := Cut(messages, maxTurns);
      |cut| <= |messages| && CutOrigins(messages, maxTurns) == Shifted(Origins(cut, |cut|), |messages| - |cut|)
  {
    CutIsSuffix(messages, maxTurns);
    hide Cut, Origins, Shifted;
  }

  lemma OutsideIsOlder(messages: seq<Message>, maxTurns: int)
    requires LatestCutOff(messages, maxTurns)
    ensures forall o | o in CutOrigins(messages, maxTurns) && o.Some? :: o.value > Latest(messages).value
  {
    CutIsSuffix(messages, maxTurns);
    var cut := Cut(messages, maxTurns);
    hide Cut, Origins, Latest;
    ShiftedMember(Origins(cut, |cut|), |messages| - |cut|, 0);
    hide Shifted;
  }

  lemma TrimmedByParts(messages: seq<Message>, maxTurns: int)
    requires |messages| > maxTurns * 2
    ensures Trimmed(messages, maxTurns, false) ==
      Preserved(messages, Repaired(Cut(messages, maxTurns)), CutOrigins(messages, maxTurns))
  {
    hide Cut, Repaired, Origins, Preserved;
  }

  lemma TrimmedUnfolds(messages: seq<Message>, maxTurns: int)
    requires |messages| > maxTurns * 2
    ensures var cut := Cut(messages, maxTurns);
      |cut| <= |messages|
      && Trimmed(messages, maxTurns, false) ==
           Preserved(messages, Repaired(cut), Shifted(Origins(cut, |cut|), |messages| - |cut|))
  {
    CutIsSuffix(messages, maxTurns);
    hide Cut, Repaired, Origins, Preserved, Shifted;
  }

  /** With a latest input that is text, the way inputs are recorded, a trim is the repaired
      cut, preceded by that input if it was cut off. */
  lemma TrimmedIs(messages: seq<Message>, maxTurns: int)
    requires |messages| > maxTurns * 2 && LatestIsText(messages)
    ensures Trimmed(messages, maxTurns, false) ==
      if LatestCutOff(messages, maxTurns) then [messages[Latest(messages).value]] + Repaired(Cut(messages, maxTurns))
      else Repaired(Cut(messages, maxTurns))
  {
    TrimmedByParts(messages, maxTurns);
    var out, origins := Repaired(Cut(messages, maxTurns)), CutOrigins(messages, maxTurns);
    if LatestCutOff(messages, maxTurns) {
      OutsideIsOlder(messages, maxTurns);
      hide *;
      PreservedInFront(messages, out, origins);
    } else {
      if Latest(messages).Some? {
        InsideIsRetained(messages, maxTurns);
      }
      hide *;
      PreservedAsIs(messages, out, origins);
    }
  }

  /** A user message put into a paired history leaves it paired exactly when its own results
      are answered by the message before it, and the message after it has none. */
  lemma InsertedIsPairedIff(history: seq<Message>, at: nat, m: Message)
    requires Paired(history) && at <= |history| && m.role == User
    ensures var out := history[..at] + [m] + history[at..];
      Paired(out) <==>
        && (Repairable(m) ==> forall b | b in m.content.blocks :: !Orphan(b, IdsBefore(out, at)))
        && (at < |history| && Repairable(history[at]) ==> forall b | b in history[at].content.blocks :: !b.ToolResult?)
  {
    var out := history[..at] + [m] + history[at..];
    assert out[at] == m;
    if at < |history| {
      assert out[at + 1] == history[at] && IdsBefore(out, at + 1) == {};
    }
    forall i | 0 <= i < |history| && i != at
      ensures var k := if i < at then i else i + 1; out[k] == history[i] && IdsBefore(out, k) == IdsBefore(history, i)
    {
    }
    if at < |history| && Repairable(history[at]) && Paired(out) {
      forall b | b in history[at].content.blocks
        ensures !b.ToolResult?
      {
        assert !Orphan(b, IdsBefore(out, at + 1));
      }
    }
    InsertedPaired(history, at, m, out);
  }

  lemma InsertedPaired(history: seq<Message>, at: nat, m: Message, out: seq<Message>)
    requires Paired(history) && at <= |history| && out == history[..at] + [m] + history[at..]
    requires forall i | 0 <= i < |history| && i != at ::
      var k := if i < at then i else i + 1; out[k] == history[i] && IdsBefore(out, k) == IdsBefore(history, i)
    ensures (Repairable(m) ==> forall b | b in m.content.blocks :: !Orphan(b, IdsBefore(out, at)))
        && (at < |history| && Repairable(history[at]) ==> forall b | b in history[at].content.blocks :: !b.ToolResult?)
      ==> Paired(out)
  {
    if (Repairable(m) ==> forall b | b in m.content.blocks :: !Orphan(b, IdsBefore(out, at)))
        && (at < |history| && Repairable(history[at]) ==> forall b | b in history[at].content.blocks :: !b.ToolResult?)
    {
      forall k, b | 0 <= k < |out| && Repairable(out[k]) && b in out[k].content.blocks
        ensures !Orphan(b, IdsBefore(out, k))
      {
        if k != at && k != at + 1 {
          var i := if k < at then k else k - 1;
          assert !Orphan(b, IdsBefore(history, i));
        }
      }
    }
  }

  lemma CutOriginsDistinct(messages: seq<Message>, maxTurns: int)
    ensures Distinct(CutOrigins(messages, maxTurns))
  {
    hide *;
    var cut := Cut(messages, maxTurns);
    CutOriginsAre(messages, maxTurns);
    OriginsDistinct(cut, |cut|);
    ShiftedDistinct(Origins(cut, |cut|), |messages| - |cut|);
  }

  /** Where a latest input that is not retained as the same object is put back, its results
      are answered by the message before it and the message after it has none. */
  predicate PutBackPaired(messages: seq<Message>, maxTurns: int)
    requires Latest(messages).Some?
  {
    var input, rest := messages[Latest(messages).value], Repaired(Cut(messages, maxTurns));
    var at := Insertion(CutOrigins(messages, maxTurns), Latest(messages).value);
    var out := rest[..at] + [input] + rest[at..];
    && (Repairable(input) ==> forall b | b in input.content.blocks :: !Orphan(b, IdsBefore(out, at)))
    && (at < |rest| && Repairable(rest[at]) ==> forall b | b in rest[at].content.blocks :: !b.ToolResult?)
  }

  /** On every history longer than the limit: a trim leaves it paired if and only if there is
      no recorded input, it is retained as it was, or it fits where it is put back. */
  lemma TrimmedPairedIff(messages: seq<Message>, maxTurns: int)
    requires |messages| > maxTurns * 2
    ensures Paired(Trimmed(messages, maxTurns, false)) <==>
      || Latest(messages).None?
      || Some(Latest(messages).value) in CutOrigins(messages, maxTurns)
      || PutBackPaired(messages, maxTurns)
  {
    TrimmedByParts(messages, maxTurns);
    CutOriginsDistinct(messages, maxTurns);
    var cut, origins := Cut(messages, maxTurns), CutOrigins(messages, maxTurns);
    var rest := Repaired(cut);
    assert Paired(rest) by { RepairPairs(cut, |cut|); }
    hide Cut, Repaired, Paired, CutOrigins, Insertion, Latest, Trimmed, Distinct, Once, Orphan, IdsBefore;
    if Latest(messages).None? || Some(Latest(messages).value) in origins {
      PreservedAsIs(messages, rest, origins);
    } else {
      InsertedIsPairedIff(rest, Insertion(origins, Latest(messages).value), messages[Latest(messages).value]);
    }
  }

  /** With a latest input that is text a trim leaves a paired history without empty user
      messages, that holds the latest input, within the limit and one more for it. With no
      turns allowed the slice is the whole history, and nothing bounds what is left. */
  lemma TrimmedIsPairedAndShort(messages: seq<Message>, maxTurns: int)
    requires |messages| > maxTurns * 2 && LatestIsText(messages)
    ensures var out := Trimmed(messages, maxTurns, false);
      && Paired(out) && NoEmptyUser(out)
      && (maxTurns > 0 ==> |out| <= maxTurns * 2 + if LatestCutOff(messages, maxTurns) then 1 else 0)
      && (maxTurns == 0 ==> Cut(messages, maxTurns) == FromUser(messages))
  {
    TrimmedIs(messages, maxTurns);
    CutIsSuffix(messages, maxTurns);
    var cut := Cut(messages, maxTurns);
    assert maxTurns == 0 ==> cut == FromUser(messages);
    RepairPairs(cut, |cut|);
    RepairedIsNoLonger(cut, |cut|);
    if LatestCutOff(messages, maxTurns) {
      InFrontIsPaired(Repaired(cut), messages[Latest(messages).value]);
    }
    hide Cut, RepairedUpTo, Trimmed, Paired, NoEmptyUser, Latest;
  }

  lemma InFrontIsPaired(history: seq<Message>, input: Message)
    requires Paired(history) && NoEmptyUser(history) && input.role == User && input.content.Text?
    ensures Paired([input] + history) && NoEmptyUser([input] + history)
  {
    assert history[..0] + [input] + history[0..] == [input] + history;
    if history != [] && Repairable(history[0]) {
      FirstHasNoResults(history);
    }
    InsertedIsPairedIff(history, 0, input);
    var out := [input] + history;
    hide Paired;
    forall i | 0 <= i < |out| && Repairable(out[i])
      ensures out[i].content.blocks != []
    {
      assert i > 0 && out[i] == history[i - 1];
    }
  }

  lemma FirstHasNoResults(history: seq<Message>)
    requires Paired(history) && history != [] && Repairable(history[0])
    ensures forall b | b in history[0].content.blocks :: !b.ToolResult?
  {
    forall b | b in history[0].content.blocks
      ensures !b.ToolResult?
    {
      assert !Orphan(b, IdsBefore(history, 0));
    }
  }

  /** After a trim a user message comes first exactly when the latest input was cut off, and
      so put back in front, or the run of bare tool results at the front of the cut is
      followed by a user message or by nothing. */
  lemma UserFirstAfterTrim(messages: seq<Message>, maxTurns: int)
    requires |messages| > maxTurns * 2 && LatestIsText(messages)
    ensures var cut := Cut(messages, maxTurns);
      var n := BareFront(cut);
      UserFirst(Trimmed(messages, maxTurns, false)) <==>
        LatestCutOff(messages, maxTurns) || n == |cut| || cut[n].role == User
  {
    TrimmedIs(messages, maxTurns);
    UserFirstSurvives(Cut(messages, maxTurns));
    hide Cut, Trimmed, Repaired, BareFront;
  }

  /** It can be lost: with one turn allowed and no recorded input, a history whose last two
      messages are the result of a call cut off and an answer. */
  lemma UserFirstCanBeLost(id: string, text: string)
    ensures var history := [
        Message(User, Text(text), ""), Message(Assistant, Blocks([ToolUse(id)]), ""),
        Message(User, Blocks([ToolResult(Some(id))]), ""), Message(Assistant, Text(text), "")];
      UserFirst(history) && Paired(history) && !UserFirst(Trimmed(history, 1, false))
  {
    var history := [
      Message(User, Text(text), ""), Message(Assistant, Blocks([ToolUse(id)]), ""),
      Message(User, Blocks([ToolResult(Some(id))]), ""), Message(Assistant, Text(text), "")];
    assert history[2..] == [history[2], history[3]];
    var cut := Cut(history, 1);
    assert cut == [history[2], history[3]];
    assert OnlyResults(cut[0]) && !OnlyResults(cut[1]);
    assert BareFront(cut[1..]) == 0;
    assert Latest(history).None?;
    assert id in ToolIds([ToolUse(id)]) by {
      assert ToolUse(id) in [ToolUse(id)];
    }
    UserFirstAfterTrim(history, 1);
  }

  /** A marked input made of blocks is built anew by the repair, not recognized, and put
      back as it was: here as a tool result that answers nothing. */
  lemma MarkedBlocksBreakPairing(id: string, text: string)
    ensures var history := [
        Message(User, Text(text), ""), Message(Assistant, Blocks([ToolUse(id)]), ""),
        Message(User, Blocks([ToolResult(Some(id))]), "user_input")];
      Paired(history) && !Paired(Trimmed(history, 1, false))
  {
    var history := [
      Message(User, Text(text), ""), Message(Assistant, Blocks([ToolUse(id)]), ""),
      Message(User, Blocks([ToolResult(Some(id))]), "user_input")];
    assert id in ToolIds([ToolUse(id)]) by {
      assert ToolUse(id) in [ToolUse(id)];
    }
    assert history[1..] == [history[1], history[2]] && history[1..][1..] == [history[2]];
    assert FromUser([history[2]]) == [history[2]];
    assert FromUser(history[1..]) == FromUser(history[1..][1..]);
    var cut := Cut(history, 1);
    assert cut == [history[2]];
    assert OnlyResults(cut[0]) && BareFront(cut[1..]) == 0 && BareFront(cut) == 1;
    BareFrontGoes(cut, 1);
    assert Repaired(cut) == [] && Latest(history) == Some(2);
    var out := Trimmed(history, 1, false);
    assert out == [history[2]];
    assert Repairable(out[0]) && ToolResult(Some(id)) in out[0].content.blocks;
    assert Orphan(ToolResult(Some(id)), IdsBefore(out, 0));
  }

  class ConversationContext {
    const maxTurns: int
    var messages: seq<Message>

    constructor (maxTurns: int)
      ensures messages == [] && this.maxTurns == maxTurns
    {
      this.maxTurns := maxTurns;
      messages := [];
    }

    /** `_sanitize_tool_pairs`. `origins` says which of the remaining messages are still the
        objects they were. */
    method SanitizeToolPairs() returns (origins: seq<Option<nat>>)
      modifies this
      ensures messages == Repaired(old(messages))
      ensures origins == Origins(old(messages), |old(messages)|)
    {
      var sanitized: seq<Message> := [];
      origins := [];
      for i := 0 to |messages|
        invariant messages == old(messages)
        invariant sanitized == RepairedUpTo(messages, i)
        invariant origins == Origins(messages, i)
      {
        var msg := messages[i];
        if msg.role == User && msg.content.Blocks? {
          var ids: set<string> := {};
          if i > 0 && messages[i - 1].role == Assistant && messages[i - 1].content.Blocks? {
            var previous := messages[i - 1].content.blocks;
            for k := 0 to |previous|
              invariant ids == ToolIds(previous[..k])
            {
              assert previous[..k + 1] == previous[..k] + [previous[k]];
              if previous[k].ToolUse? {
                ids := ids + {previous[k].id};
              }
            }
            assert previous[..|previous|] == previous;
          }
          assert ids == IdsBefore(messages, i);
          var blocks := msg.content.blocks;
          var valid: seq<Block> := [];
          for k := 0 to |blocks|
            invariant valid == Surviving(blocks[..k], ids)
          {
            assert blocks[..k + 1][..k] == blocks[..k];
            if !(blocks[k].ToolResult? && (blocks[k].toolUseId.None? || blocks[k].toolUseId.value !in ids)) {
              valid := valid + [blocks[k]];
            }
          }
          assert blocks[..|blocks|] == blocks;
          if valid != [] {
            sanitized := sanitized + [msg.(content := Blocks(valid))];
            origins := origins + [None];
          }
        } else {
          sanitized := sanitized + [msg];
          origins := origins + [Some(i)];
        }
      }
      messages := sanitized;
    }

    /** `preserve_latest_user_input`, on the retained messages and what they were. */
    static method PreserveLatest(original: seq<Message>, retained: seq<Message>, origins: seq<Option<nat>>)
      returns (result: seq<Message>)
      requires |origins| == |retained|
      ensures result == Preserved(original, retained, origins)
    {
      var latest := Latest(original);
      if latest.None? {
        return retained;
      }
      if Some(latest.value) !in origins {
        var at := 0;
        for i := 0 to |retained|
          invariant at <= i && at == Insertion(origins[..i], latest.value)
        {
          assert origins[..i + 1][..i] == origins[..i];
          if origins[i].Some? && origins[i].value < latest.value {
            at := i + 1;
          }
        }
        assert origins[..|retained|] == origins;
        return retained[..at] + [original[latest.value]] + retained[at..];
      }
      result := [];
      var seen := false;
      for i := 0 to |retained|
        invariant seen <==> Some(latest.value) in origins[..i]
        invariant result == Once(retained[..i], origins[..i], latest.value)
      {
        assert origins[..i + 1] == origins[..i] + [origins[i]];
        assert origins[..i + 1][..i] == origins[..i] && retained[..i + 1][..i] == retained[..i];
        if origins[i] == Some(latest.value) {
          if seen {
            continue;
          }
          seen := true;
        }
        result := result + [retained[i]];
      }
      assert origins[..|retained|] == origins && retained[..|retained|] == retained;
    }

    /** `_trim`. */
    method Trim(native: bool)
      modifies this
      ensures messages == Trimmed(old(messages), maxTurns, native)
    {
      var maxMessages := maxTurns * 2;
      if |messages| <= maxMessages {
        return;
      }
      if native {
        return;
      }
      hide *;
      TrimmedUnfolds(messages, maxTurns);
      CutUnfolds(messages, maxTurns);
      var original := messages;
      messages := LastSlice(messages, maxMessages);
      DropToUser();
      var offset := |original| - |messages|;
      var origins := SanitizeToolPairs();
      messages := PreserveLatest(original, messages, Shifted(origins, offset));
    }

    static lemma CutUnfolds(messages: seq<Message>, maxTurns: int)
      ensures Cut(messages, maxTurns) == FromUser(LastSlice(messages, maxTurns * 2))
    {
    }

    /** The messages before the first one of a user are popped. */
    method DropToUser()
      modifies this
      ensures messages == FromUser(old(messages))
    {
      while messages != [] && messages[0].role != User
        invariant FromUser(messages) == FromUser(old(messages))
        decreases |messages|
      {
        messages := messages[1..];
      }
    }

    /** The ways a message enters: append, then trim. */
    method Add(message: Message, native: bool)
      modifies this
      ensures messages == Trimmed(old(messages) + [message], maxTurns, native)
    {
      messages := messages + [message];
      Trim(native);
    }
  }
}

/** What a trim must keep: everything from the first user message of the last turns on that the
    repair can keep, and the latest input. */
module ConversationTrims {
  import opened Prelude
  import opened Conversation

  /** Where the last turns begin: at `-n` from the end, or for no or fewer turns at `-n` from
      the front. */
  function Begin(length: nat, maxTurns: int): (begin: nat)
    requires length > maxTurns * 2
  {
    if maxTurns > 0 then length - maxTurns * 2
    else if -(maxTurns * 2) <= length then -(maxTurns * 2)
    else length
  }

  /** The first message of a user at `begin` or later, or the end. */
  predicate FirstUser(messages: seq<Message>, begin: nat, k: nat) {
    && begin <= k <= |messages|
    && (forall i | begin <= i < k :: messages[i].role != User)
    && (k < |messages| ==> messages[k].role == User)
  }

  lemma {:induction false} DroppedToUser(messages: seq<Message>, k: nat)
    requires FirstUser(messages, 0, k)
    ensures FromUser(messages) == messages[k..]
    decreases k
  {
    if k > 0 {
      assert messages[0].role != User;
      DroppedToUser(messages[1..], k - 1);
      assert messages[1..][k - 1..] == messages[k..];
    }
  }

  lemma CutFrom(messages: seq<Message>, maxTurns: int, k: nat)
    requires |messages| > maxTurns * 2 && FirstUser(messages, Begin(|messages|, maxTurns), k)
    ensures Cut(messages, maxTurns) == messages[k..]
  {
    var begin := Begin(|messages|, maxTurns);
    var slice := LastSlice(messages, maxTurns * 2);
    assert slice == messages[begin..];
    DroppedToUser(slice, k - begin);
    assert slice[k - begin..] == messages[k..];
  }

  lemma {:induction false} SourcesAre(messages: seq<Message>, n: nat)
    requires n <= |messages|
    ensures forall i :: i in Sources(messages, n) <==> 0 <= i < n && Repair(messages, i).Some?
  {
    hide Repair;
    if n > 0 {
      SourcesAre(messages, n - 1);
      if Repair(messages, n - 1).Some? {
        assert Sources(messages, n)[|Sources(messages, n - 1)|] == n - 1;
        assert forall i :: i in Sources(messages, n) <==> i in Sources(messages, n - 1) || i == n - 1;
      }
    }
  }

  lemma {:induction false} OriginIsPlain(messages: seq<Message>, n: nat, k: nat)
    requires n <= |messages| && Some(k) in Origins(messages, n)
    ensures k < n && !Repairable(messages[k])
    decreases n
  {
    if n > 0 && Some(k) in Origins(messages, n - 1) {
      OriginIsPlain(messages, n - 1, k);
    }
  }

  /** The latest input has to be put back when it was cut off, or when it is a list of blocks,
      which the repair builds anew. */
  predicate PutBack(messages: seq<Message>, k: nat) {
    Latest(messages).Some? && (Latest(messages).value < k || Repairable(messages[Latest(messages).value]))
  }

  lemma OriginsAre(cut: seq<Message>, k: nat)
    ensures Some(k) in Origins(cut, |cut|) <==> k < |cut| && !Repairable(cut[k])
  {
    if k < |cut| && !Repairable(cut[k]) {
      TextStays(cut, |cut|, k);
    }
    if Some(k) in Origins(cut, |cut|) {
      OriginIsPlain(cut, |cut|, k);
    }
    hide Origins, Repairable;
  }

  lemma ShiftedIff(origins: seq<Option<nat>>, offset: nat, n: nat)
    ensures Some(n) in Shifted(origins, offset) <==> n >= offset && Some(n - offset) in origins
  {
    if n >= offset {
      ShiftedMember(origins, offset, n - offset);
    }
    if Some(n) in Shifted(origins, offset) {
      var i :| 0 <= i < |origins| && Shifted(origins, offset)[i] == Some(n);
      assert origins[i] == Some(n - offset);
    }
  }

  lemma CutOriginsFrom(messages: seq<Message>, maxTurns: int, k: nat)
    requires k <= |messages| && Cut(messages, maxTurns) == messages[k..]
    ensures CutOrigins(messages, maxTurns) == Shifted(Origins(messages[k..], |messages| - k), k)
  {
    hide *;
    CutOriginsAre(messages, maxTurns);
    assert |messages[k..]| == |messages| - k;
  }

  lemma PutBackExactly(messages: seq<Message>, maxTurns: int, k: nat)
    requires k <= |messages| && Cut(messages, maxTurns) == messages[k..] && Latest(messages).Some?
    ensures Some(Latest(messages).value) in CutOrigins(messages, maxTurns) <==> !PutBack(messages, k)
    ensures Distinct(CutOrigins(messages, maxTurns))
  {
    hide *;
    CutOriginsFrom(messages, maxTurns, k);
    ShiftedOrigins(messages, k, Latest(messages).value);
    PutBackIs(messages, k);
  }

  lemma PutBackIs(messages: seq<Message>, k: nat)
    requires Latest(messages).Some?
    ensures Latest(messages).value < |messages|
    ensures PutBack(messages, k) <==> Latest(messages).value < k || Repairable(messages[Latest(messages).value])
  {
    hide Latest, Repairable;
  }

  lemma ShiftedOrigins(messages: seq<Message>, k: nat, n: nat)
    requires k <= |messages| && n < |messages|
    ensures var origins := Shifted(Origins(messages[k..], |messages| - k), k);
      Distinct(origins) && (Some(n) in origins <==> n >= k && !Repairable(messages[n]))
  {
    var cut := messages[k..];
    OriginsDistinct(cut, |cut|);
    ShiftedDistinct(Origins(cut, |cut|), k);
    ShiftedIff(Origins(cut, |cut|), k, n);
    hide Origins, Distinct, Shifted, Repairable;
    if n >= k {
      OriginsAre(cut, n - k);
    }
  }

  /** The message at this place, or what the repair of the messages from `k` on leaves of it. */
  predicate Stays(messages: seq<Message>, k: nat, i: int)
    requires k <= |messages|
  {
    k <= i < |messages| && Repair(messages[k..], i - k).Some?
  }

  function Left(messages: seq<Message>, k: nat, i: int): Message
    requires k <= |messages| && Stays(messages, k, i)
  {
    Repair(messages[k..], i - k).value
  }

  function Kept(messages: seq<Message>, k: nat, kept: seq<nat>): (out: seq<Message>)
    requires k <= |messages| && forall j | 0 <= j < |kept| :: Stays(messages, k, kept[j])
    ensures |out| == |kept| && forall j | 0 <= j < |kept| :: out[j] == Left(messages, k, kept[j])
  {
    seq(|kept|, j requires 0 <= j < |kept| => Left(messages, k, kept[j]))
  }

  lemma SourcesFrom(messages: seq<Message>, k: nat) returns (kept: seq<nat>)
    requires k <= |messages|
    ensures var sources := Sources(messages[k..], |messages| - k);
      |kept| == |sources| && forall j | 0 <= j < |kept| :: kept[j] == sources[j] + k
    ensures forall i :: i in kept <==> Stays(messages, k, i)
  {
    var tail := messages[k..];
    var sources := Sources(tail, |tail|);
    SourcesAre(tail, |tail|);
    hide Repair, Sources;
    kept := seq(|sources|, j requires 0 <= j < |sources| => sources[j] + k);
    forall i
      ensures i in kept <==> Stays(messages, k, i)
    {
      if i in kept {
        var j :| 0 <= j < |kept| && kept[j] == i;
        assert sources[j] in sources;
      }
      if Stays(messages, k, i) {
        var j :| 0 <= j < |sources| && sources[j] == i - k;
        assert kept[j] == i;
      }
    }
  }

  lemma {:induction false} OriginsFollow(messages: seq<Message>, n: nat)
    requires n <= |messages|
    ensures |Origins(messages, n)| == |Sources(messages, n)|
    ensures forall j | 0 <= j < |Sources(messages, n)| ::
      Origins(messages, n)[j] == if Repairable(messages[Sources(messages, n)[j]]) then None else Some(Sources(messages, n)[j])
  {
    hide Repair, Repairable;
    if n > 0 {
      OriginsFollow(messages, n - 1);
    }
  }

  lemma {:induction false} InsertionIs(origins: seq<Option<nat>>, latest: nat)
    ensures var at := Insertion(origins, latest);
      && (at > 0 ==> origins[at - 1].Some? && origins[at - 1].value < latest)
      && (forall j | at <= j < |origins| && origins[j].Some? :: origins[j].value >= latest)
  {
    if origins != [] {
      InsertionIs(origins[..|origins| - 1], latest);
    }
  }

  /** Right after the last message that is older and still the object it was. */
  predicate AfterOlder(messages: seq<Message>, kept: seq<nat>, latest: nat, at: nat)
    requires forall j | 0 <= j < |kept| :: kept[j] < |messages|
  {
    && at <= |kept|
    && (at > 0 ==> kept[at - 1] < latest && !Repairable(messages[kept[at - 1]]))
    && (forall j | at <= j < |kept| && kept[j] < latest :: Repairable(messages[kept[j]]))
  }

  /** The origins of what is kept, as places in the whole history. */
  predicate OriginsOf(messages: seq<Message>, kept: seq<nat>, origins: seq<Option<nat>>) {
    && |origins| == |kept|
    && forall j | 0 <= j < |kept| ::
         kept[j] < |messages| && origins[j] == if Repairable(messages[kept[j]]) then None else Some(kept[j])
  }

  lemma CutOriginsFollow(messages: seq<Message>, k: nat, kept: seq<nat>)
    requires k <= |messages|
    requires var sources := Sources(messages[k..], |messages| - k);
      |kept| == |sources| && forall j | 0 <= j < |kept| :: kept[j] == sources[j] + k
    ensures OriginsOf(messages, kept, Shifted(Origins(messages[k..], |messages| - k), k))
  {
    var cut := messages[k..];
    OriginsFollow(cut, |cut|);
    hide Origins, Sources, Repairable;
    var sources := Sources(cut, |cut|);
    forall j | 0 <= j < |kept|
      ensures kept[j] < |messages| && cut[sources[j]] == messages[kept[j]]
    {
    }
  }

  lemma InsertedAfterOlder(messages: seq<Message>, kept: seq<nat>, origins: seq<Option<nat>>, latest: nat)
    requires OriginsOf(messages, kept, origins)
    ensures AfterOlder(messages, kept, latest, Insertion(origins, latest))
  {
    InsertionIs(origins, latest);
    hide Insertion, Repairable;
  }

  lemma RepairedFrom(messages: seq<Message>, k: nat) returns (kept: seq<nat>)
    requires k <= |messages|
    ensures var sources := Sources(messages[k..], |messages| - k);
      |kept| == |sources| && forall j | 0 <= j < |kept| :: kept[j] == sources[j] + k
    ensures Increasing(kept)
    ensures forall i :: i in kept <==> Stays(messages, k, i)
    ensures Repaired(messages[k..]) == Kept(messages, k, kept)
  {
    var tail := messages[k..];
    var sources := Sources(tail, |tail|);
    SourcesIncrease(tail, |tail|);
    RepairedFromSources(tail, |tail|);
    kept := SourcesFrom(messages, k);
    hide Repair, Sources, RepairedUpTo;
    var out := RepairedUpTo(tail, |tail|);
    forall j | 0 <= j < |out|
      ensures out[j] == Kept(messages, k, kept)[j]
    {
      assert Some(out[j]) == Repair(tail, sources[j]);
      assert kept[j] - k == sources[j];
    }
  }

  lemma PreservedFrom(messages: seq<Message>, k: nat, kept: seq<nat>, out: seq<Message>, origins: seq<Option<nat>>)
    returns (at: nat)
    requires |out| == |kept| && OriginsOf(messages, kept, origins)
    requires Latest(messages).Some? ==>
      Distinct(origins) && (Some(Latest(messages).value) in origins <==> !PutBack(messages, k))
    ensures at <= |out| && Preserved(messages, out, origins) ==
      out[..at] + (if PutBack(messages, k) then [messages[Latest(messages).value]] else []) + out[at..]
    ensures PutBack(messages, k) ==> AfterOlder(messages, kept, Latest(messages).value, at)
  {
    assert |origins| == |out|;
    hide Latest, Insertion, Once, OriginsOf, AfterOlder, Distinct, Repairable;
    at := 0;
    if PutBack(messages, k) {
      at := Insertion(origins, Latest(messages).value);
      InsertedAfterOlder(messages, kept, origins, Latest(messages).value);
    } else {
      PreservedAsIs(messages, out, origins);
      assert out[..0] + [] + out[0..] == out;
    }
  }

  /** A trim leaves, in order, exactly what the repair keeps of the messages from the first user
      message of the last turns on, and puts the latest input, where it has to be put back,
      after what is older. */
  lemma TrimKeeps(messages: seq<Message>, maxTurns: int, k: nat) returns (kept: seq<nat>, at: nat)
    requires |messages| > maxTurns * 2 && FirstUser(messages, Begin(|messages|, maxTurns), k)
    ensures Increasing(kept)
    ensures forall i :: i in kept <==> Stays(messages, k, i)
    ensures var out := Kept(messages, k, kept);
      at <= |out| && Trimmed(messages, maxTurns, false) ==
        out[..at] + (if PutBack(messages, k) then [messages[Latest(messages).value]] else []) + out[at..]
    ensures forall j | 0 <= j < |kept| :: kept[j] < |messages|
    ensures PutBack(messages, k) ==> AfterOlder(messages, kept, Latest(messages).value, at)
  {
    CutFrom(messages, maxTurns, k);
    kept := RepairedFrom(messages, k);
    assert forall j | 0 <= j < |kept| :: kept[j] in kept && Stays(messages, k, kept[j]);
    hide *;
    TrimmedByParts(messages, maxTurns);
    CutOriginsFrom(messages, maxTurns, k);
    CutOriginsFollow(messages, k, kept);
    if Latest(messages).Some? {
      PutBackExactly(messages, maxTurns, k);
    }
    at := PreservedFrom(messages, k, kept, Repaired(messages[k..]), CutOrigins(messages, maxTurns));
  }

  predicate AllText(messages: seq<Message>) {
    forall i | 0 <= i < |messages| :: messages[i].content.Text?
  }

  /** A history of text is kept word for word from there on, with the latest input in front if
      that lies before it. */
  lemma TextTrimKeeps(messages: seq<Message>, maxTurns: int, k: nat)
    requires |messages| > maxTurns * 2 && FirstUser(messages, Begin(|messages|, maxTurns), k) && AllText(messages)
    ensures Trimmed(messages, maxTurns, false) ==
      (if Latest(messages).Some? && Latest(messages).value < k then [messages[Latest(messages).value]] else [])
      + messages[k..]
  {
    CutFrom(messages, maxTurns, k);
    TextUnrepaired(messages[k..]);
    assert LatestIsText(messages);
    hide *;
    TrimmedIs(messages, maxTurns);
    CutOffExactly(messages, maxTurns, k);
  }

  lemma CutOffExactly(messages: seq<Message>, maxTurns: int, k: nat)
    requires k <= |messages| && Cut(messages, maxTurns) == messages[k..]
    ensures LatestCutOff(messages, maxTurns) <==> Latest(messages).Some? && Latest(messages).value < k
    ensures [] + messages[k..] == messages[k..]
  {
    hide Cut, Latest;
  }

  lemma TextUnrepaired(messages: seq<Message>)
    requires AllText(messages)
    ensures Repaired(messages) == messages
  {
    RepairedIffPaired(messages);
    hide Repaired, IdsBefore, Orphan;
  }
}

/** The approval lock: a thread lock taken through the worker threads of the event loop,
    the same threads that run the prompts. Gates may be cancelled at any point. */
module ApprovalLock {
  import opened Prelude

  /** A gate, in the event loop: waiting for its acquire (which may have succeeded without
      the gate having seen it), cancelled while waiting, in its body, waiting for its
      prompt there, or over. */
  datatype Task =
    | Awaiting(granted: bool)
    | Late(granted: bool)
    | Body(asked: bool)
    | Asking
    | Finished

  datatype Job = AcquireJob(id: nat) | PromptJob(id: nat)

  /** `grants` and `releases` are the history of the lock. */
  datatype System = System(
    tasks: seq<Task>, lock: Option<nat>, queue: seq<Job>, running: set<Job>, grants: seq<nat>, releases: seq<nat>)

  datatype Action =
    | Submit
    | Begin                     // a free thread takes the first queued job
    | Grant(id: nat)            // a thread blocked in the acquire gets the lock
    | Observe(id: nat)          // the gate sees its acquire done and enters its body
    | Ask(id: nat)              // the body sends its prompt to a thread
    | Answer(id: nat)           // a running prompt ends
    | Finish(id: nat)           // the body ends, and its lock is released
    | Cancel(id: nat)           // while waiting, or in the body
    | ReleaseLate(id: nat)      // the callback left by a cancelled waiter

  const IDLE := System([], None, [], {}, [], [])

  predicate Is(s: System, i: nat, t: Task) { i < |s.tasks| && s.tasks[i] == t }

  predicate InBody(s: System, i: nat) { i < |s.tasks| && (s.tasks[i].Body? || s.tasks[i].Asking?) }

  predicate Enabled(threads: nat, s: System, a: Action) {
    match a
    case Submit => true
    case Begin => s.queue != [] && |s.running| < threads
    case Grant(i) => AcquireJob(i) in s.running && s.lock == None && i < |s.tasks|
    case Observe(i) => Is(s, i, Awaiting(true))
    case Ask(i) => Is(s, i, Body(false))
    case Answer(i) => PromptJob(i) in s.running && i < |s.tasks|
    case Finish(i) => i < |s.tasks| && s.tasks[i].Body?
    case Cancel(i) => i < |s.tasks| && (s.tasks[i].Awaiting? || InBody(s, i))
    case ReleaseLate(i) => Is(s, i, Late(true))
  }

  function Put(s: System, i: nat, t: Task): System
    requires i < |s.tasks|
  {
    s.(tasks := s.tasks[i := t])
  }

  function WithGrant(t: Task): Task {
    match t
    case Awaiting(_) => Awaiting(true)
    case Late(_) => Late(true)
    case _ => t
  }

  /** `release`, whatever the lock's state. */
  function Released(s: System, i: nat): System {
    s.(lock := None, releases := s.releases + [i])
  }

  function Next(threads: nat, s: System, a: Action): System
    requires Enabled(threads, s, a)
  {
    match a
    case Submit => s.(tasks := s.tasks + [Awaiting(false)], queue := s.queue + [AcquireJob(|s.tasks|)])
    case Begin => s.(queue := s.queue[1..], running := s.running + {s.queue[0]})
    case Grant(i) =>
      Put(s, i, WithGrant(s.tasks[i])).(lock := Some(i), running := s.running - {AcquireJob(i)}, grants := s.grants + [i])
    case Observe(i) => Put(s, i, Body(false))
    case Ask(i) => Put(s, i, Asking).(queue := s.queue + [PromptJob(i)])
    case Answer(i) =>
      var t := s.(running := s.running - {PromptJob(i)});
      if s.tasks[i].Asking? then Put(t, i, Body(true)) else t
    case Finish(i) => Released(Put(s, i, Finished), i)
    case Cancel(i) =>
      if s.tasks[i].Awaiting? then Put(s, i, Late(s.tasks[i].granted)) else Released(Put(s, i, Finished), i)
    case ReleaseLate(i) => Released(Put(s, i, Finished), i)
  }

  // ---- Safety ---------------------------------------------------------------------------------

  predicate Pending(s: System, j: Job) { j in s.queue || j in s.running }

  predicate TaskOk(s: System, i: nat)
    requires i < |s.tasks|
  {
    match s.tasks[i]
    case Awaiting(granted) =>
      Pending(s, AcquireJob(i)) == !granted && (s.lock == Some(i)) == granted && !Pending(s, PromptJob(i))
    case Late(granted) =>
      Pending(s, AcquireJob(i)) == !granted && (s.lock == Some(i)) == granted && !Pending(s, PromptJob(i))
    case Body(_) => !Pending(s, AcquireJob(i)) && s.lock == Some(i) && !Pending(s, PromptJob(i))
    case Asking => !Pending(s, AcquireJob(i)) && s.lock == Some(i) && Pending(s, PromptJob(i))
    case Finished => !Pending(s, AcquireJob(i)) && s.lock != Some(i)
  }

  predicate JobsOk(threads: nat, s: System) {
    && NoDuplicates(s.queue)
    && (forall j | j in s.queue :: j !in s.running)
    && (forall j | j in s.queue :: j.id < |s.tasks|)
    && (forall j | j in s.running :: j.id < |s.tasks|)
    && |s.running| <= threads
  }

  predicate HistoryOk(s: System) {
    && NoDuplicates(s.grants) && NoDuplicates(s.releases)
    && (forall i | i in s.releases :: i in s.grants && s.lock != Some(i))
    && (forall i | i in s.grants :: i < |s.tasks| && (s.lock == Some(i) || i in s.releases) && !Pending(s, AcquireJob(i)))
  }

  predicate Inv(threads: nat, s: System) {
    && JobsOk(threads, s)
    && (forall i | 0 <= i < |s.tasks| :: TaskOk(s, i))
    && HistoryOk(s)
    && (s.lock.Some? ==> s.lock.value in s.grants)
  }

  lemma IdleInv(threads: nat)
    ensures Inv(threads, IDLE)
  {
  }

  lemma QueueGrows(queue: seq<Job>, j: Job)
    requires NoDuplicates(queue) && j !in queue
    ensures NoDuplicates(queue + [j])
    ensures forall k :: k in queue + [j] <==> k in queue || k == j
  {
  }

  lemma QueueShrinks(queue: seq<Job>)
    requires NoDuplicates(queue) && queue != []
    ensures NoDuplicates(queue[1..])
    ensures forall k :: k in queue[1..] <==> k in queue && k != queue[0]
  {
  }

  lemma HistoryGrows(h: seq<nat>, i: nat)
    requires NoDuplicates(h) && i !in h
    ensures NoDuplicates(h + [i])
    ensures forall k :: k in h + [i] <==> k in h || k == i
  {
  }

  lemma ReleaseKeeps(threads: nat, s: System, i: nat)
    requires Inv(threads, s) && i < |s.tasks| && s.lock == Some(i) && (InBody(s, i) || Is(s, i, Late(true)))
    ensures Inv(threads, Released(Put(s, i, Finished), i))
  {
    HistoryGrows(s.releases, i);
    var t := Released(Put(s, i, Finished), i);
    hide NoDuplicates;
    assert forall k | 0 <= k < |t.tasks| :: TaskOk(s, k) ==> TaskOk(t, k);
  }

  lemma SubmitKeeps(threads: nat, s: System)
    requires Inv(threads, s)
    ensures Inv(threads, Next(threads, s, Submit))
  {
    QueueGrows(s.queue, AcquireJob(|s.tasks|));
    hide NoDuplicates;
    var t := Next(threads, s, Submit);
    assert forall k | 0 <= k < |s.tasks| :: TaskOk(s, k) ==> TaskOk(t, k);
  }

  lemma BeginKeeps(threads: nat, s: System)
    requires Inv(threads, s) && Enabled(threads, s, Begin)
    ensures Inv(threads, Next(threads, s, Begin))
  {
    QueueShrinks(s.queue);
    assert s.queue[0] in s.queue;
    hide NoDuplicates;
    var t := Next(threads, s, Begin);
    assert forall j :: Pending(t, j) <==> Pending(s, j);
    assert forall k | 0 <= k < |s.tasks| :: TaskOk(s, k) ==> TaskOk(t, k);
  }

  lemma GrantKeeps(threads: nat, s: System, i: nat)
    requires Inv(threads, s) && Enabled(threads, s, Grant(i))
    ensures Inv(threads, Next(threads, s, Grant(i)))
  {
    assert TaskOk(s, i) && i !in s.grants;
    HistoryGrows(s.grants, i);
    hide NoDuplicates;
    var t := Next(threads, s, Grant(i));
    assert forall j :: Pending(t, j) <==> Pending(s, j) && j != AcquireJob(i);
    assert forall k | 0 <= k < |s.tasks| :: TaskOk(s, k) ==> TaskOk(t, k);
  }

  lemma AskKeeps(threads: nat, s: System, i: nat)
    requires Inv(threads, s) && Enabled(threads, s, Ask(i))
    ensures Inv(threads, Next(threads, s, Ask(i)))
  {
    assert TaskOk(s, i);
    QueueGrows(s.queue, PromptJob(i));
    hide NoDuplicates;
    var t := Next(threads, s, Ask(i));
    assert forall k | 0 <= k < |s.tasks| :: TaskOk(s, k) ==> TaskOk(t, k);
  }

  lemma AnswerKeeps(threads: nat, s: System, i: nat)
    requires Inv(threads, s) && Enabled(threads, s, Answer(i))
    ensures Inv(threads, Next(threads, s, Answer(i)))
  {
    assert TaskOk(s, i);
    var t := Next(threads, s, Answer(i));
    assert forall j :: Pending(t, j) <==> Pending(s, j) && j != PromptJob(i);
    hide NoDuplicates;
    assert forall k | 0 <= k < |s.tasks| :: TaskOk(s, k) ==> TaskOk(t, k);
  }

  lemma NextKeeps(threads: nat, s: System, a: Action)
    requires Inv(threads, s) && Enabled(threads, s, a)
    ensures Inv(threads, Next(threads, s, a))
  {
    hide NoDuplicates;
    match a {
      case Submit => SubmitKeeps(threads, s);
      case Begin => BeginKeeps(threads, s);
      case Grant(i) => GrantKeeps(threads, s, i);
      case Observe(i) => assert TaskOk(s, i); WaitingKeeps(threads, s, i, Body(false));
      case Ask(i) => AskKeeps(threads, s, i);
      case Answer(i) => AnswerKeeps(threads, s, i);
      case Finish(i) => assert TaskOk(s, i); ReleaseKeeps(threads, s, i);
      case Cancel(i) =>
        assert TaskOk(s, i);
        if s.tasks[i].Awaiting? {
          WaitingKeeps(threads, s, i, Late(s.tasks[i].granted));
        } else {
          ReleaseKeeps(threads, s, i);
        }
      case ReleaseLate(i) => assert TaskOk(s, i); ReleaseKeeps(threads, s, i);
    }
  }

  lemma WaitingKeeps(threads: nat, s: System, i: nat, task: Task)
    requires Inv(threads, s) && i < |s.tasks| && s.tasks[i].Awaiting?
    requires task == Late(s.tasks[i].granted) || (task == Body(false) && s.tasks[i].granted)
    ensures Inv(threads, Put(s, i, task))
  {
    hide NoDuplicates;
    var t := Put(s, i, task);
    assert forall j :: Pending(t, j) <==> Pending(s, j);
    assert forall k | 0 <= k < |s.tasks| :: TaskOk(s, k) ==> TaskOk(t, k);
  }

  predicate Leads(threads: nat, s: System, a: Action, t: System) {
    Enabled(threads, s, a) && t == Next(threads, s, a)
  }

  predicate Run(threads: nat, states: seq<System>, actions: seq<Action>) {
    && |states| == |actions| + 1
    && states[0] == IDLE
    && forall k {:trigger actions[k]} | 0 <= k < |actions| :: Leads(threads, states[k], actions[k], states[k + 1])
  }

  lemma RunInv(threads: nat, states: seq<System>, actions: seq<Action>, j: nat)
    requires Run(threads, states, actions) && j < |states|
    ensures Inv(threads, states[j])
  {
    hide Inv, Enabled, Next;
    if j == 0 {
      IdleInv(threads);
    } else {
      RunInv(threads, states, actions, j - 1);
      assert Leads(threads, states[j - 1], actions[j - 1], states[j]);
      NextKeeps(threads, states[j - 1], actions[j - 1]);
    }
  }

  /** The gate whose lock an action releases. */
  function ReleasedBy(s: System, a: Action): Option<nat> {
    match a
    case Finish(i) => Some(i)
    case ReleaseLate(i) => Some(i)
    case Cancel(i) => if InBody(s, i) then Some(i) else None
    case _ => None
  }

  ghost predicate Safe(threads: nat, s: System) {
    && (forall i: nat, k: nat :: InBody(s, i) && InBody(s, k) ==> i == k)
    && (forall i: nat :: InBody(s, i) ==> s.lock == Some(i))
    && (forall a :: Enabled(threads, s, a) && ReleasedBy(s, a).Some? ==> s.lock == ReleasedBy(s, a))
    && NoDuplicates(s.grants) && NoDuplicates(s.releases)
    && (forall i: nat :: i in s.releases <==> i in s.grants && s.lock != Some(i))
    && (forall i: nat :: Is(s, i, Finished) ==> s.lock != Some(i) && !Pending(s, AcquireJob(i)))
    && (forall i: nat :: s.lock == Some(i) ==> i < |s.tasks| && (InBody(s, i) || s.tasks[i] in {Awaiting(true), Late(true)}))
  }

  lemma TaskFacts(threads: nat, s: System, i: nat)
    requires Inv(threads, s)
    ensures InBody(s, i) ==> s.lock == Some(i)
    ensures Is(s, i, Late(true)) || Is(s, i, Awaiting(true)) ==> s.lock == Some(i)
    ensures Is(s, i, Finished) ==> s.lock != Some(i) && !Pending(s, AcquireJob(i))
    ensures s.lock == Some(i) ==> i < |s.tasks| && (InBody(s, i) || s.tasks[i] in {Awaiting(true), Late(true)})
  {
    assert i < |s.tasks| ==> TaskOk(s, i);
  }

  /** In every reachable state at most one body runs, and it runs under the lock; an action
      that releases the lock releases the one its gate holds; every successful acquire is
      released exactly once; and no gate that is over holds the lock or may still take it. */
  lemma LockSafety(threads: nat, states: seq<System>, actions: seq<Action>, j: nat)
    requires Run(threads, states, actions) && j < |states|
    ensures Safe(threads, states[j])
  {
    RunInv(threads, states, actions, j);
    var s := states[j];
    forall i: nat
      ensures InBody(s, i) ==> s.lock == Some(i)
      ensures Is(s, i, Late(true)) ==> s.lock == Some(i)
      ensures Is(s, i, Finished) ==> s.lock != Some(i) && !Pending(s, AcquireJob(i))
      ensures s.lock == Some(i) ==> i < |s.tasks| && (InBody(s, i) || s.tasks[i] in {Awaiting(true), Late(true)})
    {
      TaskFacts(threads, s, i);
    }
    hide Run, NoDuplicates, JobsOk, TaskOk, InBody;
    forall a | Enabled(threads, s, a) && ReleasedBy(s, a).Some?
      ensures s.lock == ReleasedBy(s, a)
    {
      ReleaserHolds(threads, s, a);
    }
  }

  lemma ReleaserHolds(threads: nat, s: System, a: Action)
    requires Inv(threads, s) && Enabled(threads, s, a) && ReleasedBy(s, a).Some?
    ensures s.lock == ReleasedBy(s, a)
  {
    TaskFacts(threads, s, ReleasedBy(s, a).value);
    hide Inv;
  }

  // ---- Progress ---------------------------------------------------------------------------------

  /** What remains to be done for a task; and for the whole system. */
  function Left(t: Task): nat {
    match t
    case Awaiting(_) => 5
    case Late(_) => 4
    case Body(asked) => if asked then 1 else 4
    case Asking => 1
    case Finished => 0
  }

  function TotalLeft(tasks: seq<Task>): nat {
    if tasks == [] then 0 else TotalLeft(tasks[..|tasks| - 1]) + Left(tasks[|tasks| - 1])
  }

  function Measure(s: System): nat {
    TotalLeft(s.tasks) + 2 * |s.queue| + |s.running|
  }

  lemma {:induction false} TotalAfterPut(tasks: seq<Task>, i: nat, t: Task)
    requires i < |tasks|
    ensures TotalLeft(tasks[i := t]) == TotalLeft(tasks) - Left(tasks[i]) + Left(t)
  {
    var n := |tasks| - 1;
    if i < n {
      TotalAfterPut(tasks[..n], i, t);
      assert tasks[i := t][..n] == tasks[..n][i := t];
    } else {
      assert tasks[i := t][..n] == tasks[..n];
    }
  }

  /** Everything but a new submission uses up the measure. */
  lemma StepsUseMeasure(threads: nat, s: System, a: Action)
    requires Inv(threads, s) && Enabled(threads, s, a)
    ensures !a.Submit? ==> Measure(Next(threads, s, a)) < Measure(s)
    ensures a.Submit? ==> Measure(Next(threads, s, a)) == Measure(s) + 7
  {
    if a.Submit? || a.Begin? || a.Ask? || a.Answer? {
      JobStepsUseMeasure(threads, s, a);
    } else {
      TaskStepsUseMeasure(threads, s, a);
    }
  }

  lemma JobStepsUseMeasure(threads: nat, s: System, a: Action)
    requires Inv(threads, s) && Enabled(threads, s, a) && (a.Submit? || a.Begin? || a.Ask? || a.Answer?)
    ensures !a.Submit? ==> Measure(Next(threads, s, a)) < Measure(s)
    ensures a.Submit? ==> Measure(Next(threads, s, a)) == Measure(s) + 7
  {
    LeftIs();
    if a.Begin? {
      assert s.queue[0] in s.queue && s.queue[0] !in s.running;
    }
    hide TotalLeft, Left, Inv;
    match a {
      case Submit => SubmitTotal(s.tasks);
      case Begin =>
      case Ask(i) => TotalAfterPut(s.tasks, i, Asking);
      case Answer(i) => TotalAfterPut(s.tasks, i, Body(true));
    }
  }

  lemma TaskStepsUseMeasure(threads: nat, s: System, a: Action)
    requires Enabled(threads, s, a) && (a.Grant? || a.Observe? || a.Finish? || a.Cancel? || a.ReleaseLate?)
    ensures Measure(Next(threads, s, a)) < Measure(s)
  {
    LeftIs();
    hide TotalLeft, Left;
    match a {
      case Grant(i) => TotalAfterPut(s.tasks, i, WithGrant(s.tasks[i]));
      case Observe(i) => TotalAfterPut(s.tasks, i, Body(false));
      case Finish(i) => TotalAfterPut(s.tasks, i, Finished);
      case Cancel(i) =>
        if s.tasks[i].Awaiting? {
          TotalAfterPut(s.tasks, i, Late(s.tasks[i].granted));
        } else {
          TotalAfterPut(s.tasks, i, Finished);
        }
      case ReleaseLate(i) => TotalAfterPut(s.tasks, i, Finished);
    }
  }

  lemma LeftIs()
    ensures forall granted :: Left(Awaiting(granted)) == 5 && Left(Late(granted)) == 4
    ensures Left(Body(false)) == 4 && Left(Body(true)) == 1 && Left(Asking) == 1 && Left(Finished) == 0
  {
  }

  lemma SubmitTotal(tasks: seq<Task>)
    ensures TotalLeft(tasks + [Awaiting(false)]) == TotalLeft(tasks) + 5
  {
    assert (tasks + [Awaiting(false)])[..|tasks|] == tasks;
  }

  /** A run takes at most eight actions per gate submitted: it cannot go on without one
      gate after another being finished. */
  lemma {:induction false} RunsAreShort(threads: nat, states: seq<System>, actions: seq<Action>, j: nat)
    requires Run(threads, states, actions) && j < |states|
    ensures j + Measure(states[j]) <= 8 * |states[j].tasks|
  {
    hide Enabled, Next, Measure, Inv;
    if j == 0 {
      assert Measure(IDLE) == 0 by { IdleMeasure(); }
    } else {
      RunsAreShort(threads, states, actions, j - 1);
      RunInv(threads, states, actions, j - 1);
      var s, a := states[j - 1], actions[j - 1];
      assert Leads(threads, s, a, states[j]);
      StepsUseMeasure(threads, s, a);
      TaskCount(threads, s, a);
    }
  }

  lemma IdleMeasure()
    ensures Measure(IDLE) == 0
  {
  }

  lemma TaskCount(threads: nat, s: System, a: Action)
    requires Enabled(threads, s, a)
    ensures |Next(threads, s, a).tasks| == |s.tasks| + (if a.Submit? then 1 else 0)
  {
  }

  /** Something can still happen without a new call or a cancellation. */
  ghost predicate Moves(threads: nat, s: System) {
    exists a :: Enabled(threads, s, a) && !a.Submit? && !a.Cancel?
  }

  predicate AllFinished(s: System) {
    s.queue == [] && s.running == {} && forall t | t in s.tasks :: t.Finished?
  }

  /** The deadlock: the holder waits for its prompt, the prompt waits for a thread, and
      every thread waits for the lock. */
  predicate Starved(threads: nat, s: System) {
    && s.lock.Some? && Is(s, s.lock.value, Asking) && PromptJob(s.lock.value) in s.queue
    && |s.running| == threads
    && forall j | j in s.running :: j.AcquireJob?
  }

  /** With at least one thread, a state in which nothing can happen is either one where
      everything is finished or exactly that deadlock. */
  lemma StuckExactly(threads: nat, s: System)
    requires Inv(threads, s) && threads > 0
    ensures !Moves(threads, s) <==> AllFinished(s) || Starved(threads, s)
  {
    forall a | Enabled(threads, s, a)
      ensures AllFinished(s) || Starved(threads, s) ==> a.Submit? || a.Cancel?
    {
      NothingMoves(threads, s, a);
    }
    if !AllFinished(s) && !Starved(threads, s) {
      SomethingMoves(threads, s);
    }
  }

  lemma NothingMoves(threads: nat, s: System, a: Action)
    requires Inv(threads, s) && Enabled(threads, s, a)
    ensures AllFinished(s) || Starved(threads, s) ==> a.Submit? || a.Cancel?
  {
    if a.Observe? || a.Ask? || a.Finish? || a.ReleaseLate? {
      TaskFacts(threads, s, a.id);
      assert s.tasks[a.id] in s.tasks;
    }
  }

  lemma QuietIsFinished(threads: nat, s: System)
    requires Inv(threads, s) && s.lock == None && s.queue == [] && s.running == {}
    ensures AllFinished(s)
  {
    forall t | t in s.tasks
      ensures t.Finished?
    {
      var i :| 0 <= i < |s.tasks| && s.tasks[i] == t;
      assert TaskOk(s, i);
    }
  }

  lemma SomethingMoves(threads: nat, s: System)
    requires Inv(threads, s) && threads > 0 && !AllFinished(s) && !Starved(threads, s)
    ensures Moves(threads, s)
  {
    hide NoDuplicates, HistoryOk, AllFinished;
    if p :| p in s.running && p.PromptJob? {
      assert Enabled(threads, s, Answer(p.id));
    } else if s.queue != [] && |s.running| < threads {
      assert Enabled(threads, s, Begin);
    } else if s.lock.Some? {
      HolderMoves(threads, s);
    } else if g :| g in s.running {
      assert Enabled(threads, s, Grant(g.id));
    } else {
      assert s.running == {};
      QuietIsFinished(threads, s);
    }
  }

  lemma HolderMoves(threads: nat, s: System)
    requires Inv(threads, s) && s.lock.Some? && !Starved(threads, s)
    requires forall p | p in s.running :: p.AcquireJob?
    requires s.queue == [] || |s.running| == threads
    ensures Moves(threads, s)
  {
    hide NoDuplicates;
    var i := s.lock.value;
    assert i in s.grants;
    assert TaskOk(s, i);
    match s.tasks[i] {
      case Awaiting(_) => assert Enabled(threads, s, Observe(i));
      case Late(_) => assert Enabled(threads, s, ReleaseLate(i));
      case Body(_) => assert Enabled(threads, s, Finish(i));
      case Asking => assert false;
      case Finished => assert false;
    }
  }

  // ---- The bound ---------------------------------------------------------------------------------

  /** The acquires that are queued or hold a thread. */
  function Outstanding(s: System): set<nat> {
    set j | j in s.running + (set q | q in s.queue) && j.AcquireJob? :: j.id
  }

  lemma StarvedIsFull(threads: nat, s: System)
    requires Inv(threads, s) && Starved(threads, s)
    ensures |Outstanding(s)| >= threads
  {
    var ids := set j | j in s.running && j.AcquireJob? :: j.id;
    IdsOfJobs(s.running);
    assert ids <= Outstanding(s);
    SubsetSize(ids, Outstanding(s));
  }

  lemma {:induction false} IdsOfJobs(jobs: set<Job>)
    requires forall j | j in jobs :: j.AcquireJob?
    ensures |set j | j in jobs && j.AcquireJob? :: j.id| == |jobs|
  {
    var ids := set j | j in jobs && j.AcquireJob? :: j.id;
    if jobs != {} {
      var k :| k in jobs;
      var fewer := jobs - {k};
      IdsOfJobs(fewer);
      assert ids == (set j | j in fewer && j.AcquireJob? :: j.id) + {k.id};
    }
  }

  lemma SomethingMovesBelowBound(threads: nat, s: System)
    requires Inv(threads, s) && threads > 0 && |Outstanding(s)| <= threads - 1
    ensures Moves(threads, s) || AllFinished(s)
  {
    hide Outstanding, Inv;
    StuckExactly(threads, s);
    if Starved(threads, s) {
      StarvedIsFull(threads, s);
      assert false;
    }
  }

  lemma OutstandingIs(s: System, i: nat)
    ensures i in Outstanding(s) <==> Pending(s, AcquireJob(i))
  {
    if Pending(s, AcquireJob(i)) {
      assert AcquireJob(i) in s.running + set q | q in s.queue;
    }
  }

  lemma PendingShrinks(threads: nat, s: System, a: Action, i: nat)
    requires Enabled(threads, s, a) && !a.Submit?
    ensures Pending(Next(threads, s, a), AcquireJob(i)) ==> Pending(s, AcquireJob(i))
  {
    if a.Begin? {
      assert s.queue[0] in s.queue;
    }
  }

  lemma OutstandingShrinks(threads: nat, s: System, a: Action)
    requires Enabled(threads, s, a) && !a.Submit?
    ensures Outstanding(Next(threads, s, a)) <= Outstanding(s)
  {
    hide Outstanding, Enabled, Next, Pending;
    forall i: nat | i in Outstanding(Next(threads, s, a))
      ensures i in Outstanding(s)
    {
      OutstandingIs(Next(threads, s, a), i);
      PendingShrinks(threads, s, a, i);
      OutstandingIs(s, i);
    }
  }

  /** Calls made in a stretch of a run: each adds one gate. */
  function Called(states: seq<System>, i: nat, j: nat): int
    requires i < |states| && j < |states|
  {
    |states[j].tasks| - |states[i].tasks|
  }

  /** Every gate finishes, while calls keep coming: each call is paid for by eight more
      actions, whatever order the actions take and whatever is cancelled; and as long as
      fewer acquires are outstanding than there are threads, something can happen until
      every gate is finished. */
  lemma {:induction false} EveryGateFinishes(threads: nat, states: seq<System>, actions: seq<Action>, i: nat, j: nat)
    requires Run(threads, states, actions) && i <= j < |states| && threads > 0
    requires forall k | i <= k <= j :: |Outstanding(states[k])| <= threads - 1
    ensures Called(states, i, j) >= 0
    ensures j - i + Measure(states[j]) <= Measure(states[i]) + 8 * Called(states, i, j)
    ensures forall k | i <= k <= j :: Moves(threads, states[k]) || AllFinished(states[k])
    decreases j
  {
    hide Enabled, Next, Measure, Inv, Outstanding, Moves, AllFinished;
    RunInv(threads, states, actions, j);
    SomethingMovesBelowBound(threads, states[j]);
    if i < j {
      EveryGateFinishes(threads, states, actions, i, j - 1);
      RunInv(threads, states, actions, j - 1);
      var s, a := states[j - 1], actions[j - 1];
      assert Leads(threads, s, a, states[j]);
      StepsUseMeasure(threads, s, a);
      TaskCount(threads, s, a);
    }
  }

  /** Without further calls the bound, once met, stays met. */
  lemma {:induction false} BoundStaysMet(threads: nat, states: seq<System>, actions: seq<Action>, i: nat, j: nat)
    requires Run(threads, states, actions) && i <= j < |states|
    requires forall k | i <= k < j :: !actions[k].Submit?
    ensures Outstanding(states[j]) <= Outstanding(states[i])
    ensures |Outstanding(states[j])| <= |Outstanding(states[i])|
    decreases j
  {
    hide Enabled, Next, Outstanding;
    if i < j {
      BoundStaysMet(threads, states, actions, i, j - 1);
      assert Leads(threads, states[j - 1], actions[j - 1], states[j]);
      OutstandingShrinks(threads, states[j - 1], actions[j - 1]);
    }
    SubsetSize(Outstanding(states[j]), Outstanding(states[i]));
  }

  // ---- The bound is tight -------------------------------------------------------------------

  ghost predicate Reachable(threads: nat, s: System) {
    exists states: seq<System>, actions: seq<Action> ::
      Run(threads, states, actions) && states[|states| - 1] == s
  }

  lemma ReachNext(threads: nat, s: System, a: Action, t: System)
    requires Reachable(threads, s) && Leads(threads, s, a, t)
    ensures Reachable(threads, t)
  {
    hide Leads;
    var states: seq<System>, actions: seq<Action> :|
      Run(threads, states, actions) && states[|states| - 1] == s;
    var more, acts := states + [t], actions + [a];
    forall k | 0 <= k < |acts|
      ensures Leads(threads, more[k], acts[k], more[k + 1])
    {
      if k < |actions| {
        assert Leads(threads, states[k], actions[k], states[k + 1]);
      }
    }
    assert Run(threads, more, acts);
    assert more[|more| - 1] == t;
  }

  function Waiters(n: nat): seq<Task> { seq(n, _ => Awaiting(false)) }

  function Blocked(n: nat): set<Job> {
    if n == 0 then {} else Blocked(n - 1) + {AcquireJob(n)}
  }

  lemma {:induction false} BlockedJobs(n: nat)
    ensures |Blocked(n)| == n
    ensures forall j :: j in Blocked(n) <==> j.AcquireJob? && 1 <= j.id <= n
  {
    if n > 0 {
      BlockedJobs(n - 1);
    }
  }

  /** Gate 0 in its body, and `n` more acquires each holding a thread. */
  function Crowded(n: nat): System {
    System([Body(false)] + Waiters(n), Some(0), [], Blocked(n), [0], [])
  }

  lemma FirstGateEnters(threads: nat)
    requires threads > 0
    ensures Reachable(threads, Crowded(0))
  {
    assert Run(threads, [IDLE], []);
    assert [IDLE][|[IDLE]| - 1] == IDLE;
    var s1 := System([Awaiting(false)], None, [AcquireJob(0)], {}, [], []);
    var s2 := System([Awaiting(false)], None, [], {AcquireJob(0)}, [], []);
    var s3 := System([Awaiting(true)], Some(0), [], {}, [0], []);
    ReachNext(threads, IDLE, Submit, s1);
    ReachNext(threads, s1, Begin, s2);
    ReachNext(threads, s2, Grant(0), s3);
    assert Crowded(0) == Put(s3, 0, Body(false));
    ReachNext(threads, s3, Observe(0), Crowded(0));
  }

  lemma {:induction false} CrowdReachable(threads: nat, n: nat)
    requires 0 < threads && n <= threads
    ensures Reachable(threads, Crowded(n))
  {
    if n == 0 {
      FirstGateEnters(threads);
    } else {
      CrowdReachable(threads, n - 1);
      BlockedJobs(n - 1);
      var s := Crowded(n - 1);
      var t := Next(threads, s, Submit);
      hide Reachable;
      assert t.queue == [AcquireJob(n)];
      assert t.tasks == Crowded(n).tasks;
      assert Next(threads, t, Begin) == Crowded(n);
      ReachNext(threads, s, Submit, t);
      ReachNext(threads, t, Begin, Crowded(n));
    }
  }

  /** For every number of threads, as many outstanding acquires as threads, ahead of the
      holder's prompt, reach a state in which nothing can happen any more. */
  lemma BoundIsTight(threads: nat)
    requires threads > 0
    ensures exists s :: Reachable(threads, s) && |Outstanding(s)| == threads && !AllFinished(s) && !Moves(threads, s)
  {
    CrowdReachable(threads, threads);
    BlockedJobs(threads);
    var s := Crowded(threads);
    var t := Next(threads, s, Ask(0));
    ReachNext(threads, s, Ask(0), t);
    IdsOfJobs(t.running);
    assert Outstanding(t) == set j | j in t.running && j.AcquireJob? :: j.id;
    ReachableInv(threads, t);
    assert Starved(threads, t);
    hide Reachable, Outstanding, Moves, Inv;
    StuckExactly(threads, t);
    assert !AllFinished(t);
  }

  lemma ReachableInv(threads: nat, s: System)
    requires Reachable(threads, s)
    ensures Inv(threads, s)
  {
    hide Inv;
    var states: seq<System>, actions: seq<Action> :|
      Run(threads, states, actions) && states[|states| - 1] == s;
    RunInv(threads, states, actions, |states| - 1);
  }
}

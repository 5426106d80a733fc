/** Detecting new tips in two threads, and passing them on to the receiving queues in a third. */
module ChainMonitor {
  import opened Basics

  const MAX_BLOCK_WINDOW_SIZE := 10

  datatype Status = IDLE | LISTENING | ACTIVE | TERMINATED

  datatype Message = Tip(hash: Hash) | END_MESSAGE

  datatype Producer = Zmq | Polling

  /** Where the notifying thread is; it holds the lock while it delivers. */
  datatype Notifier =
    | NotStarted
    | AtGuard
    | Waiting
    | Holding(message: Message)
    | Delivering(message: Message, next: nat)
    | Stopped

  /** `checked` are the producers between the membership test of `enqueue` and its lock. */
  datatype State = State(
    status: Status, lastTips: seq<Hash>, queue: seq<Message>, receiving: seq<seq<Message>>,
    checked: map<Producer, Hash>, notifier: Notifier, endsOwed: nat)

  // ---------- The monitor as one thread sees it ----------

  /** `enqueue`, when nobody interferes. */
  function Enqueued(s: State, h: Hash): State {
    if h in s.lastTips then s
    else s.(queue := s.queue + [Tip(h)], lastTips := LastN(s.lastTips + [h], MAX_BLOCK_WINDOW_SIZE))
  }

  function Broadcast(receiving: seq<seq<Message>>, message: Message): (r: seq<seq<Message>>)
    ensures |r| == |receiving| && forall i :: 0 <= i < |r| ==> r[i] == receiving[i] + [message]
  {
    seq(|receiving|, i requires 0 <= i < |receiving| => receiving[i] + [message])
  }

  /** One iteration of `notify_subscribers`. */
  function Notified(s: State): State
    requires s.queue != []
  {
    s.(queue := s.queue[1..], receiving := Broadcast(s.receiving, s.queue[0]))
  }

  class ChainMonitor {
    var status: Status
    var lastTips: seq<Hash>
    var queue: seq<Message>
    var receivingQueues: seq<seq<Message>>

    ghost predicate Valid()
      reads this
    {
      |lastTips| <= MAX_BLOCK_WINDOW_SIZE
    }

    ghost function View(notifier: Notifier): State
      reads this
    {
      State(status, lastTips, queue, receivingQueues, map[], notifier, 0)
    }

    constructor (receivingQueues: seq<seq<Message>>)
      ensures Valid() && View(NotStarted) == Fresh(receivingQueues)
    {
      status, lastTips, queue, this.receivingQueues := IDLE, [], [], receivingQueues;
    }

    method Enqueue(blockHash: Hash) returns (added: bool)
      requires Valid()
      modifies this
      ensures Valid() && added == (blockHash !in old(lastTips))
      ensures forall n: Notifier :: View(n) == Enqueued(old(View(n)), blockHash)
    {
      if blockHash !in lastTips {
        queue := queue + [Tip(blockHash)];
        lastTips := lastTips + [blockHash];
        if |lastTips| > MAX_BLOCK_WINDOW_SIZE {
          lastTips := lastTips[1..];
        }
        added := true;
      } else {
        added := false;
      }
    }

    method NotifyNext()
      requires status != TERMINATED && queue != []
      modifies this
      ensures forall n: Notifier :: View(n) == Notified(old(View(n)))
    {
      var message := queue[0];
      queue := queue[1..];
      for i := 0 to |receivingQueues|
        invariant status == old(status) && lastTips == old(lastTips) && queue == old(queue)[1..]
        invariant |receivingQueues| == |old(receivingQueues)|
        invariant forall k :: 0 <= k < |receivingQueues| ==>
                    receivingQueues[k] == if k < i then old(receivingQueues)[k] + [message] else old(receivingQueues)[k]
      {
        receivingQueues := receivingQueues[i := receivingQueues[i] + [message]];
      }
      assert receivingQueues == Broadcast(old(receivingQueues), message);
    }

    /** Does the action `Listen` where that is enabled, and raises otherwise. */
    method MonitorChain(tip: Hash) returns (r: Result<()>)
      requires Valid() && (status == IDLE ==> lastTips == [])
      modifies this
      ensures Valid()
      ensures forall n: Notifier ::
                var s := old(View(n));
                if Enabled(s, Listen(tip)) then r == Ok(()) && View(n) == After(s, Listen(tip))
                else r == Raised(RuntimeError) && View(n) == s
    {
      if status != IDLE {
        return Raised(RuntimeError);
      }
      status := LISTENING;
      lastTips := lastTips + [tip];
      r := Ok(());
    }

    /** Does the action `Activated` where that is enabled, and raises otherwise; the new notifier is at its guard. */
    method Activate() returns (r: Result<()>)
      modifies this
      ensures var s := old(View(NotStarted));
              if Enabled(s, Activated) then r == Ok(()) && View(AtGuard) == After(s, Activated)
              else r == Raised(RuntimeError) && View(NotStarted) == s
    {
      if status != LISTENING {
        return Raised(RuntimeError);
      }
      status := ACTIVE;
      r := Ok(());
    }

    /** Does the actions `Terminated` and `SendEnd` in turn, wherever the notifier is. */
    method Terminate()
      modifies this
      ensures forall n: Notifier ::
                var s := After(old(View(n)), Terminated);
                Enabled(s, SendEnd) && View(n) == After(s, SendEnd)
    {
      status := TERMINATED;
      queue := queue + [END_MESSAGE];
    }
  }

  // ---------- The threads, one atomic action at a time ----------

  datatype Action =
    | Listen(tip: Hash)
    | Test(who: Producer, hash: Hash)
    | Append(who: Producer)
    | Activated
    | CheckStatus
    | Get
    | Acquire
    | PutNext
    | Release
    | Terminated
    | SendEnd

  function Fresh(receiving: seq<seq<Message>>): State {
    State(IDLE, [], [], receiving, map[], NotStarted, 0)
  }

  predicate Enabled(s: State, a: Action) {
    match a
    case Listen(_) => s.status == IDLE && s.lastTips == []
    case Test(who, _) => s.status != IDLE && who !in s.checked
    case Append(who) => who in s.checked && !s.notifier.Delivering?
    case Activated => s.status == LISTENING && s.notifier.NotStarted?
    case CheckStatus => s.notifier.AtGuard?
    case Get => s.notifier.Waiting? && s.queue != []
    case Acquire => s.notifier.Holding?
    case PutNext => s.notifier.Delivering? && s.notifier.next < |s.receiving|
    case Release => s.notifier.Delivering? && s.notifier.next == |s.receiving|
    case Terminated => true
    case SendEnd => s.endsOwed > 0
  }

  function After(s: State, a: Action): State
    requires Enabled(s, a)
  {
    match a
    case Listen(tip) => s.(status := LISTENING, lastTips := [tip])
    case Test(who, h) => if h in s.lastTips then s else s.(checked := s.checked[who := h])
    case Append(who) =>
      s.(queue := s.queue + [Tip(s.checked[who])],
         lastTips := LastN(s.lastTips + [s.checked[who]], MAX_BLOCK_WINDOW_SIZE),
         checked := s.checked - {who})
    case Activated => s.(status := ACTIVE, notifier := AtGuard)
    case CheckStatus => s.(notifier := if s.status == TERMINATED then Stopped else Waiting)
    case Get => s.(queue := s.queue[1..], notifier := Holding(s.queue[0]))
    case Acquire => s.(notifier := Delivering(s.notifier.message, 0))
    case PutNext =>
      var k := s.notifier.next;
      s.(receiving := s.receiving[k := s.receiving[k] + [s.notifier.message]],
         notifier := Delivering(s.notifier.message, k + 1))
    case Release => s.(notifier := AtGuard)
    case Terminated => s.(status := TERMINATED, endsOwed := s.endsOwed + 1)
    case SendEnd => s.(queue := s.queue + [END_MESSAGE], endsOwed := s.endsOwed - 1)
  }

  /** A test directly followed by its append is one `enqueue` call. */
  lemma EnqueueIsTestThenAppend(s: State, who: Producer, h: Hash)
    requires Enabled(s, Test(who, h)) && !s.notifier.Delivering?
    ensures if h in s.lastTips then After(s, Test(who, h)) == Enqueued(s, h)
            else Enabled(After(s, Test(who, h)), Append(who))
                 && After(After(s, Test(who, h)), Append(who)) == Enqueued(s, h)
  {
    if h !in s.lastTips {
      assert s.checked[who := h] - {who} == s.checked;
    }
  }

  /**
   What happened so far: everything put on the internal queue, everything delivered, every tip seen, and how many tips
   there were when each producer did the test it has passed.
   */
  datatype Trace = Trace(
    s: State, enqueued: seq<Message>, delivered: seq<Message>, tips: seq<Hash>, testedAt: map<Producer, nat>)

  function Extend(t: Trace, a: Action): Trace
    requires Enabled(t.s, a)
  {
    Trace(
      After(t.s, a),
      match a
      case Append(who) => t.enqueued + [Tip(t.s.checked[who])]
      case SendEnd => t.enqueued + [END_MESSAGE]
      case _ => t.enqueued,
      if a.Release? then t.delivered + [t.s.notifier.message] else t.delivered,
      match a
      case Listen(tip) => t.tips + [tip]
      case Append(who) => t.tips + [t.s.checked[who]]
      case _ => t.tips,
      match a
      case Test(who, h) => if h in t.s.lastTips then t.testedAt else t.testedAt[who := |t.tips|]
      case Append(who) => t.testedAt - {who}
      case _ => t.testedAt)
  }

  predicate Runs(t: Trace, actions: seq<Action>)
    decreases |actions|
  {
    actions == [] || (Enabled(t.s, actions[0]) && Runs(Extend(t, actions[0]), actions[1..]))
  }

  function Run(t: Trace, actions: seq<Action>): Trace
    requires Runs(t, actions)
    decreases |actions|
  {
    if actions == [] then t else Run(Extend(t, actions[0]), actions[1..])
  }

  function Start(receiving: seq<seq<Message>>): Trace {
    Trace(Fresh(receiving), [], [], [], map[])
  }

  // ---------- Order ----------

  function InHand(n: Notifier): seq<Message> {
    if n.Holding? || n.Delivering? then [n.message] else []
  }

  /** The queues that already got the message being delivered. */
  predicate Got(n: Notifier, i: nat) {
    n.Delivering? && i < n.next
  }

  ghost predicate InOrder(receiving: seq<seq<Message>>, t: Trace) {
    && t.enqueued == t.delivered + InHand(t.s.notifier) + t.s.queue
    && |t.s.receiving| == |receiving|
    && (t.s.notifier.Delivering? ==> t.s.notifier.next <= |receiving|)
    && forall i :: 0 <= i < |receiving| ==>
         t.s.receiving[i] == receiving[i] + t.delivered + if Got(t.s.notifier, i) then InHand(t.s.notifier) else []
  }

  lemma ActionKeepsOrder(receiving: seq<seq<Message>>, t: Trace, a: Action)
    requires InOrder(receiving, t) && Enabled(t.s, a)
    ensures InOrder(receiving, Extend(t, a))
  {
    var t' := Extend(t, a);
    if a.Get? {
      assert t.s.queue == [t.s.queue[0]] + t.s.queue[1..];
    }
    forall i | 0 <= i < |receiving|
      ensures t'.s.receiving[i] ==
              receiving[i] + t'.delivered + if Got(t'.s.notifier, i) then InHand(t'.s.notifier) else []
    {
      assert receiving[i] + t.delivered + [] == receiving[i] + t.delivered;
      if a.Release? {
        assert receiving[i] + t.delivered + [t.s.notifier.message] ==
               receiving[i] + (t.delivered + [t.s.notifier.message]);
      }
    }
  }

  /**
   Under any interleaving: delivered, in hand and pending messages are those enqueued, in order; every queue gets the
   delivered ones.
   */
  lemma {:induction false} RunKeepsOrder(receiving: seq<seq<Message>>, t: Trace, actions: seq<Action>)
    requires InOrder(receiving, t) && Runs(t, actions)
    ensures InOrder(receiving, Run(t, actions))
    decreases |actions|
  {
    if actions != [] {
      ActionKeepsOrder(receiving, t, actions[0]);
      RunKeepsOrder(receiving, Extend(t, actions[0]), actions[1..]);
    }
  }

  lemma StartsInOrder(receiving: seq<seq<Message>>)
    ensures InOrder(receiving, Start(receiving)) && Windowed(Start(receiving)) && PassedTests(Start(receiving))
  {
    forall i | 0 <= i < |receiving| ensures receiving[i] == receiving[i] + [] + [] {
    }
  }

  // ---------- The window of tips ----------

  /** `last_tips` are the last ten tips seen. */
  ghost predicate Windowed(t: Trace) {
    && t.s.lastTips == LastN(t.tips, MAX_BLOCK_WINDOW_SIZE)
    && (t.s.status == IDLE ==> t.s.lastTips == [] && t.s.checked == map[])
  }

  lemma LastNOfLastN<T>(s: seq<T>, x: T, n: nat)
    ensures LastN(LastN(s, n) + [x], n) == LastN(s + [x], n)
  {
    LastNAppend(s, x, n);
  }

  lemma ActionKeepsWindow(t: Trace, a: Action)
    requires Windowed(t) && Enabled(t.s, a)
    ensures Windowed(Extend(t, a))
  {
    match a
    case Listen(tip) => assert t.tips == [];
    case Append(who) => LastNOfLastN(t.tips, t.s.checked[who], MAX_BLOCK_WINDOW_SIZE);
    case _ =>
  }

  lemma {:induction false} RunKeepsWindow(t: Trace, actions: seq<Action>)
    requires Windowed(t) && Runs(t, actions)
    ensures Windowed(Run(t, actions))
    decreases |actions|
  {
    if actions != [] {
      ActionKeepsWindow(t, actions[0]);
      RunKeepsWindow(Extend(t, actions[0]), actions[1..]);
    }
  }

  /** Equal tips are more than ten enqueues apart. */
  ghost predicate Spaced(tips: seq<Hash>) {
    forall i, j :: 0 <= i < j < |tips| && tips[i] == tips[j] ==> j - i > 10
  }

  lemma SpacedOneMore(tips: seq<Hash>, h: Hash)
    ensures Spaced(tips + [h]) <==> Spaced(tips) && h !in LastN(tips, MAX_BLOCK_WINDOW_SIZE)
  {
    var more := tips + [h];
    var window := LastN(tips, MAX_BLOCK_WINDOW_SIZE);
    assert forall k :: 0 <= k < |window| ==> window[k] == tips[|tips| - |window| + k];
    assert forall m :: |tips| - |window| <= m < |tips| ==> tips[m] in window;
    if Spaced(more) {
      forall i, j | 0 <= i < j < |tips| && tips[i] == tips[j] ensures j - i > 10 {
        assert more[i] == more[j];
      }
      forall k | 0 <= k < |window| ensures window[k] != h {
        assert more[|tips| - |window| + k] == window[k] && more[|tips|] == h;
      }
    }
    if Spaced(tips) && h !in window {
      forall i, j | 0 <= i < j < |more| && more[i] == more[j] ensures j - i > 10 {
        assert j < |tips| ==> tips[i] == tips[j];
      }
    }
  }

  /** Every test that is still to be followed by its append was passed against the last ten tips of that moment. */
  ghost predicate PassedTests(t: Trace) {
    && t.testedAt.Keys == t.s.checked.Keys
    && forall who <- t.testedAt ::
         t.testedAt[who] <= |t.tips| && t.s.checked[who] !in LastN(t.tips[..t.testedAt[who]], MAX_BLOCK_WINDOW_SIZE)
  }

  /** Since the test of this producer the same hash was enqueued by someone else, and not ten tips ago. */
  ghost predicate Overtaken(t: Trace, who: Producer) {
    && who in t.s.checked && who in t.testedAt
    && exists k :: t.testedAt[who] <= k < |t.tips| <= k + 10 && t.tips[k] == t.s.checked[who]
  }

  /** No append comes after the same hash was enqueued since its test. */
  ghost predicate NoneOvertaken(t: Trace, actions: seq<Action>)
    requires Runs(t, actions)
    decreases |actions|
  {
    actions == []
    || ((actions[0].Append? ==> !Overtaken(t, actions[0].who)) && NoneOvertaken(Extend(t, actions[0]), actions[1..]))
  }

  lemma ActionKeepsTests(t: Trace, a: Action)
    requires Windowed(t) && PassedTests(t) && Enabled(t.s, a)
    ensures PassedTests(Extend(t, a))
  {
    var t' := Extend(t, a);
    forall who | who in t'.testedAt
      ensures t'.testedAt[who] <= |t'.tips|
      ensures t'.s.checked[who] !in LastN(t'.tips[..t'.testedAt[who]], MAX_BLOCK_WINDOW_SIZE)
    {
      if a.Test? && a.who == who {
        assert t.tips[..|t.tips|] == t.tips;
      } else {
        assert t'.tips[..t.testedAt[who]] == t.tips[..t.testedAt[who]];
      }
    }
  }

  lemma InLastN<T>(s: seq<T>, k: nat, n: nat)
    requires k < |s| <= k + n
    ensures s[k] in LastN(s, n)
  {
    assert s[k] == LastN(s, n)[k - (|s| - |LastN(s, n)|)];
  }

  /** What passed its test was not among the last ten tips then, so a recent occurrence is later. */
  lemma RecentIsLater(t: Trace, who: Producer, k: nat)
    requires PassedTests(t) && who in t.s.checked && who in t.testedAt
    requires k < |t.tips| <= k + MAX_BLOCK_WINDOW_SIZE && t.tips[k] == t.s.checked[who]
    ensures t.testedAt[who] <= k
  {
    if k < t.testedAt[who] {
      InLastN(t.tips[..t.testedAt[who]], k, MAX_BLOCK_WINDOW_SIZE);
    }
  }

  /** A test no longer holds at its append exactly when the producer was overtaken in between. */
  lemma TestFailsIff(t: Trace, who: Producer)
    requires Windowed(t) && PassedTests(t) && who in t.s.checked
    ensures t.s.checked[who] in t.s.lastTips <==> Overtaken(t, who)
  {
    var h := t.s.checked[who];
    assert who in t.testedAt;
    if h in t.s.lastTips {
      var i :| 0 <= i < |t.s.lastTips| && t.s.lastTips[i] == h;
      var k := |t.tips| - |t.s.lastTips| + i;
      assert t.tips[k] == h;
      RecentIsLater(t, who, k);
    }
    if Overtaken(t, who) {
      var k :| t.testedAt[who] <= k < |t.tips| <= k + MAX_BLOCK_WINDOW_SIZE && t.tips[k] == h;
      InLastN(t.tips, k, MAX_BLOCK_WINDOW_SIZE);
    }
  }

  lemma {:induction false} NeverSpacedAgain(t: Trace, actions: seq<Action>)
    requires Runs(t, actions) && !Spaced(t.tips)
    ensures !Spaced(Run(t, actions).tips)
    decreases |actions|
  {
    if actions != [] {
      var t' := Extend(t, actions[0]);
      if actions[0].Append? || actions[0].Listen? {
        SpacedOneMore(t.tips, t'.tips[|t.tips|]);
      }
      NeverSpacedAgain(t', actions[1..]);
    }
  }

  /**
   Under any interleaving, equal tips are more than ten enqueues apart exactly when no producer appends after being
   overtaken.
   */
  lemma {:induction false} SpacedIff(t: Trace, actions: seq<Action>)
    requires Windowed(t) && PassedTests(t) && Spaced(t.tips) && Runs(t, actions)
    ensures Spaced(Run(t, actions).tips) <==> NoneOvertaken(t, actions)
    decreases |actions|
  {
    if actions != [] {
      var a := actions[0];
      var t' := Extend(t, a);
      ActionKeepsWindow(t, a);
      ActionKeepsTests(t, a);
      if a.Append? {
        SpacedOneMore(t.tips, t.s.checked[a.who]);
        TestFailsIff(t, a.who);
      }
      if a.Append? && t.s.checked[a.who] in t.s.lastTips {
        NeverSpacedAgain(t', actions[1..]);
      } else {
        if a.Listen? {
          assert t.tips == [];
        }
        SpacedIff(t', actions[1..]);
      }
    }
  }

  /** `enqueue` is atomic: no producer tests while another is between its test and its append. */
  predicate AtomicEnqueue(t: Trace, actions: seq<Action>)
    requires Runs(t, actions)
    decreases |actions|
  {
    actions == []
    || ((actions[0].Test? ==> t.s.checked == map[]) && AtomicEnqueue(Extend(t, actions[0]), actions[1..]))
  }

  /** At most one producer is past its test, and nothing was enqueued since. */
  ghost predicate OneTest(t: Trace) {
    && t.testedAt.Keys == t.s.checked.Keys && (t.s.status == IDLE ==> t.s.checked == map[])
    && (forall p, q :: p in t.testedAt && q in t.testedAt ==> p == q)
    && (forall p <- t.testedAt :: t.testedAt[p] == |t.tips|)
  }

  lemma {:induction false} AtomicIsNotOvertaken(t: Trace, actions: seq<Action>)
    requires Runs(t, actions) && OneTest(t) && AtomicEnqueue(t, actions)
    ensures NoneOvertaken(t, actions)
    decreases |actions|
  {
    if actions != [] {
      AtomicIsNotOvertaken(Extend(t, actions[0]), actions[1..]);
    }
  }

  /** With an atomic `enqueue`, equal tips are always more than ten enqueues apart. */
  lemma AtomicEnqueueSpaces(receiving: seq<seq<Message>>, actions: seq<Action>)
    requires Runs(Start(receiving), actions) && AtomicEnqueue(Start(receiving), actions)
    ensures Spaced(Run(Start(receiving), actions).tips)
  {
    AtomicIsNotOvertaken(Start(receiving), actions);
    SpacedIff(Start(receiving), actions);
  }

  lemma SameTipSteps(tip: Hash, h: Hash)
    requires tip != h
    ensures var t0 := Start([]);
            && Enabled(t0.s, Listen(tip)) && var t1 := Extend(t0, Listen(tip));
            && Enabled(t1.s, Test(Zmq, h)) && var t2 := Extend(t1, Test(Zmq, h));
            && Enabled(t2.s, Test(Polling, h)) && var t3 := Extend(t2, Test(Polling, h));
            && Enabled(t3.s, Append(Zmq)) && var t4 := Extend(t3, Append(Zmq));
            && Enabled(t4.s, Append(Polling)) && Extend(t4, Append(Polling)).tips == [tip, h, h]
  {
    hide Runs, Run;
  }

  /** As it is, both producers may pass the test for the same block, which then is enqueued twice in a row. */
  lemma SameTipTwice(tip: Hash, h: Hash)
    requires tip != h
    ensures var actions := [Listen(tip), Test(Zmq, h), Test(Polling, h), Append(Zmq), Append(Polling)];
            Runs(Start([]), actions) && Run(Start([]), actions).tips == [tip, h, h]
  {
    hide Enabled, After, Extend;
    SameTipSteps(tip, h);
    var t1 := Extend(Start([]), Listen(tip));
    var t2 := Extend(t1, Test(Zmq, h));
    var t3 := Extend(t2, Test(Polling, h));
    var t4 := Extend(t3, Append(Zmq));
    var t5 := Extend(t4, Append(Polling));
    assert Runs(t5, []) && Run(t5, []) == t5;
    RunsCons(t4, Append(Polling), []);
    RunsCons(t3, Append(Zmq), [Append(Polling)]);
    RunsCons(t2, Test(Polling, h), [Append(Zmq), Append(Polling)]);
    RunsCons(t1, Test(Zmq, h), [Test(Polling, h), Append(Zmq), Append(Polling)]);
    RunsCons(Start([]), Listen(tip), [Test(Zmq, h), Test(Polling, h), Append(Zmq), Append(Polling)]);
  }

  lemma RunsCons(t: Trace, a: Action, rest: seq<Action>)
    requires Enabled(t.s, a) && Runs(Extend(t, a), rest)
    ensures Runs(t, [a] + rest) && Run(t, [a] + rest) == Run(Extend(t, a), rest)
  {
    assert ([a] + rest)[1..] == rest;
  }

  // ---------- The life cycle ----------

  function Rank(status: Status): nat {
    match status
    case IDLE => 0
    case LISTENING => 1
    case ACTIVE => 2
    case TERMINATED => 3
  }

  function Listens(actions: seq<Action>): nat
    decreases |actions|
  {
    if actions == [] then 0 else (if actions[0].Listen? then 1 else 0) + Listens(actions[1..])
  }

  function Activations(actions: seq<Action>): nat
    decreases |actions|
  {
    if actions == [] then 0 else (if actions[0].Activated? then 1 else 0) + Activations(actions[1..])
  }

  /** The status never goes back, so the monitor starts to listen at most once and starts at most one notifier. */
  lemma {:induction false} StatusAdvances(t: Trace, actions: seq<Action>)
    requires Runs(t, actions)
    ensures Rank(t.s.status) <= Rank(Run(t, actions).s.status)
    ensures Listens(actions) <= if t.s.status == IDLE then 1 else 0
    ensures Activations(actions) <= if t.s.status == IDLE || t.s.status == LISTENING then 1 else 0
    decreases |actions|
  {
    if actions != [] {
      StatusAdvances(Extend(t, actions[0]), actions[1..]);
    }
  }

  /** What holds until the monitor is activated: nobody reads the internal queue. */
  ghost predicate Silent(receiving: seq<seq<Message>>, t: Trace) {
    && t.s.notifier == NotStarted && t.s.status != ACTIVE
    && t.s.receiving == receiving && t.s.queue == t.enqueued && t.delivered == []
  }

  /**
   Exactly until the monitor is activated nothing is delivered: the receiving queues are as they were, and everything
   enqueued waits in order, even when the monitor is terminated.
   */
  lemma {:induction false} SilentUntilActivated(receiving: seq<seq<Message>>, t: Trace, actions: seq<Action>)
    requires Runs(t, actions) && Silent(receiving, t)
    ensures Silent(receiving, Run(t, actions)) <==> Activations(actions) == 0
    decreases |actions|
  {
    if actions != [] {
      var t' := Extend(t, actions[0]);
      if actions[0].Activated? {
        NotifierStays(t', actions[1..]);
      } else {
        SilentUntilActivated(receiving, t', actions[1..]);
      }
    }
  }

  lemma {:induction false} NotifierStays(t: Trace, actions: seq<Action>)
    requires Runs(t, actions) && t.s.notifier != NotStarted
    ensures Run(t, actions).s.notifier != NotStarted
    decreases |actions|
  {
    if actions != [] {
      NotifierStays(Extend(t, actions[0]), actions[1..]);
    }
  }

  // ---------- Termination ----------

  /** Messages the notifier may still deliver once the monitor is terminated. */
  function MayDeliver(n: Notifier): nat {
    if n.Waiting? || n.Holding? || n.Delivering? then 1 else 0
  }

  /** After `terminate` at most one more message is delivered, whatever is pending. */
  lemma {:induction false} TerminatedDeliversAtMostOne(t: Trace, actions: seq<Action>)
    requires Runs(t, actions) && t.s.status == TERMINATED
    ensures |Run(t, actions).delivered| + MayDeliver(Run(t, actions).s.notifier) <=
            |t.delivered| + MayDeliver(t.s.notifier)
    decreases |actions|
  {
    if actions != [] {
      TerminatedDeliversAtMostOne(Extend(t, actions[0]), actions[1..]);
    }
  }

  lemma EndIsLeftBehind(receiving: seq<seq<Message>>, t: Trace, actions: seq<Action>)
    requires InOrder(receiving, t) && Runs(t, actions)
    requires t.s.status == TERMINATED && END_MESSAGE !in t.enqueued
    requires !(t.s.notifier.Waiting? && t.s.queue == [])
    ensures END_MESSAGE !in Run(t, actions).delivered
  {
    TerminatedDeliversAtMostOne(t, actions);
    RunKeepsOrder(receiving, t, actions);
    RunEnqueues(t, actions);
    var t' := Run(t, actions);
    forall i | 0 <= i < |t'.delivered| ensures t'.delivered[i] != END_MESSAGE {
      assert t'.delivered[i] == t'.enqueued[i];
      assert i < |t.enqueued|;
      assert t'.enqueued[i] == t.enqueued[i];
    }
  }

  function BroadcastFrom(receiving: seq<seq<Message>>, k: nat, message: Message): seq<seq<Message>> {
    seq(|receiving|, i requires 0 <= i < |receiving| => if i < k then receiving[i] else receiving[i] + [message])
  }

  lemma {:induction false} DeliveryCompletes(t: Trace) returns (actions: seq<Action>)
    requires t.s.notifier.Delivering? && t.s.notifier.next <= |t.s.receiving|
    ensures Runs(t, actions) && Run(t, actions).delivered == t.delivered + [t.s.notifier.message]
    ensures Run(t, actions).s == t.s.(
              notifier := AtGuard, receiving := BroadcastFrom(t.s.receiving, t.s.notifier.next, t.s.notifier.message))
    decreases |t.s.receiving| - if t.s.notifier.Delivering? then t.s.notifier.next else 0
  {
    var a := if t.s.notifier.next < |t.s.receiving| then PutNext else Release;
    var rest := [];
    if t.s.notifier.next < |t.s.receiving| {
      rest := DeliveryCompletes(Extend(t, a));
    }
    var k, m := t.s.notifier.next, t.s.notifier.message;
    assert k < |t.s.receiving| ==>
        BroadcastFrom(t.s.receiving[k := t.s.receiving[k] + [m]], k + 1, m) == BroadcastFrom(t.s.receiving, k, m);
    assert k == |t.s.receiving| ==> BroadcastFrom(t.s.receiving, k, m) == t.s.receiving;
    RunsCons(t, a, rest);
    actions := [a] + rest;
  }

  /** An iteration of the notifier without interference is one `NotifyNext`. */
  lemma NotifyIsARun(t: Trace) returns (actions: seq<Action>)
    requires t.s.notifier.AtGuard? && t.s.status != TERMINATED && t.s.queue != []
    ensures Runs(t, actions) && Run(t, actions).s == Notified(t.s)
  {
    var t1 := Extend(t, CheckStatus);
    var t2 := Extend(t1, Get);
    var t3 := Extend(t2, Acquire);
    var rest := DeliveryCompletes(t3);
    RunsCons(t2, Acquire, rest);
    RunsCons(t1, Get, [Acquire] + rest);
    RunsCons(t, CheckStatus, [Get] + ([Acquire] + rest));
    actions := [CheckStatus] + ([Get] + ([Acquire] + rest));
    assert BroadcastFrom(t.s.receiving, 0, t.s.queue[0]) == Broadcast(t.s.receiving, t.s.queue[0]);
  }

  lemma EndArrives(t: Trace) returns (actions: seq<Action>)
    requires t.s.notifier.Waiting? && t.s.queue == [] && t.s.endsOwed > 0
    ensures Runs(t, actions) && END_MESSAGE in Run(t, actions).delivered
  {
    var t1 := Extend(t, SendEnd);
    var t2 := Extend(t1, Get);
    var t3 := Extend(t2, Acquire);
    var rest := DeliveryCompletes(t3);
    RunsCons(t2, Acquire, rest);
    RunsCons(t1, Get, [Acquire] + rest);
    RunsCons(t, SendEnd, [Get] + ([Acquire] + rest));
    actions := [SendEnd] + ([Get] + ([Acquire] + rest));
  }

  /**
   `END_MESSAGE` can still arrive exactly when the notifier was waiting on an empty queue at the moment of
   termination.
   */
  lemma EndCanArriveIff(receiving: seq<seq<Message>>, t: Trace)
    requires InOrder(receiving, t) && t.s.status == TERMINATED && t.s.endsOwed > 0 && END_MESSAGE !in t.enqueued
    ensures (exists actions :: Runs(t, actions) && END_MESSAGE in Run(t, actions).delivered)
            <==> t.s.notifier.Waiting? && t.s.queue == []
  {
    if t.s.notifier.Waiting? && t.s.queue == [] {
      var actions := EndArrives(t);
    } else {
      forall actions | Runs(t, actions) ensures END_MESSAGE !in Run(t, actions).delivered {
        EndIsLeftBehind(receiving, t, actions);
      }
    }
  }

  lemma {:induction false} RunEnqueues(t: Trace, actions: seq<Action>)
    requires Runs(t, actions)
    ensures t.enqueued <= Run(t, actions).enqueued
    decreases |actions|
  {
    if actions != [] {
      RunEnqueues(Extend(t, actions[0]), actions[1..]);
    }
  }

  /** While the notifier delivers one message it holds the lock: only end messages are put on the queue. */
  lemma {:induction false} LockExcludesTips(t: Trace, actions: seq<Action>)
    requires Runs(t, actions) && t.s.notifier.Delivering? && Release !in actions
    ensures t.enqueued <= Run(t, actions).enqueued
    ensures forall k :: |t.enqueued| <= k < |Run(t, actions).enqueued| ==> Run(t, actions).enqueued[k] == END_MESSAGE
    ensures Run(t, actions).s.notifier.Delivering? && Run(t, actions).delivered == t.delivered
    decreases |actions|
  {
    if actions != [] {
      assert actions[0] in actions;
      LockExcludesTips(Extend(t, actions[0]), actions[1..]);
    }
  }

  /** A hash is remembered exactly when it is one of the last ten tips. */
  lemma RemembersTen(t: Trace, h: Hash)
    requires Windowed(t)
    ensures h in t.s.lastTips <==> exists k :: 0 <= k < |t.tips| <= k + 10 && t.tips[k] == h
  {
    var n := |t.tips| - |t.s.lastTips|;
    assert forall k :: 0 <= k < |t.s.lastTips| ==> t.s.lastTips[k] == t.tips[n + k];
    if k :| 0 <= k < |t.tips| <= k + 10 && t.tips[k] == h {
      assert t.s.lastTips[k - n] == h;
    }
  }
}

/** The streaming consumer on one partition: dispatch or dead-letter, then commit, with a
    crash possible between any two steps. */
module Ingestion {
  datatype Message = Valid | Poison

  /** Idle between messages; holding a fetched message; holding one that is handled but
      not yet committed. */
  datatype Phase = Idle | Holding | Handled

  datatype Consumer = Consumer(committed: nat, phase: Phase, dispatched: seq<nat>, dlq: seq<nat>, crashes: nat)

  datatype Event =
    | Fetch
    | Submit(accepted: bool)
    | SendToDlq
    | Commit
    | Crash

  const NEW := Consumer(0, Idle, [], [], 0)

  /** The message in hand is the one at the committed offset: every message is committed
      before the next is fetched. */
  predicate Enabled(c: Consumer, log: seq<Message>, e: Event) {
    match e
    case Fetch => c.phase.Idle? && c.committed < |log|
    case Submit(_) => c.phase.Holding? && c.committed < |log| && log[c.committed].Valid?
    case SendToDlq => c.phase.Holding? && c.committed < |log| && log[c.committed].Poison?
    case Commit => c.phase.Handled?
    case Crash => true
  }

  /** A refused submission is tried again; a crash forgets everything but the broker's
      committed offset and what was already dispatched or dead-lettered. */
  function Step(c: Consumer, e: Event): Consumer {
    match e
    case Fetch => c.(phase := Holding)
    case Submit(accepted) =>
      if accepted then c.(phase := Handled, dispatched := c.dispatched + [c.committed]) else c
    case SendToDlq => c.(phase := Handled, dlq := c.dlq + [c.committed])
    case Commit => c.(phase := Idle, committed := c.committed + 1)
    case Crash => c.(phase := Idle, crashes := c.crashes + 1)
  }

  ghost predicate Runs(c: Consumer, log: seq<Message>, events: seq<Event>) {
    events == []
    || (Runs(c, log, events[..|events| - 1]) && Enabled(After(c, events[..|events| - 1]), log, events[|events| - 1]))
  }

  function After(c: Consumer, events: seq<Event>): Consumer {
    if events == [] then c else Step(After(c, events[..|events| - 1]), events[|events| - 1])
  }

  // ---------------------------------------------------------------- the program

  /** The steps of one message: as many refusals as the dispatcher gives before it has
      room, or the dead-letter topic, and then the commit. */
  function Script(message: Message, refusals: nat): seq<Event> {
    if message.Poison? then [Fetch, SendToDlq, Commit]
    else [Fetch] + seq(refusals, _ => Submit(false)) + [Submit(true), Commit]
  }

  class KafkaConsumer {
    const log: seq<Message>
    var committed: nat
    var dispatched: seq<nat>
    var dlq: seq<nat>
    ghost var crashes: nat

    constructor (log: seq<Message>)
      ensures this.log == log && Value() == NEW
    {
      this.log, committed, dispatched, dlq, crashes := log, 0, [], [], 0;
    }

    ghost function Value(): Consumer
      reads this
    {
      Consumer(committed, Idle, dispatched, dlq, crashes)
    }

    /** One turn of the consuming loop, not interrupted. */
    method Consume(refusals: nat)
      requires committed < |log|
      modifies this
      ensures Runs(old(Value()), log, Script(log[old(committed)], refusals))
      ensures Value() == After(old(Value()), Script(log[old(committed)], refusals))
      ensures committed == old(committed) + 1 && crashes == old(crashes)
      ensures log[old(committed)].Valid? ==> dispatched == old(dispatched) + [old(committed)] && dlq == old(dlq)
      ensures log[old(committed)].Poison? ==> dispatched == old(dispatched) && dlq == old(dlq) + [old(committed)]
    {
      hide After, Runs;
      ghost var start, events := Value(), [Fetch];
      FirstStep(start, log);
      if log[committed] == Poison {
        dlq := dlq + [committed];
        NextStep(start, log, events, SendToDlq);
        NextStep(start, log, events + [SendToDlq], Commit);
        assert events + [SendToDlq] + [Commit] == Script(log[committed], refusals);
        committed := committed + 1;
        return;
      }
      var tries := 0;
      while tries < refusals
        invariant 0 <= tries <= refusals && Value() == start
        invariant events == [Fetch] + seq(tries, _ => Submit(false))
        invariant Runs(start, log, events) && After(start, events) == start.(phase := Holding)
      {
        NextStep(start, log, events, Submit(false));
        events := events + [Submit(false)];
        tries := tries + 1;
      }
      dispatched := dispatched + [committed];
      NextStep(start, log, events, Submit(true));
      NextStep(start, log, events + [Submit(true)], Commit);
      assert events + [Submit(true)] + [Commit] == Script(log[committed], refusals);
      committed := committed + 1;
    }
  }

  lemma FirstStep(c: Consumer, log: seq<Message>)
    requires Enabled(c, log, Fetch)
    ensures Runs(c, log, [Fetch]) && After(c, [Fetch]) == Step(c, Fetch)
  {
    assert [Fetch][..0] == [];
  }

  lemma NextStep(c: Consumer, log: seq<Message>, events: seq<Event>, e: Event)
    requires Runs(c, log, events) && Enabled(After(c, events), log, e)
    ensures Runs(c, log, events + [e]) && After(c, events + [e]) == Step(After(c, events), e)
  {
    assert (events + [e])[..|events|] == events;
  }

  // ---------------------------------------------------------------- what was delivered

  /** The offsets below `n` that hold the given kind of message, in order. */
  function Offsets(log: seq<Message>, kind: Message, n: nat): (s: seq<nat>)
    requires n <= |log|
    ensures forall k: nat :: k in s <==> k < n && log[k] == kind
  {
    if n == 0 then [] else Offsets(log, kind, n - 1) + if log[n - 1] == kind then [n - 1] else []
  }

  /** A delivery sequence without its immediate repetitions. */
  function Collapse(s: seq<nat>): seq<nat> {
    if |s| <= 1 then s
    else
      var head := s[..|s| - 1];
      if head[|head| - 1] == s[|s| - 1] then Collapse(head) else Collapse(head) + [s[|s| - 1]]
  }

  lemma CollapseLast(s: seq<nat>)
    requires |s| > 1
    ensures var head, last := s[..|s| - 1], s[|s| - 1];
      Collapse(s) == if head[|head| - 1] == last then Collapse(head) else Collapse(head) + [last]
  {
  }

  lemma CollapseShort(s: seq<nat>)
    requires |s| <= 1
    ensures Collapse(s) == s
  {
  }

  lemma {:induction false} CollapseEnd(s: seq<nat>)
    requires s != []
    ensures Collapse(s) != [] && Collapse(s)[|Collapse(s)| - 1] == s[|s| - 1]
  {
    hide Collapse;
    if |s| == 1 {
      CollapseShort(s);
    } else {
      CollapseEnd(s[..|s| - 1]);
      CollapseLast(s);
    }
  }

  lemma {:induction false} CollapseShrinks(s: seq<nat>)
    ensures |Collapse(s)| <= |s|
  {
    hide Collapse;
    if |s| <= 1 {
      CollapseShort(s);
    } else {
      CollapseShrinks(s[..|s| - 1]);
      CollapseLast(s);
    }
  }

  lemma {:induction false} CollapseElement(s: seq<nat>, x: nat)
    ensures x in Collapse(s) <==> x in s
  {
    hide Collapse;
    if |s| <= 1 {
      CollapseShort(s);
    } else {
      var head, last := s[..|s| - 1], s[|s| - 1];
      CollapseElement(head, x);
      CollapseLast(s);
      assert s == head + [last];
      assert head[|head| - 1] in head;
    }
  }

  /** Collapsing keeps the elements and the last of them. */
  lemma CollapseSame(s: seq<nat>)
    ensures forall x :: x in Collapse(s) <==> x in s
    ensures s != [] ==> Collapse(s) != [] && Collapse(s)[|Collapse(s)| - 1] == s[|s| - 1]
    ensures |Collapse(s)| <= |s|
  {
    hide Collapse;
    forall x ensures x in Collapse(s) <==> x in s {
      CollapseElement(s, x);
    }
    CollapseShrinks(s);
    if s != [] {
      CollapseEnd(s);
    }
  }

  predicate EndsWith(s: seq<nat>, x: nat) { s != [] && s[|s| - 1] == x }

  /** How many of the deliveries are repetitions. */
  function Excess(s: seq<nat>): int { |s| - |Collapse(s)| }

  lemma CollapseAppend(s: seq<nat>, x: nat)
    ensures Collapse(s + [x]) == if EndsWith(s, x) then Collapse(s) else Collapse(s) + [x]
    ensures Excess(s + [x]) == Excess(s) + if EndsWith(s, x) then 1 else 0
    ensures EndsWith(s + [x], x)
  {
    assert (s + [x])[..|s|] == s;
  }

  /** `sent` holds, up to repetitions, exactly the offsets of its kind that are committed,
      and possibly the one in hand; it does hold that one once it is handled. */
  ghost predicate Delivered(c: Consumer, log: seq<Message>, kind: Message, sent: seq<nat>) {
    && c.committed <= |log|
    && (c.phase != Idle ==> c.committed < |log|)
    && if c.phase.Handled? || EndsWith(sent, c.committed)
       then c.committed < |log| && Collapse(sent) == Offsets(log, kind, c.committed + 1)
       else Collapse(sent) == Offsets(log, kind, c.committed)
  }

  /** The message in hand was delivered before a crash, so it will be delivered again. */
  predicate Owed(c: Consumer) {
    !c.phase.Handled? && (EndsWith(c.dispatched, c.committed) || EndsWith(c.dlq, c.committed))
  }

  /** Repeated deliveries, counting the one that is bound to come. */
  function Repeats(c: Consumer): int {
    Excess(c.dispatched) + Excess(c.dlq) + if Owed(c) then 1 else 0
  }

  ghost predicate Inv(c: Consumer, log: seq<Message>) {
    && Delivered(c, log, Valid, c.dispatched)
    && Delivered(c, log, Poison, c.dlq)
    && Repeats(c) <= c.crashes
  }

  lemma OffsetsNext(log: seq<Message>, kind: Message, n: nat)
    requires n < |log|
    ensures Offsets(log, kind, n + 1) == if log[n] == kind then Offsets(log, kind, n) + [n] else Offsets(log, kind, n)
  {
  }

  /** Nothing beyond the message in hand was delivered. */
  lemma InHand(c: Consumer, log: seq<Message>, kind: Message, sent: seq<nat>)
    requires Delivered(c, log, kind, sent)
    ensures EndsWith(sent, c.committed) ==> c.committed < |log| && log[c.committed] == kind
    ensures c.phase.Handled? && log[c.committed] == kind ==> EndsWith(sent, c.committed)
    ensures !EndsWith(sent, c.committed + 1)
  {
    CollapseSame(sent);
    hide Collapse, Offsets;
    OffsetsBelow(log, kind, c.committed);
    if c.committed < |log| {
      OffsetsNext(log, kind, c.committed);
      OffsetsBelow(log, kind, c.committed + 1);
    }
    assert EndsWith(sent, c.committed + 1) <==> EndsWith(Collapse(sent), c.committed + 1);
  }

  lemma OffsetsBelow(log: seq<Message>, kind: Message, n: nat)
    requires n <= |log|
    ensures forall x :: x >= n ==> !EndsWith(Offsets(log, kind, n), x)
  {
    hide Offsets;
    var s := Offsets(log, kind, n);
    if s != [] {
      assert s[|s| - 1] in s;
    }
  }

  function SentAfter(c: Consumer, e: Event, kind: Message, sent: seq<nat>): seq<nat> {
    if e == (if kind.Valid? then Submit(true) else SendToDlq) then sent + [c.committed] else sent
  }

  lemma StepDelivered(c: Consumer, log: seq<Message>, e: Event, kind: Message, sent: seq<nat>)
    requires Delivered(c, log, kind, sent) && Enabled(c, log, e)
    ensures Delivered(Step(c, e), log, kind, SentAfter(c, e, kind, sent))
  {
    hide Collapse, Offsets, EndsWith;
    match e {
      case Fetch =>
      case Submit(accepted) => SendDelivered(c, log, kind, sent);
      case SendToDlq => SendDelivered(c, log, kind, sent);
      case Commit => CommitDelivered(c, log, kind, sent);
      case Crash => CrashDelivered(c, log, kind, sent);
    }
  }

  lemma CommitDelivered(c: Consumer, log: seq<Message>, kind: Message, sent: seq<nat>)
    requires Delivered(c, log, kind, sent) && c.phase.Handled?
    ensures Delivered(c.(phase := Idle, committed := c.committed + 1), log, kind, sent)
  {
    InHand(c, log, kind, sent);
    hide Collapse, Offsets, EndsWith;
  }

  lemma CrashDelivered(c: Consumer, log: seq<Message>, kind: Message, sent: seq<nat>)
    requires Delivered(c, log, kind, sent)
    ensures Delivered(c.(phase := Idle), log, kind, sent)
  {
    InHand(c, log, kind, sent);
    if c.committed < |log| {
      OffsetsNext(log, kind, c.committed);
    }
    hide Collapse, Offsets, EndsWith;
  }

  lemma SendDelivered(c: Consumer, log: seq<Message>, kind: Message, sent: seq<nat>)
    requires Delivered(c, log, kind, sent) && c.phase.Holding? && c.committed < |log|
    ensures Delivered(c.(phase := Handled), log, kind, if log[c.committed] == kind then sent + [c.committed] else sent)
  {
    InHand(c, log, kind, sent);
    OffsetsNext(log, kind, c.committed);
    CollapseAppend(sent, c.committed);
    hide Collapse, Offsets, EndsWith;
  }

  lemma StepRepeats(c: Consumer, log: seq<Message>, e: Event)
    requires Inv(c, log) && Enabled(c, log, e)
    ensures Repeats(Step(c, e)) <= Step(c, e).crashes
  {
    InHand(c, log, Valid, c.dispatched);
    InHand(c, log, Poison, c.dlq);
    hide Excess, EndsWith, Delivered;
    var next := Step(c, e);
    match e {
      case Fetch => assert Owed(next) == Owed(c);
      case Submit(accepted) =>
        CollapseAppend(c.dispatched, c.committed);
        assert accepted ==> !Owed(next);
      case SendToDlq =>
        CollapseAppend(c.dlq, c.committed);
        assert !Owed(next);
      case Commit => assert !Owed(next);
      case Crash => assert c.phase.Handled? || Owed(next) == Owed(c);
    }
  }

  lemma StepKeeps(c: Consumer, log: seq<Message>, e: Event)
    requires Inv(c, log) && Enabled(c, log, e)
    ensures Inv(Step(c, e), log)
  {
    hide Collapse, Offsets, Excess, EndsWith;
    StepDelivered(c, log, e, Valid, c.dispatched);
    StepDelivered(c, log, e, Poison, c.dlq);
    StepRepeats(c, log, e);
    hide Delivered, Repeats, Enabled;
  }

  lemma {:induction false} AlwaysInv(log: seq<Message>, events: seq<Event>)
    requires Runs(NEW, log, events)
    ensures Inv(After(NEW, events), log)
  {
    if events == [] {
    } else {
      AlwaysInv(log, events[..|events| - 1]);
      StepKeeps(After(NEW, events[..|events| - 1]), log, events[|events| - 1]);
    }
  }

  /** Nothing below the committed offset was lost or misrouted, whatever crashed when:
      valid messages were dispatched, poison went to the dead-letter topic, each in the
      order of the log with only immediate repetitions. */
  lemma AtLeastOnceInOrder(log: seq<Message>, events: seq<Event>)
    requires Runs(NEW, log, events)
    ensures var c := After(NEW, events);
      && c.committed <= |log|
      && (forall k :: 0 <= k < c.committed ==> if log[k].Valid? then k in c.dispatched else k in c.dlq)
      && (forall k :: k in c.dispatched ==> k < |log| && log[k].Valid?)
      && (forall k :: k in c.dlq ==> k < |log| && log[k].Poison?)
      && Offsets(log, Valid, c.committed) <= Collapse(c.dispatched)
      && Offsets(log, Poison, c.committed) <= Collapse(c.dlq)
  {
    AlwaysInv(log, events);
    var c := After(NEW, events);
    hide Runs, After, Offsets, Collapse, Delivered;
    DeliveredIs(c, log, Valid, c.dispatched);
    DeliveredIs(c, log, Poison, c.dlq);
  }

  lemma DeliveredIs(c: Consumer, log: seq<Message>, kind: Message, sent: seq<nat>)
    requires Delivered(c, log, kind, sent)
    ensures c.committed <= |log| && Offsets(log, kind, c.committed) <= Collapse(sent)
    ensures forall k :: 0 <= k < c.committed && log[k] == kind ==> k in sent
    ensures forall k :: k in sent ==> k < |log| && log[k] == kind
  {
    CollapseSame(sent);
    if c.committed < |log| {
      OffsetsNext(log, kind, c.committed);
    }
    hide Collapse, Offsets;
    forall k | 0 <= k < c.committed && log[k] == kind ensures k in sent {
      assert k in Offsets(log, kind, c.committed);
      assert k in Collapse(sent);
    }
  }

  lemma {:induction false} OffsetsGrow(log: seq<Message>, kind: Message, m: nat, n: nat)
    requires m <= n <= |log|
    ensures Offsets(log, kind, m) <= Offsets(log, kind, n)
  {
    if m == n {
    } else {
      OffsetsGrow(log, kind, m, n - 1);
    }
  }

  /** Dispatches are at most the valid messages plus the crashes, and every extra delivery,
      to either place, is paid for by a crash of its own. */
  lemma RepeatsNeedCrashes(log: seq<Message>, events: seq<Event>)
    requires Runs(NEW, log, events)
    ensures var c := After(NEW, events);
      && |c.dispatched| <= |Offsets(log, Valid, |log|)| + c.crashes
      && |c.dispatched| + |c.dlq| <= |Offsets(log, Valid, |log|)| + |Offsets(log, Poison, |log|)| + c.crashes
  {
    AlwaysInv(log, events);
    var c := After(NEW, events);
    hide Collapse, Offsets, Runs, After;
    CollapseWithin(c, log, Valid, c.dispatched);
    CollapseWithin(c, log, Poison, c.dlq);
  }

  /** `n` turns in which the message in hand is delivered and the consumer crashes before the commit. */
  function Interrupted(message: Message, n: nat): seq<Event> {
    if n == 0 then []
    else Interrupted(message, n - 1) + [Fetch] + [if message.Valid? then Submit(true) else SendToDlq] + [Crash]
  }

  function Copies(x: nat, n: nat): seq<nat> {
    if n == 0 then [] else Copies(x, n - 1) + [x]
  }

  /** The consumer after `n` more deliveries of the message in hand and as many crashes. */
  function Redelivered(c: Consumer, message: Message, n: nat): Consumer {
    if message.Valid? then c.(dispatched := c.dispatched + Copies(c.committed, n), crashes := c.crashes + n)
    else c.(dlq := c.dlq + Copies(c.committed, n), crashes := c.crashes + n)
  }

  lemma OneMoreTurn(c: Consumer, log: seq<Message>, events: seq<Event>, message: Message)
    requires Runs(c, log, events) && After(c, events).phase.Idle? && After(c, events).committed < |log|
    requires message == log[After(c, events).committed]
    ensures Runs(c, log, events + Interrupted(message, 1))
    ensures After(c, events + Interrupted(message, 1)) == Redelivered(After(c, events), message, 1)
  {
    var sent := if message.Valid? then Submit(true) else SendToDlq;
    assert events + Interrupted(message, 1) == events + [Fetch] + [sent] + [Crash] by {
      assert Interrupted(message, 0) == [];
    }
    assert Copies(After(c, events).committed, 1) == [After(c, events).committed];
    hide Runs, After, Interrupted, Copies;
    NextStep(c, log, events, Fetch);
    NextStep(c, log, events + [Fetch], sent);
    NextStep(c, log, events + [Fetch] + [sent], Crash);
  }

  lemma InterruptedAgain(events: seq<Event>, message: Message, n: nat)
    ensures events + Interrupted(message, 0) == events
    ensures events + Interrupted(message, n + 1) == events + Interrupted(message, n) + Interrupted(message, 1)
  {
    assert Interrupted(message, 0) == [];
  }

  lemma RedeliveredAgain(c: Consumer, message: Message, n: nat)
    ensures Redelivered(c, message, 0) == c
    ensures Redelivered(c, message, n + 1) == Redelivered(Redelivered(c, message, n), message, 1)
  {
    assert Copies(c.committed, 1) == Copies(c.committed, 0) + [c.committed];
    assert c.dispatched + Copies(c.committed, n + 1) == c.dispatched + Copies(c.committed, n) + Copies(c.committed, 1);
    assert c.dlq + Copies(c.committed, n + 1) == c.dlq + Copies(c.committed, n) + Copies(c.committed, 1);
  }

  /** A crash forgets the delivery before it: between two messages of any run every number of
      crashes can follow, each with one more delivery of the message that comes next. */
  lemma {:induction false} EveryCrashCanRepeat(log: seq<Message>, events: seq<Event>, n: nat)
    requires Runs(NEW, log, events) && After(NEW, events).phase.Idle? && After(NEW, events).committed < |log|
    ensures var c := After(NEW, events);
      var more := events + Interrupted(log[c.committed], n);
      Runs(NEW, log, more) && After(NEW, more) == Redelivered(c, log[c.committed], n)
  {
    hide Runs, After, Interrupted, Copies;
    var c := After(NEW, events);
    var message := log[c.committed];
    if n == 0 {
      InterruptedAgain(events, message, 0);
      RedeliveredAgain(c, message, 0);
    } else {
      EveryCrashCanRepeat(log, events, n - 1);
      InterruptedAgain(events, message, n - 1);
      RedeliveredAgain(c, message, n - 1);
      OneMoreTurn(NEW, log, events + Interrupted(message, n - 1), message);
    }
  }

  lemma CollapseWithin(c: Consumer, log: seq<Message>, kind: Message, sent: seq<nat>)
    requires Delivered(c, log, kind, sent)
    ensures |Collapse(sent)| <= |sent| && |Collapse(sent)| <= |Offsets(log, kind, |log|)|
  {
    hide Collapse, Offsets;
    CollapseSame(sent);
    OffsetsGrow(log, kind, c.committed, |log|);
    if c.committed < |log| {
      OffsetsGrow(log, kind, c.committed + 1, |log|);
    }
  }

  lemma {:induction false} CollapseKeepsDistinct(s: seq<nat>)
    requires |Collapse(s)| >= |s|
    ensures Collapse(s) == s
  {
    hide Collapse;
    if |s| <= 1 {
      CollapseShort(s);
    } else {
      var head := s[..|s| - 1];
      CollapseShrinks(head);
      CollapseLast(s);
      CollapseKeepsDistinct(head);
      assert s == head + [s[|s| - 1]];
    }
  }

  /** A run without crashes that has committed the whole log delivered every message
      exactly once, in order, to the right place. */
  lemma ExactlyOnceWithoutCrashes(log: seq<Message>, events: seq<Event>)
    requires Runs(NEW, log, events)
    requires After(NEW, events).crashes == 0 && After(NEW, events).committed == |log|
    ensures After(NEW, events).dispatched == Offsets(log, Valid, |log|)
    ensures After(NEW, events).dlq == Offsets(log, Poison, |log|)
  {
    AlwaysInv(log, events);
    var c := After(NEW, events);
    CollapseSame(c.dispatched);
    CollapseSame(c.dlq);
    CollapseKeepsDistinct(c.dispatched);
    CollapseKeepsDistinct(c.dlq);
    hide Collapse, Offsets, Runs, After;
  }
}

/** The one-token Parker under the C++20 memory model that Rust atomics use.

    The token is a sequence of messages in modification order. A load may read
    any message at or after the reading thread's own coherence position. A
    plain store may be placed anywhere after its thread's position, except
    between a message and the read-modify-write (RMW) that read it. An RMW is
    placed directly after the message it reads. A message carries the
    publications that an Acquire read of it makes visible: those of the release
    sequences it belongs to (section 6.9.2.1 of ISO C++20).
*/
module Parker {
  import opened Runs

  const EMPTY_TOKEN: nat := 0
  const NOTIFIED_TOKEN: nat := 1

  /** How producers publish: SingleUnparker stores, MultiUnparker uses `fetch_or`. */
  datatype Form = StoreForm | RmwForm

  datatype Operation = Initial | Notify(producer: nat, released: set<nat>) | Take

  datatype Message = Message(operation: Operation, value: nat, view: set<nat>, rmw: bool)

  datatype Call = Park | ParkUntilNotified | ParkTimeout | ParkUntilNotifiedTimeout

  /** Which `take_notification` of a call is running: the one at entry, or the
      one after a wait that ended in the named way. */
  datatype Attempt = AtEntry | AfterChange | AfterTimeout | AfterUnclassified

  datatype Pc =
    | Idle
    | Loading(call: Call, attempt: Attempt)
    | Exchanging(call: Call, attempt: Attempt)
    | Waiting(call: Call, polled: bool)

  datatype Return = Notified | Unclassified | TimedOut

  datatype Completed = Completed(call: Call, attempt: Attempt, result: Return, consumed: bool)

  datatype State = State(
    form: Form,
    producers: set<nat>,
    history: seq<Message>,
    published: map<nat, set<nat>>,
    floor: map<nat, nat>,
    position: nat,
    acquired: set<nat>,
    pc: Pc,
    completed: seq<Completed>,
    assertionsHold: bool)

  datatype Event =
    | Publish(producer: nat, publication: nat)  // a producer writes some payload
    | Unpark(producer: nat, at: nat)            // `unpark`, placed at index `at`
    | Begin(call: Call)                         // the consumer enters a park call
    | RelaxedLoad(at: nat)                      // pre-load of `take_notification`
    | Exchange(at: nat)                         // strong compare-exchange reading message `at`
    | WaitLoad(at: nat)                         // one Acquire load inside the wait strategy
    | WaitEnds(timedOut: bool)                  // the strategy gives up after an equal load

  function Start(form: Form, producers: set<nat>): State
  {
    State(form, producers, [Message(Initial, EMPTY_TOKEN, {}, false)], map[], map[], 0, {}, Idle, [], true)
  }

  function PublishedBy(s: State, p: nat): set<nat>
  {
    if p in s.published then s.published[p] else {}
  }

  function FloorOf(s: State, p: nat): nat
  {
    if p in s.floor then s.floor[p] else 0
  }

  /** `value | NOTIFIED_TOKEN` */
  function FetchOrNotified(value: nat): nat
  {
    if value % 2 == 0 then value + 1 else value
  }

  predicate CanPlace(h: seq<Message>, at: nat)
  {
    0 < at <= |h| && (at < |h| ==> !h[at].rmw)
  }

  function Insert(h: seq<Message>, at: nat, m: Message): (r: seq<Message>)
    requires at <= |h|
    ensures |r| == |h| + 1 && r[at] == m
    ensures forall i :: 0 <= i < at ==> r[i] == h[i]
    ensures forall i :: at < i < |r| ==> r[i] == h[i - 1]
  {
    h[..at] + [m] + h[at..]
  }

  function Shift(index: nat, at: nat): nat
  {
    if index >= at then index + 1 else index
  }

  function NotifyMessage(s: State, p: nat, at: nat): Message
    requires CanPlace(s.history, at)
  {
    var released := PublishedBy(s, p);
    if s.form.RmwForm? then
      var read := s.history[at - 1];
      Message(Notify(p, released), FetchOrNotified(read.value), read.view + released, true)
    else
      Message(Notify(p, released), NOTIFIED_TOKEN, released, false)
  }

  function UnparkAt(s: State, p: nat, at: nat): State
    requires CanPlace(s.history, at)
  {
    s.(history := Insert(s.history, at, NotifyMessage(s, p, at)),
       floor := (map q | q in s.floor :: Shift(s.floor[q], at))[p := at],
       position := Shift(s.position, at))
  }

  /** The return value of each park call after its last `take_notification`. */
  function ReturnOf(call: Call, attempt: Attempt, consumed: bool): Return
  {
    if consumed then Notified
    else match call
      case Park => Unclassified
      case ParkTimeout => if attempt.AfterTimeout? then TimedOut else Unclassified
      case ParkUntilNotified => Notified
      case ParkUntilNotifiedTimeout => if attempt.AfterChange? then Notified else TimedOut
  }

  /** The two `debug_assert!(consumed)` sites. */
  predicate Asserts(call: Call, attempt: Attempt)
  {
    attempt.AfterChange? && (call.ParkUntilNotified? || call.ParkUntilNotifiedTimeout?)
  }

  function Finish(s: State, call: Call, attempt: Attempt, consumed: bool): State
  {
    s.(pc := Idle,
       completed := s.completed + [Completed(call, attempt, ReturnOf(call, attempt, consumed), consumed)],
       assertionsHold := s.assertionsHold && (Asserts(call, attempt) ==> consumed))
  }

  function TakeFails(s: State, call: Call, attempt: Attempt): State
  {
    if attempt.AtEntry? then s.(pc := Waiting(call, false)) else Finish(s, call, attempt, false)
  }

  function TakeAt(s: State, call: Call, attempt: Attempt, at: nat): State
    requires at < |s.history| && CanPlace(s.history, at + 1)
  {
    var read := s.history[at];
    var taken := s.(
      history := Insert(s.history, at + 1, Message(Take, EMPTY_TOKEN, read.view, true)),
      floor := (map q | q in s.floor :: Shift(s.floor[q], at + 1)),
      position := at + 1,
      acquired := s.acquired + read.view);
    Finish(taken, call, attempt, true)
  }

  /** How the wait of `call` may end without having seen a change. */
  predicate MayEnd(call: Call, timedOut: bool)
  {
    match call
    case Park => !timedOut
    case ParkUntilNotified => false
    case ParkTimeout => true
    case ParkUntilNotifiedTimeout => timedOut
  }

  function Step(s: State, e: Event): State
  {
    match e
    case Publish(p, x) =>
      if p in s.producers then s.(published := s.published[p := PublishedBy(s, p) + {x}]) else s
    case Unpark(p, at) =>
      if p in s.producers && CanPlace(s.history, at) && FloorOf(s, p) < at then UnparkAt(s, p, at) else s
    case Begin(call) =>
      if s.pc.Idle? then s.(pc := Loading(call, AtEntry)) else s
    case RelaxedLoad(at) =>
      if s.pc.Loading? && s.position <= at < |s.history| then
        var s' := s.(position := at);
        if s.history[at].value != NOTIFIED_TOKEN then TakeFails(s', s.pc.call, s.pc.attempt)
        else s'.(pc := Exchanging(s.pc.call, s.pc.attempt))
      else s
    case Exchange(at) =>
      if s.pc.Exchanging? && s.position <= at < |s.history| then
        if s.history[at].value != NOTIFIED_TOKEN then TakeFails(s.(position := at), s.pc.call, s.pc.attempt)
        else if CanPlace(s.history, at + 1) then TakeAt(s, s.pc.call, s.pc.attempt, at)
        else s
      else s
    case WaitLoad(at) =>
      if s.pc.Waiting? && s.position <= at < |s.history| then
        var m := s.history[at];
        var s' := s.(position := at, acquired := s.acquired + m.view);
        if m.value != EMPTY_TOKEN then s'.(pc := Loading(s.pc.call, AfterChange))
        else s'.(pc := Waiting(s.pc.call, true))
      else s
    case WaitEnds(timedOut) =>
      if s.pc.Waiting? && s.pc.polled && MayEnd(s.pc.call, timedOut) then
        s.(pc := Loading(s.pc.call, if timedOut then AfterTimeout else AfterUnclassified))
      else s
  }

  ghost function After(form: Form, producers: set<nat>, es: seq<Event>): State
  {
    Exec(Step, Start(form, producers), es)
  }

  // ---------------------------------------------------------------------
  // The consumer side: no assertion fails, no result lies about the token
  // ---------------------------------------------------------------------

  ghost predicate MessageOk(form: Form, h: seq<Message>, i: nat)
    requires i < |h|
  {
    var m := h[i];
    && (m.operation.Initial? <==> i == 0)
    && m.value == (if m.operation.Notify? then NOTIFIED_TOKEN else EMPTY_TOKEN)
    && m.rmw == (m.operation.Take? || (m.operation.Notify? && form.RmwForm?))
    && (m.operation.Initial? ==> m.view == {})
    && (m.operation.Take? && i > 0 ==> h[i - 1].operation.Notify? && m.view == h[i - 1].view)
    && (m.operation.Notify? && i > 0 ==>
          m.view == m.operation.released + (if form.RmwForm? then h[i - 1].view else {}))
  }

  ghost predicate TokenInv(s: State)
  {
    && 0 < |s.history| && s.position < |s.history|
    && (forall i :: 0 <= i < |s.history| ==> MessageOk(s.form, s.history, i))
    && (forall i :: s.position < i < |s.history| ==> s.history[i].operation.Notify?)
    && (forall p :: p in s.floor ==> s.floor[p] < |s.history|)
  }

  ghost predicate CallInv(s: State)
    requires s.position < |s.history|
  {
    && s.assertionsHold
    && ((s.pc.Loading? || s.pc.Exchanging?) && s.pc.attempt.AfterChange? ==> s.history[s.position].operation.Notify?)
    && (s.pc.Exchanging? ==> s.history[s.position].operation.Notify?)
    && ((s.pc.Loading? || s.pc.Exchanging?) && s.pc.attempt.AfterTimeout? ==>
      !s.pc.call.Park? && !s.pc.call.ParkUntilNotified?)
    && ((s.pc.Loading? || s.pc.Exchanging?) && s.pc.attempt.AfterUnclassified? ==>
      s.pc.call.Park? || s.pc.call.ParkTimeout?)
    && (forall c :: c in s.completed ==> HonestCompletion(c))
  }

  ghost predicate HonestCompletion(c: Completed)
  {
    && (c.consumed <==> c.result == Notified)
    && (c.attempt.AfterChange? ==> c.consumed)
    && (c.call.ParkUntilNotified? ==> c.consumed)
    && (c.result == TimedOut <==> c.attempt.AfterTimeout? && !c.consumed)
  }

  ghost predicate ConsumerInv(s: State)
  {
    TokenInv(s) && CallInv(s)
  }

  lemma UnparkKeepsToken(s: State, p: nat, at: nat)
    requires TokenInv(s) && CanPlace(s.history, at)
    ensures TokenInv(UnparkAt(s, p, at))
  {
    var s' := UnparkAt(s, p, at);
    var h, h' := s.history, s'.history;
    assert MessageOk(s.form, h, at - 1);
    forall i | 0 <= i < |h'| ensures MessageOk(s.form, h', i) {
      if i < at { assert MessageOk(s.form, h, i); }
      if i > at { assert MessageOk(s.form, h, i - 1); }
    }
  }

  lemma TakeKeepsToken(s: State, call: Call, attempt: Attempt, at: nat)
    requires TokenInv(s) && s.position <= at < |s.history| && CanPlace(s.history, at + 1)
    requires s.history[at].value == NOTIFIED_TOKEN
    ensures TokenInv(TakeAt(s, call, attempt, at))
  {
    var s' := TakeAt(s, call, attempt, at);
    var h, h' := s.history, s'.history;
    assert MessageOk(s.form, h, at);
    forall i | 0 <= i < |h'| ensures MessageOk(s.form, h', i) {
      if i <= at { assert MessageOk(s.form, h, i); }
      if i > at + 1 { assert MessageOk(s.form, h, i - 1); }
    }
  }

  lemma FinishKeepsInv(s: State, call: Call, attempt: Attempt, consumed: bool)
    requires TokenInv(s) && s.assertionsHold
    requires forall c :: c in s.completed ==> HonestCompletion(c)
    requires HonestCompletion(Completed(call, attempt, ReturnOf(call, attempt, consumed), consumed))
    ensures ConsumerInv(Finish(s, call, attempt, consumed))
  {
    var c := Completed(call, attempt, ReturnOf(call, attempt, consumed), consumed);
    assert forall x :: x in s.completed + [c] ==> x in s.completed || x == c;
  }

  /** From a position at a notification, every message still readable is one. */
  lemma LaterMessagesNotify(s: State, at: nat)
    requires TokenInv(s) && s.position <= at < |s.history|
    ensures s.history[s.position].operation.Notify? ==> s.history[at].operation.Notify?
    ensures s.history[at].operation.Notify? <==> s.history[at].value == NOTIFIED_TOKEN
    ensures s.history[at].value != NOTIFIED_TOKEN ==> s.history[at].value == EMPTY_TOKEN
  {
    assert MessageOk(s.form, s.history, at);
  }

  lemma RelaxedLoadStep(s: State, at: nat)
    requires ConsumerInv(s)
    ensures ConsumerInv(Step(s, RelaxedLoad(at)))
  {
    if s.pc.Loading? && s.position <= at < |s.history| {
      LaterMessagesNotify(s, at);
      if s.history[at].value != NOTIFIED_TOKEN && !s.pc.attempt.AtEntry? {
        FinishKeepsInv(s.(position := at), s.pc.call, s.pc.attempt, false);
      }
    }
  }

  lemma ExchangeStep(s: State, at: nat)
    requires ConsumerInv(s)
    ensures ConsumerInv(Step(s, Exchange(at)))
  {
    if s.pc.Exchanging? && s.position <= at < |s.history| {
      LaterMessagesNotify(s, at);
      if CanPlace(s.history, at + 1) {
        TakeKeepsToken(s, s.pc.call, s.pc.attempt, at);
        var taken := TakeAt(s, s.pc.call, s.pc.attempt, at);
        FinishKeepsInv(taken.(pc := s.pc, completed := s.completed, assertionsHold := s.assertionsHold),
                       s.pc.call, s.pc.attempt, true);
      }
    }
  }

  lemma ConsumerStep(s: State, e: Event)
    requires ConsumerInv(s)
    ensures ConsumerInv(Step(s, e))
  {
    match e
    case Publish(_, _) =>
    case Unpark(p, at) =>
      if p in s.producers && CanPlace(s.history, at) && FloorOf(s, p) < at {
        UnparkKeepsToken(s, p, at);
      }
    case Begin(_) =>
    case RelaxedLoad(at) => RelaxedLoadStep(s, at);
    case Exchange(at) => ExchangeStep(s, at);
    case WaitLoad(at) =>
      if s.pc.Waiting? && s.position <= at < |s.history| {
        LaterMessagesNotify(s, at);
      }
    case WaitEnds(_) =>
  }

  lemma ConsumerInvAfter(form: Form, producers: set<nat>, es: seq<Event>)
    ensures ConsumerInv(After(form, producers, es))
  {
    forall s, e | ConsumerInv(s) ensures ConsumerInv(Step(s, e)) { ConsumerStep(s, e); }
    InvariantHolds(Step, ConsumerInv, Start(form, producers), es);
  }

  /** In every run, in both forms and with any producers, neither
      `debug_assert!(consumed)` fails; a wait that saw a change is always
      followed by a successful take; `Notified` is returned exactly when the
      call consumed a token; and `TimedOut` only after the wait timed out. */
  lemma EveryCompletionIsHonest(form: Form, producers: set<nat>, es: seq<Event>)
    ensures After(form, producers, es).assertionsHold
    ensures forall c :: c in After(form, producers, es).completed ==> HonestCompletion(c)
  {
    ConsumerInvAfter(form, producers, es);
  }

  // ---------------------------------------------------------------------
  // The producer side: the modification order is a run of a mailbox
  // ---------------------------------------------------------------------

  /** The one-token mailbox: whether a notification is pending, and every
      publication that a consumer taking the token must see. */
  datatype Mailbox = Mailbox(notified: bool, visible: set<nat>)

  function Act(m: Mailbox, operation: Operation): Mailbox
  {
    match operation
    case Initial => m
    case Notify(_, released) => Mailbox(true, m.visible + released)
    case Take => Mailbox(false, m.visible)
  }

  /** The mailbox after the operations of the messages 0 to `i`, in modification order. */
  ghost function Replay(h: seq<Message>, i: nat): Mailbox
    requires i < |h|
  {
    if i == 0 then Mailbox(false, {}) else Act(Replay(h, i - 1), h[i].operation)
  }

  /** The token's modification order is a legal mailbox run, and every message
      carries exactly the mailbox state it stands for. */
  ghost predicate RefinesMailbox(h: seq<Message>)
  {
    && (forall i :: 0 <= i < |h| ==> Replay(h, i) == Mailbox(h[i].value == NOTIFIED_TOKEN, h[i].view))
    && (forall i :: 0 < i < |h| && h[i].operation.Take? ==> Replay(h, i - 1).notified)
  }

  /** Every take made visible every publication released by an earlier unpark. */
  ghost predicate TakesAcquireEverything(s: State)
  {
    forall j, t :: 0 <= j < t < |s.history| && s.history[j].operation.Notify? && s.history[t].operation.Take? ==>
      s.history[j].operation.released <= s.acquired
  }

  /** Some unpark at or before message `i` has no take after it up to `i`. */
  ghost predicate Pending(h: seq<Message>, i: nat)
    requires i < |h|
  {
    exists j :: 0 <= j <= i && h[j].operation.Notify? && forall k :: j < k <= i ==> !h[k].operation.Take?
  }

  /** In every run, for both unpark forms and any producers: the token's last
      value is NOTIFIED exactly when some unpark has no later take. */
  lemma NoNotificationIsLost(form: Form, producers: set<nat>, es: seq<Event>)
    ensures var h := After(form, producers, es).history;
      h != [] && (h[|h| - 1].value == NOTIFIED_TOKEN <==> Pending(h, |h| - 1))
  {
    ConsumerInvAfter(form, producers, es);
    var s := After(form, producers, es);
    assert MessageOk(s.form, s.history, |s.history| - 1);
  }

  /** In every run, any number of unparks before a take deliver one
      notification: between two takes there is an unpark, so takes never
      outnumber the groups of unparks. */
  lemma NotificationsCoalesce(form: Form, producers: set<nat>, es: seq<Event>, t: nat, t': nat)
    requires var h := After(form, producers, es).history;
      t < t' < |h| && h[t].operation.Take? && h[t'].operation.Take?
    ensures var h := After(form, producers, es).history;
      exists j :: t < j < t' && h[j].operation.Notify?
  {
    ConsumerInvAfter(form, producers, es);
    var s := After(form, producers, es);
    assert MessageOk(s.form, s.history, t');
  }

  lemma {:induction false} ReplayPrefix(h: seq<Message>, h': seq<Message>, i: nat)
    requires i < |h| && i < |h'|
    requires forall k :: 0 <= k <= i ==> h[k] == h'[k]
    ensures Replay(h, i) == Replay(h', i)
  {
    if i == 0 {
    } else {
      ReplayPrefix(h, h', i - 1);
    }
  }

  lemma {:induction false} VisibleWithin(h: seq<Message>, i: nat, bound: set<nat>)
    requires i < |h|
    requires forall k :: 0 <= k <= i && h[k].operation.Notify? ==> h[k].operation.released <= bound
    ensures Replay(h, i).visible <= bound
  {
    if i == 0 {
    } else {
      VisibleWithin(h, i - 1, bound);
    }
  }

  lemma {:induction false} VisibleContains(h: seq<Message>, j: nat, i: nat)
    requires j <= i < |h| && 0 < j && h[j].operation.Notify?
    ensures h[j].operation.released <= Replay(h, i).visible
    decreases i
  {
    if j < i { VisibleContains(h, j, i - 1); }
  }

  /** A take placed anywhere leaves the later mailbox states as they were. */
  lemma {:induction false} ReplayAroundTake(h: seq<Message>, at: nat, m: Message, i: nat)
    requires 0 < at <= i < |h| && m.operation.Take?
    requires h[at].operation.Notify?
    ensures Replay(Insert(h, at, m), i + 1) == Replay(h, i)
  {
    var h' := Insert(h, at, m);
    ReplayPrefix(h, h', at - 1);
    if i == at {
      assert Replay(h', at + 1) == Act(Act(Replay(h', at - 1), m.operation), h'[at + 1].operation);
    } else {
      ReplayAroundTake(h, at, m, i - 1);
    }
  }

  ghost predicate Exclusive(s: State)
  {
    s.form.RmwForm? || |s.producers| <= 1
  }

  ghost predicate NotifyOrdered(s: State, i: nat)
    requires i < |s.history|
  {
    s.history[i].operation.Notify? ==>
      var p := s.history[i].operation.producer;
      p in s.producers && i <= FloorOf(s, p) && s.history[i].operation.released <= PublishedBy(s, p)
  }

  ghost predicate PublicationInv(s: State)
  {
    && TokenInv(s)
    && Exclusive(s)
    && RefinesMailbox(s.history)
    && (forall i :: 0 <= i < |s.history| ==> NotifyOrdered(s, i))
    && (forall i :: 0 <= i < |s.history| && s.history[i].operation.Take? ==> s.history[i].view <= s.acquired)
  }

  lemma SoleProducer(s: State, p: nat, q: nat)
    requires |s.producers| <= 1 && p in s.producers && q in s.producers
    ensures p == q
  {
    var others := s.producers - {p};
    assert |others| == |s.producers| - 1;
    assert q !in others;
  }

  /** With RMW producers, or one storing producer, an unpark can only be last
      in modification order, and its message carries the whole mailbox. */
  lemma ExclusiveUnparkAppends(s: State, p: nat, at: nat)
    requires PublicationInv(s) && p in s.producers && CanPlace(s.history, at) && FloorOf(s, p) < at
    ensures at == |s.history|
    ensures NotifyMessage(s, p, at).view == Replay(s.history, at - 1).visible + PublishedBy(s, p)
    ensures NotifyMessage(s, p, at).value == NOTIFIED_TOKEN
  {
    var h := s.history;
    if at < |h| {
      assert MessageOk(s.form, h, at) && NotifyOrdered(s, at);
      SoleProducer(s, p, h[at].operation.producer);
      assert false;
    }
    assert MessageOk(s.form, h, at - 1);
    assert Replay(h, at - 1) == Mailbox(h[at - 1].value == NOTIFIED_TOKEN, h[at - 1].view);
    if s.form.StoreForm? {
      forall k | 0 <= k <= at - 1 && h[k].operation.Notify? ensures h[k].operation.released <= PublishedBy(s, p) {
        assert NotifyOrdered(s, k);
        SoleProducer(s, p, h[k].operation.producer);
      }
      VisibleWithin(h, at - 1, PublishedBy(s, p));
    }
  }

  lemma UnparkKeepsPublication(s: State, p: nat, at: nat)
    requires PublicationInv(s) && p in s.producers && CanPlace(s.history, at) && FloorOf(s, p) < at
    ensures PublicationInv(UnparkAt(s, p, at))
  {
    var h, s' := s.history, UnparkAt(s, p, at);
    ExclusiveUnparkAppends(s, p, at);
    UnparkKeepsToken(s, p, at);
    forall i | 0 <= i < |s'.history|
      ensures Replay(s'.history, i) == Mailbox(s'.history[i].value == NOTIFIED_TOKEN, s'.history[i].view)
      ensures NotifyOrdered(s', i)
      ensures 0 < i && s'.history[i].operation.Take? ==> Replay(s'.history, i - 1).notified
    {
      if i < at {
        ReplayPrefix(h, s'.history, i);
        if i > 0 { ReplayPrefix(h, s'.history, i - 1); }
        assert NotifyOrdered(s, i);
      } else {
        ReplayPrefix(h, s'.history, i - 1);
      }
    }
  }

  lemma TakeKeepsMailbox(h: seq<Message>, at: nat, m: Message)
    requires RefinesMailbox(h) && at < |h| && (at + 1 < |h| ==> h[at + 1].operation.Notify?)
    requires h[at].value == NOTIFIED_TOKEN && m == Message(Take, EMPTY_TOKEN, h[at].view, true)
    ensures RefinesMailbox(Insert(h, at + 1, m))
  {
    var h' := Insert(h, at + 1, m);
    ReplayPrefix(h, h', at);
    forall i | 0 <= i < |h'|
      ensures Replay(h', i) == Mailbox(h'[i].value == NOTIFIED_TOKEN, h'[i].view)
      ensures 0 < i && h'[i].operation.Take? ==> Replay(h', i - 1).notified
    {
      if i <= at {
        ReplayPrefix(h, h', i);
        if i > 0 { ReplayPrefix(h, h', i - 1); }
      } else if i > at + 1 {
        ReplayAroundTake(h, at + 1, m, i - 1);
        if i > at + 2 { ReplayAroundTake(h, at + 1, m, i - 2); }
      }
    }
  }

  lemma TakeKeepsPublication(s: State, call: Call, attempt: Attempt, at: nat)
    requires PublicationInv(s) && s.position <= at < |s.history| && CanPlace(s.history, at + 1)
    requires s.history[at].value == NOTIFIED_TOKEN
    ensures PublicationInv(TakeAt(s, call, attempt, at))
  {
    var h, s' := s.history, TakeAt(s, call, attempt, at);
    TakeKeepsToken(s, call, attempt, at);
    TakeKeepsMailbox(h, at, s'.history[at + 1]);
    forall i | 0 <= i < |s'.history| ensures NotifyOrdered(s', i) {
      if i <= at { assert NotifyOrdered(s, i); }
      if i > at + 1 { assert NotifyOrdered(s, i - 1); }
    }
  }

  predicate Takes(s: State, e: Event)
  {
    && e.Exchange? && s.pc.Exchanging? && s.position <= e.at < |s.history|
    && s.history[e.at].value == NOTIFIED_TOKEN && CanPlace(s.history, e.at + 1)
  }

  /** Only producers and successful takes touch the token. */
  lemma OtherStepsReadOnly(s: State, e: Event)
    requires !e.Publish? && !e.Unpark? && !Takes(s, e) && s.position < |s.history|
    ensures ReadsOnly(s, Step(s, e))
  {
    if e.Exchange? {
      FailedExchangeReadsOnly(s, e);
    } else if e.RelaxedLoad? {
      RelaxedLoadReadsOnly(s, e);
    }
  }

  /** The token, and what the producers did, are as before. */
  predicate ReadsOnly(s: State, s': State)
  {
    s'.history == s.history && s'.floor == s.floor && s'.published == s.published
    && s'.producers == s.producers && s'.form == s.form
    && s.position <= s'.position < |s.history| && s.acquired <= s'.acquired
  }

  lemma FailedExchangeReadsOnly(s: State, e: Event)
    requires e.Exchange? && !Takes(s, e) && s.position < |s.history|
    ensures ReadsOnly(s, Step(s, e))
  {
  }

  lemma RelaxedLoadReadsOnly(s: State, e: Event)
    requires e.RelaxedLoad? && s.position < |s.history|
    ensures ReadsOnly(s, Step(s, e))
  {
  }

  lemma ReadOnlyKeepsPublication(s: State, s': State)
    requires PublicationInv(s)
    requires s'.history == s.history && s'.floor == s.floor && s'.producers == s.producers && s'.form == s.form
    requires forall p :: PublishedBy(s, p) <= PublishedBy(s', p)
    requires s.position <= s'.position < |s.history| && s.acquired <= s'.acquired
    ensures PublicationInv(s')
  {
    forall i | 0 <= i < |s.history| ensures NotifyOrdered(s', i) { assert NotifyOrdered(s, i); }
  }

  lemma PublicationStep(s: State, e: Event)
    requires PublicationInv(s)
    ensures PublicationInv(Step(s, e))
  {
    if e.Publish? {
      ReadOnlyKeepsPublication(s, Step(s, e));
    } else if e.Unpark? {
      if e.producer in s.producers && CanPlace(s.history, e.at) && FloorOf(s, e.producer) < e.at {
        UnparkKeepsPublication(s, e.producer, e.at);
      }
    } else if Takes(s, e) {
      TakeKeepsPublication(s, s.pc.call, s.pc.attempt, e.at);
    } else {
      OtherStepsReadOnly(s, e);
      ReadOnlyKeepsPublication(s, Step(s, e));
    }
  }

  lemma PublicationInvAfter(form: Form, producers: set<nat>, es: seq<Event>)
    requires form.RmwForm? || |producers| <= 1
    ensures PublicationInv(After(form, producers, es))
  {
    forall s, e | PublicationInv(s) ensures PublicationInv(Step(s, e)) { PublicationStep(s, e); }
    InvariantHolds(Step, PublicationInv, Start(form, producers), es);
  }

  /** `MultiUnparker` with any number of producers, and `SingleUnparker` with its
      sole producer: in every run the token is a mailbox, and each take sees the
      publications of every earlier unpark, not only of the last one. */
  lemma TokenIsAMailbox(form: Form, producers: set<nat>, es: seq<Event>)
    requires form.RmwForm? || |producers| <= 1
    ensures RefinesMailbox(After(form, producers, es).history)
    ensures TakesAcquireEverything(After(form, producers, es))
  {
    PublicationInvAfter(form, producers, es);
    var s := After(form, producers, es);
    var h := s.history;
    forall j, t | 0 <= j < t < |h| && h[j].operation.Notify? && h[t].operation.Take?
      ensures h[j].operation.released <= s.acquired
    {
      assert MessageOk(s.form, h, j);
      VisibleContains(h, j, t);
      assert Replay(h, t) == Mailbox(h[t].value == NOTIFIED_TOKEN, h[t].view);
    }
  }

  /** What a client sees of the token: a flag, and what its latest message carries. */
  datatype Flag = Flag(notified: bool, carried: set<nat>)

  ghost function FlagOf(s: State): Flag
    requires s.history != []
  {
    var last := s.history[|s.history| - 1];
    Flag(last.value == NOTIFIED_TOKEN, last.view)
  }

  lemma {:induction false} VisibleGrows(h: seq<Message>, i: nat, k: nat)
    requires i <= k < |h|
    ensures Replay(h, i).visible <= Replay(h, k).visible
  {
    if i == k {
    } else {
      VisibleGrows(h, i, k - 1);
    }
  }

  predicate Unparks(s: State, e: Event)
  {
    e.Unpark? && e.producer in s.producers && CanPlace(s.history, e.at) && FloorOf(s, e.producer) < e.at
  }

  /** The flag's steps, in the order in which they are executed: an unpark sets
      it and adds what its producer published; a take of the latest message
      clears it and acquires all it carries; a take of an older message, which
      the storing form allows, acquires what that one carried and leaves the
      flag set; nothing else changes it. */
  ghost predicate FlagStep(s: State, e: Event)
  {
    var s' := Step(s, e);
    s.history != [] && s'.history != []
    && var f, f' := FlagOf(s), FlagOf(s');
       if Unparks(s, e) then f' == Flag(true, f.carried + PublishedBy(s, e.producer)) && s'.acquired == s.acquired
       else if Takes(s, e) then
         f.notified && s'.acquired == s.acquired + s.history[e.at].view
         && (if e.at + 1 == |s.history| then f' == Flag(false, f.carried) && f.carried <= s'.acquired
             else f' == f && s.history[e.at].view <= f.carried)
       else f' == f
  }

  lemma UnparkFlagStep(s: State, e: Event)
    requires PublicationInv(s) && Unparks(s, e)
    ensures FlagStep(s, e)
  {
    ExclusiveUnparkAppends(s, e.producer, e.at);
    var n := |s.history| - 1;
    assert Replay(s.history, n) == Mailbox(s.history[n].value == NOTIFIED_TOKEN, s.history[n].view);
  }

  lemma TakeLatestFlagStep(s: State, e: Event)
    requires PublicationInv(s) && Takes(s, e) && e.at + 1 == |s.history|
    ensures FlagStep(s, e)
  {
  }

  lemma TakeOlderFlagStep(s: State, e: Event)
    requires PublicationInv(s) && Takes(s, e) && e.at + 1 < |s.history|
    ensures FlagStep(s, e)
  {
    var h, n := s.history, |s.history| - 1;
    assert h[n].operation.Notify? && MessageOk(s.form, h, n);
    VisibleGrows(h, e.at, n);
    assert Replay(h, e.at) == Mailbox(h[e.at].value == NOTIFIED_TOKEN, h[e.at].view);
    assert Replay(h, n) == Mailbox(h[n].value == NOTIFIED_TOKEN, h[n].view);
    assert Step(s, e).history[n + 1] == h[n];
  }

  /** In every run the token behaves as that flag. */
  lemma TokenIsAFlag(form: Form, producers: set<nat>, es: seq<Event>, e: Event)
    requires form.RmwForm? || |producers| <= 1
    ensures FlagStep(After(form, producers, es), e)
  {
    PublicationInvAfter(form, producers, es);
    var s := After(form, producers, es);
    if Unparks(s, e) {
      UnparkFlagStep(s, e);
    } else if Takes(s, e) {
      if e.at + 1 == |s.history| { TakeLatestFlagStep(s, e); } else { TakeOlderFlagStep(s, e); }
    } else {
      OnlyUnparksAndTakes(s, e);
    }
  }

  lemma OnlyUnparksAndTakes(s: State, e: Event)
    requires s.position < |s.history| && !Unparks(s, e) && !Takes(s, e)
    ensures Step(s, e).history == s.history
  {
    if !e.Publish? && !e.Unpark? {
      OtherStepsReadOnly(s, e);
    }
  }

  lemma SixSteps(s: State, a: Event, b: Event, c: Event, d: Event, e: Event, f: Event) returns (es: seq<Event>)
    ensures Exec(Step, s, es) == Step(Step(Step(Step(Step(Step(s, a), b), c), d), e), f)
  {
    ExecSnoc(Step, s, [], a);
    ExecSnoc(Step, s, [] + [a], b);
    ExecSnoc(Step, s, [] + [a] + [b], c);
    ExecSnoc(Step, s, [] + [a] + [b] + [c], d);
    ExecSnoc(Step, s, [] + [a] + [b] + [c] + [d], e);
    ExecSnoc(Step, s, [] + [a] + [b] + [c] + [d] + [e], f);
    es := [] + [a] + [b] + [c] + [d] + [e] + [f];
  }

  /** Two producers `p` and `q` that store: `p` publishes 0 and unparks, `q`
      unparks over it, and the consumer takes the token without seeing 0. */
  lemma TwoStoringProducersLosePublication(producers: set<nat>, p: nat, q: nat) returns (es: seq<Event>)
    requires p in producers && q in producers && p != q
    ensures !RefinesMailbox(After(StoreForm, producers, es).history)
    ensures !TakesAcquireEverything(After(StoreForm, producers, es))
  {
    var s0 := Start(StoreForm, producers);
    var s1 := Step(s0, Publish(p, 0));
    var s2 := Step(s1, Unpark(p, 1));
    var s3 := Step(s2, Unpark(q, 2));
    var s4 := Step(s3, Begin(Park));
    var s5 := Step(s4, RelaxedLoad(2));
    var s6 := Step(s5, Exchange(2));
    es := SixSteps(s0, Publish(p, 0), Unpark(p, 1), Unpark(q, 2), Begin(Park), RelaxedLoad(2), Exchange(2));
    var h := s6.history;
    assert s1.published[p] == {0};
    assert h[1].operation == Notify(p, {0}) && h[2].operation == Notify(q, {});
    assert h[3].operation == Take && s6.acquired == {};
    assert 0 in Replay(h, 1).visible;
    assert 0 in Replay(h, 2).visible && 0 !in h[2].view;
    assert 0 in h[1].operation.released;
  }

  /** The Release-store form is a mailbox on all runs exactly when at most one
      producer exists, which is what the unclonable `SingleUnparker` enforces. */
  lemma StoreFormNeedsSoleProducer(producers: set<nat>)
    ensures (forall es :: RefinesMailbox(After(StoreForm, producers, es).history)) <==> |producers| <= 1
    ensures (forall es :: TakesAcquireEverything(After(StoreForm, producers, es))) <==> |producers| <= 1
  {
    if |producers| <= 1 {
      forall es ensures RefinesMailbox(After(StoreForm, producers, es).history)
                     && TakesAcquireEverything(After(StoreForm, producers, es)) {
        TokenIsAMailbox(StoreForm, producers, es);
      }
    } else {
      var p :| p in producers;
      assert producers == {p} + (producers - {p});
      var q :| q in producers - {p};
      var es := TwoStoringProducersLosePublication(producers, p, q);
    }
  }
}

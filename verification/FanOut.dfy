/**
 Fan-out of one session's frames to its subscribers (daemon/src/session_pool.rs) over the bounded
 queue of each connection (`Client` in daemon/src/rpc.rs).
 */
module FanOut {
  /**
   The sections are `subscribe_session`, `broadcast_to_session_except`, `remember_prompt`,
   `forget_prompt` and `clear_pending_prompts`, and the entry of the session map they work on.

   A broadcast never waits: a subscriber whose queue is full or closed loses its subscription. A
   question to the user is remembered before it is broadcast, and a new subscriber is handed the
   questions that are still open.
   */

  import opened Wrappers

  type Conn = nat
  type Prompt = nat

  datatype Frame = Event(text: string) | Ask(prompt: Prompt)

  /** A frame of this session, or anything else the connection is sent: replies, other sessions. */
  datatype Item = Pushed(frame: Frame) | Other(text: string)

  const QUEUE_DEPTH := 1024

  /** What has been handed to the sink, what still waits, and whether the pump is alive. */
  datatype Outbound = Outbound(handed: seq<Item>, queued: seq<Item>, open: bool)

  const CONNECTED := Outbound([], [], true)

  function Accepted(q: Outbound): seq<Item> {
    q.handed + q.queued
  }

  predicate Takes(q: Outbound) {
    q.open && |q.queued| < QUEUE_DEPTH
  }

  function Offered(q: Outbound, item: Item): Outbound {
    if Takes(q) then q.(queued := q.queued + [item]) else q
  }

  /** The pump moves the oldest item to the sink. */
  function Pumped(q: Outbound): Outbound
    requires q.queued != []
  {
    q.(handed := q.handed + [q.queued[0]], queued := q.queued[1..])
  }

  // ---------------------------------------------------------------- one connection

  class Client {
    const id: Conn
    var handed: seq<Item>
    var queued: seq<Item>
    var open: bool

    ghost function Value(): Outbound
      reads this
    {
      Outbound(handed, queued, open)
    }

    constructor (id: Conn)
      ensures this.id == id && Value() == CONNECTED
    {
      this.id := id;
      handed, queued, open := [], [], true;
    }

    method TrySend(item: Item) returns (ok: bool)
      modifies this
      ensures ok == old(Takes(Value())) == (old(open) && |old(queued)| < 1024)
      ensures Value() == Offered(old(Value()), item)
    {
      ok := open && |queued| < QUEUE_DEPTH;
      if ok {
        queued := queued + [item];
      }
    }

    /**
     The pump, until the queue is empty or the sink answers that the peer is gone; `answers(i)`
     is the sink's answer to the i-th item. The item it fails on is the last one it takes.
     */
    method Pump(answers: nat -> bool) returns (taken: nat)
      requires open
      modifies this
      ensures taken <= |old(queued)|
      ensures handed == old(handed) + old(queued)[..taken] && queued == old(queued)[taken..]
      ensures Accepted(Value()) == old(Accepted(Value()))
      ensures forall i: nat :: i + 1 < taken ==> answers(i)
      ensures open <==> taken == 0 || answers(taken - 1)
      ensures open ==> queued == []
    {
      taken := 0;
      while queued != [] && open
        invariant taken <= |old(queued)|
        invariant handed == old(handed) + old(queued)[..taken] && queued == old(queued)[taken..]
        invariant forall i: nat :: i + 1 < taken ==> answers(i)
        invariant open <==> taken == 0 || answers(taken - 1)
        decreases |queued|
      {
        handed, queued := handed + [queued[0]], queued[1..];
        open := answers(taken);
        taken := taken + 1;
      }
      assert old(queued) == old(queued)[..taken] + old(queued)[taken..];
    }
  }

  // ---------------------------------------------------------------- one session

  class Session {
    var subscribers: map<Conn, Client>
    var pending: map<Prompt, Frame>

    ghost predicate Valid()
      reads this
    {
      && (forall c <- subscribers :: subscribers[c].id == c)
      && (forall p <- pending :: pending[p] == Ask(p))
    }

    /** The object and its connections are what the machine's state says of them. */
    ghost predicate Shows(s: State)
      reads this, subscribers.Values
    {
      && s.present && s.subscribers == subscribers.Keys && s.pending == pending.Keys
      && forall c <- subscribers :: c in s.queues && s.queues[c] == subscribers[c].Value()
    }

    /** The entry of a session that is created, resumed, or rebuilt in place: nobody watches it. */
    constructor ()
      ensures Valid() && subscribers == map[] && pending == map[]
      ensures forall s: State :: Shows(Next(s, Create))
    {
      subscribers, pending := map[], map[];
    }

    /** Joins and reads the open questions in one step, which is the machine's. */
    method Subscribe(client: Client) returns (snapshot: set<Frame>)
      requires Valid()
      modifies this
      ensures Valid()
      ensures subscribers == old(subscribers)[client.id := client]
      ensures pending == old(pending) && snapshot == set p | p in pending :: Ask(p)
      ensures forall s: State ::
                old(Shows(s)) && client.id in s.queues && s.queues[client.id] == client.Value() ==>
                  && Shows(Next(s, Step.Subscribe(client.id)))
                  && Told(Next(s, Step.Subscribe(client.id)), client.id) == Told(s, client.id) + pending.Keys
    {
      subscribers := subscribers[client.id := client];
      snapshot := set p | p in pending :: pending[p];
    }

    /** One subscriber's turn in a broadcast: it takes the frame, is excepted, or is dropped. */
    method OfferTo(c: Conn, frame: Frame, except: Option<Conn>)
      requires Valid() && c in subscribers
      modifies this`subscribers, subscribers[c]
      ensures subscribers
           == if Some(c) == except || old(Takes(subscribers[c].Value())) then old(subscribers)
              else old(subscribers) - {c}
      ensures old(subscribers)[c].Value()
           == if Some(c) == except then old(subscribers[c].Value())
              else Offered(old(subscribers[c].Value()), Pushed(frame))
    {
      hide Offered, Takes;
      if Some(c) != except {
        var ok := subscribers[c].TrySend(Pushed(frame));
        if !ok {
          subscribers := subscribers - {c};
        }
      }
    }

    method BroadcastExcept(frame: Frame, except: Option<Conn>)
      requires Valid()
      modifies this`subscribers, subscribers.Values
      ensures Valid()
      ensures forall c <- old(subscribers) ::
                (c in subscribers <==> Some(c) == except || old(Takes(subscribers[c].Value())))
      ensures forall c <- subscribers :: c in old(subscribers) && subscribers[c] == old(subscribers)[c]
      ensures forall c <- old(subscribers) ::
                old(subscribers)[c].Value()
                == if Some(c) == except then old(subscribers[c].Value())
                   else Offered(old(subscribers[c].Value()), Pushed(frame))
    {
      hide Offered, Takes;
      ghost var all := subscribers;
      var todo := subscribers.Keys;
      while todo != {}
        invariant todo <= subscribers.Keys <= all.Keys
        invariant forall c <- subscribers :: subscribers[c] == all[c]
        invariant forall c <- all :: c in subscribers <==> c in todo || Some(c) == except || old(Takes(all[c].Value()))
        invariant forall c <- todo :: all[c].Value() == old(all[c].Value())
        invariant forall c <- all.Keys - todo ::
                    all[c].Value() == if Some(c) == except then old(all[c].Value())
                                      else Offered(old(all[c].Value()), Pushed(frame))
      {
        var c :| c in todo;
        OfferTo(c, frame, except);
        todo := todo - {c};
      }
    }

    /** Broadcasting an event is the machine's step. */
    method BroadcastEvent(text: string, except: Option<Conn>)
      requires Valid()
      modifies this`subscribers, subscribers.Values
      ensures Valid()
      ensures forall s: State :: old(Shows(s)) ==> Shows(Next(s, Broadcast(text, except)))
    {
      hide Offered, Takes, Heard;
      BroadcastExcept(Event(text), except);
      forall s: State | old(Shows(s)) ensures Shows(Next(s, Broadcast(text, except))) {
        HeardBySubscribers(s, Broadcast(text, except));
      }
    }

    /** And so is broadcasting a question that was remembered before. */
    method AnnouncePrompt(prompt: Prompt)
      requires Valid()
      modifies this`subscribers, subscribers.Values
      ensures Valid()
      ensures forall s: State :: old(Shows(s)) && prompt in s.announcing ==> Shows(Next(s, Announce(prompt)))
    {
      hide Offered, Takes, Heard;
      BroadcastExcept(Ask(prompt), None);
      forall s: State | old(Shows(s)) && prompt in s.announcing ensures Shows(Next(s, Announce(prompt))) {
        HeardBySubscribers(s, Announce(prompt));
      }
    }

    method RememberPrompt(prompt: Prompt)
      requires Valid()
      modifies this`pending
      ensures Valid() && pending == old(pending)[prompt := Ask(prompt)]
      ensures forall s: State :: old(Shows(s)) && s.nextPrompt == prompt ==> Shows(Next(s, Remember))
    {
      pending := pending[prompt := Ask(prompt)];
    }

    method ForgetPrompt(prompt: Prompt)
      requires Valid()
      modifies this`pending
      ensures Valid() && pending == old(pending) - {prompt}
      ensures forall s: State :: old(Shows(s)) ==> Shows(Next(s, Forget(prompt)))
    {
      pending := pending - {prompt};
    }

    method ClearPendingPrompts()
      requires Valid()
      modifies this`pending
      ensures Valid() && pending == map[]
      ensures forall s: State :: old(Shows(s)) ==> Shows(Next(s, ClearPrompts))
    {
      pending := map[];
    }

    method Unsubscribe(c: Conn)
      requires Valid()
      modifies this`subscribers
      ensures Valid() && subscribers == old(subscribers) - {c}
      ensures forall s: State :: old(Shows(s)) ==> Shows(Next(s, Step.Unsubscribe(c)))
    {
      subscribers := subscribers - {c};
    }
  }

  // ---------------------------------------------------------------- the session and its connections, interleaved

  /**
   `present` says whether the session is in the pool's map. Its subscribers and its open
   questions are fields of its entry there, so they go with the entry.

   `announcing` are the questions remembered and not yet broadcast; question ids are used once.
   `told` are the questions each connection was handed in answer to a `session.subscribe`.
   */
  datatype State = State(
    present: bool,
    queues: map<Conn, Outbound>,
    subscribers: set<Conn>,
    told: map<Conn, set<Prompt>>,
    pending: set<Prompt>,
    announcing: set<Prompt>,
    nextPrompt: Prompt)

  const INITIAL := State(false, map[], {}, map[], {}, {}, 0)

  datatype Step =
    | Create                   // created or resumed, or rebuilt in place of the entry there is
    | Remove                   // closed, evicted, idle too long, or its engine is gone
    | Connect(c: Conn)
    | Subscribe(c: Conn)       // `session.subscribe`, which answers with the pending questions
    | Join(c: Conn)            // starting or steering a turn, which does not
    | Unsubscribe(c: Conn)     // `session.unsubscribe`, or the connection went away
    | Broadcast(text: string, except: Option<Conn>)
    | Remember
    | Announce(prompt: Prompt)
    | Forget(prompt: Prompt)
    | ClearPrompts
    | SendOther(c: Conn, text: string)
    | Pump(c: Conn)
    | Close(c: Conn)           // the pump ends

  function Told(s: State, c: Conn): set<Prompt> {
    if c in s.told then s.told[c] else {}
  }

  function Said(a: Step): Option<Frame> {
    match a
    case Broadcast(text, _) => Some(Event(text))
    case Announce(p) => Some(Ask(p))
    case _ => None
  }

  predicate Addresses(a: Step, c: Conn) {
    Said(a).Some? && !(a.Broadcast? && a.except == Some(c))
  }

  predicate Enabled(s: State, a: Step) {
    match a
    case Connect(c) => c !in s.queues
    case Subscribe(c) => s.present && c in s.queues
    case Join(c) => c in s.queues
    case Announce(p) => p in s.announcing
    case SendOther(c, _) => c in s.queues && Takes(s.queues[c])
    case Pump(c) => c in s.queues && s.queues[c].open && s.queues[c].queued != []
    case Close(c) => c in s.queues
    case _ => true
  }

  function Heard(s: State, a: Step): State {
    s.(queues := map c | c in s.queues ::
         if c in s.subscribers && Addresses(a, c) && Said(a).Some?
         then Offered(s.queues[c], Pushed(Said(a).value)) else s.queues[c],
       subscribers := set c | c in s.subscribers && c in s.queues && (Addresses(a, c) ==> Takes(s.queues[c])))
  }

  function Next(s: State, a: Step): State
    requires Enabled(s, a)
  {
    match a
    case Create => s.(present := true, subscribers := {}, pending := {})
    case Remove => s.(present := false, subscribers := {}, pending := {})
    case Connect(c) => s.(queues := s.queues[c := CONNECTED])
    case Subscribe(c) => s.(subscribers := s.subscribers + {c}, told := s.told[c := Told(s, c) + s.pending])
    case Join(c) => if s.present then s.(subscribers := s.subscribers + {c}) else s
    case Unsubscribe(c) => s.(subscribers := s.subscribers - {c})
    case Broadcast(_, _) => Heard(s, a)
    case Remember =>
      s.(pending := if s.present then s.pending + {s.nextPrompt} else s.pending,
         announcing := s.announcing + {s.nextPrompt},
         nextPrompt := s.nextPrompt + 1)
    case Announce(p) => Heard(s, a).(announcing := s.announcing - {p})
    case Forget(p) => s.(pending := s.pending - {p})
    case ClearPrompts => s.(pending := {})
    case SendOther(c, text) => s.(queues := s.queues[c := Offered(s.queues[c], Other(text))])
    case Pump(c) => s.(queues := s.queues[c := Pumped(s.queues[c])])
    case Close(c) => s.(queues := s.queues[c := s.queues[c].(open := false)])
  }

  lemma HeardBySubscribers(s: State, a: Step)
    requires Said(a).Some? && Enabled(s, a) && forall c <- s.subscribers :: c in s.queues
    ensures var s' := Next(s, a);
            && s'.present == s.present && s'.pending == s.pending && s'.queues.Keys == s.queues.Keys
            && s'.subscribers <= s.subscribers
            && forall c <- s.subscribers ::
                 && (c in s'.subscribers <==> !Addresses(a, c) || Takes(s.queues[c]))
                 && s'.queues[c] == if Addresses(a, c) then Offered(s.queues[c], Pushed(Said(a).value))
                                    else s.queues[c]
  {
  }

  ghost predicate IsRun(states: seq<State>, steps: seq<Step>) {
    && |states| == |steps| + 1
    && states[0] == INITIAL
    && forall i {:trigger steps[i]} :: 0 <= i < |steps| ==>
         Enabled(states[i], steps[i]) && states[i + 1] == Next(states[i], steps[i])
  }

  ghost predicate Inv(s: State) {
    && s.subscribers <= s.queues.Keys
    && (!s.present ==> s.subscribers == {} && s.pending == {})
    && (forall p <- s.announcing :: p < s.nextPrompt)
    && (forall p <- s.pending :: p < s.nextPrompt)
  }

  lemma {:induction false} Invariant(states: seq<State>, steps: seq<Step>, n: nat)
    requires IsRun(states, steps) && n < |states|
    ensures Inv(states[n])
  {
    if n > 0 {
      Invariant(states, steps, n - 1);
      assert states[n] == Next(states[n - 1], steps[n - 1]);
    }
  }

  // ---------------------------------------------------------------- the stream has no hole

  /** The frames of this session among `items`, in order. */
  function Frames(items: seq<Item>, n: nat): seq<Frame>
    requires n <= |items|
  {
    if n == 0 then []
    else Frames(items, n - 1) + if items[n - 1].Pushed? then [items[n - 1].frame] else []
  }

  /** The session's frames that the connection's queue ever accepted. */
  function Received(q: Outbound): seq<Frame> {
    Frames(Accepted(q), |Accepted(q)|)
  }

  /** What the session broadcast to `c` in the steps from `m` up to `n`. */
  function Sent(steps: seq<Step>, m: nat, n: nat, c: Conn): seq<Frame>
    requires n <= |steps|
  {
    if n <= m then []
    else Sent(steps, m, n - 1, c) + if Addresses(steps[n - 1], c) then [Said(steps[n - 1]).value] else []
  }

  lemma {:induction false} FramesOfPrefix(items: seq<Item>, more: seq<Item>, n: nat)
    requires n <= |items|
    ensures Frames(items + more, n) == Frames(items, n)
  {
    if n > 0 {
      FramesOfPrefix(items, more, n - 1);
    }
  }

  lemma OfferedReceived(q: Outbound, item: Item)
    ensures Takes(q) ==> Received(Offered(q, item)) == Received(q) + if item.Pushed? then [item.frame] else []
    ensures !Takes(q) ==> Received(Offered(q, item)) == Received(q)
  {
    if Takes(q) {
      var items := Accepted(q);
      assert Accepted(Offered(q, item)) == items + [item];
      FramesOfPrefix(items, [item], |items|);
    }
  }

  lemma PumpedReceived(q: Outbound)
    requires q.queued != []
    ensures Accepted(Pumped(q)) == Accepted(q) && Received(Pumped(q)) == Received(q)
  {
  }

  lemma NothingReceived()
    ensures Received(CONNECTED) == []
  {
  }

  /** One step, seen by one connection: a subscriber that stays one gets exactly what is addressed to it. */
  lemma StreamStep(s: State, a: Step, c: Conn)
    requires Enabled(s, a) && Inv(s) && c in s.queues
    ensures c in Next(s, a).queues
    ensures c in s.subscribers && c in Next(s, a).subscribers ==>
              Received(Next(s, a).queues[c])
              == Received(s.queues[c]) + if Addresses(a, c) then [Said(a).value] else []
    ensures !(c in s.subscribers && c in Next(s, a).subscribers) ==>
              Received(Next(s, a).queues[c]) == Received(s.queues[c])
  {
    hide Received;
    var q := s.queues[c];
    if Said(a).Some? {
      OfferedReceived(q, Pushed(Said(a).value));
    } else if a.SendOther? {
      OfferedReceived(q, Other(a.text));
    } else if a.Pump? && a.c == c {
      PumpedReceived(q);
    } else if a.Close? {
      CloseReceived(q);
    }
  }

  lemma CloseReceived(q: Outbound)
    ensures Received(q.(open := false)) == Received(q)
  {
  }

  ghost predicate SubscribedThroughout(states: seq<State>, m: nat, n: nat, c: Conn)
    requires n < |states|
  {
    forall i {:trigger states[i]} :: m <= i <= n ==> c in states[i].subscribers
  }

  /**
   While a connection stays subscribed, the frames its queue accepts are exactly the session's
   broadcasts in order, less those that excepted it: no hole, no duplicate, no reordering.
   */
  lemma {:induction false} StreamHasNoHole(states: seq<State>, steps: seq<Step>, m: nat, n: nat, c: Conn)
    requires IsRun(states, steps) && m <= n < |states|
    requires SubscribedThroughout(states, m, n, c)
    ensures c in states[m].queues && c in states[n].queues
    ensures Received(states[n].queues[c]) == Received(states[m].queues[c]) + Sent(steps, m, n, c)
  {
    hide Received, Next, Enabled, Addresses, Said;
    Invariant(states, steps, n);
    Invariant(states, steps, m);
    assert c in states[m].subscribers && c in states[n].subscribers;
    if m < n {
      StreamHasNoHole(states, steps, m, n - 1, c);
      Invariant(states, steps, n - 1);
      assert c in states[n - 1].subscribers;
      StreamStep(states[n - 1], steps[n - 1], c);
    }
  }

  /** And outside a subscription it gets none of them. */
  lemma {:induction false} NothingWhenUnsubscribed(states: seq<State>, steps: seq<Step>, m: nat, n: nat, c: Conn)
    requires IsRun(states, steps) && m <= n < |states| && c in states[m].queues
    requires forall i {:trigger states[i]} :: m <= i <= n ==> c !in states[i].subscribers
    ensures c in states[n].queues && Received(states[n].queues[c]) == Received(states[m].queues[c])
  {
    if m < n {
      NothingWhenUnsubscribed(states, steps, m, n - 1, c);
      Invariant(states, steps, n - 1);
      StreamStep(states[n - 1], steps[n - 1], c);
    }
  }

  /** What the sink has been handed is a prefix of what was accepted, whenever the pump stopped. */
  lemma HandedIsAPrefix(q: Outbound)
    ensures Frames(q.handed, |q.handed|) <= Received(q)
  {
    FramesOfPrefix(q.handed, q.queued, |q.handed|);
    FramesMonotone(Accepted(q), |q.handed|, |Accepted(q)|);
  }

  lemma {:induction false} FramesMonotone(items: seq<Item>, m: nat, n: nat)
    requires m <= n <= |items|
    ensures Frames(items, m) <= Frames(items, n)
  {
    if m < n {
      FramesMonotone(items, m, n - 1);
    }
  }

  // ---------------------------------------------------------------- how long a subscription lasts

  /** The step ends a subscription of `c`: asked for, with the session's entry, or by a frame the queue cannot take. */
  predicate Ends(s: State, a: Step, c: Conn) {
    || a == Unsubscribe(c)
    || a.Create? || a.Remove?
    || (Addresses(a, c) && c in s.queues && !Takes(s.queues[c]))
  }

  /** Those are the only ends, and the frame that could not be taken leaves no trace. */
  lemma WhySubscriptionsEnd(s: State, a: Step, c: Conn)
    requires Enabled(s, a) && Inv(s) && c in s.subscribers
    ensures c !in Next(s, a).subscribers <==> Ends(s, a, c)
    ensures Addresses(a, c) && !Takes(s.queues[c]) ==> Next(s, a).queues[c] == s.queues[c]
  {
  }

  /**
   A subscription is promised until `session.unsubscribe` or the end of the connection. It lasts
   exactly as long as there is none of these, the session's entry is neither replaced nor
   removed, and each frame finds room.
   */
  lemma {:induction false} SubscriptionLastsIff(states: seq<State>, steps: seq<Step>, m: nat, n: nat, c: Conn)
    requires IsRun(states, steps) && m <= n < |states| && c in states[m].subscribers
    ensures SubscribedThroughout(states, m, n, c) <==> NothingEnds(states, steps, m, n, c)
  {
    assert |states| == |steps| + 1;
    hide IsRun, Ends;
    if m < n {
      SubscriptionLastsIff(states, steps, m, n - 1, c);
      if c in states[n - 1].subscribers {
        OneStepLasts(states, steps, n - 1, c);
      }
      OneStepMore(states, steps, m, n, c);
    }
  }

  ghost predicate NothingEnds(states: seq<State>, steps: seq<Step>, m: nat, n: nat, c: Conn)
    requires n <= |steps| && n <= |states|
  {
    forall i {:trigger steps[i]} :: m <= i < n ==> !Ends(states[i], steps[i], c)
  }

  lemma OneStepLasts(states: seq<State>, steps: seq<Step>, n: nat, c: Conn)
    requires IsRun(states, steps) && n < |steps| && c in states[n].subscribers
    ensures c in states[n + 1].subscribers <==> !Ends(states[n], steps[n], c)
  {
    Invariant(states, steps, n);
    WhySubscriptionsEnd(states[n], steps[n], c);
  }

  lemma OneStepMore(states: seq<State>, steps: seq<Step>, m: nat, n: nat, c: Conn)
    requires |states| == |steps| + 1 && m < n < |states|
    ensures SubscribedThroughout(states, m, n, c)
       <==> SubscribedThroughout(states, m, n - 1, c) && c in states[n].subscribers
    ensures NothingEnds(states, steps, m, n, c)
       <==> NothingEnds(states, steps, m, n - 1, c) && !Ends(states[n - 1], steps[n - 1], c)
  {
    hide Ends;
  }

  /** `c` is connected and has room from state `m` on, and neither it nor anybody else asks for an end. */
  ghost predicate Undisturbed(states: seq<State>, steps: seq<Step>, m: nat, c: Conn) {
    && (forall i {:trigger steps[i]} :: 0 <= i < |steps| ==> steps[i] != Unsubscribe(c) && steps[i] != Remove)
    && (forall i {:trigger states[i]} :: m <= i < |states| ==> c in states[i].queues && Takes(states[i].queues[c]))
  }

  /**
   A rebuild drops watchers that asked for nothing: a run in which a subscriber with room in its
   queue, that never unsubscribes, is not given a frame of the session.
   */
  lemma ARebuildDropsWatchers()
    ensures exists states: seq<State>, steps: seq<Step>, m: nat, c: Conn ::
              && IsRun(states, steps) && m < |steps| && steps[m] == Subscribe(c)
              && Undisturbed(states, steps, m, c) && c in states[|steps|].queues
              && Sent(steps, m + 1, |steps|, c) != [] && Received(states[|steps|].queues[c]) == []
  {
    var steps := [Create, Connect(0), Subscribe(0), Create, Broadcast("", None)];
    hide Received;
    var s0 := State(true, map[], {}, map[], {}, {}, 0);
    var s1 := State(true, map[0 := CONNECTED], {}, map[], {}, {}, 0);
    var s2 := State(true, map[0 := CONNECTED], {0}, map[0 := {}], {}, {}, 0);
    var s3 := State(true, map[0 := CONNECTED], {}, map[0 := {}], {}, {}, 0);
    var states := [INITIAL, s0, s1, s2, s3, s3];
    assert Next(s0, Connect(0)) == s1;
    assert Told(s1, 0) + s1.pending == {};
    assert Next(s1, Subscribe(0)).subscribers == s2.subscribers && Next(s1, Subscribe(0)).told == s2.told;
    assert Next(s3, Broadcast("", None)).queues == s3.queues;
    assert Next(s3, Broadcast("", None)).subscribers == s3.subscribers;
    assert IsRun(states, steps) && Undisturbed(states, steps, 2, 0);
    assert Sent(steps, 3, 5, 0) == Sent(steps, 3, 4, 0) + [Event("")];
    NothingReceived();
    assert states[|steps|] == s3 && steps[2] == Subscribe(0);
  }

  /** A connection begins to watch a session that is there by subscribing or by joining a turn, and in no other way. */
  lemma WhySubscriptionsBegin(s: State, a: Step, c: Conn)
    requires Enabled(s, a) && Inv(s) && c !in s.subscribers
    ensures c in Next(s, a).subscribers <==> s.present && (a == Subscribe(c) || a == Join(c))
  {
  }

  /** One step of one queue: it accepts what it has room for, hands over from the front, and loses nothing. */
  lemma QueueStep(s: State, a: Step, c: Conn)
    requires Enabled(s, a) && Inv(s) && c in s.queues
    ensures var q, q' := s.queues[c], Next(s, a).queues[c];
            && Accepted(q') == Accepted(q) + (
                 if c in s.subscribers && c in Next(s, a).subscribers && Addresses(a, c) then [Pushed(Said(a).value)]
                 else if a.SendOther? && a.c == c then [Other(a.text)] else [])
            && |q'.handed| == (if a == Pump(c) then |q.handed| + 1 else |q.handed|)
            && (a == Pump(c) ==> q.open)
            && (q'.open <==> q.open && a != Close(c))
  {
  }

  /** A broadcast reaches every subscriber but the one it excepts, a question every one, as far as they have room. */
  lemma WhoIsReached(s: State, a: Step, c: Conn)
    requires Enabled(s, a) && Inv(s) && c in s.subscribers && Takes(s.queues[c])
    ensures a.Broadcast? ==>
              Accepted(Next(s, a).queues[c])
              == Accepted(s.queues[c]) + if a.except == Some(c) then [] else [Pushed(Event(a.text))]
    ensures a.Announce? ==> Accepted(Next(s, a).queues[c]) == Accepted(s.queues[c]) + [Pushed(Ask(a.prompt))]
  {
    assert s.queues[c].handed + (s.queues[c].queued + []) == s.queues[c].handed + s.queues[c].queued;
  }

  // ---------------------------------------------------------------- which questions are open

  ghost predicate CreatedLast(steps: seq<Step>, n: nat)
    requires n <= |steps|
  {
    exists k: nat {:trigger steps[k]} ::
      k < n && steps[k] == Create && forall j {:trigger steps[j]} :: k < j < n ==> steps[j] != Remove
  }

  /** The session is there from its creation until it is removed. */
  lemma {:induction false} PresentIff(states: seq<State>, steps: seq<Step>, n: nat)
    requires IsRun(states, steps) && n < |states|
    ensures states[n].present <==> CreatedLast(steps, n)
  {
    if n > 0 {
      PresentIff(states, steps, n - 1);
      assert states[n] == Next(states[n - 1], steps[n - 1]);
    }
  }

  predicate Closes(a: Step, p: Prompt) {
    a == Forget(p) || a.ClearPrompts? || a.Create? || a.Remove?
  }

  /** `p` was remembered while the session was there, and nothing has closed it since. */
  ghost predicate OpenSince(states: seq<State>, steps: seq<Step>, n: nat, p: Prompt)
    requires n <= |steps| && n <= |states|
  {
    exists k: nat {:trigger steps[k]} ::
      && k < n && steps[k] == Remember && states[k].nextPrompt == p && states[k].present
      && forall j {:trigger steps[j]} :: k < j < n ==> !Closes(steps[j], p)
  }

  /**
   A question is open from when it is remembered until it is forgotten, all are cleared, or the
   session's entry is replaced or removed.
   */
  lemma {:induction false} OpenIff(states: seq<State>, steps: seq<Step>, n: nat, p: Prompt)
    requires IsRun(states, steps) && n < |states|
    ensures p in states[n].pending <==> OpenSince(states, steps, n, p)
  {
    if n > 0 {
      OpenIff(states, steps, n - 1, p);
      assert states[n] == Next(states[n - 1], steps[n - 1]);
    }
  }

  /** It is announced at most once, after it was remembered. */
  lemma {:induction false} AnnouncedOnce(states: seq<State>, steps: seq<Step>, n: nat, p: Prompt) returns (k: nat)
    requires IsRun(states, steps) && n < |states| && p in states[n].announcing
    ensures k < n && steps[k] == Remember && states[k].nextPrompt == p
    ensures forall j {:trigger steps[j]} :: 0 <= j < n ==> steps[j] != Announce(p)
  {
    Invariant(states, steps, n - 1);
    assert states[n] == Next(states[n - 1], steps[n - 1]);
    if p in states[n - 1].announcing {
      k := AnnouncedOnce(states, steps, n - 1, p);
    } else {
      k := n - 1;
      forall j | 0 <= j < n ensures steps[j] != Announce(p) {
        if steps[j] == Announce(p) {
          assert Enabled(states[j], steps[j]);
          Invariant(states, steps, j);
          PromptsComeOnce(states, steps, j, n - 1, p);
        }
      }
    }
  }

  // ---------------------------------------------------------------- open questions reach everybody

  lemma {:induction false} SentIn(steps: seq<Step>, m: nat, n: nat, c: Conn, i: nat)
    requires m <= i < n <= |steps| && Addresses(steps[i], c)
    ensures Said(steps[i]).value in Sent(steps, m, n, c)
  {
    if i < n - 1 {
      SentIn(steps, m, n - 1, c, i);
    }
  }

  /** A question that is no longer pending, or no longer being announced, never is again. */
  lemma {:induction false} PromptsComeOnce(states: seq<State>, steps: seq<Step>, m: nat, n: nat, p: Prompt)
    requires IsRun(states, steps) && m <= n < |states| && p < states[m].nextPrompt
    ensures p < states[n].nextPrompt
    ensures p in states[n].pending ==> p in states[m].pending
    ensures p in states[n].announcing ==> p in states[m].announcing
  {
    if m < n {
      PromptsComeOnce(states, steps, m, n - 1, p);
      assert states[n] == Next(states[n - 1], steps[n - 1]);
    }
  }

  /** A question that is pending and announced was broadcast after any moment at which it was not yet there. */
  lemma {:induction false} PendingWasAnnounced(states: seq<State>, steps: seq<Step>, m: nat, n: nat, p: Prompt, c: Conn)
    requires IsRun(states, steps) && m <= n < |states|
    requires p in states[n].pending && p !in states[n].announcing
    requires p !in states[m].pending || p in states[m].announcing
    ensures Ask(p) in Sent(steps, m, n, c)
  {
    Invariant(states, steps, m);
    if m < n {
      assert states[n] == Next(states[n - 1], steps[n - 1]);
      if p in states[n - 1].announcing {
        assert steps[n - 1] == Announce(p);
        SentIn(steps, m, n, c, n - 1);
      } else {
        Invariant(states, steps, n - 1);
        PendingWasAnnounced(states, steps, m, n - 1, p, c);
      }
    }
  }

  /** `c` has been shown the question `p`: in the answer to a subscription, or by its queue accepting it. */
  predicate Shown(s: State, c: Conn, p: Prompt) {
    p in Told(s, c) || (c in s.queues && Ask(p) in Received(s.queues[c]))
  }

  /** Every question that is still open and has been broadcast has been shown to every connection that subscribed. */
  lemma EveryOpenQuestionArrives(states: seq<State>, steps: seq<Step>, m: nat, n: nat, c: Conn, p: Prompt)
    requires IsRun(states, steps) && m < n < |states|
    requires steps[m] == Subscribe(c) && SubscribedThroughout(states, m + 1, n, c)
    requires p in states[n].pending && p !in states[n].announcing
    ensures Shown(states[n], c, p)
    // In fact in the answer to that subscription or in the stream since then.
    ensures p in states[m].pending || Ask(p) in Sent(steps, m + 1, n, c)
    ensures c in states[m].queues && c in states[n].queues
    ensures Received(states[n].queues[c]) == Received(states[m].queues[c]) + Sent(steps, m + 1, n, c)
  {
    hide Sent, Inv, Received;
    StreamHasNoHole(states, steps, m + 1, n, c);
    assert states[m + 1] == Next(states[m], steps[m]);
    if p in states[m].pending {
      ToldStays(states, steps, m + 1, n, c, p);
    } else {
      PendingWasAnnounced(states, steps, m + 1, n, p, c);
    }
  }

  lemma {:induction false} ToldStays(states: seq<State>, steps: seq<Step>, m: nat, n: nat, c: Conn, p: Prompt)
    requires IsRun(states, steps) && m <= n < |states| && p in Told(states[m], c)
    ensures p in Told(states[n], c)
  {
    if m < n {
      ToldStays(states, steps, m, n - 1, c, p);
      assert states[n] == Next(states[n - 1], steps[n - 1]);
    }
  }

  /** `c` asks to subscribe in one of the steps from `m` up to `n`. */
  ghost predicate Subscribes(steps: seq<Step>, m: nat, n: nat, c: Conn)
    requires n <= |steps|
  {
    exists k {:trigger steps[k]} :: m <= k < n && steps[k] == Subscribe(c)
  }

  /** An answer to a subscription is the only place where a question is told. */
  lemma {:induction false} ToldBySubscribing(states: seq<State>, steps: seq<Step>, m: nat, n: nat, c: Conn, p: Prompt)
    requires IsRun(states, steps) && m <= n < |states|
    requires p in Told(states[n], c) && p !in Told(states[m], c)
    ensures Subscribes(steps, m, n, c)
  {
    if p !in Told(states[n - 1], c) {
      assert states[n] == Next(states[n - 1], steps[n - 1]);
    } else {
      ToldBySubscribing(states, steps, m, n - 1, c, p);
    }
  }

  /** Subscribing tells every question that is open then. */
  lemma SubscribingTells(states: seq<State>, steps: seq<Step>, m: nat, n: nat, c: Conn, p: Prompt)
    requires IsRun(states, steps) && m <= n < |states| && Subscribes(steps, m, n, c)
    requires p < states[m].nextPrompt && p in states[n].pending
    ensures p in Told(states[n], c)
  {
    var k: nat :| m <= k < n && steps[k] == Subscribe(c);
    PromptsComeOnce(states, steps, m, k, p);
    PromptsComeOnce(states, steps, k, n, p);
    assert states[k + 1] == Next(states[k], steps[k]);
    ToldStays(states, steps, k + 1, n, c, p);
  }

  /**
   While a connection stays subscribed, it lacks an open and announced question exactly when it
   lacked it at the start, the announcement was over by then, and it has not asked since.
   */
  lemma LacksIff(states: seq<State>, steps: seq<Step>, m: nat, n: nat, c: Conn, p: Prompt)
    requires IsRun(states, steps) && m <= n < |states| && SubscribedThroughout(states, m, n, c)
    requires p in states[n].pending && p !in states[n].announcing
    ensures !Shown(states[n], c, p)
       <==> && !Shown(states[m], c, p)
            && p in states[m].pending && p !in states[m].announcing
            && !Subscribes(steps, m, n, c)
  {
    hide Sent, Inv, Received, Subscribes, SubscribedThroughout;
    StreamHasNoHole(states, steps, m, n, c);
    if p in Told(states[m], c) {
      ToldStays(states, steps, m, n, c, p);
    }
    if p in states[m].pending && p !in states[m].announcing {
      PendingIsNumbered(states, steps, m, p);
      NotAnnouncedAgain(states, steps, m, n, p, c);
      if Subscribes(steps, m, n, c) {
        SubscribingTells(states, steps, m, n, c, p);
      }
      if p in Told(states[n], c) && p !in Told(states[m], c) {
        ToldBySubscribing(states, steps, m, n, c, p);
      }
    } else {
      PendingWasAnnounced(states, steps, m, n, p, c);
    }
  }

  /**
   A connection that joins by starting or steering a turn gets no answer with the open
   questions. While it stays subscribed it misses an open question exactly when it had not been
   shown it before, it was announced before the connection joined, and it has not subscribed since.
   */
  lemma JoinerMissesIff(states: seq<State>, steps: seq<Step>, m: nat, n: nat, c: Conn, p: Prompt)
    requires IsRun(states, steps) && m < n < |states|
    requires steps[m] == Join(c) && SubscribedThroughout(states, m + 1, n, c)
    requires p in states[n].pending && p !in states[n].announcing
    ensures !Shown(states[n], c, p)
       <==> && !Shown(states[m], c, p)
            && p in states[m].pending && p !in states[m].announcing
            && !Subscribes(steps, m + 1, n, c)
  {
    hide Shown, Subscribes, SubscribedThroughout;
    JoinShowsNothing(states, steps, m, c, p);
    LacksIff(states, steps, m + 1, n, c, p);
  }

  lemma JoinShowsNothing(states: seq<State>, steps: seq<Step>, m: nat, c: Conn, p: Prompt)
    requires IsRun(states, steps) && m < |steps| && steps[m] == Join(c)
    ensures states[m + 1].pending == states[m].pending && states[m + 1].announcing == states[m].announcing
    ensures Shown(states[m + 1], c, p) <==> Shown(states[m], c, p)
  {
    assert states[m + 1] == Next(states[m], steps[m]);
  }

  lemma PendingIsNumbered(states: seq<State>, steps: seq<Step>, m: nat, p: Prompt)
    requires IsRun(states, steps) && m < |states| && p in states[m].pending
    ensures p < states[m].nextPrompt
  {
    Invariant(states, steps, m);
  }

  lemma {:induction false} NotAnnouncedAgain(states: seq<State>, steps: seq<Step>, m: nat, n: nat, p: Prompt, c: Conn)
    requires IsRun(states, steps) && m <= n < |states|
    requires p < states[m].nextPrompt && p !in states[m].announcing
    ensures Ask(p) !in Sent(steps, m, n, c)
  {
    if m < n {
      NotAnnouncedAgain(states, steps, m, n - 1, p, c);
      PromptsComeOnce(states, steps, m, n - 1, p);
      assert Enabled(states[n - 1], steps[n - 1]);
    }
  }

  /** It happens: a connection can run a turn while a question it was never shown is open. */
  lemma AJoinerCanMissAQuestion()
    ensures exists states: seq<State>, steps: seq<Step>, n: nat, c: Conn, p: Prompt ::
              && IsRun(states, steps) && n < |states| && c in states[n].subscribers
              && p in states[n].pending && p !in states[n].announcing
              && !Shown(states[n], c, p)
  {
    hide Received;
    var steps := [Create, Connect(0), Remember, Announce(0), Join(0)];
    var s0 := State(true, map[], {}, map[], {}, {}, 0);
    var s1 := State(true, map[0 := CONNECTED], {}, map[], {}, {}, 0);
    var s2 := State(true, map[0 := CONNECTED], {}, map[], {0}, {0}, 1);
    var s3 := State(true, map[0 := CONNECTED], {}, map[], {0}, {}, 1);
    var s4 := State(true, map[0 := CONNECTED], {0}, map[], {0}, {}, 1);
    var states := [INITIAL, s0, s1, s2, s3, s4];
    assert Next(s1, Remember).pending == s2.pending && Next(s1, Remember).announcing == s2.announcing;
    assert Next(s2, Announce(0)).queues == s3.queues && Next(s2, Announce(0)).subscribers == s3.subscribers;
    assert Next(s3, Join(0)).subscribers == s4.subscribers;
    assert IsRun(states, steps);
    NothingReceived();
    assert !Shown(states[5], 0, 0);
    assert 0 in states[5].subscribers && 0 in states[5].pending && 0 !in states[5].announcing;
  }
}

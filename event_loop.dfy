/**
 * The consumer event loop of `internal/kafka/kafka.go`: build the
 * payload-fields repository (a failure is fatal before anything is polled),
 * then, while running, either catch a termination signal and stop, or poll
 * the bus and dispatch on the kind of event: a message is counted and handed
 * to the handler, an error is counted, everything else is ignored. The
 * consumer is closed once the loop has stopped.
 *
 * The loop's input is a finite sequence of iterations, each either a pending
 * termination signal or the result of one poll. The handler's work is not
 * modelled: the loop records the messages it hands over.
 */
module EventLoop {
  import opened Models
  import opened Store
  import opened Repository

  /** What a poll can return besides nothing. */
  datatype Event =
    | Message(value: string)           // `*kafka.Message`
    | Error(code: int)                 // `kafka.Error`
    | OffsetsCommitted(failed: bool)   // `kafka.OffsetsCommitted`, with or without an error
    | Other                            // any other event

  /** One iteration: a caught termination signal, or the result of one poll (`None` on timeout). */
  datatype Tick = Signal | Poll(event: Option<Event>)

  /** How the loop ended: a fatal start-up error, a termination signal, or input exhausted while still polling. */
  datatype LoopOutcome = Fatal(reason: string) | Terminated | StillPolling

  /** The two exported counters of the metrics endpoint. */
  class Metrics {
    var consumedMessages: nat
    var consumeErrors: nat

    constructor ()
      ensures consumedMessages == 0 && consumeErrors == 0
    {
      consumedMessages, consumeErrors := 0, 0;
    }

    /** `endpoints.IncConsumedMessages`. */
    method IncConsumedMessages()
      modifies this`consumedMessages
      ensures consumedMessages == old(consumedMessages) + 1
    {
      consumedMessages := consumedMessages + 1;
    }

    /** `endpoints.IncConsumeErrors`. */
    method IncConsumeErrors()
      modifies this`consumeErrors
      ensures consumeErrors == old(consumeErrors) + 1
    {
      consumeErrors := consumeErrors + 1;
    }
  }

  /** The bus consumer, observed through how often it is polled and closed. */
  class Consumer {
    var polls: nat
    var closeCalls: nat

    constructor ()
      ensures polls == 0 && closeCalls == 0
    {
      polls, closeCalls := 0, 0;
    }

    /** `Poll(100)`: one bounded wait on the bus; the event it yields is the iteration's input. */
    method Poll()
      modifies this`polls
      ensures polls == old(polls) + 1
    {
      polls := polls + 1;
    }

    /** `Close`: release the consumer. */
    method Close()
      modifies this`closeCalls
      ensures closeCalls == old(closeCalls) + 1
    {
      closeCalls := closeCalls + 1;
    }
  }

  /** The iteration at which the termination signal is caught, or the input's length when none is. */
  function StopIndex(ticks: seq<Tick>): (k: nat)
    ensures k <= |ticks|
    ensures k < |ticks| ==> ticks[k].Signal?
    ensures forall j | 0 <= j < k :: !ticks[j].Signal?
  {
    if ticks == [] then 0
    else if ticks[0].Signal? then 0
    else 1 + StopIndex(ticks[1..])
  }

  /** The stopping iteration is the first signal: nothing before it is one. */
  lemma StopIndexIsFirstSignal(ticks: seq<Tick>, k: nat)
    requires k <= |ticks| && (k < |ticks| ==> ticks[k].Signal?)
    requires forall j | 0 <= j < k :: !ticks[j].Signal?
    ensures StopIndex(ticks) == k
  {
  }

  /** The messages one iteration hands to the handler. */
  function MessagesOf(t: Tick): seq<string>
  {
    match t
    case Poll(Some(Message(m))) => [m]
    case _ => []
  }

  /** The consume errors one iteration counts. */
  function ErrorsOf(t: Tick): nat
  {
    match t
    case Poll(Some(Error(_))) => 1
    case _ => 0
  }

  /** The messages handed to the handler over a run of iterations, in order. */
  function HandledMessages(ticks: seq<Tick>): seq<string>
  {
    if ticks == [] then [] else MessagesOf(ticks[0]) + HandledMessages(ticks[1..])
  }

  /** The consume errors counted over a run of iterations. */
  function ErrorCount(ticks: seq<Tick>): nat
  {
    if ticks == [] then 0 else ErrorsOf(ticks[0]) + ErrorCount(ticks[1..])
  }

  /** Both tallies of a run are the sums of those of its parts. */
  lemma {:induction false} TalliesOfConcat(a: seq<Tick>, b: seq<Tick>)
    ensures HandledMessages(a + b) == HandledMessages(a) + HandledMessages(b)
    ensures ErrorCount(a + b) == ErrorCount(a) + ErrorCount(b)
  {
    if a == [] {
      assert a + b == b;
    } else {
      assert (a + b)[0] == a[0];
      assert (a + b)[1..] == a[1..] + b;
      TalliesOfConcat(a[1..], b);
    }
  }

  /**
   * Each iteration moves at most one counter: over any run, the handled
   * messages and the counted errors together are at most the polls that
   * returned an event, and a run in which no poll returned a message or an
   * error moves neither counter.
   */
  lemma {:induction false} AtMostOneCountPerEvent(ticks: seq<Tick>)
    ensures |HandledMessages(ticks)| + ErrorCount(ticks) <= |EventsPolled(ticks)|
    ensures (forall i | 0 <= i < |ticks| :: !(ticks[i].Poll? && ticks[i].event.Some? &&
               (ticks[i].event.value.Message? || ticks[i].event.value.Error?))) ==>
            HandledMessages(ticks) == [] && ErrorCount(ticks) == 0
  {
    if ticks != [] {
      AtMostOneCountPerEvent(ticks[1..]);
    }
  }

  /** The events the polls of a run returned, in order (timeouts and signals give none). */
  function EventsPolled(ticks: seq<Tick>): seq<Event>
  {
    if ticks == [] then []
    else (match ticks[0] case Poll(Some(e)) => [e] case _ => []) + EventsPolled(ticks[1..])
  }

  /** The tallies of a run extended by one more iteration. */
  lemma TalliesOfSnoc(ticks: seq<Tick>, n: nat)
    requires n < |ticks|
    ensures HandledMessages(ticks[..n + 1]) == HandledMessages(ticks[..n]) + MessagesOf(ticks[n])
    ensures ErrorCount(ticks[..n + 1]) == ErrorCount(ticks[..n]) + ErrorsOf(ticks[n])
  {
    assert ticks[..n + 1] == ticks[..n] + [ticks[n]];
    TalliesOfConcat(ticks[..n], [ticks[n]]);
    assert [ticks[n]][1..] == [];
  }

  /**
   * `NewConsumerEventLoop`. When the configured repository cannot be built
   * the process stops fatally: nothing is polled, counted or closed.
   * Otherwise every iteration before the first termination signal polls
   * once; each message adds one to the consumed counter and is handed to the
   * handler once, each error adds one to the error counter, and nothing
   * else changes a counter. The signal stops the loop, after which the
   * consumer is closed exactly once; with no signal in the input the loop is
   * still polling and the consumer stays open.
   */
  method NewConsumerEventLoop(impl: string, consumer: Consumer, db: Database, metrics: Metrics, ticks: seq<Tick>)
    returns (outcome: LoopOutcome, handled: seq<string>)
    modifies consumer, metrics
    ensures SelectImplementation(impl) == None ==>
      && outcome == Fatal(ConfigError) && handled == []
      && consumer.polls == old(consumer.polls) && consumer.closeCalls == old(consumer.closeCalls)
      && metrics.consumedMessages == old(metrics.consumedMessages)
      && metrics.consumeErrors == old(metrics.consumeErrors)
    ensures SelectImplementation(impl) != None ==>
      var k := StopIndex(ticks);
      && outcome == (if k < |ticks| then Terminated else StillPolling)
      && consumer.polls == old(consumer.polls) + k
      && handled == HandledMessages(ticks[..k])
      && metrics.consumedMessages == old(metrics.consumedMessages) + |handled|
      && metrics.consumeErrors == old(metrics.consumeErrors) + ErrorCount(ticks[..k])
      && consumer.closeCalls == old(consumer.closeCalls) + (if k < |ticks| then 1 else 0)
  {
    var repo, err := NewPayloadFieldsRepository(db, impl);
    if err.Some? {
      outcome, handled := Fatal(err.value), [];
      return;
    }
    handled := [];
    var run := true;
    var i := 0;
    ghost var polled := 0;
    while run && i < |ticks|
      invariant 0 <= polled <= i <= |ticks|
      invariant run ==> polled == i
      invariant !run ==> polled == i - 1 && ticks[polled].Signal?
      invariant forall j | 0 <= j < polled :: !ticks[j].Signal?
      invariant consumer.polls == old(consumer.polls) + polled
      invariant handled == HandledMessages(ticks[..polled])
      invariant metrics.consumedMessages == old(metrics.consumedMessages) + |handled|
      invariant metrics.consumeErrors == old(metrics.consumeErrors) + ErrorCount(ticks[..polled])
      invariant consumer.closeCalls == old(consumer.closeCalls)
      decreases |ticks| - i
    {
      match ticks[i] {
        case Signal =>
          run := false;
        case Poll(event) =>
          consumer.Poll();
          TalliesOfSnoc(ticks, polled);
          match event {
            case None =>
            case Some(Message(m)) =>
              metrics.IncConsumedMessages();
              handled := handled + [m];
            case Some(Error(_)) =>
              metrics.IncConsumeErrors();
            case Some(OffsetsCommitted(_)) =>
            case Some(Other) =>
          }
          polled := polled + 1;
      }
      i := i + 1;
    }
    if run {
      outcome := StillPolling;
      StopIndexIsFirstSignal(ticks, i);
    } else {
      outcome := Terminated;
      StopIndexIsFirstSignal(ticks, i - 1);
      consumer.Close();
    }
  }
}

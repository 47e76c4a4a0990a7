/**
  The Kafka publisher (internal/kafka_producer/producer.go): a producer with a
  `closed` flag, the guards in front of publishing, the wait for a delivery
  report, and the create-publish-close sequence of `PublishToKafka`. The
  broker is abstract: whether the client library could be created, whether it
  accepted a message and what ended the wait for the report are inputs. The
  messages handed to the library and the calls to its Flush/Close are
  recorded so that the guards can be stated.
 */
module KafkaProducer {
  import opened Wrappers

  /** A message as handed to the library: its topic and its value. */
  datatype Message = Message(topic: string, value: string)

  /**
    What ends the wait after a message was handed over: a delivery report
    (with the delivery error, if any; an event that is not a message report
    counts as one without error), the context finishing, or 30 seconds passing.
   */
  datatype DeliveryWait =
    | Report(deliveryErr: Option<string>)
    | ContextDone(cause: string)
    | Timeout

  const ClosedError: string := "producer is closed"
  const EmptyTopicError: string := "topic cannot be empty"
  const TimeoutError: string := "publish timeout after 30 seconds"
  const EmptyBrokerError: string := "broker URL cannot be empty"

  /** A message reaches the library only when the producer is open and the topic is not empty. */
  predicate Handed(closed: bool, topic: string) {
    !closed && topic != ""
  }

  /** The error the delivery wait ends with, in the order of the `select`. */
  function WaitError(wait: DeliveryWait): (r: Option<string>)
    ensures r.None? <==> wait == Report(None)
  {
    match wait
    case Report(None) => None
    case Report(Some(cause)) => Some("delivery failed: " + cause)
    case ContextDone(cause) => Some("publish cancelled: " + cause)
    case Timeout => Some(TimeoutError)
  }

  /**
    `PublishWithContext`'s error: the closed producer first, then the empty
    topic, then the library refusing the message, then the wait's outcome.
   */
  function PublishResult(closed: bool, topic: string, produceErr: Option<string>, wait: DeliveryWait): (r: Option<string>)
    ensures closed ==> r == Some(ClosedError)
    ensures !closed && topic == "" ==> r == Some(EmptyTopicError)
    ensures Handed(closed, topic) && produceErr.Some? ==> r == Some("failed to produce message: " + produceErr.value)
    ensures Handed(closed, topic) && produceErr.None? ==> r == WaitError(wait)
  {
    if closed then Some(ClosedError)
    else if topic == "" then Some(EmptyTopicError)
    else if produceErr.Some? then Some("failed to produce message: " + produceErr.value)
    else WaitError(wait)
  }

  /** A publish succeeds exactly when the message was handed over, accepted and reported delivered. */
  lemma PublishSucceeds(closed: bool, topic: string, produceErr: Option<string>, wait: DeliveryWait)
    ensures PublishResult(closed, topic, produceErr, wait).None? <==>
      Handed(closed, topic) && produceErr.None? && wait == Report(None)
  {
  }

  /** Once the message is accepted, exactly one of the four outcomes of the wait, each with its own message. */
  lemma DeliveryOutcomes(topic: string, wait: DeliveryWait)
    requires topic != ""
    ensures wait.Report? && wait.deliveryErr.Some? ==>
      PublishResult(false, topic, None, wait) == Some("delivery failed: " + wait.deliveryErr.value)
    ensures wait.ContextDone? ==> PublishResult(false, topic, None, wait) == Some("publish cancelled: " + wait.cause)
    ensures wait.Timeout? ==> PublishResult(false, topic, None, wait) == Some(TimeoutError)
    ensures wait == Report(None) <==> PublishResult(false, topic, None, wait).None?
  {
  }

  /** `NewProducer`'s error: the empty broker before the library is asked, then the library's refusal. */
  function NewProducerResult(brokerURL: string, clientErr: Option<string>): (r: Option<string>)
    ensures r.None? <==> brokerURL != "" && clientErr.None?
    ensures brokerURL == "" ==> r == Some(EmptyBrokerError)
    ensures brokerURL != "" && clientErr.Some? ==> r == Some("failed to create Kafka producer: " + clientErr.value)
  {
    if brokerURL == "" then Some(EmptyBrokerError)
    else if clientErr.Some? then Some("failed to create Kafka producer: " + clientErr.value)
    else None
  }

  /**
    `Producer`: the `closed` flag, the messages handed to the library, and the
    number of times the library was flushed and closed.
   */
  class Producer {
    var closed: bool
    var handed: seq<Message>
    var shutdowns: nat

    /** The library is shut down exactly once, when the producer closes. */
    predicate Valid()
      reads this
    {
      shutdowns == if closed then 1 else 0
    }

    constructor ()
      ensures Valid() && !closed && handed == []
    {
      closed := false;
      handed := [];
      shutdowns := 0;
    }

    /**
      `PublishWithContext`: check the flag, then the topic, then hand the
      message over and wait. The broker argument is not used.
     */
    method PublishWithContext(broker: string, topic: string, message: string,
                              produceErr: Option<string>, wait: DeliveryWait) returns (err: Option<string>)
      requires Valid()
      modifies this
      ensures Valid() && closed == old(closed)
      ensures err == PublishResult(old(closed), topic, produceErr, wait)
      ensures handed == old(handed) + (if Handed(old(closed), topic) then [Message(topic, message)] else [])
    {
      if closed {
        return Some(ClosedError);
      }
      if topic == "" {
        return Some(EmptyTopicError);
      }
      handed := handed + [Message(topic, message)];
      if produceErr.Some? {
        return Some("failed to produce message: " + produceErr.value);
      }
      match wait {
        case Report(deliveryErr) =>
          if deliveryErr.Some? {
            return Some("delivery failed: " + deliveryErr.value);
          }
        case ContextDone(cause) =>
          return Some("publish cancelled: " + cause);
        case Timeout =>
          return Some(TimeoutError);
      }
      return None;
    }

    /** `Publish`: the same under a context that is never done. */
    method Publish(broker: string, topic: string, message: string,
                   produceErr: Option<string>, wait: DeliveryWait) returns (err: Option<string>)
      requires Valid() && !wait.ContextDone?
      modifies this
      ensures Valid() && closed == old(closed)
      ensures err == PublishResult(old(closed), topic, produceErr, wait)
      ensures handed == old(handed) + (if Handed(old(closed), topic) then [Message(topic, message)] else [])
    {
      err := PublishWithContext(broker, topic, message, produceErr, wait);
    }

    /** `Close`: the first call sets the flag and shuts the library down; later calls do nothing. */
    method Close() returns (err: Option<string>)
      requires Valid()
      modifies this
      ensures Valid() && closed && err.None?
      ensures handed == old(handed)
      ensures old(closed) ==> shutdowns == old(shutdowns)
    {
      if closed {
        return None;
      }
      closed := true;
      shutdowns := shutdowns + 1;
      return None;
    }
  }

  /** `NewProducer`: refuse an empty broker before the library is asked; otherwise an open producer. */
  method NewProducer(brokerURL: string, clientErr: Option<string>) returns (p: Producer?, err: Option<string>)
    ensures err == NewProducerResult(brokerURL, clientErr)
    ensures p == null <==> err.Some?
    ensures p != null ==> fresh(p) && p.Valid() && !p.closed && p.handed == []
  {
    if brokerURL == "" {
      return null, Some(EmptyBrokerError);
    }
    if clientErr.Some? {
      return null, Some("failed to create Kafka producer: " + clientErr.value);
    }
    p := new Producer();
    err := None;
  }

  /** `PublishToKafka`'s error: the producer's creation error, or the one publish's. */
  function PublishToKafkaResult(broker: string, topic: string, clientErr: Option<string>,
                                produceErr: Option<string>, wait: DeliveryWait): (r: Option<string>)
    ensures NewProducerResult(broker, clientErr).Some? ==> r == NewProducerResult(broker, clientErr)
    ensures NewProducerResult(broker, clientErr).None? ==> r == PublishResult(false, topic, produceErr, wait)
  {
    if NewProducerResult(broker, clientErr).Some? then NewProducerResult(broker, clientErr)
    else PublishResult(false, topic, produceErr, wait)
  }

  /** An empty broker fails before any producer exists, whatever the topic. */
  lemma PublishToKafkaEmptyBroker(topic: string, clientErr: Option<string>, produceErr: Option<string>, wait: DeliveryWait)
    ensures PublishToKafkaResult("", topic, clientErr, produceErr, wait) == Some(EmptyBrokerError)
  {
  }

  /**
    `PublishToKafka`: create a producer, publish once, and close it on every
    path that created one. `used` is the producer created, if any.
   */
  method PublishToKafka(broker: string, topic: string, message: string, clientErr: Option<string>,
                        produceErr: Option<string>, wait: DeliveryWait) returns (err: Option<string>, ghost used: Producer?)
    requires !wait.ContextDone?
    ensures err == PublishToKafkaResult(broker, topic, clientErr, produceErr, wait)
    ensures used == null <==> NewProducerResult(broker, clientErr).Some?
    ensures used != null ==> used.closed && used.shutdowns == 1
    ensures used != null ==> used.handed == if topic != "" then [Message(topic, message)] else []
  {
    var p, createErr := NewProducer(broker, clientErr);
    if createErr.Some? {
      return createErr, null;
    }
    used := p;
    err := p.Publish(broker, topic, message, produceErr, wait);
    var _ := p.Close();
  }

  /** Closing twice, then publishing: the second close changes nothing and the publish is refused unsent. */
  method CloseTwiceThenPublish(topic: string, message: string) returns (first: Option<string>, second: Option<string>,
                                                                         publish: Option<string>, handed: seq<Message>, shutdowns: nat)
    ensures first.None? && second.None?
    ensures publish == Some(ClosedError)
    ensures handed == [] && shutdowns == 1
  {
    var p := new Producer();
    first := p.Close();
    second := p.Close();
    publish := p.PublishWithContext("localhost:9092", topic, message, None, Report(None));
    handed := p.handed;
    shutdowns := p.shutdowns;
  }
}

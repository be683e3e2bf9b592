/** The in-memory work queue. */
module WorkQueues {
  import opened Wrappers
  import opened Ledgers

  /** A published job. The payload repeats the job, its item and the item's type. */
  datatype Message = Message(queue: QueueName, id: int, job: int, work: int, kind: WorkType)

  datatype QueueData = QueueData(waiting: seq<Message>, acked: set<int>, deadLetters: seq<int>, counter: int) {
    /** The next message carries the next number. */
    function Publish(queue: QueueName, job: int, work: int, kind: WorkType): QueueData {
      this.(waiting := waiting + [Message(queue, counter + 1, job, work, kind)], counter := counter + 1)
    }

    function Take(names: set<QueueName>, count: int): QueueData {
      this.(waiting := Kept(waiting, names, count))
    }

    function Ack(message: Message): QueueData {
      this.(acked := acked + {message.id})
    }

    function DeadLetter(job: int): QueueData {
      this.(deadLetters := deadLetters + [job])
    }
  }

  predicate Wanted(m: Message, names: set<QueueName>, count: int) {
    m.queue in names && 0 < count
  }

  /** The first count messages of the named queues, in order. */
  function Taken(messages: seq<Message>, names: set<QueueName>, count: int): seq<Message> {
    if messages == [] then []
    else if Wanted(messages[0], names, count) then [messages[0]] + Taken(messages[1..], names, count - 1)
    else Taken(messages[1..], names, count)
  }

  /** All other messages, in order. */
  function Kept(messages: seq<Message>, names: set<QueueName>, count: int): seq<Message> {
    if messages == [] then []
    else if Wanted(messages[0], names, count) then Kept(messages[1..], names, count - 1)
    else [messages[0]] + Kept(messages[1..], names, count)
  }

  /** The messages of one queue, in order. */
  function Only(messages: seq<Message>, queue: QueueName): seq<Message> {
    if messages == [] then []
    else (if messages[0].queue == queue then [messages[0]] else []) + Only(messages[1..], queue)
  }

  lemma OnlyOfCons(m: Message, rest: seq<Message>, queue: QueueName)
    ensures Only([m] + rest, queue) == if m.queue == queue then [m] + Only(rest, queue) else Only(rest, queue)
  {
    assert ([m] + rest)[1..] == rest;
  }

  lemma {:induction false} OnlyOfSum(a: seq<Message>, b: seq<Message>, queue: QueueName)
    ensures Only(a + b, queue) == Only(a, queue) + Only(b, queue)
  {
    if a == [] {
      assert a + b == b;
    } else {
      assert a == [a[0]] + a[1..] && a + b == [a[0]] + (a[1..] + b);
      OnlyOfCons(a[0], a[1..], queue);
      OnlyOfCons(a[0], a[1..] + b, queue);
      OnlyOfSum(a[1..], b, queue);
    }
  }

  /** A read is a stable partition: in every queue the delivered messages come before the kept ones. */
  lemma {:induction false} ReadIsStablePartition(messages: seq<Message>, names: set<QueueName>, count: int,
      queue: QueueName)
    ensures Only(messages, queue)
         == Only(Taken(messages, names, count), queue) + Only(Kept(messages, names, count), queue)
  {
    if messages != [] {
      var m, rest := messages[0], messages[1..];
      assert messages == [m] + rest;
      OnlyOfCons(m, rest, queue);
      if Wanted(m, names, count) {
        ReadIsStablePartition(rest, names, count - 1, queue);
        OnlyOfCons(m, Taken(rest, names, count - 1), queue);
      } else {
        ReadIsStablePartition(rest, names, count, queue);
        OnlyOfCons(m, Kept(rest, names, count), queue);
        if m.queue == queue {
          NothingTaken(rest, names, count, queue);
        }
      }
    }
  }

  /** What is delivered is wanted, and once a wanted queue is passed over nothing more of it is delivered. */
  lemma {:induction false} NothingTaken(messages: seq<Message>, names: set<QueueName>, count: int, queue: QueueName)
    requires queue !in names || count <= 0
    ensures Only(Taken(messages, names, count), queue) == []
  {
    if messages != [] {
      var rest := messages[1..];
      if Wanted(messages[0], names, count) {
        NothingTaken(rest, names, count - 1, queue);
        OnlyOfCons(messages[0], Taken(rest, names, count - 1), queue);
      } else {
        NothingTaken(rest, names, count, queue);
      }
    }
  }

  /** One read takes everything it may: either it is full or nothing wanted is left. */
  lemma {:induction false} ReadIsGreedy(messages: seq<Message>, names: set<QueueName>, count: int)
    ensures |Taken(messages, names, count)| <= Max(0, count)
    ensures |Taken(messages, names, count)| < count ==>
      forall m :: m in Kept(messages, names, count) ==> m.queue !in names
    ensures forall m :: m in Taken(messages, names, count) ==> m.queue in names && m in messages
  {
    if messages != [] {
      ReadIsGreedy(messages[1..], names, if Wanted(messages[0], names, count) then count - 1 else count);
    }
  }

  /** What happens to a queue over time. */
  datatype QueueEvent = Published(message: Message) | WasRead(names: set<QueueName>, count: int)

  function WaitingAfter(history: seq<QueueEvent>): seq<Message> {
    if history == [] then [] else
    var before := WaitingAfter(history[..|history| - 1]);
    match history[|history| - 1]
    case Published(m) => before + [m]
    case WasRead(names, count) => Kept(before, names, count)
  }

  function PublishedIn(history: seq<QueueEvent>): seq<Message> {
    if history == [] then [] else
    var before := PublishedIn(history[..|history| - 1]);
    match history[|history| - 1]
    case Published(m) => before + [m]
    case WasRead(_, _) => before
  }

  function DeliveredIn(history: seq<QueueEvent>): seq<Message> {
    if history == [] then [] else
    var front := history[..|history| - 1];
    match history[|history| - 1]
    case Published(_) => DeliveredIn(front)
    case WasRead(names, count) => DeliveredIn(front) + Taken(WaitingAfter(front), names, count)
  }

  /** The messages of a queue are split between those delivered and those that wait. */
  predicate InOrder(published: seq<Message>, delivered: seq<Message>, waiting: seq<Message>, queue: QueueName) {
    Only(published, queue) == Only(delivered, queue) + Only(waiting, queue)
  }

  lemma PublishKeepsOrder(published: seq<Message>, delivered: seq<Message>, waiting: seq<Message>, m: Message,
      queue: QueueName)
    requires InOrder(published, delivered, waiting, queue)
    ensures InOrder(published + [m], delivered, waiting + [m], queue)
  {
    OnlyOfSum(published, [m], queue);
    OnlyOfSum(waiting, [m], queue);
  }

  lemma ReadKeepsOrder(published: seq<Message>, delivered: seq<Message>, waiting: seq<Message>,
                       names: set<QueueName>, count: int, queue: QueueName)
    requires InOrder(published, delivered, waiting, queue)
    ensures InOrder(published, delivered + Taken(waiting, names, count), Kept(waiting, names, count), queue)
  {
    ReadIsStablePartition(waiting, names, count, queue);
    OnlyOfSum(delivered, Taken(waiting, names, count), queue);
  }

  /** Over any history, with any readers: what was published to a queue is what was delivered from it
      followed by what waits, so deliveries are a prefix, in order, without loss or repetition. */
  lemma {:induction false} DeliveriesArePrefix(history: seq<QueueEvent>, queue: QueueName)
    ensures InOrder(PublishedIn(history), DeliveredIn(history), WaitingAfter(history), queue)
    ensures Only(DeliveredIn(history), queue) <= Only(PublishedIn(history), queue)
  {
    if history != [] {
      var front := history[..|history| - 1];
      DeliveriesArePrefix(front, queue);
      var published, delivered, waiting := PublishedIn(front), DeliveredIn(front), WaitingAfter(front);
      match history[|history| - 1] {
        case Published(m) =>
          PublishKeepsOrder(published, delivered, waiting, m, queue);
        case WasRead(names, count) =>
          ReadKeepsOrder(published, delivered, waiting, names, count, queue);
      }
    }
  }

  class InMemoryWorkQueue {
    var messages: seq<Message>
    var acked: seq<(QueueName, int)>
    var deadLetters: seq<int>
    var counter: int

    ghost function Model(): QueueData
      reads this
    {
      QueueData(messages, set a | a in acked :: a.1, deadLetters, counter)
    }

    constructor ()
      ensures Model() == QueueData([], {}, [], 0)
    {
      messages, acked, deadLetters, counter := [], [], [], 0;
    }

    method Enqueue(queue: QueueName, job: int, work: int, kind: WorkType) returns (id: int)
      modifies this
      ensures Model() == old(Model()).Publish(queue, job, work, kind) && id == Model().counter
    {
      counter := counter + 1;
      messages := messages + [Message(queue, counter, job, work, kind)];
      id := counter;
    }

    method Read(names: set<QueueName>, count: int) returns (result: seq<Message>)
      modifies this
      ensures result == Taken(old(messages), names, count) && Model() == old(Model()).Take(names, count)
    {
      var kept: seq<Message> := [];
      result := [];
      for i := 0 to |messages|
        invariant messages == old(messages) && acked == old(acked) && deadLetters == old(deadLetters)
          && counter == old(counter)
        invariant Taken(messages, names, count) == result + Taken(messages[i..], names, count - |result|)
        invariant Kept(messages, names, count) == kept + Kept(messages[i..], names, count - |result|)
      {
        assert messages[i..][1..] == messages[i + 1..];
        if messages[i].queue in names && |result| < count {
          result := result + [messages[i]];
        } else {
          kept := kept + [messages[i]];
        }
      }
      messages := kept;
    }

    method Ack(queue: QueueName, id: int)
      modifies this
      ensures Model() == old(Model()).(acked := old(Model()).acked + {id})
    {
      acked := acked + [(queue, id)];
      assert acked[|acked| - 1] == (queue, id);
      assert forall a :: a in acked <==> a in old(acked) || a == (queue, id);
    }

    method DeadLetter(job: int)
      modifies this
      ensures Model() == old(Model()).DeadLetter(job)
    {
      deadLetters := deadLetters + [job];
    }
  }
}

/** Where every job and its message are: published, waiting, held by a worker, acknowledged, or stranded. */
module Deliveries {
  import opened Wrappers
  import opened Ledgers
  import opened WorkQueues

  /** A message in a worker's hands, before or after the job was marked running. */
  datatype Holding = Holding(message: Message, started: bool, runnable: bool)

  /** The part of the system that moves jobs. */
  datatype Line = Line(jobs: map<int, Job>, waiting: seq<Message>, held: map<int, Holding>, acked: set<int>,
      counter: int)

  predicate IsLive(l: Line, j: int) {
    j in l.jobs && IsActive(l.jobs[j].status)
  }

  ghost predicate OneActive(l: Line) {
    forall j, k :: IsLive(l, j) && IsLive(l, k) && l.jobs[j].work == l.jobs[k].work ==> j == k
  }

  /** The message is the one its job was published with, not yet acknowledged, and the job has the status. */
  predicate Carries(l: Line, m: Message, s: JobStatus) {
    && m.job in l.jobs
    && l.jobs[m.job].status == s && l.jobs[m.job].message == Some(m.id)
    && l.jobs[m.job].work == m.work && l.jobs[m.job].kind == m.kind
    && m.id !in l.acked
  }

  function StatusHeld(h: Holding): JobStatus {
    if h.started then InProgress else Queued
  }

  ghost predicate WaitingFits(l: Line) {
    forall i :: 0 <= i < |l.waiting| ==> Carries(l, l.waiting[i], Queued)
  }

  ghost predicate HeldFits(l: Line) {
    forall w :: w in l.held ==> Carries(l, l.held[w].message, StatusHeld(l.held[w]))
  }

  ghost predicate WaitingDistinct(l: Line) {
    forall i, k :: 0 <= i < k < |l.waiting| ==> l.waiting[i].job != l.waiting[k].job
  }

  ghost predicate HeldDistinct(l: Line) {
    forall v, w :: v in l.held && w in l.held && l.held[v].message.job == l.held[w].message.job ==> v == w
  }

  ghost predicate Apart(l: Line) {
    forall i, w :: 0 <= i < |l.waiting| && w in l.held ==> l.waiting[i].job != l.held[w].message.job
  }

  predicate InQueue(l: Line, j: int) {
    exists i :: 0 <= i < |l.waiting| && l.waiting[i].job == j
  }

  predicate InHand(l: Line, j: int, started: bool) {
    exists w :: w in l.held && l.held[w].message.job == j && l.held[w].started == started
  }

  predicate Acknowledged(l: Line, j: int)
    requires j in l.jobs
  {
    l.jobs[j].message.Some? && l.jobs[j].message.value in l.acked
  }

  /** The status of a job says where its message is. */
  predicate Placed(l: Line, j: int)
    requires j in l.jobs
  {
    match l.jobs[j].status
    case Fresh => false
    case Queued => InQueue(l, j) || InHand(l, j, false)
    case EnqueueFailed => l.jobs[j].message == None
    case InProgress => InHand(l, j, true)
    case RetryWait => l.jobs[j].message.Some? && !Acknowledged(l, j)
    case Done => Acknowledged(l, j)
    case DeadLetter => Acknowledged(l, j)
  }

  ghost predicate AllPlaced(l: Line) {
    forall j :: j in l.jobs ==> Placed(l, j)
  }

  /** Message numbers are unique and none is ahead of the counter. */
  ghost predicate Numbered(l: Line) {
    && (forall j :: j in l.jobs && l.jobs[j].message.Some? ==> l.jobs[j].message.value <= l.counter)
    && (forall j, k :: j in l.jobs && k in l.jobs && l.jobs[j].message.Some? && l.jobs[j].message == l.jobs[k].message
         ==> j == k)
    && (forall id :: id in l.acked ==> id <= l.counter)
  }

  /** A job is counted once, when it starts. */
  predicate Counted(job: Job) {
    && (job.status in {Fresh, Queued, EnqueueFailed} ==> job.attempts == 0)
    && (job.status == InProgress ==> job.attempts == 1)
    && 0 <= job.attempts <= 1 <= job.maxAttempts
  }

  ghost predicate AllCounted(l: Line) {
    forall j :: j in l.jobs ==> Counted(l.jobs[j])
  }

  ghost predicate Coherent(l: Line) {
    && OneActive(l) && WaitingFits(l) && HeldFits(l) && WaitingDistinct(l) && HeldDistinct(l) && Apart(l)
    && AllPlaced(l) && Numbered(l) && AllCounted(l)
  }

  /** A new job row before its message is published. */
  function NewJob(work: int, kind: WorkType, maxAttempts: int): Job {
    Job(work, kind, Fresh, 0, maxAttempts, None)
  }

  function AfterPublish(l: Line, j: int, work: int, kind: WorkType, maxAttempts: int): Line {
    var id := l.counter + 1;
    l.(jobs := l.jobs[j := NewJob(work, kind, maxAttempts).(status := Queued, message := Some(id))],
       waiting := l.waiting + [Message(QueueFor(kind), id, j, work, kind)], counter := id)
  }

  function AfterNoPublish(l: Line, j: int, work: int, kind: WorkType, maxAttempts: int): Line {
    l.(jobs := l.jobs[j := NewJob(work, kind, maxAttempts).(status := EnqueueFailed)])
  }

  function AfterTake(l: Line, worker: int, names: set<QueueName>): Line {
    var taken := Taken(l.waiting, names, 1);
    if taken == [] then l
    else l.(waiting := Kept(l.waiting, names, 1), held := l.held[worker := Holding(taken[0], false, false)])
  }

  function AfterBegin(l: Line, worker: int, runnable: bool): Line
    requires worker in l.held && l.held[worker].message.job in l.jobs
  {
    var m := l.held[worker].message;
    var row := l.jobs[m.job];
    l.(jobs := l.jobs[m.job := row.(status := InProgress, attempts := row.attempts + 1)],
       held := l.held[worker := Holding(m, true, runnable)])
  }

  /** The worker lets go; a message is acknowledged unless its job waits for a retry. */
  function AfterSettle(l: Line, worker: int, s: JobStatus): Line
    requires worker in l.held && l.held[worker].message.job in l.jobs
  {
    var m := l.held[worker].message;
    l.(jobs := l.jobs[m.job := l.jobs[m.job].(status := s)],
       held := l.held - {worker},
       acked := if s == RetryWait then l.acked else l.acked + {m.id})
  }

  ghost predicate NoActive(l: Line, work: int) {
    forall j :: IsLive(l, j) ==> l.jobs[j].work != work
  }

  lemma PublishKeepsFits(l: Line, j: int, work: int, kind: WorkType, maxAttempts: int)
    requires WaitingFits(l) && HeldFits(l) && Numbered(l) && j !in l.jobs
    ensures WaitingFits(AfterPublish(l, j, work, kind, maxAttempts))
    ensures HeldFits(AfterPublish(l, j, work, kind, maxAttempts))
  {
    var r := AfterPublish(l, j, work, kind, maxAttempts);
    forall i | 0 <= i < |r.waiting| ensures Carries(r, r.waiting[i], Queued) {
      if i < |l.waiting| {
        assert Carries(l, l.waiting[i], Queued);
      }
    }
    forall w | w in r.held ensures Carries(r, r.held[w].message, StatusHeld(r.held[w])) {
      assert Carries(l, l.held[w].message, StatusHeld(l.held[w]));
    }
  }

  lemma PublishKeepsPlaces(l: Line, j: int, work: int, kind: WorkType, maxAttempts: int)
    requires AllPlaced(l) && j !in l.jobs
    ensures AllPlaced(AfterPublish(l, j, work, kind, maxAttempts))
  {
    var r := AfterPublish(l, j, work, kind, maxAttempts);
    forall k | k in r.jobs ensures Placed(r, k) {
      if k == j {
        assert r.waiting[|l.waiting|].job == j;
      } else {
        assert Placed(l, k);
        PlaceStays(l, r, k);
      }
    }
  }

  /** The new job is alone: no waiting or held message is for it, and its item has no other active job. */
  lemma PublishKeepsApart(l: Line, j: int, work: int, kind: WorkType, maxAttempts: int)
    requires Coherent(l) && j !in l.jobs && NoActive(l, work)
    ensures var r := AfterPublish(l, j, work, kind, maxAttempts);
      OneActive(r) && WaitingDistinct(r) && HeldDistinct(r) && Apart(r)
  {
    var r := AfterPublish(l, j, work, kind, maxAttempts);
    forall i | 0 <= i < |l.waiting| ensures l.waiting[i].job != j {
      assert Carries(l, l.waiting[i], Queued);
    }
    forall w | w in l.held ensures l.held[w].message.job != j {
      assert Carries(l, l.held[w].message, StatusHeld(l.held[w]));
    }
    assert forall k :: IsLive(r, k) && k != j ==> IsLive(l, k);
  }

  lemma PublishKeepsCoherent(l: Line, j: int, work: int, kind: WorkType, maxAttempts: int)
    requires Coherent(l) && j !in l.jobs && NoActive(l, work) && maxAttempts >= 1
    ensures Coherent(AfterPublish(l, j, work, kind, maxAttempts))
  {
    PublishKeepsFits(l, j, work, kind, maxAttempts);
    PublishKeepsPlaces(l, j, work, kind, maxAttempts);
    PublishKeepsApart(l, j, work, kind, maxAttempts);
  }

  /** A message stays in its queue or hand when the queue and the hands only gain. */
  lemma PlaceStays(l: Line, r: Line, k: int)
    requires k in l.jobs && k in r.jobs && r.jobs[k] == l.jobs[k] && Placed(l, k)
    requires l.waiting <= r.waiting && l.held == r.held && l.acked == r.acked
    ensures Placed(r, k)
  {
    if InQueue(l, k) {
      var i :| 0 <= i < |l.waiting| && l.waiting[i].job == k;
      assert r.waiting[i].job == k;
    }
  }

  lemma NoPublishKeepsCoherent(l: Line, j: int, work: int, kind: WorkType, maxAttempts: int)
    requires Coherent(l) && j !in l.jobs && maxAttempts >= 1
    ensures Coherent(AfterNoPublish(l, j, work, kind, maxAttempts))
  {
    var r := AfterNoPublish(l, j, work, kind, maxAttempts);
    forall i | 0 <= i < |r.waiting| ensures Carries(r, r.waiting[i], Queued) {
      assert Carries(l, l.waiting[i], Queued);
    }
    forall w | w in r.held ensures Carries(r, r.held[w].message, StatusHeld(r.held[w])) {
      assert Carries(l, l.held[w].message, StatusHeld(l.held[w]));
    }
    forall k | k in r.jobs ensures Placed(r, k) {
      if k != j {
        assert Placed(l, k);
        PlaceStays(l, r, k);
      }
    }
    assert forall k :: IsLive(r, k) ==> IsLive(l, k);
  }

  /** Taking the k-th of the rest is taking the next one of the whole. */
  lemma CutBehind(m: Message, rest: seq<Message>, k: nat)
    requires k < |rest|
    ensures var all := [m] + rest;
      all[k + 1] == rest[k] && all[..k + 1] + all[k + 2..] == [m] + (rest[..k] + rest[k + 1..])
  {
    var all := [m] + rest;
    assert all[..k + 1] == [m] + rest[..k] && all[k + 2..] == rest[k + 1..];
  }

  /** Reading one message takes one out of the middle of the queue, or nothing. */
  lemma {:induction false} TakesOne(messages: seq<Message>, names: set<QueueName>) returns (k: nat)
    ensures if Taken(messages, names, 1) == [] then Kept(messages, names, 1) == messages
            else k < |messages| && Taken(messages, names, 1) == [messages[k]]
                 && Kept(messages, names, 1) == messages[..k] + messages[k + 1..]
  {
    k := 0;
    if messages != [] {
      var m, rest := messages[0], messages[1..];
      assert messages == [m] + rest;
      if Wanted(m, names, 1) {
        TakesNone(rest, names);
      } else {
        var behind := TakesOne(rest, names);
        if Taken(messages, names, 1) != [] {
          k := behind + 1;
          CutBehind(m, rest, behind);
        }
      }
    }
  }

  lemma {:induction false} TakesNone(messages: seq<Message>, names: set<QueueName>)
    ensures Taken(messages, names, 0) == [] && Kept(messages, names, 0) == messages
  {
    if messages != [] {
      TakesNone(messages[1..], names);
      assert messages == [messages[0]] + messages[1..];
    }
  }

  /** Taking the k-th message into an empty hand. */
  function Picked(l: Line, worker: int, k: nat): Line
    requires k < |l.waiting|
  {
    l.(waiting := l.waiting[..k] + l.waiting[k + 1..], held := l.held[worker := Holding(l.waiting[k], false, false)])
  }

  function Before(k: nat, i: nat): nat {
    if i < k then i else i + 1
  }

  /** Which waiting message each remaining one was. */
  lemma PickedAt(l: Line, worker: int, k: nat, i: nat)
    requires k < |l.waiting| && i < |Picked(l, worker, k).waiting|
    ensures Before(k, i) != k && Before(k, i) < |l.waiting|
    ensures Picked(l, worker, k).waiting[i] == l.waiting[Before(k, i)]
  {
  }

  lemma PickKeepsWaitingDistinct(l: Line, worker: int, k: nat)
    requires WaitingDistinct(l) && k < |l.waiting|
    ensures WaitingDistinct(Picked(l, worker, k))
  {
    var r := Picked(l, worker, k);
    forall i, j | 0 <= i < j < |r.waiting| ensures r.waiting[i].job != r.waiting[j].job {
      PickedAt(l, worker, k, i);
      PickedAt(l, worker, k, j);
    }
  }

  lemma PickKeepsApart(l: Line, worker: int, k: nat)
    requires WaitingDistinct(l) && Apart(l) && worker !in l.held && k < |l.waiting|
    ensures Apart(Picked(l, worker, k))
  {
    var r := Picked(l, worker, k);
    forall i, w | 0 <= i < |r.waiting| && w in r.held ensures r.waiting[i].job != r.held[w].message.job {
      PickedAt(l, worker, k, i);
    }
  }

  lemma PickKeepsHeldDistinct(l: Line, worker: int, k: nat)
    requires HeldDistinct(l) && Apart(l) && worker !in l.held && k < |l.waiting|
    ensures HeldDistinct(Picked(l, worker, k))
  {
    assert l.waiting[k].job == Picked(l, worker, k).held[worker].message.job;
  }

  lemma PickKeepsCoherent(l: Line, worker: int, k: nat)
    requires Coherent(l) && worker !in l.held && k < |l.waiting|
    ensures Coherent(Picked(l, worker, k))
  {
    PickKeepsFits(l, worker, k);
    PickKeepsPlaces(l, worker, k);
    PickKeepsWaitingDistinct(l, worker, k);
    PickKeepsHeldDistinct(l, worker, k);
    PickKeepsApart(l, worker, k);
    assert forall j :: IsLive(Picked(l, worker, k), j) ==> IsLive(l, j);
  }

  lemma PickKeepsFits(l: Line, worker: int, k: nat)
    requires WaitingFits(l) && HeldFits(l) && worker !in l.held && k < |l.waiting|
    ensures WaitingFits(Picked(l, worker, k)) && HeldFits(Picked(l, worker, k))
  {
    var r := Picked(l, worker, k);
    forall i | 0 <= i < |r.waiting| ensures Carries(r, r.waiting[i], Queued) {
      PickedAt(l, worker, k, i);
      assert Carries(l, l.waiting[Before(k, i)], Queued);
    }
    forall w | w in r.held ensures Carries(r, r.held[w].message, StatusHeld(r.held[w])) {
      if w == worker {
        assert Carries(l, l.waiting[k], Queued);
      } else {
        assert Carries(l, l.held[w].message, StatusHeld(l.held[w]));
      }
    }
  }

  lemma PickKeepsPlaces(l: Line, worker: int, k: nat)
    requires AllPlaced(l) && worker !in l.held && k < |l.waiting|
    ensures AllPlaced(Picked(l, worker, k))
  {
    var r := Picked(l, worker, k);
    forall j | j in r.jobs ensures Placed(r, j) {
      assert Placed(l, j);
      if InQueue(l, j) {
        var i :| 0 <= i < |l.waiting| && l.waiting[i].job == j;
        if i < k {
          assert r.waiting[i].job == j;
        } else if i > k {
          assert r.waiting[i - 1].job == j;
        } else {
          assert r.held[worker].message.job == j && !r.held[worker].started;
        }
      }
      HandStays(l, r, j, true);
      HandStays(l, r, j, false);
    }
  }

  lemma HandStays(l: Line, r: Line, j: int, started: bool)
    requires forall w :: w in l.held ==> w in r.held && r.held[w] == l.held[w]
    ensures InHand(l, j, started) ==> InHand(r, j, started)
  {
    if InHand(l, j, started) {
      var w :| w in l.held && l.held[w].message.job == j && l.held[w].started == started;
      assert w in r.held && r.held[w].message.job == j && r.held[w].started == started;
    }
  }

  lemma TakeKeepsCoherent(l: Line, worker: int, names: set<QueueName>)
    requires Coherent(l) && worker !in l.held
    ensures Coherent(AfterTake(l, worker, names))
  {
    var k := TakesOne(l.waiting, names);
    if Taken(l.waiting, names, 1) != [] {
      assert AfterTake(l, worker, names) == Picked(l, worker, k);
      PickKeepsCoherent(l, worker, k);
    }
  }

  lemma BeginKeepsCoherent(l: Line, worker: int, runnable: bool)
    requires Coherent(l) && worker in l.held && !l.held[worker].started
    ensures l.held[worker].message.job in l.jobs
    ensures Coherent(AfterBegin(l, worker, runnable))
  {
    var m := l.held[worker].message;
    assert Carries(l, m, Queued);
    var r := AfterBegin(l, worker, runnable);
    HandChangesOthers(l, worker, r);
    forall w | w in r.held ensures Carries(r, r.held[w].message, StatusHeld(r.held[w])) {
      if w != worker {
        assert Carries(l, l.held[w].message, StatusHeld(l.held[w]));
      }
    }
    forall j | j in r.jobs ensures Placed(r, j) {
      assert Placed(l, j);
      if j == m.job {
        assert r.held[worker].message.job == j && r.held[worker].started;
      } else {
        HandOfOthers(l, worker, r, j, true);
        HandOfOthers(l, worker, r, j, false);
        assert InQueue(l, j) == InQueue(r, j);
      }
    }
    assert forall j :: IsLive(r, j) <==> IsLive(l, j);
  }

  /** Changing one held job leaves the waiting messages fitting: none of them is for that job. */
  lemma HandChangesOthers(l: Line, worker: int, r: Line)
    requires Coherent(l) && worker in l.held && r.waiting == l.waiting
    requires forall j :: j in l.jobs ==> j in r.jobs && (j != l.held[worker].message.job ==> r.jobs[j] == l.jobs[j])
    requires forall id :: id in r.acked ==> id in l.acked || id == l.held[worker].message.id
    ensures WaitingFits(r)
  {
    assert Carries(l, l.held[worker].message, StatusHeld(l.held[worker]));
    forall i | 0 <= i < |r.waiting| ensures Carries(r, r.waiting[i], Queued) {
      assert Carries(l, l.waiting[i], Queued);
    }
  }

  lemma HandOfOthers(l: Line, worker: int, r: Line, j: int, started: bool)
    requires worker in l.held && j != l.held[worker].message.job
    requires forall w :: w in l.held && w != worker ==> w in r.held && r.held[w] == l.held[w]
    ensures InHand(l, j, started) ==> InHand(r, j, started)
  {
    if InHand(l, j, started) {
      var w :| w in l.held && l.held[w].message.job == j && l.held[w].started == started;
      assert w in r.held && r.held[w].message.job == j && r.held[w].started == started;
    }
  }

  lemma SettleKeepsCoherent(l: Line, worker: int, s: JobStatus)
    requires Coherent(l) && worker in l.held && s in {Done, DeadLetter, RetryWait}
    ensures l.held[worker].message.job in l.jobs
    ensures Coherent(AfterSettle(l, worker, s))
  {
    var m := l.held[worker].message;
    assert Carries(l, m, StatusHeld(l.held[worker]));
    var r := AfterSettle(l, worker, s);
    HandChangesOthers(l, worker, r);
    forall w | w in r.held ensures Carries(r, r.held[w].message, StatusHeld(r.held[w])) {
      assert Carries(l, l.held[w].message, StatusHeld(l.held[w]));
      assert l.held[w].message.job != m.job;
    }
    forall j | j in r.jobs ensures Placed(r, j) {
      assert Placed(l, j);
      if j != m.job {
        HandOfOthers(l, worker, r, j, true);
        HandOfOthers(l, worker, r, j, false);
        assert InQueue(l, j) == InQueue(r, j);
        assert l.jobs[j].message != Some(m.id);
      }
    }
    assert forall j :: IsLive(r, j) ==> IsLive(l, j);
  }

  /** After a job is done or dead, its item has no active job. */
  lemma SettleFrees(l: Line, worker: int, s: JobStatus)
    requires Coherent(l) && worker in l.held && s in {Done, DeadLetter}
    ensures l.held[worker].message.job in l.jobs
    ensures NoActive(AfterSettle(l, worker, s), l.held[worker].message.work)
  {
    var m := l.held[worker].message;
    assert Carries(l, m, StatusHeld(l.held[worker]));
    var r := AfterSettle(l, worker, s);
    assert IsLive(l, m.job);
    assert forall j :: IsLive(r, j) ==> IsLive(l, j) && j != m.job;
  }

  /** Nobody will read the message again: its job waits for a retry. */
  predicate Stranded(l: Line, j: int)
    requires j in l.jobs
  {
    l.jobs[j].status == RetryWait && !Acknowledged(l, j)
  }

  function Count(b: bool): int {
    if b then 1 else 0
  }

  /** Every published message is in exactly one place: waiting, in one worker's hands, acknowledged, or
      stranded with its job in retry_wait. */
  lemma ExactlyOnePlace(l: Line, j: int)
    requires Coherent(l) && j in l.jobs && l.jobs[j].message.Some?
    ensures Count(InQueue(l, j)) + Count(InHand(l, j, false)) + Count(InHand(l, j, true)) + Count(Acknowledged(l, j))
          + Count(Stranded(l, j)) == 1
  {
    assert Placed(l, j);
    QueueSaysQueued(l, j);
    HandSaysStatus(l, j, true);
    HandSaysStatus(l, j, false);
  }

  lemma QueueSaysQueued(l: Line, j: int)
    requires Coherent(l) && j in l.jobs
    ensures InQueue(l, j) ==> l.jobs[j].status == Queued && !Acknowledged(l, j)
  {
    if InQueue(l, j) {
      var i :| 0 <= i < |l.waiting| && l.waiting[i].job == j;
      assert Carries(l, l.waiting[i], Queued);
    }
  }

  lemma HandSaysStatus(l: Line, j: int, started: bool)
    requires Coherent(l) && j in l.jobs
    ensures InHand(l, j, started) ==>
      l.jobs[j].status == (if started then InProgress else Queued) && !Acknowledged(l, j)
  {
    if InHand(l, j, started) {
      var w :| w in l.held && l.held[w].message.job == j && l.held[w].started == started;
      assert Carries(l, l.held[w].message, StatusHeld(l.held[w]));
    }
  }
}

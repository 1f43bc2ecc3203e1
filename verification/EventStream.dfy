/** The SSE tail of a run's event log: a generator that polls the database in
    batches and can be resumed after any received event. Ids are handed out when
    a row is inserted and rows become visible when their transaction commits, so
    an earlier id may become visible after a later one; the theorems say exactly
    when that costs the client an event. */
module EventStream {
  import opened Basics
  import opened StateMachines
  import opened Graphs
  import opened RunRows
  import opened Runtime
  import opened Invariant
  import opened History

  /** A RunEvent row with its auto-increment id. */
  datatype Record = Record(id: nat, event: Event)

  /** What one iteration reads, whether the run is terminal and then the log in
      the order of its ids, and how many of the frames it sends get through. */
  datatype Poll = Poll(terminal: bool, log: seq<Record>, through: nat)

  const BATCH: nat := 50

  ghost predicate Increasing(log: seq<Record>) {
    forall i, j :: 0 <= i < j < |log| ==> log[i].id < log[j].id
  }

  /** The events after an id, in log order. */
  function Later(log: seq<Record>, id: nat): seq<Record> {
    if log == [] then []
    else (if log[0].id > id then [log[0]] else []) + Later(log[1..], id)
  }

  /** The batch SELECT: id greater than the last one sent, ordered, limited. */
  function Batch(log: seq<Record>, last: nat, limit: nat): seq<Record> {
    if log == [] || limit == 0 then []
    else if log[0].id > last then [log[0]] + Batch(log[1..], last, limit - 1)
    else Batch(log[1..], last, limit)
  }

  /** The events after an id are exactly the records with a greater id, each
      once and in increasing order. */
  lemma {:induction false} LaterExact(full: seq<Record>, start: nat)
    requires Increasing(full)
    ensures Increasing(Later(full, start))
    ensures forall r :: r in Later(full, start) <==> r in full && start < r.id
  {
    if full != [] {
      var rest := full[1..];
      LaterExact(rest, start);
      assert full == [full[0]] + rest;
      if full[0].id > start {
        HeadBelow(full[0], Later(rest, start));
      }
    }
  }

  lemma HeadBelow(head: Record, tail: seq<Record>)
    requires Increasing(tail) && forall q :: q in tail ==> head.id < q.id
    ensures Increasing([head] + tail)
  {
    forall i, j | 0 <= i < j < |[head] + tail|
      ensures ([head] + tail)[i].id < ([head] + tail)[j].id
    {
      assert tail[j - 1] in tail;
    }
  }

  // ----- what a client receives -----

  /** The id a client resumes after that received `frames` since `start`. */
  function LastId(start: nat, frames: seq<Record>): nat {
    if frames == [] then start else frames[|frames| - 1].id
  }

  function Least(j: nat, k: nat): nat {
    if j < k then j else k
  }

  /** The last id received, and all that was received. */
  datatype Tail = Tail(last: nat, frames: seq<Record>)

  function Extended(t: Tail, events: seq<Record>): Tail {
    Tail(LastId(t.last, events), t.frames + events)
  }

  /** What gets through over the first `k` polls, each reading after the last id
      received. A connection that breaks is a poll of which fewer frames than it
      sent get through; the next poll belongs to the resumed connection. */
  function After(polls: seq<Poll>, start: nat, k: nat): Tail
    requires k <= |polls|
  {
    if k == 0 then Tail(start, [])
    else
      var t, p := After(polls, start, k - 1), polls[k - 1];
      Extended(t, Batch(p.log, t.last, Least(BATCH, p.through)))
  }

  function Received(polls: seq<Poll>, start: nat): seq<Record> {
    After(polls, start, |polls|).frames
  }

  /** The `k`th poll finds nothing to send and the run terminal. */
  predicate Final(polls: seq<Poll>, start: nat, k: nat) {
    0 < k <= |polls| && polls[k - 1].terminal && Batch(polls[k - 1].log, After(polls, start, k - 1).last, BATCH) == []
  }

  /** None of the first `k` polls is final. */
  ghost predicate Unfinished(polls: seq<Poll>, start: nat, k: nat) {
    forall i: nat :: i <= k ==> !Final(polls, start, i)
  }

  // ----- the generator -----

  predicate Connected(polls: seq<Poll>) {
    forall i :: 0 <= i < |polls| ==> polls[i].through >= BATCH
  }

  function TerminalPolls(polls: seq<Poll>, k: nat): nat
    requires k <= |polls|
  {
    if k == 0 then 0 else TerminalPolls(polls, k - 1) + (if polls[k - 1].terminal then 1 else 0)
  }

  /** Send one batch, advancing the last id with every event. */
  method Emit(events: seq<Record>, frames: seq<Record>, last: nat) returns (frames': seq<Record>, last': nat, emitted: bool)
    ensures frames' == frames + events && last' == LastId(last, events)
    ensures emitted <==> events != []
  {
    frames', last', emitted := frames, last, false;
    for j := 0 to |events|
      invariant frames' == frames + events[..j] && last' == LastId(last, events[..j])
      invariant emitted <==> j > 0
    {
      frames' := frames' + [events[j]];
      last' := events[j].id;
      emitted := true;
    }
    assert events[..|events|] == events;
  }

  lemma PollOnce(polls: seq<Poll>, start: nat, i: nat, events: seq<Record>)
    requires i < |polls| && polls[i].through >= BATCH && events == Batch(polls[i].log, After(polls, start, i).last, BATCH)
    ensures After(polls, start, i + 1) == Extended(After(polls, start, i), events)
    ensures Final(polls, start, i + 1) <==> polls[i].terminal && events == []
    ensures Unfinished(polls, start, i) && !(polls[i].terminal && events == []) ==> Unfinished(polls, start, i + 1)
  {
  }

  /** Without a final poll, every poll of a terminal run sends something. */
  lemma {:induction false} TerminalPollsSend(polls: seq<Poll>, start: nat, k: nat)
    requires k <= |polls| && Connected(polls) && Unfinished(polls, start, k)
    ensures TerminalPolls(polls, k) <= |After(polls, start, k).frames|
    decreases k
  {
    if k > 0 {
      TerminalPollsSend(polls, start, k - 1);
      assert !Final(polls, start, k);
      PollOnce(polls, start, k - 1, Batch(polls[k - 1].log, After(polls, start, k - 1).last, BATCH));
    }
  }

  /** The generator: it runs until it stops by itself or the client is gone after
      the given polls. It stops at the first poll that is final. */
  method Stream(polls: seq<Poll>, start: nat) returns (frames: seq<Record>, stopped: bool, ghost consumed: nat)
    requires Connected(polls)
    ensures consumed <= |polls| && frames == After(polls, start, consumed).frames
    ensures if stopped then 0 < consumed && Final(polls, start, consumed) && Unfinished(polls, start, consumed - 1)
            else consumed == |polls| && Unfinished(polls, start, consumed)
    ensures !stopped ==> TerminalPolls(polls, |polls|) <= |frames|
  {
    frames, stopped, consumed := [], false, |polls|;
    var last, emitted := start, false;
    for i := 0 to |polls|
      invariant Tail(last, frames) == After(polls, start, i)
      invariant Unfinished(polls, start, i)
    {
      var events := Batch(polls[i].log, last, BATCH);
      PollOnce(polls, start, i, events);
      frames, last, emitted := Emit(events, frames, last);
      if !emitted && polls[i].terminal {
        return frames, true, i + 1;
      }
    }
    TerminalPollsSend(polls, start, |polls|);
  }

  // ----- exactly when nothing is lost -----

  ghost predicate LogsIncrease(polls: seq<Poll>) {
    forall i :: 0 <= i < |polls| ==> Increasing(polls[i].log)
  }

  /** The log of the run as the polls of one client see it: every poll shows
      records of the whole log ordered by id, never fewer than before, and all
      of them once the run is terminal. */
  ghost predicate Grows(polls: seq<Poll>, full: seq<Record>) {
    && Increasing(full) && LogsIncrease(polls)
    && (forall i, r :: 0 <= i < |polls| && r in polls[i].log ==> r in full)
    && (forall i :: 0 <= i < |polls| && polls[i].terminal ==> polls[i].log == full)
    && (forall i, j, r :: 0 <= i < j < |polls| && r in polls[i].log ==> r in polls[j].log)
  }

  /** The record becomes visible at the `i`th poll, when the client is past it. */
  ghost predicate ComesLate(polls: seq<Poll>, start: nat, i: nat, r: Record) {
    && 0 < i < |polls| && r in polls[i].log && r !in polls[i - 1].log
    && start < r.id <= After(polls, start, i).last
  }

  ghost predicate Overtaken(polls: seq<Poll>, start: nat) {
    exists i: nat, r :: ComesLate(polls, start, i, r)
  }

  /** Received are exactly the records of the log from the start id to the last id. */
  ghost predicate Caught(log: seq<Record>, start: nat, t: Tail) {
    forall r :: r in t.frames <==> r in log && start < r.id <= t.last
  }

  ghost predicate CaughtUp(polls: seq<Poll>, start: nat, k: nat)
    requires k <= |polls|
  {
    k > 0 ==> Caught(polls[k - 1].log, start, After(polls, start, k))
  }

  /** What one poll gets through: the records after `last` up to its own last id,
      all of them if it is not full. */
  lemma {:induction false} BatchExact(log: seq<Record>, last: nat, limit: nat)
    requires Increasing(log)
    ensures var events := Batch(log, last, limit);
            && Increasing(events) && last <= LastId(last, events)
            && (forall r :: r in events <==> r in log && last < r.id <= LastId(last, events))
    ensures limit > 0 && Batch(log, last, limit) == [] ==> forall r :: r in log ==> r.id <= last
    decreases |log|
  {
    if log != [] && limit > 0 {
      if log[0].id > last {
        BatchExact(log[1..], last, limit - 1);
        BatchHead(log, last, limit);
      } else {
        BatchExact(log[1..], last, limit);
        BatchSkips(log, last, limit);
      }
    }
  }

  lemma BatchSkips(log: seq<Record>, last: nat, limit: nat)
    requires log != [] && limit > 0 && log[0].id <= last
    ensures Batch(log, last, limit) == Batch(log[1..], last, limit)
    ensures forall r :: r in log <==> r == log[0] || r in log[1..]
  {
    assert log == [log[0]] + log[1..];
  }

  lemma BatchHead(log: seq<Record>, last: nat, limit: nat)
    requires Increasing(log) && log != [] && limit > 0 && log[0].id > last
    requires var events := Batch(log[1..], last, limit - 1);
             Increasing(events) && forall r :: r in events <==> r in log[1..] && last < r.id <= LastId(last, events)
    ensures var events := Batch(log, last, limit);
            && Increasing(events) && last <= LastId(last, events)
            && (forall r :: r in events <==> r in log && last < r.id <= LastId(last, events))
  {
    var head, tail := log[0], Batch(log[1..], last, limit - 1);
    var events := Batch(log, last, limit);
    assert events == [head] + tail && log == [head] + log[1..];
    forall r | r in tail
      ensures head.id < r.id
    {
    }
    HeadBelow(head, tail);
    assert LastId(last, events) == if tail == [] then head.id else LastId(last, tail);
  }

  lemma LastIdConcat(start: nat, a: seq<Record>, b: seq<Record>)
    ensures LastId(start, a + b) == LastId(LastId(start, a), b)
  {
    if b == [] {
      assert a + b == a;
    }
  }

  /** One poll: the new records, and the last id after it. */
  lemma NextPoll(t: Tail, log: seq<Record>, limit: nat)
    requires Increasing(log)
    ensures var events := Batch(log, t.last, limit);
            && Increasing(events) && t.last <= Extended(t, events).last
            && forall r :: r in events <==> r in log && t.last < r.id <= Extended(t, events).last
  {
    BatchExact(log, t.last, limit);
  }

  lemma JoinIncreasing(a: seq<Record>, b: seq<Record>, mid: nat)
    requires Increasing(a) && Increasing(b)
    requires (forall r :: r in a ==> r.id <= mid) && (forall r :: r in b ==> mid < r.id)
    ensures Increasing(a + b)
  {
    forall i, j | 0 <= i < j < |a + b|
      ensures (a + b)[i].id < (a + b)[j].id
    {
      assert i < |a| ==> a[i] in a;
      assert j >= |a| ==> b[j - |a|] in b;
    }
  }

  /** Ids only grow. */
  ghost predicate Orderly(start: nat, t: Tail) {
    Increasing(t.frames) && start <= t.last && forall r :: r in t.frames ==> start < r.id <= t.last
  }

  lemma OrderlyNext(start: nat, t: Tail, log: seq<Record>, limit: nat)
    requires Orderly(start, t) && Increasing(log)
    ensures Orderly(start, Extended(t, Batch(log, t.last, limit)))
  {
    NextPoll(t, log, limit);
    JoinIncreasing(t.frames, Batch(log, t.last, limit), t.last);
  }

  /** Whatever the polls show, no event is received twice. */
  lemma {:induction false} AlwaysOrderly(polls: seq<Poll>, start: nat, k: nat)
    requires LogsIncrease(polls) && k <= |polls|
    ensures Orderly(start, After(polls, start, k))
    decreases k
  {
    if k > 0 {
      AlwaysOrderly(polls, start, k - 1);
      OrderlyNext(start, After(polls, start, k - 1), polls[k - 1].log, Least(BATCH, polls[k - 1].through));
    }
  }

  /** One more poll: the client stays caught up if the records it is past and had
      not received are not in the log. */
  lemma CaughtNext(start: nat, t: Tail, log: seq<Record>, limit: nat)
    requires Orderly(start, t) && Increasing(log)
    requires forall r: Record :: start < r.id <= t.last ==> (r in log <==> r in t.frames)
    ensures Caught(log, start, Extended(t, Batch(log, t.last, limit)))
  {
    NextPoll(t, log, limit);
  }

  lemma NothingLate(polls: seq<Poll>, full: seq<Record>, start: nat, k: nat)
    requires Grows(polls, full) && !Overtaken(polls, start) && 0 < k < |polls| && CaughtUp(polls, start, k)
    ensures forall r: Record :: start < r.id <= After(polls, start, k).last ==> (r in polls[k].log <==> r in After(polls, start, k).frames)
  {
    forall r: Record | start < r.id <= After(polls, start, k).last
      ensures r in polls[k].log <==> r in After(polls, start, k).frames
    {
      assert !ComesLate(polls, start, k, r);
    }
  }

  lemma {:induction false} CatchesUp(polls: seq<Poll>, full: seq<Record>, start: nat, k: nat)
    requires Grows(polls, full) && !Overtaken(polls, start) && k <= |polls|
    ensures CaughtUp(polls, start, k)
    decreases k
  {
    if k > 0 {
      var t, p := After(polls, start, k - 1), polls[k - 1];
      CatchesUp(polls, full, start, k - 1);
      AlwaysOrderly(polls, start, k - 1);
      if k > 1 {
        NothingLate(polls, full, start, k - 1);
      }
      CaughtNext(start, t, p.log, Least(BATCH, p.through));
    }
  }

  /** A received record was in a log that was read when the client was not past it. */
  lemma {:induction false} ReceivedFrom(polls: seq<Poll>, start: nat, k: nat, r: Record) returns (j: nat)
    requires LogsIncrease(polls) && k <= |polls| && r in After(polls, start, k).frames
    ensures j < k && r in polls[j].log && After(polls, start, j).last < r.id
    decreases k
  {
    var t, p := After(polls, start, k - 1), polls[k - 1];
    NextPoll(t, p.log, Least(BATCH, p.through));
    if r in t.frames {
      j := ReceivedFrom(polls, start, k - 1, r);
    } else {
      j := k - 1;
    }
  }

  lemma {:induction false} LastGrows(polls: seq<Poll>, start: nat, i: nat, k: nat)
    requires LogsIncrease(polls) && i <= k <= |polls|
    ensures After(polls, start, i).last <= After(polls, start, k).last
    decreases k
  {
    if i < k {
      LastGrows(polls, start, i, k - 1);
      NextPoll(After(polls, start, k - 1), polls[k - 1].log, Least(BATCH, polls[k - 1].through));
    }
  }

  /** A record that comes late is never received. */
  lemma LateIsLost(polls: seq<Poll>, full: seq<Record>, start: nat, i: nat, r: Record)
    requires Grows(polls, full) && ComesLate(polls, start, i, r)
    ensures r !in Received(polls, start)
  {
    if r in Received(polls, start) {
      var j := ReceivedFrom(polls, start, |polls|, r);
      if i <= j {
        LastGrows(polls, start, i, j);
      }
    }
  }

  /** But it is in the last log, between the start id and the last id. */
  lemma LateIsVisible(polls: seq<Poll>, full: seq<Record>, start: nat, i: nat, r: Record)
    requires Grows(polls, full) && ComesLate(polls, start, i, r)
    ensures r in polls[|polls| - 1].log && start < r.id <= After(polls, start, |polls|).last
  {
    LastGrows(polls, start, i, |polls|);
  }

  /** At every moment: what the client received are exactly the records of the
      log from its start id to its last id, unless a record became visible when
      the client was past it already. */
  lemma ReceivedExactly(polls: seq<Poll>, full: seq<Record>, start: nat)
    requires Grows(polls, full)
    ensures CaughtUp(polls, start, |polls|) <==> !Overtaken(polls, start)
  {
    if Overtaken(polls, start) {
      var i: nat, r :| ComesLate(polls, start, i, r);
      LateIsLost(polls, full, start, i, r);
      LateIsVisible(polls, full, start, i, r);
    } else {
      CatchesUp(polls, full, start, |polls|);
    }
  }

  lemma HeadIn(b: seq<Record>)
    ensures b != [] ==> b[0] in b
  {
  }

  /** Increasing sequences of the same records are equal. */
  lemma {:induction false} SameRecords(a: seq<Record>, b: seq<Record>)
    requires Increasing(a) && Increasing(b) && forall r :: r in a <==> r in b
    ensures a == b
    decreases |a|
  {
    if a == [] {
      HeadIn(b);
    } else {
      assert a[0] in b && b != [] && b[0] in a;
      var i, j :| 0 <= i < |b| && b[i] == a[0] && 0 <= j < |a| && a[j] == b[0];
      assert i == 0;
      assert a == [a[0]] + a[1..] && b == [b[0]] + b[1..];
      SameTails(a, b);
      SameRecords(a[1..], b[1..]);
    }
  }

  lemma SameTails(a: seq<Record>, b: seq<Record>)
    requires Increasing(a) && Increasing(b) && (forall r :: r in a <==> r in b) && a != [] && b != [] && a[0] == b[0]
    ensures forall r :: r in a[1..] <==> r in b[1..]
  {
    forall r
      ensures r in a[1..] <==> r in a && r != a[0]
      ensures r in b[1..] <==> r in b && r != b[0]
    {
      assert a == [a[0]] + a[1..] && b == [b[0]] + b[1..];
    }
  }

  /** A client whose last session stopped by itself received every event after
      its start id, each once and in order, if and only if none became visible
      when the client was past it already. */
  lemma DeliversExactly(polls: seq<Poll>, full: seq<Record>, start: nat)
    requires Grows(polls, full) && Final(polls, start, |polls|)
    ensures Received(polls, start) == Later(full, start) <==> !Overtaken(polls, start)
  {
    AlwaysOrderly(polls, start, |polls|);
    FinalReadAll(polls, full, start);
    ReceivedExactly(polls, full, start);
    AllReceived(full, start, After(polls, start, |polls|));
  }

  /** The last poll saw the whole log and left nothing to send. */
  lemma FinalReadAll(polls: seq<Poll>, full: seq<Record>, start: nat)
    requires Grows(polls, full) && Final(polls, start, |polls|)
    ensures polls[|polls| - 1].log == full && forall r :: r in full ==> r.id <= After(polls, start, |polls|).last
  {
    BatchExact(full, After(polls, start, |polls| - 1).last, BATCH);
    LastGrows(polls, start, |polls| - 1, |polls|);
  }

  lemma AllReceived(full: seq<Record>, start: nat, t: Tail)
    requires Increasing(full) && Increasing(t.frames) && forall r :: r in full ==> r.id <= t.last
    ensures t.frames == Later(full, start) <==> Caught(full, start, t)
  {
    LaterExact(full, start);
    if Caught(full, start, t) {
      SameRecords(t.frames, Later(full, start));
    }
  }

  // ----- ids in commit order -----

  /** Every poll sees at least the log the one before saw, and only longer. */
  ghost predicate InOrder(polls: seq<Poll>) {
    forall i :: 0 < i < |polls| ==> polls[i - 1].log <= polls[i].log
  }

  lemma BeyondPrefix(log: seq<Record>, next: seq<Record>, r: Record)
    requires Increasing(next) && log <= next && r in next && r !in log
    ensures forall q :: q in log ==> q.id < r.id
  {
  }

  lemma {:induction false} LastIsLast(polls: seq<Poll>, start: nat, k: nat)
    requires k <= |polls|
    ensures After(polls, start, k).last == LastId(start, After(polls, start, k).frames)
    decreases k
  {
    if k > 0 {
      var t, p := After(polls, start, k - 1), polls[k - 1];
      LastIsLast(polls, start, k - 1);
      LastIdConcat(start, t.frames, Batch(p.log, t.last, Least(BATCH, p.through)));
    }
  }

  lemma LastFrame(start: nat, frames: seq<Record>)
    requires frames != []
    ensures frames[|frames| - 1] in frames && LastId(start, frames) == frames[|frames| - 1].id
  {
  }

  /** The client is nowhere past the log it read last. */
  lemma Ahead(polls: seq<Poll>, full: seq<Record>, start: nat, k: nat, r: Record)
    requires Grows(polls, full) && 0 < k <= |polls| && start < r.id && forall q :: q in polls[k - 1].log ==> q.id < r.id
    ensures After(polls, start, k).last < r.id
  {
    var frames := After(polls, start, k).frames;
    LastIsLast(polls, start, k);
    if frames != [] {
      var q := frames[|frames| - 1];
      LastFrame(start, frames);
      var j := ReceivedFrom(polls, start, k, q);
      assert q in polls[k - 1].log;
    }
  }

  /** Ids handed out in commit order cost nothing. */
  lemma InOrderIsTimely(polls: seq<Poll>, full: seq<Record>, start: nat)
    requires Grows(polls, full) && InOrder(polls)
    ensures !Overtaken(polls, start)
  {
    if Overtaken(polls, start) {
      var i: nat, r :| ComesLate(polls, start, i, r);
      BeyondPrefix(polls[i - 1].log, polls[i].log, r);
      Ahead(polls, full, start, i, r);
    }
  }

  // ----- resuming -----

  function Take(s: seq<Record>, k: nat): seq<Record> {
    if k <= |s| then s[..k] else s
  }

  /** One connection: what it polls while it lasts, and how many of its frames
      the client received before it broke. */
  datatype Session = Session(polls: seq<Poll>, got: nat)

  /** What the client received in the session. */
  function InSession(s: Session, start: nat): seq<Record> {
    Take(Received(s.polls, start), s.got)
  }

  /** The sessions of one client, each resumed after the last id received. */
  function Client(sessions: seq<Session>, start: nat): seq<Record>
    decreases |sessions|
  {
    if sessions == [] then []
    else
      var first := InSession(sessions[0], start);
      first + Client(sessions[1..], LastId(start, first))
  }

  /** The first `k` polls of a session up to the one in which it broke. */
  function Reached(polls: seq<Poll>, start: nat, got: nat, k: nat): seq<Poll>
    requires k <= |polls|
  {
    if k == 0 then []
    else
      var before := |After(polls, start, k - 1).frames|;
      if got <= before then Reached(polls, start, got, k - 1)
      else polls[..k - 1] + [polls[k - 1].(through := Least(got - before, polls[k - 1].through))]
  }

  /** All polls of a client that reached it. */
  function PollsReached(sessions: seq<Session>, start: nat): seq<Poll>
    decreases |sessions|
  {
    if sessions == [] then []
    else
      var s := sessions[0];
      Reached(s.polls, start, s.got, |s.polls|) + PollsReached(sessions[1..], LastId(start, InSession(s, start)))
  }

  lemma TakeJoin(a: seq<Record>, b: seq<Record>, k: nat)
    ensures k <= |a| ==> Take(a + b, k) == Take(a, k)
    ensures k > |a| ==> Take(a + b, k) == a + Take(b, k - |a|)
  {
  }

  lemma {:induction false} TakeBatch(log: seq<Record>, last: nat, j: nat, k: nat)
    ensures Take(Batch(log, last, j), k) == Batch(log, last, Least(k, j))
    decreases |log|
  {
    if log != [] && j > 0 && k > 0 {
      if log[0].id > last {
        TakeBatch(log[1..], last, j - 1, k - 1);
        TakeJoin([log[0]], Batch(log[1..], last, j - 1), k);
      } else {
        TakeBatch(log[1..], last, j, k);
      }
    }
  }

  /** Polls that agree so far, received so far the same. */
  lemma {:induction false} SamePolls(a: seq<Poll>, b: seq<Poll>, start: nat, k: nat)
    requires k <= |a| && k <= |b| && forall i :: 0 <= i < k ==> a[i] == b[i]
    ensures After(a, start, k) == After(b, start, k)
    decreases k
  {
    if k > 0 {
      SamePolls(a, b, start, k - 1);
    }
  }

  lemma LastPoll(polls: seq<Poll>, start: nat, k: nat, q: Poll)
    requires 0 < k <= |polls|
    ensures var t := After(polls, start, k - 1);
            Received(polls[..k - 1] + [q], start) == t.frames + Batch(q.log, t.last, Least(BATCH, q.through))
  {
    SamePolls(polls[..k - 1] + [q], polls, start, k - 1);
  }

  /** The poll in which the connection broke. */
  lemma CutPoll(t: Tail, p: Poll, got: nat)
    requires got > |t.frames|
    ensures Take(t.frames + Batch(p.log, t.last, Least(BATCH, p.through)), got) ==
            t.frames + Batch(p.log, t.last, Least(BATCH, Least(got - |t.frames|, p.through)))
  {
    TakeJoin(t.frames, Batch(p.log, t.last, Least(BATCH, p.through)), got);
    TakeBatch(p.log, t.last, Least(BATCH, p.through), got - |t.frames|);
  }

  lemma {:induction false} ReachedReceives(polls: seq<Poll>, start: nat, got: nat, k: nat)
    requires k <= |polls|
    ensures Received(Reached(polls, start, got, k), start) == Take(After(polls, start, k).frames, got)
    decreases k
  {
    if k > 0 {
      var t, p := After(polls, start, k - 1), polls[k - 1];
      if got <= |t.frames| {
        ReachedReceives(polls, start, got, k - 1);
        TakeJoin(t.frames, Batch(p.log, t.last, Least(BATCH, p.through)), got);
      } else {
        CutPoll(t, p, got);
        LastPoll(polls, start, k, p.(through := Least(got - |t.frames|, p.through)));
      }
    }
  }

  lemma {:induction false} AfterConcat(a: seq<Poll>, b: seq<Poll>, start: nat, k: nat)
    requires k <= |b|
    ensures var t, u := After(a, start, |a|), After(b, After(a, start, |a|).last, k);
            After(a + b, start, |a| + k) == Tail(u.last, t.frames + u.frames)
    decreases k
  {
    if k == 0 {
      SamePolls(a + b, a, start, |a|);
      assert After(a, start, |a|).frames + [] == After(a, start, |a|).frames;
    } else {
      AfterConcat(a, b, start, k - 1);
      assert (a + b)[|a| + k - 1] == b[k - 1];
    }
  }

  lemma ReceivedThenRest(a: seq<Poll>, b: seq<Poll>, start: nat)
    ensures Received(a + b, start) == Received(a, start) + Received(b, LastId(start, Received(a, start)))
  {
    LastIsLast(a, start, |a|);
    AfterConcat(a, b, start, |b|);
  }

  lemma SessionThenRest(s: Session, rest: seq<Poll>, start: nat)
    ensures Received(Reached(s.polls, start, s.got, |s.polls|) + rest, start) ==
            InSession(s, start) + Received(rest, LastId(start, InSession(s, start)))
  {
    ReachedReceives(s.polls, start, s.got, |s.polls|);
    ReceivedThenRest(Reached(s.polls, start, s.got, |s.polls|), rest, start);
  }

  lemma {:induction false} ClientReceives(sessions: seq<Session>, start: nat)
    ensures Client(sessions, start) == Received(PollsReached(sessions, start), start)
    decreases |sessions|
  {
    if sessions != [] {
      var next := LastId(start, InSession(sessions[0], start));
      ClientReceives(sessions[1..], next);
      SessionThenRest(sessions[0], PollsReached(sessions[1..], next), start);
    }
  }

  lemma FinalAfter(a: seq<Poll>, b: seq<Poll>, start: nat)
    requires Final(b, After(a, start, |a|).last, |b|)
    ensures Final(a + b, start, |a + b|)
  {
    AfterConcat(a, b, start, |b| - 1);
    assert (a + b)[|a + b| - 1] == b[|b| - 1];
  }

  /** However often the connection breaks, after however many frames of whatever
      batch, and is resumed after the last id received: the client never receives
      an event twice, and once a last session stops by itself it has received all
      events after its first start id if and only if none became visible when the
      client was past it already. */
  lemma SessionsDeliverAll(sessions: seq<Session>, last: seq<Poll>, full: seq<Record>, start: nat)
    requires Grows(PollsReached(sessions, start) + last, full)
    requires Final(last, LastId(start, Client(sessions, start)), |last|)
    ensures var frames := Client(sessions, start) + Received(last, LastId(start, Client(sessions, start)));
            && Increasing(frames)
            && (frames == Later(full, start) <==> !Overtaken(PollsReached(sessions, start) + last, start))
  {
    var reached := PollsReached(sessions, start);
    ClientReceives(sessions, start);
    LastIsLast(reached, start, |reached|);
    ReceivedThenRest(reached, last, start);
    FinalAfter(reached, last, start);
    AlwaysOrderly(reached + last, start, |reached + last|);
    DeliversExactly(reached + last, full, start);
  }

  // ----- the log of a run -----

  /** ORDER BY id: a row takes its place among the rows before. */
  function Insert(log: seq<Record>, r: Record): seq<Record> {
    if log == [] || r.id < log[0].id then [r] + log else [log[0]] + Insert(log[1..], r)
  }

  /** The rows of the events in commit order, as a SELECT shows them; `ids` are
      the ids handed out, in the order in which the rows were committed. */
  function ById(events: seq<Event>, ids: seq<nat>): seq<Record>
    requires |events| <= |ids|
  {
    if events == [] then []
    else
      var k := |events| - 1;
      Insert(ById(events[..k], ids), Record(ids[k], events[k]))
  }

  ghost predicate Distinct(ids: seq<nat>) {
    forall i, j :: 0 <= i < j < |ids| ==> ids[i] != ids[j]
  }

  ghost predicate Ascending(ids: seq<nat>) {
    forall i, j :: 0 <= i < j < |ids| ==> ids[i] < ids[j]
  }

  ghost predicate IsRow(events: seq<Event>, ids: seq<nat>, r: Record) {
    exists k :: 0 <= k < |events| && k < |ids| && r == Record(ids[k], events[k])
  }

  lemma {:induction false} InsertExact(log: seq<Record>, r: Record)
    requires Increasing(log) && forall q :: q in log ==> q.id != r.id
    ensures Increasing(Insert(log, r)) && forall q :: q in Insert(log, r) <==> q == r || q in log
    decreases |log|
  {
    if log != [] && log[0].id < r.id {
      var rest := log[1..];
      InsertExact(rest, r);
      assert log == [log[0]] + rest;
      HeadBelow(log[0], Insert(rest, r));
    } else {
      HeadBelow(r, log);
    }
  }

  lemma {:induction false} ByIdExact(events: seq<Event>, ids: seq<nat>)
    requires |events| <= |ids| && Distinct(ids)
    ensures Increasing(ById(events, ids)) && forall r :: r in ById(events, ids) <==> IsRow(events, ids, r)
    decreases |events|
  {
    if events != [] {
      var k := |events| - 1;
      var init, r := events[..k], Record(ids[k], events[k]);
      ByIdExact(init, ids);
      InsertExact(ById(init, ids), r);
      forall q
        ensures IsRow(events, ids, q) <==> q == r || IsRow(init, ids, q)
      {
        RowsSnoc(events, ids, q);
      }
    }
  }

  lemma RowsSnoc(events: seq<Event>, ids: seq<nat>, q: Record)
    requires 0 < |events| <= |ids|
    ensures var k := |events| - 1;
            IsRow(events, ids, q) <==> q == Record(ids[k], events[k]) || IsRow(events[..k], ids, q)
  {
    var k := |events| - 1;
    if IsRow(events[..k], ids, q) {
      var j :| 0 <= j < k && q == Record(ids[j], events[..k][j]);
      assert q == Record(ids[j], events[j]);
    }
    if q == Record(ids[k], events[k]) {
      assert IsRow(events, ids, q);
    }
    if IsRow(events, ids, q) {
      var j :| 0 <= j < |events| && q == Record(ids[j], events[j]);
      assert j < k ==> events[..k][j] == events[j];
    }
  }

  /** A longer log shows at least the same rows. */
  lemma RowsGrow(a: seq<Event>, b: seq<Event>, ids: seq<nat>)
    requires a <= b && |b| <= |ids| && Distinct(ids)
    ensures forall r :: r in ById(a, ids) ==> r in ById(b, ids)
  {
    ByIdExact(a, ids);
    ByIdExact(b, ids);
    forall r | IsRow(a, ids, r)
      ensures IsRow(b, ids, r)
    {
      var k :| 0 <= k < |a| && k < |ids| && r == Record(ids[k], a[k]);
      assert b[k] == a[k];
    }
  }

  lemma {:induction false} InsertLast(log: seq<Record>, r: Record)
    requires forall q :: q in log ==> q.id <= r.id
    ensures Insert(log, r) == log + [r]
    decreases |log|
  {
    if log != [] {
      InsertLast(log[1..], r);
      assert log == [log[0]] + log[1..];
    }
  }

  lemma NewestLast(events: seq<Event>, ids: seq<nat>)
    requires 0 < |events| <= |ids| && Ascending(ids)
    ensures var k := |events| - 1;
            ById(events, ids) == ById(events[..k], ids) + [Record(ids[k], events[k])]
  {
    var k := |events| - 1;
    ByIdExact(events[..k], ids);
    forall q | IsRow(events[..k], ids, q)
      ensures q.id < ids[k]
    {
    }
    InsertLast(ById(events[..k], ids), Record(ids[k], events[k]));
  }

  /** With ids in commit order a longer log continues a shorter one. */
  lemma {:induction false} AscendingContinues(a: seq<Event>, b: seq<Event>, ids: seq<nat>)
    requires a <= b && |b| <= |ids| && Ascending(ids)
    ensures ById(a, ids) <= ById(b, ids)
    decreases |b|
  {
    if a != b {
      var k := |b| - 1;
      AscendingContinues(a, b[..k], ids);
      NewestLast(b, ids);
    }
  }

  /** When a poll reads the status and when it reads the log: as of so many
      transactions of the run. */
  datatype Moment = Moment(status: nat, log: nat)

  ghost predicate Reads(p: Poll, m: Moment, g: Graph, input: Json, acts: seq<Action>, ids: seq<nat>) {
    && m.status <= m.log <= |acts|
    && p.terminal == RunTerminal(Execute(g, input, acts[..m.status]).st.run)
    && |Execute(g, input, acts[..m.log]).st.events| <= |ids|
    && p.log == ById(Execute(g, input, acts[..m.log]).st.events, ids)
  }

  /** One poll after the other, at any moments of the run. */
  ghost predicate Watches(polls: seq<Poll>, moments: seq<Moment>, g: Graph, input: Json, acts: seq<Action>, ids: seq<nat>) {
    && |moments| == |polls|
    && (forall i :: 0 <= i < |polls| ==> Reads(polls[i], moments[i], g, input, acts, ids))
    && (forall i, j :: 0 <= i < j < |polls| ==> moments[i].log <= moments[j].log)
  }

  lemma EarlierLog(g: Graph, input: Json, acts: seq<Action>, j: nat, k: nat)
    requires Publishable(g) && j <= k <= |acts|
    ensures Execute(g, input, acts[..j]).st.events <= Execute(g, input, acts[..k]).st.events
    ensures RunTerminal(Execute(g, input, acts[..j]).st.run) ==>
              Execute(g, input, acts[..j]).st == Execute(g, input, acts[..k]).st
  {
    assert acts[..k] == acts[..j] + acts[j..k];
    LaterStates(g, input, acts[..j], acts[j..k]);
  }

  lemma PollOfRun(g: Graph, input: Json, acts: seq<Action>, ids: seq<nat>, p: Poll, m: Moment)
    requires Publishable(g) && Distinct(ids) && |Execute(g, input, acts).st.events| <= |ids| && Reads(p, m, g, input, acts, ids)
    ensures var full := ById(Execute(g, input, acts).st.events, ids);
            && Increasing(p.log) && (forall r :: r in p.log ==> r in full) && (p.terminal ==> p.log == full)
  {
    EarlierLog(g, input, acts, m.status, m.log);
    EarlierLog(g, input, acts, m.log, |acts|);
    EarlierLog(g, input, acts, m.status, |acts|);
    assert acts[..|acts|] == acts;
    RowsGrow(Execute(g, input, acts[..m.log]).st.events, Execute(g, input, acts).st.events, ids);
    ByIdExact(Execute(g, input, acts[..m.log]).st.events, ids);
  }

  /** A later poll shows more, and continues the earlier one when ids are handed
      out in commit order. */
  lemma TwoPolls(g: Graph, input: Json, acts: seq<Action>, ids: seq<nat>, p: Poll, m: Moment, q: Poll, l: Moment)
    requires Publishable(g) && Distinct(ids) && Reads(p, m, g, input, acts, ids) && Reads(q, l, g, input, acts, ids) && m.log <= l.log
    ensures (forall r :: r in p.log ==> r in q.log) && (Ascending(ids) ==> p.log <= q.log)
  {
    EarlierLog(g, input, acts, m.log, l.log);
    var a, b := Execute(g, input, acts[..m.log]).st.events, Execute(g, input, acts[..l.log]).st.events;
    RowsGrow(a, b, ids);
    if Ascending(ids) {
      AscendingContinues(a, b, ids);
    }
  }

  /** Polling a run at any moments, under any ids: a growing log, whole once the
      status read before was terminal, and only longer each time when the ids
      are handed out in commit order. */
  lemma PollsOfRun(g: Graph, input: Json, acts: seq<Action>, ids: seq<nat>, polls: seq<Poll>, moments: seq<Moment>)
    requires Publishable(g) && Distinct(ids) && |Execute(g, input, acts).st.events| <= |ids|
    requires Watches(polls, moments, g, input, acts, ids)
    ensures Grows(polls, ById(Execute(g, input, acts).st.events, ids))
    ensures Ascending(ids) ==> InOrder(polls)
  {
    var full := ById(Execute(g, input, acts).st.events, ids);
    ByIdExact(Execute(g, input, acts).st.events, ids);
    forall i | 0 <= i < |polls|
      ensures Increasing(polls[i].log) && (forall r :: r in polls[i].log ==> r in full)
      ensures polls[i].terminal ==> polls[i].log == full
    {
      PollOfRun(g, input, acts, ids, polls[i], moments[i]);
    }
    forall i, j | 0 <= i < j < |polls|
      ensures forall r :: r in polls[i].log ==> r in polls[j].log
      ensures Ascending(ids) ==> polls[i].log <= polls[j].log
    {
      TwoPolls(g, input, acts, ids, polls[i], moments[i], polls[j], moments[j]);
    }
  }

  /** The tail of a run: a client whose last session stopped by itself has the
      whole log after its start id, each event once and in order, if and only if
      no event became visible when the client was past its id; so it always has
      when ids are handed out in commit order. */
  lemma TailIsComplete(g: Graph, input: Json, acts: seq<Action>, ids: seq<nat>, polls: seq<Poll>, moments: seq<Moment>, start: nat)
    requires Publishable(g) && Distinct(ids) && |Execute(g, input, acts).st.events| <= |ids|
    requires Watches(polls, moments, g, input, acts, ids) && Final(polls, start, |polls|)
    ensures var full := ById(Execute(g, input, acts).st.events, ids);
            && (Received(polls, start) == Later(full, start) <==> !Overtaken(polls, start))
            && (Ascending(ids) ==> Received(polls, start) == Later(full, start))
  {
    var full := ById(Execute(g, input, acts).st.events, ids);
    PollsOfRun(g, input, acts, ids, polls, moments);
    DeliversExactly(polls, full, start);
    if Ascending(ids) {
      InOrderIsTimely(polls, full, start);
    }
  }

  // ----- two completions -----

  /** `a` takes an id before `b` does and commits after it; a poll reads the log
      between the two commits. The run ends with `c`. */
  function Race(a: Record, b: Record, c: Record): seq<Poll> {
    [Poll(false, [b], BATCH), Poll(true, [a, b, c], BATCH), Poll(true, [a, b, c], BATCH)]
  }

  lemma BatchThree(a: Record, b: Record, c: Record, last: nat)
    ensures Batch([a, b, c], last, BATCH) ==
            (if last < a.id then [a] else []) + (if last < b.id then [b] else []) + (if last < c.id then [c] else [])
    ensures Later([a, b, c], last) ==
            (if last < a.id then [a] else []) + (if last < b.id then [b] else []) + (if last < c.id then [c] else [])
  {
    HeadFirst(a, [b, c], last, BATCH);
    HeadFirst(b, [c], last, if last < a.id then BATCH - 1 else BATCH);
    HeadFirst(c, [], last, BATCH - 2);
    HeadFirst(c, [], last, BATCH - 1);
    HeadFirst(c, [], last, BATCH);
    assert [a, b, c] == [a] + [b, c] && [b, c] == [b] + [c] && [c] == [c] + [];
  }

  lemma HeadFirst(r: Record, rest: seq<Record>, last: nat, limit: nat)
    requires limit > 0
    ensures Batch([r] + rest, last, limit) ==
            if last < r.id then [r] + Batch(rest, last, limit - 1) else Batch(rest, last, limit)
    ensures Later([r] + rest, last) == (if last < r.id then [r] else []) + Later(rest, last)
  {
    assert ([r] + rest)[1..] == rest;
  }

  lemma RaceReceived(a: Record, b: Record, c: Record)
    requires 0 < a.id < b.id < c.id
    ensures After(Race(a, b, c), 0, 1) == Tail(b.id, [b]) && After(Race(a, b, c), 0, 2) == Tail(c.id, [b, c])
  {
    assert After(Race(a, b, c), 0, 0) == Tail(0, []);
    HeadFirst(b, [], 0, BATCH);
    assert [b] == [b] + [];
    BatchThree(a, b, c, b.id);
  }

  lemma RaceGrows(a: Record, b: Record, c: Record)
    requires a.id < b.id < c.id
    ensures Grows(Race(a, b, c), [a, b, c])
  {
  }

  /** A tail that polls between the two commits stops by itself without the
      first completion. */
  lemma RaceLosesOne(a: Record, b: Record, c: Record)
    requires 0 < a.id < b.id < c.id
    ensures Grows(Race(a, b, c), [a, b, c]) && Final(Race(a, b, c), 0, 3)
    ensures Overtaken(Race(a, b, c), 0)
    ensures Received(Race(a, b, c), 0) == [b, c] && Later([a, b, c], 0) == [a, b, c]
  {
    RaceGrows(a, b, c);
    RaceReceived(a, b, c);
    BatchThree(a, b, c, 0);
    BatchThree(a, b, c, c.id);
    assert ComesLate(Race(a, b, c), 0, 1, a);
  }

  /** The completions of two nodes with ids 4 and 5. */
  lemma CompletionLost()
    ensures var a, b := Record(4, NodeEvent(NodeCompletedEvent, "a")), Record(5, NodeEvent(NodeCompletedEvent, "b"));
            var c := Record(6, RunEvent(WorkflowCompleted));
            Final(Race(a, b, c), 0, 3) && Received(Race(a, b, c), 0) == [b, c] && Later([a, b, c], 0) == [a, b, c]
  {
    RaceLosesOne(Record(4, NodeEvent(NodeCompletedEvent, "a")), Record(5, NodeEvent(NodeCompletedEvent, "b")),
                 Record(6, RunEvent(WorkflowCompleted)));
  }
}

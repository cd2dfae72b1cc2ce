/** One peer connection: the write queue shared by several senders, and the request window. */
module PeerSessions {
  import opened Counting
  import opened Assembly

  // ---------------------------------------------------------------- the write queue as a machine

  type Buffer = seq<byte>

  /** queue and writing are the session's own fields. A starter is a `do_write` call that is due;
      inflight are writes handed to the socket, sendfiles those sent by the background pool; completed
      and sent are histories. */
  datatype Session = Session(
    queue: seq<Buffer>,
    writing: bool,
    starters: nat,
    inflight: seq<Buffer>,
    sendfiles: nat,
    completed: seq<Buffer>,
    sent: seq<Buffer>,
    useSendfile: bool)

  datatype Step =
    | Send(buffer: Buffer)
    | StartWrite
    | Finish(i: nat)
    | SendfileBegin
    | SendfileEnd

  function Fresh(useSendfile: bool): Session { Session([], false, 0, [], 0, [], [], useSendfile) }

  predicate CanDo(s: Session, step: Step) {
    match step
    case Send(_) => true
    case StartWrite => s.starters > 0
    case Finish(i) => i < |s.inflight|
    case SendfileBegin => s.useSendfile && s.queue == [] && !s.writing
    case SendfileEnd => s.sendfiles > 0
  }

  function Do(s: Session, step: Step): Session
    requires CanDo(s, step)
  {
    match step
    case Send(buffer) =>
      s.(queue := s.queue + [buffer], sent := s.sent + [buffer], writing := true,
         starters := if s.writing then s.starters else s.starters + 1)
    case StartWrite =>
      if s.queue == [] then s.(writing := false, starters := s.starters - 1)
      else s.(inflight := s.inflight + [s.queue[0]], queue := s.queue[1..], starters := s.starters - 1)
    case Finish(i) =>
      s.(inflight := s.inflight[..i] + s.inflight[i + 1..], completed := s.completed + [s.inflight[i]],
         writing := s.writing && s.queue != [], starters := if s.queue != [] then s.starters + 1 else s.starters)
    case SendfileBegin => s.(writing := true, sendfiles := s.sendfiles + 1)
    case SendfileEnd =>
      s.(writing := false, sendfiles := s.sendfiles - 1,
         starters := if s.queue != [] then s.starters + 1 else s.starters)
  }

  ghost predicate Reaches(s: Session, steps: seq<Step>, r: Session)
    decreases |steps|
  {
    if |steps| == 0 then r == s else CanDo(s, steps[0]) && Reaches(Do(s, steps[0]), steps[1..], r)
  }

  /** At most one write at a time, and what was sent is what was written, is being written and still
      waits, in that order. */
  ghost predicate SingleWriter(s: Session) {
    |s.inflight| + s.sendfiles <= 1 && s.completed + s.inflight + s.queue == s.sent
  }

  /** The token: exactly one of a due call and a write in flight while `is_writing_` is set. */
  ghost predicate QueueInv(s: Session) {
    && !s.useSendfile && s.sendfiles == 0
    && s.starters + |s.inflight| == (if s.writing then 1 else 0)
    && (s.starters > 0 ==> s.queue != [])
    && (!s.writing ==> s.queue == [])
    && s.completed + s.inflight + s.queue == s.sent
  }

  lemma StepKeeps(s: Session, step: Step)
    requires QueueInv(s) && CanDo(s, step)
    ensures QueueInv(Do(s, step))
  {
    var r := Do(s, step);
    match step
    case Send(buffer) =>
      assert s.completed + s.inflight + (s.queue + [buffer]) == (s.completed + s.inflight + s.queue) + [buffer];
    case StartWrite =>
      assert s.inflight == [] && s.queue == [s.queue[0]] + s.queue[1..];
      assert s.completed + ([] + [s.queue[0]]) + s.queue[1..] == s.completed + [] + s.queue;
    case Finish(i) =>
      assert s.inflight == [s.inflight[0]] && r.inflight == [];
      assert (s.completed + [s.inflight[0]]) + [] + s.queue == s.completed + s.inflight + s.queue;
    case _ =>
  }

  lemma {:induction false} RunKeeps(s: Session, steps: seq<Step>, r: Session)
    requires QueueInv(s) && Reaches(s, steps, r)
    ensures QueueInv(r)
    decreases |steps|
  {
    if |steps| > 0 {
      StepKeeps(s, steps[0]);
      RunKeeps(Do(s, steps[0]), steps[1..], r);
    }
  }

  /** Nothing is left behind: with no write in flight and none due, everything sent is written. */
  lemma QuietMeansWritten(s: Session)
    requires QueueInv(s) && s.starters == 0 && s.inflight == []
    ensures s.queue == [] && s.completed == s.sent
  {
    assert s.completed + [] + [] == s.completed;
  }

  /** A background transfer that ends while a message waits: the message is written without the flag,
      and the next sender starts a second write. */
  lemma SendfileRun(a: Buffer, b: Buffer)
    ensures exists steps, r :: Reaches(Fresh(true), steps, r) && r.inflight == [a, b]
  {
    var s0 := Fresh(true);
    var s1 := Do(s0, SendfileBegin);
    var s2 := Do(s1, Send(a));
    var s3 := Do(s2, SendfileEnd);
    var s4 := Do(s3, StartWrite);
    var s5 := Do(s4, Send(b));
    var s6 := Do(s5, StartWrite);
    Extend(s5, StartWrite, [], s6);
    Extend(s4, Send(b), [StartWrite], s6);
    Extend(s3, StartWrite, [Send(b), StartWrite], s6);
    Extend(s2, SendfileEnd, [StartWrite, Send(b), StartWrite], s6);
    Extend(s1, Send(a), [SendfileEnd, StartWrite, Send(b), StartWrite], s6);
    Extend(s0, SendfileBegin, [Send(a), SendfileEnd, StartWrite, Send(b), StartWrite], s6);
    assert s6.inflight == [a, b];
  }

  lemma Extend(s: Session, step: Step, rest: seq<Step>, r: Session)
    requires CanDo(s, step) && Reaches(Do(s, step), rest, r)
    ensures Reaches(s, [step] + rest, r)
  {
    assert ([step] + rest)[1..] == rest;
  }

  /** Over all interleavings of senders and completions there is a single writer, with nothing lost,
      duplicated or reordered, exactly when the background sender is off. */
  lemma SingleWriterIff(useSendfile: bool)
    ensures (forall steps, r :: Reaches(Fresh(useSendfile), steps, r) ==> SingleWriter(r)) <==> !useSendfile
  {
    if useSendfile {
      SendfileRun([], []);
      var steps, r :| Reaches(Fresh(true), steps, r) && r.inflight == [[], []];
      assert !SingleWriter(r);
    } else {
      forall steps, r | Reaches(Fresh(false), steps, r) ensures SingleWriter(r) {
        RunKeeps(Fresh(false), steps, r);
      }
    }
  }

  // ---------------------------------------------------------------- the critical sections

  class WriteQueue {
    var queue: seq<Buffer>
    var isWriting: bool
    ghost var starters: nat
    ghost var inflight: seq<Buffer>
    ghost var completed: seq<Buffer>
    ghost var sent: seq<Buffer>

    ghost function View(): Session
      reads this
    {
      Session(queue, isWriting, starters, inflight, 0, completed, sent, false)
    }

    constructor ()
      ensures View() == Fresh(false) && QueueInv(View())
    {
      queue, isWriting, starters, inflight, completed, sent := [], false, 0, [], [], [];
    }

    /** True when the caller must call `BeginWrite`. */
    method SendMessage(buffer: Buffer) returns (trigger: bool)
      requires QueueInv(View())
      modifies this
      ensures View() == Do(old(View()), Send(buffer)) && QueueInv(View())
      ensures trigger == (starters > old(starters))
    {
      StepKeeps(View(), Send(buffer));
      queue := queue + [buffer];
      trigger := false;
      if !isWriting {
        isWriting := true;
        trigger := true;
      }
      starters := if trigger then starters + 1 else starters;
      sent := sent + [buffer];
    }

    method BeginWrite() returns (buffer: Option<Buffer>)
      requires starters > 0
      modifies this
      ensures View() == Do(old(View()), StartWrite) && (old(QueueInv(View())) ==> QueueInv(View()) && buffer.Some?)
      ensures buffer == if old(queue) == [] then None else Some(old(queue)[0])
    {
      if QueueInv(View()) { StepKeeps(View(), StartWrite); }
      starters := starters - 1;
      if queue == [] {
        isWriting := false;
        return None;
      }
      buffer := Some(queue[0]);
      inflight := inflight + [queue[0]];
      queue := queue[1..];
    }

    /** True when the completion handler must call `BeginWrite`. */
    method WriteDone() returns (hasMore: bool)
      requires QueueInv(View()) && inflight != []
      modifies this
      ensures View() == Do(old(View()), Finish(0)) && QueueInv(View())
      ensures hasMore == (starters > old(starters))
    {
      StepKeeps(View(), Finish(0));
      completed := completed + [inflight[0]];
      inflight := inflight[..0] + inflight[1..];
      hasMore := queue != [];
      if !hasMore {
        isWriting := false;
      }
      starters := if hasMore then starters + 1 else starters;
    }
  }

  // ---------------------------------------------------------------- the request window

  const PIPELINE_MIN: nat := 8
  const PIPELINE_MAX: nat := 100
  const REQUEST_TIMEOUT_MS: nat := 3000
  const REQUEST_TIMEOUT_LIMIT: nat := 3
  const LATENCY_EMA_ALPHA: real := 0.3
  const LATENCY_THRESHOLD_US: real := 2000.0

  /** `ceil(cap * 1.5)`. */
  function GrownCap(cap: nat): nat { (3 * cap + 1) / 2 }

  lemma GrownCapIsCeil(cap: nat)
    ensures 2 * GrownCap(cap) >= 3 * cap > 2 * (GrownCap(cap) - 1)
  {
  }

  class RequestWindow {
    var cap: nat
    var pendingTimes: map<(nat, nat), nat>   // (chunk, begin) -> when it was requested
    var consecutiveTimeouts: nat
    var avgLatencyUs: real

    ghost predicate Valid()
      reads this
    {
      PIPELINE_MIN <= cap <= 128 && avgLatencyUs >= 0.0
    }

    constructor ()
      ensures Valid() && cap == 128 && pendingTimes == map[] && consecutiveTimeouts == 0 && avgLatencyUs == 500.0
    {
      cap, pendingTimes, consecutiveTimeouts, avgLatencyUs := 128, map[], 0, 500.0;
    }

    method RecordRequest(chunk: nat, begin: nat, now: nat)
      requires Valid()
      modifies `pendingTimes
      ensures pendingTimes == old(pendingTimes)[(chunk, begin) := now]
    {
      pendingTimes := pendingTimes[(chunk, begin) := now];
    }

    /** A piece ends the run of timeouts and is no longer waited for; if it was, the time it took moves
        the latency estimate towards it, to somewhere between the two. */
    method PieceArrived(chunk: nat, begin: nat, elapsedUs: nat)
      requires Valid()
      modifies `pendingTimes, `consecutiveTimeouts, `avgLatencyUs
      ensures Valid() && consecutiveTimeouts == 0
      ensures pendingTimes == old(pendingTimes) - {(chunk, begin)}
      ensures (chunk, begin) !in old(pendingTimes) ==> avgLatencyUs == old(avgLatencyUs)
      ensures (chunk, begin) in old(pendingTimes) ==>
                avgLatencyUs - elapsedUs as real == (1.0 - LATENCY_EMA_ALPHA) * (old(avgLatencyUs) - elapsedUs as real)
    {
      consecutiveTimeouts := 0;
      if (chunk, begin) in pendingTimes {
        avgLatencyUs := LATENCY_EMA_ALPHA * elapsedUs as real + (1.0 - LATENCY_EMA_ALPHA) * avgLatencyUs;
        pendingTimes := pendingTimes - {(chunk, begin)};
      }
    }

    /** Forgets and reports the requests that are three seconds old. */
    method Expire(now: nat) returns (expired: set<(nat, nat)>)
      modifies `pendingTimes, `consecutiveTimeouts
      ensures expired == set r | r in old(pendingTimes) && now >= old(pendingTimes)[r] + REQUEST_TIMEOUT_MS
      ensures pendingTimes == old(pendingTimes) - expired
      ensures consecutiveTimeouts == old(consecutiveTimeouts) + |expired|
    {
      ghost var before := pendingTimes;
      expired := {};
      var left := pendingTimes.Keys;
      while left != {}
        invariant left <= before.Keys && pendingTimes == before - expired
        invariant expired == set r | r in before && r !in left && now >= before[r] + REQUEST_TIMEOUT_MS
        invariant consecutiveTimeouts == old(consecutiveTimeouts) + |expired|
        decreases |left|
      {
        var r :| r in left;
        left := left - {r};
        if now >= pendingTimes[r] + REQUEST_TIMEOUT_MS {
          pendingTimes := pendingTimes - {r};
          consecutiveTimeouts := consecutiveTimeouts + 1;
          expired := expired + {r};
        }
      }
    }

    /** One evaluation: the session goes down after three timeouts in a row; otherwise the window grows
        by half when the cycle was calm and halves when it was not, and ends up between 8 and 100. */
    method Evaluate(now: nat) returns (alive: bool, expired: set<(nat, nat)>)
      requires Valid()
      modifies `cap, `pendingTimes, `consecutiveTimeouts
      ensures Valid()
      ensures expired == set r | r in old(pendingTimes) && now >= old(pendingTimes)[r] + REQUEST_TIMEOUT_MS
      ensures consecutiveTimeouts == old(consecutiveTimeouts) + |expired|
      ensures alive <==> consecutiveTimeouts < REQUEST_TIMEOUT_LIMIT
      ensures forall r | r in pendingTimes :: now < pendingTimes[r] + REQUEST_TIMEOUT_MS
      ensures !alive ==> cap == old(cap)
      ensures alive ==> PIPELINE_MIN <= cap <= PIPELINE_MAX
      ensures alive && expired == {} && avgLatencyUs < LATENCY_THRESHOLD_US ==>
                cap == if old(cap) >= 67 then 100 else GrownCap(old(cap))
      ensures alive && (expired != {} || avgLatencyUs >= LATENCY_THRESHOLD_US) ==>
                cap == if old(cap) < 16 then 8 else old(cap) / 2
    {
      expired := Expire(now);
      if consecutiveTimeouts >= REQUEST_TIMEOUT_LIMIT {
        return false, expired;
      }
      if expired == {} && avgLatencyUs < LATENCY_THRESHOLD_US {
        var grown := GrownCap(cap);
        cap := if grown < PIPELINE_MAX then grown else PIPELINE_MAX;
      } else {
        cap := if cap / 2 > PIPELINE_MIN then cap / 2 else PIPELINE_MIN;
      }
      return true, expired;
    }
  }
}

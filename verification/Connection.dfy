// One websocket connection's outbound queue: bounded, first in first out, with
// the ready frame first and a one-slot wake-up signal for the writer.

module Connection {
  import opened Common

  type Frame = seq<bv8>

  datatype Limits = Limits(messages: nat, bytes: nat)

  function TotalLength(frames: seq<Frame>): nat {
    if frames == [] then 0 else |frames[0]| + TotalLength(frames[1..])
  }

  lemma {:induction false} TotalLengthSplits(a: seq<Frame>, b: seq<Frame>)
    ensures TotalLength(a + b) == TotalLength(a) + TotalLength(b)
  {
    if a == [] {
      assert a + b == b;
    } else {
      assert (a + b)[0] == a[0] && (a + b)[1..] == a[1..] + b;
      TotalLengthSplits(a[1..], b);
    }
  }

  /** The fields a connection guards with its lock. */
  datatype Queue = Queue(frames: seq<Frame>, bytes: int, ready: bool)

  predicate Fits(k: Limits, q: Queue, data: Frame) {
    |q.frames| < k.messages && q.bytes + |data| <= k.bytes
  }

  predicate Sound(k: Limits, q: Queue) {
    q.bytes == TotalLength(q.frames) && |q.frames| <= k.messages && q.bytes <= k.bytes
  }

  function Appended(q: Queue, data: Frame): Queue {
    q.(frames := q.frames + [data], bytes := q.bytes + |data|)
  }

  function Activated(q: Queue, data: Frame): Queue {
    q.(frames := [data] + q.frames, bytes := q.bytes + |data|, ready := true)
  }

  predicate Takeable(q: Queue) {
    q.ready && q.frames != []
  }

  function Popped(q: Queue): Queue
    requires q.frames != []
  {
    q.(frames := q.frames[1..], bytes := q.bytes - |q.frames[0]|)
  }

  lemma QueueStaysSound(k: Limits, q: Queue, data: Frame)
    requires Sound(k, q)
    ensures Fits(k, q, data) ==> Sound(k, Appended(q, data)) && Sound(k, Activated(q, data))
    ensures q.frames != [] ==> Sound(k, Popped(q))
  {
    TotalLengthSplits(q.frames, [data]);
    TotalLengthSplits([data], q.frames);
    assert TotalLength([data]) == |data|;
    if q.frames != [] {
      assert q.frames == [q.frames[0]] + q.frames[1..];
    }
  }

  /** A frame fits exactly if the queue with it keeps to both limits. */
  lemma LimitsDecide(k: Limits, q: Queue, data: Frame)
    requires Sound(k, q)
    ensures Fits(k, q, data) <==> |q.frames| + 1 <= k.messages && TotalLength(q.frames + [data]) <= k.bytes
    ensures TotalLength([data] + q.frames) == TotalLength(q.frames + [data])
  {
    TotalLengthSplits(q.frames, [data]);
    TotalLengthSplits([data], q.frames);
    assert TotalLength([data]) == |data|;
  }

  /** The connection with its wake-up slot and its stop signal. */
  class Connection {
    const limits: Limits
    var queue: seq<Frame>
    var queuedBytes: int
    var ready: bool
    var notify: bool
    var stop: bool
    var reason: string

    constructor (limits: Limits)
      ensures this.limits == limits && Now() == Queue([], 0, false) && !notify && !stop
    {
      this.limits := limits;
      queue, queuedBytes, ready, notify, stop, reason := [], 0, false, false, false, "";
    }

    function Now(): Queue
      reads this
    {
      Queue(queue, queuedBytes, ready)
    }

    /** Only the first request counts. */
    method RequestClose(why: string)
      modifies this`stop, this`reason
      ensures stop && reason == if old(stop) then old(reason) else why
    {
      if !stop {
        stop, reason := true, why;
      }
    }

    method Enqueue(data: Frame)
      requires Sound(limits, Now())
      modifies this
      ensures Sound(limits, Now())
      ensures old(stop) ==> Now() == old(Now()) && notify == old(notify) && stop && reason == old(reason)
      ensures !old(stop) && Fits(limits, old(Now()), data) ==> Now() == Appended(old(Now()), data) && notify && !stop
      ensures !old(stop) && !Fits(limits, old(Now()), data) ==> Now() == old(Now()) && stop && notify == old(notify)
      ensures !old(stop) ==>
        if |old(queue)| + 1 <= limits.messages && TotalLength(old(queue) + [data]) <= limits.bytes
        then queue == old(queue) + [data] && !stop && notify else queue == old(queue) && stop
    {
      LimitsDecide(limits, Now(), data);
      if stop {
        return;
      }
      if |queue| >= limits.messages || queuedBytes + |data| > limits.bytes {
        RequestClose("outbound queue full");
        return;
      }
      QueueStaysSound(limits, Now(), data);
      queue := queue + [data];
      queuedBytes := queuedBytes + |data|;
      notify := true;
    }

    /** Puts the ready frame in front of everything buffered during preparation. */
    method Activate(data: Frame)
      requires Sound(limits, Now())
      modifies this
      ensures Sound(limits, Now())
      ensures Fits(limits, old(Now()), data) ==> Now() == Activated(old(Now()), data) && notify && stop == old(stop)
      ensures !Fits(limits, old(Now()), data) ==> Now() == old(Now()) && stop && notify == old(notify)
      ensures if |old(queue)| + 1 <= limits.messages && TotalLength([data] + old(queue)) <= limits.bytes
              then queue == [data] + old(queue) && ready && notify && stop == old(stop)
              else queue == old(queue) && ready == old(ready) && stop
    {
      LimitsDecide(limits, Now(), data);
      if |queue| >= limits.messages || queuedBytes + |data| > limits.bytes {
        RequestClose("preparation buffer full");
        return;
      }
      QueueStaysSound(limits, Now(), data);
      queue := [data] + queue;
      queuedBytes := queuedBytes + |data|;
      ready := true;
      notify := true;
    }

    /** The writer's inner loop after a wake-up, when nothing else runs: everything
        queued is written in order, or as much as `writes` calls that succeed allow. */
    method Drain(writes: nat) returns (written: seq<Frame>)
      requires Sound(limits, Now())
      modifies this
      ensures Sound(limits, Now()) && ready == old(ready) && notify == old(notify)
      ensures !old(ready) || old(stop) ==> written == [] && queue == old(queue) && stop == old(stop)
      ensures old(ready) && !old(stop) && |old(queue)| <= writes ==> written == old(queue) && queue == [] && !stop
      ensures old(ready) && !old(stop) && |old(queue)| > writes ==>
        written == old(queue)[..writes] && queue == old(queue)[writes + 1..] && stop
    {
      written := [];
      while !stop && ready && queue != []
        invariant Sound(limits, Now()) && ready == old(ready) && notify == old(notify)
        invariant !ready || old(stop) ==> written == [] && queue == old(queue) && stop == old(stop)
        invariant ready && !old(stop) && !stop ==>
          && |written| <= writes && |written| <= |old(queue)|
          && written == old(queue)[..|written|] && queue == old(queue)[|written|..]
        invariant ready && !old(stop) && stop ==>
          |old(queue)| > writes && written == old(queue)[..writes] && queue == old(queue)[writes + 1..]
        decreases |queue|, !stop
      {
        var data := queue[0];
        QueueStaysSound(limits, Now(), data);
        queue := queue[1..];
        queuedBytes := queuedBytes - |data|;
        if |written| >= writes {
          RequestClose("write failed");
        } else {
          written := written + [data];
        }
      }
    }
  }
}

// The goroutines around one connection, step by step: the subscription's callback
// offering events, the activation, the writer, and anybody asking to close.
module ConnectionRun {
  import opened Common
  import opened Connection

  datatype Writer =
    | Waiting                     // for a notification or the stop signal
    | Awake                       // about to look at the stop signal
    | Looking                     // about to look at the queue
    | Writing                     // has taken a frame
    | Ended

  /** A goroutine that appended and has yet to signal, or overflowed and has yet to
      ask for the close. */
  datatype After = Nothing | MustSignal | MustClose

  /** `offered` are the callback's events so far, `accepted` those appended, `ready`
      the ready frame once it is in the queue, `taken` what the writer took. */
  datatype State = State(q: Queue, stop: bool, notify: bool, writer: Writer, callback: After,
                         activation: Option<After>, offered: seq<Frame>, accepted: seq<Frame>,
                         readyFrame: Option<Frame>, taken: seq<Frame>)

  datatype Event =
    | Offer(data: Frame)
    | FinishOffer
    | Activate(data: Frame)
    | FinishActivate
    | Close
    | Wake
    | SeeStop
    | Continue
    | Take
    | Written(ok: bool)

  function Finish(s: State, after: After): State {
    match after
    case Nothing => s
    case MustSignal => s.(notify := true)
    case MustClose => s.(stop := true)
  }

  /** Each event is one locked section, one channel operation or one socket write.
      The callback is called for one event at a time; a connection is activated at
      most once. Events that are not enabled leave the state as it is. */
  function Step(k: Limits, s: State, e: Event): State {
    match e
    case Offer(data) =>
      if s.callback != Nothing then s
      else if s.stop then s.(offered := s.offered + [data])
      else if !Fits(k, s.q, data) then s.(offered := s.offered + [data], callback := MustClose)
      else s.(offered := s.offered + [data], accepted := s.accepted + [data], q := Appended(s.q, data), callback := MustSignal)
    case FinishOffer => Finish(s, s.callback).(callback := Nothing)
    case Activate(data) =>
      if s.activation.Some? then s
      else if !Fits(k, s.q, data) then s.(activation := Some(MustClose))
      else s.(activation := Some(MustSignal), q := Activated(s.q, data), readyFrame := Some(data))
    case FinishActivate =>
      if s.activation == None then s else Finish(s, s.activation.value).(activation := Some(Nothing))
    case Close => s.(stop := true)
    case Wake => if s.writer == Waiting && s.notify then s.(writer := Awake, notify := false) else s
    case SeeStop => if (s.writer == Waiting || s.writer == Awake) && s.stop then s.(writer := Ended) else s
    case Continue => if s.writer == Awake && !s.stop then s.(writer := Looking) else s
    case Take =>
      if s.writer != Looking then s
      else if !Takeable(s.q) then s.(writer := Waiting)
      else s.(writer := Writing, q := Popped(s.q), taken := s.taken + [s.q.frames[0]])
    case Written(ok) =>
      if s.writer != Writing then s
      else if ok then s.(writer := Awake)
      else s.(writer := Ended, stop := true)
  }

  function Run(k: Limits, s: State, events: seq<Event>): State {
    if events == [] then s else Step(k, Run(k, s, events[..|events| - 1]), events[|events| - 1])
  }

  function Start(): State {
    State(Queue([], 0, false), false, false, Waiting, Nothing, None, [], [], None, [])
  }

  // ----- The invariant -----------------------------------------------------------------

  /** What the client is owed so far: the ready frame, then the accepted events. */
  function Owed(s: State): seq<Frame> {
    if s.readyFrame == None then [] else [s.readyFrame.value] + s.accepted
  }

  ghost predicate InOrder(s: State) {
    && s.q.ready == s.readyFrame.Some?
    && (s.q.ready ==> s.taken + s.q.frames == Owed(s))
    && (!s.q.ready ==> s.taken == [] && s.q.frames == s.accepted)
    && (s.readyFrame.Some? ==> s.activation.Some?)
  }

  /** While the connection lives and no overflow is pending, nothing offered is missing. */
  ghost predicate NothingSkipped(s: State) {
    && s.accepted <= s.offered
    && (!s.stop && s.callback != MustClose ==> s.accepted == s.offered)
  }

  /** Something to write never waits for a writer that sleeps without a reason to wake. */
  predicate Woken(s: State) {
    Takeable(s.q) && !s.stop ==>
      s.notify || s.callback == MustSignal || s.activation == Some(MustSignal)
      || s.writer == Awake || s.writer == Looking || s.writer == Writing
  }

  ghost predicate Inv(k: Limits, s: State) {
    && Sound(k, s.q) && InOrder(s) && NothingSkipped(s) && Woken(s)
    && (s.writer == Ended ==> s.stop)
  }

  lemma OfferKeepsOrder(k: Limits, s: State, data: Frame)
    requires InOrder(s)
    ensures InOrder(Step(k, s, Offer(data)))
  {
    hide Fits;
    assert s.taken + (s.q.frames + [data]) == (s.taken + s.q.frames) + [data];
    if s.readyFrame.Some? {
      assert [s.readyFrame.value] + (s.accepted + [data]) == Owed(s) + [data];
    }
  }

  lemma OfferKeepsInv(k: Limits, s: State, data: Frame)
    requires Inv(k, s)
    ensures Inv(k, Step(k, s, Offer(data)))
  {
    QueueStaysSound(k, s.q, data);
    OfferKeepsOrder(k, s, data);
    hide Sound;
    hide Fits;
    hide InOrder;
  }

  lemma ActivateKeepsOrder(k: Limits, s: State, data: Frame)
    requires InOrder(s)
    ensures InOrder(Step(k, s, Activate(data)))
  {
    hide Fits;
    assert [] + ([data] + s.q.frames) == [data] + s.q.frames;
  }

  lemma ActivateKeepsInv(k: Limits, s: State, data: Frame)
    requires Inv(k, s)
    ensures Inv(k, Step(k, s, Activate(data)))
  {
    QueueStaysSound(k, s.q, data);
    ActivateKeepsOrder(k, s, data);
    hide Sound;
    hide Fits;
    hide InOrder;
  }

  lemma TakeKeepsInv(k: Limits, s: State)
    requires Inv(k, s)
    ensures Inv(k, Step(k, s, Take))
  {
    QueueStaysSound(k, s.q, []);
    hide Sound;
    if s.writer == Looking && Takeable(s.q) {
      assert s.q.frames == [s.q.frames[0]] + s.q.frames[1..];
      assert (s.taken + [s.q.frames[0]]) + s.q.frames[1..] == s.taken + s.q.frames;
    }
  }

  lemma OthersKeepInv(k: Limits, s: State, e: Event)
    requires Inv(k, s) && !e.Offer? && !e.Activate? && !e.Take?
    ensures Inv(k, Step(k, s, e))
  {
    hide Sound;
    hide Takeable;
    hide InOrder;
    hide Fits;
    hide Popped;
    hide Appended;
    hide Activated;
    var s' := Step(k, s, e);
    OthersKeepQueue(k, s, e);
    SameOrder(s, s');
  }

  lemma OthersKeepQueue(k: Limits, s: State, e: Event)
    requires !e.Offer? && !e.Activate? && !e.Take?
    ensures
      var s' := Step(k, s, e);
      && s'.q == s.q && s'.taken == s.taken && s'.accepted == s.accepted && s'.offered == s.offered
      && s'.readyFrame == s.readyFrame && (s.activation.Some? ==> s'.activation.Some?)
  {
    hide Fits;
    hide Popped;
  }

  lemma SameOrder(s: State, s': State)
    requires InOrder(s)
    requires s'.q == s.q && s'.taken == s.taken && s'.accepted == s.accepted && s'.readyFrame == s.readyFrame
    requires s.activation.Some? ==> s'.activation.Some?
    ensures InOrder(s')
  {
  }

  lemma StepKeepsInv(k: Limits, s: State, e: Event)
    requires Inv(k, s)
    ensures Inv(k, Step(k, s, e))
  {
    hide Inv;
    hide Step;
    match e
    case Offer(data) => OfferKeepsInv(k, s, data);
    case Activate(data) => ActivateKeepsInv(k, s, data);
    case Take => TakeKeepsInv(k, s);
    case _ => OthersKeepInv(k, s, e);
  }

  lemma {:induction false} RunKeepsInv(k: Limits, s: State, events: seq<Event>)
    requires Inv(k, s)
    ensures Inv(k, Run(k, s, events))
  {
    if events != [] {
      RunKeepsInv(k, s, events[..|events| - 1]);
      StepKeepsInv(k, Run(k, s, events[..|events| - 1]), events[|events| - 1]);
    }
  }

  // ----- Main results --------------------------------------------------------------------

  /** Whatever the goroutines' order: the frames taken for writing are a prefix of
      the ready frame followed by the events as they were offered, with no event
      left out; nothing is taken before the activation; and both limits hold. */
  lemma ConnectionIsBoundedFIFO(k: Limits, events: seq<Event>)
    ensures
      var s := Run(k, Start(), events);
      && (s.readyFrame == None ==> s.taken == [])
      && (s.readyFrame.Some? ==> s.taken <= [s.readyFrame.value] + s.offered)
      && s.q.bytes == TotalLength(s.q.frames) && |s.q.frames| <= k.messages && s.q.bytes <= k.bytes
  {
    RunKeepsInv(k, Start(), events);
    var s := Run(k, Start(), events);
    if s.readyFrame.Some? {
      assert s.taken <= s.taken + s.q.frames;
    }
  }

  /** A connection that is not closing misses nothing: what was taken and what is
      still queued are together exactly what was offered, behind the ready frame. */
  lemma LivingConnectionMissesNothing(k: Limits, events: seq<Event>)
    ensures
      var s := Run(k, Start(), events);
      !s.stop && s.callback != MustClose ==>
        s.taken + s.q.frames == (if s.readyFrame == None then s.offered else [s.readyFrame.value] + s.offered)
  {
    RunKeepsInv(k, Start(), events);
  }

  function Play(k: Limits, s: State, events: seq<Event>): State
    decreases |events|
  {
    if events == [] then s else Play(k, Step(k, s, events[0]), events[1..])
  }

  lemma {:induction false} PlaySplits(k: Limits, s: State, a: seq<Event>, b: seq<Event>)
    ensures Play(k, s, a + b) == Play(k, Play(k, s, a), b)
    decreases |a|
  {
    if a == [] {
      assert a + b == b;
    } else {
      assert (a + b)[0] == a[0] && (a + b)[1..] == a[1..] + b;
      PlaySplits(k, Step(k, s, a[0]), a[1..], b);
    }
  }

  /** Look, take and write, up to n times, and then rest. */
  function WriterSteps(n: nat): seq<Event> {
    if n == 0 then [Continue, Take] else [Continue, Take, Written(true)] + WriterSteps(n - 1)
  }

  /** The signals still on their way, a wake-up or the rest of a write, and the writer. */
  function Catchup(n: nat): seq<Event> {
    [FinishOffer, FinishActivate, Wake, Take, Written(true)] + WriterSteps(n)
  }

  lemma PlayThree(k: Limits, s: State, a: Event, b: Event, c: Event)
    ensures Play(k, s, [a, b, c]) == Step(k, Step(k, Step(k, s, a), b), c)
  {
    var s1, s2 := Step(k, s, a), Step(k, Step(k, s, a), b);
    assert [a, b, c][1..] == [b, c] && [b, c][1..] == [c] && [c][1..] == [];
    assert Play(k, s2, [c]) == Play(k, Step(k, s2, c), []);
    assert Play(k, s1, [b, c]) == Play(k, s2, [c]);
  }

  lemma PlayTwo(k: Limits, s: State, a: Event, b: Event)
    ensures Play(k, s, [a, b]) == Step(k, Step(k, s, a), b)
  {
    assert [a, b][1..] == [b] && [b][1..] == [];
    assert Play(k, Step(k, s, a), [b]) == Play(k, Step(k, Step(k, s, a), b), []);
  }

  /** A writer that is awake, or has nothing left to do, drains the queue. */
  lemma {:induction false} WriterDrains(k: Limits, s: State, n: nat)
    requires s.q.ready && !s.stop && |s.q.frames| <= n
    requires s.writer == Awake || (s.writer == Waiting && s.q.frames == [])
    ensures var s' := Play(k, s, WriterSteps(n)); s'.q.frames == [] && s'.taken == s.taken + s.q.frames && !s'.stop
    decreases n
  {
    if n == 0 {
      PlayTwo(k, s, Continue, Take);
    } else {
      PlaySplits(k, s, [Continue, Take, Written(true)], WriterSteps(n - 1));
      PlayThree(k, s, Continue, Take, Written(true));
      var s1 := Step(k, Step(k, Step(k, s, Continue), Take), Written(true));
      if s.q.frames != [] {
        assert s.taken + [s.q.frames[0]] + s.q.frames[1..] == s.taken + s.q.frames;
      }
      WriterDrains(k, s1, n - 1);
    }
  }

  /** No wake-up is ever lost: from every state of a living, activated connection,
      the signals already on their way and the writer alone bring out everything
      accepted so far. */
  lemma QueueAlwaysDrains(k: Limits, events: seq<Event>)
    requires
      var s := Run(k, Start(), events);
      s.q.ready && !s.stop && s.callback != MustClose && s.activation != Some(MustClose)
    ensures
      var s := Run(k, Start(), events);
      var s' := Play(k, s, Catchup(|s.q.frames|));
      s'.q.frames == [] && s'.taken == Owed(s) && !s'.stop
  {
    RunKeepsInv(k, Start(), events);
    DrainsFrom(k, Run(k, Start(), events));
  }

  lemma DrainsFrom(k: Limits, s: State)
    requires Inv(k, s) && s.q.ready && !s.stop && s.callback != MustClose && s.activation != Some(MustClose)
    ensures var s' := Play(k, s, Catchup(|s.q.frames|)); s'.q.frames == [] && s'.taken == Owed(s) && !s'.stop
  {
    hide Sound;
    var n := |s.q.frames|;
    var signals, wake := [FinishOffer, FinishActivate], [Wake, Take, Written(true)];
    var s1 := Step(k, Step(k, s, FinishOffer), FinishActivate);
    var s2 := Step(k, Step(k, Step(k, s1, Wake), Take), Written(true));
    assert Catchup(n) == signals + (wake + WriterSteps(n));
    PlaySplits(k, s, signals, wake + WriterSteps(n));
    PlayTwo(k, s, FinishOffer, FinishActivate);
    PlaySplits(k, s1, wake, WriterSteps(n));
    PlayThree(k, s1, Wake, Take, Written(true));
    WokenOrEmpty(k, s1, s);
    WakesUp(k, s1, s2);
    hide Step;
    hide Play;
    WriterDrains(k, s2, n);
  }

  lemma WakesUp(k: Limits, s1: State, s2: State)
    requires s2 == Step(k, Step(k, Step(k, s1, Wake), Take), Written(true))
    requires s1.q.ready && !s1.stop && s1.writer != Ended && (s1.writer == Waiting && s1.q.frames != [] ==> s1.notify)
    ensures s2.q.ready && !s2.stop && |s2.q.frames| <= |s1.q.frames|
    ensures s2.writer == Awake || (s2.writer == Waiting && s2.q.frames == [])
    ensures s2.taken + s2.q.frames == s1.taken + s1.q.frames
  {
    if s1.writer == Looking && s1.q.frames != [] {
      assert (s1.taken + [s1.q.frames[0]]) + s1.q.frames[1..] == s1.taken + s1.q.frames;
    }
  }

  /** Once the signals have landed, a sleeping writer has been notified or has
      nothing to write. */
  lemma WokenOrEmpty(k: Limits, s1: State, s: State)
    requires Inv(k, s) && s.q.ready && !s.stop && s.callback != MustClose && s.activation != Some(MustClose)
    requires s1 == Step(k, Step(k, s, FinishOffer), FinishActivate)
    ensures s1.q == s.q && s1.taken == s.taken && !s1.stop
    ensures s1.writer == Waiting && s1.q.frames != [] ==> s1.notify
    ensures s1.writer != Ended
  {
  }

  /** Something at this point of a run asks for the close: somebody does, a write fails,
      or a frame comes that would exceed a limit of the queue. */
  ghost predicate AsksForClose(k: Limits, events: seq<Event>, i: nat) {
    && i < |events|
    && var q := Run(k, Start(), events[..i]).q;
    match events[i]
    case Close => true
    case Written(ok) => !ok
    case Offer(data) => |q.frames| + 1 > k.messages || TotalLength(q.frames + [data]) > k.bytes
    case Activate(data) => |q.frames| + 1 > k.messages || TotalLength(q.frames + [data]) > k.bytes
    case _ => false
  }

  predicate Closing(s: State) {
    s.stop || s.callback == MustClose || s.activation == Some(MustClose)
  }

  /** A connection only closes for a cause. */
  lemma {:induction false} ClosingHasACause(k: Limits, events: seq<Event>)
    requires Closing(Run(k, Start(), events))
    ensures exists i: nat :: AsksForClose(k, events, i)
  {
    if events != [] {
      var before, e := events[..|events| - 1], events[|events| - 1];
      assert events == before + [e];
      var s := Run(k, Start(), before);
      if Closing(s) {
        ClosingHasACause(k, before);
        var i: nat :| AsksForClose(k, before, i);
        assert events[..i] == before[..i];
        assert AsksForClose(k, events, i);
      } else {
        RunKeepsInv(k, Start(), before);
        if e.Offer? || e.Activate? { LimitsDecide(k, s.q, e.data); }
        assert events[..|before|] == before;
        assert AsksForClose(k, events, |before|);
      }
    }
  }
}

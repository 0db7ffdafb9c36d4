/**
 How a client is torn down: the main loop, the reader, Close, the HTTP handler, the pool and the pub/sub
 agents run concurrently and meet at channels. Each step below is one action of one of them.

 A send on a closed channel, or a second close, panics in Go; `crashed` records it.
 */
module Shutdown {

  /** The buffer of fromWebSocket. */
  const CAPACITY: nat := 64

  /** What the browser sends; only what parses becomes a message. */
  datatype Frame = Frame(text: string, parses: bool)

  datatype Reader = Reading | Sending(frame: Frame) | Exited

  /** The main loop: in its select, inside handleMessage, past its loop (in the deferred Close), gone. */
  datatype MainLoop = Looping | Handling | Leaving | Stopped

  /** How far the body of closeOnce has come. */
  datatype CloseStage = NotStarted | Entered | Draining | Drained | AgentRemoved | Finished

  /** ServeHTTP: before and after `add <- client`, after the wait group's Wait, after `remove <- client`. */
  datatype Handler = Connected | Added | Waited | Gone

  datatype Conn = Conn(
    socketOpen: bool,
    frames: seq<Frame>,   // frames the browser sent that were not read yet
    reader: Reader,
    buffered: seq<Frame>, // messages in fromWebSocket
    fromClosed: bool,     // fromWebSocket is closed
    main: MainLoop,
    stage: CloseStage,
    registered: bool,     // known to the pub/sub agents
    handler: Handler,
    inPool: bool,
    closes: nat,          // how often toWebSocket was closed
    crashed: bool,
    arrived: seq<Frame>,  // history: every frame the browser sent
    taken: seq<Frame>,    // history: every message received from fromWebSocket
    handled: seq<Frame>)  // history: those the main loop received

  const NEW :=
    Conn(true, [], Reading, [], false, Looping, NotStarted, false, Connected, false, 0, false, [], [], [])

  datatype Step =
    | FrameArrives(frame: Frame)
    | ReadFrame | ReadFails | Enqueue
    | TakeMessage | FinishHandling(watches: bool) | SeesFromClosed | SeesToClosed | WriteFails
    | MainCloses | OtherCloses | CloseSocket | DrainOne | DrainEnds | RemoveAgent | CloseDone | MainReturns
    | HandlerAdds | HandlerWakes | HandlerRemoves
    | Receive | Broadcast

  predicate Enabled(c: Conn, s: Step) {
    match s
    // the browser, and the reader
    case FrameArrives(_) => c.socketOpen
    case ReadFrame => c.reader.Reading? && c.frames != []
    case ReadFails => c.reader.Reading?
    case Enqueue => c.reader.Sending? && |c.buffered| < CAPACITY
    // the main loop
    case TakeMessage => c.main.Looping? && c.buffered != []
    case FinishHandling(_) => c.main.Handling?
    case SeesFromClosed => c.main.Looping? && c.fromClosed && c.buffered == []
    case SeesToClosed => c.main.Looping? && c.closes > 0
    case WriteFails => c.main.Looping?
    // Close
    case MainCloses => c.main.Leaving? && c.stage.NotStarted?
    case OtherCloses => c.stage.NotStarted?
    case CloseSocket => c.stage.Entered?
    case DrainOne => c.stage.Draining? && c.buffered != []
    case DrainEnds => c.stage.Draining? && c.buffered == [] && c.fromClosed
    case RemoveAgent => c.stage.Drained?
    case CloseDone => c.stage.AgentRemoved?
    case MainReturns => c.main.Leaving? && c.stage.Finished?
    // the handler, with the pool's side of each rendezvous
    case HandlerAdds => c.handler.Connected?
    case HandlerWakes => c.handler.Added? && c.stage.Finished?
    case HandlerRemoves => c.handler.Waited?
    // messages for the browser
    case Receive => c.registered
    case Broadcast => c.inPool
  }

  function Next(c: Conn, s: Step): Conn
    requires Enabled(c, s)
  {
    match s
    case FrameArrives(f) => c.(frames := c.frames + [f], arrived := c.arrived + [f])
    case ReadFrame =>
      c.(frames := c.frames[1..], reader := if c.frames[0].parses then Sending(c.frames[0]) else Reading)
    case ReadFails => c.(reader := Exited, fromClosed := true, crashed := c.crashed || c.fromClosed)
    case Enqueue =>
      c.(buffered := c.buffered + [c.reader.frame], reader := Reading, crashed := c.crashed || c.fromClosed)
    case TakeMessage =>
      c.(buffered := c.buffered[1..], main := Handling,
         taken := c.taken + [c.buffered[0]], handled := c.handled + [c.buffered[0]])
    case FinishHandling(watches) => c.(main := Looping, registered := watches)
    case SeesFromClosed => c.(main := Leaving)
    case SeesToClosed => c.(main := Leaving)
    case WriteFails => c.(main := Leaving)
    case MainCloses => c.(stage := Entered)
    case OtherCloses => c.(stage := Entered)
    case CloseSocket => c.(stage := Draining, socketOpen := false)
    case DrainOne => c.(buffered := c.buffered[1..], taken := c.taken + [c.buffered[0]])
    case DrainEnds => c.(stage := Drained)
    case RemoveAgent => c.(stage := AgentRemoved, registered := false)
    case CloseDone => c.(stage := Finished)
    case MainReturns => c.(main := Stopped)
    case HandlerAdds => c.(handler := Added, inPool := true)
    case HandlerWakes => c.(handler := Waited)
    case HandlerRemoves =>
      if c.inPool
      then c.(handler := Gone, inPool := false, closes := c.closes + 1, crashed := c.crashed || c.closes > 0)
      else c.(handler := Gone)
    case Receive => c.(crashed := c.crashed || c.closes > 0)
    case Broadcast => c.(crashed := c.crashed || c.closes > 0)
  }

  // ----- Runs -----

  predicate EnabledRun(c: Conn, run: seq<Step>)
    decreases |run|
  {
    run == [] || (Enabled(c, run[0]) && EnabledRun(Next(c, run[0]), run[1..]))
  }

  function After(c: Conn, run: seq<Step>): Conn
    requires EnabledRun(c, run)
    decreases |run|
  {
    if run == [] then c else After(Next(c, run[0]), run[1..])
  }

  // ----- Safety -----

  predicate AgentGone(stage: CloseStage) {
    stage.AgentRemoved? || stage.Finished?
  }

  /** What holds whoever calls Close. */
  predicate Orderly(c: Conn) {
    && (c.fromClosed <==> c.reader.Exited?)
    && |c.buffered| <= CAPACITY
    && (c.inPool <==> c.handler.Added? || c.handler.Waited?)
    && c.closes == (if c.handler.Gone? then 1 else 0)
    && (c.handler.Waited? || c.handler.Gone? ==> c.stage.Finished?)
    && (c.main.Stopped? ==> c.stage.Finished?)
    && (c.stage.NotStarted? || c.stage.Entered? <==> c.socketOpen)
    && (c.stage.Drained? || AgentGone(c.stage) ==> c.fromClosed && c.buffered == [])
  }

  /** A client that the agents no longer know is handed no more messages. */
  predicate Safe(c: Conn) {
    && Orderly(c) && !c.crashed
    && (AgentGone(c.stage) ==> !c.registered)
  }

  /** What holds in addition when only the main loop calls Close, as in the repository. */
  predicate MainLeft(c: Conn) {
    !c.stage.NotStarted? ==> c.main.Leaving? || c.main.Stopped?
  }

  /** The one step that spoils safety: subscribing a client whose agent is already removed. */
  predicate LateWatch(c: Conn, s: Step) {
    s.FinishHandling? && s.watches && AgentGone(c.stage)
  }

  predicate ByReaderOrMain(s: Step) {
    s.ReadFrame? || s.ReadFails? || s.Enqueue? || s.TakeMessage? || s.FinishHandling?
    || s.SeesFromClosed? || s.SeesToClosed? || s.WriteFails? || s.MainReturns?
  }

  lemma ReaderAndMainKeepOrderly(c: Conn, s: Step)
    requires Orderly(c) && Enabled(c, s) && ByReaderOrMain(s)
    ensures Orderly(Next(c, s))
  {}

  lemma OthersKeepOrderly(c: Conn, s: Step)
    requires Orderly(c) && Enabled(c, s) && !ByReaderOrMain(s)
    ensures Orderly(Next(c, s))
  {}

  lemma NextKeepsOrderly(c: Conn, s: Step)
    requires Orderly(c) && Enabled(c, s)
    ensures Orderly(Next(c, s))
  {
    hide Orderly, Enabled, Next;
    if ByReaderOrMain(s) {
      ReaderAndMainKeepOrderly(c, s);
    } else {
      OthersKeepOrderly(c, s);
    }
  }

  lemma NextKeepsSafeIff(c: Conn, s: Step)
    requires Safe(c) && Enabled(c, s)
    ensures Safe(Next(c, s)) <==> !LateWatch(c, s)
  {}

  lemma NextKeepsMainLeft(c: Conn, s: Step)
    requires Safe(c) && MainLeft(c) && Enabled(c, s) && !s.OtherCloses?
    ensures MainLeft(Next(c, s)) && !LateWatch(c, s)
  {}

  /**
   In every interleaving in which the main loop is the only caller of Close: nothing panics; toWebSocket
   is closed at most once, and only when Close has finished and the client is off the pub/sub agents and
   out of the pool; what is in the pool has an open channel.
   */
  lemma {:induction false} ShutdownSafe(c: Conn, run: seq<Step>)
    requires Safe(c) && MainLeft(c) && EnabledRun(c, run) && forall s <- run :: !s.OtherCloses?
    ensures var d := After(c, run);
            && Safe(d) && MainLeft(d)
            && !d.crashed && d.closes <= 1
            && (d.closes == 1 ==> d.stage.Finished? && !d.registered && !d.inPool)
            && (d.inPool || d.registered ==> d.closes == 0)
    decreases |run|
  {
    if run != [] {
      assert run[0] in run && forall s <- run[1..] :: s in run;
      NextKeepsSafeIff(c, run[0]);
      NextKeepsMainLeft(c, run[0]);
      ShutdownSafe(Next(c, run[0]), run[1..]);
    }
  }

  // ----- What reaches the main loop -----

  /** The frames that parse, in order. */
  function Parsed(fs: seq<Frame>): seq<Frame> {
    if fs == [] then [] else (if fs[0].parses then [fs[0]] else []) + Parsed(fs[1..])
  }

  function InHand(r: Reader): seq<Frame> {
    if r.Sending? then [r.frame] else []
  }

  /**
   What was received from fromWebSocket, what it holds, what the reader is sending and what parses of the
   unread frames are together, in this order, what parses of all that the browser sent.
   */
  predicate Conserved(c: Conn) {
    c.taken + c.buffered + InHand(c.reader) + Parsed(c.frames) == Parsed(c.arrived)
  }

  /** Until Close drains the channel, the main loop has received all of it. */
  predicate AllHandled(c: Conn) {
    c.stage.NotStarted? || c.stage.Entered? ==> c.handled == c.taken
  }

  lemma {:induction false} ParsedAppend(fs: seq<Frame>, f: Frame)
    ensures Parsed(fs + [f]) == Parsed(fs) + if f.parses then [f] else []
  {
    if fs == [] {
      assert fs + [f] == [f];
    } else {
      ParsedAppend(fs[1..], f);
      assert (fs + [f])[1..] == fs[1..] + [f];
    }
  }

  lemma ArrivalConserves(c: Conn, f: Frame)
    requires Conserved(c) && Enabled(c, FrameArrives(f))
    ensures Conserved(Next(c, FrameArrives(f)))
  {
    hide Parsed;
    ParsedAppend(c.frames, f);
    ParsedAppend(c.arrived, f);
    var front, new_ := c.taken + c.buffered + InHand(c.reader), if f.parses then [f] else [];
    assert front + (Parsed(c.frames) + new_) == (front + Parsed(c.frames)) + new_;
  }

  lemma ParsedFirst(fs: seq<Frame>)
    requires fs != []
    ensures Parsed(fs) == (if fs[0].parses then [fs[0]] else []) + Parsed(fs[1..])
  {}

  lemma ReadFrameConserves(c: Conn)
    requires Conserved(c) && Enabled(c, ReadFrame)
    ensures Conserved(Next(c, ReadFrame))
  {
    hide Parsed;
    ParsedFirst(c.frames);
    var read := if c.frames[0].parses then [c.frames[0]] else [];
    assert InHand(c.reader) == [] && InHand(Next(c, ReadFrame).reader) == read;
    assert c.taken + c.buffered + [] + (read + Parsed(c.frames[1..])) == c.taken + c.buffered + read + Parsed(c.frames[1..]);
  }

  lemma EnqueueConserves(c: Conn)
    requires Conserved(c) && Enabled(c, Enqueue)
    ensures Conserved(Next(c, Enqueue))
  {
    hide Parsed;
    assert c.taken + (c.buffered + [c.reader.frame]) + [] == c.taken + c.buffered + [c.reader.frame];
  }

  lemma TakingConserves(c: Conn, s: Step)
    requires Conserved(c) && Enabled(c, s) && (s.TakeMessage? || s.DrainOne?)
    ensures Conserved(Next(c, s))
  {
    hide Parsed;
    assert c.taken + [c.buffered[0]] + c.buffered[1..] == c.taken + c.buffered;
  }

  /** All other steps leave frames and messages where they are. */
  lemma OthersConserve(c: Conn, s: Step)
    requires Conserved(c) && Enabled(c, s)
    requires !s.FrameArrives? && !s.ReadFrame? && !s.Enqueue? && !s.TakeMessage? && !s.DrainOne?
    ensures Conserved(Next(c, s))
  {
    hide Parsed;
  }

  lemma {:induction false} NextConserves(c: Conn, s: Step)
    requires Conserved(c) && Enabled(c, s)
    ensures Conserved(Next(c, s))
  {
    hide Parsed, Conserved, Enabled, Next;
    match s
    case FrameArrives(f) => ArrivalConserves(c, f);
    case ReadFrame => ReadFrameConserves(c);
    case Enqueue => EnqueueConserves(c);
    case TakeMessage => TakingConserves(c, s);
    case DrainOne => TakingConserves(c, s);
    case _ => OthersConserve(c, s);
  }

  lemma NextKeepsHandled(c: Conn, s: Step)
    requires AllHandled(c) && Enabled(c, s)
    ensures AllHandled(Next(c, s)) && c.handled <= Next(c, s).handled
  {}

  /**
   In every interleaving: what is received from fromWebSocket is, in order and with nothing lost, made up or
   doubled, what parses of the frames sent, as far as they were read; and until Close drains the channel it
   is the main loop that receives it.
   */
  lemma {:induction false} FramesConserved(run: seq<Step>)
    requires EnabledRun(NEW, run)
    ensures var c := After(NEW, run);
            && c.taken + c.buffered + InHand(c.reader) + Parsed(c.frames) == Parsed(c.arrived)
            && c.taken <= Parsed(c.arrived)
            && (c.socketOpen ==> c.handled == c.taken)
  {
    hide Orderly;
    NewIsOrderly();
    ConservedFrom(NEW, run);
    var c := After(NEW, run);
    if c.socketOpen {
      OpenIsEarly(c);
    }
    assert c.taken + (c.buffered + InHand(c.reader) + Parsed(c.frames)) == Parsed(c.arrived);
  }

  lemma NewIsOrderly()
    ensures Orderly(NEW) && Conserved(NEW) && AllHandled(NEW)
  {}

  lemma OpenIsEarly(c: Conn)
    requires Orderly(c) && c.socketOpen
    ensures c.stage.NotStarted? || c.stage.Entered?
  {}

  lemma {:induction false} ConservedFrom(c: Conn, run: seq<Step>)
    requires Orderly(c) && Conserved(c) && AllHandled(c) && EnabledRun(c, run)
    ensures Orderly(After(c, run)) && Conserved(After(c, run)) && AllHandled(After(c, run))
    decreases |run|
  {
    hide Orderly, Conserved, AllHandled, Next, Enabled;
    if run != [] {
      NextKeepsOrderly(c, run[0]);
      NextConserves(c, run[0]);
      NextKeepsHandled(c, run[0]);
      ConservedFrom(Next(c, run[0]), run[1..]);
    }
  }

  /**
   The main loop sees the end of fromWebSocket only when, of what the reader read, every message was received;
   what was still unread is lost.
   */
  lemma EndComesLast(c: Conn)
    requires Orderly(c) && Conserved(c) && Enabled(c, SeesFromClosed)
    ensures c.taken + Parsed(c.frames) == Parsed(c.arrived)
  {
    hide Parsed;
    assert c.taken + [] + [] == c.taken;
  }

  /** With a message in hand, the reader waits exactly while 64 messages are buffered. */
  lemma ReaderWaitsIff(c: Conn)
    requires Orderly(c) && c.reader.Sending?
    ensures !Enabled(c, Enqueue) <==> |c.buffered| == 64
  {}

  // ----- Close called from elsewhere as well -----

  predicate NoLateWatch(c: Conn, run: seq<Step>)
    requires EnabledRun(c, run)
    decreases |run|
  {
    run == [] || (!LateWatch(c, run[0]) && NoLateWatch(Next(c, run[0]), run[1..]))
  }

  /** Whoever calls Close, safety holds as long as no message is still being handled past RemoveAgent. */
  lemma {:induction false} SharedCloseSafe(c: Conn, run: seq<Step>)
    requires Safe(c) && EnabledRun(c, run) && NoLateWatch(c, run)
    ensures Safe(After(c, run))
    decreases |run|
  {
    if run != [] {
      NextKeepsSafeIff(c, run[0]);
      SharedCloseSafe(Next(c, run[0]), run[1..]);
    }
  }

  lemma Cons(c: Conn, s: Step, run: seq<Step>)
    requires Enabled(c, s) && EnabledRun(Next(c, s), run)
    ensures EnabledRun(c, [s] + run) && After(c, [s] + run) == After(Next(c, s), run)
  {
    assert ([s] + run)[1..] == run;
  }

  /** From any state after a late subscription, a run leads to a send on the closed channel. */
  lemma LateWatchCrashes(c: Conn) returns (run: seq<Step>)
    requires Orderly(c) && AgentGone(c.stage) && c.registered
    ensures EnabledRun(c, run) && After(c, run).crashed
    decreases Rank(c)
  {
    var s :=
      if c.stage.AgentRemoved? then CloseDone
      else if c.handler.Connected? then HandlerAdds
      else if c.handler.Added? then HandlerWakes
      else if c.handler.Waited? then HandlerRemoves
      else Receive;
    if s.Receive? {
      Cons(c, Receive, []);
      run := [Receive] + [];
    } else {
      run := LateWatchCrashes(Next(c, s));
      Cons(c, s, run);
      run := [s] + run;
    }
  }

  ghost predicate Reachable(c: Conn) {
    exists run :: EnabledRun(NEW, run) && After(NEW, run) == c
  }

  lemma {:induction false} RunOn(c: Conn, run: seq<Step>, s: Step)
    requires EnabledRun(c, run) && Enabled(After(c, run), s)
    ensures EnabledRun(c, run + [s]) && After(c, run + [s]) == Next(After(c, run), s)
    decreases |run|
  {
    if run == [] {
      Cons(c, s, []);
      assert [s] + [] == run + [s];
    } else {
      RunOn(Next(c, run[0]), run[1..], s);
      Cons(c, run[0], run[1..] + [s]);
      assert [run[0]] + (run[1..] + [s]) == run + [s];
    }
  }

  lemma ReachNext(c: Conn, s: Step) returns (d: Conn)
    requires Reachable(c) && Enabled(c, s)
    ensures d == Next(c, s) && Reachable(d)
  {
    var run :| EnabledRun(NEW, run) && After(NEW, run) == c;
    RunOn(NEW, run, s);
    d := Next(c, s);
  }

  /** A subscription message arrives and the main loop takes it up. */
  lemma HandlingIsReachable(f: Frame) returns (c: Conn)
    requires f.parses
    ensures Reachable(c) && c == NEW.(main := Handling, arrived := [f], taken := [f], handled := [f])
  {
    assert EnabledRun(NEW, []) && After(NEW, []) == NEW;
    c := ReachNext(NEW, FrameArrives(f));
    c := ReachNext(c, ReadFrame);
    c := ReachNext(c, Enqueue);
    c := ReachNext(c, TakeMessage);
  }

  /**
   A second caller of Close can get past RemoveAgent while the main loop is inside updateSubscription;
   the subscription it then makes is late.
   */
  lemma ConcurrentCloseAllowsLateWatch() returns (c: Conn)
    ensures Reachable(c) && Safe(c)
    ensures Enabled(c, FinishHandling(true)) && LateWatch(c, FinishHandling(true))
  {
    c := HandlingIsReachable(Frame("{}", true));
    c := ReachNext(c, OtherCloses);
    c := ReachNext(c, CloseSocket);
    c := ReachNext(c, ReadFails);
    c := ReachNext(c, DrainEnds);
    c := ReachNext(c, RemoveAgent);
  }

  // ----- Progress -----

  /** Steps the server takes by itself, once the socket is closed: all but deliveries. */
  predicate Productive(s: Step) {
    !s.FrameArrives? && !s.Receive? && !s.Broadcast?
  }

  /** A bound on the productive steps left. */
  function Rank(c: Conn): nat {
    5 * |c.frames|
    + (match c.reader case Sending(_) => 4 case Reading => 1 case Exited => 0)
    + 2 * |c.buffered|
    + (match c.main case Handling => 3 case Looping => 2 case Leaving => 1 case Stopped => 0)
    + (match c.stage
       case NotStarted => 5 case Entered => 4 case Draining => 3
       case Drained => 2 case AgentRemoved => 1 case Finished => 0)
    + (match c.handler case Connected => 3 case Added => 2 case Waited => 1 case Gone => 0)
  }

  /** Everything is torn down: fromWebSocket is closed and empty, toWebSocket is closed, once. */
  predicate TornDown(c: Conn) {
    && c.reader.Exited? && c.fromClosed && c.buffered == []
    && c.main.Stopped? && c.stage.Finished?
    && c.handler.Gone? && !c.inPool && c.closes == 1
  }

  lemma ReaderAndMainDecreaseRank(c: Conn, s: Step)
    requires Enabled(c, s) && ByReaderOrMain(s)
    ensures Rank(Next(c, s)) < Rank(c) && Next(c, s).socketOpen == c.socketOpen
  {}

  predicate ByCloseOrHandler(s: Step) {
    s.MainCloses? || s.OtherCloses? || s.CloseSocket? || s.DrainOne? || s.DrainEnds? || s.RemoveAgent? || s.CloseDone?
    || s.HandlerAdds? || s.HandlerWakes? || s.HandlerRemoves?
  }

  lemma CloseAndHandlerDecreaseRank(c: Conn, s: Step)
    requires Enabled(c, s) && ByCloseOrHandler(s)
    ensures Rank(Next(c, s)) < Rank(c) && (!c.socketOpen ==> !Next(c, s).socketOpen)
  {}

  lemma DeliveriesKeepRank(c: Conn, s: Step)
    requires Enabled(c, s) && (s.Receive? || s.Broadcast?)
    ensures Rank(Next(c, s)) == Rank(c) && Next(c, s).socketOpen == c.socketOpen
  {}

  lemma StepsDecreaseRank(c: Conn, s: Step)
    requires Enabled(c, s) && !s.FrameArrives?
    ensures Rank(Next(c, s)) <= Rank(c) - if Productive(s) then 1 else 0
    ensures !c.socketOpen ==> !Next(c, s).socketOpen
  {
    hide Rank, Next, Enabled;
    if ByReaderOrMain(s) {
      ReaderAndMainDecreaseRank(c, s);
    } else if ByCloseOrHandler(s) {
      CloseAndHandlerDecreaseRank(c, s);
    } else {
      DeliveriesKeepRank(c, s);
    }
  }

  /** The drain loop, the reader and the rest never wait on each other for good, full buffer or not. */
  lemma NeverStuck(c: Conn)
    requires Orderly(c) && !c.socketOpen && !TornDown(c)
    ensures exists s :: Productive(s) && Enabled(c, s)
  {
    var s :=
      match c.stage
      case Draining =>
        if c.buffered != [] then DrainOne
        else if c.fromClosed then DrainEnds
        else if c.reader.Sending? then Enqueue
        else if c.frames != [] then ReadFrame
        else ReadFails
      case Drained => RemoveAgent
      case AgentRemoved => CloseDone
      case _ =>
        match c.handler
        case Connected => HandlerAdds
        case Added => HandlerWakes
        case Waited => HandlerRemoves
        case Gone =>
          match c.main
          case Handling => FinishHandling(false)
          case Looping => SeesFromClosed
          case _ => MainReturns;
    assert Productive(s) && Enabled(c, s);
  }

  function ProductiveSteps(run: seq<Step>): nat {
    if run == [] then 0
    else (if Productive(run[0]) then 1 else 0) + ProductiveSteps(run[1..])
  }

  /**
   Once Close has closed the socket, a run takes no more productive steps than the rank of its start, and
   a run that can take no further one has torn everything down.
   */
  lemma {:induction false} ShutdownCompletes(c: Conn, run: seq<Step>)
    requires Orderly(c) && !c.socketOpen && EnabledRun(c, run)
    ensures ProductiveSteps(run) <= Rank(c) - Rank(After(c, run))
    ensures (forall s :: Productive(s) ==> !Enabled(After(c, run), s)) ==> TornDown(After(c, run))
    decreases |run|
  {
    if run == [] {
      if !TornDown(c) {
        NeverStuck(c);
      }
    } else {
      StepsDecreaseRank(c, run[0]);
      NextKeepsOrderly(c, run[0]);
      ShutdownCompletes(Next(c, run[0]), run[1..]);
    }
  }

  // ----- All clients of a server, and the pool -----

  type Conns = map<nat, Conn>

  datatype Event = Connects(id: nat) | Acts(id: nat, s: Step) | PoolBroadcasts

  /** The pool's `all` map. */
  function Pool(conns: Conns): set<nat> {
    set id | id in conns && conns[id].inPool
  }

  predicate EventEnabled(conns: Conns, e: Event) {
    match e
    case Connects(id) => id !in conns
    case Acts(id, s) => id in conns && Enabled(conns[id], s) && !s.OtherCloses?
    case PoolBroadcasts => true
  }

  function EventNext(conns: Conns, e: Event): Conns
    requires EventEnabled(conns, e)
  {
    match e
    case Connects(id) => conns[id := NEW]
    case Acts(id, s) => conns[id := Next(conns[id], s)]
    case PoolBroadcasts =>
      map id | id in conns :: if conns[id].inPool then Next(conns[id], Broadcast) else conns[id]
  }

  predicate EventRun(conns: Conns, run: seq<Event>)
    decreases |run|
  {
    run == [] || (EventEnabled(conns, run[0]) && EventRun(EventNext(conns, run[0]), run[1..]))
  }

  function EventsAfter(conns: Conns, run: seq<Event>): Conns
    requires EventRun(conns, run)
    decreases |run|
  {
    if run == [] then conns else EventsAfter(EventNext(conns, run[0]), run[1..])
  }

  /** A broadcast sends to exactly the clients in the pool: it panics where one of their channels is closed. */
  lemma BroadcastReachesPool(conns: Conns, id: nat)
    requires id in conns && !conns[id].crashed
    ensures var later := EventNext(conns, PoolBroadcasts);
            id in later && (later[id].crashed <==> id in Pool(conns) && conns[id].closes > 0)
  {}

  predicate AllSafe(conns: Conns) {
    forall id <- conns :: Safe(conns[id]) && MainLeft(conns[id])
  }

  lemma EventKeepsSafe(conns: Conns, e: Event)
    requires AllSafe(conns) && EventEnabled(conns, e)
    ensures AllSafe(EventNext(conns, e))
  {
    match e
    case Connects(_) =>
    case Acts(id, s) =>
      NextKeepsSafeIff(conns[id], s);
      NextKeepsMainLeft(conns[id], s);
    case PoolBroadcasts =>
      forall id <- conns | conns[id].inPool
        ensures Safe(Next(conns[id], Broadcast)) && MainLeft(Next(conns[id], Broadcast))
      {
        NextKeepsSafeIff(conns[id], Broadcast);
      }
  }

  /** With any number of clients coming and going: the pool never meets a closed channel, nor does a publish. */
  lemma {:induction false} ServerSafe(conns: Conns, run: seq<Event>)
    requires AllSafe(conns) && EventRun(conns, run)
    ensures var later := EventsAfter(conns, run);
            && AllSafe(later)
            && (forall id <- Pool(later) :: later[id].closes == 0)
            && (forall id <- later :: !later[id].crashed && later[id].closes <= 1)
    decreases |run|
  {
    if run != [] {
      EventKeepsSafe(conns, run[0]);
      ServerSafe(EventNext(conns, run[0]), run[1..]);
    }
  }
}

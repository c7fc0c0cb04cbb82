// Event delivery to one connection: events are persisted, then broadcast; a client registers,
// replays what it missed from its cursor, then reads live events; a slow client overflows
// (server/handler/sse.go, server/handler/runtime_hooks.go). The cursor is the `Last-Event-ID` of
// section 9.2 of the WHATWG HTML Living Standard.
module EventStream {

  /** The cursor a client comes with, as the position of that event in the session's log. */
  datatype Cursor = NoCursor | UnknownCursor | After(event: nat)

  /**
   * How far the broadcast of one persisted event is, towards this client: saved, aimed at the client
   * (it was registered when the clients were listed), dropped but not yet flagged, over.
   */
  datatype Emission = Saved | Aimed | Dropping | Over(attempted: bool)

  /** The first event lost to this client: dropped, or skipped as its session was closed; with what had been taken, and queued, by then. */
  datatype Loss = NoLoss | Dropped(taken: nat) | Skipped(taken: nat, queued: nat)

  /** Where the handler stands: not connected, registered, writing the replay, at the loop head, in the select, gone. */
  datatype Phase = Off | Registered | Replaying(next: nat) | Head | Selecting | Closed

  /**
   * Event i is the i-th persisted event of the session's root runs. `attempts` are the events offered
   * to the client's channel in order, `taken` those the handler took from it, `delivered` those written
   * to the connection; [lo, hi) is the replayed range, `since` the log's length at registration. The
   * client is `closing` once it is unregistered, which the handler may notice later.
   */
  datatype State = State(
    emissions: seq<Emission>, phase: Phase, closing: bool, since: nat, lo: nat, hi: nat,
    channel: seq<nat>, dropped: nat, overflow: bool, loss: Loss,
    attempts: seq<nat>, taken: seq<nat>, delivered: seq<nat>)

  const START := State([], Off, false, 0, 0, 0, [], 0, false, NoLoss, [], [], [])

  datatype Action =
    | Persist
    | Aim(event: nat)
    | Send(event: nat)
    | Drop(event: nat)
    | Flag(event: nat)
    | Skip(event: nat)
    | Register
    | ReadLog
    | WriteReplay
    | EndReplay
    | Check
    | Receive
    | Ping
    | Unregister
    | Leave

  predicate At(s: State, event: nat, e: Emission) {
    event < |s.emissions| && s.emissions[event] == e
  }

  predicate Enabled(cap: nat, cursor: Cursor, s: State, a: Action) {
    match a
    case Persist => true
    case Aim(i) => At(s, i, Saved)
    case Send(i) => At(s, i, Aimed) && |s.channel| < cap
    case Drop(i) => At(s, i, Aimed) && |s.channel| == cap && !s.closing
    case Flag(i) => At(s, i, Dropping)
    case Skip(i) => At(s, i, Aimed) && s.closing
    case Register => s.phase.Off?
    case ReadLog => s.phase.Registered?
    case WriteReplay => s.phase.Replaying? && s.phase.next < s.hi
    case EndReplay => s.phase.Replaying? && s.phase.next >= s.hi
    case Check => s.phase.Head?
    case Receive => s.phase.Selecting? && s.channel != []
    case Ping => s.phase.Selecting?
    case Unregister => !s.phase.Off? && !s.closing
    case Leave => !s.phase.Off?
  }

  function Mark(s: State, event: nat, e: Emission): State
    requires event < |s.emissions|
  {
    s.(emissions := s.emissions[event := e])
  }

  predicate InReplay(s: State, event: nat) {
    s.lo <= event < s.hi
  }

  function FirstLoss(s: State, now: Loss): Loss {
    if s.loss.NoLoss? then now else s.loss
  }

  /** With `torn`, dropping an event and raising the overflow flag are two steps, as in the source. */
  function Step(torn: bool, cap: nat, cursor: Cursor, s: State, a: Action): State
    requires Enabled(cap, cursor, s, a)
  {
    match a
    case Persist => s.(emissions := s.emissions + [Saved])
    case Aim(i) => Mark(s, i, if s.phase.Off? || s.closing then Over(false) else Aimed)
    case Send(i) => Mark(s, i, Over(true)).(channel := s.channel + [i], attempts := s.attempts + [i])
    case Drop(i) =>
      var d := Mark(s, i, if torn then Dropping else Over(true))
               .(dropped := s.dropped + 1, attempts := s.attempts + [i], loss := FirstLoss(s, Dropped(|s.taken|)));
      if torn then d else d.(overflow := true)
    case Flag(i) => Mark(s, i, Over(true)).(overflow := true)
    case Skip(i) => Mark(s, i, Over(true)).(attempts := s.attempts + [i], loss := FirstLoss(s, Skipped(|s.taken|, |s.channel|)))
    case Register => s.(phase := Registered, since := |s.emissions|)
    case ReadLog =>
      var n := |s.emissions|;
      if cursor.After? && cursor.event < n then s.(phase := Replaying(cursor.event + 1), lo := cursor.event + 1, hi := n)
      else s.(phase := Replaying(n), lo := n, hi := n)
    case WriteReplay => s.(phase := Replaying(s.phase.next + 1), delivered := s.delivered + [s.phase.next])
    case EndReplay => s.(phase := Head)
    case Check => s.(phase := if s.overflow then Closed else Selecting)
    case Receive =>
      var m := s.channel[0];
      var t := s.(phase := Head, channel := s.channel[1..], taken := s.taken + [m]);
      if InReplay(s, m) then t else t.(delivered := s.delivered + [m])
    case Ping => s.(phase := Head)
    case Unregister => s.(closing := true)
    case Leave => s.(phase := Closed)
  }

  // ----- what every step keeps -----

  predicate Attempted(emissions: seq<Emission>, i: nat) {
    i < |emissions| && (emissions[i].Dropping? || emissions[i] == Over(true))
  }

  function One(b: bool): nat {
    if b then 1 else 0
  }

  function Count(q: seq<nat>, i: nat): nat {
    multiset(q)[i]
  }

  /** Each event is offered to the channel at most once. */
  ghost predicate OfferedOnce(emissions: seq<Emission>, attempts: seq<nat>) {
    && (forall i: nat :: Count(attempts, i) == One(Attempted(emissions, i)))
  }

  ghost predicate TakenOnce(taken: seq<nat>, channel: seq<nat>, attempts: seq<nat>) {
    forall i: nat :: Count(taken, i) + Count(channel, i) <= Count(attempts, i)
  }

  ghost predicate Offered(s: State) {
    && OfferedOnce(s.emissions, s.attempts)
    && TakenOnce(s.taken, s.channel, s.attempts)
    && (s.loss.NoLoss? ==> s.taken + s.channel == s.attempts)
    && (s.dropped == 0 && !s.closing ==> s.loss.NoLoss?)
  }

  function Written(s: State): nat {
    match s.phase
    case Off => s.lo
    case Registered => s.lo
    case Replaying(next) => next
    case _ => s.hi
  }

  /** What was written is the replay up to w, then what was taken and is not in the replay. */
  ghost predicate Tally(delivered: seq<nat>, taken: seq<nat>, lo: nat, w: nat, hi: nat) {
    forall i: nat :: Count(delivered, i) == One(lo <= i < w) + if lo <= i < hi then 0 else Count(taken, i)
  }

  ghost predicate Waiting(s: State) {
    s.phase.Off? || s.phase.Registered? || s.phase.Replaying?
  }

  /** Once closed, the replay may have stopped short. */
  ghost predicate Delivers(s: State) {
    && s.lo <= Written(s) <= s.hi
    && (Waiting(s) ==> s.taken == [])
    && (s.phase.Off? || s.phase.Registered? ==> s.lo == s.hi == 0 && s.delivered == [])
    && if s.phase.Closed? then exists w: nat :: w <= s.hi && Tally(s.delivered, s.taken, s.lo, w, s.hi)
       else Tally(s.delivered, s.taken, s.lo, Written(s), s.hi)
  }

  predicate Emits(s: State) {
    && s.since <= |s.emissions| && s.hi <= |s.emissions|
    && (s.phase.Off? ==>
          && !s.closing && s.attempts == [] && s.channel == [] && s.taken == []
          && forall i :: 0 <= i < |s.emissions| ==> s.emissions[i].Saved? || s.emissions[i] == Over(false))
    && (!s.phase.Off? && !s.closing ==> forall i :: s.since <= i < |s.emissions| ==> s.emissions[i] != Over(false))
    && (!s.phase.Off? && !s.phase.Registered? && !s.phase.Closed? ==> s.since <= s.hi)
  }

  ghost predicate Inv(s: State) {
    Offered(s) && Delivers(s) && Emits(s)
  }

  lemma CountSnoc(q: seq<nat>, x: nat)
    ensures forall i: nat :: Count(q + [x], i) == Count(q, i) + One(i == x)
  {
  }

  lemma CountTail(q: seq<nat>)
    requires q != []
    ensures forall i: nat :: Count(q, i) == Count(q[1..], i) + One(i == q[0])
  {
    assert q == [q[0]] + q[1..];
  }

  lemma OfferOnce(emissions: seq<Emission>, attempts: seq<nat>, i: nat, e: Emission)
    requires OfferedOnce(emissions, attempts) && i < |emissions| && !Attempted(emissions, i)
    ensures e.Dropping? || e == Over(true) ==> OfferedOnce(emissions[i := e], attempts + [i])
    ensures !e.Dropping? && e != Over(true) ==> OfferedOnce(emissions[i := e], attempts)
  {
    CountSnoc(attempts, i);
  }

  lemma FlagOnce(emissions: seq<Emission>, attempts: seq<nat>, i: nat)
    requires OfferedOnce(emissions, attempts) && i < |emissions| && emissions[i].Dropping?
    ensures OfferedOnce(emissions[i := Over(true)], attempts)
  {
    assert forall k: nat :: Attempted(emissions[i := Over(true)], k) == Attempted(emissions, k);
  }

  lemma PersistOnce(emissions: seq<Emission>, attempts: seq<nat>)
    requires OfferedOnce(emissions, attempts)
    ensures OfferedOnce(emissions + [Saved], attempts)
  {
    assert forall k: nat :: Attempted(emissions + [Saved], k) == Attempted(emissions, k);
  }

  lemma SendTaken(taken: seq<nat>, channel: seq<nat>, attempts: seq<nat>, i: nat)
    requires TakenOnce(taken, channel, attempts)
    ensures TakenOnce(taken, channel + [i], attempts + [i]) && TakenOnce(taken, channel, attempts + [i])
    ensures taken + (channel + [i]) == taken + channel + [i]
  {
    CountSnoc(channel, i);
    CountSnoc(attempts, i);
  }

  lemma ReceiveTaken(taken: seq<nat>, channel: seq<nat>, attempts: seq<nat>)
    requires TakenOnce(taken, channel, attempts) && channel != []
    ensures TakenOnce(taken + [channel[0]], channel[1..], attempts)
    ensures taken + [channel[0]] + channel[1..] == taken + channel
  {
    CountTail(channel);
    CountSnoc(taken, channel[0]);
  }

  lemma StepOnce(torn: bool, cap: nat, cursor: Cursor, s: State, a: Action)
    requires OfferedOnce(s.emissions, s.attempts) && Enabled(cap, cursor, s, a)
    ensures var s' := Step(torn, cap, cursor, s, a); OfferedOnce(s'.emissions, s'.attempts)
  {
    match a
    case Send(i) => OfferOnce(s.emissions, s.attempts, i, Over(true));
    case Drop(i) => OfferOnce(s.emissions, s.attempts, i, if torn then Dropping else Over(true));
    case Persist => PersistOnce(s.emissions, s.attempts);
    case Aim(i) => OfferOnce(s.emissions, s.attempts, i, if s.phase.Off? || s.closing then Over(false) else Aimed);
    case Skip(i) => OfferOnce(s.emissions, s.attempts, i, Over(true));
    case Flag(i) => FlagOnce(s.emissions, s.attempts, i);
    case _ =>
  }

  lemma StepOffered(torn: bool, cap: nat, cursor: Cursor, s: State, a: Action)
    requires Offered(s) && Enabled(cap, cursor, s, a)
    ensures Offered(Step(torn, cap, cursor, s, a))
  {
    StepOnce(torn, cap, cursor, s, a);
    match a
    case Send(i) => SendTaken(s.taken, s.channel, s.attempts, i);
    case Drop(i) => SendTaken(s.taken, s.channel, s.attempts, i);
    case Skip(i) => SendTaken(s.taken, s.channel, s.attempts, i);
    case Receive => ReceiveTaken(s.taken, s.channel, s.attempts);
    case _ =>
  }

  lemma ReceiveTally(delivered: seq<nat>, taken: seq<nat>, lo: nat, w: nat, hi: nat, m: nat)
    requires Tally(delivered, taken, lo, w, hi)
    ensures Tally(if lo <= m < hi then delivered else delivered + [m], taken + [m], lo, w, hi)
  {
    CountSnoc(taken, m);
    CountSnoc(delivered, m);
  }

  lemma ReplayTally(delivered: seq<nat>, taken: seq<nat>, lo: nat, w: nat, hi: nat)
    requires Tally(delivered, taken, lo, w, hi) && lo <= w
    ensures Tally(delivered + [w], taken, lo, w + 1, hi)
  {
    CountSnoc(delivered, w);
  }

  lemma CloseDelivers(torn: bool, cap: nat, cursor: Cursor, s: State, a: Action)
    requires Delivers(s) && Enabled(cap, cursor, s, a) && (a.Leave? || a.Check?)
    ensures Delivers(Step(torn, cap, cursor, s, a))
  {
    if !s.phase.Closed? {
      assert Tally(s.delivered, s.taken, s.lo, Written(s), s.hi);
    }
  }

  lemma ReceiveDelivers(torn: bool, cap: nat, cursor: Cursor, s: State)
    requires Delivers(s) && Enabled(cap, cursor, s, Receive)
    ensures Delivers(Step(torn, cap, cursor, s, Receive))
  {
    ReceiveTally(s.delivered, s.taken, s.lo, s.hi, s.hi, s.channel[0]);
  }

  lemma ReplayDelivers(torn: bool, cap: nat, cursor: Cursor, s: State)
    requires Delivers(s) && Enabled(cap, cursor, s, WriteReplay)
    ensures Delivers(Step(torn, cap, cursor, s, WriteReplay))
  {
    ReplayTally(s.delivered, s.taken, s.lo, s.phase.next, s.hi);
  }

  lemma HandlerDelivers(torn: bool, cap: nat, cursor: Cursor, s: State, a: Action)
    requires Delivers(s) && Enabled(cap, cursor, s, a) && (a.Register? || a.ReadLog? || a.EndReplay?)
    ensures Delivers(Step(torn, cap, cursor, s, a))
  {
  }

  lemma StepDelivers(torn: bool, cap: nat, cursor: Cursor, s: State, a: Action)
    requires Delivers(s) && Enabled(cap, cursor, s, a)
    ensures Delivers(Step(torn, cap, cursor, s, a))
  {
    match a
    case Receive => ReceiveDelivers(torn, cap, cursor, s);
    case WriteReplay => ReplayDelivers(torn, cap, cursor, s);
    case Leave => CloseDelivers(torn, cap, cursor, s, a);
    case Check => CloseDelivers(torn, cap, cursor, s, a);
    case Register => HandlerDelivers(torn, cap, cursor, s, a);
    case ReadLog => HandlerDelivers(torn, cap, cursor, s, a);
    case EndReplay => HandlerDelivers(torn, cap, cursor, s, a);
    case _ =>
  }

  lemma StepEmits(torn: bool, cap: nat, cursor: Cursor, s: State, a: Action)
    requires Emits(s) && Enabled(cap, cursor, s, a)
    ensures Emits(Step(torn, cap, cursor, s, a))
  {
  }

  lemma StepKeeps(torn: bool, cap: nat, cursor: Cursor, s: State, a: Action)
    requires Inv(s) && Enabled(cap, cursor, s, a)
    ensures Inv(Step(torn, cap, cursor, s, a))
  {
    StepOffered(torn, cap, cursor, s, a);
    StepDelivers(torn, cap, cursor, s, a);
    StepEmits(torn, cap, cursor, s, a);
  }

  ghost predicate Legal(torn: bool, cap: nat, cursor: Cursor, s: State, actions: seq<Action>)
    decreases |actions|
  {
    actions == [] ||
    (Enabled(cap, cursor, s, actions[0]) && Legal(torn, cap, cursor, Step(torn, cap, cursor, s, actions[0]), actions[1..]))
  }

  ghost function Exec(torn: bool, cap: nat, cursor: Cursor, s: State, actions: seq<Action>): State
    requires Legal(torn, cap, cursor, s, actions)
    decreases |actions|
  {
    if actions == [] then s else Exec(torn, cap, cursor, Step(torn, cap, cursor, s, actions[0]), actions[1..])
  }

  lemma {:induction false} RunKeeps(torn: bool, cap: nat, cursor: Cursor, s: State, actions: seq<Action>)
    requires Inv(s) && Legal(torn, cap, cursor, s, actions)
    ensures Inv(Exec(torn, cap, cursor, s, actions))
    decreases |actions|
  {
    if actions != [] {
      StepKeeps(torn, cap, cursor, s, actions[0]);
      RunKeeps(torn, cap, cursor, Step(torn, cap, cursor, s, actions[0]), actions[1..]);
    }
  }

  /** Whatever overflows or closes, no event is delivered twice on a connection. */
  lemma DeliveredAtMostOnce(torn: bool, cap: nat, cursor: Cursor, actions: seq<Action>, i: nat)
    requires Legal(torn, cap, cursor, START, actions)
    ensures Count(Exec(torn, cap, cursor, START, actions).delivered, i) <= 1
  {
    RunKeeps(torn, cap, cursor, START, actions);
    var s := Exec(torn, cap, cursor, START, actions);
    assert Count(s.taken, i) <= Count(s.attempts, i) <= 1;
    if s.phase.Closed? {
      var w: nat :| w <= s.hi && Tally(s.delivered, s.taken, s.lo, w, s.hi);
      assert Count(s.delivered, i) <= 1;
    } else {
      assert Count(s.delivered, i) <= 1;
    }
  }

  /** Nothing is under way: every broadcast is over, the channel is empty, the handler is in its loop. */
  predicate Quiet(s: State) {
    && (s.phase.Head? || s.phase.Selecting?) && !s.closing && s.channel == []
    && forall i :: 0 <= i < |s.emissions| ==> s.emissions[i].Over?
  }

  /**
   * Without overflow, every event after a known cursor is delivered exactly once, replayed or live,
   * wherever the registration, the read of the log and the broadcasts fell; without a known cursor,
   * every event persisted after the registration is.
   */
  lemma DeliveredExactlyOnce(torn: bool, cap: nat, cursor: Cursor, actions: seq<Action>, i: nat)
    requires Legal(torn, cap, cursor, START, actions)
    requires var s := Exec(torn, cap, cursor, START, actions);
             Quiet(s) && s.dropped == 0 && i < |s.emissions| && ((cursor.After? && cursor.event < i) || s.since <= i)
    ensures Count(Exec(torn, cap, cursor, START, actions).delivered, i) == 1
  {
    RunKeeps(torn, cap, cursor, START, actions);
    var s := Exec(torn, cap, cursor, START, actions);
    LoFollows(torn, cap, cursor, START, actions);
    assert s.taken + [] == s.taken;
    assert Attempted(s.emissions, i) ==> Count(s.attempts, i) == 1;
    assert Count(s.delivered, i) == 1;
  }

  /** The replayed range starts right after a known cursor, or at the log's end. */
  predicate LoIs(cursor: Cursor, s: State) {
    s.phase.Off? || s.phase.Registered? || s.phase.Closed? || (cursor.After? ==> s.lo <= cursor.event + 1)
  }

  lemma {:induction false} LoFollows(torn: bool, cap: nat, cursor: Cursor, s: State, actions: seq<Action>)
    requires LoIs(cursor, s) && Legal(torn, cap, cursor, s, actions)
    ensures LoIs(cursor, Exec(torn, cap, cursor, s, actions))
    decreases |actions|
  {
    if actions != [] {
      LoFollows(torn, cap, cursor, Step(torn, cap, cursor, s, actions[0]), actions[1..]);
    }
  }

  // ----- the replay is the rest of the log, and no more -----

  /** Nothing is replayed, or what comes right after the cursor. */
  predicate ReplayIs(cursor: Cursor, s: State) {
    s.lo == s.hi || (cursor.After? && s.lo == cursor.event + 1 <= s.hi)
  }

  lemma {:induction false} ReplayFollows(torn: bool, cap: nat, cursor: Cursor, s: State, actions: seq<Action>)
    requires ReplayIs(cursor, s) && (s.phase.Off? || s.phase.Registered? ==> s.lo == s.hi) && Legal(torn, cap, cursor, s, actions)
    ensures ReplayIs(cursor, Exec(torn, cap, cursor, s, actions))
    decreases |actions|
  {
    if actions != [] {
      ReplayFollows(torn, cap, cursor, Step(torn, cap, cursor, s, actions[0]), actions[1..]);
    }
  }

  /**
   * What the client has already is not written again: an event at or before a known cursor, and
   * without a cursor any event, is written only if it was broadcast to this client and taken.
   */
  lemma OnlyAfterCursor(torn: bool, cap: nat, cursor: Cursor, actions: seq<Action>, i: nat)
    requires Legal(torn, cap, cursor, START, actions) && !(cursor.After? && cursor.event < i)
    ensures var s := Exec(torn, cap, cursor, START, actions); Count(s.delivered, i) <= Count(s.taken, i)
  {
    RunKeeps(torn, cap, cursor, START, actions);
    ReplayFollows(torn, cap, cursor, START, actions);
    var s := Exec(torn, cap, cursor, START, actions);
    if s.phase.Closed? {
      var w: nat :| w <= s.hi && Tally(s.delivered, s.taken, s.lo, w, s.hi);
      assert Count(s.delivered, i) <= Count(s.taken, i);
    } else {
      assert Count(s.delivered, i) <= Count(s.taken, i);
    }
  }

  /** The events from lo up to w. */
  function Range(lo: nat, w: nat): seq<nat> {
    seq(if lo <= w then w - lo else 0, k requires 0 <= k => lo + k)
  }

  /** What was taken and is not in the replay. */
  function Live(taken: seq<nat>, lo: nat, hi: nat): seq<nat> {
    if taken == [] then []
    else
      var m := taken[|taken| - 1];
      Live(taken[..|taken| - 1], lo, hi) + if lo <= m < hi then [] else [m]
  }

  ghost predicate WrittenAs(s: State, w: nat) {
    s.lo <= w <= s.hi && (w < s.hi ==> s.taken == []) && s.delivered == Range(s.lo, w) + Live(s.taken, s.lo, s.hi)
  }

  /** Up to some point the replay was written, and then the live events, each in its order. */
  ghost predicate InOrder(s: State) {
    if s.phase.Closed? then exists w: nat :: WrittenAs(s, w) else WrittenAs(s, Written(s)) && (Waiting(s) ==> s.taken == [])
  }

  lemma ReplayInOrder(torn: bool, cap: nat, cursor: Cursor, s: State)
    requires InOrder(s) && Enabled(cap, cursor, s, WriteReplay)
    ensures InOrder(Step(torn, cap, cursor, s, WriteReplay))
  {
    assert Range(s.lo, s.phase.next + 1) == Range(s.lo, s.phase.next) + [s.phase.next];
    assert s.delivered == Range(s.lo, s.phase.next) + [];
    assert s.delivered + [s.phase.next] + [] == s.delivered + [s.phase.next];
  }

  lemma ReceiveInOrder(torn: bool, cap: nat, cursor: Cursor, s: State)
    requires InOrder(s) && Enabled(cap, cursor, s, Receive)
    ensures InOrder(Step(torn, cap, cursor, s, Receive))
  {
    var m := s.channel[0];
    assert (s.taken + [m])[..|s.taken|] == s.taken;
    var live := Live(s.taken, s.lo, s.hi);
    assert Range(s.lo, s.hi) + (live + [m]) == Range(s.lo, s.hi) + live + [m];
    assert live + [] == live;
  }

  lemma ReadInOrder(torn: bool, cap: nat, cursor: Cursor, s: State)
    requires InOrder(s) && s.phase.Registered? && s.lo == s.hi
    ensures InOrder(Step(torn, cap, cursor, s, ReadLog))
  {
    assert s.delivered == [];
  }

  lemma CloseInOrder(torn: bool, cap: nat, cursor: Cursor, s: State, a: Action)
    requires InOrder(s) && Enabled(cap, cursor, s, a) && (a.Leave? || a.Check?)
    ensures InOrder(Step(torn, cap, cursor, s, a))
  {
    var s' := Step(torn, cap, cursor, s, a);
    if s'.phase.Closed? && !s.phase.Closed? {
      assert WrittenAs(s', Written(s));
    } else if s.phase.Closed? {
      var w: nat :| WrittenAs(s, w);
      assert WrittenAs(s', w);
    }
  }

  lemma StepInOrder(torn: bool, cap: nat, cursor: Cursor, s: State, a: Action)
    requires InOrder(s) && (s.phase.Off? || s.phase.Registered? ==> s.lo == s.hi) && Enabled(cap, cursor, s, a)
    ensures var s' := Step(torn, cap, cursor, s, a); InOrder(s') && (s'.phase.Off? || s'.phase.Registered? ==> s'.lo == s'.hi)
  {
    match a
    case WriteReplay => ReplayInOrder(torn, cap, cursor, s);
    case Receive => ReceiveInOrder(torn, cap, cursor, s);
    case ReadLog => ReadInOrder(torn, cap, cursor, s);
    case Leave => CloseInOrder(torn, cap, cursor, s, a);
    case Check => CloseInOrder(torn, cap, cursor, s, a);
    case Register =>
    case EndReplay =>
    case Ping =>
    case _ => OthersInOrder(torn, cap, cursor, s, a);
  }

  lemma OthersInOrder(torn: bool, cap: nat, cursor: Cursor, s: State, a: Action)
    requires InOrder(s) && Enabled(cap, cursor, s, a)
    requires !a.WriteReplay? && !a.Receive? && !a.ReadLog? && !a.Leave? && !a.Check? && !a.Register? && !a.EndReplay? && !a.Ping?
    ensures InOrder(Step(torn, cap, cursor, s, a))
  {
    var s' := Step(torn, cap, cursor, s, a);
    if s.phase.Closed? {
      var w: nat :| WrittenAs(s, w);
      assert WrittenAs(s', w);
    }
  }

  lemma {:induction false} RunInOrder(torn: bool, cap: nat, cursor: Cursor, s: State, actions: seq<Action>)
    requires InOrder(s) && (s.phase.Off? || s.phase.Registered? ==> s.lo == s.hi) && Legal(torn, cap, cursor, s, actions)
    ensures InOrder(Exec(torn, cap, cursor, s, actions))
    decreases |actions|
  {
    if actions != [] {
      StepInOrder(torn, cap, cursor, s, actions[0]);
      RunInOrder(torn, cap, cursor, Step(torn, cap, cursor, s, actions[0]), actions[1..]);
    }
  }

  /** In every run what is written is a part of the replay from its start, then what was taken live and is not in it, in order. */
  lemma DeliveredInOrder(torn: bool, cap: nat, cursor: Cursor, actions: seq<Action>) returns (w: nat)
    requires Legal(torn, cap, cursor, START, actions)
    ensures var s := Exec(torn, cap, cursor, START, actions);
            && s.lo <= w <= s.hi && (w < s.hi ==> s.taken == [])
            && s.delivered == Range(s.lo, w) + Live(s.taken, s.lo, s.hi)
            && (s.lo == s.hi || (cursor.After? && s.lo == cursor.event + 1))
  {
    RunInOrder(torn, cap, cursor, START, actions);
    ReplayFollows(torn, cap, cursor, START, actions);
    var s := Exec(torn, cap, cursor, START, actions);
    if s.phase.Closed? {
      w :| WrittenAs(s, w);
    } else {
      w := Written(s);
    }
  }

  // ----- overflow: when what was taken has a gap -----

  /** How many messages can be taken without a gap: those taken or queued when the first one was lost. */
  function Before(cap: nat, loss: Loss): nat
    requires !loss.NoLoss?
  {
    match loss
    case Dropped(taken) => taken + cap
    case Skipped(taken, queued) => taken + queued
  }

  /** The d-th event offered is missing among those that went through the channel. */
  predicate Missing(through: seq<nat>, attempts: seq<nat>, d: nat) {
    && d < |attempts| && d <= |through| && through[..d] == attempts[..d]
    && attempts[d] !in through[d..]
  }

  ghost predicate Missed(cap: nat, s: State) {
    !s.loss.NoLoss? ==> Missing(s.taken + s.channel, s.attempts, Before(cap, s.loss))
  }

  lemma MissingSent(through: seq<nat>, attempts: seq<nat>, d: nat, i: nat)
    requires Missing(through, attempts, d)
    ensures Missing(through, attempts + [i], d)
    ensures i !in attempts ==> Missing(through + [i], attempts + [i], d)
  {
    assert (through + [i])[d..] == through[d..] + [i];
  }

  lemma NewlyMissing(attempts: seq<nat>, i: nat)
    ensures Missing(attempts, attempts + [i], |attempts|)
  {
  }

  lemma NotOffered(emissions: seq<Emission>, attempts: seq<nat>, i: nat)
    requires OfferedOnce(emissions, attempts) && !Attempted(emissions, i)
    ensures i !in attempts
  {
    assert Count(attempts, i) == 0;
  }

  lemma SendMissed(torn: bool, cap: nat, cursor: Cursor, s: State, i: nat)
    requires Offered(s) && Missed(cap, s) && Enabled(cap, cursor, s, Send(i))
    ensures Missed(cap, Step(torn, cap, cursor, s, Send(i)))
  {
    NotOffered(s.emissions, s.attempts, i);
    SendTaken(s.taken, s.channel, s.attempts, i);
    if !s.loss.NoLoss? {
      MissingSent(s.taken + s.channel, s.attempts, Before(cap, s.loss), i);
    }
  }

  lemma LossMissed(torn: bool, cap: nat, cursor: Cursor, s: State, a: Action)
    requires Offered(s) && Missed(cap, s) && Enabled(cap, cursor, s, a) && (a.Drop? || a.Skip?)
    ensures Missed(cap, Step(torn, cap, cursor, s, a))
  {
    if s.loss.NoLoss? {
      NewlyMissing(s.attempts, a.event);
    } else {
      MissingSent(s.taken + s.channel, s.attempts, Before(cap, s.loss), a.event);
    }
  }

  lemma StepMissed(torn: bool, cap: nat, cursor: Cursor, s: State, a: Action)
    requires Offered(s) && Missed(cap, s) && Enabled(cap, cursor, s, a)
    ensures Missed(cap, Step(torn, cap, cursor, s, a))
  {
    match a
    case Send(i) => SendMissed(torn, cap, cursor, s, i);
    case Drop(_) => LossMissed(torn, cap, cursor, s, a);
    case Skip(_) => LossMissed(torn, cap, cursor, s, a);
    case Receive => ReceiveTaken(s.taken, s.channel, s.attempts);
    case _ =>
  }

  lemma {:induction false} RunMissed(torn: bool, cap: nat, cursor: Cursor, s: State, actions: seq<Action>)
    requires Offered(s) && Missed(cap, s) && Legal(torn, cap, cursor, s, actions)
    ensures Offered(Exec(torn, cap, cursor, s, actions)) && Missed(cap, Exec(torn, cap, cursor, s, actions))
    decreases |actions|
  {
    if actions != [] {
      StepOffered(torn, cap, cursor, s, actions[0]);
      StepMissed(torn, cap, cursor, s, actions[0]);
      RunMissed(torn, cap, cursor, Step(torn, cap, cursor, s, actions[0]), actions[1..]);
    }
  }

  /**
   * What a connection takes is a gap-free prefix of the broadcasts exactly as long as the handler
   * took no more, after the first drop, than the channel holds, whoever broadcasts and however often
   * it overflows. An event skipped as the session is closed counts with what was queued at that time.
   */
  lemma TakenWithoutGaps(torn: bool, cap: nat, cursor: Cursor, actions: seq<Action>)
    requires Legal(torn, cap, cursor, START, actions)
    ensures var s := Exec(torn, cap, cursor, START, actions);
            && (s.taken <= s.attempts <==> s.loss.NoLoss? || |s.taken| <= Before(cap, s.loss))
            && (!s.closing ==> (s.loss.NoLoss? <==> s.dropped == 0) && !s.loss.Skipped?)
  {
    RunMissed(torn, cap, cursor, START, actions);
    LossFollows(torn, cap, cursor, START, actions);
    var s := Exec(torn, cap, cursor, START, actions);
    if !s.loss.NoLoss? {
      GapAt(s.taken, s.channel, s.attempts, Before(cap, s.loss));
    }
  }

  lemma GapAt(taken: seq<nat>, channel: seq<nat>, attempts: seq<nat>, d: nat)
    requires Missing(taken + channel, attempts, d)
    ensures taken <= attempts <==> |taken| <= d
  {
    var through := taken + channel;
    if |taken| <= d {
      assert taken == through[..|taken|] == through[..d][..|taken|];
    } else {
      assert taken[d] == through[d] == through[d..][0];
    }
  }

  predicate LossIs(s: State) {
    && (s.dropped > 0 ==> !s.loss.NoLoss?) && (s.loss.Dropped? ==> s.dropped > 0)
    && (s.loss.Skipped? ==> s.closing)
  }

  lemma {:induction false} LossFollows(torn: bool, cap: nat, cursor: Cursor, s: State, actions: seq<Action>)
    requires LossIs(s) && Legal(torn, cap, cursor, s, actions)
    ensures LossIs(Exec(torn, cap, cursor, s, actions))
    decreases |actions|
  {
    if actions != [] {
      LossFollows(torn, cap, cursor, Step(torn, cap, cursor, s, actions[0]), actions[1..]);
    }
  }

  /** An event was counted as dropped and the overflow flag is not raised yet. */
  predicate MidDrop(s: State) {
    exists i :: 0 <= i < |s.emissions| && s.emissions[i].Dropping?
  }

  /** The handler takes no message between a drop and its flag. */
  predicate Unseen(s: State, a: Action) {
    a.Receive? ==> !MidDrop(s)
  }

  /** Then it takes at most one more after the first drop: if it had looked at the flag before. */
  predicate OneMore(s: State) {
    s.loss.Dropped? ==>
      if s.overflow then |s.taken| <= s.loss.taken + (if s.phase.Selecting? then 0 else 1)
      else MidDrop(s) && |s.taken| == s.loss.taken
  }

  lemma MarkKeepsOthers(s: State, i: nat, e: Emission)
    requires i < |s.emissions| && !s.emissions[i].Dropping? && !e.Dropping?
    ensures MidDrop(Mark(s, i, e)) == MidDrop(s)
  {
    var s' := Mark(s, i, e);
    if MidDrop(s) {
      var k :| 0 <= k < |s.emissions| && s.emissions[k].Dropping?;
      assert s'.emissions[k].Dropping?;
    }
    if MidDrop(s') {
      var k :| 0 <= k < |s'.emissions| && s'.emissions[k].Dropping?;
      assert s.emissions[k].Dropping?;
    }
  }

  lemma PersistKeepsOthers(s: State)
    ensures MidDrop(s.(emissions := s.emissions + [Saved])) == MidDrop(s)
  {
    var s' := s.(emissions := s.emissions + [Saved]);
    if MidDrop(s) {
      var k :| 0 <= k < |s.emissions| && s.emissions[k].Dropping?;
      assert s'.emissions[k].Dropping?;
    }
  }

  lemma DropOneMore(torn: bool, cap: nat, cursor: Cursor, s: State, i: nat)
    requires OneMore(s) && Enabled(cap, cursor, s, Drop(i))
    ensures OneMore(Step(torn, cap, cursor, s, Drop(i)))
  {
    if torn {
      assert Step(torn, cap, cursor, s, Drop(i)).emissions[i].Dropping?;
    }
  }

  lemma StepOneMore(torn: bool, cap: nat, cursor: Cursor, s: State, a: Action)
    requires OneMore(s) && Enabled(cap, cursor, s, a) && Unseen(s, a)
    ensures OneMore(Step(torn, cap, cursor, s, a))
  {
    match a
    case Persist => PersistKeepsOthers(s);
    case Aim(i) => MarkKeepsOthers(s, i, if s.phase.Off? || s.closing then Over(false) else Aimed);
    case Send(i) => MarkKeepsOthers(s, i, Over(true));
    case Skip(i) => MarkKeepsOthers(s, i, Over(true));
    case Drop(i) => DropOneMore(torn, cap, cursor, s, i);
    case _ =>
  }

  ghost predicate AllUnseen(torn: bool, cap: nat, cursor: Cursor, s: State, actions: seq<Action>)
    requires Legal(torn, cap, cursor, s, actions)
    decreases |actions|
  {
    actions == [] ||
    (Unseen(s, actions[0]) && AllUnseen(torn, cap, cursor, Step(torn, cap, cursor, s, actions[0]), actions[1..]))
  }

  lemma {:induction false} RunOneMore(torn: bool, cap: nat, cursor: Cursor, s: State, actions: seq<Action>)
    requires OneMore(s) && Legal(torn, cap, cursor, s, actions) && AllUnseen(torn, cap, cursor, s, actions)
    ensures OneMore(Exec(torn, cap, cursor, s, actions))
    decreases |actions|
  {
    if actions != [] {
      StepOneMore(torn, cap, cursor, s, actions[0]);
      RunOneMore(torn, cap, cursor, Step(torn, cap, cursor, s, actions[0]), actions[1..]);
    }
  }

  /** A handler that takes no message between a drop and its flag sees no gap, unless its session is closed. */
  lemma UnseenLeavesNoGap(torn: bool, cap: nat, cursor: Cursor, actions: seq<Action>)
    requires cap >= 1 && Legal(torn, cap, cursor, START, actions) && AllUnseen(torn, cap, cursor, START, actions)
    requires !Exec(torn, cap, cursor, START, actions).closing
    ensures var s := Exec(torn, cap, cursor, START, actions); s.taken <= s.attempts
  {
    RunOneMore(torn, cap, cursor, START, actions);
    TakenWithoutGaps(torn, cap, cursor, actions);
  }

  predicate NeverMidDrop(s: State) {
    forall i :: 0 <= i < |s.emissions| ==> !s.emissions[i].Dropping?
  }

  /** If the drop and the flag were one step, that would hold of every run. */
  lemma {:induction false} AtomicDropsUnseen(cap: nat, cursor: Cursor, s: State, actions: seq<Action>)
    requires Legal(false, cap, cursor, s, actions) && NeverMidDrop(s)
    ensures AllUnseen(false, cap, cursor, s, actions)
    decreases |actions|
  {
    if actions != [] {
      AtomicDropsUnseen(cap, cursor, Step(false, cap, cursor, s, actions[0]), actions[1..]);
    }
  }

  /** One more step at the end of a run. */
  lemma {:induction false} More(torn: bool, cap: nat, cursor: Cursor, s: State, actions: seq<Action>, a: Action)
    returns (longer: seq<Action>, r: State)
    requires Legal(torn, cap, cursor, s, actions) && Enabled(cap, cursor, Exec(torn, cap, cursor, s, actions), a)
    ensures longer == actions + [a] && Legal(torn, cap, cursor, s, longer)
    ensures r == Exec(torn, cap, cursor, s, longer) == Step(torn, cap, cursor, Exec(torn, cap, cursor, s, actions), a)
    decreases |actions|
  {
    longer := actions + [a];
    if actions == [] {
      assert [a][1..] == [];
      r := Step(torn, cap, cursor, s, a);
    } else {
      var rest;
      rest, r := More(torn, cap, cursor, Step(torn, cap, cursor, s, actions[0]), actions[1..], a);
      assert longer[1..] == rest;
    }
  }

  /** The first n events. */
  function Ids(n: nat): seq<nat> {
    seq(n, i requires 0 <= i < n => i as nat)
  }

  /** A fresh client in its select, n events sent to it and none taken. */
  function Filled(n: nat): State {
    START.(phase := Selecting, emissions := seq(n, i => Over(true)), channel := Ids(n), attempts := Ids(n))
  }

  lemma Connect(cap: nat) returns (run: seq<Action>)
    ensures Legal(true, cap, NoCursor, START, run)
    ensures Exec(true, cap, NoCursor, START, run) == Filled(0)
  {
    var s;
    run, s := More(true, cap, NoCursor, START, [], Register);
    run, s := More(true, cap, NoCursor, START, run, ReadLog);
    run, s := More(true, cap, NoCursor, START, run, EndReplay);
    run, s := More(true, cap, NoCursor, START, run, Check);
  }

  lemma {:induction false} Fill(cap: nat, n: nat) returns (run: seq<Action>)
    requires n <= cap
    ensures Legal(true, cap, NoCursor, START, run)
    ensures Exec(true, cap, NoCursor, START, run) == Filled(n)
  {
    if n == 0 {
      run := Connect(cap);
    } else {
      run := Fill(cap, n - 1);
      var s;
      run, s := More(true, cap, NoCursor, START, run, Persist);
      run, s := More(true, cap, NoCursor, START, run, Aim(n - 1));
      run, s := More(true, cap, NoCursor, START, run, Send(n - 1));
      assert s.emissions == Filled(n).emissions;
      assert s.channel == Ids(n);
    }
  }

  /** The channel was full when the next event was counted as dropped, not yet flagged; then k messages were taken. */
  function Torn(cap: nat, k: nat): State
    requires k <= cap
  {
    START.(phase := Selecting, emissions := seq(cap, i => Over(true)) + [Dropping], channel := Ids(cap)[k..],
           dropped := 1, loss := Dropped(0), attempts := Ids(cap + 1), taken := Ids(k), delivered := Ids(k))
  }

  lemma {:induction false} Drain(cap: nat, k: nat) returns (run: seq<Action>)
    requires k <= cap
    ensures Legal(true, cap, NoCursor, START, run)
    ensures Exec(true, cap, NoCursor, START, run) == Torn(cap, k)
    decreases k
  {
    var s;
    if k == 0 {
      run := Fill(cap, cap);
      run, s := More(true, cap, NoCursor, START, run, Persist);
      run, s := More(true, cap, NoCursor, START, run, Aim(cap));
      run, s := More(true, cap, NoCursor, START, run, Drop(cap));
      assert s.emissions == Torn(cap, 0).emissions;
      assert s.attempts == Ids(cap + 1);
      assert s.channel == Ids(cap)[0..];
    } else {
      run := Drain(cap, k - 1);
      run, s := More(true, cap, NoCursor, START, run, Receive);
      run, s := More(true, cap, NoCursor, START, run, Check);
      assert s.taken == Ids(k);
      assert s.channel == Ids(cap)[k..];
    }
  }

  /**
   * In the source the drop is counted before the flag is raised. A handler that empties the channel
   * in between and waits in its select then takes a later event, so the client sees a gap whatever
   * the channel holds, even with a single emitter: all events but the dropped one are delivered.
   */
  lemma TornDropSkips(cap: nat) returns (run: seq<Action>)
    requires cap >= 1
    ensures Legal(true, cap, NoCursor, START, run)
    ensures var s := Exec(true, cap, NoCursor, START, run);
            s.delivered == Ids(cap) + [cap + 1] && s.attempts == Ids(cap + 2) && !(s.taken <= s.attempts) && !s.closing
  {
    var s;
    run := Drain(cap, cap);
    run, s := More(true, cap, NoCursor, START, run, Flag(cap));
    run, s := More(true, cap, NoCursor, START, run, Persist);
    run, s := More(true, cap, NoCursor, START, run, Aim(cap + 1));
    assert s.channel == [];
    run, s := More(true, cap, NoCursor, START, run, Send(cap + 1));
    run, s := More(true, cap, NoCursor, START, run, Receive);
    assert s.attempts == Ids(cap + 2);
    assert s.taken[cap] == cap + 1;
  }

  // ----- the source's loops -----

  /** The replay is what follows the first message with the cursor's id, if there is one. */
  ghost predicate Replays(ids: seq<string>, cursor: string, replay: seq<string>, found: bool) {
    && (found <==> cursor != "" && cursor in ids)
    && (found ==> exists i :: 0 <= i < |ids| && FirstAt(ids, cursor, i) && replay == ids[i + 1..])
    && (!found ==> replay == [])
  }

  predicate FirstAt(ids: seq<string>, id: string, i: nat) {
    i < |ids| && ids[i] == id && forall k :: 0 <= k < i ==> ids[k] != id
  }

  /** The position that stands for a cursor: where its id comes first in the log that was read, or none. */
  predicate Stands(ids: seq<string>, id: string, cursor: Cursor) {
    if id != "" && id in ids then cursor.After? && FirstAt(ids, id, cursor.event)
    else !cursor.After? || cursor.event >= |ids|
  }

  lemma FirstIsOne(ids: seq<string>, id: string, i: nat, j: nat)
    requires FirstAt(ids, id, i) && FirstAt(ids, id, j)
    ensures i == j
  {
  }

  /** The range the machine replays is what the source's scan returns on the log that was read. */
  lemma ReadLogReplays(torn: bool, cap: nat, s: State, ids: seq<string>, id: string, cursor: Cursor, replay: seq<string>, found: bool)
    requires s.phase.Registered? && |ids| == |s.emissions| && Stands(ids, id, cursor) && Replays(ids, id, replay, found)
    ensures var s' := Step(torn, cap, cursor, s, ReadLog);
            && s'.lo <= s'.hi == |ids| && replay == ids[s'.lo..s'.hi] && s'.phase == Replaying(s'.lo)
            && (found <==> cursor.After? && cursor.event < |ids|)
  {
    if found {
      var i :| 0 <= i < |ids| && FirstAt(ids, id, i) && replay == ids[i + 1..];
      FirstIsOne(ids, id, i, cursor.event);
    }
  }

  /** The messages after the cursor, if the cursor is in the session's history. */
  method SessionReplayMessages(ids: seq<string>, cursor: string) returns (replay: seq<string>, found: bool)
    ensures Replays(ids, cursor, replay, found)
  {
    if cursor == "" {
      return [], false;
    }
    for i := 0 to |ids|
      invariant forall k :: 0 <= k < i ==> ids[k] != cursor
    {
      if ids[i] == cursor {
        assert FirstAt(ids, cursor, i);
        return ids[i + 1..], true;
      }
    }
    return [], false;
  }

  datatype Message = Message(id: string, event: string)

  class Client {
    const sessionId: string
    var send: seq<Message>
    var dropped: nat
    var overflow: bool
    var done: bool

    constructor (sessionId: string)
      ensures this.sessionId == sessionId && send == [] && dropped == 0 && !overflow && !done
    {
      this.sessionId := sessionId;
      send, dropped, overflow, done := [], 0, false, false;
    }
  }

  /** The registered clients of every session. */
  class Broker {
    var clients: map<string, set<Client>>

    ghost predicate Valid()
      reads this, AllClients()
    {
      && (forall id :: id in clients ==> clients[id] != {})
      && (forall id, c :: id in clients && c in clients[id] ==> c.sessionId == id && !c.done)
    }

    ghost function AllClients(): set<Client>
      reads this
    {
      set id, c | id in clients && c in clients[id] :: c
    }

    function Of(sessionId: string): set<Client>
      reads this
    {
      if sessionId in clients then clients[sessionId] else {}
    }

    constructor ()
      ensures Valid() && clients == map[]
    {
      clients := map[];
    }

    method Register(sessionId: string) returns (client: Client)
      requires Valid()
      modifies this
      ensures Valid() && fresh(client) && client.sessionId == sessionId && client.send == [] && !client.overflow
      ensures Of(sessionId) == old(Of(sessionId)) + {client}
      ensures forall id :: id != sessionId ==> Of(id) == old(Of(id))
    {
      client := new Client(sessionId);
      clients := clients[sessionId := Of(sessionId) + {client}];
    }

    /** Removes the client and closes it, once: a client that is no longer registered is left alone. */
    method Unregister(client: Client)
      requires Valid()
      modifies this, client`done
      ensures Valid()
      ensures Of(client.sessionId) == old(Of(client.sessionId)) - {client}
      ensures forall id :: id != client.sessionId ==> Of(id) == old(Of(id))
      ensures client.done == (old(client.done) || client in old(Of(client.sessionId)))
    {
      var id := client.sessionId;
      if client in Of(id) {
        var rest := clients[id] - {client};
        client.done := true;
        if rest == {} {
          clients := clients - {id};
        } else {
          clients := clients[id := rest];
        }
      }
    }

    method CloseSession(sessionId: string)
      requires Valid()
      modifies this, Of(sessionId)
      ensures Valid() && Of(sessionId) == {}
      ensures forall c :: c in old(Of(sessionId)) ==> c.done
      ensures forall id :: id != sessionId ==> Of(id) == old(Of(id))
    {
      var all := Of(sessionId);
      var todo := all;
      clients := clients - {sessionId};
      while todo != {}
        invariant todo <= all && clients == old(clients) - {sessionId}
        invariant forall c :: c in all && c !in todo ==> c.done
        invariant forall c :: c in all ==> c.sessionId == sessionId
        invariant forall id, c :: id in clients && c in clients[id] ==> c.sessionId == id && !c.done
        decreases |todo|
      {
        var c :| c in todo;
        c.done := true;
        todo := todo - {c};
      }
    }

    /** Offers the message to every registered client of the session; a full client drops it and is flagged. */
    method Broadcast(sessionId: string, message: Message, capacity: nat)
      requires Valid()
      modifies Of(sessionId)
      ensures Valid() && clients == old(clients)
      ensures forall c :: c in Of(sessionId) ==>
                if old(|c.send|) < capacity
                then c.send == old(c.send) + [message] && c.dropped == old(c.dropped) && c.overflow == old(c.overflow)
                else c.send == old(c.send) && c.dropped == old(c.dropped) + 1 && c.overflow
    {
      var todo := Of(sessionId);
      while todo != {}
        invariant todo <= Of(sessionId) && clients == old(clients)
        invariant forall c :: c in Of(sessionId) ==> !c.done
        invariant forall c :: c in todo ==>
                    c.send == old(c.send) && c.dropped == old(c.dropped) && c.overflow == old(c.overflow)
        invariant forall c :: c in Of(sessionId) && c !in todo ==>
                    if old(|c.send|) < capacity
                    then c.send == old(c.send) + [message] && c.dropped == old(c.dropped) && c.overflow == old(c.overflow)
                    else c.send == old(c.send) && c.dropped == old(c.dropped) + 1 && c.overflow
        decreases |todo|
      {
        var c :| c in todo;
        if |c.send| < capacity {
          c.send := c.send + [message];
        } else {
          c.dropped := c.dropped + 1;
          c.overflow := true;
        }
        todo := todo - {c};
      }
    }
  }
}

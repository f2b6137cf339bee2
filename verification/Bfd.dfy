/** BFD sessions (RFC 5880) as lib/bfdlib.py runs them: the state machine of one
    session, two sessions over a channel that may lose, delay, duplicate and
    reorder packets, and the transmission period. */
module Bfd {
  import opened Wrappers

  datatype State = AdminDown | Down | Init | Up

  datatype Diag = NoDiag | DetectTimeExpired | NeighborSignaledDown

  /** The fields of a control packet that `recv` looks at.  Intervals are in
      microseconds. */
  datatype Packet = Packet(state: State, myDiscr: nat, desired: nat, requiredRx: nat, mult: nat,
                           poll: bool, final: bool, demand: bool)

  /** `period` is the transmission period in hundredths of a microsecond, the
      exact value of the source's percentage arithmetic. */
  datatype Session = Session(state: State, remoteState: State, diag: Diag, discr: nat, remoteDiscr: nat,
                             desired: nat, requiredRx: nat, remoteMinRx: int, remoteDemand: bool, mult: nat,
                             cfgDesired: nat, detectTime: nat, period: int,
                             isPolling: bool, pendingFinal: bool, enableSend: bool)

  const ONE_SECOND: nat := 1_000_000

  /** random.randint(75, 90) for a multiplier of 1, random.randint(75, 100)
      otherwise (section 6.8.7). */
  predicate Jitter(mult: nat, r: int) { 75 <= r <= if mult == 1 then 90 else 100 }

  function Max(a: int, b: int): int { if a > b then a else b }

  // ------------------------------------------------------------- one session

  /** _update_xmit_period. */
  function UpdatePeriod(s: Session, r: int): Session {
    s.(period := Max(s.desired, s.remoteMinRx) * r)
  }

  function Fresh(discr: nat, mult: nat, cfgDesired: nat, requiredRx: nat, r: int): Session {
    UpdatePeriod(Session(Down, Down, NoDiag, discr, 0, ONE_SECOND, requiredRx, -1, false, mult, cfgDesired, 0, 0,
                         true, false, true), r)
  }

  /** _set_state. */
  function SetState(s: Session, to: State, diag: Option<Diag>, r: int): Session {
    var s := s.(state := to);
    match to
    case Down => UpdatePeriod(s.(diag := diag.GetOr(s.diag), desired := ONE_SECOND, isPolling := true), r)
    case Up => UpdatePeriod(s.(desired := s.cfgDesired, isPolling := true), r)
    case _ => s
  }

  /** The state `recv` moves to, or None if it stays (section 6.8.6). */
  function NextState(s: State, received: State): Option<State> {
    match s
    case AdminDown => None
    case Down => if received == Down then Some(Init) else if received == Init then Some(Up) else None
    case Init => if received == AdminDown then Some(Down) else if received != Down then Some(Up) else None
    case Up => if received == AdminDown || received == Down then Some(Down) else None
  }

  /** The head of recv: what it notes about the peer. */
  function Note(s: Session, p: Packet, r: int): Session {
    var s := s.(remoteDiscr := p.myDiscr, remoteDemand := p.demand);
    var s := if s.remoteMinRx != p.requiredRx then UpdatePeriod(s.(remoteMinRx := p.requiredRx), r) else s;
    if p.final && s.isPolling then s.(isPolling := false) else s
  }

  function Move(s: Session, p: Packet, r: int): Session {
    match NextState(s.state, p.state)
    case None => s
    case Some(to) =>
      SetState(s, to, if to == Down then Some(NeighborSignaledDown) else None, r)
  }

  /** The tail of recv: demand mode and the detection time. */
  function Settle(s: Session, p: Packet): Session {
    var s := s.(enableSend := !(s.remoteDemand && s.state == Up && s.remoteState == Up));
    var s := if s.detectTime == 0 then s.(detectTime := p.desired * p.mult) else s;
    if p.poll then s.(pendingFinal := true, detectTime := p.desired * p.mult) else s
  }

  function Recv(s: Session, p: Packet, r1: int, r2: int): Session {
    var s := Note(s, p, r1);
    if s.state == AdminDown then s else Settle(Move(s, p, r2), p)
  }

  /** The detection time ran out without a packet. */
  function TimeOut(s: Session, r: int): Session {
    if s.detectTime == 0 || s.state == Down || s.state == AdminDown then s
    else SetState(s, Down, Some(DetectTimeExpired), r)
  }

  /** _send: what goes out, and the flags it clears. */
  function Sent(s: Session): Packet {
    Packet(s.state, s.discr, s.desired, s.requiredRx, s.mult, s.isPolling && !s.pendingFinal, s.pendingFinal, false)
  }

  function AfterSend(s: Session): Session {
    if s.pendingFinal then s.(pendingFinal := false, isPolling := false) else s
  }

  // ------------------------------------------------------------------ timing

  /** Sections 6.8.3 and 6.8.7: not Up means a desired interval of one second,
      and the period is the larger of the desired and the peer's required
      interval, cut by at most a quarter.  The peer's state variable stays Down,
      so demand mode never silences the sender. */
  ghost predicate TimingOk(s: Session) {
    && s.desired == (if s.state == Up then s.cfgDesired else ONE_SECOND)
    && (exists r :: Jitter(s.mult, r) && s.period == Max(s.desired, s.remoteMinRx) * r)
    && s.remoteState == Down && s.enableSend && s.state != AdminDown
  }

  lemma FreshTiming(discr: nat, mult: nat, cfgDesired: nat, requiredRx: nat, r: int)
    requires Jitter(mult, r)
    ensures TimingOk(Fresh(discr, mult, cfgDesired, requiredRx, r))
  {
  }

  lemma RecvKeepsTiming(s: Session, p: Packet, r1: int, r2: int)
    requires TimingOk(s) && Jitter(s.mult, r1) && Jitter(s.mult, r2)
    ensures TimingOk(Recv(s, p, r1, r2))
  {
    NoteKeepsTiming(s, p, r1);
    MoveKeepsTiming(Note(s, p, r1), p, r2);
    SettleKeepsTiming(Move(Note(s, p, r1), p, r2), p);
  }

  lemma NoteKeepsTiming(s: Session, p: Packet, r: int)
    requires TimingOk(s) && Jitter(s.mult, r)
    ensures TimingOk(Note(s, p, r)) && Note(s, p, r).mult == s.mult && Note(s, p, r).state == s.state
  {
    var r0 :| Jitter(s.mult, r0) && s.period == Max(s.desired, s.remoteMinRx) * r0;
    var r' := if s.remoteMinRx != p.requiredRx then r else r0;
    var s' := Note(s, p, r);
    assert Jitter(s'.mult, r') && s'.period == Max(s'.desired, s'.remoteMinRx) * r';
  }

  lemma MoveKeepsTiming(s: Session, p: Packet, r: int)
    requires TimingOk(s) && Jitter(s.mult, r)
    ensures TimingOk(Move(s, p, r))
  {
    var r0 :| Jitter(s.mult, r0) && s.period == Max(s.desired, s.remoteMinRx) * r0;
    var s' := Move(s, p, r);
    var r' := if s'.state != s.state && s'.state != Init then r else r0;
    assert Jitter(s'.mult, r') && s'.period == Max(s'.desired, s'.remoteMinRx) * r';
  }

  lemma SettleKeepsTiming(s: Session, p: Packet)
    requires TimingOk(s)
    ensures TimingOk(Settle(s, p))
  {
    var r0 :| Jitter(s.mult, r0) && s.period == Max(s.desired, s.remoteMinRx) * r0;
    var s' := Settle(s, p);
    assert Jitter(s'.mult, r0) && s'.period == Max(s'.desired, s'.remoteMinRx) * r0;
  }

  lemma TimeOutKeepsTiming(s: Session, r: int)
    requires TimingOk(s) && Jitter(s.mult, r)
    ensures TimingOk(TimeOut(s, r))
  {
  }

  lemma SendKeepsTiming(s: Session)
    requires TimingOk(s)
    ensures TimingOk(AfterSend(s))
  {
    var r0 :| Jitter(s.mult, r0) && s.period == Max(s.desired, s.remoteMinRx) * r0;
    assert Jitter(AfterSend(s).mult, r0);
  }

  /** In numbers: a session that is not Up sends no more often than every three
      quarters of a second, and always at 75 to 100 per cent of the larger
      interval (75 to 90 with a multiplier of 1). */
  lemma PeriodBounds(s: Session)
    requires TimingOk(s)
    ensures s.state != Up ==> s.period >= 75 * ONE_SECOND
    ensures var longest := Max(s.desired, s.remoteMinRx);
            longest >= 0 ==> 75 * longest <= s.period <= (if s.mult == 1 then 90 else 100) * longest
  {
    var r :| Jitter(s.mult, r) && s.period == Max(s.desired, s.remoteMinRx) * r;
    var longest := Max(s.desired, s.remoteMinRx);
    if longest >= 0 {
      Monotone(75, r, longest);
      Monotone(r, if s.mult == 1 then 90 else 100, longest);
    }
  }

  lemma Monotone(a: int, b: int, x: int)
    requires a <= b && x >= 0
    ensures a * x <= b * x
  {
  }

  // ------------------------------------------------------------ two sessions

  datatype Side = A | B

  function Peer(side: Side): Side { if side == A then B else A }

  datatype Pair = Pair(a: Session, b: Session)

  function Of(p: Pair, side: Side): Session { if side == A then p.a else p.b }

  function With(p: Pair, side: Side, s: Session): Pair {
    if side == A then p.(a := s) else p.(b := s)
  }

  /** Receive(side, k): `side` gets the packet its peer sent at step k, which may
      be long ago, out of order, or not for the first time. */
  datatype Step = Send(side: Side) | Receive(side: Side, k: nat, r1: int, r2: int) | Expire(side: Side, r: int)

  /** Packets are not invented: what is received was sent by the peer before. */
  predicate ValidStep(pair0: Pair, steps: seq<Step>, i: nat)
    requires i < |steps|
  {
    match steps[i]
    case Send(_) => true
    case Receive(side, k, r1, r2) =>
      k < i && steps[k] == Send(Peer(side)) && Jitter(Of(pair0, side).mult, r1) && Jitter(Of(pair0, side).mult, r2)
    case Expire(side, r) => Jitter(Of(pair0, side).mult, r)
  }

  ghost predicate Valid(pair0: Pair, steps: seq<Step>) {
    forall i | 0 <= i < |steps| :: ValidStep(pair0, steps, i)
  }

  /** The sessions after the first `i` steps. */
  function At(pair0: Pair, steps: seq<Step>, i: nat): Pair
    requires i <= |steps|
    decreases i
  {
    if i == 0 then pair0
    else
      var p := At(pair0, steps, i - 1);
      match steps[i - 1]
      case Send(side) => With(p, side, AfterSend(Of(p, side)))
      case Receive(side, k, r1, r2) =>
        if k < i - 1 then With(p, side, Recv(Of(p, side), Sent(Of(At(pair0, steps, k), Peer(side))), r1, r2)) else p
      case Expire(side, r) => With(p, side, TimeOut(Of(p, side), r))
  }

  /** A session as the constructor leaves it. */
  ghost predicate IsFresh(s: Session) {
    exists r :: Jitter(s.mult, r) && s == Fresh(s.discr, s.mult, s.cfgDesired, s.requiredRx, r)
  }

  ghost predicate Start(pair0: Pair) {
    IsFresh(pair0.a) && IsFresh(pair0.b)
  }

  lemma StartTiming(pair0: Pair, side: Side)
    requires Start(pair0)
    ensures Of(pair0, side).state == Down && TimingOk(Of(pair0, side))
  {
    hide TimingOk;
    var s := Of(pair0, side);
    var r :| Jitter(s.mult, r) && s == Fresh(s.discr, s.mult, s.cfgDesired, s.requiredRx, r);
    FreshTiming(s.discr, s.mult, s.cfgDesired, s.requiredRx, r);
  }

  lemma NoteSays(s: Session, p: Packet, r: int)
    ensures Note(s, p, r).mult == s.mult && Note(s, p, r).state == s.state
  {
  }

  lemma MoveSays(s: Session, p: Packet, r: int)
    ensures Move(s, p, r).mult == s.mult
    ensures Move(s, p, r).state == match NextState(s.state, p.state) case None => s.state case Some(to) => to
  {
  }

  lemma SettleSays(s: Session, p: Packet)
    ensures Settle(s, p).mult == s.mult && Settle(s, p).state == s.state
  {
  }

  lemma RecvSays(s: Session, p: Packet, r1: int, r2: int)
    ensures Recv(s, p, r1, r2).mult == s.mult
    ensures Recv(s, p, r1, r2).state == match NextState(s.state, p.state) case None => s.state case Some(to) => to
  {
    hide Note, Move, Settle;
    NoteSays(s, p, r1);
    MoveSays(Note(s, p, r1), p, r2);
    SettleSays(Move(Note(s, p, r1), p, r2), p);
  }

  lemma OtherStepsSay(s: Session, r: int)
    ensures TimeOut(s, r).mult == s.mult && AfterSend(s).mult == s.mult
    ensures TimeOut(s, r).state == s.state || TimeOut(s, r).state == Down
    ensures AfterSend(s).state == s.state && Sent(s).state == s.state
  {
  }

  lemma {:induction false} TimingOverRuns(pair0: Pair, steps: seq<Step>, i: nat, side: Side)
    requires Start(pair0) && Valid(pair0, steps) && i <= |steps|
    ensures TimingOk(Of(At(pair0, steps, i), side)) && Of(At(pair0, steps, i), side).mult == Of(pair0, side).mult
    decreases i
  {
    hide TimingOk, Recv, TimeOut, AfterSend, Sent, Jitter, Start;
    if i == 0 {
      StartTiming(pair0, side);
    } else {
      TimingOverRuns(pair0, steps, i - 1, side);
      assert ValidStep(pair0, steps, i - 1);
      var s := Of(At(pair0, steps, i - 1), side);
      match steps[i - 1]
      case Send(_) => SendKeepsTiming(s); OtherStepsSay(s, 0);
      case Receive(to, k, r1, r2) =>
        if to == side {
          var p := Sent(Of(At(pair0, steps, k), Peer(side)));
          RecvKeepsTiming(s, p, r1, r2);
          RecvSays(s, p, r1, r2);
        }
      case Expire(to, r) => if to == side { TimeOutKeepsTiming(s, r); OtherStepsSay(s, r); }
    }
  }

  function StateOf(pair0: Pair, steps: seq<Step>, i: nat, side: Side): State
    requires i <= |steps|
  {
    Of(At(pair0, steps, i), side).state
  }

  /** A state changes by a packet or by a timeout, as the table says. */
  lemma StateStep(pair0: Pair, steps: seq<Step>, i: nat, side: Side)
    requires Valid(pair0, steps) && i < |steps|
    ensures var was, now := StateOf(pair0, steps, i, side), StateOf(pair0, steps, i + 1, side);
            now != was ==>
              match steps[i]
              case Send(_) => false
              case Expire(to, _) => to == side && now == Down
              case Receive(to, k, _, _) =>
                to == side && k < i && NextState(was, StateOf(pair0, steps, k, Peer(side))) == Some(now)
  {
    hide Recv, TimeOut, AfterSend, Sent, NextState;
    assert ValidStep(pair0, steps, i);
    var s := Of(At(pair0, steps, i), side);
    match steps[i]
    case Send(_) => OtherStepsSay(s, 0);
    case Expire(_, r) => OtherStepsSay(s, r);
    case Receive(_, k, r1, r2) =>
      var peer := Of(At(pair0, steps, k), Peer(side));
      RecvSays(s, Sent(peer), r1, r2);
      OtherStepsSay(peer, 0);
  }

  lemma EntersInit(pair0: Pair, steps: seq<Step>, i: nat, side: Side)
    requires Valid(pair0, steps) && i < |steps|
    requires StateOf(pair0, steps, i, side) != Init && StateOf(pair0, steps, i + 1, side) == Init
    ensures steps[i].Receive? && steps[i].side == side && steps[i].k < i && steps[steps[i].k] == Send(Peer(side))
    ensures StateOf(pair0, steps, i, side) == Down && StateOf(pair0, steps, steps[i].k, Peer(side)) == Down
  {
    hide StateOf;
    StateStep(pair0, steps, i, side);
    assert ValidStep(pair0, steps, i);
  }

  /** A session in Init got there on a packet sent by its peer in Down. */
  lemma {:induction false} EnteredInit(pair0: Pair, steps: seq<Step>, k: nat, side: Side) returns (j: nat, h: nat)
    requires Start(pair0) && Valid(pair0, steps) && k <= |steps| && StateOf(pair0, steps, k, side) == Init
    ensures h < j < k && StateOf(pair0, steps, j, side) == Down
    ensures forall i | j < i <= k :: StateOf(pair0, steps, i, side) == Init
    ensures steps[j].Receive? && steps[j].side == side && steps[j].k == h && steps[h] == Send(Peer(side))
    ensures StateOf(pair0, steps, h, Peer(side)) == Down
    decreases k
  {
    hide Valid, Recv, TimeOut, AfterSend, Sent;
    StartTiming(pair0, side);
    if StateOf(pair0, steps, k - 1, side) == Init {
      j, h := EnteredInit(pair0, steps, k - 1, side);
    } else {
      EntersInit(pair0, steps, k - 1, side);
      j, h := k - 1, steps[k - 1].k;
    }
  }

  ghost predicate NobodyUp(pair0: Pair, steps: seq<Step>, i: nat)
    requires i <= |steps|
  {
    StateOf(pair0, steps, i, A) != Up && StateOf(pair0, steps, i, B) != Up
  }

  /** Handshake causality (sections 6.2 and 6.8.6): the first session to be Up
      got there on an Init packet of its peer, which had entered Init, and stayed
      there, on a Down packet of the first. */
  lemma FirstUp(pair0: Pair, steps: seq<Step>, n: nat, side: Side) returns (k: nat, j: nat, h: nat)
    requires Start(pair0) && Valid(pair0, steps) && n < |steps|
    requires forall i | 0 <= i <= n :: NobodyUp(pair0, steps, i)
    requires StateOf(pair0, steps, n + 1, side) == Up
    ensures h < j < k < n
    ensures steps[n].Receive? && steps[n].side == side && steps[n].k == k && steps[k] == Send(Peer(side))
    ensures StateOf(pair0, steps, k, Peer(side)) == Init && StateOf(pair0, steps, n, Peer(side)) != Up
    ensures steps[j].Receive? && steps[j].side == Peer(side) && steps[j].k == h && steps[h] == Send(side)
    ensures StateOf(pair0, steps, j, Peer(side)) == Down && StateOf(pair0, steps, h, side) == Down
    ensures forall i | j < i <= k :: StateOf(pair0, steps, i, Peer(side)) == Init
  {
    assert NobodyUp(pair0, steps, n);
    StateStep(pair0, steps, n, side);
    assert ValidStep(pair0, steps, n);
    k := steps[n].k;
    assert NobodyUp(pair0, steps, k);
    j, h := EnteredInit(pair0, steps, k, Peer(side));
  }

  // ------------------------------------------------------ handshakes succeed

  function StateSent(pair0: Pair, steps: seq<Step>, i: nat): State
    requires i < |steps| && steps[i].Receive? && steps[i].k < i
  {
    StateOf(pair0, steps, steps[i].k, Peer(steps[i].side))
  }

  /** The state table of section 6.8.6 for two sessions that nobody takes down:
      what a packet does, by the state it was sent in. */
  lemma PacketMoves(pair0: Pair, steps: seq<Step>, i: nat)
    requires Start(pair0) && Valid(pair0, steps) && i < |steps| && steps[i].Receive?
    ensures steps[i].k < i
    ensures var was, now := StateOf(pair0, steps, i, steps[i].side), StateOf(pair0, steps, i + 1, steps[i].side);
            && was != AdminDown
            && match StateSent(pair0, steps, i)
               case AdminDown => now == Down
               case Down => now == (if was == Up then Down else Init)
               case Init => now == Up
               case Up => now == if was == Down then Down else Up
  {
    hide Recv, Sent, TimingOk;
    assert ValidStep(pair0, steps, i);
    var side := steps[i].side;
    TimingOverRuns(pair0, steps, i, side);
    NotAdminDown(Of(At(pair0, steps, i), side));
    var peer := Of(At(pair0, steps, steps[i].k), Peer(side));
    RecvSays(Of(At(pair0, steps, i), side), Sent(peer), steps[i].r1, steps[i].r2);
    OtherStepsSay(peer, 0);
  }

  lemma NotAdminDown(s: Session)
    requires TimingOk(s)
    ensures s.state != AdminDown
  {
  }

  lemma OthersUnmoved(pair0: Pair, steps: seq<Step>, i: nat, side: Side)
    requires Valid(pair0, steps) && i < |steps|
    requires steps[i].Send? || steps[i].side != side
    ensures StateOf(pair0, steps, i + 1, side) == StateOf(pair0, steps, i, side)
  {
    hide Recv, TimeOut, AfterSend;
    OtherStepsSay(Of(At(pair0, steps, i), side), 0);
  }

  /** An Up session stays Up but for a timeout, or a packet its peer sent in Down
      or AdminDown. */
  lemma LeavesUp(pair0: Pair, steps: seq<Step>, i: nat, side: Side)
    requires Start(pair0) && Valid(pair0, steps) && i < |steps| && StateOf(pair0, steps, i, side) == Up
    ensures StateOf(pair0, steps, i + 1, side) != Up ==>
              && steps[i].side == side && StateOf(pair0, steps, i + 1, side) == Down
              && (steps[i].Expire? || (steps[i].Receive? && steps[i].k < i && StateSent(pair0, steps, i) in {Down, AdminDown}))
  {
    if steps[i].Send? || steps[i].side != side {
      OthersUnmoved(pair0, steps, i, side);
    } else if steps[i].Receive? {
      PacketMoves(pair0, steps, i);
    } else {
      OtherStepsSay(Of(At(pair0, steps, i), side), steps[i].r);
    }
  }

  /** A session in Init that receives a packet sent in Init or Up is Up. */
  lemma InitGetsUp(pair0: Pair, steps: seq<Step>, i: nat)
    requires Start(pair0) && Valid(pair0, steps) && i < |steps| && steps[i].Receive? && steps[i].k < i
    requires StateOf(pair0, steps, i, steps[i].side) == Init && StateSent(pair0, steps, i) in {Init, Up}
    ensures StateOf(pair0, steps, i + 1, steps[i].side) == Up
  {
    PacketMoves(pair0, steps, i);
  }

  /** Packets may be lost or repeated, but do not overtake each other. */
  ghost predicate InOrder(steps: seq<Step>) {
    forall i, j | 0 <= i < j < |steps| && steps[i].Receive? && steps[j].Receive? && steps[i].side == steps[j].side ::
      steps[i].k <= steps[j].k
  }

  ghost predicate NoTimeout(steps: seq<Step>) {
    forall i | 0 <= i < |steps| :: !steps[i].Expire?
  }

  function Rank(s: State): int {
    match s case AdminDown => -1 case Down => 0 case Init => 1 case Up => 2
  }

  lemma EntersUp(pair0: Pair, steps: seq<Step>, i: nat, side: Side)
    requires Start(pair0) && Valid(pair0, steps) && i < |steps|
    requires StateOf(pair0, steps, i, side) != Up && StateOf(pair0, steps, i + 1, side) == Up
    ensures steps[i].Receive? && steps[i].side == side && steps[i].k < i && StateSent(pair0, steps, i) in {Init, Up}
  {
    hide Recv, Sent, AfterSend, TimingOk, Start;
    if steps[i].Send? || steps[i].side != side {
      OthersUnmoved(pair0, steps, i, side);
    } else if steps[i].Receive? {
      PacketMoves(pair0, steps, i);
    } else {
      OtherStepsSay(Of(At(pair0, steps, i), side), steps[i].r);
    }
  }

  /** An Up session was told so by a packet sent in Init or Up. */
  lemma {:induction false} UpWasTold(pair0: Pair, steps: seq<Step>, i: nat, side: Side) returns (j: nat)
    requires Start(pair0) && Valid(pair0, steps) && i <= |steps| && StateOf(pair0, steps, i, side) == Up
    ensures j < i && steps[j].Receive? && steps[j].side == side && steps[j].k < j && StateSent(pair0, steps, j) in {Init, Up}
    decreases i
  {
    hide Recv, TimeOut, AfterSend, Sent, Valid;
    StartTiming(pair0, side);
    if StateOf(pair0, steps, i - 1, side) == Up {
      j := UpWasTold(pair0, steps, i - 1, side);
    } else {
      j := i - 1;
      EntersUp(pair0, steps, j, side);
    }
  }

  /** Without timeouts and overtaking no session ever falls back. */
  lemma {:induction false} NeverBack(pair0: Pair, steps: seq<Step>, i: nat, j: nat, side: Side)
    requires Start(pair0) && Valid(pair0, steps) && InOrder(steps) && NoTimeout(steps) && i <= j <= |steps|
    ensures 0 <= Rank(StateOf(pair0, steps, i, side)) <= Rank(StateOf(pair0, steps, j, side))
    decreases j
  {
    hide StateOf;
    Ranked(pair0, steps, i, side);
    if i < j {
      var n := j - 1;
      NeverBack(pair0, steps, i, n, side);
      if steps[n].Send? || steps[n].side != side {
        OthersUnmoved(pair0, steps, n, side);
      } else {
        PacketMoves(pair0, steps, n);
        var k := steps[n].k;
        Ranked(pair0, steps, k, Peer(side));
        if StateOf(pair0, steps, n, side) == Up {
          var told := UpWasTold(pair0, steps, n, side);
          NeverBack(pair0, steps, steps[told].k, k, Peer(side));
        }
      }
    }
  }

  lemma Ranked(pair0: Pair, steps: seq<Step>, i: nat, side: Side)
    requires Start(pair0) && Valid(pair0, steps) && i <= |steps|
    ensures StateOf(pair0, steps, i, side) != AdminDown
  {
    hide TimingOk;
    TimingOverRuns(pair0, steps, i, side);
    NotAdminDown(Of(At(pair0, steps, i), side));
  }

  /** Whoever has received a packet is no longer Down. */
  lemma HeardSomething(pair0: Pair, steps: seq<Step>, i: nat, j: nat)
    requires Start(pair0) && Valid(pair0, steps) && InOrder(steps) && NoTimeout(steps)
    requires i < j <= |steps| && steps[i].Receive?
    ensures StateOf(pair0, steps, j, steps[i].side) in {Init, Up}
  {
    hide StateOf;
    var side := steps[i].side;
    PacketMoves(pair0, steps, i);
    var k := steps[i].k;
    Ranked(pair0, steps, k, Peer(side));
    if StateOf(pair0, steps, k, Peer(side)) == Up {
      var told := UpWasTold(pair0, steps, k, Peer(side));
      NeverBack(pair0, steps, steps[told].k, i, side);
    }
    NeverBack(pair0, steps, i, i + 1, side);
    NeverBack(pair0, steps, i + 1, j, side);
  }

  /** The handshake succeeds: a session that has received a packet which its peer
      sent after receiving one itself is Up, and stays so. */
  lemma HandshakeSucceeds(pair0: Pair, steps: seq<Step>, j: nat, i: nat, m: nat)
    requires Start(pair0) && Valid(pair0, steps) && InOrder(steps) && NoTimeout(steps)
    requires j < i < m <= |steps| && steps[i].Receive? && steps[j].Receive?
    requires steps[j].side == Peer(steps[i].side) && j < steps[i].k
    ensures StateOf(pair0, steps, m, steps[i].side) == Up
  {
    hide StateOf;
    var side := steps[i].side;
    PacketMoves(pair0, steps, i);
    var k := steps[i].k;
    HeardSomething(pair0, steps, j, k);
    if StateOf(pair0, steps, k, Peer(side)) == Up {
      var told := UpWasTold(pair0, steps, k, Peer(side));
      NeverBack(pair0, steps, steps[told].k, i, side);
    }
    NeverBack(pair0, steps, i + 1, m, side);
  }

  /** So three packets, each sent after the one before has arrived, bring both
      sessions up for good. */
  lemma ThreePackets(pair0: Pair, steps: seq<Step>, a: nat, b: nat, c: nat, m: nat)
    requires Start(pair0) && Valid(pair0, steps) && InOrder(steps) && NoTimeout(steps)
    requires a < b < c < m <= |steps| && steps[a].Receive? && steps[b].Receive? && steps[c].Receive?
    requires steps[a].side == steps[c].side == Peer(steps[b].side) && a < steps[b].k && b < steps[c].k
    ensures StateOf(pair0, steps, m, A) == Up && StateOf(pair0, steps, m, B) == Up
  {
    HandshakeSucceeds(pair0, steps, a, b, m);
    HandshakeSucceeds(pair0, steps, b, c, m);
  }

  /** A session that goes down says why: its detection time expired, or the peer
      signalled it. */
  lemma DownSaysWhy(pair0: Pair, steps: seq<Step>, i: nat, side: Side)
    requires Start(pair0) && Valid(pair0, steps) && i < |steps|
    requires StateOf(pair0, steps, i, side) != Down && StateOf(pair0, steps, i + 1, side) == Down
    ensures Of(At(pair0, steps, i + 1), side).diag ==
            if steps[i].Expire? then DetectTimeExpired else NeighborSignaledDown
  {
    hide Recv, TimeOut, AfterSend, Sent;
    var s := Of(At(pair0, steps, i), side);
    match steps[i]
    case Send(_) => OthersUnmoved(pair0, steps, i, side);
    case Expire(_, r) => OtherStepsDiag(s, r);
    case Receive(_, k, r1, r2) => RecvDiag(s, Sent(Of(At(pair0, steps, k), Peer(side))), r1, r2);
  }

  lemma RecvDiag(s: Session, p: Packet, r1: int, r2: int)
    ensures Recv(s, p, r1, r2).state == Down && s.state != Down ==> Recv(s, p, r1, r2).diag == NeighborSignaledDown
  {
    hide Note, Settle;
    NoteSays(s, p, r1);
    SettleDiag(Move(Note(s, p, r1), p, r2), p);
  }

  lemma SettleDiag(s: Session, p: Packet)
    ensures Settle(s, p).diag == s.diag && Settle(s, p).state == s.state
  {
  }

  lemma OtherStepsDiag(s: Session, r: int)
    ensures TimeOut(s, r).state == Down && s.state != Down ==> TimeOut(s, r).diag == DetectTimeExpired
  {
  }

  // --------------------------------------------------------- polls and timers

  function SentAt(pair0: Pair, steps: seq<Step>, i: nat): Packet
    requires i < |steps| && steps[i].Receive? && steps[i].k < i
  {
    Sent(Of(At(pair0, steps, steps[i].k), Peer(steps[i].side)))
  }

  predicate GetsPoll(pair0: Pair, steps: seq<Step>, i: nat, side: Side)
    requires i < |steps|
  {
    steps[i].Receive? && steps[i].side == side && steps[i].k < i && SentAt(pair0, steps, i).poll
  }

  /** A poll was received and nothing sent since. */
  ghost predicate Unanswered(pair0: Pair, steps: seq<Step>, i: nat, side: Side)
    requires i <= |steps|
  {
    exists j :: 0 <= j < i && GetsPoll(pair0, steps, j, side) && forall l | j < l < i :: steps[l] != Send(side)
  }

  /** What one step does to the poll flags and the detection time. */
  lemma PollStep(pair0: Pair, steps: seq<Step>, i: nat, side: Side)
    requires Start(pair0) && Valid(pair0, steps) && i < |steps|
    ensures var s, s' := Of(At(pair0, steps, i), side), Of(At(pair0, steps, i + 1), side);
            && (s'.pendingFinal <==> GetsPoll(pair0, steps, i, side) || (s.pendingFinal && steps[i] != Send(side)))
            && (GetsPoll(pair0, steps, i, side) ==>
                  s'.detectTime == SentAt(pair0, steps, i).desired * SentAt(pair0, steps, i).mult)
            && (!GetsPoll(pair0, steps, i, side) && s.detectTime > 0 ==> s'.detectTime == s.detectTime)
  {
    hide TimingOk, Sent, Recv, TimeOut, AfterSend;
    assert ValidStep(pair0, steps, i);
    TimingOverRuns(pair0, steps, i, side);
    var s := Of(At(pair0, steps, i), side);
    NotAdminDown(s);
    match steps[i]
    case Send(_) => OtherStepsFlags(s, 0);
    case Expire(_, r) => OtherStepsFlags(s, r);
    case Receive(to, k, r1, r2) =>
      if to == side { RecvFlags(s, SentAt(pair0, steps, i), r1, r2); }
  }

  lemma RecvFlags(s: Session, p: Packet, r1: int, r2: int)
    requires s.state != AdminDown
    ensures var s' := Recv(s, p, r1, r2);
            && s'.pendingFinal == (p.poll || s.pendingFinal)
            && s'.detectTime == if p.poll || s.detectTime == 0 then p.desired * p.mult else s.detectTime
  {
    hide Note, Move, Settle;
    NoteFlags(s, p, r1);
    NoteSays(s, p, r1);
    MoveFlags(Note(s, p, r1), p, r2);
    SettleFlags(Move(Note(s, p, r1), p, r2), p);
  }

  lemma NoteFlags(s: Session, p: Packet, r: int)
    ensures Note(s, p, r).pendingFinal == s.pendingFinal && Note(s, p, r).detectTime == s.detectTime
  {
  }

  lemma MoveFlags(s: Session, p: Packet, r: int)
    ensures Move(s, p, r).pendingFinal == s.pendingFinal && Move(s, p, r).detectTime == s.detectTime
  {
  }

  lemma SettleFlags(s: Session, p: Packet)
    ensures Settle(s, p).pendingFinal == (p.poll || s.pendingFinal)
    ensures Settle(s, p).detectTime == if p.poll || s.detectTime == 0 then p.desired * p.mult else s.detectTime
  {
  }

  lemma OtherStepsFlags(s: Session, r: int)
    ensures TimeOut(s, r).pendingFinal == s.pendingFinal && TimeOut(s, r).detectTime == s.detectTime
    ensures !AfterSend(s).pendingFinal && AfterSend(s).detectTime == s.detectTime
  {
  }

  /** The next packet out carries Final exactly if a poll was received since the
      last one (section 6.8.7 of RFC 5880). */
  lemma {:induction false} FinalAnswersPoll(pair0: Pair, steps: seq<Step>, i: nat, side: Side)
    requires Start(pair0) && Valid(pair0, steps) && i <= |steps|
    ensures Sent(Of(At(pair0, steps, i), side)).final <==> Unanswered(pair0, steps, i, side)
    decreases i
  {
    hide At, GetsPoll;
    if i == 0 {
      FreshSilent(pair0, steps, side);
    } else {
      FinalAnswersPoll(pair0, steps, i - 1, side);
      PollStep(pair0, steps, i - 1, side);
      if Unanswered(pair0, steps, i - 1, side) && steps[i - 1] != Send(side) {
        var j :| 0 <= j < i - 1 && GetsPoll(pair0, steps, j, side) && forall l | j < l < i - 1 :: steps[l] != Send(side);
        assert forall l | j < l < i :: steps[l] != Send(side);
      }
      if GetsPoll(pair0, steps, i - 1, side) { assert Unanswered(pair0, steps, i, side); }
    }
  }

  lemma FreshSilent(pair0: Pair, steps: seq<Step>, side: Side)
    requires Start(pair0)
    ensures !Of(At(pair0, steps, 0), side).pendingFinal
  {
  }

  /** The detection time is that of the last poll received (section 6.8.4). */
  lemma {:induction false} DetectionTimeOfPoll(pair0: Pair, steps: seq<Step>, j: nat, i: nat, side: Side)
    requires Start(pair0) && Valid(pair0, steps) && j < i <= |steps| && GetsPoll(pair0, steps, j, side)
    requires forall l | j < l < i :: !GetsPoll(pair0, steps, l, side)
    requires SentAt(pair0, steps, j).desired * SentAt(pair0, steps, j).mult > 0
    ensures Of(At(pair0, steps, i), side).detectTime == SentAt(pair0, steps, j).desired * SentAt(pair0, steps, j).mult
    decreases i
  {
    hide At, GetsPoll, Sent;
    PollStep(pair0, steps, i - 1, side);
    if j < i - 1 { DetectionTimeOfPoll(pair0, steps, j, i - 1, side); }
  }

  /** An expired detection time takes a session down exactly if it is on its way up
      or up and the time runs. */
  lemma ExpiryTakesDown(pair0: Pair, steps: seq<Step>, i: nat, side: Side)
    requires Start(pair0) && Valid(pair0, steps) && i < |steps| && steps[i].Expire? && steps[i].side == side
    ensures var was, running := StateOf(pair0, steps, i, side), Of(At(pair0, steps, i), side).detectTime > 0;
            StateOf(pair0, steps, i + 1, side) == if was in {Init, Up} && running then Down else was
  {
    hide Recv, AfterSend, TimingOk;
    TimingOverRuns(pair0, steps, i, side);
    NotAdminDown(Of(At(pair0, steps, i), side));
  }

  predicate GetsFinal(pair0: Pair, steps: seq<Step>, i: nat, side: Side)
    requires i < |steps|
  {
    steps[i].Receive? && steps[i].side == side && steps[i].k < i && SentAt(pair0, steps, i).final
  }

  /** The step brings the session to Down or to Up, with other intervals. */
  predicate Changes(pair0: Pair, steps: seq<Step>, i: nat, side: Side)
    requires i < |steps|
  {
    StateOf(pair0, steps, i + 1, side) != StateOf(pair0, steps, i, side) && StateOf(pair0, steps, i + 1, side) in {Down, Up}
  }

  /** Since the session's intervals last changed, or since the start, no packet
      with Final was received and none was sent. */
  predicate Negotiates(pair0: Pair, steps: seq<Step>, i: nat, side: Side)
    requires i <= |steps|
    decreases i
  {
    i == 0 || Changes(pair0, steps, i - 1, side)
    || (Negotiates(pair0, steps, i - 1, side) && !GetsFinal(pair0, steps, i - 1, side)
        && !(steps[i - 1] == Send(side) && Sent(Of(At(pair0, steps, i - 1), side)).final))
  }

  /** The next packet out carries Poll exactly while the session's intervals are
      not agreed on, unless it answers a poll itself (section 6.8.3). */
  lemma PollsUntilFinal(pair0: Pair, steps: seq<Step>, i: nat, side: Side)
    requires Start(pair0) && Valid(pair0, steps) && i <= |steps|
    ensures Sent(Of(At(pair0, steps, i), side)).poll
            <==> Negotiates(pair0, steps, i, side) && !Unanswered(pair0, steps, i, side)
  {
    hide At, Negotiates, Unanswered;
    FinalAnswersPoll(pair0, steps, i, side);
    PollingIs(pair0, steps, i, side);
  }

  lemma {:induction false} PollingIs(pair0: Pair, steps: seq<Step>, i: nat, side: Side)
    requires Start(pair0) && Valid(pair0, steps) && i <= |steps|
    ensures Of(At(pair0, steps, i), side).isPolling <==> Negotiates(pair0, steps, i, side)
    decreases i
  {
    hide At, GetsFinal, Changes, Sent, Valid, Start;
    if i == 0 {
      FreshPolls(pair0, steps, side);
    } else {
      PollingIs(pair0, steps, i - 1, side);
      PollingStep(pair0, steps, i - 1, side);
    }
  }

  lemma FreshPolls(pair0: Pair, steps: seq<Step>, side: Side)
    requires Start(pair0)
    ensures Of(At(pair0, steps, 0), side).isPolling
  {
  }

  lemma PollingStep(pair0: Pair, steps: seq<Step>, i: nat, side: Side)
    requires Start(pair0) && Valid(pair0, steps) && i < |steps|
    ensures var s, s' := Of(At(pair0, steps, i), side), Of(At(pair0, steps, i + 1), side);
            s'.isPolling <==> Changes(pair0, steps, i, side)
                              || (s.isPolling && !GetsFinal(pair0, steps, i, side) && !(steps[i] == Send(side) && Sent(s).final))
  {
    hide TimingOk, Recv, TimeOut, AfterSend;
    assert ValidStep(pair0, steps, i);
    TimingOverRuns(pair0, steps, i, side);
    var s := Of(At(pair0, steps, i), side);
    NotAdminDown(s);
    match steps[i]
    case Send(_) => OtherStepsPoll(s, 0); OtherStepsSay(s, 0);
    case Expire(_, r) => OtherStepsPoll(s, r);
    case Receive(to, k, r1, r2) =>
      if to == side { RecvPolls(s, SentAt(pair0, steps, i), r1, r2); }
  }

  lemma OtherStepsPoll(s: Session, r: int)
    requires s.state != AdminDown
    ensures AfterSend(s).isPolling == (s.isPolling && !s.pendingFinal)
    ensures TimeOut(s, r).isPolling == (s.isPolling || TimeOut(s, r).state != s.state)
    ensures TimeOut(s, r).state != s.state ==> TimeOut(s, r).state == Down
  {
  }

  lemma RecvPolls(s: Session, p: Packet, r1: int, r2: int)
    requires s.state != AdminDown
    ensures var s' := Recv(s, p, r1, r2);
            s'.isPolling == ((s'.state != s.state && s'.state in {Down, Up}) || (s.isPolling && !p.final))
  {
    hide Note, Move, Settle;
    NotePolls(s, p, r1);
    MovePolls(Note(s, p, r1), p, r2);
    SettlePolls(Move(Note(s, p, r1), p, r2), p);
  }

  lemma NotePolls(s: Session, p: Packet, r: int)
    ensures Note(s, p, r).isPolling == (s.isPolling && !p.final) && Note(s, p, r).state == s.state
  {
  }

  lemma MovePolls(s: Session, p: Packet, r: int)
    requires s.state != AdminDown
    ensures var s' := Move(s, p, r); s'.isPolling == (s.isPolling || (s'.state != s.state && s'.state in {Down, Up}))
  {
  }

  lemma SettlePolls(s: Session, p: Packet)
    ensures Settle(s, p).isPolling == s.isPolling && Settle(s, p).state == s.state
  {
  }

  /** Once a packet has arrived, the session knows its peer's discriminator and the
      interval the peer asks for. */
  lemma {:induction false} KnowsPeer(pair0: Pair, steps: seq<Step>, j: nat, i: nat, side: Side)
    requires Start(pair0) && Valid(pair0, steps) && j < i <= |steps| && steps[j].Receive? && steps[j].side == side
    ensures var s, peer := Of(At(pair0, steps, i), side), Of(pair0, Peer(side));
            s.remoteDiscr == peer.discr && s.remoteMinRx == peer.requiredRx
    decreases i
  {
    hide At, Valid, Start;
    KnowsStep(pair0, steps, i - 1, side);
    if j < i - 1 { KnowsPeer(pair0, steps, j, i - 1, side); }
  }

  lemma KnowsStep(pair0: Pair, steps: seq<Step>, i: nat, side: Side)
    requires Valid(pair0, steps) && i < |steps|
    ensures var s, s', peer := Of(At(pair0, steps, i), side), Of(At(pair0, steps, i + 1), side), Of(pair0, Peer(side));
            if steps[i].Receive? && steps[i].side == side then s'.remoteDiscr == peer.discr && s'.remoteMinRx == peer.requiredRx
            else s'.remoteDiscr == s.remoteDiscr && s'.remoteMinRx == s.remoteMinRx
  {
    hide Recv, TimeOut, AfterSend, Sent;
    var s := Of(At(pair0, steps, i), side);
    assert ValidStep(pair0, steps, i);
    match steps[i]
    case Send(_) => OtherStepsKnow(s, 0);
    case Expire(_, r) => OtherStepsKnow(s, r);
    case Receive(to, k, r1, r2) =>
      if to == side {
        SameIdentity(pair0, steps, k, Peer(side));
        RecvKnows(s, Of(At(pair0, steps, k), Peer(side)), r1, r2);
      }
  }

  lemma OtherStepsKnow(s: Session, r: int)
    ensures TimeOut(s, r).remoteDiscr == s.remoteDiscr && TimeOut(s, r).remoteMinRx == s.remoteMinRx
    ensures AfterSend(s).remoteDiscr == s.remoteDiscr && AfterSend(s).remoteMinRx == s.remoteMinRx
    ensures TimeOut(s, r).discr == AfterSend(s).discr == s.discr
    ensures TimeOut(s, r).requiredRx == AfterSend(s).requiredRx == s.requiredRx
  {
  }

  lemma RecvKnows(s: Session, peer: Session, r1: int, r2: int)
    ensures var s' := Recv(s, Sent(peer), r1, r2);
            s'.remoteDiscr == peer.discr && s'.remoteMinRx == peer.requiredRx
  {
    hide Move, Settle;
    var p := Sent(peer);
    MoveKnows(Note(s, p, r1), p, r2);
    SettleKnows(Move(Note(s, p, r1), p, r2), p);
  }

  lemma MoveKnows(s: Session, p: Packet, r: int)
    ensures var s' := Move(s, p, r);
            s'.remoteDiscr == s.remoteDiscr && s'.remoteMinRx == s.remoteMinRx && s'.discr == s.discr && s'.requiredRx == s.requiredRx
  {
  }

  lemma SettleKnows(s: Session, p: Packet)
    ensures var s' := Settle(s, p);
            s'.remoteDiscr == s.remoteDiscr && s'.remoteMinRx == s.remoteMinRx && s'.discr == s.discr && s'.requiredRx == s.requiredRx
  {
  }

  lemma RecvKeepsOwn(s: Session, p: Packet, r1: int, r2: int)
    ensures var s' := Recv(s, p, r1, r2); s'.discr == s.discr && s'.requiredRx == s.requiredRx
  {
    hide Move, Settle;
    MoveKnows(Note(s, p, r1), p, r2);
    SettleKnows(Move(Note(s, p, r1), p, r2), p);
  }

  lemma {:induction false} SameIdentity(pair0: Pair, steps: seq<Step>, i: nat, side: Side)
    requires i <= |steps|
    ensures var s := Of(At(pair0, steps, i), side); s.discr == Of(pair0, side).discr && s.requiredRx == Of(pair0, side).requiredRx
    decreases i
  {
    hide Recv, TimeOut, AfterSend, Sent;
    if i > 0 {
      SameIdentity(pair0, steps, i - 1, side);
      var s := Of(At(pair0, steps, i - 1), side);
      match steps[i - 1]
      case Send(_) => OtherStepsKnow(s, 0);
      case Expire(_, r) => OtherStepsKnow(s, r);
      case Receive(to, k, r1, r2) =>
        if to == side && k < i - 1 { RecvKeepsOwn(s, Sent(Of(At(pair0, steps, k), Peer(side))), r1, r2); }
    }
  }

  // ------------------------------------------------------------------ object

  class BFDSession {
    var state: State
    var remoteState: State
    var diag: Diag
    const discr: nat
    var remoteDiscr: nat
    var desired: nat
    const requiredRx: nat
    var remoteMinRx: int
    var remoteDemand: bool
    const mult: nat
    const cfgDesired: nat
    var detectTime: nat
    var period: int
    var isPolling: bool
    var pendingFinal: bool
    var enableSend: bool

    ghost function Value(): Session
      reads this
    {
      Session(state, remoteState, diag, discr, remoteDiscr, desired, requiredRx, remoteMinRx, remoteDemand, mult,
              cfgDesired, detectTime, period, isPolling, pendingFinal, enableSend)
    }

    constructor (discr: nat, mult: nat, cfgDesired: nat, requiredRx: nat, r: int)
      ensures Value() == Fresh(discr, mult, cfgDesired, requiredRx, r)
    {
      this.discr, this.mult, this.cfgDesired, this.requiredRx := discr, mult, cfgDesired, requiredRx;
      state, remoteState, diag, remoteDiscr := Down, Down, NoDiag, 0;
      desired, remoteMinRx, remoteDemand := ONE_SECOND, -1, false;
      detectTime, isPolling, pendingFinal, enableSend := 0, true, false, true;
      period := ONE_SECOND * r;
    }

    method UpdateXmitPeriod(r: int)
      modifies this`period
      ensures Value() == UpdatePeriod(old(Value()), r)
    {
      if desired > remoteMinRx { period := desired * r; } else { period := remoteMinRx * r; }
    }

    method ChangeState(to: State, diag: Option<Diag>, r: int)
      modifies this
      ensures Value() == SetState(old(Value()), to, diag, r)
    {
      state := to;
      if to == Down {
        if diag.Some? { this.diag := diag.value; }
        desired, isPolling := ONE_SECOND, true;
        UpdateXmitPeriod(r);
      } else if to == Up {
        desired, isPolling := cfgDesired, true;
        UpdateXmitPeriod(r);
      }
    }

    method Receives(p: Packet, r1: int, r2: int)
      modifies this
      ensures Value() == Recv(old(Value()), p, r1, r2)
    {
      hide Note, Move, Settle;
      Notes(p, r1);
      if state == AdminDown { return; }
      MoveOn(p, r2);
      Settles(p);
    }

    method Notes(p: Packet, r: int)
      modifies this
      ensures Value() == Note(old(Value()), p, r)
    {
      remoteDiscr, remoteDemand := p.myDiscr, p.demand;
      if remoteMinRx != p.requiredRx {
        remoteMinRx := p.requiredRx;
        UpdateXmitPeriod(r);
      }
      if p.final && isPolling { isPolling := false; }
    }

    method Settles(p: Packet)
      modifies this
      ensures Value() == Settle(old(Value()), p)
    {
      if remoteDemand && state == Up && remoteState == Up { enableSend := false; }
      if !remoteDemand || state != Up || remoteState != Up { enableSend := true; }
      if detectTime == 0 { detectTime := p.desired * p.mult; }
      if p.poll { pendingFinal, detectTime := true, p.desired * p.mult; }
    }

    /** The state changes of recv, in its order. */
    method MoveOn(p: Packet, r: int)
      requires state != AdminDown
      modifies this
      ensures Value() == Move(old(Value()), p, r)
    {
      if p.state == AdminDown {
        if state != Down { ChangeState(Down, Some(NeighborSignaledDown), r); }
      } else if state == Down {
        if p.state == Down { ChangeState(Init, None, r); } else if p.state == Init { ChangeState(Up, None, r); }
      } else if state == Init {
        if p.state == Init || p.state == Up { ChangeState(Up, None, r); }
      } else {
        if p.state == Down { ChangeState(Down, Some(NeighborSignaledDown), r); }
      }
    }

    method TimesOut(r: int)
      modifies this
      ensures Value() == TimeOut(old(Value()), r)
    {
      if detectTime != 0 && state != Down && state != AdminDown {
        ChangeState(Down, Some(DetectTimeExpired), r);
      }
    }

    method Sends() returns (p: Packet)
      modifies this
      ensures p == Sent(old(Value())) && Value() == AfterSend(old(Value()))
    {
      var final := pendingFinal;
      if pendingFinal { pendingFinal, isPolling := false, false; }
      p := Packet(state, discr, desired, requiredRx, mult, isPolling, final, false);
    }
  }
}

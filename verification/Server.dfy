/** The control server as a value: the connections it owns and what every operation computes.
    `ControlServers.ControlServer` performs these operations in place. */
module Server {
  import opened Optional
  import opened Frames
  import opened Protocol

  const CONNECTION_LIMIT: nat := 64
  const LISTENER_TOKEN: nat := 0
  const U64_MAX: nat := 0xFFFF_FFFF_FFFF_FFFF

  datatype Receipt = Receipt(connection: nat, sequence: nat)

  datatype Settlement = Pending | Drained | Closed

  datatype Peer = Peer(
    token: nat,
    machine: Machine,
    nextSequence: Option<nat>,
    pendingResponse: Option<nat>,
    lastDrained: Option<nat>)

  datatype Server = Server(
    connections: map<nat, Peer>,
    nextConnectionId: Option<nat>,
    nextToken: Option<nat>,
    barrier: Option<Receipt>,
    shuttingDown: bool)

  datatype ReadyEvent = ReadyEvent(token: nat, readable: bool, terminal: bool, writable: bool)

  datatype AcceptResult = Accepted(sameUser: bool) | AcceptRetry | AcceptExhausted | AcceptFailed
  datatype ReceiveResult = Received(bytes: Bytes) | EndOfFile | ReceiveRetry | ReceiveReset | ReceiveFailed
  datatype SendResult = Taken(count: nat) | SendRetry | SendReset | SendFailed

  /** What the socket calls answer, should the server make them. */
  datatype Io = Io(accept: AcceptResult, receive: ReceiveResult, send: SendResult)

  datatype ControlError =
    | ListenerTerminal
    | ResourceExhausted
    | ListenerIo
    | PeerIo(connection: nat)
    | ShuttingDown
    | StaleConnection(connection: nat)
    | ResponseSequenceExhausted(connection: nat)
    | OversizedFrame(connections: set<nat>)
    | BarrierConflict(active: Receipt, requested: Receipt)

  datatype Delivery = Delivery(connection: nat, request: Request)

  datatype Outcome = Outcome(
    server: Server,
    delivery: Option<Delivery>,
    receipt: Option<Receipt>,
    error: Option<ControlError>)

  function Done(s: Server): (o: Outcome) { Outcome(s, None, None, None) }

  function Failed(s: Server, e: ControlError): (o: Outcome) { Outcome(s, None, None, Some(e)) }

  function NewServer(): (s: Server) { Server(map[], Some(1), Some(1), None, false) }

  function CheckedAdd(n: nat): (r: Option<nat>) { if n < U64_MAX then Some(n + 1) else None }

  function Drop(s: Server, id: nat): (r: Server) { s.(connections := s.connections - {id}) }

  function Put(s: Server, id: nat, p: Peer): (r: Server) { s.(connections := s.connections[id := p]) }

  /** No two connections share a token: part of what every reachable server keeps. */
  predicate TokensDistinct(connections: map<nat, Peer>) {
    forall a, b :: a in connections && b in connections && connections[a].token == connections[b].token ==> a == b
  }

  predicate Due(p: Peer, now: Instant) { Expire(p.machine, now).action.Close? }

  function ExpireAll(s: Server, now: Instant): (r: Server) {
    s.(connections := map id | id in s.connections && !Due(s.connections[id], now) :: s.connections[id])
  }

  function AcceptOne(s: Server, now: Instant, a: AcceptResult): (o: Outcome) {
    match a
    case AcceptRetry => Done(s)
    case AcceptExhausted => Failed(s, ResourceExhausted)
    case AcceptFailed => Failed(s, ListenerIo)
    case Accepted(sameUser) =>
      if !sameUser || |s.connections| == CONNECTION_LIMIT || s.nextConnectionId.None? || s.nextToken.None?
      then Done(s)
      else
        var (id, token) := (s.nextConnectionId.value, s.nextToken.value);
        var s1 := s.(nextConnectionId := CheckedAdd(id), nextToken := CheckedAdd(token));
        Done(Put(s1, id, Peer(token, New(now), Some(1), None, None)))
  }

  function ApplyAction(s: Server, id: nat, a: Action): (o: Outcome) {
    match a
    case NoAction => Done(s)
    case Emit(request) => Done(s).(delivery := Some(Delivery(id, request)))
    case OutboundFrameTooLarge => Done(Drop(s, id))
    case Close(_) => Done(Drop(s, id))
  }

  function ReceiveOne(w: Wire, s: Server, now: Instant, id: nat, r: ReceiveResult): (o: Outcome)
    requires id in s.connections
  {
    var p := s.connections[id];
    match r
    case ReceiveRetry => Done(s)
    case ReceiveReset => Done(Drop(s, id))
    case ReceiveFailed => Failed(Drop(s, id), PeerIo(id))
    case EndOfFile =>
      var n := ReadEof(p.machine);
      ApplyAction(Put(s, id, p.(machine := n.machine)), id, n.action)
    case Received(bytes) =>
      var n := Ingest(w, p.machine, now, bytes);
      ApplyAction(Put(s, id, p.(machine := n.machine)), id, n.action)
  }

  /** A pending receipt settles once nothing of its response is left to send. */
  function Settle(p: Peer): (r: Peer) {
    if p.machine.output.None? && p.pendingResponse.Some?
    then p.(pendingResponse := None, lastDrained := p.pendingResponse) else p
  }

  function SendOne(w: Wire, s: Server, now: Instant, id: nat, r: SendResult): (o: Outcome)
    requires id in s.connections
  {
    var p := s.connections[id];
    match r
    case SendRetry => Done(s)
    case SendReset => Done(Drop(s, id))
    case SendFailed => Failed(Drop(s, id), PeerIo(id))
    case Taken(count) =>
      var n := AdvanceOutput(w, p.machine, now, count);
      var p1 := p.(machine := n.machine);
      ApplyAction(Put(s, id, if n.action.Close? then p1 else Settle(p1)), id, n.action)
  }

  function ResponseSettlement(s: Server, r: Receipt): (x: Settlement) {
    if r.connection !in s.connections then Closed
    else
      var p := s.connections[r.connection];
      if p.pendingResponse == Some(r.sequence) then Pending
      else if p.lastDrained.Some? && r.sequence <= p.lastDrained.value then Drained
      else Closed
  }

  predicate HasToken(s: Server, id: nat, token: nat) {
    id in s.connections && s.connections[id].token == token
  }

  ghost function FindToken(s: Server, token: nat): (r: Option<nat>)
    ensures r.Some? ==> HasToken(s, r.value, token)
    ensures r.None? ==> forall id :: !HasToken(s, id, token)
  {
    if exists id :: HasToken(s, id, token) then var id :| HasToken(s, id, token); Some(id) else None
  }

  /** Under a barrier only its own connection is served, and only by sending. */
  function ServiceBarrier(w: Wire, s: Server, now: Instant, receipt: Receipt, ready: ReadyEvent, io: Io): (o: Outcome) {
    if ResponseSettlement(s, receipt) != Pending then Done(s)
    else if s.connections[receipt.connection].token != ready.token then Done(s)
    else if ready.terminal then Done(Drop(s, receipt.connection))
    else if ready.writable then SendOne(w, s, now, receipt.connection, io.send)
    else Done(s)
  }

  function ServiceListener(s: Server, now: Instant, ready: ReadyEvent, io: Io): (o: Outcome) {
    if s.shuttingDown then Done(s)
    else if ready.terminal then Failed(s, ListenerTerminal)
    else if !ready.readable then Done(s)
    else AcceptOne(s, now, io.accept)
  }

  function ServicePeer(w: Wire, s: Server, now: Instant, id: nat, ready: ReadyEvent, io: Io): (o: Outcome)
    requires id in s.connections
  {
    var m := s.connections[id].machine;
    if ready.readable && InputEnabled(m) then ReceiveOne(w, s, now, id, io.receive)
    else if ready.terminal then Done(Drop(s, id))
    else if ready.writable && m.output.Some? then SendOne(w, s, now, id, io.send)
    else Done(s)
  }

  ghost function ServiceOne(w: Wire, s: Server, now: Instant, ready: ReadyEvent, io: Io): (o: Outcome) {
    var s1 := ExpireAll(s, now);
    if s1.barrier.Some? then ServiceBarrier(w, s1, now, s1.barrier.value, ready, io)
    else if ready.token == LISTENER_TOKEN then ServiceListener(s1, now, ready, io)
    else match FindToken(s1, ready.token)
      case None => Done(s1)
      case Some(id) => ServicePeer(w, s1, now, id, ready, io)
  }

  function CompleteOne(s: Server, now: Instant, id: nat, response: Text): (o: Outcome) {
    if s.shuttingDown then Failed(s, ShuttingDown)
    else if id !in s.connections then Failed(s, StaleConnection(id))
    else
      var p := s.connections[id];
      if p.nextSequence.None? then Failed(Drop(s, id), ResponseSequenceExhausted(id))
      else
        var n := CompleteRequest(p.machine, now, response);
        if n.action.OutboundFrameTooLarge? then Failed(Drop(s, id), OversizedFrame({id}))
        else
          var sequence := p.nextSequence.value;
          var p1 := p.(machine := n.machine, pendingResponse := Some(sequence), nextSequence := CheckedAdd(sequence));
          Done(Put(s, id, p1)).(receipt := Some(Receipt(id, sequence)))
  }

  function BeginBarrier(s: Server, r: Receipt): (o: Outcome) {
    if ResponseSettlement(s, r) != Pending then Done(s)
    else match s.barrier
      case None => Done(s.(barrier := Some(r)))
      case Some(active) => if active != r then Failed(s, BarrierConflict(active, r)) else Done(s)
  }

  function AcceptSubscription(s: Server, now: Instant, id: nat, state: Text): (o: Outcome) {
    if s.shuttingDown then Failed(s, ShuttingDown)
    else if id !in s.connections then Failed(s, StaleConnection(id))
    else
      var p := s.connections[id];
      var n := CompleteSubscribe(p.machine, now, state);
      if n.action.OutboundFrameTooLarge? then Failed(Drop(s, id), OversizedFrame({id}))
      else Done(Put(s, id, p.(machine := n.machine)))
  }

  predicate Listens(p: Peer) { p.machine.phase.Subscriber? }

  function Subscribers(s: Server): (ids: set<nat>) {
    set id | id in s.connections && Listens(s.connections[id])
  }

  /** What a publication leaves of one connection. */
  function PublishTo(p: Peer, now: Instant, frame: Bytes): (n: Next) {
    if Listens(p) then PublishState(p.machine, now, frame) else Next(p.machine, NoAction)
  }

  /** The connections once the frame was offered to those among `ids`. */
  function Published(connections: map<nat, Peer>, ids: set<nat>, now: Instant, frame: Bytes): (r: map<nat, Peer>) {
    map id | id in connections && (id in ids ==> !PublishTo(connections[id], now, frame).action.Close?) ::
      if id in ids then connections[id].(machine := PublishTo(connections[id], now, frame).machine) else connections[id]
  }

  function PublishAll(s: Server, now: Instant, state: Text): (o: Outcome) {
    var ids := Subscribers(s);
    if s.shuttingDown then Failed(s, ShuttingDown)
    else if ids == {} then Done(s)
    else match Encode(state)
      case None => Failed(s.(connections := s.connections - ids), OversizedFrame(ids))
      case Some(frame) =>
        Done(s.(connections := Published(s.connections, s.connections.Keys, now, frame)))
  }

  function ShutdownAll(w: Wire, s: Server, now: Instant): (r: Server) {
    if s.shuttingDown then s
    else
      s.(barrier := None, shuttingDown := true, connections :=
        map id | id in s.connections && !BeginShutdown(w, s.connections[id].machine, now).action.Close? ::
          s.connections[id].(machine := BeginShutdown(w, s.connections[id].machine, now).machine))
  }

  predicate ShutdownComplete(s: Server) { s.shuttingDown && s.connections == map[] }

  datatype Interest = Interest(token: nat, readable: bool, writable: bool)

  function PeerInterest(s: Server, id: nat): (i: Option<Interest>)
    requires id in s.connections
  {
    var p := s.connections[id];
    var writable := p.machine.output.Some?;
    match s.barrier
    case None => Some(Interest(p.token, InputEnabled(p.machine), writable))
    case Some(r) =>
      if r.connection == id && p.pendingResponse == Some(r.sequence)
      then Some(Interest(p.token, false, writable)) else None
  }

  function InterestsOf(s: Server, ids: set<nat>): (interests: set<Interest>) {
    set id | id in ids && id in s.connections && PeerInterest(s, id).Some? :: PeerInterest(s, id).value
  }

  /** What the event loop should wait for. */
  function PollInterests(s: Server): (interests: set<Interest>) {
    (if !s.shuttingDown && s.barrier.None? then {Interest(LISTENER_TOKEN, true, false)} else {}) +
    InterestsOf(s, s.connections.Keys)
  }

  /** Whether the event loop must wake for one connection's deadline. */
  predicate Wakes(s: Server, id: nat)
    requires id in s.connections
  {
    && NextDeadline(s.connections[id].machine).Some?
    && (s.barrier.Some? ==> s.barrier.value.connection == id &&
                            s.connections[id].pendingResponse == Some(s.barrier.value.sequence))
  }

  function Deadlines(s: Server): (ds: set<Instant>) {
    set id | id in s.connections && Wakes(s, id) :: NextDeadline(s.connections[id].machine).value
  }
}

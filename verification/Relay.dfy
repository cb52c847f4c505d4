/** The bidirectional stream relay of the macOS network broker. Sockets, poll and the
    clock answer as they please; the two buffers are changed in place. */
module Relay {
  import opened Common

  type Byte = b: int | 0 <= b < 256

  const BUFFER_SIZE := 65536
  const IDLE_TIMEOUT_MS := 8 * 60 * 60 * 1000
  const HALF_CLOSE_IDLE_MS := 5000
  const INT_MAX := 0x7FFF_FFFF

  datatype Errno = ConnReset | Interrupted | Again | WouldBlock | NotConn | Invalid | BrokenPipe
                 | BadFd | IoError | OtherErrno(code: int)

  /** What `recv` would deliver if given enough room. Delivering nothing is a count of
      zero, which the caller takes for the end of the stream. */
  datatype RecvReply = Bytes(offered: seq<Byte>) | RecvFailed(errno: Errno)

  /** How many bytes `send` would take at most. */
  datatype SendReply = Takes(limit: nat) | SendFailed(errno: Errno)

  datatype ShutReply = ShutOk | ShutFailed(errno: Errno)

  predicate Retryable(e: Errno) { e == Interrupted || e == Again || e == WouldBlock }

  // ----- what each operation does to one direction -----

  /** One direction as a value: everything its source has delivered and its target has
      taken, where the window ends in the buffer, and how far the direction is closed. */
  datatype Dir = Dir(received: seq<Byte>, sent: seq<Byte>, end: nat, eof: bool, shut: bool)

  const EMPTY := Dir([], [], 0, false, false)

  function Waiting(d: Dir): int { |d.received| - |d.sent| }

  /** What was sent is the front of what was received, the rest fits the buffer, and a
      target is shut down only after the end of the stream with nothing left to send. */
  predicate DirOk(d: Dir) {
    && d.sent <= d.received && Waiting(d) <= d.end <= BUFFER_SIZE
    && (d.shut ==> d.eof && d.sent == d.received)
  }

  /** Grows with every byte in, byte out, end of stream and shutdown. */
  function Amount(d: Dir): nat {
    |d.received| + |d.sent| + (if d.eof then 1 else 0) + (if d.shut then 1 else 0)
  }

  function Compacted(d: Dir): (r: Dir)
    requires DirOk(d)
    ensures DirOk(r)
  {
    if Waiting(d) == 0 then d.(end := 0)
    else if d.end == BUFFER_SIZE && Waiting(d) < BUFFER_SIZE then d.(end := Waiting(d))
    else d
  }

  /** Room for the next `recv`, once the buffer has been compacted. */
  function Room(d: Dir): nat
    requires DirOk(d)
  {
    BUFFER_SIZE - Compacted(d).end
  }

  datatype Done = Done(dir: Dir, error: Option<Errno>, progress: bool)

  function Read(d: Dir, reply: RecvReply): (r: Done)
    requires DirOk(d)
    ensures DirOk(r.dir)
  {
    var d := Compacted(d);
    if d.eof || d.end == BUFFER_SIZE then Done(d, None, false)
    else match reply
      case Bytes(offered) =>
        var count := Min(|offered|, BUFFER_SIZE - d.end);
        if count > 0 then Done(d.(received := d.received + offered[..count], end := d.end + count), None, true)
        else Done(d.(eof := true), None, true)
      case RecvFailed(errno) =>
        if errno == ConnReset then Done(d.(eof := true), None, true)
        else Done(d, if Retryable(errno) then None else Some(errno), false)
  }

  function Write(d: Dir, reply: SendReply): (r: Done)
    requires DirOk(d)
    ensures DirOk(r.dir)
  {
    if Waiting(d) == 0 then Done(d, None, false)
    else match reply
      case Takes(limit) =>
        var count := Min(limit, Waiting(d));
        if count > 0 then Done(Compacted(d.(sent := d.received[..|d.sent| + count])), None, true)
        else Done(d, Some(BrokenPipe), false)
      case SendFailed(errno) => Done(d, if Retryable(errno) then None else Some(errno), false)
  }

  function Finish(d: Dir, reply: ShutReply): (r: Done)
    requires DirOk(d)
    ensures DirOk(r.dir)
  {
    if !d.eof || Waiting(d) != 0 || d.shut then Done(d, None, false)
    else if reply.ShutFailed? && reply.errno != NotConn && reply.errno != Invalid then Done(d, Some(reply.errno), false)
    else Done(d.(shut := true), None, true)
  }

  /** `d'` can follow `d`: nothing is taken back, an ended stream brings no more bytes,
      and a target that was shut down gets none. */
  predicate Follows(d: Dir, d': Dir) {
    && d.received <= d'.received && d.sent <= d'.sent && DirOk(d')
    && (d.eof ==> d'.eof && d'.received == d.received)
    && (d.shut ==> d'.shut && d'.sent == d.sent && d'.received == d.received)
  }

  lemma CompactedFollows(d: Dir)
    requires DirOk(d)
    ensures Follows(d, Compacted(d)) && Amount(Compacted(d)) == Amount(d)
    ensures Compacted(d).end == BUFFER_SIZE ==> Waiting(d) == BUFFER_SIZE
  {
  }

  /** A read appends what fits, in order, and takes nothing for the end of the stream but
      an empty or reset `recv` that had room to fill. */
  lemma ReadFollows(d: Dir, reply: RecvReply)
    requires DirOk(d)
    ensures var done := Read(d, reply);
      && Follows(d, done.dir) && done.dir.sent == d.sent && done.dir.shut == d.shut
      && done.dir.received == d.received
           + (if d.eof || reply.RecvFailed? then [] else reply.offered[..Min(|reply.offered|, Room(d))])
      && (done.dir.eof <==> d.eof || (Room(d) > 0 && (reply == Bytes([]) || reply == RecvFailed(ConnReset))))
      && (done.progress <==> Amount(done.dir) > Amount(d)) && Amount(done.dir) >= Amount(d)
      && (done.error.Some? ==> reply == RecvFailed(done.error.value))
  {
  }

  /** A write takes a non-empty front of the window, or nothing. */
  lemma WriteFollows(d: Dir, reply: SendReply)
    requires DirOk(d)
    ensures var done := Write(d, reply);
      && Follows(d, done.dir) && done.dir.received == d.received && done.dir.eof == d.eof && done.dir.shut == d.shut
      && done.dir.sent == d.received[..|d.sent| + if reply.Takes? then Min(reply.limit, Waiting(d)) else 0]
      && (done.progress <==> Amount(done.dir) > Amount(d)) && Amount(done.dir) >= Amount(d)
  {
  }

  /** A target is shut down once, after the end of the stream, with everything delivered. */
  lemma FinishFollows(d: Dir, reply: ShutReply)
    requires DirOk(d)
    ensures var done := Finish(d, reply);
      && Follows(d, done.dir) && done.dir == d.(shut := done.dir.shut)
      && (done.error.None? ==> (done.dir.shut <==> d.eof && d.sent == d.received))
      && (done.error.Some? ==> reply == ShutFailed(done.error.value) && done.dir == d)
      && (done.progress <==> Amount(done.dir) > Amount(d)) && Amount(done.dir) >= Amount(d)
  {
  }

  // ----- the buffer object -----

  /** One direction. `received` and `sent` are everything its source has delivered and
      its target has taken; the window between them lies in the array. */
  class RelayBuffer {
    const data: array<Byte>
    var start: nat
    var end: nat
    var sourceEof: bool
    var targetShutdown: bool
    ghost var received: seq<Byte>
    ghost var sent: seq<Byte>

    ghost predicate Valid()
      reads this, data
    {
      && data.Length == BUFFER_SIZE
      && start <= end <= BUFFER_SIZE
      && received == sent + data[start..end]
      && (targetShutdown ==> sourceEof && start == end)
    }

    ghost function View(): (d: Dir)
      requires Valid()
      reads this, data
      ensures DirOk(d) && Waiting(d) == end - start && d.received[|d.sent|..] == data[start..end]
    {
      Dir(received, sent, end, sourceEof, targetShutdown)
    }

    constructor ()
      ensures Valid() && fresh(data) && View() == EMPTY
    {
      data := new Byte[BUFFER_SIZE](_ => 0);
      start, end, sourceEof, targetShutdown := 0, 0, false, false;
      received, sent := [], [];
    }

    method Compact()
      requires Valid()
      modifies this`start, this`end, data
      ensures Valid() && View() == Compacted(old(View()))
      ensures data[start..end] == old(data[start..end])
    {
      if start == end {
        start, end := 0, 0;
      } else if end == BUFFER_SIZE && start > 0 {
        var length := end - start;
        forall i | 0 <= i < length {
          data[i] := data[start + i];
        }
        assert data[..length] == old(data[start..end]);
        start, end := 0, length;
      }
    }

    /** Puts received bytes behind the window. */
    method Append(bytes: seq<Byte>)
      requires Valid() && !sourceEof && |bytes| <= BUFFER_SIZE - end
      modifies this`end, this`received, data
      ensures Valid() && end == old(end) + |bytes| && received == old(received) + bytes
    {
      ghost var window := data[start..end];
      forall i | 0 <= i < |bytes| {
        data[end + i] := bytes[i];
      }
      assert data[start..end + |bytes|] == window + bytes;
      end := end + |bytes|;
      received := received + bytes;
    }

    /** A `recv` is issued only with room for at least one byte, so a count of zero
        always means the end of the stream. */
    method ReadData(reply: RecvReply) returns (error: Option<Errno>, progress: bool)
      requires Valid()
      modifies this`start, this`end, this`sourceEof, this`received, data
      ensures Valid() && Done(View(), error, progress) == Read(old(View()), reply)
    {
      error, progress := None, false;
      Compact();
      if sourceEof || end == BUFFER_SIZE {
        return;
      }
      match reply {
        case Bytes(offered) =>
          var count := Min(|offered|, BUFFER_SIZE - end);
          if count > 0 {
            Append(offered[..count]);
          } else {
            sourceEof := true;
          }
          progress := true;
        case RecvFailed(errno) =>
          if errno == ConnReset {
            sourceEof := true;
            progress := true;
          } else if !Retryable(errno) {
            error := Some(errno);
          }
      }
    }

    /** Takes a prefix off the window. */
    method Drop(count: nat)
      requires Valid() && 0 < count <= end - start
      modifies this`start, this`sent
      ensures Valid() && View() == old(View()).(sent := old(received)[..|old(sent)| + count])
    {
      ghost var window := data[start..end];
      assert window == window[..count] + window[count..];
      assert data[start + count..end] == window[count..];
      sent := sent + window[..count];
      start := start + count;
    }

    /** Sends a non-empty prefix of the window, or nothing. */
    method WriteData(reply: SendReply) returns (error: Option<Errno>, progress: bool)
      requires Valid()
      modifies this`start, this`end, this`sent, data
      ensures Valid() && Done(View(), error, progress) == Write(old(View()), reply)
    {
      error, progress := None, false;
      var length := end - start;
      if length == 0 {
        return;
      }
      match reply {
        case Takes(limit) =>
          var count := Min(limit, length);
          if count > 0 {
            Drop(count);
            Compact();
            progress := true;
          } else {
            error := Some(BrokenPipe);
          }
        case SendFailed(errno) =>
          if !Retryable(errno) {
            error := Some(errno);
          }
      }
    }

    /** Shuts the target down once the source has ended and everything is delivered. */
    method FinishDirection(reply: ShutReply) returns (error: Option<Errno>, progress: bool)
      requires Valid()
      modifies this`targetShutdown
      ensures Valid() && Done(View(), error, progress) == Finish(old(View()), reply)
    {
      error, progress := None, false;
      if !sourceEof || end - start != 0 || targetShutdown {
        return;
      }
      if reply.ShutFailed? && reply.errno != NotConn && reply.errno != Invalid {
        return Some(reply.errno), false;
      }
      targetShutdown := true;
      progress := true;
    }
  }

  // ----- one turn of the poll loop -----

  datatype Revents = Revents(readable: bool, writable: bool, hangup: bool, fault: bool, invalid: bool)

  const NO_EVENTS := Revents(false, false, false, false, false)

  datatype PollReply = TimedOut | PollFailed(errno: Errno) | Ready(local: Revents, remote: Revents)

  /** Everything the outside answers during one turn. */
  datatype Round = Round(
    shutRemote: ShutReply, shutLocal: ShutReply, stampClock: nat, nowClock: nat, poll: PollReply,
    recvLocal: RecvReply, recvRemote: RecvReply, sendLocal: SendReply, sendRemote: SendReply, endClock: nat)

  /** A call of `poll`: the interests registered, and the timeout. */
  datatype PollCall = PollCall(localIn: bool, localOut: bool, remoteIn: bool, remoteOut: bool, timeout: int)

  datatype Exit = BothShut | IdleOut | Failed(errno: Errno) | StillRunning

  datatype Pair = Pair(toRemote: Dir, toLocal: Dir)

  datatype Effect = Effect(pair: Pair, error: Option<Errno>, progress: bool)

  /** The two directions and the clock reading of the last progress. */
  datatype State = State(pair: Pair, last: nat)

  datatype Turn = Turn(exit: Exit, state: State, call: Option<PollCall>)

  predicate PairOk(p: Pair) { DirOk(p.toRemote) && DirOk(p.toLocal) }

  function Total(p: Pair): nat { Amount(p.toRemote) + Amount(p.toLocal) }

  function BothCompacted(p: Pair): (r: Pair)
    requires PairOk(p)
    ensures PairOk(r)
  {
    Pair(Compacted(p.toRemote), Compacted(p.toLocal))
  }

  function Finishing(p: Pair, round: Round): (r: Effect)
    requires PairOk(p)
    ensures PairOk(r.pair)
  {
    var r := Finish(p.toRemote, round.shutRemote);
    if r.error.Some? then Effect(Pair(r.dir, p.toLocal), r.error, r.progress)
    else
      var l := Finish(p.toLocal, round.shutLocal);
      Effect(Pair(r.dir, l.dir), l.error, r.progress || l.progress)
  }

  function Reading(p: Pair, round: Round, local: Revents, remote: Revents): (r: Effect)
    requires PairOk(p)
    ensures PairOk(r.pair)
  {
    var r := if local.readable || local.hangup then Read(p.toRemote, round.recvLocal) else Done(p.toRemote, None, false);
    if r.error.Some? then Effect(Pair(r.dir, p.toLocal), r.error, r.progress)
    else
      var l := if remote.readable || remote.hangup then Read(p.toLocal, round.recvRemote) else Done(p.toLocal, None, false);
      Effect(Pair(r.dir, l.dir), l.error, r.progress || l.progress)
  }

  function Writing(p: Pair, round: Round, local: Revents, remote: Revents): (r: Effect)
    requires PairOk(p)
    ensures PairOk(r.pair)
  {
    var l := if local.writable then Write(p.toLocal, round.sendLocal) else Done(p.toLocal, None, false);
    if l.error.Some? then Effect(Pair(p.toRemote, l.dir), l.error, l.progress)
    else
      var r := if remote.writable then Write(p.toRemote, round.sendRemote) else Done(p.toRemote, None, false);
      Effect(Pair(r.dir, l.dir), r.error, l.progress || r.progress)
  }

  /** What poll may report on a descriptor: only requested readiness, and nothing at
      all on one that is not being watched. */
  function Reported(wantIn: bool, wantOut: bool, offered: Revents): Revents {
    if !wantIn && !wantOut then NO_EVENTS
    else offered.(readable := wantIn && offered.readable, writable := wantOut && offered.writable)
  }

  /** Acts on what poll reports for the interests that were registered. */
  function Serving(p: Pair, round: Round, call: PollCall): (r: Effect)
    requires PairOk(p)
    ensures PairOk(r.pair)
  {
    match round.poll
    case TimedOut => Effect(p, None, false)
    case PollFailed(errno) => Effect(p, if errno == Interrupted then None else Some(errno), false)
    case Ready(offeredLocal, offeredRemote) =>
      var local := Reported(call.localIn, call.localOut, offeredLocal);
      var remote := Reported(call.remoteIn, call.remoteOut, offeredRemote);
      if local.invalid || remote.invalid then Effect(p, Some(BadFd), false)
      else if local.fault || remote.fault then Effect(p, Some(IoError), false)
      else
        var read := Reading(p, round, local, remote);
        if read.error.Some? then read
        else
          var written := Writing(read.pair, round, local, remote);
          written.(progress := read.progress || written.progress)
  }

  function Limit(p: Pair): nat {
    if p.toRemote.eof || p.toLocal.eof then HALF_CLOSE_IDLE_MS else IDLE_TIMEOUT_MS
  }

  function Idle(last: nat, now: nat): nat { if now >= last then now - last else 0 }

  function Registered(p: Pair, last: nat, now: nat): PollCall {
    PollCall(!p.toRemote.eof && p.toRemote.end < BUFFER_SIZE, Waiting(p.toLocal) > 0,
             !p.toLocal.eof && p.toLocal.end < BUFFER_SIZE, Waiting(p.toRemote) > 0,
             Min(INT_MAX, Limit(p) - Idle(last, now)))
  }

  function Step(s: State, round: Round): (t: Turn)
    requires PairOk(s.pair)
    ensures PairOk(t.state.pair)
  {
    var finished := Finishing(s.pair, round);
    if finished.error.Some? then Turn(Failed(finished.error.value), State(finished.pair, s.last), None)
    else
      var last := if finished.progress then round.stampClock else s.last;
      if finished.pair.toRemote.shut && finished.pair.toLocal.shut then Turn(BothShut, State(finished.pair, last), None)
      else
        var p := BothCompacted(finished.pair);
        if Idle(last, round.nowClock) >= Limit(p) then Turn(IdleOut, State(p, last), None)
        else
          var call := Registered(p, last, round.nowClock);
          var served := Serving(p, round, call);
          if served.error.Some? then Turn(Failed(served.error.value), State(served.pair, last), Some(call))
          else
            var stamped := round.poll.Ready? && (finished.progress || served.progress);
            Turn(StillRunning, State(served.pair, if stamped then round.endClock else last), Some(call))
  }

  // ----- the loop over the buffer objects -----

  ghost predicate Separate(a: RelayBuffer, b: RelayBuffer) { a != b && a.data != b.data }

  ghost function Views(toRemote: RelayBuffer, toLocal: RelayBuffer): (p: Pair)
    requires toRemote.Valid() && toLocal.Valid()
    reads toRemote, toRemote.data, toLocal, toLocal.data
    ensures PairOk(p)
  {
    Pair(toRemote.View(), toLocal.View())
  }

  method FinishBoth(toRemote: RelayBuffer, toLocal: RelayBuffer, round: Round)
    returns (error: Option<Errno>, progress: bool)
    requires Separate(toRemote, toLocal) && toRemote.Valid() && toLocal.Valid()
    modifies toRemote`targetShutdown, toLocal`targetShutdown
    ensures toRemote.Valid() && toLocal.Valid()
    ensures Effect(Views(toRemote, toLocal), error, progress) == Finishing(old(Views(toRemote, toLocal)), round)
  {
    error, progress := toRemote.FinishDirection(round.shutRemote);
    if error.None? {
      var more;
      error, more := toLocal.FinishDirection(round.shutLocal);
      progress := progress || more;
    }
  }

  /** Reads wherever poll reported data or a hang-up, until something fails. */
  method ReadBoth(toRemote: RelayBuffer, toLocal: RelayBuffer, round: Round, local: Revents, remote: Revents)
    returns (error: Option<Errno>, progress: bool)
    requires Separate(toRemote, toLocal) && toRemote.Valid() && toLocal.Valid()
    modifies toRemote`start, toRemote`end, toRemote`sourceEof, toRemote`received, toRemote.data
    modifies toLocal`start, toLocal`end, toLocal`sourceEof, toLocal`received, toLocal.data
    ensures toRemote.Valid() && toLocal.Valid()
    ensures Effect(Views(toRemote, toLocal), error, progress)
         == Reading(old(Views(toRemote, toLocal)), round, local, remote)
  {
    hide Read;
    error, progress := None, false;
    if local.readable || local.hangup {
      error, progress := toRemote.ReadData(round.recvLocal);
    }
    if error.None? && (remote.readable || remote.hangup) {
      var more;
      error, more := toLocal.ReadData(round.recvRemote);
      progress := progress || more;
    }
  }

  /** Writes wherever poll reported room, until something fails. */
  method WriteBoth(toRemote: RelayBuffer, toLocal: RelayBuffer, round: Round, local: Revents, remote: Revents)
    returns (error: Option<Errno>, progress: bool)
    requires Separate(toRemote, toLocal) && toRemote.Valid() && toLocal.Valid()
    modifies toRemote`start, toRemote`end, toRemote`sent, toRemote.data
    modifies toLocal`start, toLocal`end, toLocal`sent, toLocal.data
    ensures toRemote.Valid() && toLocal.Valid()
    ensures Effect(Views(toRemote, toLocal), error, progress)
         == Writing(old(Views(toRemote, toLocal)), round, local, remote)
  {
    hide Write;
    error, progress := None, false;
    if local.writable {
      error, progress := toLocal.WriteData(round.sendLocal);
    }
    if error.None? && remote.writable {
      var more;
      error, more := toRemote.WriteData(round.sendRemote);
      progress := progress || more;
    }
  }

  /** Compacts both buffers and registers what to wait for; gives up, or sets the poll
      timeout, by the idle time. */
  method Await(toRemote: RelayBuffer, toLocal: RelayBuffer, last: nat, now: nat) returns (call: Option<PollCall>)
    requires Separate(toRemote, toLocal) && toRemote.Valid() && toLocal.Valid()
    modifies toRemote`start, toRemote`end, toLocal`start, toLocal`end, toRemote.data, toLocal.data
    ensures toRemote.Valid() && toLocal.Valid()
    ensures Views(toRemote, toLocal) == BothCompacted(old(Views(toRemote, toLocal)))
    ensures call == if Idle(last, now) >= Limit(Views(toRemote, toLocal)) then None
                    else Some(Registered(Views(toRemote, toLocal), last, now))
  {
    toRemote.Compact();
    toLocal.Compact();
    var localIn := !toRemote.sourceEof && toRemote.end < BUFFER_SIZE;
    var localOut := toLocal.end - toLocal.start > 0;
    var remoteIn := !toLocal.sourceEof && toLocal.end < BUFFER_SIZE;
    var remoteOut := toRemote.end - toRemote.start > 0;
    var limit := if toRemote.sourceEof || toLocal.sourceEof then HALF_CLOSE_IDLE_MS else IDLE_TIMEOUT_MS;
    var idle := if now >= last then now - last else 0;
    if idle >= limit {
      return None;
    }
    var timeout := if limit - idle > INT_MAX then INT_MAX else limit - idle;
    call := Some(PollCall(localIn, localOut, remoteIn, remoteOut, timeout));
  }

  /** Acts on poll's answer. */
  method Serve(toRemote: RelayBuffer, toLocal: RelayBuffer, round: Round, call: PollCall)
    returns (error: Option<Errno>, progress: bool)
    requires Separate(toRemote, toLocal) && toRemote.Valid() && toLocal.Valid()
    modifies toRemote, toLocal, toRemote.data, toLocal.data
    ensures toRemote.Valid() && toLocal.Valid()
    ensures Effect(Views(toRemote, toLocal), error, progress) == Serving(old(Views(toRemote, toLocal)), round, call)
  {
    hide Reading, Writing;
    error, progress := None, false;
    match round.poll {
      case TimedOut =>
      case PollFailed(errno) =>
        if errno != Interrupted {
          error := Some(errno);
        }
      case Ready(offeredLocal, offeredRemote) =>
        var local := Reported(call.localIn, call.localOut, offeredLocal);
        var remote := Reported(call.remoteIn, call.remoteOut, offeredRemote);
        if local.invalid || remote.invalid {
          return Some(BadFd), false;
        }
        if local.fault || remote.fault {
          return Some(IoError), false;
        }
        error, progress := ReadBoth(toRemote, toLocal, round, local, remote);
        if error.None? {
          var more;
          error, more := WriteBoth(toRemote, toLocal, round, local, remote);
          progress := progress || more;
        }
    }
  }

  /** One turn of the poll loop; `StillRunning` means it goes round again. */
  method Iterate(toRemote: RelayBuffer, toLocal: RelayBuffer, lastProgress: nat, round: Round)
    returns (exit: Exit, last: nat, call: Option<PollCall>)
    requires Separate(toRemote, toLocal) && toRemote.Valid() && toLocal.Valid()
    modifies toRemote, toLocal, toRemote.data, toLocal.data
    ensures toRemote.Valid() && toLocal.Valid()
    ensures Turn(exit, State(Views(toRemote, toLocal), last), call)
         == Step(State(old(Views(toRemote, toLocal)), lastProgress), round)
  {
    hide Finishing, Serving, Registered, Compacted, Limit, Idle;
    last, call := lastProgress, None;
    var error, madeProgress := FinishBoth(toRemote, toLocal, round);
    if error.Some? {
      return Failed(error.value), last, None;
    }
    if madeProgress {
      last := round.stampClock;
    }
    if toRemote.targetShutdown && toLocal.targetShutdown {
      return BothShut, last, None;
    }
    call := Await(toRemote, toLocal, last, round.nowClock);
    if call.None? {
      return IdleOut, last, None;
    }
    var more;
    error, more := Serve(toRemote, toLocal, round, call.value);
    if error.Some? {
      return Failed(error.value), last, call;
    }
    if round.poll.Ready? && (madeProgress || more) {
      last := round.endClock;
    }
    exit := StillRunning;
  }

  // ----- what one turn does -----

  predicate PairFollows(p: Pair, p': Pair) { Follows(p.toRemote, p'.toRemote) && Follows(p.toLocal, p'.toLocal) }

  /** The effect goes forward, and reports progress exactly when something happened. */
  predicate Forward(p: Pair, e: Effect) {
    PairFollows(p, e.pair) && (e.progress <==> Total(e.pair) > Total(p)) && Total(e.pair) >= Total(p)
  }

  lemma FinishingGoesForward(p: Pair, round: Round)
    requires PairOk(p)
    ensures var e := Finishing(p, round);
      && Forward(p, e)
      && e.pair.toRemote == p.toRemote.(shut := e.pair.toRemote.shut)
      && e.pair.toLocal == p.toLocal.(shut := e.pair.toLocal.shut)
      && (e.error.None? ==> (e.pair.toRemote.shut <==> p.toRemote.eof && p.toRemote.sent == p.toRemote.received)
                            && (e.pair.toLocal.shut <==> p.toLocal.eof && p.toLocal.sent == p.toLocal.received))
  {
    hide Finish, Follows;
    FinishFollows(p.toRemote, round.shutRemote);
    FinishFollows(p.toLocal, round.shutLocal);
    FollowsItself(p);
  }

  lemma FollowsItself(p: Pair)
    requires PairOk(p)
    ensures PairFollows(p, p)
  {
  }

  lemma FollowsOn(p: Pair, q: Pair, r: Pair)
    requires PairFollows(p, q) && PairFollows(q, r)
    ensures PairFollows(p, r)
  {
  }

  lemma ReadingGoesForward(p: Pair, round: Round, local: Revents, remote: Revents)
    requires PairOk(p)
    ensures var e := Reading(p, round, local, remote);
      Forward(p, e) && e.pair.toRemote.shut == p.toRemote.shut && e.pair.toLocal.shut == p.toLocal.shut
  {
    hide Read, Follows;
    ReadFollows(p.toRemote, round.recvLocal);
    ReadFollows(p.toLocal, round.recvRemote);
    FollowsItself(p);
  }

  lemma WritingGoesForward(p: Pair, round: Round, local: Revents, remote: Revents)
    requires PairOk(p)
    ensures var e := Writing(p, round, local, remote);
      Forward(p, e) && e.pair.toRemote.shut == p.toRemote.shut && e.pair.toLocal.shut == p.toLocal.shut
  {
    hide Write, Follows;
    WriteFollows(p.toRemote, round.sendRemote);
    WriteFollows(p.toLocal, round.sendLocal);
    FollowsItself(p);
  }

  lemma ServingGoesForward(p: Pair, round: Round, call: PollCall)
    requires PairOk(p)
    ensures var e := Serving(p, round, call);
      && Forward(p, e) && e.pair.toRemote.shut == p.toRemote.shut && e.pair.toLocal.shut == p.toLocal.shut
      && (e.progress ==> round.poll.Ready?)
  {
    hide Reading, Writing, PairFollows;
    FollowsItself(p);
    if round.poll.Ready? {
      var local := Reported(call.localIn, call.localOut, round.poll.local);
      var remote := Reported(call.remoteIn, call.remoteOut, round.poll.remote);
      ReadingGoesForward(p, round, local, remote);
      var read := Reading(p, round, local, remote);
      WritingGoesForward(read.pair, round, local, remote);
      FollowsOn(p, read.pair, Writing(read.pair, round, local, remote).pair);
    }
  }

  lemma CompactingFollows(p: Pair)
    requires PairOk(p)
    ensures PairFollows(p, BothCompacted(p)) && Total(BothCompacted(p)) == Total(p)
  {
    CompactedFollows(p.toRemote);
    CompactedFollows(p.toLocal);
  }

  lemma StepFollows(s: State, round: Round)
    requires PairOk(s.pair)
    ensures PairFollows(s.pair, Step(s, round).state.pair)
  {
    hide Finishing, Serving, BothCompacted, Limit, Idle, Registered, PairFollows, Total;
    var finished := Finishing(s.pair, round);
    FinishingGoesForward(s.pair, round);
    if finished.error.None? {
      var p := BothCompacted(finished.pair);
      CompactingFollows(finished.pair);
      FollowsOn(s.pair, finished.pair, p);
      var last := if finished.progress then round.stampClock else s.last;
      var served := Serving(p, round, Registered(p, last, round.nowClock));
      ServingGoesForward(p, round, Registered(p, last, round.nowClock));
      FollowsOn(s.pair, p, served.pair);
    }
  }

  // ----- whole runs -----

  /** The relay after the answers in `rounds`; once it has stopped nothing happens. */
  function Run(startClock: nat, rounds: seq<Round>): (t: Turn)
    ensures PairOk(t.state.pair)
  {
    if rounds == [] then Turn(StillRunning, State(Pair(EMPTY, EMPTY), startClock), None)
    else
      var before := Run(startClock, rounds[..|rounds| - 1]);
      if !before.exit.StillRunning? then before else Step(before.state, rounds[|rounds| - 1])
  }

  /** Its calls of poll, in order. */
  function Calls(startClock: nat, rounds: seq<Round>): seq<PollCall> {
    if rounds == [] then []
    else
      var before, earlier := Run(startClock, rounds[..|rounds| - 1]), Calls(startClock, rounds[..|rounds| - 1]);
      if !before.exit.StillRunning? then earlier
      else
        var call := Step(before.state, rounds[|rounds| - 1]).call;
        if call.Some? then earlier + [call.value] else earlier
  }

  lemma {:induction false} StoppedStays(startClock: nat, rounds: seq<Round>, k: nat)
    requires k <= |rounds| && !Run(startClock, rounds[..k]).exit.StillRunning?
    ensures Run(startClock, rounds) == Run(startClock, rounds[..k])
    ensures Calls(startClock, rounds) == Calls(startClock, rounds[..k])
  {
    if k < |rounds| {
      assert rounds[..|rounds| - 1][..k] == rounds[..k];
      StoppedStays(startClock, rounds[..|rounds| - 1], k);
    } else {
      assert rounds[..k] == rounds;
    }
  }

  /** The relay, for every sequence of answers from outside: its state, its exit and its
      calls of poll are those of the run. */
  method RelayStreams(startClock: nat, rounds: seq<Round>)
    returns (exit: Exit, toRemote: RelayBuffer, toLocal: RelayBuffer, last: nat, calls: seq<PollCall>)
    ensures fresh(toRemote) && fresh(toLocal) && toRemote.Valid() && toLocal.Valid()
    ensures exit == Run(startClock, rounds).exit && calls == Calls(startClock, rounds)
    ensures State(Views(toRemote, toLocal), last) == Run(startClock, rounds).state
  {
    hide Step;
    toRemote := new RelayBuffer();
    toLocal := new RelayBuffer();
    last, exit, calls := startClock, StillRunning, [];
    var k := 0;
    while exit.StillRunning? && k < |rounds|
      invariant k <= |rounds|
      invariant fresh(toRemote) && fresh(toLocal) && fresh(toRemote.data) && fresh(toLocal.data)
      invariant Separate(toRemote, toLocal) && toRemote.Valid() && toLocal.Valid()
      invariant exit == Run(startClock, rounds[..k]).exit && calls == Calls(startClock, rounds[..k])
      invariant State(Views(toRemote, toLocal), last) == Run(startClock, rounds[..k]).state
    {
      var call;
      exit, last, call := Iterate(toRemote, toLocal, last, rounds[k]);
      assert rounds[..k + 1][..k] == rounds[..k];
      if call.Some? {
        calls := calls + [call.value];
      }
      k := k + 1;
    }
    if k < |rounds| {
      StoppedStays(startClock, rounds, k);
    }
    assert rounds[..|rounds|] == rounds;
  }

  // ----- what holds over whole runs -----

  /** From any point of a run on nothing is taken back: an ended stream brings no more
      bytes, and a target that was shut down stays shut down and never gets another. */
  lemma {:induction false} RunsOnlyGoForward(startClock: nat, rounds: seq<Round>, k: nat)
    requires k <= |rounds|
    ensures PairFollows(Run(startClock, rounds[..k]).state.pair, Run(startClock, rounds).state.pair)
  {
    hide Step;
    if k == |rounds| {
      assert rounds[..k] == rounds;
      FollowsItself(Run(startClock, rounds).state.pair);
    } else {
      var before := rounds[..|rounds| - 1];
      assert before[..k] == rounds[..k];
      RunsOnlyGoForward(startClock, before, k);
      StepFollows(Run(startClock, before).state, rounds[|rounds| - 1]);
    }
  }

  /** The relay reports both sides shut exactly when both are, and then everything
      received has been delivered. */
  lemma {:induction false} BothShutMeansDelivered(startClock: nat, rounds: seq<Round>)
    ensures var t := Run(startClock, rounds);
      && (t.exit.BothShut? ==> t.state.pair.toRemote.shut && t.state.pair.toLocal.shut)
      && (t.exit.StillRunning? || t.exit.IdleOut? ==> !(t.state.pair.toRemote.shut && t.state.pair.toLocal.shut))
      && (t.exit.BothShut? ==> t.state.pair.toRemote.sent == t.state.pair.toRemote.received
                               && t.state.pair.toLocal.sent == t.state.pair.toLocal.received)
  {
    if rounds != [] {
      var before, round := Run(startClock, rounds[..|rounds| - 1]), rounds[|rounds| - 1];
      BothShutMeansDelivered(startClock, rounds[..|rounds| - 1]);
      if before.exit.StillRunning? {
        StepKeepsShut(before.state, round);
      }
    }
  }

  lemma StepKeepsShut(s: State, round: Round)
    requires PairOk(s.pair)
    ensures var t := Step(s, round);
      && (t.exit.BothShut? ==> t.state.pair.toRemote.shut && t.state.pair.toLocal.shut)
      && (t.exit.StillRunning? || t.exit.IdleOut? ==> !(t.state.pair.toRemote.shut && t.state.pair.toLocal.shut))
  {
    hide Finishing, Serving, Limit, Idle, Registered;
    var finished := Finishing(s.pair, round);
    if finished.error.None? {
      var p := BothCompacted(finished.pair);
      var last := if finished.progress then round.stampClock else s.last;
      ServingGoesForward(p, round, Registered(p, last, round.nowClock));
    }
  }

  /** What one round adds to the bytes received comes from that round's `recv`. */
  predicate Took(before: seq<Byte>, after: seq<Byte>, reply: RecvReply) {
    && before <= after
    && after[|before|..] <= (if reply.Bytes? then reply.offered else [])
  }

  /** `received` was put together, round by round, from what one socket delivered. */
  ghost predicate From(received: seq<Byte>, replies: seq<RecvReply>)
    decreases |replies|
  {
    if replies == [] then received == []
    else exists m: nat ::
      m <= |received| && From(received[..m], replies[..|replies| - 1])
      && Took(received[..m], received, replies[|replies| - 1])
  }

  function LocalReplies(rounds: seq<Round>): seq<RecvReply> {
    seq(|rounds|, i requires 0 <= i < |rounds| => rounds[i].recvLocal)
  }

  function RemoteReplies(rounds: seq<Round>): seq<RecvReply> {
    seq(|rounds|, i requires 0 <= i < |rounds| => rounds[i].recvRemote)
  }

  lemma FromExtends(before: seq<Byte>, after: seq<Byte>, replies: seq<RecvReply>, reply: RecvReply)
    requires From(before, replies) && Took(before, after, reply)
    ensures From(after, replies + [reply])
  {
    var all := replies + [reply];
    assert all[..|all| - 1] == replies && after[..|before|] == before;
    assert From(after[..|before|], all[..|all| - 1]) && Took(after[..|before|], after, all[|all| - 1]);
  }

  /** The bytes received are, in order, pieces of what the peers delivered. */
  lemma {:induction false} BytesComeFromThePeers(startClock: nat, rounds: seq<Round>)
    ensures var p := Run(startClock, rounds).state.pair;
      From(p.toRemote.received, LocalReplies(rounds)) && From(p.toLocal.received, RemoteReplies(rounds))
  {
    hide Step, Took;
    if rounds != [] {
      var before, round := rounds[..|rounds| - 1], rounds[|rounds| - 1];
      BytesComeFromThePeers(startClock, before);
      var p, q := Run(startClock, before).state.pair, Run(startClock, rounds).state.pair;
      TookNothing(p.toRemote.received, round.recvLocal);
      TookNothing(p.toLocal.received, round.recvRemote);
      StepTakes(Run(startClock, before).state, round);
      FromExtends(p.toRemote.received, q.toRemote.received, LocalReplies(before), round.recvLocal);
      FromExtends(p.toLocal.received, q.toLocal.received, RemoteReplies(before), round.recvRemote);
      assert LocalReplies(rounds) == LocalReplies(before) + [round.recvLocal];
      assert RemoteReplies(rounds) == RemoteReplies(before) + [round.recvRemote];
    }
  }

  lemma TookNothing(received: seq<Byte>, reply: RecvReply)
    ensures Took(received, received, reply)
  {
  }

  lemma ReadTakes(d: Dir, reply: RecvReply)
    requires DirOk(d)
    ensures Took(d.received, Read(d, reply).dir.received, reply)
  {
    ReadFollows(d, reply);
  }

  lemma StepTakes(s: State, round: Round)
    requires PairOk(s.pair)
    ensures var q := Step(s, round).state.pair;
      Took(s.pair.toRemote.received, q.toRemote.received, round.recvLocal)
      && Took(s.pair.toLocal.received, q.toLocal.received, round.recvRemote)
  {
    hide Finishing, Serving, Limit, Idle, Registered, Took;
    TookNothing(s.pair.toRemote.received, round.recvLocal);
    TookNothing(s.pair.toLocal.received, round.recvRemote);
    var finished := Finishing(s.pair, round);
    FinishingGoesForward(s.pair, round);
    if finished.error.None? {
      var p := BothCompacted(finished.pair);
      var last := if finished.progress then round.stampClock else s.last;
      ServingActsOnReports(p, round, Registered(p, last, round.nowClock));
    }
  }

  predicate Same(d: Dir, d': Dir) { d'.received == d.received && d'.eof == d.eof }

  lemma ReadingActsOnReports(p: Pair, round: Round, local: Revents, remote: Revents)
    requires PairOk(p)
    ensures var q := Reading(p, round, local, remote).pair;
      && Took(p.toRemote.received, q.toRemote.received, round.recvLocal)
      && Took(p.toLocal.received, q.toLocal.received, round.recvRemote)
      && q.toRemote.sent == p.toRemote.sent && q.toLocal.sent == p.toLocal.sent
      && (Same(p.toRemote, q.toRemote) || local.readable || local.hangup)
      && (Same(p.toLocal, q.toLocal) || remote.readable || remote.hangup)
  {
    hide Read, Took;
    TookNothing(p.toRemote.received, round.recvLocal);
    TookNothing(p.toLocal.received, round.recvRemote);
    ReadTakes(p.toRemote, round.recvLocal);
    ReadTakes(p.toLocal, round.recvRemote);
    ReadFollows(p.toRemote, round.recvLocal);
    ReadFollows(p.toLocal, round.recvRemote);
  }

  lemma WritingActsOnReports(p: Pair, round: Round, local: Revents, remote: Revents)
    requires PairOk(p)
    ensures var q := Writing(p, round, local, remote).pair;
      && Same(p.toRemote, q.toRemote) && Same(p.toLocal, q.toLocal)
      && (q.toLocal.sent == p.toLocal.sent || local.writable)
      && (q.toRemote.sent == p.toRemote.sent || remote.writable)
  {
    hide Write;
    WriteFollows(p.toLocal, round.sendLocal);
    WriteFollows(p.toRemote, round.sendRemote);
  }

  /** Reads and writes happen only where poll reported them, and take only what that
      round's `recv` delivers. */
  lemma ServingActsOnReports(p: Pair, round: Round, call: PollCall)
    requires PairOk(p)
    ensures var q := Serving(p, round, call).pair;
      && Took(p.toRemote.received, q.toRemote.received, round.recvLocal)
      && Took(p.toLocal.received, q.toLocal.received, round.recvRemote)
      && (!round.poll.Ready? ==> q == p)
      && (round.poll.Ready? ==>
            var local := Reported(call.localIn, call.localOut, round.poll.local);
            var remote := Reported(call.remoteIn, call.remoteOut, round.poll.remote);
            && (Same(p.toRemote, q.toRemote) || local.readable || local.hangup)
            && (Same(p.toLocal, q.toLocal) || remote.readable || remote.hangup)
            && (q.toLocal.sent == p.toLocal.sent || local.writable)
            && (q.toRemote.sent == p.toRemote.sent || remote.writable))
  {
    hide Reading, Writing, Took;
    TookNothing(p.toRemote.received, round.recvLocal);
    TookNothing(p.toLocal.received, round.recvRemote);
    if round.poll.Ready? {
      var local := Reported(call.localIn, call.localOut, round.poll.local);
      var remote := Reported(call.remoteIn, call.remoteOut, round.poll.remote);
      ReadingActsOnReports(p, round, local, remote);
      WritingActsOnReports(Reading(p, round, local, remote).pair, round, local, remote);
    }
  }

  /** The two directions when poll is called. */
  function AtPoll(s: State, round: Round): Pair
    requires PairOk(s.pair)
  {
    BothCompacted(Finishing(s.pair, round).pair)
  }

  /** At every poll each direction that is still open is waited for. It is read exactly
      while its end has not come and its window leaves room, and written exactly while its
      window is not empty; the timeout is positive and ends with the idle limit. */
  lemma EveryPollServesWhatIsOpen(s: State, round: Round)
    requires PairOk(s.pair) && Step(s, round).call.Some?
    ensures var p, call := AtPoll(s, round), Step(s, round).call.value;
      && (!p.toRemote.shut ==> call.localIn || call.remoteOut)
      && (!p.toLocal.shut ==> call.remoteIn || call.localOut)
      && (call.localIn <==> !s.pair.toRemote.eof && Waiting(s.pair.toRemote) < BUFFER_SIZE)
      && (call.remoteIn <==> !s.pair.toLocal.eof && Waiting(s.pair.toLocal) < BUFFER_SIZE)
      && (call.localOut <==> s.pair.toLocal.sent != s.pair.toLocal.received)
      && (call.remoteOut <==> s.pair.toRemote.sent != s.pair.toRemote.received)
      && (call.localIn ==> Room(p.toRemote) > 0) && (call.remoteIn ==> Room(p.toLocal) > 0)
      && 0 < call.timeout <= INT_MAX
      && call.timeout == Min(INT_MAX, Limit(p) - Idle(Latest(s, round), round.nowClock))
  {
    hide Serving, Follows;
    FinishingGoesForward(s.pair, round);
    CompactedFollows(s.pair.toRemote);
    CompactedFollows(s.pair.toLocal);
  }

  // ----- what a turn moves -----

  /** How far a direction is filled when poll is called: from the front when it is empty,
      or when it was full to the end with room in front. */
  function Filled(d: Dir): int {
    if Waiting(d) == 0 then 0 else if d.end == BUFFER_SIZE then Waiting(d) else d.end
  }

  /** What poll's answer lets one side do. A hang-up counts as data, but only on a side
      that is being watched. */
  predicate HasData(reply: PollReply, side: Revents, wantIn: bool, wantOut: bool) {
    reply.Ready? && ((wantIn && side.readable) || ((wantIn || wantOut) && side.hangup))
  }

  predicate HasSpace(reply: PollReply, side: Revents, wantOut: bool) { reply.Ready? && wantOut && side.writable }

  function LocalSide(reply: PollReply): Revents { if reply.Ready? then reply.local else NO_EVENTS }

  function RemoteSide(reply: PollReply): Revents { if reply.Ready? then reply.remote else NO_EVENTS }

  /** Data is taken with room for it, and before the end. */
  predicate TakesData(d: Dir, data: bool) { data && !d.eof && Waiting(d) < BUFFER_SIZE }

  /** What one direction gains in a turn: with data at its source everything `recv`
      delivers up to the room, or the end of the stream; with space at its target
      everything `send` takes of its window. */
  predicate Gained(d: Dir, d': Dir, data: bool, recv: RecvReply, space: bool, send: SendReply)
    requires DirOk(d)
  {
    && d'.received == d.received + (if TakesData(d, data) && recv.Bytes?
                                    then recv.offered[..Min(|recv.offered|, BUFFER_SIZE - Filled(d))] else [])
    && (d'.eof <==> d.eof || (TakesData(d, data) && (recv == Bytes([]) || recv == RecvFailed(ConnReset))))
    && d.sent <= d'.sent <= d'.received
    && |d'.sent| == |d.sent| + (if space && send.Takes? then Min(send.limit, |d'.received| - |d.sent|) else 0)
    && (d'.shut <==> d.eof && d.sent == d.received)
  }

  // Which replies make a turn fail.

  predicate ShutBreaks(d: Dir, reply: ShutReply) {
    d.eof && d.sent == d.received && !d.shut && reply.ShutFailed? && reply.errno !in {NotConn, Invalid}
  }

  predicate RecvBreaks(d: Dir, data: bool, reply: RecvReply) {
    TakesData(d, data) && reply.RecvFailed? && reply.errno !in {ConnReset, Interrupted, Again, WouldBlock}
  }

  predicate SendBreaks(space: bool, reply: SendReply) {
    space && (reply == Takes(0) || (reply.SendFailed? && reply.errno !in {Interrupted, Again, WouldBlock}))
  }

  function SendError(reply: SendReply): Errno { if reply.SendFailed? then reply.errno else BrokenPipe }

  predicate Delivered(d: Dir) { d.eof && d.sent == d.received }

  /** What poll is asked to wait for. */
  function Interests(p: Pair, timeout: int): PollCall {
    PollCall(localIn := !p.toRemote.eof && Waiting(p.toRemote) < BUFFER_SIZE, localOut := Waiting(p.toLocal) > 0,
             remoteIn := !p.toLocal.eof && Waiting(p.toLocal) < BUFFER_SIZE, remoteOut := Waiting(p.toRemote) > 0,
             timeout := timeout)
  }

  /** The clock reading of the last progress, when poll is called: a side that is shut
      down in this turn is progress. */
  function LastAtPoll(s: State, round: Round): nat {
    var p := s.pair;
    if (Delivered(p.toRemote) && !p.toRemote.shut) || (Delivered(p.toLocal) && !p.toLocal.shut) then round.stampClock
    else s.last
  }

  /** How a turn ends, by the first reply that decides it: a failing shutdown, both sides
      shut, the idle limit, a failing poll, a bad descriptor or a fault on a watched side,
      a failing `recv`, a failing `send`. */
  function ExitBy(s: State, round: Round): Exit {
    var p := s.pair;
    var limit := if p.toRemote.eof || p.toLocal.eof then 5000 else 28_800_000;
    if ShutBreaks(p.toRemote, round.shutRemote) then Failed(round.shutRemote.errno)
    else if ShutBreaks(p.toLocal, round.shutLocal) then Failed(round.shutLocal.errno)
    else if Delivered(p.toRemote) && Delivered(p.toLocal) then BothShut
    else if round.nowClock >= LastAtPoll(s, round) + limit then IdleOut
    else match ErrorBy(p, round, Interests(p, 1))
      case Some(errno) => Failed(errno)
      case None => StillRunning
  }

  function ErrorBy(p: Pair, round: Round, call: PollCall): Option<Errno> {
    var watchedLocal := round.poll.Ready? && (call.localIn || call.localOut);
    var watchedRemote := round.poll.Ready? && (call.remoteIn || call.remoteOut);
    if round.poll.PollFailed? && round.poll.errno != Interrupted then Some(round.poll.errno)
    else if (watchedLocal && round.poll.local.invalid) || (watchedRemote && round.poll.remote.invalid) then Some(BadFd)
    else if (watchedLocal && round.poll.local.fault) || (watchedRemote && round.poll.remote.fault) then Some(IoError)
    else if RecvBreaks(p.toRemote, LocalData(call, round), round.recvLocal) then Some(round.recvLocal.errno)
    else if RecvBreaks(p.toLocal, RemoteData(call, round), round.recvRemote) then Some(round.recvRemote.errno)
    else if SendBreaks(LocalSpace(call, round), round.sendLocal) then Some(SendError(round.sendLocal))
    else if SendBreaks(RemoteSpace(call, round), round.sendRemote) then Some(SendError(round.sendRemote))
    else None
  }

  predicate LocalData(call: PollCall, round: Round) {
    HasData(round.poll, LocalSide(round.poll), call.localIn, call.localOut)
  }

  predicate RemoteData(call: PollCall, round: Round) {
    HasData(round.poll, RemoteSide(round.poll), call.remoteIn, call.remoteOut)
  }

  predicate LocalSpace(call: PollCall, round: Round) {
    HasSpace(round.poll, LocalSide(round.poll), call.localOut)
  }

  predicate RemoteSpace(call: PollCall, round: Round) {
    HasSpace(round.poll, RemoteSide(round.poll), call.remoteOut)
  }

  lemma ReadGains(d: Dir, recv: RecvReply)
    requires DirOk(d) && Compacted(d) == d
    ensures var done := Read(d, recv);
      && Gained(d, done.dir.(shut := Delivered(d)), true, recv, false, Takes(0))
      && done.dir.sent == d.sent && done.dir.shut == d.shut
      && done.error == (if RecvBreaks(d, true, recv) then Some(recv.errno) else None)
  {
  }

  lemma WriteGains(d: Dir, send: SendReply)
    requires DirOk(d) && Waiting(d) > 0
    ensures var done := Write(d, send);
      && done.dir.received == d.received && done.dir.eof == d.eof && done.dir.shut == d.shut
      && d.sent <= done.dir.sent <= d.received
      && |done.dir.sent| == |d.sent| + (if send.Takes? then Min(send.limit, Waiting(d)) else 0)
      && done.error == (if SendBreaks(true, send) then Some(SendError(send)) else None)
  {
  }

  lemma CompactedOnce(d: Dir)
    requires DirOk(d)
    ensures Compacted(Compacted(d)) == Compacted(d) == d.(end := Filled(d))
  {
  }

  function ReadIf(data: bool, d: Dir, recv: RecvReply): Done
    requires DirOk(d)
  {
    if data then Read(d, recv) else Done(d, None, false)
  }

  function WriteIf(space: bool, d: Dir, send: SendReply): Done
    requires DirOk(d)
  {
    if space then Write(d, send) else Done(d, None, false)
  }

  predicate CanServe(d: Dir, space: bool) {
    DirOk(d) && Compacted(d) == d && (Delivered(d) ==> d.shut) && (space ==> Waiting(d) > 0)
  }

  /** Reading, then writing, in one direction. */
  lemma DirectionGains(d: Dir, data: bool, recv: RecvReply, space: bool, send: SendReply)
    requires CanServe(d, space)
    ensures var r := ReadIf(data, d, recv);
      && DirOk(r.dir) && r.error == (if RecvBreaks(d, data, recv) then Some(recv.errno) else None)
      && var w := WriteIf(space, r.dir, send);
         && w.error == (if SendBreaks(space, send) then Some(SendError(send)) else None)
         && Gained(d, w.dir, data, recv, space, send)
  {
    hide Compacted, Read, Write;
    var r := ReadIf(data, d, recv);
    ReadGains(d, recv);
    if space {
      WriteGains(r.dir, send);
    }
  }

  /** How poll's answer is acted on: what each direction gains when nothing fails, and
      the first thing that fails. */
  lemma ServingGains(p: Pair, round: Round, call: PollCall)
    requires PairOk(p) && CanServe(p.toRemote, call.remoteOut) && CanServe(p.toLocal, call.localOut)
    ensures var e := Serving(p, round, call);
      && e.error == ErrorBy(p, round, call)
      && (e.error.None? ==>
            && Gained(p.toRemote, e.pair.toRemote, LocalData(call, round), round.recvLocal, RemoteSpace(call, round), round.sendRemote)
            && Gained(p.toLocal, e.pair.toLocal, RemoteData(call, round), round.recvRemote, LocalSpace(call, round), round.sendLocal))
  {
    hide Read, Write, Compacted, DirOk, Gained, RecvBreaks, SendBreaks;
    DirectionGains(p.toRemote, LocalData(call, round), round.recvLocal, RemoteSpace(call, round), round.sendRemote);
    DirectionGains(p.toLocal, RemoteData(call, round), round.recvRemote, LocalSpace(call, round), round.sendLocal);
    if round.poll.Ready? {
      var local := Reported(call.localIn, call.localOut, round.poll.local);
      var remote := Reported(call.remoteIn, call.remoteOut, round.poll.remote);
      assert LocalData(call, round) == (local.readable || local.hangup) && LocalSpace(call, round) == local.writable;
      assert RemoteData(call, round) == (remote.readable || remote.hangup) && RemoteSpace(call, round) == remote.writable;
    } else {
      NothingBreaks(p.toRemote, round.recvLocal, round.sendRemote);
      NothingBreaks(p.toLocal, round.recvRemote, round.sendLocal);
    }
  }

  lemma NothingBreaks(d: Dir, recv: RecvReply, send: SendReply)
    ensures !RecvBreaks(d, false, recv) && !SendBreaks(false, send)
  {
  }

  /** The two shutdowns of a turn. */
  lemma FinishingEnds(p: Pair, round: Round)
    requires PairOk(p)
    ensures var e := Finishing(p, round);
      && e.error == (if ShutBreaks(p.toRemote, round.shutRemote) then Some(round.shutRemote.errno)
                     else if ShutBreaks(p.toLocal, round.shutLocal) then Some(round.shutLocal.errno) else None)
      && (e.error.None? ==> e.pair == Pair(p.toRemote.(shut := Delivered(p.toRemote)), p.toLocal.(shut := Delivered(p.toLocal))))
      && (e.error.None? ==> (e.progress <==> (Delivered(p.toRemote) && !p.toRemote.shut) || (Delivered(p.toLocal) && !p.toLocal.shut)))
  {
  }

  /** The two directions when poll is called, ready to be served. */
  lemma PolledPair(s: State, round: Round)
    requires PairOk(s.pair) && Finishing(s.pair, round).error.None?
    ensures var p, q := s.pair, AtPoll(s, round);
      && q == Pair(p.toRemote.(shut := Delivered(p.toRemote), end := Filled(p.toRemote)),
                   p.toLocal.(shut := Delivered(p.toLocal), end := Filled(p.toLocal)))
      && CanServe(q.toRemote, Waiting(p.toRemote) > 0) && CanServe(q.toLocal, Waiting(p.toLocal) > 0)
  {
    hide Finishing, Compacted;
    FinishingEnds(s.pair, round);
    var q := Finishing(s.pair, round).pair;
    CompactedOnce(q.toRemote);
    CompactedOnce(q.toLocal);
  }

  /** At a poll every call has the interests of the two directions, and every turn that
      goes on to poll has decided that nothing before it ends the relay. */
  lemma TurnsPollForWhatIsOpen(s: State, round: Round)
    requires PairOk(s.pair)
    ensures var call := Step(s, round).call;
      && (call.None? <==> ShutBreaks(s.pair.toRemote, round.shutRemote) || ShutBreaks(s.pair.toLocal, round.shutLocal)
                          || ExitBy(s, round).BothShut? || ExitBy(s, round).IdleOut?)
      && (call.Some? ==> call.value == Interests(s.pair, call.value.timeout))
  {
    hide Finishing, Serving, Compacted;
    FinishingEnds(s.pair, round);
    if Finishing(s.pair, round).error.None? {
      PolledPair(s, round);
    }
  }

  /** Compaction and shutdowns change neither what poll is asked nor what its answer does. */
  lemma PolledAsks(s: State, round: Round)
    requires PairOk(s.pair) && Finishing(s.pair, round).error.None?
    ensures var p, q, last := s.pair, AtPoll(s, round), LastAtPoll(s, round);
      var call, asked := Interests(p, 1), Registered(q, last, round.nowClock);
      && PairOk(q) && CanServe(q.toRemote, asked.remoteOut) && CanServe(q.toLocal, asked.localOut)
      && asked == call.(timeout := asked.timeout)
      && LocalData(asked, round) == LocalData(call, round) && LocalSpace(asked, round) == LocalSpace(call, round)
      && RemoteData(asked, round) == RemoteData(call, round) && RemoteSpace(asked, round) == RemoteSpace(call, round)
      && ErrorBy(q, round, asked) == ErrorBy(p, round, call)
  {
    hide Finishing, Compacted, CanServe, SendBreaks, SendError;
    PolledPair(s, round);
  }

  /** A turn up to poll: what ends it there, or else how poll's answer is acted on. */
  lemma TurnAtPoll(s: State, round: Round)
    requires PairOk(s.pair)
    ensures var p, t, q, last := s.pair, Step(s, round), AtPoll(s, round), LastAtPoll(s, round);
      var served := Serving(q, round, Registered(q, last, round.nowClock));
      var limit := if p.toRemote.eof || p.toLocal.eof then 5000 else 28_800_000;
      if ShutBreaks(p.toRemote, round.shutRemote) then t.exit == Failed(round.shutRemote.errno)
      else if ShutBreaks(p.toLocal, round.shutLocal) then t.exit == Failed(round.shutLocal.errno)
      else if Finishing(p, round).error.Some? then false
      else if Delivered(p.toRemote) && Delivered(p.toLocal) then t.exit == BothShut && t.state.pair == Finishing(p, round).pair
      else if round.nowClock >= last + limit then t.exit == IdleOut && t.state.pair == q
      else t.state.pair == served.pair && t.exit == (if served.error.Some? then Failed(served.error.value) else StillRunning)
  {
    hide Finishing, Serving, Compacted, Registered, ShutBreaks, CanServe;
    FinishingEnds(s.pair, round);
    if Finishing(s.pair, round).error.None? {
      PolledPair(s, round);
    }
  }

  /** What is gained does not depend on where in the buffer the window is. */
  lemma GainedAfterCompaction(d: Dir, q: Dir, d': Dir, data: bool, recv: RecvReply, space: bool, send: SendReply)
    requires DirOk(d) && DirOk(q) && q == d.(shut := Delivered(d), end := Filled(d)) && Filled(q) == Filled(d)
    ensures Gained(q, d', data, recv, space, send) ==> Gained(d, d', data, recv, space, send)
    ensures Gained(d, d.(shut := Delivered(d)), false, recv, false, send) && Gained(d, q, false, recv, false, send)
  {
  }

  /** A turn ends exactly as its replies say, the first that decides it. */
  lemma TurnsEndByTheFirstReply(s: State, round: Round)
    requires PairOk(s.pair)
    ensures Step(s, round).exit == ExitBy(s, round)
  {
    hide Step, Finishing, Serving, Compacted, Gained, CanServe, Registered, Interests, ErrorBy, ShutBreaks, Delivered, LastAtPoll, AtPoll;
    TurnAtPoll(s, round);
    if Finishing(s.pair, round).error.None? {
      PolledPair(s, round);
      PolledAsks(s, round);
      ServingGains(AtPoll(s, round), round, Registered(AtPoll(s, round), LastAtPoll(s, round), round.nowClock));
    }
  }

  /** What a turn that goes on has moved, exactly: in each direction everything offered
      where poll reported data, up to the room, and everything taken where it reported
      space; and a side is shut down exactly when its stream had ended and was delivered.
      A turn that ends with both sides shut, or idle, moves nothing. */
  lemma TurnsMoveWhatIsReady(s: State, round: Round)
    requires PairOk(s.pair)
    ensures var p, t, call := s.pair, Step(s, round), Interests(s.pair, 1);
      var q := t.state.pair;
      && (t.exit.StillRunning? ==>
            && Gained(p.toRemote, q.toRemote, LocalData(call, round), round.recvLocal, RemoteSpace(call, round), round.sendRemote)
            && Gained(p.toLocal, q.toLocal, RemoteData(call, round), round.recvRemote, LocalSpace(call, round), round.sendLocal))
      && (t.exit.BothShut? || t.exit.IdleOut? ==>
            && Gained(p.toRemote, q.toRemote, false, round.recvLocal, false, round.sendRemote)
            && Gained(p.toLocal, q.toLocal, false, round.recvRemote, false, round.sendLocal))
  {
    hide Step, Finishing, Serving, Compacted, Gained, CanServe, Registered, Interests, ErrorBy, ShutBreaks, LastAtPoll, AtPoll;
    TurnAtPoll(s, round);
    if Finishing(s.pair, round).error.None? {
      var p, q := s.pair, AtPoll(s, round);
      PolledPair(s, round);
      PolledAsks(s, round);
      ServingGains(q, round, Registered(q, LastAtPoll(s, round), round.nowClock));
      var call, next := Interests(p, 1), Step(s, round).state.pair;
      FinishingEnds(p, round);
      GainedAfterCompaction(p.toRemote, q.toRemote, next.toRemote, LocalData(call, round), round.recvLocal, RemoteSpace(call, round), round.sendRemote);
      GainedAfterCompaction(p.toLocal, q.toLocal, next.toLocal, RemoteData(call, round), round.recvRemote, LocalSpace(call, round), round.sendLocal);
    }
  }

  // ----- when the relay gives up -----

  /** The reading that counts as the last progress once directions have been finished. */
  function Latest(s: State, round: Round): nat
    requires PairOk(s.pair)
  {
    if Total(Finishing(s.pair, round).pair) > Total(s.pair) then round.stampClock else s.last
  }

  /** The clock reading that followed the last byte in, byte out, end of stream or
      shutdown; found by counting those, not from what the relay keeps. */
  function LastReading(startClock: nat, rounds: seq<Round>): nat {
    if rounds == [] then startClock
    else
      var before, round := rounds[..|rounds| - 1], rounds[|rounds| - 1];
      if Total(Run(startClock, rounds).state.pair) == Total(Run(startClock, before).state.pair) then LastReading(startClock, before)
      else if round.poll.Ready? then round.endClock
      else round.stampClock
  }

  lemma {:induction false} LastIsTheLastReading(startClock: nat, rounds: seq<Round>)
    requires Run(startClock, rounds).exit.StillRunning?
    ensures Run(startClock, rounds).state.last == LastReading(startClock, rounds)
  {
    hide Step;
    if rounds != [] {
      var before, round := rounds[..|rounds| - 1], rounds[|rounds| - 1];
      LastIsTheLastReading(startClock, before);
      StepReadsTheClock(Run(startClock, before).state, round);
    }
  }

  lemma StepReadsTheClock(s: State, round: Round)
    requires PairOk(s.pair) && Step(s, round).exit.StillRunning?
    ensures var t := Step(s, round);
      t.state.last == if Total(t.state.pair) == Total(s.pair) then s.last
                      else if round.poll.Ready? then round.endClock else round.stampClock
  {
    hide Finishing, Serving, BothCompacted, Limit, Idle, Registered, Total, PairFollows;
    var finished := Finishing(s.pair, round);
    FinishingGoesForward(s.pair, round);
    var p := BothCompacted(finished.pair);
    CompactingFollows(finished.pair);
    var last := if finished.progress then round.stampClock else s.last;
    ServingGoesForward(p, round, Registered(p, last, round.nowClock));
  }

  /** Whether the turn gets as far as looking at the clock. */
  predicate Looks(s: State, round: Round)
    requires PairOk(s.pair)
  {
    var finished := Finishing(s.pair, round);
    finished.error.None? && !(finished.pair.toRemote.shut && finished.pair.toLocal.shut)
  }

  /** The relay gives up exactly on the turns that look at the clock and read a time at
      least the limit after the reading that followed the last progress. The limit is the
      short one exactly after an end of stream. */
  lemma GivesUpExactlyWhenIdle(startClock: nat, rounds: seq<Round>, round: Round)
    requires Run(startClock, rounds).exit.StillRunning?
    ensures var s := Run(startClock, rounds).state;
      var latest := if Total(Finishing(s.pair, round).pair) > Total(s.pair) then round.stampClock
                    else LastReading(startClock, rounds);
      && (Run(startClock, rounds + [round]).exit.IdleOut? <==>
            Looks(s, round) && round.nowClock >= latest + Limit(s.pair))
      && Limit(s.pair) == if s.pair.toRemote.eof || s.pair.toLocal.eof then 5000 else 28_800_000
  {
    hide Serving, Follows, Registered, Total;
    var s := Run(startClock, rounds).state;
    assert (rounds + [round])[..|rounds|] == rounds;
    LastIsTheLastReading(startClock, rounds);
    FinishingGoesForward(s.pair, round);
  }

  // ----- a clock that fails -----

  /** The true times at which one turn reads the clock. */
  datatype Times = Times(stamp: nat, now: nat, end: nat)

  /** A failing clock reads 0. */
  predicate Reads(reading: nat, time: nat) { reading == time || reading == 0 }

  predicate RoundReads(round: Round, times: Times) {
    Reads(round.stampClock, times.stamp) && Reads(round.nowClock, times.now) && Reads(round.endClock, times.end)
  }

  predicate AllRead(rounds: seq<Round>, times: seq<Times>) {
    |times| == |rounds| && forall k | 0 <= k < |rounds| :: RoundReads(rounds[k], times[k])
  }

  /** The true time of the last progress. */
  function LastTime(startClock: nat, startTime: nat, rounds: seq<Round>, times: seq<Times>): nat
    requires |times| == |rounds|
  {
    if rounds == [] then startTime
    else
      var before, n := rounds[..|rounds| - 1], |rounds| - 1;
      if Total(Run(startClock, rounds).state.pair) == Total(Run(startClock, before).state.pair) then
        LastTime(startClock, startTime, before, times[..n])
      else if rounds[n].poll.Ready? then times[n].end
      else times[n].stamp
  }

  lemma {:induction false} LastReadingReadsLastTime(startClock: nat, startTime: nat, rounds: seq<Round>, times: seq<Times>)
    requires Reads(startClock, startTime) && AllRead(rounds, times)
    ensures Reads(LastReading(startClock, rounds), LastTime(startClock, startTime, rounds, times))
  {
    hide Step;
    if rounds != [] {
      LastReadingReadsLastTime(startClock, startTime, rounds[..|rounds| - 1], times[..|rounds| - 1]);
      assert RoundReads(rounds[|rounds| - 1], times[|rounds| - 1]);
    }
  }

  /** The exact condition: the relay gives up before the limit has really passed since
      the last progress if and only if it looks at the clock after a progress reading that
      failed, while the clock shows at least the limit. While every progress reading
      succeeds it never gives up early. */
  lemma GivesUpEarlyExactlyAfterAFailedReading(
    startClock: nat, startTime: nat, rounds: seq<Round>, times: seq<Times>, round: Round, time: Times)
    requires Run(startClock, rounds).exit.StillRunning?
    requires Reads(startClock, startTime) && AllRead(rounds, times) && RoundReads(round, time)
    ensures var s := Run(startClock, rounds).state;
      var finishing := Total(Finishing(s.pair, round).pair) > Total(s.pair);
      var reading := if finishing then round.stampClock else LastReading(startClock, rounds);
      var truly := if finishing then time.stamp else LastTime(startClock, startTime, rounds, times);
      Run(startClock, rounds + [round]).exit.IdleOut? && time.now < truly + Limit(s.pair)
      <==> Looks(s, round) && reading != truly && Limit(s.pair) <= round.nowClock < truly + Limit(s.pair)
  {
    hide Finishing, Total, Run, Looks, LastReading, LastTime;
    GivesUpExactlyWhenIdle(startClock, rounds, round);
    LastReadingReadsLastTime(startClock, startTime, rounds, times);
  }

  const QUIET := Round(ShutOk, ShutOk, 0, 0, TimedOut, RecvFailed(Again), RecvFailed(Again),
                       SendFailed(Again), SendFailed(Again), 0)

  const READABLE := Revents(true, false, false, false, false)

  /** A byte comes in, and the reading of the clock after it fails. */
  const BUSY := QUIET.(nowClock := 100_000_000, poll := Ready(READABLE, NO_EVENTS), recvLocal := Bytes([7]), endClock := 0)

  const IDLE_PAIR := Pair(EMPTY, EMPTY)

  const BUSY_PAIR := Pair(Dir([7], [], 1, false, false), EMPTY)

  lemma BusyTurn()
    ensures Step(State(IDLE_PAIR, 100_000_000), BUSY)
      == Turn(StillRunning, State(BUSY_PAIR, 0), Some(Registered(IDLE_PAIR, 100_000_000, 100_000_000)))
  {
    assert Finishing(IDLE_PAIR, BUSY) == Effect(IDLE_PAIR, None, false) && BothCompacted(IDLE_PAIR) == IDLE_PAIR;
    assert Reading(IDLE_PAIR, BUSY, READABLE, NO_EVENTS) == Effect(BUSY_PAIR, None, true) by {
      assert [] + [7][..1] == [7];
    }
    var call := Registered(IDLE_PAIR, 100_000_000, 100_000_000);
    assert Serving(IDLE_PAIR, BUSY, call) == Effect(BUSY_PAIR, None, true);
  }

  lemma QuietTurn()
    ensures Step(State(BUSY_PAIR, 0), QUIET.(nowClock := 100_000_001)) == Turn(IdleOut, State(BUSY_PAIR, 0), None)
  {
    assert Finishing(BUSY_PAIR, QUIET.(nowClock := 100_000_001)) == Effect(BUSY_PAIR, None, false);
    assert BothCompacted(BUSY_PAIR) == BUSY_PAIR;
  }

  /** Such an input: a millisecond after the byte came in, the relay gives up with the
      byte undelivered. */
  lemma AFailedReadingCutsARelayShort()
    ensures Run(100_000_000, [BUSY, QUIET.(nowClock := 100_000_001)]) == Turn(IdleOut, State(BUSY_PAIR, 0), None)
  {
    hide Step;
    var rounds := [BUSY, QUIET.(nowClock := 100_000_001)];
    assert rounds[..1] == [BUSY] && [BUSY][..0] == [];
    BusyTurn();
    QuietTurn();
    assert Run(100_000_000, []) == Turn(StillRunning, State(IDLE_PAIR, 100_000_000), None);
    assert Run(100_000_000, [BUSY]) == Step(State(IDLE_PAIR, 100_000_000), BUSY);
  }
}

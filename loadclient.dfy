/**
 * The load generator's sending loop. `Client` holds the state that the loop
 * carries from one cycle to the next, together with the part of the shared
 * configuration the loop reads: the target list and the request bounds.
 * One call of `Step` is one iteration of the endless loop: read the pacing
 * deadline, apply pending commands, send at most one request round-robin,
 * drain every queued reply, and decide whether to sleep.
 *
 * The sockets, the clock and the random source are parameters: a send that
 * fails is a flag, the queued replies are a batch of datagrams carrying the
 * clock reading at which each is processed, the random draw is a value in
 * the configured bounds, and clock readings are integers in nanoseconds.
 */
module LoadClient {
  import opened Wrappers
  import opened ByteCodec
  import opened RoundRobin
  import opened Throughput
  import opened Pacing

  /** A server endpoint: address and port. */
  datatype Target = Target(ip: string, port: int)

  /** The configuration the command channel may rewrite between cycles. */
  datatype Config = Config(targets: seq<Target>, reqLow: int, reqHigh: int)

  /** Why a send ends the loop: each is an exception the loop does not catch. */
  datatype SendError =
    | EmptyRange   // random.randint with low > high raises ValueError
    | OutOfRange   // struct.pack(">I", v) raises for v outside [0, 2^32)
    | SocketError  // sendto raised

  datatype SendResult =
    | Skipped   // empty target list: nothing is sent
    | Sent(index: nat, target: Target, packet: seq<Byte>)
    | Failed(error: SendError)

  datatype CycleResult =
    | Halted(error: SendError)
    | Completed(send: SendResult, drain: DrainResult, sleep: Option<nat>)

  /** ASCII lower-casing of one character. */
  function LowerChar(c: char): char
  {
    if 'A' <= c <= 'Z' then (c as int + 32) as char else c
  }

  function LowerAscii(s: string): string
  {
    seq(|s|, i requires 0 <= i < |s| => LowerChar(s[i]))
  }

  /** The configured server address means "no server". */
  predicate IsNoneName(s: string)
  {
    LowerAscii(s) == "none"
  }

  /** "none" is recognised in any mix of upper and lower case, and nothing else is. */
  lemma NoneNameSpelling(s: string)
    ensures IsNoneName(s) <==>
              |s| == 4 && (s[0] == 'n' || s[0] == 'N') && (s[1] == 'o' || s[1] == 'O')
              && (s[2] == 'n' || s[2] == 'N') && (s[3] == 'e' || s[3] == 'E')
  {
    if |s| == 4 {
      assert LowerAscii(s)[0] == LowerChar(s[0]);
      assert LowerAscii(s)[1] == LowerChar(s[1]);
      assert LowerAscii(s)[2] == LowerChar(s[2]);
      assert LowerAscii(s)[3] == LowerChar(s[3]);
    }
  }

  /** The target list at loop start: the configured server, unless its address is "none". */
  function InitialTargets(serverIp: string, serverPort: int): (r: seq<Target>)
    ensures |r| <= 1
    ensures r == [] <==> IsNoneName(serverIp)
    ensures r != [] ==> r[0] == Target(serverIp, serverPort)
  {
    if !IsNoneName(serverIp) then [Target(serverIp, serverPort)] else []
  }

  class Client {
    var targets: seq<Target>
    var reqLow: int
    var reqHigh: int
    /** Index of the last target sent to; -1 before the first send. */
    var cursor: int
    var requestsSent: nat
    var repliesReceived: nat
    /** Clock reading (ns) at the start of the current throughput window. */
    var windowStart: int

    function Conf(): Config
      reads this
    {
      Config(targets, reqLow, reqHigh)
    }

    function Meter(): Window
      reads this
    {
      Window(repliesReceived, windowStart)
    }

    /** Loop entry: the initial target list, the cursor at -1, both counters at zero. */
    constructor (serverIp: string, serverPort: int, low: int, high: int, clock: int)
      ensures Conf() == Config(InitialTargets(serverIp, serverPort), low, high)
      ensures cursor == -1 && requestsSent == 0
      ensures Meter() == Window(0, clock)
    {
      targets := [];
      if !IsNoneName(serverIp) {
        targets := targets + [Target(serverIp, serverPort)];
      }
      reqLow, reqHigh := low, high;
      cursor := -1;
      requestsSent, repliesReceived := 0, 0;
      windowStart := clock;
    }

    /**
     * The command channel's poll: its commands are not part of this model,
     * so it may leave any target list and bounds; nothing else changes.
     */
    method ApplyCommands(update: Config)
      modifies this`targets, this`reqLow, this`reqHigh
      ensures Conf() == update
    {
      targets, reqLow, reqHigh := update.targets, update.reqLow, update.reqHigh;
    }

    /**
     * The send step. With no targets nothing happens. Otherwise the cursor
     * advances first; then the draw is packed into 4 bytes and sent to the
     * target under the cursor, and only a successful send is counted.
     */
    method SendOne(draw: int, sendFails: bool) returns (r: SendResult)
      requires reqLow <= reqHigh ==> reqLow <= draw <= reqHigh
      modifies this`cursor, this`requestsSent
      ensures |targets| == 0 ==> r == Skipped && cursor == old(cursor)
      ensures |targets| > 0 ==> cursor == Advance(old(cursor), |targets|) && r != Skipped
      ensures r.Sent? <==> |targets| > 0 && reqLow <= reqHigh && 0 <= draw < 0x1_0000_0000 && !sendFails
      ensures r.Sent? ==>
                r.index == cursor && r.target == targets[cursor]
                && |r.packet| == RequestSize && DecodeBE(r.packet) == draw
                && reqLow <= DecodeBE(r.packet) <= reqHigh
      ensures r.Failed? ==>
                r.error == if reqLow > reqHigh then EmptyRange
                           else if !(0 <= draw < 0x1_0000_0000) then OutOfRange
                           else SocketError
      ensures requestsSent == old(requestsSent) + if r.Sent? then 1 else 0
    {
      if |targets| == 0 {
        return Skipped;
      }
      cursor := Advance(cursor, |targets|);
      if reqLow > reqHigh {
        return Failed(EmptyRange);
      }
      var packet := PackU32(draw);
      if packet.None? {
        return Failed(OutOfRange);
      }
      if sendFails {
        return Failed(SocketError);
      }
      requestsSent := requestsSent + 1;
      r := Sent(cursor, targets[cursor], packet.value);
    }

    /**
     * The reply drain: receive, decode and count the queued datagrams in
     * order until the queue is empty or a report's elapsed time is zero.
     */
    method Drain(batch: seq<Datagram>) returns (r: DrainResult)
      modifies this`repliesReceived, this`windowStart
      ensures r == DrainSpec(old(Meter()), batch)
      ensures Meter() == r.window
    {
      ghost var w0 := Meter();
      var i, reports, stopped := 0, 0, false;
      while i < |batch| && !stopped
        invariant i <= |batch|
        invariant Drained(w0, batch, i) == DrainResult(Meter(), i, reports, stopped)
      {
        var d := batch[i];
        var reply := DecodeReply(d.payload);  // the decoded value is only logged
        repliesReceived := repliesReceived + 1;
        if repliesReceived % WindowSize == 0 {
          if d.clock == windowStart {
            // the rate's divisor is zero: the exception ends the drain
            stopped := true;
          } else {
            reports := reports + 1;
            windowStart := d.clock;
          }
        }
        i := i + 1;
      }
      if stopped {
        DrainStoppedStays(w0, batch, i, |batch|);
      }
      r := DrainResult(Meter(), i, reports, stopped);
    }

    /**
     * One cycle of the loop that starts at `cycleStart` with pacing period
     * `period`: the commands leave configuration `update`, the random draw
     * is `draw`, `batch` is what is queued for the drain, and `now` is the
     * clock when the pacing decision is made.
     */
    method Step(cycleStart: int, period: int, update: Config, draw: int, sendFails: bool,
                batch: seq<Datagram>, now: int) returns (r: CycleResult)
      requires update.reqLow <= update.reqHigh ==> update.reqLow <= draw <= update.reqHigh
      modifies this
      ensures Conf() == update
      ensures |targets| == 0 ==> cursor == old(cursor) && r.Completed? && r.send == Skipped
      ensures |targets| > 0 ==> cursor == Advance(old(cursor), |targets|)
      ensures r.Halted? <==> |targets| > 0 && !(reqLow <= reqHigh && 0 <= draw < 0x1_0000_0000 && !sendFails)
      ensures r.Halted? ==> requestsSent == old(requestsSent) && Meter() == old(Meter())
      ensures r.Completed? ==> (r.send.Sent? <==> |targets| > 0)
      ensures r.Completed? ==>
                requestsSent == old(requestsSent) + (if r.send.Sent? then 1 else 0)
                && r.drain == DrainSpec(old(Meter()), batch) && Meter() == r.drain.window
                && r.sleep == SleepFor(cycleStart + period, now)
      ensures r.Completed? && r.send.Sent? ==>
                r.send.index == cursor && r.send.target == targets[cursor]
                && |r.send.packet| == RequestSize && DecodeBE(r.send.packet) == draw
                && reqLow <= draw <= reqHigh
    {
      var next := cycleStart + period;
      ApplyCommands(update);
      var sent := SendOne(draw, sendFails);
      if sent.Failed? {
        return Halted(sent.error);
      }
      var drained := Drain(batch);
      r := Completed(sent, drained, SleepFor(next, now));
    }
  }
}

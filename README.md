# Load-generator client: the sending loop

This project models the core of a UDP load-generator client: the endless
loop in `start_sending_requests`, which each cycle polls the command
channel, sends one request to the next server round-robin, drains every
queued reply without blocking, reports the throughput every 50 replies,
and sleeps for whatever is left of the cycle's pacing period.

The model is a small state machine. `LoadClient.Client` is a class whose
fields are the loop's carried state: the round-robin cursor (initially
-1), the sent and received counters, the timestamp of the current
throughput window, and the part of the shared configuration the loop
reads (target list, request bounds). Its `Step` method is one cycle. The
sockets, the clock and the random source are parameters:

- the random draw is any integer in the configured bounds;
- a failed `sendto` is a boolean flag;
- the replies queued at drain time are a sequence of datagrams (their
  bytes as the server sent them, plus the clock reading taken while each
  one is processed);
- clock readings are integers in nanoseconds.

The pure parts are modules of functions and lemmas:

- `ByteCodec`: 4-byte big-endian request packing, the 8-byte receive
  buffer, big-endian decoding.
- `RoundRobin`: the cursor advance and the order in which servers are
  visited.
- `Throughput`: the drain and the 50-reply window, as a function of the
  queued batch.
- `Pacing`: the end-of-cycle sleep decision.

`Client.SendOne`, `Client.Drain` and `Client.Step` are each proved against
these functions.

Points where the code's behaviour is easy to misread, each modelled as the
code does it:

- **Send failures.** There is no exception handler around `sendto`
  (client.py:97), so any send error ends the loop, and the request is not
  counted. The same holds for `random.randint` with low > high, and for
  `struct.pack` with a value outside [0, 2^32). All three are the `Halted`
  outcome. The cursor has already advanced when any of them happens.
- **Reply length.** The source's comment at client.py:101 describes
  replies as 8 bytes (unsigned long long). The code receives into an
  8-byte buffer and decodes whatever length arrives. Longer datagrams are
  cut to 8 bytes, and shorter ones decode to smaller values.
- **A second way the drain ends.** The throughput report divides by the
  time since the last window reset. If the clock has not moved, that
  division raises. The generic handler that ends the drain on receive
  errors catches it. The reply is already counted, no report is logged,
  and the window timestamp is not reset.
- **When the period is read.** The cycle's pacing deadline is computed
  before the commands are applied. So a change of rate tier affects the
  next cycle's pacing, not the current one. New targets and bounds do
  apply to the current cycle's send.
- **The sleep.** The code reads the clock twice (see Findings). The model
  uses a single reading.

## Model

| member | source | states |
|---|---|---|
| `ByteCodec.PackU32` | client.py:87-90 | packing succeeds exactly for 0 <= v < 2^32 (otherwise `struct.error`); the result is exactly 4 bytes whose big-endian value is v |
| `ByteCodec.DecodeBE` | client.py:107 | the big-endian value of n bytes is below 256^n |
| `ByteCodec.DecodeEncode` | client.py:90 | decoding the n-byte big-endian encoding of any v < 256^n returns v (for n = 4: every request value round-trips) |
| `ByteCodec.EncodeDecode` | client.py:107 | re-encoding a byte string's decoded value at its own width gives back the same bytes, so decoding is injective for each length |
| `ByteCodec.Received` | client.py:104 | a receive into an 8-byte buffer yields a prefix of the datagram of at most 8 bytes: the whole datagram if it fits, else exactly its first 8 bytes |
| `ByteCodec.DecodeReply` | client.py:104-107 | a decoded reply is below 2^(8*length received), hence below 2^64 |
| `RoundRobin.Advance` | client.py:84-85 | the new cursor lies in [0, len); from -1 up to len-2 it is the old one plus 1, and from len-1 it wraps to 0 |
| `RoundRobin.VisitsAt` | client.py:85 | the j-th of k consecutive sends from cursor c uses index (c + 1 + j) % len |
| `RoundRobin.FirstRound` | client.py:68-85 | from the initial cursor -1 the first len sends use indices 0, 1, ..., len-1 in that order |
| `RoundRobin.RoundRobinWindow` | client.py:85-97 | any len consecutive sends to an unchanged list, from any cursor, use every index exactly once (all indices present and pairwise distinct), each the successor of the previous, wrapping from len-1 to 0 |
| `RoundRobin.VisitsRepeat` | client.py:85 | after the first round the order repeats: send j + len uses the same index as send j |
| `Throughput.Absorb` | client.py:104-113 | one reply adds 1 to the count; the timestamp changes only on a multiple of 50; at a multiple, a report is logged and the timestamp is reset to the current clock, unless the elapsed time is zero, in which case the drain stops and the timestamp stays |
| `Throughput.Drained` | client.py:102-119 | draining the first n queued datagrams processes at most n of them |
| `Throughput.DrainCount` | client.py:103-119 | the count grows by exactly the number processed; the whole batch is processed unless the drain stopped, and a stop happens only right after a datagram that made the count a multiple of 50 while its clock equalled the window's timestamp |
| `Throughput.DrainCrossings` | client.py:109-113 | every count reached that is a multiple of 50 is reported, except the one on which the drain stopped |
| `Throughput.DrainReports` | client.py:109-113 | going from count r to r + k, reports plus the one stopped report equal (r + k)/50 - r/50 |
| `Throughput.DrainReportsWhole` | client.py:109-113 | when the whole batch of k replies is drained, exactly (r + k)/50 - r/50 reports are logged |
| `Throughput.DrainWindowKept` | client.py:109-113 | if the count reaches no multiple of 50 the window timestamp is unchanged |
| `Throughput.DrainWindowMoved` | client.py:109-113 | if the window timestamp changed, it is the clock of a datagram that made the count a multiple of 50 |
| `Throughput.DrainWindowLastReport` | client.py:109-113 | a drain that logged no report leaves the timestamp unchanged; otherwise the timestamp is the clock of the datagram that logged a report, with no report logged after it |
| `Throughput.DrainStoppedStays` | client.py:115-119 | once the drain has ended, datagrams still queued do not affect that cycle's outcome |
| `Pacing.SleepFor` | client.py:124-125 | a sleep happens exactly when now < next; its duration is then strictly positive and ends exactly at next |
| `Pacing.NextCycleStart` | client.py:124-125 | the next cycle starts at max(next, now): an overrun is not made up |
| `Pacing.SleepAsWritten` | client.py:124-125 | as written: no sleep exactly when the tested reading is not before next; a negative (raising) sleep exactly when the tested reading is before next and the second reading is after it |
| `Pacing.SleepAsWrittenCanRaise` | client.py:124-125 | a concrete pair of readings, 1 ns either side of the deadline, for which the written step asks for a sleep of -1 ns |
| `Pacing.SleepAsWrittenOneReading` | client.py:124-125 | when both readings are the same, the written step never raises and agrees with `SleepFor` |
| `LoadClient.NoneNameSpelling` | client.py:57 | the server address counts as "none" exactly when it is n-o-n-e in any mix of upper and lower case |
| `LoadClient.InitialTargets` | client.py:56-60 | the initial list has at most one entry; it is empty exactly when the address is "none", and otherwise it is (server_ip, server_port) |
| `LoadClient.Client.constructor` | client.py:56-72 | the loop starts with the initial target list, the configured bounds, cursor -1, both counters 0, and the window timestamp at the starting clock |
| `LoadClient.Client.ApplyCommands` | client.py:79 | the command poll may leave any target list and bounds, and changes no loop state |
| `LoadClient.Client.SendOne` | client.py:81-98 | with no targets: nothing sent, cursor and count unchanged. Otherwise the cursor becomes Advance(old, len) before anything can fail; a send happens exactly when low <= high, the draw fits 32 bits and sendto succeeds; it goes to the target under the new cursor with 4 bytes decoding to the draw, within [low, high]; the count rises by 1 exactly on a send |
| `LoadClient.Client.Drain` | client.py:100-119 | queued datagrams are received and decoded in order until the queue is empty or a report's elapsed time is zero; the new count and window timestamp, the number processed, the reports logged and whether the drain stopped are exactly `DrainSpec` of the old window and the batch |
| `LoadClient.Client.Step` | client.py:74-125 | one cycle: the configuration becomes the command poll's; an empty list sends nothing, keeps the cursor and still drains; the cycle halts exactly on a failed send; a completed cycle sends exactly when the list is non-empty, and the sent count rises by 1 exactly on a send, the counters and window follow `DrainSpec`, and the sleep is `SleepFor(start + period, now)` |

## Findings

| source | as written | input that shows it | evidently intended | confidence | as-written member | corrected member |
|---|---|---|---|---|---|---|
| client.py:124-125 | The clock is read once for the test `time.time() < next_sleep_time` and again for the argument `next_sleep_time - time.time()`. | Deadline 1 000 000 000 ns. The test reads 999 999 999 and the argument read gives 1 000 000 001. `time.sleep` gets -1 ns and raises ValueError, which nothing catches, so the client stops (`Pacing.SleepAsWrittenCanRaise`). | Sleep only the non-negative time left, computed from the clock reading that was tested. | low; not executed; needs the clock to pass the deadline between two consecutive reads | `Pacing.SleepAsWritten` | `Pacing.SleepFor` |

## Left out

- `client_init` and `make_fd_non_blocking`: logging setup, FIFO creation and opening, the stdin fallback and the non-blocking flag are operating-system plumbing.
- `signal_handler` and the `__main__` block: signal handling, FIFO file removal, loading the JSON configuration and process exit.
- client_communicator.py: an interactive line-reading loop that appends to the FIFO through the shell; it holds no stateable logic.
- `ClientFIFO.check_fifo`: its module `client_common_services` is not part of this model. Its effect is modelled only as an arbitrary replacement of the target list and bounds (`ApplyCommands`).
- The invalid `req_load` check and the period lookup (client.py:75-77): the lookup's outcome depends on configuration contents. The period is a parameter of `Step`.
- Time is integer nanoseconds. The source's floating-point seconds, and its throughput value (a floating-point division), are not modelled. The model records only when a report is logged, or when the division raises.
- The report's two clock reads (one for the rate, one for the reset) are modelled as one reading per processed datagram.
- `str.lower()` is modelled for ASCII letters only. Unicode case mappings are not.
- Socket addressing and the sender address returned by `recvfrom` are left out. The model returns the chosen target and the packet instead of transmitting them.
- The STATS and debug logging lines. The decoded reply value (client.py:107) is only logged, so `Client.Drain` computes it and does not return it; its bound is stated on `ByteCodec.DecodeReply`.
- The endless `while True` itself: `Step` is one iteration. The drain's receive errors (would-block or any other) are represented by where the queued batch ends.
- `LoadClient.Client.Step`: the sleep is the single-reading `SleepFor`, so the uncaught ValueError of a negative sleep (client.py:124-125, see Findings) does not halt the modelled cycle; `Pacing.SleepAsWritten` models that path separately.
- `LoadClient.Client.SendOne`: `random.randint`'s uniform distribution is not modelled. Any draw within [low, high] is accepted.

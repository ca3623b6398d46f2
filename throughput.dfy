/**
 * The reply drain and the throughput window, as a function of the replies
 * queued when the drain starts. Every received datagram is decoded and
 * counted; each time the count reaches a multiple of the window size a
 * throughput report is logged and the window's timestamp is reset to the
 * current clock. The report divides by the time elapsed since the previous
 * reset: when the clock has not moved that division raises, the generic
 * exception handler ends the drain, and the timestamp keeps its old value.
 */
module Throughput {
  import opened ByteCodec

  /** Replies per throughput window. */
  const WindowSize: nat := 50

  /** One queued reply: its bytes as sent, and the clock reading (ns) taken while it is processed. */
  datatype Datagram = Datagram(payload: seq<Byte>, clock: int)

  /** Total replies received so far, and the timestamp (ns) of the last window reset. */
  datatype Window = Window(count: nat, start: int)

  /**
   * The outcome of draining: the new window, how many datagrams were
   * processed, how many reports were logged, and whether the drain ended on
   * a zero elapsed time rather than on an empty queue.
   */
  datatype DrainResult = DrainResult(window: Window, processed: nat, reports: nat, stopped: bool)

  /** A reply count that completes a throughput window. */
  predicate ClosesWindow(count: nat)
  {
    count % WindowSize == 0
  }

  /** Processing one more datagram after the drain result r. */
  function Absorb(r: DrainResult, d: Datagram): (r': DrainResult)
    requires !r.stopped
    ensures r'.window.count == r.window.count + 1 && r'.processed == r.processed + 1
    ensures !ClosesWindow(r'.window.count) ==> r'.window == Window(r.window.count + 1, r.window.start)
    ensures r'.window.start != r.window.start ==> ClosesWindow(r'.window.count) && r'.window.start == d.clock
    ensures ClosesWindow(r'.window.count) && !r'.stopped ==> r'.window.start == d.clock
    ensures r'.stopped <==> ClosesWindow(r'.window.count) && d.clock == r.window.start
    ensures r'.reports == r.reports + (if ClosesWindow(r'.window.count) && !r'.stopped then 1 else 0)
  {
    var count := r.window.count + 1;
    var closes := ClosesWindow(count);
    var zeroSpan := closes && d.clock == r.window.start;
    var reported := closes && !zeroSpan;
    DrainResult(Window(count, if reported then d.clock else r.window.start),
                r.processed + 1, if reported then r.reports + 1 else r.reports, zeroSpan)
  }

  /** Draining the first n queued datagrams of `batch`, in order, from window w. */
  function Drained(w: Window, batch: seq<Datagram>, n: nat): (r: DrainResult)
    requires n <= |batch|
    ensures r.processed <= n
  {
    if n == 0 then DrainResult(w, 0, 0, false)
    else
      var prev := Drained(w, batch, n - 1);
      if prev.stopped then prev else Absorb(prev, batch[n - 1])
  }

  /** One more datagram: the drain so far, unless it had stopped, absorbs the n-th datagram. */
  lemma DrainedStep(w: Window, batch: seq<Datagram>, n: nat)
    requires 0 < n <= |batch|
    ensures Drained(w, batch, n - 1).stopped ==> Drained(w, batch, n) == Drained(w, batch, n - 1)
    ensures !Drained(w, batch, n - 1).stopped ==> Drained(w, batch, n) == Absorb(Drained(w, batch, n - 1), batch[n - 1])
  {
  }

  /** Draining the whole queued batch from window w. */
  function DrainSpec(w: Window, batch: seq<Datagram>): DrainResult
  {
    Drained(w, batch, |batch|)
  }

  /**
   * The count grows by exactly the number of datagrams processed; all of the
   * first n are processed unless the drain stopped on a zero elapsed time,
   * and then the last processed datagram completed a window whose start
   * equals that datagram's clock.
   */
  lemma {:induction false} DrainCount(w: Window, batch: seq<Datagram>, n: nat)
    requires n <= |batch|
    ensures Drained(w, batch, n).window.count == w.count + Drained(w, batch, n).processed
    ensures !Drained(w, batch, n).stopped ==> Drained(w, batch, n).processed == n
    ensures Drained(w, batch, n).stopped ==>
              Drained(w, batch, n).processed > 0
              && ClosesWindow(Drained(w, batch, n).window.count)
              && batch[Drained(w, batch, n).processed - 1].clock == Drained(w, batch, n).window.start
  {
    if n > 0 {
      DrainCount(w, batch, n - 1);
      DrainedStep(w, batch, n);
    }
  }

  /** How many of the counts c + 1, ..., c + k complete a window. */
  function Crossings(c: nat, k: nat): nat
  {
    if k == 0 then 0 else Crossings(c, k - 1) + if ClosesWindow(c + k) then 1 else 0
  }

  /** Counting from c to c + k completes (c + k)/50 - c/50 windows. */
  lemma {:induction false} CrossingsFormula(c: nat, k: nat)
    ensures Crossings(c, k) == (c + k) / WindowSize - c / WindowSize
  {
    if k > 0 {
      CrossingsFormula(c, k - 1);
      assert (c + k) / WindowSize == (c + k - 1) / WindowSize + if (c + k) % WindowSize == 0 then 1 else 0;
    }
  }

  /** One absorbed datagram adds its completed window, if any, to the reports or ends the drain. */
  lemma AbsorbCrossings(r: DrainResult, d: Datagram, c: nat)
    requires !r.stopped && r.window.count == c + r.processed && r.reports == Crossings(c, r.processed)
    ensures Absorb(r, d).reports + (if Absorb(r, d).stopped then 1 else 0) == Crossings(c, r.processed + 1)
  {
  }

  /** Every completed window is reported, except the one on which the drain stopped. */
  lemma {:induction false} DrainCrossings(w: Window, batch: seq<Datagram>, n: nat)
    requires n <= |batch|
    ensures Drained(w, batch, n).reports + (if Drained(w, batch, n).stopped then 1 else 0)
            == Crossings(w.count, Drained(w, batch, n).processed)
  {
    if n > 0 {
      DrainCrossings(w, batch, n - 1);
      DrainCount(w, batch, n - 1);
      var prev := Drained(w, batch, n - 1);
      DrainedStep(w, batch, n);
      if !prev.stopped {
        AbsorbCrossings(prev, batch[n - 1], w.count);
        assert Drained(w, batch, n) == Absorb(prev, batch[n - 1]);
      }
    }
  }

  /**
   * Going from count r to count r + k, a report is logged at every multiple
   * of the window size passed, (r + k)/50 - r/50 of them, except the one on
   * which the drain stopped.
   */
  lemma DrainReports(w: Window, batch: seq<Datagram>, n: nat)
    requires n <= |batch|
    ensures Drained(w, batch, n).reports + (if Drained(w, batch, n).stopped then 1 else 0)
            == (w.count + Drained(w, batch, n).processed) / WindowSize - w.count / WindowSize
  {
    DrainCrossings(w, batch, n);
    CrossingsFormula(w.count, Drained(w, batch, n).processed);
  }

  /** When the whole batch of k replies is drained from count r, exactly (r + k)/50 - r/50 reports are logged. */
  lemma DrainReportsWhole(w: Window, batch: seq<Datagram>)
    requires !DrainSpec(w, batch).stopped
    ensures DrainSpec(w, batch).reports == (w.count + |batch|) / WindowSize - w.count / WindowSize
  {
    DrainCount(w, batch, |batch|);
    DrainReports(w, batch, |batch|);
  }

  /** Without a completed window the timestamp stays. */
  lemma {:induction false} DrainNoCrossingKeeps(w: Window, batch: seq<Datagram>, n: nat)
    requires n <= |batch|
    ensures Crossings(w.count, Drained(w, batch, n).processed) == 0 ==> Drained(w, batch, n).window.start == w.start
  {
    if n > 0 {
      DrainNoCrossingKeeps(w, batch, n - 1);
      DrainCount(w, batch, n - 1);
      DrainedStep(w, batch, n);
    }
  }

  /** If the count reaches no multiple of the window size, the window timestamp stays. */
  lemma DrainWindowKept(w: Window, batch: seq<Datagram>, n: nat)
    requires n <= |batch|
    ensures (w.count + Drained(w, batch, n).processed) / WindowSize == w.count / WindowSize
            ==> Drained(w, batch, n).window.start == w.start
  {
    DrainNoCrossingKeeps(w, batch, n);
    CrossingsFormula(w.count, Drained(w, batch, n).processed);
  }

  /** The window timestamp moves only to the clock of a datagram whose count was a multiple of the window size. */
  lemma {:induction false} DrainWindowMoved(w: Window, batch: seq<Datagram>, n: nat)
    requires n <= |batch|
    ensures Drained(w, batch, n).window.start == w.start
            || exists j :: 0 <= j < Drained(w, batch, n).processed
                           && ClosesWindow(w.count + j + 1)
                           && Drained(w, batch, n).window.start == batch[j].clock
  {
    if n > 0 {
      DrainWindowMoved(w, batch, n - 1);
      DrainCount(w, batch, n - 1);
      DrainedStep(w, batch, n);
      var prev := Drained(w, batch, n - 1);
      var r := Drained(w, batch, n);
      if !prev.stopped && r.window.start != prev.window.start {
        var j := prev.processed;
        assert ClosesWindow(w.count + j + 1) && r.window.start == batch[j].clock;
      }
    }
  }

  /**
   * Datagram j of the first n logged a report, no report came after it, and
   * the window timestamp after n datagrams is its clock.
   */
  predicate LastReportAt(w: Window, batch: seq<Datagram>, n: nat, j: nat)
    requires n <= |batch|
  {
    j < Drained(w, batch, n).processed
    && Drained(w, batch, j).reports < Drained(w, batch, j + 1).reports
    && Drained(w, batch, j + 1).reports == Drained(w, batch, n).reports
    && Drained(w, batch, n).window.start == batch[j].clock
  }

  /**
   * A drain that logged no report keeps the timestamp; otherwise the
   * timestamp is the clock of the datagram that logged the last report.
   */
  lemma {:induction false} DrainWindowLastReport(w: Window, batch: seq<Datagram>, n: nat)
    requires n <= |batch|
    ensures Drained(w, batch, n).reports == 0 ==> Drained(w, batch, n).window.start == w.start
    ensures Drained(w, batch, n).reports > 0 ==> exists j :: LastReportAt(w, batch, n, j)
  {
    if n > 0 {
      DrainWindowLastReport(w, batch, n - 1);
      DrainCount(w, batch, n - 1);
      DrainedStep(w, batch, n);
      var prev := Drained(w, batch, n - 1);
      var r := Drained(w, batch, n);
      if !prev.stopped && r.reports > prev.reports {
        assert LastReportAt(w, batch, n, n - 1);
      } else if r.reports > 0 {
        assert r.reports == prev.reports && r.window.start == prev.window.start;
        var j :| LastReportAt(w, batch, n - 1, j);
        assert LastReportAt(w, batch, n, j);
      }
    }
  }

  /** Once the drain has stopped, the datagrams still queued do not change its outcome. */
  lemma {:induction false} DrainStoppedStays(w: Window, batch: seq<Datagram>, i: nat, n: nat)
    requires i <= n <= |batch| && Drained(w, batch, i).stopped
    ensures Drained(w, batch, n) == Drained(w, batch, i)
  {
    if i < n {
      DrainStoppedStays(w, batch, i, n - 1);
      DrainedStep(w, batch, n);
    }
  }
}

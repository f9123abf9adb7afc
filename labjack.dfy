/**
 * Stream bookkeeping of the LabJack T4/T7 driver
 * (jackfish/devices/daqs/labjack.py): channel-list normalisation, the
 * fixed-capacity preview buffer `dataQ`, the per-read scan and skip
 * counters, the record file (one header line, then one row per scan) and
 * the `streaming` / `collect_dataQ` flags.
 *
 * The vendor library is replaced by parameters: `eStreamStart` by the
 * scan rate it reports (or `None` when it raises), and the callback's
 * `eStreamRead` loop by a caller-supplied sequence of events, where a
 * batch is one read and the other events are the control thread's calls
 * (`stop_stream`, `start_collect_dataQ`, `stop_collect_dataQ`) landing
 * between two reads.
 */
module LabJackStream {
  import opened Common

  /** The value the device puts in place of a sample lost to a buffer overflow. */
  const SKIP_SENTINEL: real := -9999.0

  /** A line of the record file: the JSON header, or one scan of `savetxt`. */
  datatype Line = Header(inputChannels: Dict, scanRate: nat) | Row(samples: seq<real>)

  /** The `input_channels` argument: a list of names or a name-to-nickname dict. */
  datatype ChannelArg = NameList(names: seq<string>) | NameMap(entries: Dict)

  /** What the callback thread sees between two checks of `streaming`. */
  datatype StreamEvent =
    | Batch(data: seq<real>)   // one `eStreamRead` result
    | StopRequested            // `stop_stream` called by the control thread
    | CollectOn                // `start_collect_dataQ`
    | CollectOff               // `stop_collect_dataQ`

  // ---------------------------------------------------------------------
  // Channel normalisation
  // ---------------------------------------------------------------------

  /** `{chan: chan for chan in names}`. */
  function FromNames(names: seq<string>): (d: Dict)
    ensures IsDict(d)
    ensures forall i :: 0 <= i < |d| ==> d[i].0 == d[i].1 && d[i].0 in names
    ensures forall c :: c in names ==> c in Keys(d)
    ensures |d| <= |names|
  {
    if names == [] then []
    else
      var prev := FromNames(names[..|names| - 1]);
      var c := names[|names| - 1];
      assert forall x :: x in names ==> x in names[..|names| - 1] || x == c;
      Put(prev, c, c)
  }

  /** Distinct names keep their order and each maps to itself, one entry per name. */
  lemma {:induction false} FromDistinctNames(names: seq<string>)
    requires Distinct(names)
    ensures Keys(FromNames(names)) == names
    ensures |FromNames(names)| == |names|
  {
    if names != [] {
      var init := names[..|names| - 1];
      FromDistinctNames(init);
      assert names[|names| - 1] !in init;
      assert init + [names[|names| - 1]] == names;
    }
  }

  /** Lines 71-73: a dict is kept as given, a list of names becomes `{c: c}`. */
  function NormaliseChannels(arg: ChannelArg): (d: Dict)
    requires arg.NameMap? ==> IsDict(arg.entries)
    ensures IsDict(d)
    ensures arg.NameMap? ==> d == arg.entries
    ensures arg.NameList? ==> forall i :: 0 <= i < |d| ==> d[i].0 == d[i].1
    ensures arg.NameList? ==> forall c :: c in arg.names <==> c in Keys(d)
  {
    match arg
    case NameList(names) => FromNames(names)
    case NameMap(entries) => entries
  }

  // ---------------------------------------------------------------------
  // Per-read bookkeeping
  // ---------------------------------------------------------------------

  /** Line 80: the queue holds `data_q_len_sec` seconds of every channel at the scan rate. */
  function QueueLength(seconds: nat, scanRate: nat, nChannels: nat): nat
  {
    seconds * scanRate * nChannels
  }

  /** `data.count(-9999.0)`. */
  function CountSkips(data: seq<real>): (k: nat)
    ensures k == multiset(data)[SKIP_SENTINEL]
    ensures k <= |data|
  {
    if data == [] then 0
    else
      assert data == [data[0]] + data[1..];
      (if data[0] == SKIP_SENTINEL then 1 else 0) + CountSkips(data[1..])
  }

  /** `reshape((-1, n))` written out by `savetxt`: one row of `n` samples per scan. */
  function Rows(data: seq<real>, n: nat): seq<Line>
    requires n > 0 && |data| % n == 0
    decreases |data|
  {
    if |data| == 0 then []
    else
      ModStep(|data|, n);
      [Row(data[..n])] + Rows(data[n..], n)
  }

  lemma {:induction false} MulAtLeast(k: int, n: int)
    requires k >= 1 && n > 0
    ensures k * n >= n
  {
    if k > 1 {
      MulAtLeast(k - 1, n);
      assert k * n == (k - 1) * n + n;
    }
  }

  /** Euclidean division is determined by quotient and remainder. */
  lemma DivUnique(x: int, n: int, q: int, r: int)
    requires n > 0 && 0 <= r < n && x == q * n + r
    ensures x / n == q && x % n == r
  {
    var q', r' := x / n, x % n;
    assert x == q' * n + r' && 0 <= r' < n;
    if q' > q {
      assert q' * n - q * n == (q' - q) * n;
      MulAtLeast(q' - q, n);
    } else if q' < q {
      assert q * n - q' * n == (q - q') * n;
      MulAtLeast(q - q', n);
    }
  }

  /** Taking one scan off a batch of whole scans leaves whole scans, one fewer. */
  lemma ModStep(m: nat, n: nat)
    requires n > 0 && m > 0 && m % n == 0
    ensures m >= n && (m - n) % n == 0 && (m - n) / n == m / n - 1
  {
    var q := m / n;
    assert m == q * n;
    assert q >= 1;
    MulAtLeast(q, n);
    assert m - n == (q - 1) * n + 0;
    DivUnique(m - n, n, q - 1, 0);
  }

  /** The samples of the rows, in file order. */
  function Flatten(lines: seq<Line>): seq<real>
  {
    if lines == [] then []
    else (if lines[0].Row? then lines[0].samples else []) + Flatten(lines[1..])
  }

  lemma {:induction false} FlattenAppend(x: seq<Line>, y: seq<Line>)
    ensures Flatten(x + y) == Flatten(x) + Flatten(y)
  {
    if x != [] {
      assert (x + y)[1..] == x[1..] + y;
      FlattenAppend(x[1..], y);
    } else {
      assert x + y == y;
    }
  }

  /** All lines are rows of `n` samples. */
  predicate RowsOfWidth(lines: seq<Line>, n: nat)
  {
    forall i :: 0 <= i < |lines| ==> lines[i].Row? && |lines[i].samples| == n
  }

  /** A batch is written as `len(data)/n` rows of width `n`, and reading the rows back in order gives the batch. */
  lemma {:induction false} RowsRoundTrip(data: seq<real>, n: nat)
    requires n > 0 && |data| % n == 0
    ensures |Rows(data, n)| == |data| / n
    ensures RowsOfWidth(Rows(data, n), n)
    ensures Flatten(Rows(data, n)) == data
    decreases |data|
  {
    if |data| > 0 {
      ModStep(|data|, n);
      RowsRoundTrip(data[n..], n);
      var first := [Row(data[..n])];
      assert Rows(data, n) == first + Rows(data[n..], n);
      FlattenAppend(first, Rows(data[n..], n));
      assert first[1..] == [];
      assert Flatten(first) == data[..n];
      assert data[..n] + data[n..] == data;
    }
  }

  /** `deque.extend` on a deque with `maxlen = cap` that is already full: the newest `cap` samples. */
  function Window(q: seq<real>, cap: nat): (w: seq<real>)
    requires cap <= |q|
    ensures |w| == cap
    ensures forall i :: 0 <= i < cap ==> w[i] == q[|q| - cap + i]
  {
    q[|q| - cap..]
  }

  /** Two extensions of a full deque keep the newest samples of both batches together. */
  lemma WindowCompose(q: seq<real>, a: seq<real>, b: seq<real>)
    ensures Window(Window(q + a, |q|) + b, |q|) == Window(q + (a + b), |q|)
  {
    var x := q + a + b;
    assert q + (a + b) == x;
    var w := (q + a)[|a|..];
    assert w + b == x[|a|..];
    assert (w + b)[|b|..] == x[|a| + |b|..];
  }

  /** The abstract state the callback reads and writes. */
  datatype Snapshot = Snapshot(
    streaming: bool,
    collect: bool,
    totScans: real,
    totSkip: nat,
    dataQ: seq<real>,
    recordFile: seq<Line>,
    recordOpen: bool)

  /**
   * Whether the record step of a read goes through: `reshape` raises on a
   * batch that is not whole scans, and `savetxt` raises on a closed file.
   * Either exception is caught per read and skips the preview step too.
   */
  predicate Writable(s: Snapshot, n: nat, doRecord: bool, data: seq<real>)
    requires n > 0
  {
    !doRecord || (s.recordOpen && |data| % n == 0)
  }

  /** One pass of the `while self.streaming` body for a read `data` (lines 172-205). */
  function OnBatch(s: Snapshot, n: nat, doRecord: bool, data: seq<real>): Snapshot
  {
    if n == 0 then s  // `len(data) / 0` raises before any counter moves
    else
      var counted := s.(totScans := s.totScans + (|data| as real) / (n as real),
                        totSkip := s.totSkip + CountSkips(data));
      if !Writable(s, n, doRecord, data) then counted
      else
        var recorded := if doRecord then counted.(recordFile := s.recordFile + Rows(data, n)) else counted;
        if s.collect then recorded.(dataQ := Window(s.dataQ + data, |s.dataQ|)) else recorded
  }

  /** `stop_stream`: clears `streaming` when it is set, nothing otherwise. */
  function OnStop(s: Snapshot): Snapshot
  {
    if s.streaming then s.(streaming := false) else s
  }

  function OnEvent(s: Snapshot, n: nat, doRecord: bool, ev: StreamEvent): Snapshot
  {
    match ev
    case Batch(data) => OnBatch(s, n, doRecord, data)
    case StopRequested => OnStop(s)
    case CollectOn => s.(collect := true)
    case CollectOff => s.(collect := false)
  }

  /** The `while self.streaming` loop over the events available. */
  function Drain(s: Snapshot, n: nat, doRecord: bool, events: seq<StreamEvent>): Snapshot
    decreases |events|
  {
    if !s.streaming || events == [] then s
    else Drain(OnEvent(s, n, doRecord, events[0]), n, doRecord, events[1..])
  }

  /** `stream_callback`: reset the counters, run the loop, and close the file in the loop's `else`. */
  function Callback(s: Snapshot, n: nat, doRecord: bool, events: seq<StreamEvent>): Snapshot
  {
    var after := Drain(s.(totScans := 0.0, totSkip := 0), n, doRecord, events);
    if !after.streaming && doRecord then after.(recordOpen := false) else after
  }

  // ---------------------------------------------------------------------
  // What the loop adds up to
  // ---------------------------------------------------------------------

  /** The events the loop consumes while streaming: everything before the first stop. */
  function UntilStop(events: seq<StreamEvent>): (p: seq<StreamEvent>)
    ensures |p| <= |events| && p == events[..|p|]
    ensures StopRequested !in p
    ensures |p| == |events| || events[|p|] == StopRequested
  {
    if events == [] || events[0] == StopRequested then []
    else [events[0]] + UntilStop(events[1..])
  }

  /** The reads among some events, in order. */
  function Reads(events: seq<StreamEvent>): seq<seq<real>>
  {
    if events == [] then []
    else (if events[0].Batch? then [events[0].data] else []) + Reads(events[1..])
  }

  function SkipTotal(batches: seq<seq<real>>): nat
  {
    if batches == [] then 0 else CountSkips(batches[0]) + SkipTotal(batches[1..])
  }

  function ScanTotal(batches: seq<seq<real>>, n: nat): real
    requires n > 0
  {
    if batches == [] then 0.0 else (|batches[0]| as real) / (n as real) + ScanTotal(batches[1..], n)
  }

  function Concat(batches: seq<seq<real>>): seq<real>
  {
    if batches == [] then [] else batches[0] + Concat(batches[1..])
  }

  /** The rows of several batches, one after the other. */
  function RowsOf(batches: seq<seq<real>>, n: nat): seq<Line>
    requires n > 0 && forall i :: 0 <= i < |batches| ==> |batches[i]| % n == 0
  {
    if batches == [] then [] else Rows(batches[0], n) + RowsOf(batches[1..], n)
  }

  lemma UntilStopCons(events: seq<StreamEvent>)
    requires events != [] && events[0] != StopRequested
    ensures UntilStop(events) == [events[0]] + UntilStop(events[1..])
  {
  }

  lemma ReadsCons(e: StreamEvent, rest: seq<StreamEvent>)
    ensures Reads([e] + rest) == (if e.Batch? then [e.data] else []) + Reads(rest)
  {
    assert ([e] + rest)[1..] == rest;
  }

  /** One event moves the counters by what its read adds, and only a stop clears `streaming`. */
  lemma OnEventCounters(s: Snapshot, n: nat, doRecord: bool, e: StreamEvent)
    requires n > 0
    ensures e != StopRequested ==> OnEvent(s, n, doRecord, e).streaming == s.streaming
    ensures OnEvent(s, n, doRecord, e).totSkip == s.totSkip + (if e.Batch? then CountSkips(e.data) else 0)
    ensures OnEvent(s, n, doRecord, e).totScans ==
              s.totScans + (if e.Batch? then (|e.data| as real) / (n as real) else 0.0)
  {
  }

  /**
   * Over a callback run, `totScans` grows by `len(data)/n` and `totSkip` by
   * the number of sentinels of every read before the stop.
   */
  lemma {:induction false} DrainCounters(s: Snapshot, n: nat, doRecord: bool, events: seq<StreamEvent>)
    requires s.streaming && n > 0
    ensures Drain(s, n, doRecord, events).totSkip == s.totSkip + SkipTotal(Reads(UntilStop(events)))
    ensures Drain(s, n, doRecord, events).totScans == s.totScans + ScanTotal(Reads(UntilStop(events)), n)
    decreases |events|
  {
    if events == [] {
    } else if events[0] == StopRequested {
      assert Drain(s, n, doRecord, events) == OnStop(s);
    } else {
      var e := events[0];
      var rest := UntilStop(events[1..]);
      OnEventCounters(s, n, doRecord, e);
      DrainCounters(OnEvent(s, n, doRecord, e), n, doRecord, events[1..]);
      UntilStopCons(events);
      ReadsCons(e, rest);
      if e.Batch? {
        assert ([e.data] + Reads(rest))[1..] == Reads(rest);
      } else {
        assert Reads(UntilStop(events)) == Reads(rest);
      }
    }
  }

  /** A callback run counts exactly the reads it consumed, from zero. */
  lemma CallbackCounters(s: Snapshot, n: nat, doRecord: bool, events: seq<StreamEvent>)
    requires s.streaming && n > 0
    ensures Callback(s, n, doRecord, events).totSkip == SkipTotal(Reads(UntilStop(events)))
    ensures Callback(s, n, doRecord, events).totScans == ScanTotal(Reads(UntilStop(events)), n)
  {
    DrainCounters(s.(totScans := 0.0, totSkip := 0), n, doRecord, events);
  }

  /**
   * The loop ends exactly at the first stop; the record file is closed
   * exactly when recording and the loop has ended.
   */
  lemma {:induction false} DrainStopsAtStop(s: Snapshot, n: nat, doRecord: bool, events: seq<StreamEvent>)
    requires s.streaming
    ensures !Drain(s, n, doRecord, events).streaming <==> StopRequested in events
    ensures Drain(s, n, doRecord, events).recordOpen == s.recordOpen
    decreases |events|
  {
    if events != [] && events[0] != StopRequested {
      DrainStopsAtStop(OnEvent(s, n, doRecord, events[0]), n, doRecord, events[1..]);
      assert events == [events[0]] + events[1..];
    }
  }

  lemma CallbackClosesFile(s: Snapshot, n: nat, doRecord: bool, events: seq<StreamEvent>)
    ensures Callback(s, n, doRecord, events).recordOpen ==
              (s.recordOpen && !(doRecord && (!s.streaming || StopRequested in events)))
    ensures s.streaming ==> (Callback(s, n, doRecord, events).streaming <==> StopRequested !in events)
  {
    if s.streaming {
      DrainStopsAtStop(s.(totScans := 0.0, totSkip := 0), n, doRecord, events);
    }
  }

  /** The preview buffer never changes length. */
  lemma {:induction false} DrainKeepsQueueLength(s: Snapshot, n: nat, doRecord: bool, events: seq<StreamEvent>)
    ensures |Drain(s, n, doRecord, events).dataQ| == |s.dataQ|
    decreases |events|
  {
    if s.streaming && events != [] {
      DrainKeepsQueueLength(OnEvent(s, n, doRecord, events[0]), n, doRecord, events[1..]);
    }
  }

  /** While collection is off and nobody turns it on, the preview buffer does not change. */
  lemma {:induction false} DrainQueueFrozen(s: Snapshot, n: nat, doRecord: bool, events: seq<StreamEvent>)
    requires !s.collect && CollectOn !in events
    ensures Drain(s, n, doRecord, events).dataQ == s.dataQ
    decreases |events|
  {
    if s.streaming && events != [] {
      assert events[0] != CollectOn;
      assert forall e :: e in events[1..] ==> e in events;
      DrainQueueFrozen(OnEvent(s, n, doRecord, events[0]), n, doRecord, events[1..]);
    }
  }

  /** Every read the loop consumes goes through the record step. */
  predicate AllWritable(s: Snapshot, n: nat, doRecord: bool, events: seq<StreamEvent>)
    requires n > 0
  {
    forall i :: 0 <= i < |events| && events[i].Batch? ==> Writable(s, n, doRecord, events[i].data)
  }

  /** What one event adds to the buffer: its read, or nothing. */
  function ReadOf(e: StreamEvent): seq<real>
  {
    if e.Batch? then e.data else []
  }

  /** With collection on, one event extends the buffer by its read and keeps the flags the loop depends on. */
  lemma OnEventQueue(s: Snapshot, n: nat, doRecord: bool, e: StreamEvent)
    requires n > 0 && s.collect && e != CollectOff
    requires e.Batch? ==> Writable(s, n, doRecord, e.data)
    ensures OnEvent(s, n, doRecord, e).collect
    ensures OnEvent(s, n, doRecord, e).recordOpen == s.recordOpen
    ensures e != StopRequested ==> OnEvent(s, n, doRecord, e).streaming == s.streaming
    ensures OnEvent(s, n, doRecord, e).dataQ == Window(s.dataQ + ReadOf(e), |s.dataQ|)
  {
    if !e.Batch? {
      assert s.dataQ + ReadOf(e) == s.dataQ;
    }
  }

  /** The samples consumed from a non-stop event on: its own read, then those of the later events. */
  lemma ConsumedSamples(events: seq<StreamEvent>)
    requires events != [] && events[0] != StopRequested
    ensures Concat(Reads(UntilStop(events))) == ReadOf(events[0]) + Concat(Reads(UntilStop(events[1..])))
  {
    var r := Reads(UntilStop(events[1..]));
    var all := Reads(UntilStop(events));
    UntilStopCons(events);
    ReadsCons(events[0], UntilStop(events[1..]));
    if events[0].Batch? {
      assert all == [events[0].data] + r;
      assert all[0] == events[0].data && all[1..] == r;
    } else {
      assert all == r;
      assert ReadOf(events[0]) + Concat(r) == Concat(r);
    }
  }

  /** The reads consumed after a non-stop first event are among those consumed from it. */
  lemma WritableTail(s: Snapshot, n: nat, doRecord: bool, events: seq<StreamEvent>)
    requires n > 0 && events != [] && events[0] != StopRequested
    requires AllWritable(s, n, doRecord, UntilStop(events))
    ensures AllWritable(s, n, doRecord, UntilStop(events[1..]))
    ensures events[0].Batch? ==> Writable(s, n, doRecord, events[0].data)
  {
    UntilStopCons(events);
    var rest := UntilStop(events[1..]);
    assert UntilStop(events)[0] == events[0];
    assert forall i :: 0 <= i < |rest| ==> rest[i] == UntilStop(events)[i + 1];
  }

  /** Whether reads go through depends on the file being open, not on the rest of the state. */
  lemma AllWritableSameFile(s: Snapshot, s1: Snapshot, n: nat, doRecord: bool, events: seq<StreamEvent>)
    requires n > 0 && s1.recordOpen == s.recordOpen
    requires AllWritable(s, n, doRecord, events)
    ensures AllWritable(s1, n, doRecord, events)
  {
  }

  /**
   * With collection on throughout, the preview buffer ends as the newest
   * `capacity` samples of its old contents followed by every read consumed.
   */
  lemma {:induction false} DrainQueueIsRecentHistory(s: Snapshot, n: nat, doRecord: bool, events: seq<StreamEvent>)
    requires s.streaming && s.collect && n > 0
    requires CollectOff !in events
    requires AllWritable(s, n, doRecord, UntilStop(events))
    ensures Drain(s, n, doRecord, events).dataQ == Window(s.dataQ + Concat(Reads(UntilStop(events))), |s.dataQ|)
    decreases |events|
  {
    if events == [] {
      assert s.dataQ + [] == s.dataQ;
    } else if events[0] == StopRequested {
      assert Drain(s, n, doRecord, events) == OnStop(s);
      assert s.dataQ + [] == s.dataQ;
    } else {
      var e := events[0];
      WritableTail(s, n, doRecord, events);
      assert CollectOff !in events[1..] by {
        assert forall x :: x in events[1..] ==> x in events;
      }
      OnEventQueue(s, n, doRecord, e);
      var s1 := OnEvent(s, n, doRecord, e);
      AllWritableSameFile(s, s1, n, doRecord, UntilStop(events[1..]));
      DrainQueueIsRecentHistory(s1, n, doRecord, events[1..]);
      ConsumedSamples(events);
      WindowCompose(s.dataQ, ReadOf(e), Concat(Reads(UntilStop(events[1..]))));
    }
  }

  /**
   * While recording into an open file, every read consumed is appended as
   * whole rows; the appended rows, read back in order, are the reads.
   */
  lemma {:induction false} DrainRecordsRows(s: Snapshot, n: nat, events: seq<StreamEvent>)
    requires s.streaming && s.recordOpen && n > 0
    requires AllWritable(s, n, true, UntilStop(events))
    ensures forall i :: 0 <= i < |Reads(UntilStop(events))| ==> |Reads(UntilStop(events))[i]| % n == 0
    ensures Drain(s, n, true, events).recordFile == s.recordFile + RowsOf(Reads(UntilStop(events)), n)
    decreases |events|
  {
    if events != [] && events[0] != StopRequested {
      var e := events[0];
      var s1 := OnEvent(s, n, true, e);
      var rest := UntilStop(events[1..]);
      assert UntilStop(events) == [e] + rest;
      assert forall i :: 0 <= i < |rest| ==> rest[i] == UntilStop(events)[i + 1];
      DrainRecordsRows(s1, n, events[1..]);
      if e.Batch? {
        assert Writable(s, n, true, e.data) by { assert UntilStop(events)[0] == e; }
        assert Reads(UntilStop(events)) == [e.data] + Reads(rest);
        assert ([e.data] + Reads(rest))[1..] == Reads(rest);
      } else {
        assert Reads(UntilStop(events)) == Reads(rest);
      }
    }
  }

  /** The rows written for several batches are rows of width n whose samples, in order, are the batches. */
  lemma {:induction false} RowsOfRoundTrip(batches: seq<seq<real>>, n: nat)
    requires n > 0 && forall i :: 0 <= i < |batches| ==> |batches[i]| % n == 0
    ensures RowsOfWidth(RowsOf(batches, n), n)
    ensures Flatten(RowsOf(batches, n)) == Concat(batches)
  {
    if batches != [] {
      RowsRoundTrip(batches[0], n);
      RowsOfRoundTrip(batches[1..], n);
      FlattenAppend(Rows(batches[0], n), RowsOf(batches[1..], n));
    }
  }

  // ---------------------------------------------------------------------
  // The preview deque, in place
  // ---------------------------------------------------------------------

  /** `dataQ.extend(data)` on a full deque of capacity `q.Length`, shifting in place. */
  method DequeExtend(q: array<real>, data: seq<real>)
    modifies q
    ensures q[..] == Window(old(q[..]) + data, q.Length)
  {
    if |data| >= q.Length {
      OverwriteWithTail(q, data);
    } else {
      ShiftIn(q, data);
    }
  }

  /** A batch at least as long as the deque replaces every sample with the batch's newest ones. */
  method OverwriteWithTail(q: array<real>, data: seq<real>)
    requires |data| >= q.Length
    modifies q
    ensures q[..] == Window(old(q[..]) + data, q.Length)
  {
    ghost var w := Window(q[..] + data, q.Length);
    var cap, k := q.Length, |data|;
    var j := 0;
    while j < cap
      invariant 0 <= j <= cap
      invariant forall t :: 0 <= t < j ==> q[t] == data[k - cap + t]
    {
      q[j] := data[k - cap + j];
      j := j + 1;
    }
    assert forall t :: 0 <= t < cap ==> q[..][t] == w[t];
  }

  /** A shorter batch drops the oldest `|data|` samples and appends the batch. */
  method ShiftIn(q: array<real>, data: seq<real>)
    requires |data| < q.Length
    modifies q
    ensures q[..] == Window(old(q[..]) + data, q.Length)
  {
    ghost var orig := q[..];
    ShiftLeft(q, |data|);
    FillTail(q, data);
    assert q[..] == orig[|data|..] + data;
    ShiftedIsWindow(orig, data);
  }

  /** Dropping the `|data|` oldest samples and appending `data` leaves the newest window. */
  lemma ShiftedIsWindow(orig: seq<real>, data: seq<real>)
    requires |data| <= |orig|
    ensures orig[|data|..] + data == Window(orig + data, |orig|)
  {
    assert (orig + data)[|data|..] == orig[|data|..] + data;
  }

  /** Writes `data` over the last `|data|` places of the buffer and leaves the others as they are. */
  method FillTail(q: array<real>, data: seq<real>)
    requires |data| <= q.Length
    modifies q
    ensures q[..] == old(q[..q.Length - |data|]) + data
  {
    var start := q.Length - |data|;
    var j := 0;
    while j < |data|
      invariant 0 <= j <= |data|
      invariant forall t :: 0 <= t < start ==> q[t] == old(q[t])
      invariant forall t :: 0 <= t < j ==> q[start + t] == data[t]
    {
      q[start + j] := data[j];
      j := j + 1;
    }
    assert forall t :: start <= t < q.Length ==> q[t] == data[t - start] by {
      forall t | start <= t < q.Length
        ensures q[t] == data[t - start]
      {
        assert q[start + (t - start)] == data[t - start];
      }
    }
  }

  /** Moves every sample `k` places towards the front; the last `k` places keep their old samples. */
  method ShiftLeft(q: array<real>, k: nat)
    requires k <= q.Length
    modifies q
    ensures q[..q.Length - k] == old(q[..])[k..]
  {
    ghost var orig := q[..];
    var j := 0;
    while j < q.Length - k
      invariant 0 <= j <= q.Length - k
      invariant forall t :: 0 <= t < j ==> q[t] == orig[t + k]
      invariant forall t :: j <= t < q.Length ==> q[t] == orig[t]
    {
      q[j] := q[j + k];
      j := j + 1;
    }
  }

  // ---------------------------------------------------------------------
  // The driver object
  // ---------------------------------------------------------------------

  /** Every field of the driver, for stating what a step leaves alone. */
  datatype LabFields = LabFields(
    streaming: bool,
    collectDataQ: bool,
    dataQ: array<real>,
    inputChannels: Dict,
    nInputChannels: nat,
    doRecord: bool,
    recordFile: seq<Line>,
    recordOpen: bool,
    totScans: real,
    totSkip: nat,
    scanRate: nat,
    scansPerRead: nat,
    handleOpen: bool)

  /** The exception `start_stream` lets through: the record file cannot be opened. */
  datatype StartError = RecordFileUnopenable

  /**
   * The driver's fields after `start_stream` (lines 70-139) with channels
   * `chans`, given the new buffer `q`: with no channels only the channels
   * are stored; otherwise the buffer and `do_record` are, then the record
   * file is opened with its header (or the call raises), then the stream
   * starts at the reported rate when `eStreamStart` succeeds.
   */
  function StartFields(f: LabFields, q: array<real>, chans: Dict, doRecord: bool, prior: Option<seq<Line>>,
                       scanRate: nat, scansPerRead: nat, reported: Option<nat>): LabFields
  {
    if |chans| == 0 then f.(inputChannels := chans, nInputChannels := 0)
    else Launched(f.(dataQ := q, inputChannels := chans, nInputChannels := |chans|), doRecord, prior, scanRate,
                  scansPerRead, reported)
  }

  /**
   * The part of `start_stream` after the buffer (lines 84-131): `do_record`
   * is stored, the record file opened with its header (or the call raises),
   * and the stream started at the reported rate.
   */
  function Launched(f: LabFields, doRecord: bool, prior: Option<seq<Line>>, scanRate: nat, scansPerRead: nat,
                    reported: Option<nat>): LabFields
  {
    var stored := f.(doRecord := doRecord);
    if doRecord && prior.None? then stored
    else
      var withFile := if doRecord then stored.(recordFile := prior.value + [Header(f.inputChannels, scanRate)],
                                                recordOpen := true)
                      else stored;
      if reported.Some? then withFile.(streaming := true, scanRate := reported.value, scansPerRead := scansPerRead)
      else withFile
  }

  class LabJack {
    var streaming: bool
    var collectDataQ: bool
    var dataQ: array<real>
    var inputChannels: Dict
    var nInputChannels: nat
    var doRecord: bool
    var recordFile: seq<Line>
    var recordOpen: bool
    var totScans: real
    var totSkip: nat
    var scanRate: nat
    var scansPerRead: nat
    var handleOpen: bool

    ghost predicate Valid()
      reads this
    {
      nInputChannels == |inputChannels| && IsDict(inputChannels)
    }

    function Fields(): LabFields
      reads this
    {
      LabFields(streaming, collectDataQ, dataQ, inputChannels, nInputChannels, doRecord, recordFile, recordOpen,
                totScans, totSkip, scanRate, scansPerRead, handleOpen)
    }

    /** The part of the state the callback works on. */
    function Snap(): Snapshot
      reads this, dataQ
    {
      Snapshot(streaming, collectDataQ, totScans, totSkip, dataQ[..], recordFile, recordOpen)
    }

    /** `__init__` once the device is open: not streaming, not collecting, an empty preview buffer. */
    constructor ()
      ensures Valid() && handleOpen
      ensures !streaming && !collectDataQ && dataQ.Length == 0
      ensures inputChannels == [] && !doRecord && recordFile == [] && !recordOpen
      ensures totScans == 0.0 && totSkip == 0
    {
      streaming, collectDataQ := false, false;
      dataQ := new real[0];
      inputChannels, nInputChannels := [], 0;
      doRecord, recordFile, recordOpen := false, [], false;
      totScans, totSkip := 0.0, 0;
      scanRate, scansPerRead := 0, 0;
      handleOpen := true;
    }

    /**
     * `start_stream`. `prior` is what the record file already holds (it is
     * opened for appending), or `None` when `open` raises, as it does for an
     * empty path; that exception leaves `start_stream` uncaught. `reported`
     * is the scan rate `eStreamStart` reports, or `None` when it raises.
     */
    method StartStream(doRecord: bool, prior: Option<seq<Line>>, channels: ChannelArg, scanRate: nat,
                       scansPerRead: nat, dataQLenSec: nat, reported: Option<nat>) returns (err: Option<StartError>)
      requires channels.NameMap? ==> IsDict(channels.entries)
      modifies this
      ensures Valid()
      ensures inputChannels == NormaliseChannels(channels)
      ensures err.Some? <==> nInputChannels > 0 && doRecord && prior.None?
      ensures Fields() == StartFields(old(Fields()), dataQ, inputChannels, doRecord, prior, scanRate, scansPerRead, reported)
      ensures nInputChannels > 0 ==>
                fresh(dataQ) && dataQ.Length == QueueLength(dataQLenSec, scanRate, nInputChannels)
                && (forall i :: 0 <= i < dataQ.Length ==> dataQ[i] == 0.0)
    {
      err := None;
      var chans := NormaliseChannels(channels);
      if |chans| == 0 {
        inputChannels, nInputChannels := chans, 0;
        return;
      }
      var q := Zeros(QueueLength(dataQLenSec, scanRate, |chans|));
      dataQ, inputChannels, nInputChannels := q, chans, |chans|;
      err := Launch(doRecord, prior, scanRate, scansPerRead, reported);
    }

    /** Lines 84-131, once the buffer is allocated: open the record file, then start the device's stream. */
    method Launch(doRecord: bool, prior: Option<seq<Line>>, scanRate: nat, scansPerRead: nat, reported: Option<nat>)
      returns (err: Option<StartError>)
      modifies this
      ensures err.Some? <==> doRecord && prior.None?
      ensures Fields() == Launched(old(Fields()), doRecord, prior, scanRate, scansPerRead, reported)
    {
      err := OpenRecord(doRecord, prior, scanRate);
      if err.Some? {
        return;
      }
      if reported.Some? {
        BeginStream(reported.value, scansPerRead);
      }
    }

    /** A fresh buffer of `len` zero samples, as `np.zeros` gives. */
    static method Zeros(len: nat) returns (a: array<real>)
      ensures fresh(a) && a.Length == len
      ensures forall i :: 0 <= i < len ==> a[i] == 0.0
    {
      a := new real[len](_ => 0.0);
    }

    /**
     * Lines 84-92: remember `do_record` and, when recording, open the file
     * and append the JSON header; a file that cannot be opened raises.
     */
    method OpenRecord(doRecord: bool, prior: Option<seq<Line>>, scanRate: nat) returns (err: Option<StartError>)
      modifies this
      ensures err.Some? <==> doRecord && prior.None?
      ensures Fields() == old(Fields()).(doRecord := doRecord,
                                         recordFile := if doRecord && prior.Some? then prior.value + [Header(inputChannels, scanRate)]
                                                       else old(recordFile),
                                         recordOpen := (doRecord && prior.Some?) || old(recordOpen))
    {
      err := None;
      this.doRecord := doRecord;
      if doRecord {
        if prior.None? {
          return Some(RecordFileUnopenable);
        }
        recordFile := prior.value + [Header(inputChannels, scanRate)];
        recordOpen := true;
      }
    }

    /** Lines 128-131: the device's stream has started at the rate it reports. */
    method BeginStream(reportedRate: nat, scansPerRead: nat)
      modifies this
      ensures Fields() == old(Fields()).(scanRate := reportedRate, scansPerRead := scansPerRead, streaming := true)
    {
      this.scanRate := reportedRate;
      this.scansPerRead := scansPerRead;
      streaming := true;
    }

    /** `stop_stream`: only clears `streaming`; the loop then winds down and closes the file. */
    method StopStream()
      modifies this
      ensures Snap() == OnStop(old(Snap()))
      ensures Fields() == old(Fields()).(streaming := false)
    {
      if streaming {
        streaming := false;
      }
    }

    method StartCollectDataQ()
      modifies this
      ensures Snap() == old(Snap()).(collect := true)
      ensures Fields() == old(Fields()).(collectDataQ := true)
    {
      collectDataQ := true;
    }

    method StopCollectDataQ()
      modifies this
      ensures Snap() == old(Snap()).(collect := false)
      ensures Fields() == old(Fields()).(collectDataQ := false)
    {
      collectDataQ := false;
    }

    /** One iteration of the callback loop for a read `data` (lines 172-212). */
    method ProcessBatch(data: seq<real>)
      modifies this, dataQ
      ensures Snap() == OnBatch(old(Snap()), nInputChannels, doRecord, data)
      ensures Fields() == old(Fields()).(totScans := totScans, totSkip := totSkip, recordFile := recordFile)
    {
      if nInputChannels == 0 {
        return;
      }
      totScans := totScans + (|data| as real) / (nInputChannels as real);
      totSkip := totSkip + CountSkips(data);
      if doRecord {
        if !recordOpen || |data| % nInputChannels != 0 {
          return;
        }
        recordFile := recordFile + Rows(data, nInputChannels);
      }
      if collectDataQ {
        DequeExtend(dataQ, data);
      }
    }

    /** `stream_callback` over the events available to it. */
    method StreamCallback(events: seq<StreamEvent>)
      modifies this, dataQ
      ensures Snap() == Callback(old(Snap()), nInputChannels, doRecord, events)
      ensures Fields() == old(Fields()).(streaming := streaming, collectDataQ := collectDataQ, totScans := totScans,
                                         totSkip := totSkip, recordFile := recordFile, recordOpen := recordOpen)
    {
      totScans := 0.0;
      totSkip := 0;
      DrainEvents(events);
      if !streaming && doRecord {
        recordOpen := false;
      }
    }

    /** The `while self.streaming` loop (lines 170-212) over the events available. */
    method DrainEvents(events: seq<StreamEvent>)
      modifies this, dataQ
      ensures Snap() == Drain(old(Snap()), nInputChannels, doRecord, events)
      ensures Fields() == old(Fields()).(streaming := streaming, collectDataQ := collectDataQ, totScans := totScans,
                                         totSkip := totSkip, recordFile := recordFile, recordOpen := recordOpen)
    {
      var i := 0;
      while streaming && i < |events|
        invariant 0 <= i <= |events|
        invariant Fields() == old(Fields()).(streaming := streaming, collectDataQ := collectDataQ, totScans := totScans,
                                             totSkip := totSkip, recordFile := recordFile, recordOpen := recordOpen)
        invariant Drain(Snap(), nInputChannels, doRecord, events[i..]) == Drain(old(Snap()), nInputChannels, doRecord, events)
        decreases |events| - i
      {
        HandleEvent(events[i]);
        assert events[i..][1..] == events[i + 1..];
        i := i + 1;
      }
    }

    /** One event seen by the callback loop: a read, or a control call landing between two reads. */
    method HandleEvent(ev: StreamEvent)
      modifies this, dataQ
      ensures Snap() == OnEvent(old(Snap()), nInputChannels, doRecord, ev)
      ensures Fields() == old(Fields()).(streaming := streaming, collectDataQ := collectDataQ, totScans := totScans,
                                         totSkip := totSkip, recordFile := recordFile, recordOpen := recordOpen)
    {
      match ev {
        case Batch(data) => ProcessBatch(data);
        case StopRequested => StopStream();
        case CollectOn => StartCollectDataQ();
        case CollectOff => StopCollectDataQ();
      }
    }

    /** `close`: stop an active stream first, then release the device. */
    method Close()
      modifies this
      ensures Snap() == OnStop(old(Snap()))
      ensures Fields() == old(Fields()).(streaming := false, handleOpen := false)
    {
      if streaming {
        StopStream();
      }
      handleOpen := false;
    }
  }
}

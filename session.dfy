/** The acquisition session of the serial plotter as a state machine over
    values: the state a `SerialPlotter` keeps between user actions, one step
    function per action, and the properties the actions promise. The class in
    module Plotter updates its fields exactly as these functions say. */
module Session {

  datatype Option<T> = None | Some(value: T)

  /** One saved sample, the two-element list `[index, value]` appended to `data`. */
  datatype Row = Row(index: int, value: int)

  /** The `serial_port` field: no Serial object yet, an open one, or one that
      close_program has closed (a closed Serial object is still truthy). */
  datatype Port = NoPort | Open | Closed

  /** The two control lines written to the device. */
  const START: string := "START\n"
  const STOP: string := "STOP\n"

  /** Everything the actions read or change. `xs` and `ys` are the current
      session's `x_data`/`y_data`; `written` is the log of control lines sent
      to the device; `exited` records that close_program has ended the process. */
  datatype State = State(
    port: Port,
    reading: bool,
    data: seq<Row>,
    xs: seq<int>,
    ys: seq<int>,
    written: seq<string>,
    exited: bool)

  /** The state `__init__` leaves: no port, not reading, no data. */
  const Initial: State := State(NoPort, false, [], [], [], [], false)

  /** The x-coordinates of n plotted samples, built as read_serial builds
      them: each new one is one more than the number already there. */
  function Indices(n: nat): (r: seq<int>)
    ensures |r| == n
    ensures forall i :: 0 <= i < n ==> r[i] == i + 1
  {
    if n == 0 then [] else Indices(n - 1) + [n]
  }

  /** The rows saved for the values ys, built by appending one row per value
      whose index is the number of values so far. */
  function Rows(ys: seq<int>): (rows: seq<Row>)
    ensures |rows| == |ys|
    ensures forall i :: 0 <= i < |ys| ==> rows[i] == Row(i + 1, ys[i])
  {
    if ys == [] then [] else Rows(ys[..|ys| - 1]) + [Row(|ys|, ys[|ys| - 1])]
  }

  /** The values of the lines that decoded and parsed, in arrival order. */
  function Accepted(lines: seq<Option<int>>): (vs: seq<int>)
    ensures |vs| <= |lines|
  {
    if lines == [] then []
    else
      var init := lines[..|lines| - 1];
      match lines[|lines| - 1]
      case None => Accepted(init)
      case Some(v) => Accepted(init) + [v]
  }

  /** What every reachable state satisfies: a session only runs on a port,
      nothing runs after exit, and the buffer and the plotted x-coordinates
      agree with the accepted values. */
  ghost predicate Inv(s: State) {
    && (s.reading ==> s.port == Open)
    && (s.port == Closed ==> s.exited)
    && (s.exited ==> !s.reading)
    && s.xs == Indices(|s.ys|)
    && s.data == Rows(s.ys)
  }

  /** connect_serial: a successful open replaces `serial_port`; a failed one
      (SerialException) is reported and changes nothing. */
  function ConnectStep(s: State, ok: bool): State {
    if ok then s.(port := Open) else s
  }

  /** start_reading: without a port only a message is printed; otherwise the
      buffer is cleared, the flag set, the read thread started with fresh
      x/y lists, and "START\n" written. */
  function StartStep(s: State): State {
    if s.port == NoPort then s
    else s.(data := [], reading := true, xs := [], ys := [], written := s.written + [START])
  }

  /** stop_reading: only while reading; clears the flag and writes "STOP\n"
      when a port exists. */
  function StopStep(s: State): State {
    if !s.reading then s
    else s.(reading := false, written := if s.port != NoPort then s.written + [STOP] else s.written)
  }

  /** One iteration of the read_serial loop on one line: a line that failed to
      decode or parse is dropped; a value v is plotted at x = len(x_data) + 1
      and saved as [len(x_data), v] after that append. */
  function LineStep(s: State, line: Option<int>): State
    requires s.reading
  {
    match line
    case None => s
    case Some(v) =>
      var xs := s.xs + [|s.xs| + 1];
      s.(xs := xs, ys := s.ys + [v], data := s.data + [Row(|xs|, v)])
  }

  /** The read_serial loop over a sequence of lines, while the flag holds.
      The loop neither stops itself nor writes to the device. */
  function RunLines(s: State, lines: seq<Option<int>>): (t: State)
    requires s.reading
    ensures t.reading && t.port == s.port && t.written == s.written && t.exited == s.exited
    ensures |t.ys| == |s.ys| + |Accepted(lines)|
  {
    if lines == [] then s
    else LineStep(RunLines(s, lines[..|lines| - 1]), lines[|lines| - 1])
  }

  /** close_program: stop_reading, close the port if there is one, exit. */
  function CloseStep(s: State): State {
    var t := StopStep(s);
    t.(port := if t.port != NoPort then Closed else t.port, exited := true)
  }

  // ---------------------------------------------------------------------
  // The invariant holds initially and every action keeps it.

  lemma InitialInv()
    ensures Inv(Initial)
  {
  }

  lemma LinePreservesInv(s: State, line: Option<int>)
    requires Inv(s) && s.reading
    ensures Inv(LineStep(s, line))
    ensures LineStep(s, line).reading
  {
  }

  lemma ActionsPreserveInv(s: State, ok: bool)
    requires Inv(s) && !s.exited
    ensures Inv(ConnectStep(s, ok))
    ensures Inv(StartStep(s))
    ensures Inv(StopStep(s))
    ensures Inv(CloseStep(s))
  {
  }

  // ---------------------------------------------------------------------
  // connect_serial

  /** A successful connect opens a port and touches nothing else; a failed one
      keeps whatever connection there was. */
  lemma ConnectOutcome(s: State, ok: bool)
    ensures ok ==> ConnectStep(s, ok) == s.(port := Open)
    ensures !ok ==> ConnectStep(s, ok) == s
    ensures s.port == Open ==> ConnectStep(s, ok).port == Open
  {
  }

  // ---------------------------------------------------------------------
  // start_reading

  /** Without a connection start changes nothing and writes nothing. */
  lemma StartWithoutPort(s: State)
    requires s.port == NoPort
    ensures StartStep(s) == s
  {
  }

  /** With a connection start empties the buffer, raises the flag and writes
      exactly "START\n". */
  lemma StartWithPort(s: State)
    requires s.port != NoPort
    ensures var t := StartStep(s);
      && t.data == [] && t.xs == [] && t.ys == []
      && t.reading
      && t.written == s.written + [START]
      && t.port == s.port && t.exited == s.exited
  {
  }

  // ---------------------------------------------------------------------
  // read_serial

  /** A rejected line changes nothing and the loop keeps running. */
  lemma RejectedLine(s: State)
    requires s.reading
    ensures LineStep(s, None) == s && LineStep(s, None).reading
  {
  }

  /** An accepted line appends [k, v] where k is one more than the number of
      rows already saved in this session. */
  lemma AcceptedLine(s: State, v: int)
    requires Inv(s) && s.reading
    ensures var t := LineStep(s, Some(v));
      && t.data == s.data + [Row(|s.data| + 1, v)]
      && t.xs == s.xs + [|s.data| + 1]
      && t.ys == s.ys + [v]
      && t.reading && t.port == s.port && t.written == s.written
  {
  }

  /** The loop records exactly the accepted values, in order. */
  lemma {:induction false} SessionValues(s: State, lines: seq<Option<int>>)
    requires s.reading
    ensures RunLines(s, lines).ys == s.ys + Accepted(lines)
  {
    if lines != [] {
      var init, last := lines[..|lines| - 1], lines[|lines| - 1];
      SessionValues(s, init);
      match last
      case None =>
      case Some(v) =>
        assert s.ys + Accepted(lines) == (s.ys + Accepted(init)) + [v];
    }
  }

  /** The loop keeps the invariant. */
  lemma {:induction false} SessionKeepsInv(s: State, lines: seq<Option<int>>)
    requires Inv(s) && s.reading
    ensures Inv(RunLines(s, lines))
  {
    if lines != [] {
      var init := lines[..|lines| - 1];
      SessionKeepsInv(s, init);
      LinePreservesInv(RunLines(s, init), lines[|lines| - 1]);
    }
  }

  /** Running the loop over lines appends exactly the accepted values, and the
      buffer is the numbered list of every value of the session. */
  lemma SessionBuffer(s: State, lines: seq<Option<int>>)
    requires Inv(s) && s.reading
    ensures var t := RunLines(s, lines);
      && Inv(t)
      && t.ys == s.ys + Accepted(lines)
      && t.data == Rows(s.ys + Accepted(lines))
      && t.xs == Indices(|s.ys| + |Accepted(lines)|)
  {
    SessionValues(s, lines);
    SessionKeepsInv(s, lines);
  }

  /** After start and lines whose accepted values are v1..vn, the buffer is
      [[1,v1], ..., [n,vn]] and the x-coordinates are [1..n]. */
  lemma FreshSession(s: State, lines: seq<Option<int>>)
    requires Inv(s) && !s.exited && s.port != NoPort
    ensures StartStep(s).reading
    ensures var t := RunLines(StartStep(s), lines);
      && t.data == Rows(Accepted(lines))
      && t.xs == Indices(|Accepted(lines)|)
      && t.written == s.written + [START]
  {
    ActionsPreserveInv(s, false);
    SessionBuffer(StartStep(s), lines);
  }

  /** A new session after stop discards the previous session's buffer. */
  lemma RestartDiscards(s: State, first: seq<Option<int>>, second: seq<Option<int>>)
    requires Inv(s) && !s.exited && s.port != NoPort
    ensures StartStep(s).reading
    ensures var u := StopStep(RunLines(StartStep(s), first));
      && !u.reading
      && u.port != NoPort
      && u.data == Rows(Accepted(first))
      && StartStep(u).reading
      && RunLines(StartStep(u), second).data == Rows(Accepted(second))
      && RunLines(StartStep(u), second).written == s.written + [START, STOP, START]
  {
    var t := RunLines(StartStep(s), first);
    assert Inv(t) && !t.exited && t.port == s.port
      && t.data == Rows(Accepted(first)) && t.written == s.written + [START] by {
      FreshSession(s, first);
      SessionBuffer(StartStep(s), first);
    }
    var u := StopStep(t);
    assert Inv(u) && !u.exited && u.port == s.port && u.written == s.written + [START, STOP] by {
      ActionsPreserveInv(t, false);
    }
    assert RunLines(StartStep(u), second).data == Rows(Accepted(second))
      && RunLines(StartStep(u), second).written == u.written + [START] by {
      FreshSession(u, second);
    }
  }

  // ---------------------------------------------------------------------
  // stop_reading

  /** Stop when not reading is a no-op: no write, the flag stays down. */
  lemma StopWhenIdle(s: State)
    requires !s.reading
    ensures StopStep(s) == s
  {
  }

  /** Stop while reading lowers the flag and writes "STOP\n" only if a port
      exists; the buffer is kept for saving. */
  lemma StopWhenReading(s: State)
    requires s.reading
    ensures var t := StopStep(s);
      && !t.reading
      && t.written == s.written + (if s.port != NoPort then [STOP] else [])
      && t.data == s.data && t.port == s.port
  {
  }

  /** A second stop writes nothing more. */
  lemma StopIdempotent(s: State)
    ensures StopStep(StopStep(s)) == StopStep(s)
  {
  }

  // ---------------------------------------------------------------------
  // close_program

  /** Close leaves the flag down and no open port; exactly one "STOP\n" is
      written, and only when a session was running. */
  lemma CloseOutcome(s: State)
    requires Inv(s) && !s.exited
    ensures var t := CloseStep(s);
      && t.exited && !t.reading
      && t.port != Open
      && (s.port != NoPort ==> t.port == Closed)
      && t.written == s.written + (if s.reading then [STOP] else [])
      && t.data == s.data
  {
  }
}

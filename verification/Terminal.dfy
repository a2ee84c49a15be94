/** One terminal: coalesced output delivery, scrollback, and the size shared by its clients. */
module Terminal {
  import opened Wrappers

  const SCROLLBACK_LIMIT: nat := 256 * 1024

  // ---- Output ------------------------------------------------------------

  /** received and delivered are history: the output that arrived before the terminal closed, and the
      batches handed to the client. live: the manager still lists the terminal. */
  datatype Output = Output(buffer: string, pending: string, timer: bool, closed: bool, live: bool,
    received: string, delivered: seq<string>)

  datatype Event = Data(chunk: string) | TimerFires | Exit | Close

  const OPENED := Output("", "", false, false, true, "", [])

  function LastOf(s: string, n: nat): string {
    if |s| > n then s[|s| - n..] else s
  }

  function Flush(o: Output): Output {
    var o' := o.(timer := false);
    if o.closed || o.pending == "" then o' else o'.(pending := "", delivered := o.delivered + [o.pending])
  }

  function Step(o: Output, e: Event): Output {
    match e
    case Data(chunk) =>
      if o.closed then o
      else o.(buffer := LastOf(o.buffer + chunk, SCROLLBACK_LIMIT), pending := o.pending + chunk, timer := true,
              received := o.received + chunk)
    case TimerFires => if o.timer then Flush(o) else o
    case Exit => Flush(o).(closed := true, live := false)
    case Close => if o.live then o.(closed := true, live := false, timer := false, pending := "") else o
  }

  function Run(events: seq<Event>): Output {
    if events == [] then OPENED else Step(Run(events[..|events| - 1]), events[|events| - 1])
  }

  function Concat(batches: seq<string>): string {
    if batches == [] then "" else Concat(batches[..|batches| - 1]) + batches[|batches| - 1]
  }

  ghost predicate OutputOk(o: Output) {
    o.buffer == LastOf(o.received, SCROLLBACK_LIMIT) && (o.live <==> !o.closed) &&
    Concat(o.delivered) + o.pending <= o.received &&
    (o.live ==> Concat(o.delivered) + o.pending == o.received && (o.pending != "" ==> o.timer)) &&
    (forall b :: b in o.delivered ==> b != "")
  }

  lemma TailOfTail(a: string, b: string, n: nat)
    ensures LastOf(LastOf(a, n) + b, n) == LastOf(a + b, n)
  {}

  lemma FlushOk(o: Output)
    requires OutputOk(o)
    ensures OutputOk(Flush(o))
    ensures !o.closed ==> Concat(Flush(o).delivered) == o.received
  {
    if !o.closed && o.pending != "" {
      assert (o.delivered + [o.pending])[..|o.delivered|] == o.delivered;
    }
  }

  lemma StepOk(o: Output, e: Event)
    requires OutputOk(o)
    ensures OutputOk(Step(o, e))
  {
    FlushOk(o);
    if e.Data? && !o.closed {
      TailOfTail(o.received, e.chunk, SCROLLBACK_LIMIT);
      assert Concat(o.delivered) + (o.pending + e.chunk) == o.received + e.chunk;
    }
  }

  /** For any schedule of chunks, timers, exit and close: while the terminal is live, the delivered
      batches and what is pending are the received output, in order and without loss or repetition,
      and pending output always has a timer; the scrollback is exactly the last characters. */
  lemma {:induction false} NothingLost(events: seq<Event>)
    ensures OutputOk(Run(events))
  {
    if events != [] {
      NothingLost(events[..|events| - 1]);
      StepOk(Run(events[..|events| - 1]), events[|events| - 1]);
    }
  }

  /** A program that exits on its own has all its output delivered. */
  lemma ExitDeliversAll(events: seq<Event>)
    requires Run(events).live
    ensures Concat(Run(events + [Exit]).delivered) == Run(events).received
  {
    assert (events + [Exit])[..|events|] == events;
    NothingLost(events);
    FlushOk(Run(events));
  }

  /** Closing by hand delivers nothing more and drops what was pending. */
  lemma CloseDropsPending(events: seq<Event>)
    ensures var before, after := Run(events), Run(events + [Close]);
      after.delivered == before.delivered && after.closed && (before.live ==> after.pending == "" && !after.timer)
  {
    assert (events + [Close])[..|events|] == events;
    NothingLost(events);
  }

  /** After exit or close nothing more is delivered, whatever still arrives or fires. */
  lemma {:induction false} SilentOnceClosed(events: seq<Event>, more: seq<Event>)
    requires Run(events).closed
    ensures Run(events + more).closed && Run(events + more).delivered == Run(events).delivered
    ensures Run(events + more).buffer == Run(events).buffer
  {
    if more == [] {
      assert events + more == events;
    } else {
      SilentOnceClosed(events, more[..|more| - 1]);
      assert (events + more)[..|events + more| - 1] == events + more[..|more| - 1];
    }
  }

  // ---- Sizes -------------------------------------------------------------

  datatype Size = Size(cols: nat, rows: nat)

  function ClampRange(n: int): nat {
    if n < 1 then 1 else if n > 1000 then 1000 else n
  }

  /** clampDim; None stands for a value that is missing or not finite. */
  function ClampDim(value: Option<real>, fallback: nat): nat {
    if value.None? || value.value.Floor <= 0 then fallback else ClampRange(value.value.Floor)
  }

  function ClampSize(cols: Option<real>, rows: Option<real>): Size {
    Size(ClampDim(cols, 80), ClampDim(rows, 24))
  }

  /** A dimension is what was asked for, without its fraction, within 1 to 1000; what is missing or not positive is 80
      columns or 24 rows. */
  lemma ClampSizeIs(cols: Option<real>, rows: Option<real>)
    ensures var s := ClampSize(cols, rows);
      (cols.None? || cols.value < 1.0 ==> s.cols == 80) && (rows.None? || rows.value < 1.0 ==> s.rows == 24) &&
      (cols.Some? && cols.value >= 1.0 ==> Asked(s.cols, cols.value)) &&
      (rows.Some? && rows.value >= 1.0 ==> Asked(s.rows, rows.value))
  {}

  predicate Asked(n: nat, value: real) {
    1 <= n <= 1000 && n as real <= value && (n < 1000 ==> value < n as real + 1.0)
  }

  /** The scrollback is the end of the output, all of it up to 262144 characters. */
  lemma ScrollbackIs(events: seq<Event>)
    ensures var o := Run(events);
      |o.buffer| == (if |o.received| < 262144 then |o.received| else 262144) &&
      o.buffer == o.received[|o.received| - |o.buffer|..]
  {
    NothingLost(events);
  }

  /** The componentwise minimum over all clients. */
  ghost predicate IsMinimum(sizes: map<string, Size>, s: Size) {
    (forall c :: c in sizes ==> s.cols <= sizes[c].cols && s.rows <= sizes[c].rows) &&
    (exists c :: c in sizes && s.cols == sizes[c].cols) && (exists c :: c in sizes && s.rows == sizes[c].rows)
  }

  class TerminalEntry {
    var buffer: string
    var pending: string
    var flushTimer: bool
    var closed: bool
    var live: bool
    var clientSizes: map<string, Size>
    /** The size the PTY was last given. */
    var pty: Size
    ghost var received: string
    ghost var delivered: seq<string>

    ghost function View(): Output
      reads this
    {
      Output(buffer, pending, flushTimer, closed, live, received, delivered)
    }

    ghost predicate SizesOk()
      reads this
    {
      1 <= pty.cols <= 1000 && 1 <= pty.rows <= 1000 &&
      (forall c :: c in clientSizes ==> 1 <= clientSizes[c].cols <= 1000 && 1 <= clientSizes[c].rows <= 1000) &&
      (clientSizes != map[] ==> IsMinimum(clientSizes, pty))
    }

    /** open: the opener, when known, is the first sized client. */
    constructor (opener: Option<string>, cols: Option<real>, rows: Option<real>)
      ensures View() == OPENED && SizesOk()
      ensures clientSizes == if opener.Some? then map[opener.value := pty] else map[]
    {
      buffer, pending, flushTimer, closed, live, received, delivered := "", "", false, false, true, "", [];
      pty := ClampSize(cols, rows);
      clientSizes := if opener.Some? then map[opener.value := ClampSize(cols, rows)] else map[];
    }

    method FlushPending()
      modifies this
      ensures View() == Flush(old(View())) && clientSizes == old(clientSizes) && pty == old(pty)
    {
      flushTimer := false;
      if closed || pending == "" { return; }
      var batch := pending;
      pending := "";
      delivered := delivered + [batch];
    }

    method OnData(data: string)
      modifies this
      ensures View() == Step(old(View()), Data(data)) && clientSizes == old(clientSizes) && pty == old(pty)
    {
      if closed { return; }
      buffer := buffer + data;
      if |buffer| > SCROLLBACK_LIMIT { buffer := buffer[|buffer| - SCROLLBACK_LIMIT..]; }
      pending := pending + data;
      if !flushTimer { flushTimer := true; }
      received := received + data;
    }

    method OnTimer()
      requires flushTimer
      modifies this
      ensures View() == Step(old(View()), TimerFires) && clientSizes == old(clientSizes) && pty == old(pty)
    {
      FlushPending();
    }

    method OnExit()
      modifies this
      ensures View() == Step(old(View()), Exit) && clientSizes == old(clientSizes) && pty == old(pty)
    {
      flushTimer := false;
      FlushPending();
      closed := true;
      live := false;
    }

    method CloseEntry() returns (found: bool)
      modifies this
      ensures View() == Step(old(View()), Close) && found == old(live)
      ensures clientSizes == old(clientSizes) && pty == old(pty)
    {
      if !live { return false; }
      live := false;
      closed := true;
      flushTimer := false;
      pending := "";
      return true;
    }

    method SetClientSize(client: string, cols: Option<real>, rows: Option<real>) returns (found: bool)
      requires SizesOk()
      modifies `clientSizes, `pty
      ensures SizesOk() && found == live
      ensures clientSizes == if live then old(clientSizes)[client := ClampSize(cols, rows)] else old(clientSizes)
    {
      if !live { return false; }
      clientSizes := clientSizes[client := ClampSize(cols, rows)];
      ApplyMinSize();
      return true;
    }

    /** The size is left alone when the client had none here, and when nobody remains. */
    method DropClientSize(client: string) returns (found: bool)
      requires SizesOk()
      modifies `clientSizes, `pty
      ensures SizesOk() && found == live
      ensures clientSizes == if live then old(clientSizes) - {client} else old(clientSizes)
      ensures client !in old(clientSizes) || clientSizes == map[] ==> pty == old(pty)
      ensures View() == old(View())
    {
      if !live { return false; }
      if client in clientSizes {
        clientSizes := clientSizes - {client};
        ApplyMinSize();
      } else {
        assert clientSizes - {client} == clientSizes;
      }
      return true;
    }

    method ApplyMinSize()
      requires forall c :: c in clientSizes ==> 1 <= clientSizes[c].cols <= 1000 && 1 <= clientSizes[c].rows <= 1000
      modifies `pty
      ensures clientSizes == map[] ==> pty == old(pty)
      ensures clientSizes != map[] ==> IsMinimum(clientSizes, pty) && 1 <= pty.cols <= 1000 && 1 <= pty.rows <= 1000
    {
      if clientSizes == map[] { return; }
      var first :| first in clientSizes;
      var cols, rows := clientSizes[first].cols, clientSizes[first].rows;
      var left := clientSizes.Keys - {first};
      while left != {}
        invariant left <= clientSizes.Keys
        invariant forall c :: c in clientSizes && c !in left ==> cols <= clientSizes[c].cols && rows <= clientSizes[c].rows
        invariant exists c :: c in clientSizes && cols == clientSizes[c].cols
        invariant exists c :: c in clientSizes && rows == clientSizes[c].rows
        decreases left
      {
        var c :| c in left;
        left := left - {c};
        var size := clientSizes[c];
        if size.cols < cols { cols := size.cols; }
        if size.rows < rows { rows := size.rows; }
      }
      pty := ClampSize(Some(cols as real), Some(rows as real));
      assert pty == Size(cols, rows);
    }
  }

  /** A client's connection dropped: every live terminal forgets it and grows back for the others. */
  method DropClient(entries: seq<TerminalEntry>, client: string)
    requires forall i :: 0 <= i < |entries| ==> entries[i].live && entries[i].SizesOk()
    requires forall i, j :: 0 <= i < j < |entries| ==> entries[i] != entries[j]
    modifies entries
    ensures forall i :: 0 <= i < |entries| ==>
      entries[i].SizesOk() && entries[i].clientSizes == old(entries[i].clientSizes) - {client} &&
      entries[i].View() == old(entries[i].View())
  {
    hide *;
    for k := 0 to |entries|
      invariant forall i :: 0 <= i < k ==>
        entries[i].SizesOk() && entries[i].clientSizes == old(entries[i].clientSizes) - {client}
      invariant forall i :: k <= i < |entries| ==>
        entries[i].SizesOk() && entries[i].clientSizes == old(entries[i].clientSizes)
      invariant forall i :: 0 <= i < |entries| ==> entries[i].live && entries[i].View() == old(entries[i].View())
    {
      var found := entries[k].DropClientSize(client);
    }
  }
}

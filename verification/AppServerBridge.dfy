/** AppServerBridge (internal/codexadapter/appserver_bridge.go): health, checkpoint and pending
    requests changed in place while one stream is read, and its accounting. */
module AppServerBridge {
  import opened Ordering
  import opened BridgeRecords
  import opened BridgeProjections
  import opened BridgeFrames
  import opened BridgeRuns
  import opened TerminalCalls

  const MAX_FRAMES := 10000
  const FRAME_LIMIT := "frame_limit_exceeded"
  const STREAM_ERROR := "frame_too_large_or_stream_error"

  datatype Lifecycle = Discovered | Configured | Connected | Producing | Reconciled | Degraded
  datatype Checkpoint = Checkpoint(sequence: nat, lastObservedAt: int)

  /** How a stream ended after its lines: the input was exhausted, or the scanner failed. */
  datatype StreamEnd = Exhausted | ScannerFailed

  datatype Outcome = Finished | Incompatible | Cancelled | TooManyFrames | StreamFailed | SinkFailed

  /** A sink whose n-th call may fail; it keeps what it was given. */
  class Sink {
    const refuses: nat -> bool
    var calls: nat
    var log: seq<Event>

    constructor (refuses: nat -> bool)
      ensures this.refuses == refuses && log == []
    {
      this.refuses, calls, log := refuses, 0, [];
    }

    method Take(e: Event) returns (ok: bool)
      modifies this
      ensures log == if ok then old(log) + [e] else old(log)
    {
      ok := !refuses(calls);
      calls := calls + 1;
      if ok { log := log + [e]; }
    }
  }

  /** What a buffer holds of the sightings so far: each key's fold, and the keys in order. */
  ghost predicate Tracks(held: map<string, Calls>, order: seq<string>, seen: seq<Record>)
  {
    && order == KeysOf(seen)
    && (forall key :: key in held <==> key in order)
    && forall key :: key in held ==> held[key] == CallsOf(OfKey(seen, key))
  }

  /** The calls seen so far, by key, and their order of first sighting. */
  class CallBuffer {
    var calls: map<string, TerminalCall>
    var order: seq<string>
    ghost var held: map<string, Calls>
    ghost var seen: seq<Record>

    ghost predicate Valid()
      reads this, calls.Values
    {
      && Tracks(held, order, seen)
      && calls.Keys == held.Keys
      && (forall key :: key in calls ==> calls[key].State() == held[key])
      && forall j, k :: j in calls && k in calls && j != k ==> calls[j] != calls[k]
    }

    constructor ()
      ensures Valid() && seen == [] && calls == map[]
    {
      calls, order, held, seen := map[], [], map[], [];
    }

    method Observe(record: Record)
      requires Valid()
      modifies this, calls.Values
      ensures Valid() && seen == old(seen) + [record]
      ensures fresh(calls.Values - old(calls.Values))
    {
      hide Tracks, CallsOf, Observed;
      var key := record.source;
      SameKeys(held, order, seen);
      TracksGrows(held, order, seen, record);
      if key !in calls {
        AddCall(record);
      } else {
        var call := calls[key];
        assert forall k :: k in calls && k != key ==> calls[k] != call;
        call.Observe(record);
        held := held[key := call.State()];
      }
      seen := seen + [record];
    }

    method AddCall(record: Record)
      requires record.source !in calls && calls.Keys == held.Keys
      requires forall key :: key in calls ==> calls[key].State() == held[key]
      requires forall j, k :: j in calls && k in calls && j != k ==> calls[j] != calls[k]
      modifies this`calls, this`order, this`held
      ensures calls.Keys == held.Keys && held == old(held)[record.source := Observed(CallsOf([]), record)]
      ensures order == old(order) + [record.source]
      ensures forall key :: key in calls ==> calls[key].State() == held[key]
      ensures forall j, k :: j in calls && k in calls && j != k ==> calls[j] != calls[k]
      ensures fresh(calls.Values - old(calls.Values))
    {
      hide CallsOf, Observed;
      var call := new TerminalCall();
      call.Observe(record);
      assert forall k :: k in calls ==> calls[k] != call;
      calls := calls[record.source := call];
      order := order + [record.source];
      held := held[record.source := call.State()];
    }
  }

  lemma SameKeys(held: map<string, Calls>, order: seq<string>, seen: seq<Record>)
    requires Tracks(held, order, seen)
    ensures forall key :: key in held <==> key in order
  {
  }

  lemma TracksGrows(held: map<string, Calls>, order: seq<string>, seen: seq<Record>, record: Record)
    requires Tracks(held, order, seen)
    ensures var key := record.source;
      var before := if key in held then held[key] else CallsOf([]);
      Tracks(held[key := Observed(before, record)], if key in held then order else order + [key], seen + [record])
  {
    hide CallsOf, Observed, KeysOf, OfKey;
    SeenGrows(seen, record);
    if record.source !in held { Unsighted(seen, record.source); }
  }

  lemma SeenGrows(front: seq<Record>, last: Record)
    ensures KeysOf(front + [last]) ==
      if last.source in KeysOf(front) then KeysOf(front) else KeysOf(front) + [last.source]
    ensures forall key ::
      OfKey(front + [last], key) == if last.source == key then OfKey(front, key) + [last] else OfKey(front, key)
    ensures CallsOf(OfKey(front, last.source) + [last]) == Observed(CallsOf(OfKey(front, last.source)), last)
  {
    hide Observed;
    var mine := OfKey(front, last.source);
    assert (front + [last])[..|front|] == front && (mine + [last])[..|mine|] == mine;
    assert forall key :: OfKey(front, key) + [] == OfKey(front, key);
  }

  lemma Unsighted(records: seq<Record>, key: string)
    requires key !in KeysOf(records)
    ensures OfKey(records, key) == []
  {
    hide KeysOf, OfKey;
    KeysOfMembers(records);
    OfKeyMembers(records, key);
    var mine := OfKey(records, key);
    NoMember(mine);
  }

  lemma NoMember<T>(s: seq<T>)
    ensures (forall x :: x !in s) ==> s == []
  {
    assert s != [] ==> s[0] in s;
  }

  /** The books a bridge keeps, with what the sink was given and every checkpoint taken. */
  datatype Books = Books(
    log: seq<Event>,
    accepted: nat,
    rejected: nat,
    lastObservedAt: int,
    checkpoint: Checkpoint,
    trail: seq<Checkpoint>)

  /** Checkpoints taken one after another never go back, in sequence or in time. */
  ghost predicate Ascending(run: seq<Checkpoint>)
  {
    forall i, j :: 0 <= i < j < |run| ==>
      run[i].sequence <= run[j].sequence && run[i].lastObservedAt <= run[j].lastObservedAt
  }

  ghost predicate Within(run: seq<Checkpoint>, low: nat, high: nat, from: int, to: int)
  {
    forall c :: c in run ==> low <= c.sequence <= high && from <= c.lastObservedAt <= to
  }

  function TimeOf(): Checkpoint -> int { (c: Checkpoint) => c.lastObservedAt }

  /** The books after a stretch of events: each counter moved by the events of its kind, the last
      observed time is the latest accepted, and each acceptance took one checkpoint between the
      stretch's first and last position, at the latest time accepted so far. */
  ghost predicate Booked(start: Books, now: Books, events: seq<Event>, run: seq<Checkpoint>, low: nat, high: nat)
  {
    && Counted(start, now, events)
    && Checkpointed(start, now, events, run, low, high)
  }

  ghost predicate Counted(start: Books, now: Books, events: seq<Event>)
  {
    && now.log == start.log + events
    && now.accepted == start.accepted + AcceptCount(events)
    && now.rejected == start.rejected + RejectCount(events)
    && now.lastObservedAt == LatestOf(start.lastObservedAt, events)
  }

  ghost predicate Checkpointed(start: Books, now: Books, events: seq<Event>, run: seq<Checkpoint>, low: nat, high: nat)
  {
    && now.trail == start.trail + run && |run| == AcceptCount(events)
    && Map(TimeOf(), run) == AcceptTimes(start.lastObservedAt, events)
    && Ascending(run) && Within(run, low, high, start.lastObservedAt, now.lastObservedAt)
    && now.checkpoint == (if run == [] then start.checkpoint else run[|run| - 1])
    && (run != [] ==> now.checkpoint.lastObservedAt == now.lastObservedAt)
  }

  lemma NothingBooked(books: Books, low: nat, high: nat)
    ensures Booked(books, books, [], [], low, high)
  {
  }

  lemma AcceptBooked(start: Books, record: Record, sequence: nat)
    ensures var time := if record.observedAt > start.lastObservedAt then record.observedAt else start.lastObservedAt;
      var c := Checkpoint(sequence, time);
      Booked(start,
             Books(start.log + [Asserted(record)], start.accepted + 1, start.rejected, time, c, start.trail + [c]),
             [Asserted(record)], [c], sequence, sequence)
  {
    OneAssertion(record);
    assert [Asserted(record)][..0] == [];
  }

  lemma RejectBooked(start: Books, what: string, bytes: nat, low: nat, high: nat)
    ensures Booked(start, start.(log := start.log + [Refused(what, bytes)], rejected := start.rejected + 1),
                   [Refused(what, bytes)], [], low, high)
  {
    OneRefusal(what, bytes);
    assert [Refused(what, bytes)][..0] == [];
    assert start.trail + [] == start.trail;
  }

  lemma {:induction false} LatestOfConcat(start: int, s: seq<Event>, t: seq<Event>)
    ensures LatestOf(start, s + t) == LatestOf(LatestOf(start, s), t)
  {
    if t == [] {
      assert s + t == s;
    } else {
      var n := |t| - 1;
      assert (s + t)[..|s| + n] == s + t[..n];
      LatestOfConcat(start, s, t[..n]);
    }
  }

  lemma {:induction false} AcceptTimesConcat(start: int, s: seq<Event>, t: seq<Event>)
    ensures AcceptTimes(start, s + t) == AcceptTimes(start, s) + AcceptTimes(LatestOf(start, s), t)
  {
    hide LatestOf;
    if t == [] {
      assert s + t == s;
    } else {
      var n := |t| - 1;
      assert (s + t)[..|s| + n] == s + t[..n];
      AcceptTimesConcat(start, s, t[..n]);
      LatestOfConcat(start, s, t);
    }
  }

  /** Two stretches, the second starting no earlier than the first ended, make one. */
  lemma BookedJoins(start: Books, mid: Books, now: Books, e1: seq<Event>, run1: seq<Checkpoint>, e2: seq<Event>,
                    run2: seq<Checkpoint>, low: nat, high1: nat, low2: nat, high: nat)
    requires Booked(start, mid, e1, run1, low, high1) && Booked(mid, now, e2, run2, low2, high)
    requires low <= low2 && high1 <= low2 && high1 <= high
    ensures Booked(start, now, e1 + e2, run1 + run2, low, high)
  {
    hide AcceptCount, RejectCount, LatestOf, Counted, Checkpointed;
    CountedJoins(start, mid, now, e1, e2);
    TrailsJoin(start, mid, now, e1, run1, e2, run2, low, high1, low2, high);
  }

  lemma CountedJoins(start: Books, mid: Books, now: Books, e1: seq<Event>, e2: seq<Event>)
    requires Counted(start, mid, e1) && Counted(mid, now, e2)
    ensures Counted(start, now, e1 + e2)
  {
    hide AcceptCount, RejectCount, LatestOf;
    CountsConcat(e1, e2);
    LatestOfConcat(start.lastObservedAt, e1, e2);
    assert start.log + (e1 + e2) == start.log + e1 + e2;
  }

  lemma TrailsJoin(start: Books, mid: Books, now: Books, e1: seq<Event>, run1: seq<Checkpoint>, e2: seq<Event>,
                   run2: seq<Checkpoint>, low: nat, high1: nat, low2: nat, high: nat)
    requires Counted(start, mid, e1) && Counted(mid, now, e2) && low <= low2 && high1 <= low2 && high1 <= high
    requires Checkpointed(start, mid, e1, run1, low, high1) && Checkpointed(mid, now, e2, run2, low2, high)
    ensures Checkpointed(start, now, e1 + e2, run1 + run2, low, high)
  {
    hide AcceptCount, RejectCount, LatestOf, AcceptTimes, Map, Ascending, Within;
    CountsConcat(e1, e2);
    AcceptTimesConcat(start.lastObservedAt, e1, e2);
    MapConcat(TimeOf(), run1, run2);
    LatestOfIsMax(start.lastObservedAt, e1);
    LatestOfIsMax(mid.lastObservedAt, e2);
    RunsJoin(run1, run2, low, high1, low2, high, start.lastObservedAt, mid.lastObservedAt, now.lastObservedAt);
    assert start.trail + (run1 + run2) == start.trail + run1 + run2;
    assert run2 == [] ==> run1 + run2 == run1;
    if run2 == [] && run1 != [] { NoAcceptNoTime(mid.lastObservedAt, e2); }
  }

  lemma {:induction false} NoAcceptNoTime(start: int, events: seq<Event>)
    requires AcceptCount(events) == 0
    ensures LatestOf(start, events) == start
  {
    if events != [] { NoAcceptNoTime(start, events[..|events| - 1]); }
  }

  lemma RunsJoin(run1: seq<Checkpoint>, run2: seq<Checkpoint>, low: nat, high1: nat, low2: nat, high: nat, t0: int,
                 t1: int, t2: int)
    requires Ascending(run1) && Ascending(run2) && Within(run1, low, high1, t0, t1) && Within(run2, low2, high, t1, t2)
    requires low <= low2 && high1 <= low2 && high1 <= high && t0 <= t1 <= t2
    ensures Ascending(run1 + run2) && Within(run1 + run2, low, high, t0, t2)
  {
    var both := run1 + run2;
    forall i, j | 0 <= i < j < |both|
      ensures both[i].sequence <= both[j].sequence && both[i].lastObservedAt <= both[j].lastObservedAt
    {
      if i < |run1| <= j { assert run1[i] in run1 && run2[j - |run1|] in run2; }
    }
  }

  /** What a run that did not finish gave the sink: everything that the first i lines call for, and
      of the next step at most what it had got to when it stopped. */
  ghost predicate Stopped(r: Rules, base: seq<Frame>, lines: seq<Line>, i: nat, outcome: Outcome, events: seq<Event>)
    requires i <= |lines|
  {
    var before := Emissions(r, base, lines[..i]);
    && (forall k :: 0 <= k < i ==> !lines[k].cancelled)
    && match outcome
       case Cancelled => i < |lines| && i <= MAX_FRAMES && lines[i].cancelled && events == before
       case TooManyFrames => i == MAX_FRAMES < |lines|
         && (events == before || events == before + [Refused(FRAME_LIMIT, lines[i].bytes)])
       case StreamFailed => i == |lines| && (events == before || events == before + [Refused(STREAM_ERROR, 0)])
       case SinkFailed =>
         before <= events
         && if i < |lines| then events <= Emissions(r, base, lines[..i + 1]) else Finishing(r, base, lines, events)
       case _ => false
  }

  /** What the sink has been given when it fails while the calls are being reconciled: a beginning of
      what the whole stream and its calls call for. */
  ghost predicate Finishing(r: Rules, base: seq<Frame>, lines: seq<Line>, events: seq<Event>)
  {
    var sightings := Sightings(r, base, lines);
    exists finals :: AreFinals(r, sightings, KeysOf(sightings), finals)
      && events <= Emissions(r, base, lines) + FinalEvents(finals)
  }

  class AppServerBridge {
    const r: Rules
    var lifecycle: Lifecycle
    var category: string
    var lastObservedAt: int
    var accepted: nat
    var rejected: nat
    var checkpoint: Checkpoint
    var pending: Pending
    /** Every frame projected since the bridge was made. */
    ghost var history: seq<Frame>
    /** The checkpoints taken since the bridge was made. */
    ghost var trail: seq<Checkpoint>

    ghost predicate Valid()
      reads this
    {
      pending == PendingOf(r, history)
    }

    constructor (r: Rules, zeroTime: int)
      ensures Valid() && this.r == r && history == [] && accepted == rejected == 0 && lifecycle == Discovered
    {
      this.r, lifecycle, category, lastObservedAt := r, Discovered, "", zeroTime;
      accepted, rejected, checkpoint, pending, history, trail := 0, 0, Checkpoint(0, zeroTime), map[], [], [];
    }

    /** A response: its request is forgotten, whatever the response says. */
    method Answer(line: Line) returns (p: Projection)
      requires line.frame.Response? && line.frame.id != ""
      modifies this`pending
      ensures pending == old(pending) - {line.frame.id}
      ensures p == ResponseProjection(r, old(pending), line.frame, line.day)
    {
      hide SkillsListProjection, ReadProjection;
      var id := line.frame.id;
      var asked := if id in pending then pending[id] else "";
      pending := pending - {id};
      if asked == SKILLS_LIST {
        if line.frame.failed { return Rejected("skills_list_response_error"); }
        p := ProjectSkillsList(r, line.day, line.frame.list);
      } else if asked == PLUGIN_READ_METHOD {
        if line.frame.failed { return Rejected("plugin_read_response_error"); }
        p := ProjectPluginRead(r, line.day, line.frame.plugin);
      } else {
        p := Projected([]);
      }
    }

    /** A well-formed request is taken on unless too many are waiting. */
    method TakeOn(id: string, name: string) returns (p: Projection)
      modifies this`pending
      ensures pending == if |old(pending)| < MAX_PENDING then old(pending)[id := name] else old(pending)
      ensures p == if |old(pending)| < MAX_PENDING then Projected([]) else Rejected("pending_request_limit_exceeded")
    {
      if |pending| >= MAX_PENDING { return Rejected("pending_request_limit_exceeded"); }
      pending := pending[id := name];
      return Projected([]);
    }

    method Request(f: Frame) returns (p: Projection)
      requires f.SkillsListRequest? || f.PluginReadRequest?
      modifies this`pending
      ensures pending == PendingAfter(r, old(pending), f)
      ensures p == RequestProjection(r, old(pending), f)
    {
      match f {
        case SkillsListRequest(id, hasParams) =>
          if id == "" || !hasParams { return Rejected("invalid_skills_list_request"); }
          p := TakeOn(id, SKILLS_LIST);
        case PluginReadRequest(id, pluginName) =>
          if id == "" || pluginName.None? || !r.identityPart(pluginName.value) {
            return Rejected("invalid_plugin_read_request");
          }
          p := TakeOn(id, PLUGIN_READ_METHOD);
      }
    }

    /** projectFrame: one frame's records, and the requests it leaves pending. */
    method ProjectFrame(line: Line, sequence: nat) returns (p: Projection)
      requires Valid()
      modifies this`pending, this`history
      ensures Valid() && history == old(history) + [line.frame]
      ensures p == FrameProjection(r, PendingOf(r, old(history)), line, sequence)
    {
      NoEmptyId(r, history);
      history := history + [line.frame];
      p := Demultiplex(line, sequence);
      PendingSnoc(r, old(history), line.frame);
    }

    method Demultiplex(line: Line, sequence: nat) returns (p: Projection)
      requires "" !in pending
      modifies this`pending
      ensures pending == PendingAfter(r, old(pending), line.frame)
      ensures p == FrameProjection(r, old(pending), line, sequence)
    {
      hide ThreadProjection, TurnProjection, StartedProjection, CompletedProjection, ResponseProjection;
      hide RequestProjection, Asks;
      NeverAsks(r, line.frame);
      match line.frame {
        case Undecodable => return Rejected("unknown_or_invalid_frame_schema");
        case TrailingJson => return Rejected("trailing_frame_json");
        case Response(id, _, _, _) =>
          if id == "" {
            assert pending - {""} == pending;
            return Projected([]);
          }
          p := Answer(line);
        case SkillsListRequest(_, _) => p := Request(line.frame);
        case PluginReadRequest(_, _) => p := Request(line.frame);
        case ThreadStarted(thread) => return ThreadProjection(r, thread, sequence);
        case TurnStarted(turn) => return TurnProjection(r, turn, sequence);
        case ItemStarted(item) => p := ProjectStarted(r, item, sequence);
        case ItemCompleted(item) => return CompletedProjection(r, item, sequence);
        case Unowned => return Projected([]);
      }
    }

    ghost function BooksOf(sink: Sink): Books
      reads this, sink
    {
      Books(sink.log, accepted, rejected, lastObservedAt, checkpoint, trail)
    }

    method Accept(sink: Sink, record: Record, sequence: nat) returns (ok: bool, ghost run: seq<Checkpoint>)
      modifies this`lifecycle, this`category, this`accepted, this`lastObservedAt, this`checkpoint, this`trail, sink
      ensures Booked(old(BooksOf(sink)), BooksOf(sink), if ok then [Asserted(record)] else [], run, sequence, sequence)
      ensures ok ==> lifecycle == Producing && category == old(category)
      ensures !ok ==> lifecycle == Degraded && category == "sink_unavailable"
    {
      hide Booked;
      AcceptBooked(BooksOf(sink), record, sequence);
      NothingBooked(BooksOf(sink), sequence, sequence);
      run := [];
      ok := sink.Take(Asserted(record));
      if !ok {
        lifecycle, category := Degraded, "sink_unavailable";
        return;
      }
      lifecycle := Producing;
      accepted := accepted + 1;
      if record.observedAt > lastObservedAt { lastObservedAt := record.observedAt; }
      checkpoint := Checkpoint(sequence, lastObservedAt);
      trail := trail + [checkpoint];
      run := [checkpoint];
    }

    method Reject(sink: Sink, what: string, bytes: nat, ghost sequence: nat) returns (ok: bool)
      modifies this`lifecycle, this`category, this`rejected, sink
      ensures Booked(old(BooksOf(sink)), BooksOf(sink), if ok then [Refused(what, bytes)] else [], [], sequence,
                     sequence)
      ensures ok ==> lifecycle == Degraded && category == what
      ensures !ok ==> lifecycle == old(lifecycle) && category == old(category)
    {
      hide Booked;
      RejectBooked(BooksOf(sink), what, bytes, sequence, sequence);
      NothingBooked(BooksOf(sink), sequence, sequence);
      ok := sink.Take(Refused(what, bytes));
      if !ok { return; }
      rejected := rejected + 1;
      lifecycle, category := Degraded, what;
    }

    /** The records of one frame: MCP calls are buffered, everything else goes to the sink. */
    method Deliver(records: seq<Record>, sequence: nat, sink: Sink, buffer: CallBuffer)
        returns (ok: bool, ghost events: seq<Event>, ghost run: seq<Checkpoint>)
      requires buffer.Valid()
      modifies this`lifecycle, this`category, this`accepted, this`lastObservedAt, this`checkpoint, this`trail, sink,
               buffer, buffer.calls.Values
      ensures Booked(old(BooksOf(sink)), BooksOf(sink), events, run, sequence, sequence)
      ensures lifecycle != Reconciled || lifecycle == old(lifecycle)
      ensures buffer.Valid() && fresh(buffer.calls.Values - old(buffer.calls.Values))
      ensures ok ==> events == Immediate(records) && buffer.seen == old(buffer.seen) + CallRecords(records)
      ensures events <= Immediate(records)
    {
      hide Booked, Immediate, CallRecords, Tracks;
      events, run := [], [];
      ghost var start, seen := BooksOf(sink), buffer.seen;
      NothingBooked(start, sequence, sequence);
      NoRecords();
      assert seen + [] == seen;
      for i := 0 to |records|
        invariant Booked(start, BooksOf(sink), events, run, sequence, sequence)
        invariant lifecycle != Reconciled || lifecycle == old(lifecycle)
        invariant buffer.Valid() && fresh(buffer.calls.Values - old(buffer.calls.Values))
        invariant events == Immediate(records[..i]) && buffer.seen == seen + CallRecords(records[..i])
      {
        var record := records[i];
        OneMoreRecord(records[..i], record);
        assert records[..i + 1] == records[..i] + [record];
        if record.eventType == "tool.called" && record.kind == "mcp" {
          buffer.Observe(record);
          assert seen + CallRecords(records[..i]) + [record] == seen + (CallRecords(records[..i]) + [record]);
          continue;
        }
        ghost var mid, more := BooksOf(sink), [];
        ok, more := Accept(sink, record, sequence);
        BookedJoins(start, mid, BooksOf(sink), events, run, if ok then [Asserted(record)] else [], more, sequence,
                    sequence, sequence, sequence);
        run := run + more;
        if !ok {
          assert events + [] == events;
          ImmediatePrefix(records, i);
          return;
        }
        events := events + [Asserted(record)];
      }
      assert records[..|records|] == records;
      return true, events, run;
    }

    /** One line of the stream. */
    method HandleLine(line: Line, sequence: nat, sink: Sink, buffer: CallBuffer, ghost base: seq<Frame>,
                      ghost front: seq<Line>)
        returns (ok: bool, ghost events: seq<Event>, ghost run: seq<Checkpoint>)
      requires Valid() && buffer.Valid() && history == base + Map(FrameOf(), front) && sequence == |front| + 1
      modifies this, sink, buffer, buffer.calls.Values
      ensures Valid() && history == base + Map(FrameOf(), front + [line])
      ensures Booked(old(BooksOf(sink)), BooksOf(sink), events, run, sequence, sequence)
      ensures lifecycle != Reconciled || lifecycle == old(lifecycle)
      ensures buffer.Valid() && fresh(buffer.calls.Values - old(buffer.calls.Values))
      ensures ok ==> events == EventsOf(NextProjection(r, base, front, line), line)
      ensures ok ==> buffer.seen == old(buffer.seen) + CallsIn(NextProjection(r, base, front, line))
      ensures events <= EventsOf(NextProjection(r, base, front, line), line)
    {
      hide Booked, Immediate, CallRecords, FrameProjection, PendingOf;
      ghost var start := BooksOf(sink);
      MapConcat(FrameOf(), front, [line]);
      assert Map(FrameOf(), [line]) == [line.frame];
      assert base + Map(FrameOf(), front) + [line.frame] == base + (Map(FrameOf(), front) + [line.frame]);
      var p := ProjectFrame(line, sequence);
      match p {
        case Rejected(what) =>
          ok := Reject(sink, what, line.bytes, sequence);
          events, run := if ok then [Refused(what, line.bytes)] else [], [];
          assert buffer.seen + [] == buffer.seen;
        case Projected(records) =>
          ok, events, run := Deliver(records, sequence, sink, buffer);
      }
    }

    /** One reconciled call: its record, then a rejection if it has a category. */
    method FinishCall(record: Record, category: string, sequence: nat, sink: Sink)
        returns (ok: bool, ghost events: seq<Event>, ghost run: seq<Checkpoint>)
      modifies this`lifecycle, this`category, this`accepted, this`rejected, this`lastObservedAt, this`checkpoint,
               this`trail, sink
      ensures Booked(old(BooksOf(sink)), BooksOf(sink), events, run, sequence, sequence)
      ensures lifecycle != Reconciled
      ensures var all := CallEvents(Final(record, category)); if ok then events == all else events <= all
    {
      hide Booked;
      ghost var start := BooksOf(sink);
      ok, run := Accept(sink, record, sequence);
      events := if ok then [Asserted(record)] else [];
      if !ok || category == "" { return; }
      ghost var mid := BooksOf(sink);
      ok := Reject(sink, category, 0, sequence);
      ghost var given := if ok then [Refused(category, 0)] else [];
      BookedJoins(start, mid, BooksOf(sink), events, run, given, [], sequence, sequence, sequence, sequence);
      assert run + [] == run;
      events := events + given;
    }

    /** The calls of the stream, each reconciled to one record. The ghost results name what the sink
        was given and all the reconciled calls, those not reached included. */
    method FinishCalls(sequence: nat, sink: Sink, buffer: CallBuffer)
        returns (ok: bool, ghost events: seq<Event>, ghost run: seq<Checkpoint>, ghost finals: seq<Final>)
      requires buffer.Valid()
      modifies this`lifecycle, this`category, this`accepted, this`rejected, this`lastObservedAt, this`checkpoint,
               this`trail, sink
      ensures Booked(old(BooksOf(sink)), BooksOf(sink), events, run, sequence, sequence)
      ensures lifecycle != Reconciled || lifecycle == old(lifecycle)
      ensures AreFinals(r, buffer.seen, KeysOf(buffer.seen), finals)
      ensures if ok then events == FinalEvents(finals) else events <= FinalEvents(finals)
    {
      hide Booked, FinalEvents, IsFinal, KeysOf, CallsOf, IsReconciled, CallEvents;
      events, run, finals := [], [], [];
      ghost var start, seen := BooksOf(sink), buffer.seen;
      NothingBooked(start, sequence, sequence);
      NoFinals();
      var order := buffer.order;
      for i := 0 to |order|
        invariant Booked(start, BooksOf(sink), events, run, sequence, sequence)
        invariant lifecycle != Reconciled || lifecycle == old(lifecycle)
        invariant |finals| == i && forall k :: 0 <= k < i ==> IsFinal(r, seen, order[k], finals[k])
        invariant events == FinalEvents(finals)
      {
        var key := order[i];
        SightedKeyIsReconcilable(seen, key);
        var record, category := buffer.calls[key].Reconcile(r, key);
        ghost var f, mid := Final(record, category), BooksOf(sink);
        FinalFor(r, seen, key, f);
        OneMoreFinalEvent(finals, f);
        ghost var given, more;
        ok, given, more := FinishCall(record, category, sequence, sink);
        BookedJoins(start, mid, BooksOf(sink), events, run, given, more, sequence, sequence, sequence, sequence);
        events, run, finals := events + given, run + more, finals + [f];
        if !ok {
          finals := CompleteFinals(r, seen, finals);
          return;
        }
      }
      return true, events, run, finals;
    }

    /** One line more, within the frame limit, added to the books of the run. */
    method ReadLine(line: Line, sequence: nat, sink: Sink, buffer: CallBuffer, ghost base: seq<Frame>,
                    ghost front: seq<Line>, ghost start: Books, ghost before: seq<Event>, ghost trail0: seq<Checkpoint>)
        returns (stopped: Option<Outcome>, ghost events: seq<Event>, ghost run: seq<Checkpoint>)
      requires Valid() && buffer.Valid() && history == base + Map(FrameOf(), front) && sequence == |front| + 1
      requires Booked(start, BooksOf(sink), before, trail0, 0, |front|)
      requires before == Emissions(r, base, front) && buffer.seen == Sightings(r, base, front)
      modifies this, sink, buffer, buffer.calls.Values
      ensures Valid() && buffer.Valid() && fresh(buffer.calls.Values - old(buffer.calls.Values))
      ensures Booked(start, BooksOf(sink), events, run, 0, sequence)
      ensures lifecycle != Reconciled || lifecycle == old(lifecycle)
      ensures stopped.None? ==> sequence <= MAX_FRAMES && history == base + Map(FrameOf(), front + [line])
      ensures stopped.None? ==>
        events == Emissions(r, base, front + [line]) && buffer.seen == Sightings(r, base, front + [line])
      ensures stopped.Some? ==> stopped.value in {TooManyFrames, SinkFailed}
      ensures stopped == Some(TooManyFrames) ==>
        |front| >= MAX_FRAMES && (events == before || events == before + [Refused(FRAME_LIMIT, line.bytes)])
      ensures stopped == Some(SinkFailed) ==> before <= events <= Emissions(r, base, front + [line])
    {
      hide Booked, NextProjection, EventsOf, CallsIn, Emissions, Sightings, PendingOf, Tracks, Map;
      ghost var mid := BooksOf(sink);
      if sequence > MAX_FRAMES {
        var taken := Reject(sink, FRAME_LIMIT, line.bytes, sequence);
        ghost var given := if taken then [Refused(FRAME_LIMIT, line.bytes)] else [];
        BookedJoins(start, mid, BooksOf(sink), before, trail0, given, [], 0, |front|, sequence, sequence);
        return Some(TooManyFrames), before + given, trail0 + [];
      }
      var ok;
      ghost var given, more;
      ok, given, more := HandleLine(line, sequence, sink, buffer, base, front);
      BookedJoins(start, mid, BooksOf(sink), before, trail0, given, more, 0, |front|, sequence, sequence);
      OneMoreLine(r, base, front, line);
      assert before + given <= before + EventsOf(NextProjection(r, base, front, line), line);
      return if ok then None else Some(SinkFailed), before + given, trail0 + more;
    }

    /** The lines of the stream, until one stops it. */
    method ReadLines(lines: seq<Line>, sink: Sink, buffer: CallBuffer)
        returns (stopped: Option<Outcome>, ghost events: seq<Event>, ghost run: seq<Checkpoint>)
      requires Valid() && buffer.Valid() && buffer.seen == []
      modifies this, sink, buffer, buffer.calls.Values
      ensures Valid() && buffer.Valid() && fresh(buffer.calls.Values - old(buffer.calls.Values))
      ensures Booked(old(BooksOf(sink)), BooksOf(sink), events, run, 0, |lines|)
      ensures lifecycle != Reconciled || lifecycle == old(lifecycle)
      ensures stopped.None? ==> |lines| <= MAX_FRAMES && history == old(history) + Map(FrameOf(), lines)
      ensures stopped.None? ==>
        events == Emissions(r, old(history), lines) && buffer.seen == Sightings(r, old(history), lines)
      ensures stopped == Some(Cancelled) ==> lifecycle == Degraded && category == "context_cancelled"
      ensures stopped.None? ==> forall line :: line in lines ==> !line.cancelled
      ensures stopped.Some? ==> stopped.value in {Cancelled, TooManyFrames, SinkFailed}
      ensures stopped.Some? ==>
        exists i :: 0 <= i <= |lines| && Stopped(r, old(history), lines, i, stopped.value, events)
    {
      hide Booked, Emissions, Sightings, PendingOf, Tracks, Map;
      events, run, stopped := [], [], None;
      ghost var start, base := BooksOf(sink), history;
      NothingBooked(start, 0, 0);
      NoLines(r, base, lines[..0]);
      var sequence := 0;
      while sequence < |lines|
        invariant 0 <= sequence <= |lines| && sequence <= MAX_FRAMES && stopped.None?
        invariant Valid() && buffer.Valid() && fresh(buffer.calls.Values - old(buffer.calls.Values))
        invariant history == base + Map(FrameOf(), lines[..sequence])
        invariant Booked(start, BooksOf(sink), events, run, 0, sequence)
        invariant lifecycle != Reconciled || lifecycle == old(lifecycle)
        invariant events == Emissions(r, base, lines[..sequence])
        invariant buffer.seen == Sightings(r, base, lines[..sequence])
        invariant forall k :: 0 <= k < sequence ==> !lines[k].cancelled
      {
        var line := lines[sequence];
        ghost var front := lines[..sequence];
        if line.cancelled {
          lifecycle, category := Degraded, "context_cancelled";
          BookedWiden(start, BooksOf(sink), events, run, 0, sequence, |lines|);
          assert Stopped(r, base, lines, sequence, Cancelled, events);
          return Some(Cancelled), events, run;
        }
        sequence := sequence + 1;
        assert lines[..sequence] == front + [line];
        stopped, events, run := ReadLine(line, sequence, sink, buffer, base, front, start, events, run);
        if stopped.Some? {
          BookedWiden(start, BooksOf(sink), events, run, 0, sequence, |lines|);
          assert Stopped(r, base, lines, sequence - 1, stopped.value, events);
          return;
        }
      }
      assert lines[..|lines|] == lines;
    }

    /** Connect: read the stream, then reconcile its calls. The ghost results name what the sink was
        given, the checkpoints taken and the reconciled calls. */
    method Connect(lines: seq<Line>, end: StreamEnd, compatible: bool, sink: Sink)
        returns (outcome: Outcome, ghost events: seq<Event>, ghost run: seq<Checkpoint>, ghost finals: seq<Final>)
      requires Valid()
      modifies this, sink
      ensures Valid()
      ensures Booked(old(BooksOf(sink)), BooksOf(sink), events, run, 0, |lines|)
      ensures outcome == Incompatible <==> !compatible
      ensures outcome == Incompatible ==> events == [] && unchanged(this) && unchanged(sink)
      ensures outcome == Finished ==>
        end == Exhausted && |lines| <= MAX_FRAMES && history == old(history) + Map(FrameOf(), lines)
      ensures outcome == Finished ==> var sightings := Sightings(r, old(history), lines);
        AreFinals(r, sightings, KeysOf(sightings), finals)
        && events == Emissions(r, old(history), lines) + FinalEvents(finals)
      ensures outcome == Finished ==> (forall line :: line in lines ==> !line.cancelled)
      ensures outcome == Finished ==> (lifecycle == Reconciled <==> rejected == 0) && (rejected == 0 ==> category == "")
      ensures outcome != Finished && outcome != Incompatible ==> lifecycle != Reconciled
      ensures outcome != Finished && outcome != Incompatible ==>
        exists i :: 0 <= i <= |lines| && Stopped(r, old(history), lines, i, outcome, events)
      ensures outcome == StreamFailed ==> end == ScannerFailed
    {
      hide Booked, Emissions, Sightings, AreFinals, FinalEvents, PendingOf, KeysOf, Stopped;
      ghost var start := BooksOf(sink);
      NothingBooked(start, 0, |lines|);
      events, run, finals := [], [], [];
      if !compatible { return Incompatible, [], [], []; }
      lifecycle, category := Connected, "";
      var buffer := new CallBuffer();
      var stopped;
      stopped, events, run := ReadLines(lines, sink, buffer);
      if stopped.Some? { return stopped.value, events, run, []; }
      ghost var mid := BooksOf(sink);
      if end == ScannerFailed {
        var taken := Reject(sink, STREAM_ERROR, 0, |lines|);
        ghost var given := if taken then [Refused(STREAM_ERROR, 0)] else [];
        BookedJoins(start, mid, BooksOf(sink), events, run, given, [], 0, |lines|, |lines|, |lines|);
        WholeStream(r, old(history), lines, StreamFailed, events, given);
        return StreamFailed, events + given, run + [], [];
      }
      var ok;
      ghost var given, more;
      ok, given, more, finals := FinishCalls(|lines|, sink, buffer);
      BookedJoins(start, mid, BooksOf(sink), events, run, given, more, 0, |lines|, |lines|, |lines|);
      events, run := events + given, run + more;
      if !ok {
        WhileFinishing(r, old(history), lines, finals, given);
        WholeStream(r, old(history), lines, SinkFailed, Emissions(r, old(history), lines), given);
        return SinkFailed, events, run, finals;
      }
      if rejected == 0 { lifecycle, category := Reconciled, ""; }
      return Finished, events, run, finals;
    }
  }

  lemma WholeStream(r: Rules, base: seq<Frame>, lines: seq<Line>, outcome: Outcome, events: seq<Event>,
                    given: seq<Event>)
    requires events == Emissions(r, base, lines) && forall line :: line in lines ==> !line.cancelled
    requires
      || (outcome == SinkFailed && Finishing(r, base, lines, events + given))
      || (outcome == StreamFailed && (given == [] || given == [Refused(STREAM_ERROR, 0)]))
    ensures exists i :: 0 <= i <= |lines| && Stopped(r, base, lines, i, outcome, events + given)
  {
    hide Emissions, Finishing;
    assert lines[..|lines|] == lines;
    assert given == [] ==> events + given == events;
    assert Stopped(r, base, lines, |lines|, outcome, events + given);
  }

  lemma WhileFinishing(r: Rules, base: seq<Frame>, lines: seq<Line>, finals: seq<Final>, given: seq<Event>)
    requires var sightings := Sightings(r, base, lines); AreFinals(r, sightings, KeysOf(sightings), finals)
    requires given <= FinalEvents(finals)
    ensures Finishing(r, base, lines, Emissions(r, base, lines) + given)
  {
    hide Emissions, Sightings, AreFinals, FinalEvents, KeysOf;
  }

  /** The calls that were not reached have reconciled records too. */
  lemma {:induction false} CompleteFinals(r: Rules, seen: seq<Record>, front: seq<Final>) returns (all: seq<Final>)
    requires var order := KeysOf(seen);
      |front| <= |order| && forall k :: 0 <= k < |front| ==> IsFinal(r, seen, order[k], front[k])
    ensures AreFinals(r, seen, KeysOf(seen), all) && FinalEvents(front) <= FinalEvents(all)
    decreases |KeysOf(seen)| - |front|
  {
    hide IsFinal, KeysOf, FinalEvents;
    var order := KeysOf(seen);
    if |front| == |order| { return front; }
    var f := FinalExists(r, seen, order[|front|]);
    OneMoreFinalEvent(front, f);
    all := CompleteFinals(r, seen, front + [f]);
  }

  lemma FinalExists(r: Rules, seen: seq<Record>, key: string) returns (f: Final)
    requires key in KeysOf(seen)
    ensures IsFinal(r, seen, key, f)
  {
    hide KeysOf, OfKey, CallsOf;
    SightedKeyIsReconcilable(seen, key);
    var c := CallsOf(OfKey(seen, key));
    if c.terminals == map[] { return Final(Unresolved(r, key, c.started.value, MISSING), MISSING); }
    if o :| c.terminals.Keys == {o} {
      assert o in c.terminals;
      return Final(c.terminals[o].(idempotencyKey := VerdictKey(r, key, o)), "");
    }
    var o := LatestExists(c.terminals, c.terminals.Keys);
    return Final(Unresolved(r, key, c.terminals[o], CONTRADICTORY), CONTRADICTORY);
  }

  lemma {:induction false} LatestExists(terminals: map<string, Record>, among: set<string>) returns (o: string)
    requires among <= terminals.Keys && among != {}
    ensures o in among && forall k :: k in among ==> terminals[k].observedAt <= terminals[o].observedAt
    decreases among
  {
    o :| o in among;
    if among != {o} {
      var other := LatestExists(terminals, among - {o});
      if terminals[other].observedAt > terminals[o].observedAt { o := other; }
    }
  }

  lemma BookedWiden(start: Books, now: Books, events: seq<Event>, run: seq<Checkpoint>, low: nat, high: nat,
                    higher: nat)
    requires Booked(start, now, events, run, low, high) && high <= higher
    ensures Booked(start, now, events, run, low, higher)
  {
    hide AcceptCount, RejectCount, LatestOf;
  }

  lemma NoLines(r: Rules, base: seq<Frame>, none: seq<Line>)
    requires none == []
    ensures Emissions(r, base, none) == [] && Sightings(r, base, none) == [] && base + Map(FrameOf(), none) == base
  {
  }

  lemma OneMoreLine(r: Rules, base: seq<Frame>, front: seq<Line>, line: Line)
    ensures Emissions(r, base, front + [line]) ==
      Emissions(r, base, front) + EventsOf(NextProjection(r, base, front, line), line)
    ensures Sightings(r, base, front + [line]) ==
      Sightings(r, base, front) + CallsIn(NextProjection(r, base, front, line))
  {
    hide NextProjection, EventsOf, CallsIn;
    assert (front + [line])[..|front|] == front;
  }

  lemma NoRecords()
    ensures Immediate([]) == [] && CallRecords([]) == []
  {
  }

  lemma {:induction false} ImmediatePrefix(records: seq<Record>, i: nat)
    requires i <= |records|
    ensures Immediate(records[..i]) <= Immediate(records)
  {
    if i == |records| {
      assert records[..i] == records;
    } else {
      assert records[..|records| - 1][..i] == records[..i];
      ImmediatePrefix(records[..|records| - 1], i);
    }
  }

  lemma OneMoreRecord(front: seq<Record>, last: Record)
    ensures Immediate(front + [last]) ==
      if IsCallRecord(last) then Immediate(front) else Immediate(front) + [Asserted(last)]
    ensures CallRecords(front + [last]) ==
      if IsCallRecord(last) then CallRecords(front) + [last] else CallRecords(front)
  {
    assert (front + [last])[..|front|] == front;
    assert Immediate(front) + [] == Immediate(front) && CallRecords(front) + [] == CallRecords(front);
  }

  lemma NoFinals()
    ensures FinalEvents([]) == []
  {
  }

  /** What one reconciled call calls for. */
  function CallEvents(f: Final): seq<Event>
  {
    if f.category == "" then [Asserted(f.record)] else [Asserted(f.record), Refused(f.category, 0)]
  }

  lemma OneMoreFinalEvent(front: seq<Final>, f: Final)
    ensures FinalEvents(front + [f]) == FinalEvents(front) + CallEvents(f)
  {
    assert (front + [f])[..|front|] == front;
    assert FinalEvents(front) + [Asserted(f.record)] + [] == FinalEvents(front) + [Asserted(f.record)];
  }

  lemma FinalFor(r: Rules, seen: seq<Record>, key: string, f: Final)
    requires key in KeysOf(seen)
    requires CallsOf(OfKey(seen, key)).started.Some? || CallsOf(OfKey(seen, key)).terminals != map[]
    requires IsReconciled(r, key, CallsOf(OfKey(seen, key)), f.record, f.category)
    ensures IsFinal(r, seen, key, f)
  {
  }

  lemma NeverAsks(r: Rules, f: Frame)
    ensures !f.SkillsListRequest? && !f.PluginReadRequest? ==> Asks(r, f) == None
  {
  }

  lemma PendingSnoc(r: Rules, front: seq<Frame>, last: Frame)
    ensures PendingOf(r, front + [last]) == PendingAfter(r, PendingOf(r, front), last)
  {
    hide PendingAfter;
    assert (front + [last])[..|front|] == front;
  }

  lemma {:induction false} NoEmptyId(r: Rules, frames: seq<Frame>)
    ensures "" !in PendingOf(r, frames)
  {
    if frames != [] { NoEmptyId(r, frames[..|frames| - 1]); }
  }

  /** The item/started branch. */
  method ProjectStarted(r: Rules, item: Option<StartedItem>, sequence: nat) returns (p: Projection)
    ensures p == StartedProjection(r, item, sequence)
  {
    hide CallStarted, MessageProjection;
    if item.None? { return Rejected("invalid_item_started"); }
    var i := item.value;
    if i.thread == "" || i.turn == "" || i.id == "" || i.at <= 0 { return Rejected("invalid_item_started"); }
    if i.kind == "mcpToolCall" {
      if i.server == "" || i.tool == "" || |i.server| + |i.tool| > MAX_TOOL_NAME {
        return Rejected("invalid_mcp_item_started");
      }
      return Projected([CallStarted(r, i, sequence)]);
    }
    if i.kind != "userMessage" { return Projected([]); }
    p := ProjectMessage(r, i, sequence);
  }

  /** The books of a run that finished: the accepted counter and the sink's accepted records grew by
      the immediate records and one per distinct call, the rejected counter by the rejected frames
      and the unresolved calls; and its checkpoints never went back. */
  lemma FinishedBooks(r: Rules, history: seq<Frame>, lines: seq<Line>, start: Books, now: Books, events: seq<Event>,
                      run: seq<Checkpoint>, finals: seq<Final>)
    requires Booked(start, now, events, run, 0, |lines|)
    requires var sightings := Sightings(r, history, lines); AreFinals(r, sightings, KeysOf(sightings), finals)
    requires events == Emissions(r, history, lines) + FinalEvents(finals)
    ensures var sightings := Sightings(r, history, lines);
      && now.accepted - start.accepted == ImmediateRecords(r, history, lines) + |KeysOf(sightings)|
      && AcceptCount(now.log) - AcceptCount(start.log) == now.accepted - start.accepted
      && now.rejected - start.rejected ==
        RejectedFrames(r, history, lines) + UnresolvedCount(sightings, KeysOf(sightings))
      && RejectCount(now.log) - RejectCount(start.log) == now.rejected - start.rejected
    ensures now.trail == start.trail + run && Ascending(run) && forall c :: c in run ==> c.sequence <= |lines|
    ensures IsLatest(start.lastObservedAt, events, now.lastObservedAt)
    ensures |run| == AcceptCount(events)
    ensures forall k :: 0 <= k < |run| ==> IsLatest(start.lastObservedAt, UpTo(events, k), run[k].lastObservedAt)
  {
    hide Sightings, Emissions, AreFinals, KeysOf, FinalEvents, AcceptCount, RejectCount, LatestOf;
    hide ImmediateRecords, RejectedFrames, UnresolvedCount;
    StreamAccounting(r, history, lines, finals);
    CountsConcat(start.log, events);
    LatestOfIsMax(start.lastObservedAt, events);
    AcceptTimesAt(start.lastObservedAt, events);
    forall k | 0 <= k < |run| ensures IsLatest(start.lastObservedAt, UpTo(events, k), run[k].lastObservedAt) {
      assert Map(TimeOf(), run)[k] == run[k].lastObservedAt;
      LatestOfIsMax(start.lastObservedAt, UpTo(events, k));
    }
  }
}

/**
 The audit log pipeline: producers' buffer, concurrent flushes to a Redis stream,
 and consumers that write the stream to the database.

 Sources: app/audit_logs/redis_logger.py, app/audit_logs/consumer.py.
 */
module AuditLog {
  import opened Common

  /** A failed flush puts back at most this many of its batch, and keeps as many of the buffer. */
  const KEPT_ON_FAILURE := 100
  const BUFFER_SIZE := 50
  const MAX_STREAM := 1_000_000

  type Fields = map<string, string>

  /*** What becomes of one entry ***/

  datatype Record = Record(timestamp: int, level: string, logger: string, message: string,
                           module_: Option<string>, function_: Option<string>,
                           line: Option<int>, thread: Option<int>, process: Option<int>, extra: Option<string>)

  function Get(fields: Fields, key: string, default_: string): string {
    if key in fields then fields[key] else default_
  }

  /** Absent, or the text a missing value used to be written as. */
  function Text(fields: Fields, key: string): Option<string> {
    if key in fields && fields[key] != "None" then Some(fields[key]) else None
  }

  /** A number field: missing, empty or "None" is no number; any other text must parse. */
  function Number(parse: string -> Option<int>, fields: Fields, key: string): Result<Option<int>, ()> {
    if key !in fields || fields[key] == "" || fields[key] == "None" then Ok(None)
    else match parse(fields[key])
      case None => Err(())
      case Some(n) => Ok(Some(n))
  }

  function Extra(fields: Fields): Option<string> {
    if "extra" in fields && fields["extra"] != "None" && fields["extra"] != "null" then Some(fields["extra"]) else None
  }

  function Timestamp(iso: string -> Option<int>, fields: Fields, now: int): int {
    if "timestamp" !in fields then now
    else match iso(fields["timestamp"])
      case None => now
      case Some(t) => t
  }

  predicate Parses(parse: string -> Option<int>, fields: Fields) {
    Number(parse, fields, "line").Ok? && Number(parse, fields, "thread_id").Ok? && Number(parse, fields, "process_id").Ok?
  }

  function ToRecord(parse: string -> Option<int>, iso: string -> Option<int>, fields: Fields, now: int): Record
    requires Parses(parse, fields)
  {
    Record(Timestamp(iso, fields, now), Get(fields, "level", "INFO"), Get(fields, "logger", "audit"),
           Get(fields, "message", ""), Text(fields, "module"), Text(fields, "function"),
           Number(parse, fields, "line").value, Number(parse, fields, "thread_id").value,
           Number(parse, fields, "process_id").value, Extra(fields))
  }

  /*** The pipeline ***/

  /** A consumer's batch: the stream positions from lo up to hi. */
  datatype Reader = Reader(lo: nat, hi: nat, inserted: bool)

  /**
   Entries are named by their position in `published`.  `flights` are the batches whose
   pipeline is running; `dropped` were cut by a failed flush or lost with a cancelled one;
   `refused` are immediate publishes that failed.  `table` and `acked` hold stream positions.
   */
  datatype State = State(parse: string -> Option<int>, published: seq<Fields>, buffer: seq<nat>,
                         flights: seq<seq<nat>>, stream: seq<nat>, dropped: seq<nat>, refused: seq<nat>,
                         floor: nat, group: nat, readers: seq<Reader>, table: seq<nat>, acked: set<nat>)

  datatype Event =
    | Publish(fields: Fields)
    | Immediate(fields: Fields, ok: bool)
    | BeginFlush
    | Succeed(flight: nat)
    | Fail(flight: nat)
    | Cancel(flight: nat)
    | Trim(floor: nat)
    | Read(reader: nat, count: nat)
    | Insert(reader: nat, ok: bool)
    | Ack(reader: nat, ok: bool)
    | Crash(reader: nat)

  function Start(parse: string -> Option<int>, n: nat): State {
    State(parse, [], [], [], [], [], [], 0, 0, seq(n, _ => Reader(0, 0, false)), [], {})
  }

  function Take<T>(s: seq<T>, n: nat): seq<T> {
    if n <= |s| then s[..n] else s
  }

  function Rest<T>(s: seq<T>, n: nat): seq<T> {
    if n <= |s| then s[n..] else []
  }

  function Landed(s: State, i: nat): State
    requires i < |s.flights|
  {
    s.(flights := s.flights[..i] + s.flights[i + 1..])
  }

  function Positions(lo: nat, hi: nat): seq<nat>
    requires lo <= hi
  {
    seq(hi - lo, i requires 0 <= i < hi - lo => lo + i)
  }

  predicate Busy(s: State, r: nat) {
    r < |s.readers| && s.readers[r].lo < s.readers[r].hi <= |s.stream|
  }

  /** Every message of the batch can be turned into a record. */
  predicate BatchParses(s: State, lo: nat, hi: nat)
    requires lo <= hi <= |s.stream|
  {
    forall p :: lo <= p < hi ==> s.stream[p] < |s.published| && Parses(s.parse, s.published[s.stream[p]])
  }

  function SetReader(s: State, r: nat, reader: Reader): State
    requires r < |s.readers|
  {
    s.(readers := s.readers[r := reader])
  }

  /** The group hands out the next positions that have not been trimmed. */
  function DoRead(s: State, r: nat, count: nat): State
    requires r < |s.readers|
  {
    var lo := if s.group < s.floor then s.floor else s.group;
    if |s.stream| <= lo then s
    else
      var hi := if lo + count <= |s.stream| then lo + count else |s.stream|;
      SetReader(s, r, Reader(lo, hi, false)).(group := hi)
  }

  /** The whole batch is written, or nothing of it; a failed batch is never read again. */
  function DoInsert(s: State, r: nat, ok: bool): State
    requires Busy(s, r)
  {
    var b := s.readers[r];
    if ok && BatchParses(s, b.lo, b.hi)
    then SetReader(s, r, b.(inserted := true)).(table := s.table + Positions(b.lo, b.hi))
    else SetReader(s, r, Reader(0, 0, false))
  }

  function DoAck(s: State, r: nat, ok: bool): State
    requires Busy(s, r)
  {
    var b := s.readers[r];
    SetReader(s, r, Reader(0, 0, false)).(acked := if ok then s.acked + (set p | p in Positions(b.lo, b.hi)) else s.acked)
  }

  function Step(s: State, e: Event): State {
    match e
    case Publish(fields) => s.(published := s.published + [fields], buffer := s.buffer + [|s.published|])
    case Immediate(fields, ok) =>
      s.(published := s.published + [fields],
         stream := if ok then s.stream + [|s.published|] else s.stream,
         refused := if ok then s.refused else s.refused + [|s.published|])
    case BeginFlush => if s.buffer == [] then s else s.(flights := s.flights + [s.buffer], buffer := [])
    case Succeed(i) => if i < |s.flights| then Landed(s, i).(stream := s.stream + s.flights[i]) else s
    case Fail(i) =>
      if i < |s.flights| then
        Landed(s, i).(buffer := Take(s.flights[i], KEPT_ON_FAILURE) + Take(s.buffer, KEPT_ON_FAILURE),
                      dropped := s.dropped + Rest(s.flights[i], KEPT_ON_FAILURE) + Rest(s.buffer, KEPT_ON_FAILURE))
      else s
    case Cancel(i) => if i < |s.flights| then Landed(s, i).(dropped := s.dropped + s.flights[i]) else s
    case Trim(n) => if s.floor <= n && n + MAX_STREAM <= |s.stream| then s.(floor := n) else s
    case Read(r, count) => if r < |s.readers| && s.readers[r].lo == s.readers[r].hi then DoRead(s, r, count) else s
    case Insert(r, ok) => if Busy(s, r) && !s.readers[r].inserted then DoInsert(s, r, ok) else s
    case Ack(r, ok) => if Busy(s, r) && s.readers[r].inserted then DoAck(s, r, ok) else s
    case Crash(r) => if r < |s.readers| then SetReader(s, r, Reader(0, 0, false)) else s
  }

  function Run(s: State, events: seq<Event>): State
    decreases |events|
  {
    if events == [] then s else Run(Step(s, events[0]), events[1..])
  }

  /*** Conservation ***/

  function InFlight(flights: seq<seq<nat>>): multiset<nat> {
    if flights == [] then multiset{}
    else InFlight(flights[..|flights| - 1]) + multiset(flights[|flights| - 1])
  }

  /** Where every published entry is. */
  function Everywhere(s: State): multiset<nat> {
    multiset(s.stream) + InFlight(s.flights) + multiset(s.buffer) + multiset(s.dropped) + multiset(s.refused)
  }

  function Numbers(n: nat): multiset<nat> {
    if n == 0 then multiset{} else Numbers(n - 1) + multiset{n - 1}
  }

  lemma {:induction false} NumbersOnce(n: nat, k: nat)
    ensures Numbers(n)[k] == if k < n then 1 else 0
  {
    if n > 0 { NumbersOnce(n - 1, k); }
  }

  lemma InFlightSnoc(flights: seq<seq<nat>>, batch: seq<nat>)
    ensures InFlight(flights + [batch]) == InFlight(flights) + multiset(batch)
  {}

  lemma {:induction false} InFlightLanded(flights: seq<seq<nat>>, i: nat)
    requires i < |flights|
    ensures InFlight(flights) == InFlight(flights[..i] + flights[i + 1..]) + multiset(flights[i])
  {
    var init, last := flights[..|flights| - 1], flights[|flights| - 1];
    if i == |flights| - 1 {
      assert flights[..i] + flights[i + 1..] == init;
    } else {
      InFlightLanded(init, i);
      assert flights[..i] + flights[i + 1..] == (init[..i] + init[i + 1..]) + [last];
      InFlightSnoc(init[..i] + init[i + 1..], last);
    }
  }

  lemma TakeRest<T>(s: seq<T>, n: nat)
    ensures multiset(s) == multiset(Take(s, n)) + multiset(Rest(s, n))
  {
    assert s == Take(s, n) + Rest(s, n);
  }

  ghost predicate Conserved(s: State) {
    Everywhere(s) == Numbers(|s.published|)
  }

  lemma FailConserves(s: State, i: nat)
    requires i < |s.flights|
    ensures Everywhere(Step(s, Fail(i))) == Everywhere(s)
  {
    var t, batch := Step(s, Fail(i)), s.flights[i];
    var b, b', c, c' := Take(batch, KEPT_ON_FAILURE), Rest(batch, KEPT_ON_FAILURE),
                        Take(s.buffer, KEPT_ON_FAILURE), Rest(s.buffer, KEPT_ON_FAILURE);
    InFlightLanded(s.flights, i);
    TakeRest(batch, KEPT_ON_FAILURE);
    TakeRest(s.buffer, KEPT_ON_FAILURE);
    assert multiset(t.buffer) == multiset(b) + multiset(c);
    assert multiset(t.dropped) == multiset(s.dropped) + multiset(b') + multiset(c');
  }

  lemma SucceedConserves(s: State, i: nat)
    requires i < |s.flights|
    ensures Everywhere(Step(s, Succeed(i))) == Everywhere(s)
  {
    var t, batch := Step(s, Succeed(i)), s.flights[i];
    InFlightLanded(s.flights, i);
    var c, d, e := multiset(s.buffer), multiset(s.dropped), multiset(s.refused);
    assert Everywhere(t) == (multiset(s.stream) + multiset(batch)) + InFlight(t.flights) + c + d + e;
    Regroup(multiset(s.stream), InFlight(t.flights), c, d, e, multiset(batch));
  }

  lemma CancelConserves(s: State, i: nat)
    requires i < |s.flights|
    ensures Everywhere(Step(s, Cancel(i))) == Everywhere(s)
  {
    var t, batch := Step(s, Cancel(i)), s.flights[i];
    InFlightLanded(s.flights, i);
    var a, c, e := multiset(s.stream), multiset(s.buffer), multiset(s.refused);
    assert Everywhere(t) == a + InFlight(t.flights) + c + (multiset(s.dropped) + multiset(batch)) + e;
    Regroup(a, InFlight(t.flights), c, multiset(s.dropped), e, multiset(batch));
  }

  lemma Regroup(a: multiset<nat>, b: multiset<nat>, c: multiset<nat>, d: multiset<nat>, e: multiset<nat>,
                x: multiset<nat>)
    ensures (a + x) + b + c + d + e == a + (b + x) + c + d + e
    ensures a + b + c + (d + x) + e == a + (b + x) + c + d + e
  {}

  lemma PublishConserves(s: State, e: Event)
    requires e.Publish? || e.Immediate?
    ensures Everywhere(Step(s, e)) == Everywhere(s) + multiset{|s.published|}
  {}

  lemma BeginConserves(s: State)
    ensures Everywhere(Step(s, BeginFlush)) == Everywhere(s)
  {}

  predicate Consuming(e: Event) {
    e.Trim? || e.Read? || e.Insert? || e.Ack? || e.Crash?
  }

  /** Trimming and the consumers move no entry. */
  lemma ConsumersMoveNothing(s: State, e: Event)
    requires Consuming(e)
    ensures var t := Step(s, e);
            t.published == s.published && t.buffer == s.buffer && t.flights == s.flights && t.stream == s.stream &&
            t.dropped == s.dropped && t.refused == s.refused
  {}

  lemma FlushConserves(s: State, e: Event)
    requires e.BeginFlush? || e.Succeed? || e.Fail? || e.Cancel?
    ensures Everywhere(Step(s, e)) == Everywhere(s) && Step(s, e).published == s.published
  {
    match e
    case BeginFlush => BeginConserves(s);
    case Fail(i) => if i < |s.flights| { FailConserves(s, i); }
    case Succeed(i) => if i < |s.flights| { SucceedConserves(s, i); }
    case Cancel(i) => if i < |s.flights| { CancelConserves(s, i); }
  }

  lemma StepConserves(s: State, e: Event)
    requires Conserved(s)
    ensures Conserved(Step(s, e))
  {
    if Consuming(e) {
      ConsumersMoveNothing(s, e);
    } else if e.Publish? || e.Immediate? {
      PublishConserves(s, e);
      assert |Step(s, e).published| == |s.published| + 1;
    } else {
      FlushConserves(s, e);
    }
  }

  lemma {:induction false} RunConserves(s: State, events: seq<Event>)
    requires Conserved(s)
    ensures Conserved(Run(s, events))
    decreases |events|
  {
    if events != [] {
      StepConserves(s, events[0]);
      RunConserves(Step(s, events[0]), events[1..]);
    }
  }

  function Reached(parse: string -> Option<int>, n: nat, events: seq<Event>): State {
    Run(Start(parse, n), events)
  }

  /**
   Conservation: in every run, whatever flushes overlap and fail, each published entry
   is in exactly one place: stream, in flight, buffered, dropped or refused.
   */
  lemma EveryEntryInOnePlace(parse: string -> Option<int>, n: nat, events: seq<Event>, k: nat)
    ensures var s := Reached(parse, n, events);
            Everywhere(s)[k] == if k < |s.published| then 1 else 0
  {
    RunConserves(Start(parse, n), events);
    NumbersOnce(|Reached(parse, n, events).published|, k);
  }

  /*** Drops ***/

  ghost predicate NoEmptyFlights(s: State) {
    forall i :: 0 <= i < |s.flights| ==> s.flights[i] != []
  }

  lemma {:induction false} FlightsNeverEmpty(s: State, events: seq<Event>)
    requires NoEmptyFlights(s)
    ensures NoEmptyFlights(Run(s, events))
    decreases |events|
  {
    if events != [] { FlightsNeverEmpty(Step(s, events[0]), events[1..]); }
  }

  /** A failed flush of an overlong batch or buffer, or a flush cancelled under way. */
  predicate Drops(s: State, e: Event) {
    match e
    case Fail(i) => i < |s.flights| && (|s.flights[i]| > 100 || |s.buffer| > 100)
    case Cancel(i) => i < |s.flights|
    case _ => false
  }

  /** Exactly those steps drop entries. */
  lemma DropsIff(parse: string -> Option<int>, n: nat, events: seq<Event>, e: Event)
    ensures var s := Reached(parse, n, events);
            Step(s, e).dropped == s.dropped <==> !Drops(s, e)
  {
    FlightsNeverEmpty(Start(parse, n), events);
    var s := Reached(parse, n, events);
    if Drops(s, e) {
      assert |Step(s, e).dropped| > |s.dropped|;
    }
  }

  /** A failed flush leaves the first hundred of its batch and then of the buffer, and drops exactly the rest. */
  lemma FailureKeepsOldest(s: State, i: nat)
    requires i < |s.flights|
    ensures var t, batch := Step(s, Fail(i)), s.flights[i];
            var b := if |batch| <= 100 then |batch| else 100;
            var c := if |s.buffer| <= 100 then |s.buffer| else 100;
            t.buffer == batch[..b] + s.buffer[..c] && t.dropped == s.dropped + batch[b..] + s.buffer[c..]
  {}

  /*** Order ***/

  predicate Increasing(s: seq<nat>) {
    forall i, j :: 0 <= i < j < |s| ==> s[i] < s[j]
  }

  /** One flush at a time, and no publish that bypasses the buffer. */
  predicate Serial(s: State, e: Event) {
    !e.Immediate? && (e.BeginFlush? ==> s.flights == [])
  }

  predicate SerialRun(s: State, events: seq<Event>)
    decreases |events|
  {
    events == [] || (Serial(s, events[0]) && SerialRun(Step(s, events[0]), events[1..]))
  }

  /** Stream, flight and buffer, one after the other. */
  function Line(s: State): seq<nat> {
    s.stream + (if s.flights == [] then [] else s.flights[0]) + s.buffer
  }

  ghost predicate InLine(s: State) {
    |s.flights| <= 1 && Increasing(Line(s)) && forall i :: 0 <= i < |Line(s)| ==> Line(s)[i] < |s.published|
  }

  lemma CutIncreasing(a: seq<nat>, b: seq<nat>, c: seq<nat>, m: nat, n: nat)
    requires Increasing(a + b + c) && m <= |b| && n <= |c|
    ensures Increasing(a + (b[..m] + c[..n]))
    ensures forall i :: 0 <= i < |a + (b[..m] + c[..n])| ==> (a + (b[..m] + c[..n]))[i] in a + b + c
  {
    var whole, part := a + b + c, a + (b[..m] + c[..n]);
    forall i | 0 <= i < |part| ensures Origin(|a|, |b|, m, i) < |whole| && part[i] == whole[Origin(|a|, |b|, m, i)] {}
    forall i, j | 0 <= i < j < |part| ensures part[i] < part[j] {
      assert whole[Origin(|a|, |b|, m, i)] < whole[Origin(|a|, |b|, m, j)];
    }
  }

  /** Where an entry of the cut line stood in the whole line. */
  function Origin(a: nat, b: nat, m: nat, i: nat): nat
    requires m <= b
  {
    if i < a + m then i else i + (b - m)
  }

  lemma TakeIsPrefix<T>(s: seq<T>, n: nat)
    ensures Take(s, n) == s[..if n <= |s| then n else |s|]
  {}

  lemma FailKeepsLine(s: State)
    requires InLine(s) && |s.flights| == 1
    ensures InLine(Step(s, Fail(0)))
  {
    var t, b, c := Step(s, Fail(0)), s.flights[0], s.buffer;
    var m := if KEPT_ON_FAILURE <= |b| then KEPT_ON_FAILURE else |b|;
    var n := if KEPT_ON_FAILURE <= |c| then KEPT_ON_FAILURE else |c|;
    TakeIsPrefix(b, KEPT_ON_FAILURE);
    TakeIsPrefix(c, KEPT_ON_FAILURE);
    assert t.buffer == b[..m] + c[..n] && t.flights == [];
    assert Line(t) == s.stream + (b[..m] + c[..n]);
    CutIncreasing(s.stream, b, c, m, n);
    forall i | 0 <= i < |Line(t)| ensures Line(t)[i] < |t.published| {
      assert Line(t)[i] in Line(s);
    }
  }

  lemma CancelKeepsLine(s: State)
    requires InLine(s) && |s.flights| == 1
    ensures InLine(Step(s, Cancel(0)))
  {
    var t := Step(s, Cancel(0));
    assert Line(t) == s.stream + (s.flights[0][..0] + s.buffer[..|s.buffer|]);
    CutIncreasing(s.stream, s.flights[0], s.buffer, 0, |s.buffer|);
    forall i | 0 <= i < |Line(t)| ensures Line(t)[i] < |t.published| {
      assert Line(t)[i] in Line(s);
    }
  }

  lemma SameLine(s: State, t: State)
    requires InLine(s) && Line(t) == Line(s) && |t.flights| <= 1 && t.published == s.published
    ensures InLine(t)
  {}

  lemma PublishKeepsLine(s: State, fields: Fields)
    requires InLine(s)
    ensures InLine(Step(s, Publish(fields)))
  {
    var t := Step(s, Publish(fields));
    var n := |s.published|;
    assert Line(t) == Line(s) + [n];
    forall i, j | 0 <= i < j < |Line(t)| ensures Line(t)[i] < Line(t)[j] {
      assert Line(t)[i] == Line(s)[i];
    }
  }

  lemma BeginKeepsLine(s: State)
    requires InLine(s) && s.flights == []
    ensures InLine(Step(s, BeginFlush))
  {
    assert Line(Step(s, BeginFlush)) == Line(s);
    SameLine(s, Step(s, BeginFlush));
  }

  lemma SucceedKeepsLine(s: State)
    requires InLine(s) && |s.flights| == 1
    ensures InLine(Step(s, Succeed(0)))
  {
    assert Line(Step(s, Succeed(0))) == Line(s);
    SameLine(s, Step(s, Succeed(0)));
  }

  lemma FlushKeepsLine(s: State, e: Event)
    requires InLine(s) && Serial(s, e) && (e.BeginFlush? || e.Succeed? || e.Fail? || e.Cancel?)
    ensures InLine(Step(s, e))
  {
    match e
    case BeginFlush => BeginKeepsLine(s);
    case Succeed(i) => if i < |s.flights| { SucceedKeepsLine(s); }
    case Fail(i) => if i < |s.flights| { FailKeepsLine(s); }
    case Cancel(i) => if i < |s.flights| { CancelKeepsLine(s); }
  }

  lemma StepKeepsLine(s: State, e: Event)
    requires InLine(s) && Serial(s, e)
    ensures InLine(Step(s, e))
  {
    if Consuming(e) {
      ConsumersMoveNothing(s, e);
      SameLine(s, Step(s, e));
    } else if e.Publish? {
      PublishKeepsLine(s, e.fields);
    } else {
      FlushKeepsLine(s, e);
    }
  }

  lemma {:induction false} RunKeepsLine(s: State, events: seq<Event>)
    requires InLine(s) && SerialRun(s, events)
    ensures InLine(Run(s, events))
    decreases |events|
  {
    if events != [] {
      StepKeepsLine(s, events[0]);
      RunKeepsLine(Step(s, events[0]), events[1..]);
    }
  }

  /** When one flush runs at a time, the stream is in the order of publication. */
  lemma SerialFlushesKeepOrder(parse: string -> Option<int>, n: nat, events: seq<Event>)
    requires SerialRun(Start(parse, n), events)
    ensures Increasing(Reached(parse, n, events).stream)
  {
    RunKeepsLine(Start(parse, n), events);
    var s := Reached(parse, n, events);
    forall i, j | 0 <= i < j < |s.stream| ensures s.stream[i] < s.stream[j] {
      assert Line(s)[i] == s.stream[i] && Line(s)[j] == s.stream[j];
    }
  }

  /*** Order, exactly ***/

  /** The batch is in order and newer than everything in the stream. */
  predicate Follows(stream: seq<nat>, batch: seq<nat>) {
    Increasing(batch) && (stream != [] && batch != [] ==> stream[|stream| - 1] < batch[0])
  }

  lemma AppendOrderIff(stream: seq<nat>, batch: seq<nat>)
    requires Increasing(stream)
    ensures Increasing(stream + batch) <==> Follows(stream, batch)
  {
    var whole := stream + batch;
    if Increasing(whole) {
      forall i, j | 0 <= i < j < |batch| ensures batch[i] < batch[j] {
        assert whole[|stream| + i] < whole[|stream| + j];
      }
      if stream != [] && batch != [] { assert whole[|stream| - 1] < whole[|stream|]; }
    }
    if Follows(stream, batch) {
      forall i, j | 0 <= i < j < |whole| ensures whole[i] < whole[j] {
        if i < |stream| <= j {
          assert stream[i] <= stream[|stream| - 1] < batch[0] <= batch[j - |stream|];
        }
      }
    }
  }

  /** Nothing in the stream is newer than the entry published next. */
  lemma StreamIsPast(s: State)
    requires Conserved(s)
    ensures forall i :: 0 <= i < |s.stream| ==> s.stream[i] < |s.published|
  {
    forall i | 0 <= i < |s.stream| ensures s.stream[i] < |s.published| {
      assert s.stream[i] in multiset(s.stream);
      assert Everywhere(s)[s.stream[i]] >= 1;
      NumbersOnce(|s.published|, s.stream[i]);
    }
  }

  /** A flush that lands brings a batch newer than the stream. */
  predicate LandsInOrder(s: State, e: Event) {
    e.Succeed? && e.flight < |s.flights| ==> Follows(s.stream, s.flights[e.flight])
  }

  /** One step keeps the stream in publication order exactly when a landing flush follows it. */
  lemma StepKeepsOrderIff(s: State, e: Event)
    requires Conserved(s) && Increasing(s.stream)
    ensures Increasing(Step(s, e).stream) <==> LandsInOrder(s, e)
  {
    match e
    case Succeed(i) => if i < |s.flights| { AppendOrderIff(s.stream, s.flights[i]); }
    case Immediate(_, ok) =>
      StreamIsPast(s);
      if ok { AppendOrderIff(s.stream, [|s.published|]); }
    case _ =>
      assert Step(s, e).stream == s.stream;
  }

  predicate LandInOrder(s: State, events: seq<Event>)
    decreases |events|
  {
    events == [] || (LandsInOrder(s, events[0]) && LandInOrder(Step(s, events[0]), events[1..]))
  }

  lemma {:induction false} StreamOnlyGrows(s: State, events: seq<Event>)
    ensures s.stream <= Run(s, events).stream
    decreases |events|
  {
    if events != [] {
      assert s.stream <= Step(s, events[0]).stream;
      StreamOnlyGrows(Step(s, events[0]), events[1..]);
    }
  }

  lemma {:induction false} RunKeepsOrderIff(s: State, events: seq<Event>)
    requires Conserved(s) && Increasing(s.stream)
    ensures Increasing(Run(s, events).stream) <==> LandInOrder(s, events)
    decreases |events|
  {
    if events != [] {
      var t := Step(s, events[0]);
      StepConserves(s, events[0]);
      StepKeepsOrderIff(s, events[0]);
      if LandsInOrder(s, events[0]) {
        RunKeepsOrderIff(t, events[1..]);
      } else {
        StreamOnlyGrows(t, events[1..]);
        PrefixOfIncreasing(t.stream, Run(s, events).stream);
      }
    }
  }

  lemma PrefixOfIncreasing(a: seq<nat>, b: seq<nat>)
    requires a <= b
    ensures Increasing(b) ==> Increasing(a)
  {}

  /**
   However flushes overlap and fail, and whatever is published immediately, a run leaves
   the stream in publication order exactly when each flush that succeeds brings a batch
   that is in order and newer than all that is in the stream by then.
   */
  lemma StreamInOrderIff(parse: string -> Option<int>, n: nat, events: seq<Event>)
    ensures Increasing(Reached(parse, n, events).stream) <==> LandInOrder(Start(parse, n), events)
  {
    RunKeepsOrderIff(Start(parse, n), events);
  }

  /*** Consumers ***/

  /** Positions handed out and not yet written are in no one else's hands and not in the table. */
  ghost predicate HandInv(s: State, r: nat)
    requires r < |s.readers|
  {
    var b := s.readers[r];
    b.lo <= b.hi <= s.group &&
    (b.lo < b.hi && !b.inserted ==> forall p :: p in s.table ==> !(b.lo <= p < b.hi)) &&
    (b.lo < b.hi && b.inserted ==> forall p :: b.lo <= p < b.hi ==> p in s.table)
  }

  ghost predicate Disjoint(a: Reader, b: Reader) {
    a.lo == a.hi || b.lo == b.hi || a.hi <= b.lo || b.hi <= a.lo
  }

  ghost predicate ConsumerInv(s: State) {
    s.group <= |s.stream| &&
    (forall r :: 0 <= r < |s.readers| ==> HandInv(s, r)) &&
    (forall r, q :: 0 <= r < q < |s.readers| ==> Disjoint(s.readers[r], s.readers[q])) &&
    (forall i :: 0 <= i < |s.table| ==> s.table[i] < s.group) &&
    (forall i, j :: 0 <= i < j < |s.table| ==> s.table[i] != s.table[j]) &&
    (forall p :: p in s.acked ==> p in s.table)
  }

  lemma InsertKeepsConsumers(s: State, r: nat)
    requires ConsumerInv(s) && Busy(s, r) && !s.readers[r].inserted && BatchParses(s, s.readers[r].lo, s.readers[r].hi)
    ensures ConsumerInv(DoInsert(s, r, true))
  {
    var b, t := s.readers[r], DoInsert(s, r, true);
    var more := Positions(b.lo, b.hi);
    assert HandInv(s, r);
    forall q | 0 <= q < |t.readers| ensures HandInv(t, q) {
      assert HandInv(s, q);
      if q == r {
        forall p | b.lo <= p < b.hi ensures p in t.table { assert more[p - b.lo] == p; }
      } else if s.readers[q].lo < s.readers[q].hi {
        assert Disjoint(s.readers[q], b);
        if !s.readers[q].inserted {
          forall p | p in t.table ensures !(s.readers[q].lo <= p < s.readers[q].hi) {
            if p !in s.table { assert p in more; }
          }
        }
      }
    }
    forall i, j | 0 <= i < j < |t.table| ensures t.table[i] != t.table[j] {
      if i < |s.table| { assert s.table[i] in s.table; }
      if j >= |s.table| { assert t.table[j] == more[j - |s.table|]; }
    }
  }

  lemma ReadKeepsConsumers(s: State, r: nat, count: nat)
    requires ConsumerInv(s) && r < |s.readers|
    ensures ConsumerInv(DoRead(s, r, count))
  {
    var t := DoRead(s, r, count);
    assert forall p :: p in s.table ==> p < s.group;
    forall q | 0 <= q < |t.readers| ensures HandInv(t, q) { assert HandInv(s, q); }
    forall q | 0 <= q < |s.readers| ensures s.readers[q].hi <= s.group { assert HandInv(s, q); }
  }

  /** A reader lets go of its batch; only stored positions can have been acknowledged. */
  lemma ReleaseKeepsConsumers(s: State, r: nat, acked: set<nat>)
    requires ConsumerInv(s) && r < |s.readers| && forall p :: p in acked ==> p in s.table
    ensures ConsumerInv(SetReader(s, r, Reader(0, 0, false)).(acked := acked))
  {
    var t := SetReader(s, r, Reader(0, 0, false)).(acked := acked);
    forall q | 0 <= q < |t.readers| ensures HandInv(t, q) { assert HandInv(s, q); }
  }

  lemma ProducersKeepConsumers(s: State, t: State)
    requires ConsumerInv(s) && |s.stream| <= |t.stream|
    requires t.group == s.group && t.readers == s.readers && t.table == s.table && t.acked == s.acked
    ensures ConsumerInv(t)
  {
    forall q | 0 <= q < |t.readers| ensures HandInv(t, q) { assert HandInv(s, q); }
  }

  lemma StepKeepsConsumers(s: State, e: Event)
    requires ConsumerInv(s)
    ensures ConsumerInv(Step(s, e))
  {
    match e
    case Insert(r, ok) =>
      if Busy(s, r) && !s.readers[r].inserted {
        if ok && BatchParses(s, s.readers[r].lo, s.readers[r].hi) {
          InsertKeepsConsumers(s, r);
        } else {
          ReleaseKeepsConsumers(s, r, s.acked);
        }
      }
    case Read(r, count) => if r < |s.readers| { ReadKeepsConsumers(s, r, count); }
    case Ack(r, ok) =>
      if Busy(s, r) && s.readers[r].inserted {
        assert HandInv(s, r);
        ReleaseKeepsConsumers(s, r, DoAck(s, r, ok).acked);
      }
    case Crash(r) => if r < |s.readers| { ReleaseKeepsConsumers(s, r, s.acked); }
    case _ => ProducersKeepConsumers(s, Step(s, e));
  }

  lemma {:induction false} RunKeepsConsumers(s: State, events: seq<Event>)
    requires ConsumerInv(s)
    ensures ConsumerInv(Run(s, events))
    decreases |events|
  {
    if events != [] {
      StepKeepsConsumers(s, events[0]);
      RunKeepsConsumers(Step(s, events[0]), events[1..]);
    }
  }

  /** Every acknowledged position is in the table. */
  lemma AcknowledgedIsStored(parse: string -> Option<int>, n: nat, events: seq<Event>, p: nat)
    requires p in Reached(parse, n, events).acked
    ensures p in Reached(parse, n, events).table
  {
    RunKeepsConsumers(Start(parse, n), events);
  }

  /** The published entry behind each row of the table. */
  function Stored(s: State): seq<nat>
    requires forall i :: 0 <= i < |s.table| ==> s.table[i] < |s.stream|
  {
    seq(|s.table|, i requires 0 <= i < |s.table| => s.stream[s.table[i]])
  }

  lemma {:induction false} OccursTwice(s: seq<nat>, i: nat, j: nat)
    requires i < j < |s| && s[i] == s[j]
    ensures multiset(s)[s[i]] >= 2
  {
    var rest := s[i + 1..];
    assert s == s[..i] + [s[i]] + rest;
    assert rest[j - (i + 1)] == s[j];
    assert s[i] in multiset(rest);
  }

  /** End to end: however many consumers share the group, no published entry is stored twice. */
  lemma StoredAtMostOnce(parse: string -> Option<int>, n: nat, events: seq<Event>, i: nat, j: nat)
    requires i < j < |Reached(parse, n, events).table|
    ensures var s := Reached(parse, n, events);
            (forall k :: 0 <= k < |s.table| ==> s.table[k] < |s.stream|) && Stored(s)[i] != Stored(s)[j]
  {
    var s := Reached(parse, n, events);
    RunKeepsConsumers(Start(parse, n), events);
    var p, q := s.table[i], s.table[j];
    if s.stream[p] == s.stream[q] {
      if p < q { OccursTwice(s.stream, p, q); } else { OccursTwice(s.stream, q, p); }
      EveryEntryInOnePlace(parse, n, events, s.stream[p]);
    }
  }

  /** With one consumer the table is in stream order. */
  ghost predicate TableInOrder(s: State) {
    |s.readers| <= 1 && Increasing(s.table) && s.group <= |s.stream| &&
    (forall i :: 0 <= i < |s.table| ==> s.table[i] < s.group) &&
    forall r :: 0 <= r < |s.readers| ==>
      s.readers[r].lo <= s.readers[r].hi <= s.group &&
      (s.readers[r].lo < s.readers[r].hi && !s.readers[r].inserted ==>
        forall i :: 0 <= i < |s.table| ==> s.table[i] < s.readers[r].lo)
  }

  lemma InsertKeepsTableOrder(s: State, r: nat, ok: bool)
    requires TableInOrder(s) && Busy(s, r) && !s.readers[r].inserted
    ensures TableInOrder(DoInsert(s, r, ok))
  {}

  lemma ReadKeepsTableOrder(s: State, r: nat, count: nat)
    requires TableInOrder(s) && r < |s.readers|
    ensures TableInOrder(DoRead(s, r, count))
  {}

  lemma ReleaseKeepsTableOrder(s: State, r: nat, acked: set<nat>)
    requires TableInOrder(s) && r < |s.readers|
    ensures TableInOrder(SetReader(s, r, Reader(0, 0, false)).(acked := acked))
  {}

  lemma StepKeepsTableOrder(s: State, e: Event)
    requires TableInOrder(s)
    ensures TableInOrder(Step(s, e))
  {
    match e
    case Insert(r, ok) => if Busy(s, r) && !s.readers[r].inserted { InsertKeepsTableOrder(s, r, ok); }
    case Read(r, count) => if r < |s.readers| { ReadKeepsTableOrder(s, r, count); }
    case Ack(r, ok) =>
      if Busy(s, r) && s.readers[r].inserted { ReleaseKeepsTableOrder(s, r, DoAck(s, r, ok).acked); }
    case Crash(r) => if r < |s.readers| { ReleaseKeepsTableOrder(s, r, s.acked); }
    case _ =>
  }

  lemma {:induction false} RunKeepsTableOrder(s: State, events: seq<Event>)
    requires TableInOrder(s)
    ensures TableInOrder(Run(s, events))
    decreases |events|
  {
    if events != [] {
      StepKeepsTableOrder(s, events[0]);
      RunKeepsTableOrder(Step(s, events[0]), events[1..]);
    }
  }

  /** One flush at a time and one consumer: rows are stored in the order of publication. */
  lemma StoredInPublicationOrder(parse: string -> Option<int>, events: seq<Event>)
    requires SerialRun(Start(parse, 1), events)
    ensures var s := Reached(parse, 1, events);
            (forall k :: 0 <= k < |s.table| ==> s.table[k] < |s.stream|) && Increasing(Stored(s))
  {
    SerialFlushesKeepOrder(parse, 1, events);
    RunKeepsTableOrder(Start(parse, 1), events);
  }

  /*** What the consumers do, step by step ***/

  /**
   A reader with nothing in hand is handed the positions that follow the last ones handed
   out, or what is left of the stream when those are trimmed, up to the count; one with a
   batch in hand reads nothing.
   */
  lemma ReadTakesNext(s: State, r: nat, count: nat)
    requires r < |s.readers| && s.readers[r].lo <= s.readers[r].hi
    ensures var t := Step(s, Read(r, count));
            var next := if s.floor <= s.group then s.group else s.floor;
            if s.readers[r].lo < s.readers[r].hi || next >= |s.stream| then t == s
            else t == s.(readers := s.readers[r := t.readers[r]], group := t.group) && !t.readers[r].inserted &&
                 t.readers[r].lo == next && t.readers[r].hi == t.group &&
                 t.group == if next + count < |s.stream| then next + count else |s.stream|
  {
    if s.readers[r].lo == s.readers[r].hi { assert |Step(s, Read(r, count)).readers| == |s.readers|; }
  }

  /** A batch is stored whole, in order, when the database takes it and every number in it parses; otherwise it is let go. */
  lemma InsertIsAllOrNothing(s: State, r: nat, ok: bool)
    requires r < |s.readers| && s.readers[r].lo < s.readers[r].hi <= |s.stream| && !s.readers[r].inserted
    requires forall p :: s.readers[r].lo <= p < s.readers[r].hi ==> s.stream[p] < |s.published|
    ensures var b, t := s.readers[r], Step(s, Insert(r, ok));
            if ok && (forall p :: b.lo <= p < b.hi ==> Parses(s.parse, s.published[s.stream[p]]))
            then t == s.(readers := s.readers[r := b.(inserted := true)], table := t.table) &&
                 |t.table| == |s.table| + b.hi - b.lo && s.table <= t.table &&
                 forall k :: |s.table| <= k < |t.table| ==> t.table[k] == b.lo + k - |s.table|
            else t == s.(readers := s.readers[r := Reader(0, 0, false)])
  {}

  /** A stored batch leaves the reader's hands with its acknowledgement, which marks exactly its positions, or fails. */
  lemma AckMarksBatch(s: State, r: nat, ok: bool)
    requires r < |s.readers| && s.readers[r].lo < s.readers[r].hi <= |s.stream| && s.readers[r].inserted
    ensures var b, t := s.readers[r], Step(s, Ack(r, ok));
            t == s.(readers := s.readers[r := Reader(0, 0, false)], acked := t.acked) &&
            forall p :: p in t.acked <==> p in s.acked || (ok && b.lo <= p < b.hi)
  {
    var b := s.readers[r];
    assert forall p :: p in Positions(b.lo, b.hi) <==> b.lo <= p < b.hi by {
      forall p | b.lo <= p < b.hi ensures p in Positions(b.lo, b.hi) { assert Positions(b.lo, b.hi)[p - b.lo] == p; }
    }
  }

  /** Trimming never gives entries back, and leaves at least the newest million. */
  lemma {:induction false} NewestAreKept(s: State, events: seq<Event>)
    requires s.floor > 0 ==> s.floor + 1_000_000 <= |s.stream|
    ensures var t := Run(s, events);
            s.floor <= t.floor && |s.stream| <= |t.stream| && (t.floor > 0 ==> t.floor + 1_000_000 <= |t.stream|)
    decreases |events|
  {
    if events != [] { NewestAreKept(Step(s, events[0]), events[1..]); }
  }

  /*** Two flushes at once ***/

  /** Overlapping flushes can swap entries even when none of them fails. */
  lemma OverlappingFlushesReorder(parse: string -> Option<int>, f: Fields, g: Fields)
    ensures var s := Reached(parse, 1, [Publish(f), BeginFlush, Publish(g), BeginFlush, Succeed(1), Succeed(0)]);
            s.published == [f, g] && s.stream == [1, 0]
  {
    var e := [Publish(f), BeginFlush, Publish(g), BeginFlush, Succeed(1), Succeed(0)];
    var s0 := Start(parse, 1);
    var s2 := PublishAndFlush(s0, f);
    var s4 := PublishAndFlush(s2, g);
    assert s4.published == [f, g] && s4.flights == [[0], [1]];
    Two(s0, e, 0);
    Two(s2, e, 2);
    Two(s4, e, 4);
    assert e[0..] == e && e[6..] == [];
    LaterFirst(s4);
  }

  /** A flush cancelled before its pipeline ran drops what it carried. */
  lemma CancelledFlushLosesEntry(parse: string -> Option<int>, n: nat, f: Fields)
    ensures var s := Reached(parse, n, [Publish(f), BeginFlush, Cancel(0)]);
            s.published == [f] && s.dropped == [0] && s.stream == [] && s.buffer == [] && s.flights == []
  {
    var e, s0 := [Publish(f), BeginFlush, Cancel(0)], Start(parse, n);
    var s2 := PublishAndFlush(s0, f);
    Two(s0, e, 0);
    assert e[0..] == e && e[2..] == [Cancel(0)] && e[2..][1..] == [];
    assert Run(s2, e[2..]) == Step(s2, Cancel(0));
    assert s2.flights == [[0]];
  }

  lemma PublishAndFlush(s: State, f: Fields) returns (t: State)
    requires s.buffer == []
    ensures t == Step(Step(s, Publish(f)), BeginFlush)
    ensures t == s.(published := s.published + [f], flights := s.flights + [[|s.published|]])
  {
    var m := Step(s, Publish(f));
    assert m.buffer == [|s.published|];
    t := Step(m, BeginFlush);
  }

  lemma LaterFirst(s: State)
    requires s.flights == [[0], [1]] && s.stream == []
    ensures var t := Step(Step(s, Succeed(1)), Succeed(0)); t.published == s.published && t.stream == [1, 0]
  {}

  lemma Two(s: State, events: seq<Event>, k: nat)
    requires k + 1 < |events|
    ensures Run(s, events[k..]) == Run(Step(Step(s, events[k]), events[k + 1]), events[k + 2..])
  {}

  /*** The buffer and the consumer as objects ***/

  /** A log entry before it is written: a missing value is left out of the stream entry. */
  type LogData = map<string, Option<string>>

  function Serialized(log: LogData): Fields {
    map k | k in log && log[k].Some? :: log[k].value
  }

  function SerializedAll(logs: seq<LogData>): seq<Fields> {
    seq(|logs|, i requires 0 <= i < |logs| => Serialized(logs[i]))
  }

  /** The entry the logger builds; numbers are given as their text, and without details there is no extra. */
  function Built(timestamp: string, level: string, logger: string, message: string, module_: string, function_: string,
                 line: string, thread: string, process: string, extra: Option<string>): LogData
  {
    map["timestamp" := Some(timestamp), "level" := Some(level), "logger" := Some(logger), "message" := Some(message),
        "module" := Some(module_), "function" := Some(function_), "line" := Some(line), "thread_id" := Some(thread),
        "process_id" := Some(process), "extra" := extra]
  }

  /** Which stream entries can be turned into records: every number given parses. */
  lemma ParsesIff(parse: string -> Option<int>, fields: Fields)
    ensures Parses(parse, fields) <==>
            forall key | key in ["line", "thread_id", "process_id"] && key in fields ::
              fields[key] == "" || fields[key] == "None" || parse(fields[key]).Some?
  {
    assert forall key :: key in ["line", "thread_id", "process_id"] <==>
             key == "line" || key == "thread_id" || key == "process_id";
  }

  /**
   What is logged is what is stored: written to the stream, read back and turned into a
   record, an entry of the logger gives its own values, field by field.
   */
  lemma LoggedIsStored(parse: string -> Option<int>, iso: string -> Option<int>, now: int, timestamp: string,
                       level: string, logger: string, message: string, module_: string, function_: string,
                       line: string, thread: string, process: string, extra: Option<string>, at: int, l: int, t: int, p: int)
    requires iso(timestamp) == Some(at) && module_ != "None" && function_ != "None"
    requires forall x :: x in [line, thread, process] ==> x != "" && x != "None"
    requires parse(line) == Some(l) && parse(thread) == Some(t) && parse(process) == Some(p)
    requires extra.Some? ==> extra.value != "None" && extra.value != "null"
    ensures var log := Built(timestamp, level, logger, message, module_, function_, line, thread, process, extra);
            var fields := Serialized(log);
            Parses(parse, fields) &&
            ToRecord(parse, iso, fields, now) ==
            Record(at, level, logger, message, Some(module_), Some(function_), Some(l), Some(t), Some(p), extra)
  {
    assert line in [line, thread, process] && thread in [line, thread, process] && process in [line, thread, process];
    var fields := Serialized(Built(timestamp, level, logger, message, module_, function_, line, thread, process, extra));
    BuiltFields(timestamp, level, logger, message, module_, function_, line, thread, process, extra);
  }

  predicate Given(fields: Fields, key: string, value: string) {
    key in fields && fields[key] == value
  }

  lemma BuiltFields(timestamp: string, level: string, logger: string, message: string, module_: string, function_: string,
                    line: string, thread: string, process: string, extra: Option<string>)
    ensures var log := Built(timestamp, level, logger, message, module_, function_, line, thread, process, extra);
            var fields := Serialized(log);
            Given(fields, "timestamp", timestamp) && Given(fields, "level", level) && Given(fields, "logger", logger) &&
            Given(fields, "message", message) && Given(fields, "module", module_) && Given(fields, "function", function_) &&
            Given(fields, "line", line) && Given(fields, "thread_id", thread) && Given(fields, "process_id", process) &&
            ("extra" in fields <==> extra.Some?) && (extra.Some? ==> fields["extra"] == extra.value)
  {}

  /** An unreadable timestamp is replaced by the time of the batch; an extra "null" and an empty number count as missing. */
  lemma UnreadableFields(parse: string -> Option<int>, iso: string -> Option<int>, fields: Fields, now: int)
    requires fields == map["timestamp" := "soon", "extra" := "null", "line" := ""] && iso("soon") == None
    ensures Parses(parse, fields)
    ensures ToRecord(parse, iso, fields, now) == Record(now, "INFO", "audit", "", None, None, None, None, None, None)
  {}

  /** A field that is missing, or was written as a missing value, gets its default. */
  lemma MissingFields(parse: string -> Option<int>, iso: string -> Option<int>, fields: Fields, now: int)
    requires forall key :: key in fields ==> fields[key] == "None" && key !in ["timestamp", "level", "logger", "message"]
    ensures Parses(parse, fields)
    ensures ToRecord(parse, iso, fields, now) == Record(now, "INFO", "audit", "", None, None, None, None, None, None)
  {
    assert "timestamp" in ["timestamp", "level", "logger", "message"];
    assert "level" in ["timestamp", "level", "logger", "message"];
    assert "logger" in ["timestamp", "level", "logger", "message"];
    assert "message" in ["timestamp", "level", "logger", "message"];
  }

  class AuditStream {
    var entries: seq<Fields>
    var acked: set<nat>

    constructor ()
      ensures entries == [] && acked == {}
    {
      entries, acked := [], {};
    }

    /** The pipeline is written as a whole or not at all. */
    method Execute(pipe: seq<Fields>) returns (ok: bool)
      modifies this`entries
      ensures entries == if ok then old(entries) + pipe else old(entries)
    {
      ok := *;
      if ok { entries := entries + pipe; }
    }

    method XAck(ids: seq<nat>) returns (ok: bool)
      modifies this`acked
      ensures acked == if ok then old(acked) + (set i | i in ids) else old(acked)
    {
      ok := *;
      if ok { acked := acked + (set i | i in ids); }
    }
  }

  class RedisLogBuffer {
    const stream: AuditStream
    const bufferSize: nat
    var buffer: seq<LogData>

    constructor (stream: AuditStream)
      ensures this.stream == stream && buffer == [] && bufferSize == 50
    {
      this.stream, buffer, bufferSize := stream, [], BUFFER_SIZE;
    }

    /** Nothing is lost unless the flush fails with more than a hundred entries. */
    method Flush() returns (failed: bool)
      modifies this`buffer, stream`entries
      ensures !failed ==> buffer == [] && stream.entries == old(stream.entries) + SerializedAll(old(buffer))
      ensures failed ==> buffer == (if old(|buffer|) <= 100 then old(buffer) else old(buffer)[..100]) &&
                         stream.entries == old(stream.entries)
      ensures failed ==> old(buffer) != []
    {
      if buffer == [] {
        assert SerializedAll(buffer) == [];
        return false;
      }
      var batch := buffer;
      buffer := [];
      var pipe := [];
      for n := 0 to |batch|
        invariant pipe == SerializedAll(batch[..n])
      {
        pipe := pipe + [map k | k in batch[n] && batch[n][k].Some? :: batch[n][k].value];
        assert SerializedAll(batch[..n + 1]) == SerializedAll(batch[..n]) + [Serialized(batch[n])];
      }
      assert batch[..|batch|] == batch;
      var ok := stream.Execute(pipe);
      if ok {
        return false;
      }
      buffer := Take(batch, KEPT_ON_FAILURE) + Take(buffer, KEPT_ON_FAILURE);
      return true;
    }

    /** Appends; a full buffer is flushed.  Nothing is lost unless that fails with a hundred or more already buffered. */
    method Publish(log: LogData) returns (failed: bool)
      modifies this`buffer, stream`entries
      ensures !failed || old(|buffer|) < 100 ==>
                stream.entries + SerializedAll(buffer) == old(stream.entries + SerializedAll(buffer)) + [Serialized(log)]
      ensures failed ==>
              stream.entries == old(stream.entries) &&
              buffer == (old(buffer) + [log])[..if old(|buffer|) < 100 then old(|buffer|) + 1 else 100]
      ensures !failed && old(|buffer|) + 1 >= bufferSize ==> buffer == []
      ensures old(|buffer|) + 1 < bufferSize ==> buffer == old(buffer) + [log] && stream.entries == old(stream.entries)
      ensures |buffer| <= old(|buffer|) + 1
    {
      ghost var before := buffer;
      buffer := buffer + [log];
      assert SerializedAll(buffer) == SerializedAll(before) + [Serialized(log)];
      failed := false;
      if |buffer| >= bufferSize {
        failed := Flush();
      }
      assert SerializedAll([]) == [];
    }
  }

  datatype Message = Message(id: nat, fields: Fields)

  class AuditLogConsumer {
    const stream: AuditStream
    const parse: string -> Option<int>
    const iso: string -> Option<int>
    var table: seq<Record>

    constructor (stream: AuditStream, parse: string -> Option<int>, iso: string -> Option<int>)
      ensures this.stream == stream && this.parse == parse && this.iso == iso && table == []
    {
      this.stream, this.parse, this.iso, table := stream, parse, iso, [];
    }

    /** The records of a batch, in order. */
    function Records(messages: seq<Message>, now: int): seq<Record>
      requires forall m :: m in messages ==> Parses(parse, m.fields)
    {
      seq(|messages|, i requires 0 <= i < |messages| => ToRecord(parse, iso, messages[i].fields, now))
    }

    function MessageIds(messages: seq<Message>): seq<nat> {
      seq(|messages|, i requires 0 <= i < |messages| => messages[i].id)
    }

    lemma IdsOf(messages: seq<Message>)
      ensures (set i | i in MessageIds(messages)) == set m | m in messages :: m.id
    {
      forall m | m in messages ensures m.id in MessageIds(messages) {
        var k :| 0 <= k < |messages| && messages[k] == m;
        assert MessageIds(messages)[k] == m.id;
      }
    }

    /** All records or none; acknowledged only after they are stored. */
    method ProcessBatch(messages: seq<Message>, now: int) returns (ok: bool)
      modifies this`table, stream`acked
      ensures (forall m :: m in messages ==> Parses(parse, m.fields)) ==>
                table == old(table) || table == old(table) + Records(messages, now)
      ensures (exists m :: m in messages && !Parses(parse, m.fields)) ==>
                !ok && table == old(table) && stream.acked == old(stream.acked)
      ensures stream.acked == old(stream.acked) ||
              (stream.acked == old(stream.acked) + (set m | m in messages :: m.id) &&
               (forall m :: m in messages ==> Parses(parse, m.fields)) && table == old(table) + Records(messages, now))
      ensures ok ==> (forall m :: m in messages ==> Parses(parse, m.fields)) && table == old(table) + Records(messages, now)
    {
      if messages == [] {
        return true;
      }
      var records: seq<Record> := [];
      var ids: seq<nat> := [];
      for n := 0 to |messages|
        invariant ids == MessageIds(messages[..n])
        invariant forall m :: m in messages[..n] ==> Parses(parse, m.fields)
        invariant records == Records(messages[..n], now)
      {
        var fields := messages[n].fields;
        assert messages[n] in messages;
        if !Parses(parse, fields) {
          return false;
        }
        ids := ids + [messages[n].id];
        records := records + [ToRecord(parse, iso, fields, now)];
        assert messages[..n + 1] == messages[..n] + [messages[n]];
      }
      assert messages[..|messages|] == messages;
      IdsOf(messages);
      ok := *;
      if !ok {
        return;
      }
      table := table + records;
      ok := stream.XAck(ids);
    }
  }
}

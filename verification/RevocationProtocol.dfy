/**
 Revocation across any number of workers sharing one Redis.  Each worker fills its
 own filter by three routes: its own revocations, the consumer group of the stream,
 and the channel; a restarted worker first replays the stream.  Every interleaving
 of these steps, with failing writes, lost messages, trimming and crashes, is a run
 of this machine.  An event that is not enabled leaves the state unchanged.

 Source: app/core/token_revocation.py.
 */
module RevocationProtocol {
  import opened Common
  import opened Revocation

  datatype Phase = Down | Replaying(cursor: nat) | Serving

  /**
   `added` is everything put into the filter since the worker started, in order.
   `replayed` are the stream positions its replay read and `replayEnd` where it ended; `subscribed` and `read`
   are positions in the channel; `lost` are messages it never got; `pending` is the
   rest of the delivery in hand, whose first entry may already be added (`handled`);
   `taken` are the delivered positions it has added, and `abandoned` those it gave up
   after a failed acknowledgement.
   */
  datatype Worker = Worker(phase: Phase, epoch: nat, added: seq<string>, replayed: set<nat>, replayEnd: nat,
                           subscribed: Option<nat>, read: nat, lost: set<nat>,
                           pending: seq<nat>, handled: bool, taken: set<nat>, abandoned: set<nat>)

  datatype Stage = Appending | Publishing | Done

  /** One revoke_token call. */
  datatype Call = Call(worker: nat, epoch: nat, jti: string, stage: Stage, entry: Option<nat>)

  datatype Message = Message(jti: string, entry: Option<nat>)

  /** One stream position handed to one worker. */
  datatype Delivery = Delivery(index: nat, worker: nat, epoch: nat)

  /**
   `log` is every entry ever appended and `times` when; entries below `floor` have
   been trimmed.  `group` is the next position the consumer group hands out.
   */
  datatype State = State(hash: string -> set<nat>, clock: int, log: seq<Entry>, times: seq<int>, floor: nat,
                         group: nat, deliveries: seq<Delivery>, acked: set<Delivery>,
                         channel: seq<Message>, calls: seq<Call>, workers: seq<Worker>)

  datatype Event =
    | Tick(seconds: nat)
    | Boot(w: nat)
    | Page(w: nat, size: nat)
    | Subscribe(w: nat)
    | Revoke(w: nat, jti: string)
    | Append(c: nat, ok: bool)
    | Publish(c: nat, ok: bool)
    | Trim(floor: nat)
    | Deliver(w: nat, count: nat)
    | Handle(w: nat)
    | Ack(w: nat, ok: bool)
    | Receive(w: nat)
    | Lose(w: nat)
    | Crash(w: nat)

  function Stopped(epoch: nat): Worker {
    Worker(Down, epoch, [], {}, 0, None, 0, {}, [], false, {}, {})
  }

  function Start(hash: string -> set<nat>, clock: int, n: nat): State {
    State(hash, clock, [], [], 0, 0, [], {}, [], [], seq(n, _ => Stopped(0)))
  }

  function Filter(hash: string -> set<nat>, w: Worker): Bloom {
    AddAll(Bloom(hash, {}), w.added)
  }

  predicate Holds(hash: string -> set<nat>, w: Worker, jti: string) {
    Filter(hash, w).Contains(jti)
  }

  function Max(a: nat, b: nat): nat {
    if a < b then b else a
  }

  function Min(a: nat, b: nat): nat {
    if a < b then a else b
  }

  predicate Up(s: State, w: nat) {
    w < |s.workers| && s.workers[w].phase.Serving?
  }

  function Set(s: State, w: nat, worker: Worker): State
    requires w < |s.workers|
  {
    s.(workers := s.workers[w := worker])
  }

  predicate Within(i: nat, from: nat, to: nat) {
    from <= i < to
  }

  function Span(from: nat, to: nat): set<nat> {
    set i: nat | i < to && Within(i, from, to)
  }

  /** One page of the startup replay; an empty page ends it. */
  function DoPage(s: State, w: nat, size: nat): State
    requires w < |s.workers| && s.workers[w].phase.Replaying?
  {
    var worker := s.workers[w];
    var from := Max(worker.phase.cursor, s.floor);
    if |s.log| <= from then Set(s, w, worker.(phase := Serving, replayEnd := |s.log|))
    else
      var to := Min(from + size, |s.log|);
      Set(s, w, worker.(phase := Replaying(to), added := worker.added + Jtis(s.log[from..to]),
                        replayed := worker.replayed + Span(from, to)))
  }

  predicate Running(s: State, c: nat, stage: Stage) {
    c < |s.calls| && s.calls[c].stage == stage && Up(s, s.calls[c].worker) &&
    s.workers[s.calls[c].worker].epoch == s.calls[c].epoch
  }

  function DoAppend(s: State, c: nat, ok: bool): State
    requires c < |s.calls|
  {
    var call := s.calls[c];
    if ok
    then s.(log := s.log + [Entry(|s.log|, Some(call.jti))], times := s.times + [s.clock],
            calls := s.calls[c := call.(stage := Publishing, entry := Some(|s.log|))])
    else s.(calls := s.calls[c := call.(stage := Publishing)])
  }

  function DoPublish(s: State, c: nat, ok: bool): State
    requires c < |s.calls|
  {
    var call := s.calls[c];
    s.(channel := if ok then s.channel + [Message(call.jti, call.entry)] else s.channel,
       calls := s.calls[c := call.(stage := Done)])
  }

  function Deliveries(w: nat, epoch: nat, from: nat, to: nat): (r: seq<Delivery>)
    requires from <= to
  {
    seq(to - from, i requires 0 <= i < to - from => Delivery(from + i, w, epoch))
  }

  /** The group hands out the next entries, to whichever worker asks first. */
  function DoDeliver(s: State, w: nat, count: nat): State
    requires w < |s.workers|
  {
    var from := Max(s.group, s.floor);
    if |s.log| <= from then s
    else
      var to := Min(from + count, |s.log|);
      var worker := s.workers[w];
      Set(s, w, worker.(pending := seq(to - from, i requires 0 <= i < to - from => from + i), handled := false))
      .(group := to, deliveries := s.deliveries + Deliveries(w, worker.epoch, from, to))
  }

  function DoHandle(s: State, w: nat): State
    requires w < |s.workers| && s.workers[w].pending != [] && s.workers[w].pending[0] < |s.log|
  {
    var worker := s.workers[w];
    var e := s.log[worker.pending[0]];
    Set(s, w, worker.(handled := true, taken := worker.taken + {worker.pending[0]},
                      added := if Carries(e) then worker.added + [e.jti.value] else worker.added))
  }

  function DoAck(s: State, w: nat, ok: bool): State
    requires w < |s.workers| && s.workers[w].pending != []
  {
    var worker := s.workers[w];
    if ok
    then Set(s, w, worker.(pending := worker.pending[1..], handled := false))
         .(acked := s.acked + {Delivery(worker.pending[0], w, worker.epoch)})
    else Set(s, w, worker.(pending := [], handled := false,
                           abandoned := worker.abandoned + (set i | i in worker.pending[1..])))
  }

  function DoReceive(s: State, w: nat): State
    requires w < |s.workers| && s.workers[w].read < |s.channel|
  {
    var worker := s.workers[w];
    var jti := s.channel[worker.read].jti;
    var next := worker.(read := worker.read + 1);
    Set(s, w, if jti != "" && !Holds(s.hash, worker, jti) then next.(added := worker.added + [jti]) else next)
  }

  function DoLose(s: State, w: nat): State
    requires w < |s.workers|
  {
    var worker := s.workers[w];
    Set(s, w, worker.(read := worker.read + 1, lost := worker.lost + {worker.read}))
  }

  function DoRevoke(s: State, w: nat, jti: string): State
    requires w < |s.workers|
  {
    var worker := s.workers[w];
    Set(s, w, worker.(added := worker.added + [jti]))
    .(calls := s.calls + [Call(w, worker.epoch, jti, Appending, None)])
  }

  predicate Listening(s: State, w: nat) {
    Up(s, w) && s.workers[w].subscribed.Some? && s.workers[w].read < |s.channel|
  }

  predicate Delivering(s: State, w: nat) {
    Up(s, w) && s.workers[w].pending != [] && s.workers[w].pending[0] < |s.log|
  }

  function Step(s: State, e: Event): State {
    match e
    case Tick(d) => s.(clock := s.clock + d)
    case Boot(w) =>
      if w < |s.workers| && s.workers[w].phase.Down?
      then Set(s, w, Stopped(s.workers[w].epoch + 1).(phase := Replaying(0))) else s
    case Page(w, size) =>
      if w < |s.workers| && s.workers[w].phase.Replaying? && size > 0 then DoPage(s, w, size) else s
    case Subscribe(w) =>
      if Up(s, w) && s.workers[w].subscribed.None?
      then Set(s, w, s.workers[w].(subscribed := Some(|s.channel|), read := |s.channel|)) else s
    case Revoke(w, jti) => if Up(s, w) then DoRevoke(s, w, jti) else s
    case Append(c, ok) => if Running(s, c, Appending) then DoAppend(s, c, ok) else s
    case Publish(c, ok) => if Running(s, c, Publishing) then DoPublish(s, c, ok) else s
    case Trim(n) => if s.floor <= n && n + MAX_STREAM <= |s.log| then s.(floor := n) else s
    case Deliver(w, count) => if Up(s, w) && s.workers[w].pending == [] then DoDeliver(s, w, count) else s
    case Handle(w) => if Delivering(s, w) && !s.workers[w].handled then DoHandle(s, w) else s
    case Ack(w, ok) => if Delivering(s, w) && s.workers[w].handled then DoAck(s, w, ok) else s
    case Receive(w) => if Listening(s, w) then DoReceive(s, w) else s
    case Lose(w) => if Listening(s, w) then DoLose(s, w) else s
    case Crash(w) => if w < |s.workers| then Set(s, w, Stopped(s.workers[w].epoch)) else s
  }

  function Run(s: State, events: seq<Event>): State
    decreases |events|
  {
    if events == [] then s else Run(Step(s, events[0]), events[1..])
  }

  /*** What the steps do ***/

  /** A revoke_token call puts the id into the filter of its worker before anything else, working Redis or not. */
  lemma RevokeMeans(s: State, w: nat, jti: string)
    requires w < |s.workers|
    ensures Step(s, Revoke(w, jti)) ==
            if s.workers[w].phase.Serving? then
              s.(workers := s.workers[w := s.workers[w].(added := s.workers[w].added + [jti])],
                 calls := s.calls + [Call(w, s.workers[w].epoch, jti, Appending, None)])
            else s
  {}

  /**
   The call then appends one entry to the stream, unless the append fails, and after that
   publishes one message, which names the entry if there is one, unless the publish fails.
   A call of a worker that stopped or restarted since goes no further.
   */
  lemma RevokeCallMeans(s: State, c: nat, ok: bool)
    requires c < |s.calls| && s.calls[c].worker < |s.workers|
    ensures var call := s.calls[c];
            var worker := s.workers[call.worker];
            var runs := worker.phase.Serving? && worker.epoch == call.epoch;
            Step(s, Append(c, ok)) ==
            (if !runs || !call.stage.Appending? then s
             else if !ok then s.(calls := s.calls[c := call.(stage := Publishing)])
             else s.(log := s.log + [Entry(|s.log|, Some(call.jti))], times := s.times + [s.clock],
                     calls := s.calls[c := call.(stage := Publishing, entry := Some(|s.log|))])) &&
            Step(s, Publish(c, ok)) ==
            (if !runs || !call.stage.Publishing? then s
             else s.(channel := s.channel + if ok then [Message(call.jti, call.entry)] else [],
                     calls := s.calls[c := call.(stage := Done)]))
  {
    assert s.channel + [] == s.channel;
  }

  /** A serving worker with nothing in hand is handed the next entries still in the stream, as many as asked for. */
  lemma DeliverTakesNext(s: State, w: nat, count: nat)
    requires w < |s.workers| && s.workers[w].phase.Serving?
    ensures var worker, t := s.workers[w], Step(s, Deliver(w, count));
            var next := if s.floor <= s.group then s.group else s.floor;
            if worker.pending != [] || next >= |s.log| then t == s
            else
              t.group == (if next + count < |s.log| then next + count else |s.log|) &&
              t == s.(group := t.group, deliveries := t.deliveries, workers := t.workers) &&
              t.workers == s.workers[w := worker.(pending := t.workers[w].pending, handled := false)] &&
              |t.workers[w].pending| == t.group - next && |t.deliveries| == |s.deliveries| + t.group - next &&
              s.deliveries <= t.deliveries &&
              forall i :: 0 <= i < t.group - next ==>
                t.workers[w].pending[i] == next + i && t.deliveries[|s.deliveries| + i] == Delivery(next + i, w, worker.epoch)
  {}

  /**
   Handling a delivered entry adds its id, if it carries one, and then acknowledges just
   that position; a failing acknowledgement gives up the rest of the delivery.
   */
  lemma HandleThenAckMeans(s: State, w: nat, ok: bool)
    requires w < |s.workers| && s.workers[w].phase.Serving? && !s.workers[w].handled
    requires s.workers[w].pending != [] && s.workers[w].pending[0] < |s.log|
    ensures Step(s, Ack(w, ok)) == s
    ensures var worker := s.workers[w];
            var i, rest := worker.pending[0], worker.pending[1..];
            var id := s.log[i].jti;
            var gone := if ok then {} else set n | n in rest;
            Step(Step(s, Handle(w)), Ack(w, ok)) ==
            s.(acked := if ok then s.acked + {Delivery(i, w, worker.epoch)} else s.acked,
               workers := s.workers[w := worker.(pending := if ok then rest else [],
                                                 taken := worker.taken + {i}, abandoned := worker.abandoned + gone,
                                                 added := if id.Some? && id.value != "" then worker.added + [id.value]
                                                          else worker.added)])
  {
    assert s.workers[w].abandoned + {} == s.workers[w].abandoned;
  }

  /** A subscribed worker takes the next message, whose id it adds unless it is empty or reported already, or loses it. */
  lemma ReceiveMeans(s: State, w: nat)
    requires w < |s.workers|
    ensures var worker := s.workers[w];
            if worker.phase.Serving? && worker.subscribed.Some? && worker.read < |s.channel| then
              var jti := s.channel[worker.read].jti;
              var more := if jti == "" || Holds(s.hash, worker, jti) then [] else [jti];
              Step(s, Receive(w)) == s.(workers := s.workers[w := worker.(read := worker.read + 1,
                                                                          added := worker.added + more)]) &&
              Step(s, Lose(w)) == s.(workers := s.workers[w := worker.(read := worker.read + 1,
                                                                       lost := worker.lost + {worker.read})])
            else Step(s, Receive(w)) == s && Step(s, Lose(w)) == s
  {
    assert s.workers[w].added + [] == s.workers[w].added;
  }

  /** A booted worker starts empty, replays from the oldest entry left, page by page, and serves after an empty page. */
  lemma ReplayMeans(s: State, w: nat, size: nat)
    requires w < |s.workers| && size > 0
    ensures var worker, t := s.workers[w], Step(s, Page(w, size));
            if !worker.phase.Replaying? then t == s
            else
              var from := if worker.phase.cursor < s.floor then s.floor else worker.phase.cursor;
              var to := if from + size < |s.log| then from + size else |s.log|;
              if from >= |s.log| then t == s.(workers := s.workers[w := worker.(phase := Serving, replayEnd := |s.log|)])
              else
                t == s.(workers := s.workers[w := worker.(phase := Replaying(to), replayed := t.workers[w].replayed,
                                                          added := worker.added + Jtis(s.log[from..to]))]) &&
                forall i :: i in t.workers[w].replayed <==> i in worker.replayed || from <= i < to
    ensures s.workers[w].phase.Down? ==>
              Step(s, Boot(w)) == s.(workers := s.workers[w := Worker(Replaying(0), s.workers[w].epoch + 1, [], {}, 0,
                                                                      None, 0, {}, [], false, {}, {})])
    ensures s.workers[w].phase.Serving? && s.workers[w].subscribed.None? ==>
              Step(s, Subscribe(w)) == s.(workers := s.workers[w := s.workers[w].(subscribed := Some(|s.channel|),
                                                                                  read := |s.channel|)])
  {}

  /*** Filters only grow ***/

  lemma GrownHolds(hash: string -> set<nat>, w: Worker, w': Worker, jti: string)
    requires w.added <= w'.added && Holds(hash, w, jti)
    ensures Holds(hash, w', jti)
  {
    var more := w'.added[|w.added|..];
    assert w'.added == w.added + more;
    AddAllSplits(Bloom(hash, {}), w.added, more);
    NoFalseNegatives(Filter(hash, w), more, jti);
    NoFalseNegatives(Bloom(hash, {}), w.added, jti);
  }

  lemma AddedHolds(hash: string -> set<nat>, w: Worker, jti: string)
    requires jti in w.added
    ensures Holds(hash, w, jti)
  {
    NoFalseNegatives(Bloom(hash, {}), w.added, jti);
  }

  /** A worker that has not restarted has only added to its filter. */
  ghost predicate Grown(w: Worker, w': Worker) {
    w.epoch <= w'.epoch && (w.epoch == w'.epoch && !w'.phase.Down? ==> w.added <= w'.added && !w.phase.Down?)
  }

  ghost predicate AllGrown(s: State, s': State) {
    s'.hash == s.hash && |s.workers| == |s'.workers| &&
    forall w :: 0 <= w < |s.workers| ==> Grown(s.workers[w], s'.workers[w])
  }

  predicate Shared(e: Event) {
    e.Tick? || e.Append? || e.Publish? || e.Trim?
  }

  lemma SharedStepGrows(s: State, e: Event)
    requires Shared(e)
    ensures AllGrown(s, Step(s, e))
  {}

  lemma StreamStepGrows(s: State, e: Event)
    requires e.Deliver? || e.Handle? || e.Ack? || e.Page?
    ensures AllGrown(s, Step(s, e))
  {}

  lemma OwnStepGrows(s: State, e: Event)
    requires !Shared(e) && !(e.Deliver? || e.Handle? || e.Ack? || e.Page?)
    ensures AllGrown(s, Step(s, e))
  {}

  lemma StepGrows(s: State, e: Event)
    ensures AllGrown(s, Step(s, e))
  {
    if Shared(e) {
      SharedStepGrows(s, e);
    } else if e.Deliver? || e.Handle? || e.Ack? || e.Page? {
      StreamStepGrows(s, e);
    } else {
      OwnStepGrows(s, e);
    }
  }

  lemma {:induction false} FiltersGrow(s: State, events: seq<Event>)
    ensures AllGrown(s, Run(s, events))
    decreases |events|
  {
    if events != [] {
      StepGrows(s, events[0]);
      FiltersGrow(Step(s, events[0]), events[1..]);
      var m, t := Step(s, events[0]), Run(s, events);
      forall w | 0 <= w < |s.workers| ensures Grown(s.workers[w], t.workers[w]) {
        assert Grown(s.workers[w], m.workers[w]) && Grown(m.workers[w], t.workers[w]);
      }
    }
  }

  /** Once a running worker rejects a token id, it keeps rejecting it until it restarts. */
  lemma RejectionIsStable(s: State, events: seq<Event>, w: nat, jti: string)
    requires w < |s.workers| && Holds(s.hash, s.workers[w], jti)
    requires w < |Run(s, events).workers| && !Run(s, events).workers[w].phase.Down?
    requires Run(s, events).workers[w].epoch == s.workers[w].epoch
    ensures Holds(s.hash, Run(s, events).workers[w], jti)
  {
    FiltersGrow(s, events);
    assert Grown(s.workers[w], Run(s, events).workers[w]);
    GrownHolds(s.hash, s.workers[w], Run(s, events).workers[w], jti);
  }

  /*** Progress: an undisturbed worker catches up ***/

  function Times(e: Event, n: nat): (events: seq<Event>)
    ensures |events| == n
  {
    if n == 0 then [] else [e] + Times(e, n - 1)
  }

  /** A revocation on one worker that gets through to the channel is rejected by every other one that then reads it. */
  lemma RevocationIsHeard(s: State, w: nat, v: nat, jti: string, appends: bool)
    requires w < |s.workers| && s.workers[w].phase.Serving? && v < |s.workers| && v != w && s.workers[v].phase.Serving?
    requires s.workers[v].subscribed.Some? && s.workers[v].read == |s.channel| && jti != ""
    ensures var s1 := Step(s, Revoke(w, jti));
            var s2 := Step(s1, Append(|s.calls|, appends));
            var s3 := Step(s2, Publish(|s.calls|, true));
            var t := Step(s3, Receive(v));
            v < |t.workers| && Holds(s.hash, t.workers[v], jti) && t.workers[v].read == |t.channel|
  {
    var c := |s.calls|;
    var s1 := Step(s, Revoke(w, jti));
    RevokeMeans(s, w, jti);
    var s2 := Step(s1, Append(c, appends));
    RevokeCallMeans(s1, c, appends);
    var s3 := Step(s2, Publish(c, true));
    RevokeCallMeans(s2, c, true);
    ReceiveMeans(s3, v);
    var t := Step(s3, Receive(v));
    if jti in t.workers[v].added { AddedHolds(s.hash, t.workers[v], jti); }
  }

  /** A subscribed worker that reads on has, after as many messages as are waiting, every id among them in its filter. */
  lemma {:induction false} ReadingCatchesUp(s: State, w: nat, n: nat)
    requires w < |s.workers| && s.workers[w].phase.Serving? && s.workers[w].subscribed.Some?
    requires s.workers[w].read + n == |s.channel|
    ensures var t := Run(s, Times(Receive(w), n));
            w < |t.workers| && t == s.(workers := s.workers[w := t.workers[w]]) && t.workers[w].read == |s.channel| &&
            t.workers[w].phase.Serving? && s.workers[w].added <= t.workers[w].added &&
            forall m :: s.workers[w].read <= m < |s.channel| && s.channel[m].jti != "" ==>
              Holds(s.hash, t.workers[w], s.channel[m].jti)
    decreases n
  {
    if n > 0 {
      ReceiveMeans(s, w);
      var t := Step(s, Receive(w));
      ReadingCatchesUp(t, w, n - 1);
      assert Times(Receive(w), n)[1..] == Times(Receive(w), n - 1);
      var jti := s.channel[s.workers[w].read].jti;
      if jti != "" {
        if jti in t.workers[w].added { AddedHolds(s.hash, t.workers[w], jti); }
        GrownHolds(s.hash, t.workers[w], Run(s, Times(Receive(w), n)).workers[w], jti);
      }
    }
  }

  /** The first position the next page reads. */
  function PageFrom(s: State, w: nat): nat
    requires w < |s.workers| && s.workers[w].phase.Replaying?
  {
    var cursor := s.workers[w].phase.cursor;
    if cursor < s.floor then s.floor else cursor
  }

  /** The worker has caught up with the stream from that position on. */
  ghost predicate Replayed(s: State, t: State, w: nat, from: nat)
    requires w < |s.workers|
  {
    w < |t.workers| && t == s.(workers := s.workers[w := t.workers[w]]) && t.workers[w].phase.Serving? &&
    s.workers[w].added <= t.workers[w].added &&
    forall i :: from <= i < |s.log| && s.log[i].jti.Some? && s.log[i].jti.value != "" ==>
      Holds(s.hash, t.workers[w], s.log[i].jti.value)
  }

  lemma JtisOfSlice(log: seq<Entry>, from: nat, to: nat, i: nat)
    requires from <= i < to <= |log| && Carries(log[i])
    ensures log[i].jti.value in Jtis(log[from..to])
  {
    assert log[from..to][i - from] == log[i];
    JtisContain(log[from..to], log[i].jti.value);
  }

  lemma PageThenRest(s: State, w: nat, size: nat, t: State)
    requires w < |s.workers| && s.workers[w].phase.Replaying? && size > 0 && PageFrom(s, w) < |s.log|
    ensures var m := Step(s, Page(w, size));
            w < |m.workers| && m.workers[w].phase.Replaying? && PageFrom(s, w) < PageFrom(m, w) <= |m.log| == |s.log| &&
            m.floor == s.floor && (Replayed(m, t, w, PageFrom(m, w)) ==> Replayed(s, t, w, PageFrom(s, w)))
  {
    ReplayMeans(s, w, size);
    var m, from := Step(s, Page(w, size)), PageFrom(s, w);
    var to := m.workers[w].phase.cursor;
    if Replayed(m, t, w, to) {
      forall i | from <= i < |s.log| && s.log[i].jti.Some? && s.log[i].jti.value != ""
        ensures Holds(s.hash, t.workers[w], s.log[i].jti.value)
      {
        if i < to {
          JtisOfSlice(s.log, from, to, i);
          AddedHolds(s.hash, m.workers[w], s.log[i].jti.value);
          GrownHolds(s.hash, m.workers[w], t.workers[w], s.log[i].jti.value);
        }
      }
    }
  }

  /** A replay left alone ends, whatever the page size, and then the worker rejects every id it found in the stream. */
  lemma {:induction false} ReplayCompletes(s: State, w: nat, size: nat, n: nat)
    requires w < |s.workers| && s.workers[w].phase.Replaying? && size > 0
    requires PageFrom(s, w) <= |s.log| < PageFrom(s, w) + n
    ensures Replayed(s, Run(s, Times(Page(w, size), n)), w, PageFrom(s, w))
    decreases n
  {
    var m, rest := Step(s, Page(w, size)), Times(Page(w, size), n - 1);
    assert Times(Page(w, size), n)[1..] == rest;
    if PageFrom(s, w) == |s.log| {
      ReplayMeans(s, w, size);
      ServingIgnoresPages(m, w, size, n - 1);
    } else {
      PageThenRest(s, w, size, Run(m, rest));
      ReplayCompletes(m, w, size, n - 1);
    }
  }

  lemma {:induction false} ServingIgnoresPages(s: State, w: nat, size: nat, n: nat)
    requires w < |s.workers| && s.workers[w].phase.Serving?
    ensures Run(s, Times(Page(w, size), n)) == s
    decreases n
  {
    if n > 0 {
      assert Times(Page(w, size), n)[1..] == Times(Page(w, size), n - 1);
      ServingIgnoresPages(s, w, size, n - 1);
    }
  }

  /** Asking for one entry, handling and acknowledging it, again and again. */
  function Takes(w: nat, n: nat): seq<Event> {
    if n == 0 then [] else [Deliver(w, 1), Handle(w), Ack(w, true)] + Takes(w, n - 1)
  }

  lemma RunThree(s: State, a: Event, b: Event, c: Event, rest: seq<Event>)
    ensures Run(s, [a, b, c] + rest) == Run(Step(Step(Step(s, a), b), c), rest)
  {
    assert ([a, b, c] + rest)[1..] == [b, c] + rest && ([b, c] + rest)[1..] == [c] + rest && ([c] + rest)[1..] == rest;
    var s1 := Step(s, a);
    var s2 := Step(s1, b);
    assert Run(s, [a, b, c] + rest) == Run(s1, [b, c] + rest);
    assert Run(s1, [b, c] + rest) == Run(s2, [c] + rest);
  }

  /** The oldest entry that the group has left and that is not trimmed. */
  function GroupFrom(s: State): nat {
    if s.group < s.floor then s.floor else s.group
  }

  /** From s to t the worker took the entries the group had left: their ids are in its filter, and they are acknowledged. */
  ghost predicate TookFrom(s: State, t: State, w: nat)
    requires w < |s.workers|
  {
    w < |t.workers| && t.hash == s.hash && t.log == s.log && s.acked <= t.acked && Grown(s.workers[w], t.workers[w]) &&
    t.workers[w].epoch == s.workers[w].epoch && t.workers[w].phase.Serving? &&
    forall i :: GroupFrom(s) <= i < t.group ==> TookEntry(s, t, w, i)
  }

  ghost predicate TookEntry(s: State, t: State, w: nat, i: nat)
    requires w < |s.workers| && w < |t.workers|
  {
    i < |s.log| && Delivery(i, w, s.workers[w].epoch) in t.acked &&
    (s.log[i].jti.Some? && s.log[i].jti.value != "" ==> Holds(s.hash, t.workers[w], s.log[i].jti.value))
  }

  lemma TakesIt(s: State, w: nat, i: nat)
    requires w < |s.workers| && s.workers[w].phase.Serving? && s.workers[w].pending == [i] && !s.workers[w].handled
    requires i < |s.log|
    ensures var worker, t := s.workers[w], Step(Step(s, Handle(w)), Ack(w, true));
            w < |t.workers| && t == s.(acked := s.acked + {Delivery(i, w, worker.epoch)}, workers := t.workers) &&
            t.workers[w].pending == [] && t.workers[w].epoch == worker.epoch && t.workers[w].phase.Serving? &&
            worker.added <= t.workers[w].added &&
            (Carries(s.log[i]) ==> Holds(s.hash, t.workers[w], s.log[i].jti.value))
  {
    HandleThenAckMeans(s, w, true);
    var t := Step(Step(s, Handle(w)), Ack(w, true));
    if Carries(s.log[i]) { AddedHolds(s.hash, t.workers[w], s.log[i].jti.value); }
  }

  lemma TakesOne(s: State, w: nat)
    requires w < |s.workers| && s.workers[w].phase.Serving? && s.workers[w].pending == [] && GroupFrom(s) < |s.log|
    ensures var t := Step(Step(Step(s, Deliver(w, 1)), Handle(w)), Ack(w, true));
            TookFrom(s, t, w) && t.workers[w].pending == [] && GroupFrom(t) == t.group == GroupFrom(s) + 1
  {
    DeliverTakesNext(s, w, 1);
    var m := Step(s, Deliver(w, 1));
    var i := GroupFrom(s);
    var mine := m.workers[w];
    assert mine == s.workers[w].(pending := [i], handled := false) && m.group == i + 1;
    TakesIt(m, w, i);
    var t := Step(Step(m, Handle(w)), Ack(w, true));
    assert t.acked == s.acked + {Delivery(i, w, mine.epoch)} && t.group == i + 1 && t.floor == s.floor && t.log == s.log;
    assert TookEntry(s, t, w, i);
  }

  lemma TookTransitive(s: State, m: State, t: State, w: nat)
    requires w < |s.workers| && TookFrom(s, m, w) && TookFrom(m, t, w) && GroupFrom(m) == m.group <= t.group
    ensures TookFrom(s, t, w)
  {
    forall i | GroupFrom(s) <= i < t.group ensures TookEntry(s, t, w, i) {
      if i < m.group {
        assert TookEntry(s, m, w, i);
        if Carries(s.log[i]) { GrownHolds(s.hash, m.workers[w], t.workers[w], s.log[i].jti.value); }
      } else {
        assert TookEntry(m, t, w, i);
      }
    }
  }

  /**
   A worker that goes on taking entries has, after as many rounds as the group has entries
   left, the id of every one of them in its filter, and has acknowledged them all.
   */
  lemma {:induction false} TakingCatchesUp(s: State, w: nat, n: nat)
    requires w < |s.workers| && s.workers[w].phase.Serving? && s.workers[w].pending == []
    requires GroupFrom(s) + n == |s.log|
    ensures TookFrom(s, Run(s, Takes(w, n)), w)
    ensures if n == 0 then Run(s, Takes(w, n)) == s else Run(s, Takes(w, n)).group == |s.log|
    decreases n
  {
    if n > 0 {
      TakesOne(s, w);
      var m := Step(Step(Step(s, Deliver(w, 1)), Handle(w)), Ack(w, true));
      RunThree(s, Deliver(w, 1), Handle(w), Ack(w, true), Takes(w, n - 1));
      TakingCatchesUp(m, w, n - 1);
      TookTransitive(s, m, Run(m, Takes(w, n - 1)), w);
    }
  }

  /*** The invariant ***/

  ghost predicate Revoked(calls: seq<Call>, jti: string) {
    exists c :: 0 <= c < |calls| && calls[c].jti == jti
  }

  /** An entry's token id came from a call, and messages and calls name their own entry. */
  ghost predicate EntryInv(s: State, i: nat)
    requires i < |s.log|
  {
    s.log[i].jti.Some? && Revoked(s.calls, s.log[i].jti.value)
  }

  ghost predicate Names(log: seq<Entry>, entry: Option<nat>, jti: string) {
    entry.Some? ==> entry.value < |log| && log[entry.value].jti == Some(jti)
  }

  ghost predicate MessageInv(s: State, m: Message) {
    Revoked(s.calls, m.jti) && Names(s.log, m.entry, m.jti)
  }

  ghost predicate LogInv(s: State) {
    (forall i :: 0 <= i < |s.log| ==> EntryInv(s, i)) &&
    (forall m :: 0 <= m < |s.channel| ==> MessageInv(s, s.channel[m])) &&
    (forall c :: 0 <= c < |s.calls| ==> Names(s.log, s.calls[c].entry, s.calls[c].jti))
  }

  ghost predicate TimeInv(s: State) {
    |s.times| == |s.log| && (s.floor > 0 ==> s.floor + MAX_STREAM <= |s.log|) &&
    (forall i, j :: 0 <= i <= j < |s.times| ==> s.times[i] <= s.times[j]) &&
    (forall i :: 0 <= i < |s.times| ==> s.times[i] <= s.clock)
  }

  /** The group hands every position out once, in order. */
  ghost predicate GroupInv(s: State) {
    s.group <= |s.log| &&
    (forall d :: 0 <= d < |s.deliveries| ==> s.deliveries[d].index < s.group) &&
    (forall d, d' :: 0 <= d < d' < |s.deliveries| ==> s.deliveries[d].index < s.deliveries[d'].index) &&
    (forall a :: a in s.acked ==> a in s.deliveries)
  }

  /** How far into the stream the worker has replayed. */
  function ReplayedTo(w: Worker): nat {
    match w.phase
    case Down => 0
    case Replaying(cursor) => cursor
    case Serving => w.replayEnd
  }

  ghost predicate OwnCall(s: State, k: nat, w: Worker, jti: string) {
    exists c :: 0 <= c < |s.calls| && s.calls[c].worker == k && s.calls[c].epoch == w.epoch && s.calls[c].jti == jti
  }

  ghost predicate InStream(s: State, w: Worker, jti: string) {
    exists i :: 0 <= i < |s.log| && s.log[i].jti == Some(jti) && ByStream(w, i)
  }

  /** The worker replayed the position or took it from a delivery. */
  predicate ByStream(w: Worker, i: nat) {
    i in w.replayed || i in w.taken
  }

  ghost predicate OnChannel(s: State, w: Worker, jti: string) {
    w.subscribed.Some? &&
    exists m :: w.subscribed.value <= m < w.read && m !in w.lost && m < |s.channel| && s.channel[m].jti == jti
  }

  /** The token id reached the worker by one of its routes. */
  ghost predicate Sourced(s: State, k: nat, w: Worker, jti: string) {
    OwnCall(s, k, w, jti) || InStream(s, w, jti) || OnChannel(s, w, jti)
  }

  /** It holds nothing else. */
  ghost predicate AddedInv(s: State, k: nat, w: Worker) {
    forall n :: 0 <= n < |w.added| ==> Sourced(s, k, w, w.added[n])
  }

  /** It holds what it revoked itself. */
  ghost predicate LocalInv(s: State, k: nat, w: Worker) {
    forall c :: 0 <= c < |s.calls| && s.calls[c].worker == k ==>
      s.calls[c].epoch <= w.epoch &&
      (s.calls[c].epoch == w.epoch && !w.phase.Down? ==> Holds(s.hash, w, s.calls[c].jti))
  }

  ghost predicate HoldsEntry(s: State, w: Worker, i: nat) {
    i < |s.log| && (Carries(s.log[i]) ==> Holds(s.hash, w, s.log[i].jti.value))
  }

  /** It holds what it replayed: all that its replay passed and that is not trimmed. */
  ghost predicate ReplayInv(s: State, w: Worker) {
    ReplayedTo(w) <= |s.log| && (forall i :: s.floor <= i < ReplayedTo(w) ==> i in w.replayed) &&
    (forall i :: i in w.replayed ==> i < ReplayedTo(w) && HoldsEntry(s, w, i))
  }

  /** It holds what the group handed to it, except what it has in hand or abandoned. */
  ghost predicate DeliveryInv(s: State, k: nat, w: Worker) {
    (forall d :: 0 <= d < |s.deliveries| && s.deliveries[d].worker == k ==>
      s.deliveries[d].epoch <= w.epoch &&
      (s.deliveries[d].epoch == w.epoch && !w.phase.Down? ==>
        s.deliveries[d].index in w.pending || s.deliveries[d].index in w.abandoned || s.deliveries[d].index in w.taken)) &&
    (forall i :: i in w.pending ==> Delivery(i, k, w.epoch) in s.deliveries) &&
    (forall i :: i in w.taken ==> Delivery(i, k, w.epoch) in s.deliveries && HoldsEntry(s, w, i)) &&
    (w.handled ==> w.pending != [] && w.pending[0] in w.taken)
  }

  ghost predicate AckInv(s: State, k: nat, w: Worker) {
    forall a :: a in s.acked && a.worker == k && a.epoch == w.epoch && !w.phase.Down? ==> HoldsEntry(s, w, a.index)
  }

  ghost predicate HoldsMessage(s: State, w: Worker, m: nat) {
    m < |s.channel| && (s.channel[m].jti != "" ==> Holds(s.hash, w, s.channel[m].jti))
  }

  /** It holds what came over the channel since it subscribed, except what was lost. */
  ghost predicate ChannelInv(s: State, w: Worker) {
    w.read <= |s.channel| && (forall m :: m in w.lost ==> m < w.read) &&
    (w.subscribed.Some? ==>
      w.subscribed.value <= w.read &&
      forall m :: w.subscribed.value <= m < w.read && m !in w.lost ==> HoldsMessage(s, w, m))
  }

  ghost predicate WorkerInv(s: State, k: nat, w: Worker) {
    AddedInv(s, k, w) && LocalInv(s, k, w) && ReplayInv(s, w) && DeliveryInv(s, k, w) && AckInv(s, k, w)
    && ChannelInv(s, w)
  }

  ghost predicate WorkersInv(s: State) {
    forall k :: 0 <= k < |s.workers| ==> WorkerInv(s, k, s.workers[k])
  }

  ghost predicate Inv(s: State) {
    LogInv(s) && TimeInv(s) && GroupInv(s) && WorkersInv(s)
  }

  /*** Preservation: what a step leaves alone ***/

  ghost predicate SameCall(a: Call, b: Call) {
    a.worker == b.worker && a.epoch == b.epoch && a.jti == b.jti
  }

  /** The log, the channel, the calls and the trimmed part only grow. */
  ghost predicate Later(s: State, s': State) {
    s'.hash == s.hash && s.log <= s'.log && s.channel <= s'.channel && s.floor <= s'.floor &&
    |s.calls| <= |s'.calls| && forall c :: 0 <= c < |s.calls| ==> SameCall(s.calls[c], s'.calls[c])
  }

  /** The same life of a worker, with a filter that may have grown. */
  ghost predicate Continues(w: Worker, w': Worker) {
    w.added <= w'.added && w'.epoch == w.epoch && (w'.phase.Down? <==> w.phase.Down?)
  }

  lemma RevokedLater(s: State, s': State, jti: string)
    requires Later(s, s') && Revoked(s.calls, jti)
    ensures Revoked(s'.calls, jti)
  {}

  lemma HoldsEntryLater(s: State, s': State, w: Worker, w': Worker, i: nat)
    requires Later(s, s') && w.added <= w'.added && HoldsEntry(s, w, i)
    ensures HoldsEntry(s', w', i)
  {
    if Carries(s.log[i]) { GrownHolds(s.hash, w, w', s.log[i].jti.value); }
  }

  /** Every route keeps what it has brought. */
  ghost predicate RoutesKept(s: State, s': State, w: Worker, w': Worker) {
    Later(s, s') && w'.epoch == w.epoch && w.replayed <= w'.replayed && w.taken <= w'.taken &&
    (w.subscribed.Some? ==>
      w'.subscribed == w.subscribed && w.read <= w'.read && forall m :: m < w.read && m in w'.lost ==> m in w.lost)
  }

  lemma SourcedLater(s: State, s': State, k: nat, w: Worker, w': Worker, jti: string)
    requires RoutesKept(s, s', w, w') && Sourced(s, k, w, jti)
    ensures Sourced(s', k, w', jti)
  {}

  lemma AddedLater(s: State, s': State, k: nat, w: Worker, w': Worker)
    requires RoutesKept(s, s', w, w') && AddedInv(s, k, w) && w'.added == w.added
    ensures AddedInv(s', k, w')
  {}

  /** One more token id that came by some route. */
  lemma AddedMore(s: State, s': State, k: nat, w: Worker, w': Worker, jti: string)
    requires RoutesKept(s, s', w, w') && AddedInv(s, k, w) && w'.added == w.added + [jti]
    requires Sourced(s', k, w', jti)
    ensures AddedInv(s', k, w')
  {}

  /** Whatever came by a route was passed to some call. */
  lemma SourcedWasRevoked(s: State, k: nat, w: Worker, jti: string)
    requires LogInv(s) && Sourced(s, k, w, jti)
    ensures Revoked(s.calls, jti)
  {
    if OwnCall(s, k, w, jti) {
    } else if InStream(s, w, jti) {
      var i :| 0 <= i < |s.log| && s.log[i].jti == Some(jti) && ByStream(w, i);
      assert EntryInv(s, i);
    } else {
      var m :| w.subscribed.value <= m < w.read && m !in w.lost && m < |s.channel| && s.channel[m].jti == jti;
      assert MessageInv(s, s.channel[m]);
    }
  }

  lemma LocalLater(s: State, s': State, k: nat, w: Worker, w': Worker)
    requires Later(s, s') && Continues(w, w') && LocalInv(s, k, w)
    requires forall c :: |s.calls| <= c < |s'.calls| ==> s'.calls[c].worker != k
    ensures LocalInv(s', k, w')
  {
    forall c | 0 <= c < |s'.calls| && s'.calls[c].worker == k && s'.calls[c].epoch == w'.epoch && !w'.phase.Down?
      ensures Holds(s'.hash, w', s'.calls[c].jti)
    {
      assert SameCall(s.calls[c], s'.calls[c]);
      GrownHolds(s.hash, w, w', s.calls[c].jti);
    }
    forall c | 0 <= c < |s'.calls| && s'.calls[c].worker == k ensures s'.calls[c].epoch <= w'.epoch {
      assert SameCall(s.calls[c], s'.calls[c]);
    }
  }

  lemma ReplayLater(s: State, s': State, w: Worker, w': Worker)
    requires Later(s, s') && w.added <= w'.added && ReplayedTo(w') == ReplayedTo(w) && ReplayInv(s, w)
    requires w'.replayed == w.replayed
    ensures ReplayInv(s', w')
  {
    forall i | i in w.replayed ensures HoldsEntry(s', w', i) {
      HoldsEntryLater(s, s', w, w', i);
    }
  }

  ghost predicate SameHand(w: Worker, w': Worker) {
    w'.pending == w.pending && w'.handled == w.handled && w'.abandoned == w.abandoned && w'.taken == w.taken
  }

  lemma DeliveryLater(s: State, s': State, k: nat, w: Worker, w': Worker)
    requires Later(s, s') && Continues(w, w') && SameHand(w, w') && DeliveryInv(s, k, w)
    requires s.deliveries <= s'.deliveries
    requires forall d :: |s.deliveries| <= d < |s'.deliveries| ==> s'.deliveries[d].worker != k
    ensures DeliveryInv(s', k, w')
  {
    forall i | i in w'.taken ensures HoldsEntry(s', w', i) { HoldsEntryLater(s, s', w, w', i); }
    forall d | 0 <= d < |s'.deliveries| && s'.deliveries[d].worker == k ensures s'.deliveries[d] == s.deliveries[d] {}
  }

  lemma AckLater(s: State, s': State, k: nat, w: Worker, w': Worker)
    requires Later(s, s') && Continues(w, w') && AckInv(s, k, w)
    requires forall a :: a in s'.acked && a.worker == k ==> a in s.acked
    ensures AckInv(s', k, w')
  {
    forall a | a in s'.acked && a.worker == k && a.epoch == w'.epoch && !w'.phase.Down?
      ensures HoldsEntry(s', w', a.index)
    {
      HoldsEntryLater(s, s', w, w', a.index);
    }
  }

  lemma ChannelLater(s: State, s': State, w: Worker, w': Worker)
    requires Later(s, s') && w.added <= w'.added && ChannelInv(s, w)
    requires w'.subscribed == w.subscribed && w'.read == w.read && w'.lost == w.lost
    ensures ChannelInv(s', w')
  {
    if w.subscribed.Some? {
      forall m | w.subscribed.value <= m < w.read && m !in w.lost ensures HoldsMessage(s', w', m) {
        assert HoldsMessage(s, w, m);
        if s.channel[m].jti != "" { GrownHolds(s.hash, w, w', s.channel[m].jti); }
      }
    }
  }

  /** A step that does not involve worker k. */
  ghost predicate Apart(s: State, s': State, k: nat) {
    Later(s, s') && (forall c :: |s.calls| <= c < |s'.calls| ==> s'.calls[c].worker != k) &&
    s.deliveries <= s'.deliveries &&
    (forall d :: |s.deliveries| <= d < |s'.deliveries| ==> s'.deliveries[d].worker != k) &&
    (forall a :: a in s'.acked && a.worker == k ==> a in s.acked)
  }

  lemma WorkerLater(s: State, s': State, k: nat, w: Worker)
    requires Apart(s, s', k) && WorkerInv(s, k, w)
    ensures WorkerInv(s', k, w)
  {
    AddedLater(s, s', k, w, w);
    LocalLater(s, s', k, w, w);
    ReplayLater(s, s', w, w);
    DeliveryLater(s, s', k, w, w);
    AckLater(s, s', k, w, w);
    ChannelLater(s, s', w, w);
  }

  /** Only worker k moved, to a state that keeps its part of the invariant. */
  lemma OthersLater(s: State, s': State, k: nat)
    requires WorkersInv(s) && k < |s.workers| == |s'.workers|
    requires forall j :: 0 <= j < |s.workers| && j != k ==> s'.workers[j] == s.workers[j] && Apart(s, s', j)
    requires WorkerInv(s', k, s'.workers[k])
    ensures WorkersInv(s')
  {
    forall j | 0 <= j < |s'.workers| ensures WorkerInv(s', j, s'.workers[j]) {
      if j != k {
        assert WorkerInv(s, j, s.workers[j]);
        WorkerLater(s, s', j, s.workers[j]);
      }
    }
  }

  /** The shared part is as before; only worker k moved. */
  lemma OwnStep(s: State, k: nat, w': Worker)
    requires Inv(s) && k < |s.workers| && WorkerInv(Set(s, k, w'), k, w')
    ensures Inv(Set(s, k, w'))
  {
    var s' := Set(s, k, w');
    OthersLater(s, s', k);
    SharedLater(s, s');
  }

  lemma SharedLater(s: State, s': State)
    requires LogInv(s) && TimeInv(s) && GroupInv(s) && s' == s.(workers := s'.workers)
    ensures LogInv(s') && TimeInv(s') && GroupInv(s')
  {
    forall i | 0 <= i < |s'.log| ensures EntryInv(s', i) { assert EntryInv(s, i); }
    forall m | 0 <= m < |s'.channel| ensures MessageInv(s', s'.channel[m]) { assert MessageInv(s, s.channel[m]); }
  }

  /*** Preservation: one event at a time ***/

  lemma TickKeepsInv(s: State, d: nat)
    requires Inv(s)
    ensures Inv(Step(s, Tick(d)))
  {
    var s' := Step(s, Tick(d));
    forall i | 0 <= i < |s'.log| ensures EntryInv(s', i) { assert EntryInv(s, i); }
    forall m | 0 <= m < |s'.channel| ensures MessageInv(s', s'.channel[m]) { assert MessageInv(s, s.channel[m]); }
    AllLater(s, s');
  }

  lemma AllLater(s: State, s': State)
    requires WorkersInv(s) && s'.workers == s.workers
    requires forall j :: 0 <= j < |s.workers| ==> Apart(s, s', j)
    ensures WorkersInv(s')
  {
    forall j | 0 <= j < |s'.workers| ensures WorkerInv(s', j, s'.workers[j]) {
      assert WorkerInv(s, j, s.workers[j]);
      WorkerLater(s, s', j, s.workers[j]);
    }
  }

  lemma TrimKeepsInv(s: State, n: nat)
    requires Inv(s)
    ensures Inv(Step(s, Trim(n)))
  {
    var s' := Step(s, Trim(n));
    forall i | 0 <= i < |s'.log| ensures EntryInv(s', i) { assert EntryInv(s, i); }
    forall m | 0 <= m < |s'.channel| ensures MessageInv(s', s'.channel[m]) { assert MessageInv(s, s.channel[m]); }
    AllLater(s, s');
  }

  /** A worker that starts, or stops, holds nothing and is owed nothing. */
  lemma FreshWorker(s: State, k: nat, w: Worker, w': Worker)
    requires WorkerInv(s, k, w)
    requires w' == Stopped(w.epoch) || (w.phase.Down? && w' == Stopped(w.epoch + 1).(phase := Replaying(0)))
    requires GroupInv(s)
    ensures WorkerInv(s, k, w')
  {}

  lemma BootKeepsInv(s: State, k: nat)
    requires Inv(s)
    ensures Inv(Step(s, Boot(k)))
  {
    if k < |s.workers| && s.workers[k].phase.Down? {
      var w' := Stopped(s.workers[k].epoch + 1).(phase := Replaying(0));
      FreshWorker(s, k, s.workers[k], w');
      WorkerLater(s, Set(s, k, w'), k, w');
      OwnStep(s, k, w');
    }
  }

  lemma CrashKeepsInv(s: State, k: nat)
    requires Inv(s)
    ensures Inv(Step(s, Crash(k)))
  {
    if k < |s.workers| {
      var w' := Stopped(s.workers[k].epoch);
      FreshWorker(s, k, s.workers[k], w');
      WorkerLater(s, Set(s, k, w'), k, w');
      OwnStep(s, k, w');
    }
  }

  /** Every part but the replay, for a worker whose filter grew by revoked token ids. */
  lemma RestLater(s: State, k: nat, w: Worker, w': Worker)
    requires WorkerInv(s, k, w) && Continues(w, w') && SameHand(w, w')
    requires w'.subscribed == w.subscribed && w'.read == w.read && w'.lost == w.lost
    requires k < |s.workers| && ReplayInv(Set(s, k, w'), w') && AddedInv(Set(s, k, w'), k, w')
    ensures WorkerInv(Set(s, k, w'), k, w')
  {
    var s' := Set(s, k, w');
    LocalLater(s, s', k, w, w');
    DeliveryLater(s, s', k, w, w');
    AckLater(s, s', k, w, w');
    ChannelLater(s, s', w, w');
  }

  lemma PageAdded(s: State, k: nat, w: Worker, from: nat, to: nat, n: nat)
    requires from <= to <= |s.log| && (forall i :: from <= i < to ==> i in w.replayed) && n < |Jtis(s.log[from..to])|
    ensures Sourced(s, k, w, Jtis(s.log[from..to])[n])
  {
    var page := s.log[from..to];
    JtisContain(page, Jtis(page)[n]);
    var i :| 0 <= i < |page| && page[i].jti == Some(Jtis(page)[n]);
    assert s.log[from + i] == page[i] && ByStream(w, from + i);
  }

  lemma PageHolds(s: State, from: nat, to: nat, w: Worker, w': Worker, i: nat)
    requires from <= i < to <= |s.log| && w'.added == w.added + Jtis(s.log[from..to])
    ensures HoldsEntry(s, w', i)
  {
    if Carries(s.log[i]) {
      assert s.log[from..to][i - from] == s.log[i];
      JtisContain(s.log[from..to], s.log[i].jti.value);
      AddedHolds(s.hash, w', s.log[i].jti.value);
    }
  }

  lemma PageIsSourced(s: State, k: nat, size: nat)
    requires k < |s.workers| && s.workers[k].phase.Replaying? && size > 0 && WorkerInv(s, k, s.workers[k])
    ensures AddedInv(DoPage(s, k, size), k, DoPage(s, k, size).workers[k])
  {
    var w, s' := s.workers[k], DoPage(s, k, size);
    var w' := s'.workers[k];
    var from := Max(w.phase.cursor, s.floor);
    if |s.log| <= from {
      AddedLater(s, s', k, w, w');
    } else {
      var to := Min(from + size, |s.log|);
      forall n | 0 <= n < |w'.added| ensures Sourced(s', k, w', w'.added[n]) {
        if n < |w.added| {
          SourcedLater(s, s', k, w, w', w.added[n]);
        } else {
          PageAdded(s', k, w', from, to, n - |w.added|);
        }
      }
    }
  }

  lemma PageReplays(s: State, k: nat, size: nat)
    requires k < |s.workers| && s.workers[k].phase.Replaying? && size > 0 && ReplayInv(s, s.workers[k])
    ensures ReplayInv(DoPage(s, k, size), DoPage(s, k, size).workers[k])
  {
    var w, s' := s.workers[k], DoPage(s, k, size);
    var w' := s'.workers[k];
    var from := Max(w.phase.cursor, s.floor);
    var to := Min(from + size, |s.log|);
    forall i | i in w'.replayed ensures HoldsEntry(s', w', i) {
      if i in w.replayed {
        HoldsEntryLater(s, s', w, w', i);
      } else {
        PageHolds(s, from, to, w, w', i);
      }
    }
  }

  lemma PageKeepsInv(s: State, k: nat, size: nat)
    requires Inv(s)
    ensures Inv(Step(s, Page(k, size)))
  {
    if k < |s.workers| && s.workers[k].phase.Replaying? && size > 0 {
      var w := s.workers[k];
      var w' := DoPage(s, k, size).workers[k];
      assert WorkerInv(s, k, w);
      PageIsSourced(s, k, size);
      PageReplays(s, k, size);
      RestLater(s, k, w, w');
      OwnStep(s, k, w');
    }
  }

  lemma SubscribeKeepsInv(s: State, k: nat)
    requires Inv(s)
    ensures Inv(Step(s, Subscribe(k)))
  {
    if Up(s, k) && s.workers[k].subscribed.None? {
      var w := s.workers[k];
      var w' := w.(subscribed := Some(|s.channel|), read := |s.channel|);
      var s' := Set(s, k, w');
      assert WorkerInv(s, k, w);
      AddedLater(s, s', k, w, w');
      LocalLater(s, s', k, w, w');
      ReplayLater(s, s', w, w');
      DeliveryLater(s, s', k, w, w');
      AckLater(s, s', k, w, w');
      OwnStep(s, k, w');
    }
  }

  lemma RevokeKeepsInv(s: State, k: nat, jti: string)
    requires Inv(s)
    ensures Inv(Step(s, Revoke(k, jti)))
  {
    if Up(s, k) {
      var w := s.workers[k];
      var s' := DoRevoke(s, k, jti);
      var w' := s'.workers[k];
      assert WorkerInv(s, k, w);
      assert s'.calls[|s.calls|] == Call(k, w.epoch, jti, Appending, None);
      AddedMore(s, s', k, w, w', jti);
      AddedHolds(s.hash, w', jti);
      forall c | 0 <= c < |s.calls| && s.calls[c].worker == k && s.calls[c].epoch == w.epoch
        ensures Holds(s.hash, w', s.calls[c].jti)
      {
        GrownHolds(s.hash, w, w', s.calls[c].jti);
      }
      ReplayLater(s, s', w, w');
      DeliveryLater(s, s', k, w, w');
      AckLater(s, s', k, w, w');
      ChannelLater(s, s', w, w');
      OthersLater(s, s', k);
      LogInvLater(s, s');
    }
  }

  lemma LogInvLater(s: State, s': State)
    requires LogInv(s) && Later(s, s') && s'.log == s.log && s'.channel == s.channel
    requires forall c :: 0 <= c < |s'.calls| ==> Names(s'.log, s'.calls[c].entry, s'.calls[c].jti)
    ensures LogInv(s')
  {
    forall i | 0 <= i < |s'.log| ensures EntryInv(s', i) {
      assert EntryInv(s, i);
      RevokedLater(s, s', s.log[i].jti.value);
    }
    forall m | 0 <= m < |s'.channel| ensures MessageInv(s', s'.channel[m]) {
      assert MessageInv(s, s.channel[m]);
      RevokedLater(s, s', s.channel[m].jti);
    }
  }

  lemma AppendKeepsLog(s: State, c: nat)
    requires Inv(s) && Running(s, c, Appending)
    ensures LogInv(DoAppend(s, c, true))
  {
    var s' := DoAppend(s, c, true);
    assert s'.calls[c].jti == s.calls[c].jti;
    forall i | 0 <= i < |s'.log| ensures EntryInv(s', i) {
      if i < |s.log| {
        assert EntryInv(s, i);
        RevokedLater(s, s', s.log[i].jti.value);
      }
    }
    forall m | 0 <= m < |s'.channel| ensures MessageInv(s', s'.channel[m]) {
      assert MessageInv(s, s.channel[m]);
      RevokedLater(s, s', s.channel[m].jti);
    }
  }

  lemma AppendKeepsInv(s: State, c: nat, ok: bool)
    requires Inv(s)
    ensures Inv(Step(s, Append(c, ok)))
  {
    if Running(s, c, Appending) {
      var s' := DoAppend(s, c, ok);
      AllLater(s, s');
      if ok { AppendKeepsLog(s, c); } else { LogInvLater(s, s'); }
    }
  }

  lemma PublishKeepsInv(s: State, c: nat, ok: bool)
    requires Inv(s)
    ensures Inv(Step(s, Publish(c, ok)))
  {
    if Running(s, c, Publishing) {
      var s' := DoPublish(s, c, ok);
      AllLater(s, s');
      assert s'.calls[c].jti == s.calls[c].jti;
      forall i | 0 <= i < |s'.log| ensures EntryInv(s', i) {
        assert EntryInv(s, i);
        RevokedLater(s, s', s.log[i].jti.value);
      }
      forall m | 0 <= m < |s'.channel| ensures MessageInv(s', s'.channel[m]) {
        if m < |s.channel| {
          assert MessageInv(s, s.channel[m]);
          RevokedLater(s, s', s.channel[m].jti);
        }
      }
    }
  }

  lemma DeliverKeepsInv(s: State, k: nat, count: nat)
    requires Inv(s)
    ensures Inv(Step(s, Deliver(k, count)))
  {
    if Up(s, k) && s.workers[k].pending == [] && Max(s.group, s.floor) < |s.log| {
      var w := s.workers[k];
      var s' := DoDeliver(s, k, count);
      var w' := s'.workers[k];
      assert WorkerInv(s, k, w);
      DeliverKeepsGroup(s, k, count);
      DeliverKeepsHand(s, k, count);
      AddedLater(s, s', k, w, w');
      LocalLater(s, s', k, w, w');
      ReplayLater(s, s', w, w');
      AckLater(s, s', k, w, w');
      ChannelLater(s, s', w, w');
      OthersLater(s, s', k);
      LogInvLater(s, s');
    }
  }

  lemma DeliverKeepsGroup(s: State, k: nat, count: nat)
    requires GroupInv(s) && k < |s.workers|
    ensures GroupInv(DoDeliver(s, k, count))
  {}

  lemma DeliverKeepsHand(s: State, k: nat, count: nat)
    requires k < |s.workers| && s.workers[k].pending == [] && DeliveryInv(s, k, s.workers[k])
    ensures DeliveryInv(DoDeliver(s, k, count), k, DoDeliver(s, k, count).workers[k])
  {
    var from := Max(s.group, s.floor);
    if from < |s.log| {
      var w, s' := s.workers[k], DoDeliver(s, k, count);
      var w' := s'.workers[k];
      var to := Min(from + count, |s.log|);
      var more := Deliveries(k, w.epoch, from, to);
      forall i | i in w'.pending ensures Delivery(i, k, w.epoch) in s'.deliveries {
        assert more[i - from] == Delivery(i, k, w.epoch);
        assert s'.deliveries[|s.deliveries| + (i - from)] == more[i - from];
      }
      forall d | |s.deliveries| <= d < |s'.deliveries| ensures s'.deliveries[d].index in w'.pending {
        assert s'.deliveries[d] == more[d - |s.deliveries|];
        assert w'.pending[d - |s.deliveries|] == s'.deliveries[d].index;
      }
      forall i | i in w.taken ensures HoldsEntry(s', w', i) && Delivery(i, k, w.epoch) in s'.deliveries {
        HoldsEntryLater(s, s', w, w', i);
      }
    }
  }

  lemma HandleIsSourced(s: State, k: nat)
    requires Delivering(s, k) && WorkerInv(s, k, s.workers[k])
    ensures AddedInv(DoHandle(s, k), k, DoHandle(s, k).workers[k])
  {}

  lemma ReceiveIsSourced(s: State, k: nat)
    requires Listening(s, k) && WorkerInv(s, k, s.workers[k])
    ensures AddedInv(DoReceive(s, k), k, DoReceive(s, k).workers[k])
  {}

  lemma HandleKeepsInv(s: State, k: nat)
    requires Inv(s)
    ensures Inv(Step(s, Handle(k)))
  {
    if Delivering(s, k) && !s.workers[k].handled {
      var w, s' := s.workers[k], DoHandle(s, k);
      var w' := s'.workers[k];
      var i := w.pending[0];
      assert WorkerInv(s, k, w);
      HandleIsSourced(s, k);
      if Carries(s.log[i]) { AddedHolds(s.hash, w', s.log[i].jti.value); }
      forall j | j in w'.taken ensures HoldsEntry(s', w', j) && Delivery(j, k, w'.epoch) in s'.deliveries {
        if j in w.taken { HoldsEntryLater(s, s', w, w', j); }
      }
      LocalLater(s, s', k, w, w');
      ReplayLater(s, s', w, w');
      AckLater(s, s', k, w, w');
      ChannelLater(s, s', w, w');
      OwnStep(s, k, w');
    }
  }

  lemma AckKeepsHand(s: State, k: nat, ok: bool)
    requires Inv(s) && Delivering(s, k) && s.workers[k].handled
    ensures DeliveryInv(DoAck(s, k, ok), k, DoAck(s, k, ok).workers[k])
    ensures AckInv(DoAck(s, k, ok), k, DoAck(s, k, ok).workers[k])
    ensures forall a :: a in DoAck(s, k, ok).acked ==> a in s.deliveries
  {
    var w, s' := s.workers[k], DoAck(s, k, ok);
    var w' := s'.workers[k];
    assert WorkerInv(s, k, w);
    var first, rest := w.pending[0], w.pending[1..];
    assert w.pending == [first] + rest;
    assert Delivery(first, k, w.epoch) in s.deliveries;
    forall i | i in w'.taken ensures HoldsEntry(s', w', i) && Delivery(i, k, w'.epoch) in s'.deliveries {
      HoldsEntryLater(s, s', w, w', i);
    }
    forall a | a in s'.acked && a.worker == k && a.epoch == w'.epoch ensures HoldsEntry(s', w', a.index) {
      HoldsEntryLater(s, s', w, w', a.index);
    }
  }

  lemma AckKeepsInv(s: State, k: nat, ok: bool)
    requires Inv(s)
    ensures Inv(Step(s, Ack(k, ok)))
  {
    if Delivering(s, k) && s.workers[k].handled {
      var w, s' := s.workers[k], DoAck(s, k, ok);
      var w' := s'.workers[k];
      assert WorkerInv(s, k, w);
      AckKeepsHand(s, k, ok);
      AddedLater(s, s', k, w, w');
      LocalLater(s, s', k, w, w');
      ReplayLater(s, s', w, w');
      ChannelLater(s, s', w, w');
      OthersLater(s, s', k);
      LogInvLater(s, s');
    }
  }

  lemma ReceiveKeepsChannel(s: State, k: nat)
    requires Listening(s, k) && ChannelInv(s, s.workers[k])
    ensures ChannelInv(DoReceive(s, k), DoReceive(s, k).workers[k])
  {}

  lemma ReceiveKeepsInv(s: State, k: nat)
    requires Inv(s)
    ensures Inv(Step(s, Receive(k)))
  {
    if Listening(s, k) {
      var w, s' := s.workers[k], DoReceive(s, k);
      var w' := s'.workers[k];
      assert WorkerInv(s, k, w);
      ReceiveIsSourced(s, k);
      ReceiveKeepsChannel(s, k);
      LocalLater(s, s', k, w, w');
      ReplayLater(s, s', w, w');
      DeliveryLater(s, s', k, w, w');
      AckLater(s, s', k, w, w');
      OwnStep(s, k, w');
    }
  }

  lemma LoseKeepsInv(s: State, k: nat)
    requires Inv(s)
    ensures Inv(Step(s, Lose(k)))
  {
    if Listening(s, k) {
      var w, s' := s.workers[k], DoLose(s, k);
      var w' := s'.workers[k];
      assert WorkerInv(s, k, w);
      forall m | w.subscribed.value <= m < w'.read && m !in w'.lost ensures HoldsMessage(s', w', m) {
        assert HoldsMessage(s, w, m);
      }
      AddedLater(s, s', k, w, w');
      LocalLater(s, s', k, w, w');
      ReplayLater(s, s', w, w');
      DeliveryLater(s, s', k, w, w');
      AckLater(s, s', k, w, w');
      OwnStep(s, k, w');
    }
  }

  lemma StepKeepsInv(s: State, e: Event)
    requires Inv(s)
    ensures Inv(Step(s, e))
  {
    match e
    case Tick(d) => TickKeepsInv(s, d);
    case Boot(w) => BootKeepsInv(s, w);
    case Page(w, size) => PageKeepsInv(s, w, size);
    case Subscribe(w) => SubscribeKeepsInv(s, w);
    case Revoke(w, jti) => RevokeKeepsInv(s, w, jti);
    case Append(c, ok) => AppendKeepsInv(s, c, ok);
    case Publish(c, ok) => PublishKeepsInv(s, c, ok);
    case Trim(n) => TrimKeepsInv(s, n);
    case Deliver(w, count) => DeliverKeepsInv(s, w, count);
    case Handle(w) => HandleKeepsInv(s, w);
    case Ack(w, ok) => AckKeepsInv(s, w, ok);
    case Receive(w) => ReceiveKeepsInv(s, w);
    case Lose(w) => LoseKeepsInv(s, w);
    case Crash(w) => CrashKeepsInv(s, w);
  }

  lemma {:induction false} RunKeepsInv(s: State, events: seq<Event>)
    requires Inv(s)
    ensures Inv(Run(s, events))
    decreases |events|
  {
    if events != [] {
      StepKeepsInv(s, events[0]);
      RunKeepsInv(Step(s, events[0]), events[1..]);
    }
  }

  lemma StartInv(hash: string -> set<nat>, clock: int, n: nat)
    ensures Inv(Start(hash, clock, n))
  {}

  function Reached(hash: string -> set<nat>, clock: int, n: nat, events: seq<Event>): State {
    Run(Start(hash, clock, n), events)
  }

  lemma ReachedInv(hash: string -> set<nat>, clock: int, n: nat, events: seq<Event>)
    ensures Inv(Reached(hash, clock, n, events)) && Reached(hash, clock, n, events).hash == hash
  {
    StartInv(hash, clock, n);
    RunKeepsInv(Start(hash, clock, n), events);
    FiltersGrow(Start(hash, clock, n), events);
  }
}

/**
 What holds of every run of the revocation protocol: which token ids a worker rejects,
 what a restart keeps, and where a revocation gets lost.

 Source: app/core/token_revocation.py.
 */
module RevocationRuns {
  import opened Common
  import opened Revocation
  import opened RevocationProtocol

  /** The worker is subscribed and has taken every message published so far. */
  predicate Drained(s: State, w: nat) {
    Up(s, w) && s.workers[w].subscribed.Some? && s.workers[w].read == |s.channel|
  }

  /**
   The revocation was published before the worker subscribed, and the startup replay
   did not see it: its append failed, was trimmed away, or came after the replay.
   */
  predicate Missed(s: State, worker: Worker, m: nat)
    requires m < |s.channel|
  {
    worker.subscribed.Some? && m < worker.subscribed.value &&
    (s.channel[m].entry.None? || s.channel[m].entry.value < s.floor || worker.replayEnd <= s.channel[m].entry.value)
  }

  /**
   Convergence: a running worker that has drained the channel rejects every published
   token id, unless the message was lost on the way, or the revocation fell between
   the worker's replay and its subscription without being in the stream it replayed.
   */
  lemma Convergence(hash: string -> set<nat>, clock: int, n: nat, events: seq<Event>, w: nat, m: nat)
    requires var s := Reached(hash, clock, n, events);
      Drained(s, w) && m < |s.channel| && m !in s.workers[w].lost && !Missed(s, s.workers[w], m)
    ensures var s := Reached(hash, clock, n, events);
      !Accepts(Filter(hash, s.workers[w]), Some(s.channel[m].jti))
  {
    var s := Reached(hash, clock, n, events);
    ReachedInv(hash, clock, n, events);
    var worker, msg := s.workers[w], s.channel[m];
    assert WorkerInv(s, w, worker);
    assert MessageInv(s, msg);
    if worker.subscribed.value <= m {
      assert HoldsMessage(s, worker, m);
    } else {
      assert HoldsEntry(s, worker, msg.entry.value);
    }
  }

  /** What a running worker certainly holds, whatever the interleaving. */
  lemma EveryRouteIsHeld(hash: string -> set<nat>, clock: int, n: nat, events: seq<Event>, w: nat)
    requires Up(Reached(hash, clock, n, events), w)
    ensures var s := Reached(hash, clock, n, events);
            var worker := s.workers[w];
            (forall c :: 0 <= c < |s.calls| && s.calls[c].worker == w && s.calls[c].epoch == worker.epoch ==>
              Holds(hash, worker, s.calls[c].jti)) &&
            (forall i :: s.floor <= i < worker.replayEnd ==> HoldsEntry(s, worker, i)) &&
            (forall d :: 0 <= d < |s.deliveries| && s.deliveries[d].worker == w && s.deliveries[d].epoch == worker.epoch ==>
              s.deliveries[d].index in worker.pending || s.deliveries[d].index in worker.abandoned
              || HoldsEntry(s, worker, s.deliveries[d].index)) &&
            (forall m :: worker.subscribed.Some? && worker.subscribed.value <= m < worker.read && m !in worker.lost ==>
              HoldsMessage(s, worker, m))
  {
    ReachedInv(hash, clock, n, events);
    var s := Reached(hash, clock, n, events);
    assert WorkerInv(s, w, s.workers[w]);
  }

  /** Nothing else is added: every token id added to any filter was passed to some revoke_token call. */
  lemma AddedWasRevoked(hash: string -> set<nat>, clock: int, n: nat, events: seq<Event>, w: nat, jti: string)
    requires var s := Reached(hash, clock, n, events); w < |s.workers| && jti in s.workers[w].added
    ensures Revoked(Reached(hash, clock, n, events).calls, jti)
  {
    ReachedInv(hash, clock, n, events);
    var s := Reached(hash, clock, n, events);
    assert WorkerInv(s, w, s.workers[w]);
    var i :| 0 <= i < |s.workers[w].added| && s.workers[w].added[i] == jti;
    SourcedWasRevoked(s, w, s.workers[w], jti);
  }

  /**
   A token id that reached a worker by none of its routes was never added to its
   filter: not by its own call, not by its replay or a delivery, not from the channel.
   */
  lemma OnlyThroughARoute(hash: string -> set<nat>, clock: int, n: nat, events: seq<Event>, w: nat, jti: string)
    requires var s := Reached(hash, clock, n, events); w < |s.workers| && !Sourced(s, w, s.workers[w], jti)
    ensures jti !in Reached(hash, clock, n, events).workers[w].added
  {
    ReachedInv(hash, clock, n, events);
    var s := Reached(hash, clock, n, events);
    assert WorkerInv(s, w, s.workers[w]);
  }

  /** Whatever reached a running worker by a route is in its filter. */
  lemma SourcedIsHeld(s: State, w: nat, jti: string)
    requires Inv(s) && Up(s, w) && jti != "" && Sourced(s, w, s.workers[w], jti)
    ensures Holds(s.hash, s.workers[w], jti)
  {
    var worker := s.workers[w];
    assert WorkerInv(s, w, worker);
    if OwnCall(s, w, worker, jti) {
      var c :| 0 <= c < |s.calls| && s.calls[c].worker == w && s.calls[c].epoch == worker.epoch && s.calls[c].jti == jti;
    } else if InStream(s, worker, jti) {
      var i :| 0 <= i < |s.log| && s.log[i].jti == Some(jti) && ByStream(worker, i);
      assert HoldsEntry(s, worker, i);
    } else {
      var m :| worker.subscribed.value <= m < worker.read && m !in worker.lost && m < |s.channel| &&
               s.channel[m].jti == jti;
      assert HoldsMessage(s, worker, m);
    }
  }

  /** Some bit of the token id is set by no other revoked one, so its rejection is no false positive. */
  ghost predicate OwnBit(s: State, jti: string, b: nat) {
    b in s.hash(jti) && forall other :: Revoked(s.calls, other) && other != jti ==> b !in s.hash(other)
  }

  lemma HoldsIff(s: State, w: nat, jti: string, b: nat)
    requires Inv(s) && Up(s, w) && jti != "" && OwnBit(s, jti, b)
    ensures Holds(s.hash, s.workers[w], jti) <==> Sourced(s, w, s.workers[w], jti)
  {
    var worker := s.workers[w];
    assert WorkerInv(s, w, worker);
    if Sourced(s, w, worker, jti) {
      SourcedIsHeld(s, w, jti);
    } else {
      BitsComeFromItems(s.hash, worker.added, b);
      forall i | 0 <= i < |worker.added| ensures b !in s.hash(worker.added[i]) {
        SourcedWasRevoked(s, w, worker, worker.added[i]);
      }
      NoFalseNegatives(Bloom(s.hash, {}), worker.added, jti);
    }
  }

  /**
   The exact condition: in every run, a running worker rejects a token id, other than
   by a false positive, exactly when the id reached it by one of its routes: its own
   call, its replay, a delivery it took, or a message it read.
   */
  lemma RejectsIff(hash: string -> set<nat>, clock: int, n: nat, events: seq<Event>, w: nat, jti: string, b: nat)
    requires var s := Reached(hash, clock, n, events); Up(s, w) && jti != "" && OwnBit(s, jti, b)
    ensures var s := Reached(hash, clock, n, events);
            !Accepts(Filter(hash, s.workers[w]), Some(jti)) <==> Sourced(s, w, s.workers[w], jti)
  {
    ReachedInv(hash, clock, n, events);
    HoldsIff(Reached(hash, clock, n, events), w, jti, b);
  }

  /** The worker missed the message: it came before the subscription, or was lost. */
  predicate Unread(worker: Worker, m: nat) {
    worker.subscribed.Some? && (m < worker.subscribed.value || m in worker.lost)
  }

  /**
   For a published id and a worker that has drained the channel: it still accepts the id
   exactly when it did not revoke it itself, neither replayed nor took any entry of it,
   and missed every message of it.
   */
  lemma DrainedAcceptsIff(hash: string -> set<nat>, clock: int, n: nat, events: seq<Event>, w: nat, jti: string, b: nat)
    requires var s := Reached(hash, clock, n, events); Drained(s, w) && jti != "" && OwnBit(s, jti, b)
    ensures var s := Reached(hash, clock, n, events);
            var worker := s.workers[w];
            Accepts(Filter(hash, worker), Some(jti)) <==>
            !OwnCall(s, w, worker, jti) &&
            (forall i :: 0 <= i < |s.log| && s.log[i].jti == Some(jti) ==> !ByStream(worker, i)) &&
            (forall m :: 0 <= m < |s.channel| && s.channel[m].jti == jti ==> Unread(worker, m))
  {
    RejectsIff(hash, clock, n, events, w, jti, b);
  }

  /** Nothing was lost, trimmed, abandoned or is in hand. */
  predicate Undisturbed(s: State, worker: Worker) {
    worker.lost == {} && worker.abandoned == {} && worker.pending == [] && s.floor == 0
  }

  /** Then positions speak for themselves: after the replay, never handed to it, before the subscription. */
  lemma UndisturbedAcceptsIff(hash: string -> set<nat>, clock: int, n: nat, events: seq<Event>, w: nat, jti: string,
                              b: nat)
    requires var s := Reached(hash, clock, n, events);
             Drained(s, w) && Undisturbed(s, s.workers[w]) && jti != "" && OwnBit(s, jti, b)
    ensures var s := Reached(hash, clock, n, events);
            var worker := s.workers[w];
            Accepts(Filter(hash, worker), Some(jti)) <==>
            !OwnCall(s, w, worker, jti) &&
            (forall i :: 0 <= i < |s.log| && s.log[i].jti == Some(jti) ==>
               worker.replayEnd <= i && Delivery(i, w, worker.epoch) !in s.deliveries) &&
            (forall m :: 0 <= m < |s.channel| && s.channel[m].jti == jti ==> m < worker.subscribed.value)
  {
    var s := Reached(hash, clock, n, events);
    ReachedInv(hash, clock, n, events);
    DrainedAcceptsIff(hash, clock, n, events, w, jti, b);
    var worker := s.workers[w];
    assert WorkerInv(s, w, worker);
    forall i: nat ensures ByStream(worker, i) <==> i < worker.replayEnd || Delivery(i, w, worker.epoch) in s.deliveries {
      if Delivery(i, w, worker.epoch) in s.deliveries {
        var d :| 0 <= d < |s.deliveries| && s.deliveries[d] == Delivery(i, w, worker.epoch);
      }
    }
  }

  /** Hence a bit of a filter that no revoked token id sets is never set, and a token with such a bit is accepted. */
  lemma UnrelatedTokensPass(hash: string -> set<nat>, clock: int, n: nat, events: seq<Event>, w: nat,
                            jti: string, b: nat)
    requires w < |Reached(hash, clock, n, events).workers| && jti != "" && b in hash(jti)
    requires forall other :: Revoked(Reached(hash, clock, n, events).calls, other) ==> b !in hash(other)
    ensures Accepts(Filter(hash, Reached(hash, clock, n, events).workers[w]), Some(jti))
  {
    var worker := Reached(hash, clock, n, events).workers[w];
    BitsComeFromItems(hash, worker.added, b);
    if i :| 0 <= i < |worker.added| && b in hash(worker.added[i]) {
      AddedWasRevoked(hash, clock, n, events, w, worker.added[i]);
    }
    NoFalseNegatives(Bloom(hash, {}), worker.added, jti);
  }

  /** No stream position is ever handed out twice, to whichever workers. */
  lemma HandedAtMostOnce(hash: string -> set<nat>, clock: int, n: nat, events: seq<Event>, d: nat, d': nat)
    requires var s := Reached(hash, clock, n, events);
      d < |s.deliveries| && d' < |s.deliveries| && s.deliveries[d].index == s.deliveries[d'].index
    ensures d == d'
  {
    ReachedInv(hash, clock, n, events);
  }

  /** An acknowledged entry was handed to that worker and is in its filter for as long as it runs. */
  lemma AcknowledgedIsHeld(hash: string -> set<nat>, clock: int, n: nat, events: seq<Event>, a: Delivery)
    requires a in Reached(hash, clock, n, events).acked
    ensures var s := Reached(hash, clock, n, events);
            a in s.deliveries && a.index < |s.log| &&
            (Up(s, a.worker) && s.workers[a.worker].epoch == a.epoch && Carries(s.log[a.index]) ==>
              Holds(hash, s.workers[a.worker], s.log[a.index].jti.value))
  {
    ReachedInv(hash, clock, n, events);
    var s := Reached(hash, clock, n, events);
    var d :| 0 <= d < |s.deliveries| && s.deliveries[d] == a;
    if Up(s, a.worker) && s.workers[a.worker].epoch == a.epoch {
      assert WorkerInv(s, a.worker, s.workers[a.worker]);
      assert HoldsEntry(s, s.workers[a.worker], a.index);
    }
  }

  /** No hour-long stretch sees more appends than the stream is sure to keep. */
  ghost predicate AtMostFullStreamPerHour(times: seq<int>) {
    forall i, j :: 0 <= i && j == i + 1_000_000 && j < |times| ==> times[j] - times[i] >= 3600
  }

  /** What has been trimmed was appended at least one lifetime ago. */
  lemma TrimmedIsOld(s: State, i: nat)
    requires TimeInv(s) && AtMostFullStreamPerHour(s.times) && i < s.floor
    ensures i < |s.times| && s.times[i] + 3600 <= s.clock
  {
    assert s.times[i + 1_000_000] <= s.clock;
  }

  lemma ReplayedIsRejected(s: State, w: nat, i: nat, exp: int)
    requires Inv(s) && Up(s, w) && i < s.workers[w].replayEnd && i < |s.times| && AtMostFullStreamPerHour(s.times)
    requires exp <= s.times[i] + 3600 && s.clock < exp
    ensures i < |s.log| && !Accepts(Filter(s.hash, s.workers[w]), s.log[i].jti)
  {
    assert WorkerInv(s, w, s.workers[w]);
    if i < s.floor { TrimmedIsOld(s, i); }
    assert HoldsEntry(s, s.workers[w], i);
  }

  /**
   Restart bound: a revocation appended before a worker's replay ended is rejected by
   that worker for as long as the token is unexpired, a login token expiring at most
   one lifetime after it was revoked.
   */
  lemma RestartedWorkerRejects(hash: string -> set<nat>, clock: int, n: nat, events: seq<Event>, w: nat, i: nat,
                               exp: int)
    requires var s := Reached(hash, clock, n, events);
      Up(s, w) && i < s.workers[w].replayEnd && i < |s.times| && AtMostFullStreamPerHour(s.times) &&
      exp <= s.times[i] + 3600 && s.clock < exp
    ensures var s := Reached(hash, clock, n, events);
      i < |s.log| && !Accepts(Filter(hash, s.workers[w]), s.log[i].jti)
  {
    ReachedInv(hash, clock, n, events);
    ReplayedIsRejected(Reached(hash, clock, n, events), w, i, exp);
  }

  /**
   In any state of a run: a worker that is down now rejects, once it is up again, every
   revocation appended by now, for as long as the token is unexpired, whatever happens
   in between.
   */
  lemma PresentIsRejectedAfterRestart(s: State, events: seq<Event>, w: nat, i: nat, exp: int)
    requires Inv(s) && w < |s.workers| && s.workers[w].phase.Down? && i < |s.log| && Carries(s.log[i])
    requires i < |s.times| && exp <= s.times[i] + 3600
    requires var t := Run(s, events); Up(t, w) && AtMostFullStreamPerHour(t.times) && t.clock < exp
    ensures var t := Run(s, events); !Accepts(Filter(t.hash, t.workers[w]), s.log[i].jti)
  {
    var t := Run(s, events);
    RunKeepsInv(s, events);
    RunOnlyAppends(s, events);
    ReplayReachesPresent(s, events, w);
    assert t.log[i] == s.log[i] && t.times[i] == s.times[i];
    ReplayedIsRejected(t, w, i, exp);
  }

  /** Entries and their times are never rewritten. */
  lemma {:induction false} RunOnlyAppends(s: State, events: seq<Event>)
    ensures s.log <= Run(s, events).log && s.times <= Run(s, events).times
    decreases |events|
  {
    if events != [] {
      var t := Step(s, events[0]);
      assert s.log <= t.log && s.times <= t.times;
      RunOnlyAppends(t, events[1..]);
    }
  }

  /** A worker that starts now will replay at least the entries the stream holds now. */
  lemma ReplayReachesPresent(s: State, events: seq<Event>, w: nat)
    requires Inv(s) && w < |s.workers| && s.workers[w].phase.Down?
    requires var t := Run(s, events); Up(t, w)
    ensures Run(s, events).workers[w].replayEnd >= |s.log|
  {
    ReplaysToEnd(s, events, w, |s.log|);
  }

  /** The worker is not yet serving, or has replayed at least to n. */
  predicate WillReach(s: State, w: nat, n: nat) {
    n <= |s.log| && w < |s.workers| && (s.workers[w].phase.Serving? ==> n <= s.workers[w].replayEnd)
  }

  lemma StepWillReach(s: State, e: Event, w: nat, n: nat)
    requires WillReach(s, w, n)
    ensures WillReach(Step(s, e), w, n)
  {}

  lemma {:induction false} ReplaysToEnd(s: State, events: seq<Event>, w: nat, n: nat)
    requires WillReach(s, w, n)
    ensures WillReach(Run(s, events), w, n)
    decreases |events|
  {
    if events != [] {
      StepWillReach(s, events[0], w, n);
      ReplaysToEnd(Step(s, events[0]), events[1..], w, n);
    }
  }

  /*** The window between replay and subscription ***/

  function WindowRun(jti: string): seq<Event> {
    [Boot(0), Page(0, BATCH_SIZE), Subscribe(0), Boot(1), Page(1, BATCH_SIZE),
     Revoke(0, jti), Append(0, true), Publish(0, true), Deliver(0, BATCH_SIZE), Subscribe(1)]
  }

  /**
   Two workers on one Redis that never fails: the second replays the stream, the
   first revokes, the group hands the entry to the first, and only then does the
   second subscribe.  It has drained the channel and still accepts the token.
   */
  lemma WindowLosesRevocation(hash: string -> set<nat>, clock: int, jti: string)
    requires jti != "" && hash(jti) != {}
    ensures var s := Reached(hash, clock, 2, WindowRun(jti));
            Drained(s, 1) && s.channel == [Message(jti, Some(0))] && s.log == [Entry(0, Some(jti))] && s.floor == 0 &&
            Accepts(Filter(hash, s.workers[1]), Some(jti))
  {
    var e := WindowRun(jti);
    var s0 := Start(hash, clock, 2);
    var s1 := FirstServes(s0);
    var s2 := SecondServes(s1);
    Events3(s0, e, 0);
    Events2(s1, e, 3);
    assert e[5..] == [Revoke(0, jti), Append(0, true), Publish(0, true), Deliver(0, BATCH_SIZE), Subscribe(1)];
    WindowEnd(s2, jti);
  }

  /** A worker that starts on an empty stream serves after one empty page. */
  lemma FirstServes(s: State) returns (s': State)
    requires s.workers == [Stopped(0), Stopped(0)] && s.log == [] && s.channel == [] && s.floor == 0
    ensures s' == Step(Step(Step(s, Boot(0)), Page(0, BATCH_SIZE)), Subscribe(0))
    ensures s' == s.(workers := [Stopped(1).(phase := Serving, subscribed := Some(0)), Stopped(0)])
  {
    var s1 := Step(s, Boot(0));
    var s2 := Step(s1, Page(0, BATCH_SIZE));
    assert s2.workers == [Stopped(1).(phase := Serving), Stopped(0)];
    s' := Step(s2, Subscribe(0));
  }

  lemma SecondServes(s: State) returns (s': State)
    requires |s.workers| == 2 && s.workers[1] == Stopped(0) && s.log == [] && s.floor == 0
    ensures s' == Step(Step(s, Boot(1)), Page(1, BATCH_SIZE))
    ensures s' == s.(workers := [s.workers[0], Stopped(1).(phase := Serving)])
  {
    s' := Step(Step(s, Boot(1)), Page(1, BATCH_SIZE));
  }

  lemma Events2(s: State, events: seq<Event>, k: nat)
    requires k + 1 < |events|
    ensures Run(s, events[k..]) == Run(Step(Step(s, events[k]), events[k + 1]), events[k + 2..])
  {}

  lemma Events3(s: State, events: seq<Event>, k: nat)
    requires k + 2 < |events|
    ensures Run(s, events[k..]) ==
            Run(Step(Step(Step(s, events[k]), events[k + 1]), events[k + 2]), events[k + 3..])
    ensures events[0..] == events
  {
    OneEvent(s, events, k);
    Events2(Step(s, events[k]), events, k + 1);
  }

  lemma OneEvent(s: State, events: seq<Event>, k: nat)
    requires k < |events|
    ensures Run(s, events[k..]) == Run(Step(s, events[k]), events[k + 1..])
  {}

  lemma WindowEnd(s: State, jti: string)
    requires jti != "" && s.hash(jti) != {}
    requires s.log == [] && s.times == [] && s.floor == 0 && s.group == 0 && s.deliveries == []
    requires s.channel == [] && s.calls == [] && |s.workers| == 2
    requires var served := Stopped(1).(phase := Serving);
      s.workers == [served.(subscribed := Some(0)), served]
    ensures var t := Run(s, [Revoke(0, jti), Append(0, true), Publish(0, true), Deliver(0, BATCH_SIZE), Subscribe(1)]);
            t.hash == s.hash && Drained(t, 1) && t.channel == [Message(jti, Some(0))] &&
            t.log == [Entry(0, Some(jti))] && t.floor == 0 &&
            Accepts(Filter(t.hash, t.workers[1]), Some(jti))
  {
    var e := [Revoke(0, jti), Append(0, true), Publish(0, true), Deliver(0, BATCH_SIZE), Subscribe(1)];
    assert e[0..] == e && e[5..] == [];
    var s3 := RevokedByFirst(s, jti);
    Events3(s, e, 0);
    Events2(s3, e, 3);
    HandedToFirst(s3);
  }

  lemma RevokedByFirst(s: State, jti: string) returns (s': State)
    requires s.log == [] && s.times == [] && s.channel == [] && s.calls == [] && Up(s, 0) && |s.workers| == 2
    ensures s' == Step(Step(Step(s, Revoke(0, jti)), Append(0, true)), Publish(0, true))
    ensures s'.hash == s.hash && s'.floor == s.floor && s'.group == s.group && |s'.workers| == 2
    ensures s'.log == [Entry(0, Some(jti))] && s'.channel == [Message(jti, Some(0))]
    ensures Up(s', 0) && s'.workers[0].pending == s.workers[0].pending && s'.workers[1] == s.workers[1]
  {
    var s1 := Step(s, Revoke(0, jti));
    assert s1.calls == [Call(0, s.workers[0].epoch, jti, Appending, None)];
    var s2 := Step(s1, Append(0, true));
    assert s2.calls == [Call(0, s.workers[0].epoch, jti, Publishing, Some(0))];
    s' := Step(s2, Publish(0, true));
  }

  lemma HandedToFirst(s: State)
    requires Up(s, 0) && Up(s, 1) && |s.log| > 0 && s.workers[0].pending == [] && s.workers[1].subscribed.None?
    ensures var t := Step(Step(s, Deliver(0, BATCH_SIZE)), Subscribe(1));
            t.hash == s.hash && t.log == s.log && t.channel == s.channel && t.floor == s.floor &&
            Drained(t, 1) && t.workers[1].added == s.workers[1].added
  {}
}

/**
 One worker's token revocation manager: its Bloom filter, the replay of the
 revocation stream, and the handling of revocations, group deliveries and
 channel messages.

 Source: app/core/token_revocation.py; the acceptance test is the one of
 app/main.py.
 */
module Revocation {
  import opened Common

  /**
   A Bloom filter for an arbitrary hash: adding an item sets its bits, and an item
   is reported present when all its bits are set.
   */
  datatype Bloom = Bloom(hash: string -> set<nat>, bits: set<nat>) {

    predicate Contains(item: string) {
      hash(item) <= bits
    }

    function Add(item: string): Bloom {
      this.(bits := bits + hash(item))
    }
  }

  function AddAll(bloom: Bloom, items: seq<string>): Bloom {
    if items == [] then bloom else AddAll(bloom, items[..|items| - 1]).Add(items[|items| - 1])
  }

  /** Added items stay present, whatever is added later. */
  lemma {:induction false} NoFalseNegatives(bloom: Bloom, items: seq<string>, item: string)
    ensures AddAll(bloom, items).hash == bloom.hash && bloom.bits <= AddAll(bloom, items).bits
    ensures item in items || bloom.Contains(item) ==> AddAll(bloom, items).Contains(item)
  {
    if items != [] {
      NoFalseNegatives(bloom, items[..|items| - 1], item);
      assert items == items[..|items| - 1] + [items[|items| - 1]];
    }
  }

  lemma {:induction false} AddAllSplits(bloom: Bloom, a: seq<string>, b: seq<string>)
    ensures AddAll(bloom, a + b) == AddAll(AddAll(bloom, a), b)
  {
    if b == [] {
      assert a + b == a;
    } else {
      var last := |b| - 1;
      assert (a + b)[..|a + b| - 1] == a + b[..last];
      AddAllSplits(bloom, a, b[..last]);
    }
  }

  /** The middleware lets a request through when its token carries an id the filter does not report. */
  predicate Accepts(bloom: Bloom, jti: Option<string>) {
    jti.Some? && jti.value != "" && !bloom.Contains(jti.value)
  }

  /** A stream entry; Redis ids increase along the stream. */
  datatype Entry = Entry(id: nat, jti: Option<string>)

  predicate Increasing(entries: seq<Entry>) {
    forall i, j :: 0 <= i < j < |entries| ==> entries[i].id < entries[j].id
  }

  /** The entry carries a token id worth adding. */
  predicate Carries(e: Entry) {
    e.jti.Some? && e.jti.value != ""
  }

  function Jtis(entries: seq<Entry>): seq<string> {
    if entries == [] then []
    else
      var last := entries[|entries| - 1];
      Jtis(entries[..|entries| - 1]) + if Carries(last) then [last.jti.value] else []
  }

  lemma {:induction false} JtisContain(entries: seq<Entry>, jti: string)
    ensures jti in Jtis(entries) <==> jti != "" && exists i :: 0 <= i < |entries| && entries[i].jti == Some(jti)
  {
    if entries != [] {
      var last := |entries| - 1;
      JtisContain(entries[..last], jti);
      assert entries == entries[..last] + [entries[last]];
      if i :| 0 <= i < |entries| && entries[i].jti == Some(jti) && i < last {
        assert entries[..last][i] == entries[i];
      }
    }
  }

  /** Handling one more entry. */
  lemma JtisSnoc(bloom: Bloom, entries: seq<Entry>, e: Entry)
    ensures var before := Jtis(entries);
            Jtis(entries + [e]) == (if Carries(e) then before + [e.jti.value] else before) &&
            AddAll(bloom, Jtis(entries + [e])) ==
            if Carries(e) then AddAll(bloom, before).Add(e.jti.value) else AddAll(bloom, before)
  {}

  /** The token id of every handled entry is present. */
  lemma AddedFrom(bloom: Bloom, entries: seq<Entry>, i: nat)
    requires i < |entries| && Carries(entries[i])
    ensures AddAll(bloom, Jtis(entries)).Contains(entries[i].jti.value)
  {
    JtisContain(entries, entries[i].jti.value);
    NoFalseNegatives(bloom, Jtis(entries), entries[i].jti.value);
  }

  /** The lower end of a range read: an id included, or an id excluded. */
  datatype Cursor = From(id: nat) | After(id: nat)

  predicate Beyond(c: Cursor, id: nat) {
    match c
    case From(i) => i <= id
    case After(i) => i < id
  }

  /** How many entries a cursor skips. */
  function Skipped(entries: seq<Entry>, c: Cursor): (k: nat)
    ensures k <= |entries|
    ensures forall i :: 0 <= i < k ==> !Beyond(c, entries[i].id)
    ensures k < |entries| ==> Beyond(c, entries[k].id)
  {
    if entries == [] || Beyond(c, entries[0].id) then 0
    else
      var k := Skipped(entries[1..], c);
      assert forall i :: 1 <= i < k + 1 ==> entries[i] == entries[1..][i - 1];
      k + 1
  }

  function Range(entries: seq<Entry>, c: Cursor, count: nat): seq<Entry> {
    var k := Skipped(entries, c);
    if k + count <= |entries| then entries[k..k + count] else entries[k..]
  }

  lemma SkippedAfter(entries: seq<Entry>, n: nat)
    requires Increasing(entries) && 0 < n <= |entries|
    ensures Skipped(entries, After(entries[n - 1].id)) == n
  {}

  lemma JtisTake(bloom: Bloom, entries: seq<Entry>, n: nat)
    requires n < |entries|
    ensures var before, e := Jtis(entries[..n]), entries[n];
            |Jtis(entries[..n + 1])| == |before| + (if Carries(e) then 1 else 0) &&
            AddAll(bloom, Jtis(entries[..n + 1])) ==
            if Carries(e) then AddAll(bloom, before).Add(e.jti.value) else AddAll(bloom, before)
  {
    assert entries[..n + 1] == entries[..n] + [entries[n]];
    JtisSnoc(bloom, entries[..n], entries[n]);
  }

  lemma {:induction false} JtisSplit(a: seq<Entry>, b: seq<Entry>)
    ensures Jtis(a + b) == Jtis(a) + Jtis(b)
  {
    if b == [] {
      assert a + b == a;
    } else {
      var last := |b| - 1;
      assert (a + b)[..|a + b| - 1] == a + b[..last];
      JtisSplit(a, b[..last]);
    }
  }

  /** The visited entries have been added and counted, and the cursor skips just those. */
  ghost predicate Replayed(start: Bloom, stream: seq<Entry>, visited: seq<Entry>, cursor: Cursor,
                           bloom: Bloom, count: nat) {
    visited <= stream && Skipped(stream, cursor) == |visited| &&
    bloom == AddAll(start, Jtis(visited)) && count == |Jtis(visited)|
  }

  /** A page read at the cursor continues exactly where the replay stands. */
  lemma NextPage(start: Bloom, stream: seq<Entry>, visited: seq<Entry>, cursor: Cursor, bloom: Bloom, count: nat,
                 size: nat)
    requires Increasing(stream) && Replayed(start, stream, visited, cursor, bloom, count) && size > 0
    ensures var page := Range(stream, cursor, size);
            if page == [] then visited == stream
            else |visited| + |page| <= |stream| &&
                 Replayed(start, stream, visited + page, After(page[|page| - 1].id),
                          AddAll(bloom, Jtis(page)), count + |Jtis(page)|)
  {
    var page := Range(stream, cursor, size);
    var m := |visited| + |page|;
    assert stream[..m] == visited + page;
    if page != [] {
      JtisSplit(visited, page);
      AddAllSplits(start, Jtis(visited), Jtis(page));
      assert page[|page| - 1] == stream[m - 1];
      SkippedAfter(stream, m);
    }
  }

  function EntryIds(entries: seq<Entry>): set<nat> {
    set e | e in entries :: e.id
  }

  lemma IdsTake(entries: seq<Entry>, n: nat)
    requires n < |entries|
    ensures EntryIds(entries[..n + 1]) == EntryIds(entries[..n]) + {entries[n].id}
  {}

  /** The entry whose acknowledgement failed has been added too. */
  function Handled(messages: seq<Entry>, acknowledged: nat): (n: nat)
    requires acknowledged <= |messages|
    ensures acknowledged <= n <= |messages|
  {
    if acknowledged == |messages| then acknowledged else acknowledged + 1
  }

  /** The token id of every acknowledged entry is in the filter. */
  lemma AcknowledgedArePresent(bloom: Bloom, messages: seq<Entry>, acknowledged: nat, i: nat)
    requires i < acknowledged <= |messages| && Carries(messages[i])
    ensures AddAll(bloom, Jtis(messages[..Handled(messages, acknowledged)])).Contains(messages[i].jti.value)
  {
    AddedFrom(bloom, messages[..Handled(messages, acknowledged)], i);
  }

  const BATCH_SIZE := 100
  const MAX_STREAM := 1_000_000

  /** What revoke_token was asked for. */
  datatype Request = Request(jti: string, user: string, tenant: string)

  /** The entry comes last, after what is left of the stream; only a long stream loses its oldest entries. */
  predicate Appended(before: seq<Entry>, after: seq<Entry>, e: Entry) {
    after != [] && after[|after| - 1] == e &&
    exists k :: 0 <= k <= |before| && after[..|after| - 1] == before[k..] && (k > 0 ==> |after| >= MAX_STREAM)
  }

  /**
   The shared Redis: the revocation stream, how many entries were ever appended,
   the acknowledged ids and the channel's messages.
   */
  class RedisClient {
    var stream: seq<Entry>
    var lastId: nat
    var acked: set<nat>
    var channel: seq<string>

    ghost predicate Valid()
      reads this
    {
      Increasing(stream) && forall i :: 0 <= i < |stream| ==> stream[i].id <= lastId
    }

    constructor ()
      ensures Valid() && stream == [] && channel == [] && acked == {}
    {
      stream, lastId, acked, channel := [], 0, {}, [];
    }

    /** Appends unless Redis fails; trimming is approximate and keeps at least MAX_STREAM entries. */
    method XAdd(jti: string) returns (ok: bool)
      requires Valid()
      modifies this`stream, this`lastId
      ensures Valid()
      ensures !ok ==> stream == old(stream) && lastId == old(lastId)
      ensures ok ==> lastId == old(lastId) + 1
      ensures ok ==> Appended(old(stream), stream, Entry(lastId, Some(jti)))
    {
      ok := *;
      if !ok { return; }
      lastId := lastId + 1;
      var k := *;
      if k < 0 || k >= |stream| || |stream| + 1 - k < MAX_STREAM { k := 0; }
      stream := stream[k..] + [Entry(lastId, Some(jti))];
      assert stream[..|stream| - 1] == old(stream)[k..];
    }

    method Publish(jti: string)
      modifies this`channel
      ensures channel == old(channel) || channel == old(channel) + [jti]
    {
      var ok: bool := *;
      if ok { channel := channel + [jti]; }
    }

    method XAck(id: nat) returns (ok: bool)
      modifies this`acked
      ensures acked == if ok then old(acked) + {id} else old(acked)
    {
      ok := *;
      if ok { acked := acked + {id}; }
    }
  }

  class TokenRevocationManager {
    const redis: RedisClient
    const batchSize: nat
    var bloom: Bloom
    /** Every revoke_token call so far, in order. */
    ghost var requests: seq<Request>

    constructor (redis: RedisClient, bloom: Bloom)
      ensures this.redis == redis && this.bloom == bloom && batchSize == BATCH_SIZE && requests == []
    {
      this.redis, this.bloom, batchSize, requests := redis, bloom, BATCH_SIZE, [];
    }

    /** Adds the token ids of one page and remembers where it ended. */
    method AddPage(entries: seq<Entry>) returns (added: nat, lastId: nat)
      requires entries != []
      modifies this`bloom
      ensures bloom == AddAll(old(bloom), Jtis(entries))
      ensures added == |Jtis(entries)| && lastId == entries[|entries| - 1].id
    {
      ghost var start := bloom;
      added, lastId := 0, 0;
      for n := 0 to |entries|
        invariant bloom == AddAll(start, Jtis(entries[..n])) && added == |Jtis(entries[..n])|
        invariant n > 0 ==> lastId == entries[n - 1].id
      {
        JtisTake(start, entries, n);
        var e := entries[n];
        if e.jti.Some? && e.jti.value != "" {
          bloom := bloom.Add(e.jti.value);
          added := added + 1;
        }
        lastId := e.id;
      }
      assert entries[..|entries|] == entries;
    }

    /**
     Replays the stream page by page.  Whatever the page size, every entry is
     visited exactly once and in order, exactly the token ids present are added,
     and the entries carrying one are counted.
     */
    method LoadExistingRevocations() returns (count: nat, ghost visited: seq<Entry>)
      requires redis.Valid() && batchSize > 0
      modifies this`bloom
      ensures visited == redis.stream
      ensures bloom == AddAll(old(bloom), Jtis(redis.stream))
      ensures count == |Jtis(redis.stream)|
    {
      var stream := redis.stream;
      ghost var start := bloom;
      count, visited := 0, [];
      var cursor := From(0);
      while true
        invariant Replayed(start, stream, visited, cursor, bloom, count)
        decreases |stream| - |visited|
      {
        var entries := Range(stream, cursor, batchSize);
        NextPage(start, stream, visited, cursor, bloom, count, batchSize);
        if entries == [] {
          return;
        }
        var added, lastId := AddPage(entries);
        count := count + added;
        cursor := After(lastId);
        visited := visited + entries;
      }
    }

    /** Adds to the local filter first; the stream and the channel may fail. */
    method RevokeToken(jti: string, user: string, tenant: string) returns (streamOk: bool)
      requires redis.Valid()
      modifies this`bloom, this`requests, redis`stream, redis`lastId, redis`channel
      ensures redis.Valid()
      ensures bloom == old(bloom).Add(jti)
      ensures requests == old(requests) + [Request(jti, user, tenant)]
      ensures streamOk ==> Appended(old(redis.stream), redis.stream, Entry(redis.lastId, Some(jti)))
      ensures !streamOk ==> redis.stream == old(redis.stream)
      ensures redis.lastId == old(redis.lastId) + if streamOk then 1 else 0
      ensures redis.channel == old(redis.channel) || redis.channel == old(redis.channel) + [jti]
    {
      bloom := bloom.Add(jti);
      requests := requests + [Request(jti, user, tenant)];
      streamOk := redis.XAdd(jti);
      redis.Publish(jti);
    }

    /** Revokes in order; the count is how many entries reached the stream. */
    method RevokeUserTokens(user: string, tenant: string, jtis: seq<string>) returns (count: nat)
      requires redis.Valid()
      modifies this`bloom, this`requests, redis`stream, redis`lastId, redis`channel
      ensures redis.Valid() && count <= |jtis|
      ensures count == redis.lastId - old(redis.lastId)
      ensures bloom == AddAll(old(bloom), jtis)
      ensures requests == old(requests) + RequestsFor(user, tenant, jtis)
    {
      count := 0;
      for n := 0 to |jtis|
        invariant redis.Valid() && count <= n
        invariant count == redis.lastId - old(redis.lastId)
        invariant bloom == AddAll(old(bloom), jtis[..n])
        invariant requests == old(requests) + RequestsFor(user, tenant, jtis[..n])
      {
        assert jtis[..n + 1][..n] == jtis[..n];
        assert RequestsFor(user, tenant, jtis[..n + 1]) ==
               RequestsFor(user, tenant, jtis[..n]) + [Request(jtis[n], user, tenant)];
        var ok := RevokeToken(jtis[n], user, tenant);
        if ok { count := count + 1; }
      }
      assert jtis[..|jtis|] == jtis;
    }

    predicate IsRevoked(jti: string)
      reads this
    {
      bloom.Contains(jti)
    }

    /**
     One delivery of the consumer loop.  Each entry is added before it is
     acknowledged; a failing acknowledgement abandons the rest of the delivery.
     */
    method ConsumeMessages(messages: seq<Entry>) returns (acknowledged: nat)
      modifies this`bloom, redis`acked
      ensures acknowledged <= |messages|
      ensures bloom == AddAll(old(bloom), Jtis(messages[..Handled(messages, acknowledged)]))
      ensures redis.acked == old(redis.acked) + EntryIds(messages[..acknowledged])
    {
      ghost var start, acked := bloom, redis.acked;
      acknowledged := 0;
      while acknowledged < |messages|
        invariant acknowledged <= |messages|
        invariant bloom == AddAll(start, Jtis(messages[..acknowledged]))
        invariant redis.acked == acked + EntryIds(messages[..acknowledged])
      {
        var e := messages[acknowledged];
        JtisTake(start, messages, acknowledged);
        IdsTake(messages, acknowledged);
        if e.jti.Some? && e.jti.value != "" {
          bloom := bloom.Add(e.jti.value);
        }
        var ok := redis.XAck(e.id);
        if !ok {
          return;
        }
        acknowledged := acknowledged + 1;
      }
    }

    /** A message from the channel. */
    method ReceiveMessage(jti: Option<string>)
      modifies this`bloom
      ensures jti.Some? && jti.value != "" ==> bloom.Contains(jti.value)
      ensures bloom == if jti.Some? && jti.value != "" && !old(bloom).Contains(jti.value)
                       then old(bloom).Add(jti.value) else old(bloom)
    {
      if jti.Some? && jti.value != "" && !bloom.Contains(jti.value) {
        bloom := bloom.Add(jti.value);
      }
    }
  }

  function RequestsFor(user: string, tenant: string, jtis: seq<string>): seq<Request> {
    seq(|jtis|, i requires 0 <= i < |jtis| => Request(jtis[i], user, tenant))
  }

  /** A token without an id is refused in any case; one with an id passes exactly when it has a bit that is not set. */
  lemma AcceptsIff(bloom: Bloom, jti: Option<string>)
    ensures Accepts(bloom, jti) <==>
            jti != None && jti != Some("") && exists b :: b in bloom.hash(jti.value) && b !in bloom.bits
  {}

  /** After a restart, the replayed filter rejects every token id still in the stream. */
  lemma ReplayRejects(hash: string -> set<nat>, stream: seq<Entry>, i: nat)
    requires i < |stream|
    ensures !Accepts(AddAll(Bloom(hash, {}), Jtis(stream)), stream[i].jti)
  {
    if Carries(stream[i]) { AddedFrom(Bloom(hash, {}), stream, i); }
  }

  /** A filter only answers for bits that some added item set. */
  lemma {:induction false} BitsComeFromItems(hash: string -> set<nat>, items: seq<string>, b: nat)
    ensures b in AddAll(Bloom(hash, {}), items).bits <==> exists i :: 0 <= i < |items| && b in hash(items[i])
  {
    if items != [] {
      var last := |items| - 1;
      BitsComeFromItems(hash, items[..last], b);
      NoFalseNegatives(Bloom(hash, {}), items[..last], "");
      if i :| 0 <= i < |items| && b in hash(items[i]) && i < last {
        assert items[..last][i] == items[i];
      }
    }
  }
}

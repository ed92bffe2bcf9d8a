/**
 Any number of processes sharing one keyset file: each ensure_ready call is cut
 into the steps between which another process can act, so every interleaving of
 loading, locking, rotating, signing and decoding is a run of this machine.

 Source: app/core/signing_keys.py.  A run is a sequence of events; an event that
 is not enabled leaves the state unchanged.
 */
module KeyRotation {
  import opened Common
  import opened SigningKeys

  /** A lock file older than this many seconds is taken for abandoned. */
  const STALE_AFTER := 30

  datatype Goal = First | Rotation

  /** Where a process stands in ensure_ready. */
  datatype Pc =
    | Idle
    | CheckAge
    | WantLock(goal: Goal)
    | SawLock(goal: Goal)
    | Breaking(goal: Goal)
    | Locked(goal: Goal)
    | Minting(goal: Goal)
    | Pruning(key: Key)
    | Writing(goal: Goal, next: Keyset)
    | Unlocking(goal: Goal)
    | Returning

  /**
   `version` is the modification time of the cached keyset: 0 when nothing is
   cached, otherwise a position in the history of keysets written so far.
   `lockedAt`, `checkedAt` and `seen` are bookkeeping for the proofs: when the lock
   was taken, when the age check was last passed, and how many tokens had been
   signed when the current ensure_ready call began.
   */
  datatype Proc = Proc(pc: Pc, version: nat, lastCheck: int, epoch: nat,
                       lockedAt: int, checkedAt: int, seen: nat)

  datatype Lock = Lock(owner: nat, since: int)

  /** A signed token, with the version it was signed under and the times involved. */
  datatype Signed = Signed(token: Token, created: int, version: nat, readyAt: int, at: int)

  /** A completed ensure_ready call: its holder may go on to use the cached keyset. */
  datatype Ticket = Ticket(proc: nat, epoch: nat, at: int, seen: nat)

  /** `disk` is every keyset written so far, newest last; `minted[kid]` is a key's creation time. */
  datatype State = State(clock: int, disk: seq<Keyset>, minted: seq<int>, lock: Option<Lock>,
                         procs: seq<Proc>, tokens: seq<Signed>, tickets: seq<Ticket>)

  datatype Event =
    | Tick(seconds: nat)
    | Begin(p: nat)
    | Check(p: nat)
    | TryLock(p: nat)
    | Inspect(p: nat)
    | GiveUp(p: nat)
    | Break(p: nat)
    | Recheck(p: nat)
    | Mint(p: nat)
    | Trim(p: nat)
    | Write(p: nat)
    | Unlock(p: nat)
    | Finish(p: nat)
    | Sign(ticket: nat, payload: string, exp: int)
    | Restart(p: nat)

  function Start(clock: int, n: nat): State {
    State(clock, [], [], None, seq(n, _ => Proc(Idle, 0, 0, 0, clock, clock, 0)), [], [])
  }

  predicate Cached(s: State, p: nat) {
    p < |s.procs| && 0 < s.procs[p].version <= |s.disk|
  }

  function CachedKeyset(s: State, p: nat): Keyset
    requires Cached(s, p)
  {
    s.disk[s.procs[p].version - 1]
  }

  function SetPc(s: State, p: nat, pc: Pc): State
    requires p < |s.procs|
  {
    s.(procs := s.procs[p := s.procs[p].(pc := pc)])
  }

  /** Reads the file: the cached keyset becomes the newest one written. */
  function LoadInto(s: State, p: nat, pc: Pc): State
    requires p < |s.procs|
  {
    s.(procs := s.procs[p := s.procs[p].(version := |s.disk|, pc := pc)])
  }

  /** A new ensure_ready call; the file's existence, time and content are read at once. */
  function DoBegin(s: State, p: nat): State
    requires p < |s.procs|
  {
    var t := s.(procs := s.procs[p := s.procs[p].(seen := |s.tokens|)]);
    if s.disk == [] then SetPc(t, p, WantLock(First)) else LoadInto(t, p, CheckAge)
  }

  /** The age test outside the lock, at most once per check interval. */
  function DoCheck(cfg: Config, s: State, p: nat): State
    requires Cached(s, p)
  {
    var proc := s.procs[p];
    var skip := !Rotating(cfg) || s.clock - proc.lastCheck < cfg.checkEvery;
    var proc' := if skip then proc else proc.(lastCheck := s.clock);
    var active := ActiveKey(CachedKeyset(s, p));
    var pc := if skip then Returning
              else if active.None? then Idle
              else if Due(cfg, active.value, s.clock) then WantLock(Rotation)
              else Returning;
    s.(procs := s.procs[p := proc'.(pc := pc, checkedAt := s.clock)])
  }

  /** Exclusive creation of the lock file. */
  function DoTryLock(s: State, p: nat): State
    requires p < |s.procs| && s.procs[p].pc.WantLock?
  {
    var goal := s.procs[p].pc.goal;
    if s.lock.Some? then SetPc(s, p, SawLock(goal))
    else s.(lock := Some(Lock(p, s.clock)),
            procs := s.procs[p := s.procs[p].(pc := Locked(goal), lockedAt := s.clock)])
  }

  /** Looks at the age of the lock file that was in the way. */
  function DoInspect(s: State, p: nat): State
    requires p < |s.procs| && s.procs[p].pc.SawLock?
  {
    var goal := s.procs[p].pc.goal;
    if s.lock.Some? && s.clock - s.lock.value.since > STALE_AFTER
    then SetPc(s, p, Breaking(goal))
    else SetPc(s, p, WantLock(goal))
  }

  /** The test repeated under the lock, on what the file holds now. */
  function DoRecheck(cfg: Config, s: State, p: nat): State
    requires p < |s.procs| && s.procs[p].pc.Locked?
  {
    match s.procs[p].pc.goal
    case First =>
      if s.disk == [] then SetPc(s, p, Minting(First)) else LoadInto(s, p, Unlocking(First))
    case Rotation =>
      if s.disk == [] then SetPc(s, p, Unlocking(Rotation))
      else
        var active := ActiveKey(s.disk[|s.disk| - 1]);
        LoadInto(s, p, if active.Some? && Due(cfg, active.value, s.clock)
                       then Minting(Rotation) else Unlocking(Rotation))
  }

  function DoMint(s: State, p: nat): State
    requires p < |s.procs| && s.procs[p].pc.Minting?
  {
    var key := Key(|s.minted|, s.clock);
    var pc := if s.procs[p].pc.goal == First then Writing(First, Initial(key)) else Pruning(key);
    SetPc(s.(minted := s.minted + [s.clock]), p, pc)
  }

  function DoTrim(cfg: Config, s: State, p: nat): State
    requires Cached(s, p) && s.procs[p].pc.Pruning?
  {
    SetPc(s, p, Writing(Rotation, Rotated(cfg, CachedKeyset(s, p), s.procs[p].pc.key, s.clock)))
  }

  function DoWrite(s: State, p: nat): State
    requires p < |s.procs| && s.procs[p].pc.Writing?
  {
    var pc := s.procs[p].pc;
    LoadInto(s.(disk := s.disk + [pc.next]), p, Unlocking(pc.goal))
  }

  /** Leaving the lock removes the lock file, whoever created it. */
  function DoUnlock(s: State, p: nat): State
    requires p < |s.procs| && s.procs[p].pc.Unlocking?
  {
    SetPc(s.(lock := None), p, if s.procs[p].pc.goal == First then CheckAge else Returning)
  }

  function DoFinish(s: State, p: nat): State
    requires p < |s.procs|
  {
    var proc := s.procs[p];
    SetPc(s, p, Idle).(tickets := s.tickets + [Ticket(p, proc.epoch, proc.checkedAt, proc.seen)])
  }

  /** A ticket is usable while its process lives and no ensure_ready call holds the process lock. */
  predicate Usable(s: State, t: nat) {
    t < |s.tickets| && Cached(s, s.tickets[t].proc) &&
    s.procs[s.tickets[t].proc].pc.Idle? && s.procs[s.tickets[t].proc].epoch == s.tickets[t].epoch
  }

  function DoSign(s: State, t: nat, payload: string, exp: int): State
    requires Usable(s, t)
  {
    var tk := s.tickets[t];
    match ActiveKey(CachedKeyset(s, tk.proc))
    case None => s
    case Some(key) =>
      s.(tokens := s.tokens + [Signed(Token(Some(key.kid), key.kid, payload, exp), key.created,
                                      s.procs[tk.proc].version, tk.at, s.clock)])
  }

  /** What decode_token answers through a usable ticket. */
  function Decode(s: State, t: nat, token: Token): Result<string, Error>
    requires Usable(s, t)
  {
    DecodeWith(Candidates(CachedKeyset(s, s.tickets[t].proc), token.kid), token, s.clock)
  }

  function Step(cfg: Config, s: State, e: Event): State {
    match e
    case Tick(d) => s.(clock := s.clock + d)
    case Begin(p) => if p < |s.procs| && s.procs[p].pc.Idle? then DoBegin(s, p) else s
    case Check(p) => if Cached(s, p) && s.procs[p].pc.CheckAge? then DoCheck(cfg, s, p) else s
    case TryLock(p) => if p < |s.procs| && s.procs[p].pc.WantLock? then DoTryLock(s, p) else s
    case Inspect(p) => if p < |s.procs| && s.procs[p].pc.SawLock? then DoInspect(s, p) else s
    case GiveUp(p) => if p < |s.procs| && s.procs[p].pc.SawLock? then SetPc(s, p, Idle) else s
    case Break(p) =>
      if p < |s.procs| && s.procs[p].pc.Breaking?
      then SetPc(s.(lock := None), p, WantLock(s.procs[p].pc.goal)) else s
    case Recheck(p) => if p < |s.procs| && s.procs[p].pc.Locked? then DoRecheck(cfg, s, p) else s
    case Mint(p) => if p < |s.procs| && s.procs[p].pc.Minting? then DoMint(s, p) else s
    case Trim(p) => if Cached(s, p) && s.procs[p].pc.Pruning? then DoTrim(cfg, s, p) else s
    case Write(p) => if p < |s.procs| && s.procs[p].pc.Writing? then DoWrite(s, p) else s
    case Unlock(p) => if p < |s.procs| && s.procs[p].pc.Unlocking? then DoUnlock(s, p) else s
    case Finish(p) => if p < |s.procs| && s.procs[p].pc.Returning? then DoFinish(s, p) else s
    case Sign(t, payload, exp) => if Usable(s, t) then DoSign(s, t, payload, exp) else s
    case Restart(p) =>
      if p < |s.procs| && s.procs[p].pc.Idle?
      then s.(procs := s.procs[p := Proc(Idle, 0, 0, s.procs[p].epoch + 1, s.clock, s.clock, 0)]) else s
  }

  function Run(cfg: Config, s: State, events: seq<Event>): State
    decreases |events|
  {
    if events == [] then s else Run(cfg, Step(cfg, s, events[0]), events[1..])
  }

  predicate Holding(pc: Pc) {
    pc.Locked? || pc.Minting? || pc.Pruning? || pc.Writing? || pc.Unlocking?
  }

  /** At most one process is between taking and leaving the file lock. */
  predicate MutualExclusion(s: State) {
    forall p, q :: 0 <= p < q < |s.procs| && Holding(s.procs[p].pc) ==> !Holding(s.procs[q].pc)
  }

  /** Time does not pass the stale limit while a process holds the lock. */
  predicate PromptStep(s: State, e: Event) {
    e.Tick? ==> forall p :: 0 <= p < |s.procs| && Holding(s.procs[p].pc) ==>
                  s.clock + e.seconds - s.procs[p].lockedAt <= STALE_AFTER
  }

  predicate Prompt(cfg: Config, s: State, events: seq<Event>)
    decreases |events|
  {
    events == [] || (PromptStep(s, events[0]) && Prompt(cfg, Step(cfg, s, events[0]), events[1..]))
  }

  /*** The invariant ***/

  function Newest(ks: Keyset): Key
    requires ks.keys != []
  {
    ks.keys[|ks.keys| - 1]
  }

  /** The lock file belongs to the one process inside the critical section, and is young. */
  ghost predicate LockInv(s: State) {
    (forall p :: 0 <= p < |s.procs| ==>
      !s.procs[p].pc.Breaking? &&
      (Holding(s.procs[p].pc) ==>
        s.lock == Some(Lock(p, s.procs[p].lockedAt)) && s.clock - s.procs[p].lockedAt <= STALE_AFTER)) &&
    (s.lock.Some? ==>
      var l := s.lock.value;
      l.owner < |s.procs| && Holding(s.procs[l.owner].pc) && s.procs[l.owner].lockedAt == l.since)
  }

  ghost predicate RealKey(minted: seq<int>, clock: int, k: Key) {
    k.kid < |minted| && minted[k.kid] == k.created && k.created <= clock
  }

  /** A keyset is nonempty, in creation order, ends in its active key, and spans at most the retention. */
  ghost predicate Sound(cfg: Config, minted: seq<int>, clock: int, ks: Keyset) {
    ks.keys != [] && Ordered(cfg, ks.keys) && ks.active == Newest(ks).kid &&
    (forall i :: 0 <= i < |ks.keys| ==> RealKey(minted, clock, ks.keys[i])) &&
    Newest(ks).created - ks.keys[0].created <= Kept(cfg)
  }

  /** The key is still in the keyset, or its retention is over. */
  ghost predicate Survives(cfg: Config, clock: int, k: Key, ks: Keyset) {
    k in ks.keys || k.created + Kept(cfg) < clock
  }

  ghost predicate AddsOnlyNewest(before: Keyset, after: Keyset) {
    after.keys != [] && forall k :: k in after.keys ==> k in before.keys || k == Newest(after)
  }

  ghost predicate AllSurvive(cfg: Config, clock: int, before: Keyset, after: Keyset) {
    forall k :: k in before.keys ==> Survives(cfg, clock, k, after)
  }

  /** The newest key of `after` is at least one interval younger. */
  ghost predicate Younger(cfg: Config, before: Keyset, after: Keyset) {
    before.keys != [] && after.keys != [] &&
    Newest(before).created + cfg.interval <= Newest(after).created &&
    Newest(before).created < Newest(after).created
  }

  ghost predicate Succeeds(cfg: Config, clock: int, before: Keyset, after: Keyset) {
    Younger(cfg, before, after) && AllSurvive(cfg, clock, before, after) && AddsOnlyNewest(before, after)
  }

  ghost predicate DiskInv(cfg: Config, s: State) {
    (forall i :: 0 <= i < |s.disk| ==> Sound(cfg, s.minted, s.clock, s.disk[i])) &&
    (forall i, j :: 0 <= i <= j < |s.disk| ==> AllSurvive(cfg, s.clock, s.disk[i], s.disk[j])) &&
    (forall i, j :: 0 <= i < j < |s.disk| ==> Younger(cfg, s.disk[i], s.disk[j])) &&
    (forall i, j :: 0 <= i < j < |s.disk| && j == i + 1 ==> AddsOnlyNewest(s.disk[i], s.disk[j])) &&
    (s.disk != [] ==> |s.disk[0].keys| == 1) &&
    (|s.disk| > 1 ==> Rotating(cfg))
  }

  ghost predicate Fresh(s: State, k: Key) {
    RealKey(s.minted, s.clock, k) && forall i, x :: 0 <= i < |s.disk| && x in s.disk[i].keys ==> x.kid < k.kid
  }

  /** What a process inside the critical section knows about the file. */
  ghost predicate SectionInv(cfg: Config, s: State, proc: Proc) {
    match proc.pc
    case WantLock(Rotation) => Rotating(cfg)
    case SawLock(Rotation) => Rotating(cfg)
    case Locked(Rotation) => Rotating(cfg)
    case Minting(First) => s.disk == []
    case Writing(First, next) => s.disk == [] && Sound(cfg, s.minted, s.clock, next) && |next.keys| == 1
    case Minting(Rotation) =>
      proc.version == |s.disk| && Rotating(cfg) && s.disk != [] && s.disk[|s.disk| - 1].keys != [] &&
      Due(cfg, Newest(s.disk[|s.disk| - 1]), s.clock)
    case Pruning(key) =>
      proc.version == |s.disk| && Rotating(cfg) && s.disk != [] && s.disk[|s.disk| - 1].keys != [] &&
      Fresh(s, key) && Newest(s.disk[|s.disk| - 1]).created + cfg.interval <= key.created
    case Writing(Rotation, next) =>
      Rotating(cfg) && s.disk != [] && s.disk[|s.disk| - 1].keys != [] &&
      Sound(cfg, s.minted, s.clock, next) && Succeeds(cfg, s.clock, s.disk[|s.disk| - 1], next)
    case _ => true
  }

  ghost predicate ForRotation(pc: Pc) {
    pc.CheckAge? || pc.Returning? ||
    ((pc.WantLock? || pc.SawLock? || pc.Locked? || pc.Minting? || pc.Writing?) && pc.goal == Rotation) ||
    pc.Pruning? || pc.Unlocking?
  }

  ghost predicate ProcInv(cfg: Config, s: State, proc: Proc) {
    proc.version <= |s.disk| && proc.lastCheck <= s.clock &&
    SectionInv(cfg, s, proc) &&
    (ForRotation(proc.pc) ==> proc.version > 0) &&
    proc.seen <= |s.tokens| &&
    (forall t :: 0 <= t < proc.seen ==> s.tokens[t].version <= proc.version)
  }

  ghost predicate ProcsInv(cfg: Config, s: State) {
    forall p :: 0 <= p < |s.procs| ==> ProcInv(cfg, s, s.procs[p])
  }

  /** A token names the key that signed it, which was on disk when it was used. */
  ghost predicate TokenInv(s: State, x: Signed) {
    0 < x.version <= |s.disk| && x.token.kid == Some(x.token.signer) &&
    Key(x.token.signer, x.created) in s.disk[x.version - 1].keys && x.at <= s.clock
  }

  /** The cached keyset of a ticket's process is no older than any token signed before the ticket. */
  ghost predicate TicketInv(s: State, tk: Ticket) {
    tk.proc < |s.procs| && tk.seen <= |s.tokens| && tk.epoch <= s.procs[tk.proc].epoch &&
    (tk.epoch == s.procs[tk.proc].epoch ==>
      s.procs[tk.proc].version > 0 &&
      forall t :: 0 <= t < tk.seen ==> s.tokens[t].version <= s.procs[tk.proc].version)
  }

  ghost predicate Inv(cfg: Config, s: State) {
    LockInv(s) && DiskInv(cfg, s) && ProcsInv(cfg, s) && TokensInv(s) && TicketsInv(s)
  }

  /*** Preservation ***/

  /** In a sound keyset the active key is the newest one. */
  lemma {:induction false} ActiveIsNewest(cfg: Config, minted: seq<int>, clock: int, ks: Keyset)
    requires Sound(cfg, minted, clock, ks)
    ensures ActiveKey(ks) == Some(Newest(ks))
  {
    FindLast(ks.keys);
  }

  lemma {:induction false} FindLast(keys: seq<Key>)
    requires keys != [] && forall i, j :: 0 <= i < j < |keys| ==> keys[i].kid < keys[j].kid
    ensures FindKid(keys, keys[|keys| - 1].kid) == Some(keys[|keys| - 1])
  {
    if |keys| > 1 { FindLast(keys[1..]); }
  }

  /** The later state keeps the keysets, and time, minted keys and tokens only grow. */
  ghost predicate Later(s: State, s': State) {
    s'.disk == s.disk && s.clock <= s'.clock && s.minted <= s'.minted && s.tokens <= s'.tokens
  }

  lemma DiskInvLater(cfg: Config, s: State, s': State)
    requires DiskInv(cfg, s) && Later(s, s')
    ensures DiskInv(cfg, s')
  {}

  lemma ProcInvLater(cfg: Config, s: State, s': State, proc: Proc)
    requires ProcInv(cfg, s, proc) && Later(s, s')
    ensures ProcInv(cfg, s', proc)
  {}

  ghost predicate TokensInv(s: State) {
    forall t :: 0 <= t < |s.tokens| ==> TokenInv(s, s.tokens[t])
  }

  ghost predicate TicketsInv(s: State) {
    forall t :: 0 <= t < |s.tickets| ==> TicketInv(s, s.tickets[t])
  }

  lemma TokensInvLater(s: State, s': State)
    requires TokensInv(s) && s'.tokens == s.tokens && s.disk <= s'.disk && s.clock <= s'.clock
    ensures TokensInv(s')
  {}

  lemma TicketsInvLater(s: State, s': State)
    requires TicketsInv(s) && s'.tickets == s.tickets && s.tokens <= s'.tokens && |s.procs| == |s'.procs|
    requires forall q :: 0 <= q < |s.procs| ==>
               s'.procs[q].version >= s.procs[q].version && s'.procs[q].epoch == s.procs[q].epoch
    ensures TicketsInv(s')
  {}

  /** A step of one process that leaves the file and the other processes alone. */
  lemma OneProcess(cfg: Config, s: State, s': State, p: nat, np: Proc)
    requires Inv(cfg, s) && p < |s.procs| && LockInv(s')
    requires s' == s.(procs := s.procs[p := np], lock := s'.lock, minted := s'.minted) && s.minted <= s'.minted
    requires ProcInv(cfg, s', np) && np.version >= s.procs[p].version && np.epoch == s.procs[p].epoch
    ensures Inv(cfg, s')
  {
    DiskInvLater(cfg, s, s');
    TokensInvLater(s, s');
    TicketsInvLater(s, s');
    forall q | 0 <= q < |s'.procs| ensures ProcInv(cfg, s', s'.procs[q]) {
      if q != p { ProcInvLater(cfg, s, s', s.procs[q]); }
    }
  }

  /** The lock invariant is untouched while a process stays on its side of the lock. */
  lemma SameSide(s: State, s': State, p: nat)
    requires LockInv(s) && p < |s.procs| == |s'.procs| && s'.lock == s.lock && s'.clock == s.clock
    requires forall q :: 0 <= q < |s.procs| && q != p ==> s'.procs[q] == s.procs[q]
    requires Holding(s'.procs[p].pc) == Holding(s.procs[p].pc) && !s'.procs[p].pc.Breaking?
    requires s'.procs[p].lockedAt == s.procs[p].lockedAt
    ensures LockInv(s')
  {}

  lemma TickKeepsLock(s: State, d: nat)
    requires LockInv(s) && PromptStep(s, Tick(d))
    ensures LockInv(s.(clock := s.clock + d))
  {}

  lemma ProcsInvLater(cfg: Config, s: State, s': State)
    requires ProcsInv(cfg, s) && Later(s, s') && s'.procs == s.procs
    ensures ProcsInv(cfg, s')
  {}

  lemma TickKeepsInv(cfg: Config, s: State, d: nat)
    requires Inv(cfg, s) && PromptStep(s, Tick(d))
    ensures Inv(cfg, s.(clock := s.clock + d))
  {
    TickKeepsLock(s, d);
    LaterKeepsRest(cfg, s, s.(clock := s.clock + d));
    Together(cfg, s.(clock := s.clock + d));
  }

  lemma Together(cfg: Config, s: State)
    requires LockInv(s) && DiskInv(cfg, s) && ProcsInv(cfg, s) && TokensInv(s) && TicketsInv(s)
    ensures Inv(cfg, s)
  {}

  lemma LaterKeepsRest(cfg: Config, s: State, s': State)
    requires DiskInv(cfg, s) && ProcsInv(cfg, s) && TokensInv(s) && TicketsInv(s)
    requires Later(s, s') && s'.procs == s.procs && s'.tokens == s.tokens && s'.tickets == s.tickets
    ensures DiskInv(cfg, s') && ProcsInv(cfg, s') && TokensInv(s') && TicketsInv(s')
  {
    DiskInvLater(cfg, s, s');
    ProcsInvLater(cfg, s, s');
    TokensInvLater(s, s');
    TicketsInvLater(s, s');
  }

  lemma BeginKeepsInv(cfg: Config, s: State, p: nat)
    requires Inv(cfg, s)
    ensures Inv(cfg, Step(cfg, s, Begin(p)))
  {
    if p < |s.procs| && s.procs[p].pc.Idle? {
      var s' := DoBegin(s, p);
      assert ProcInv(cfg, s, s.procs[p]);
      forall t | 0 <= t < |s.tokens| ensures s.tokens[t].version <= |s.disk| { assert TokenInv(s, s.tokens[t]); }
      SameSide(s, s', p);
      OneProcess(cfg, s, s', p, s'.procs[p]);
    }
  }

  lemma CheckKeepsInv(cfg: Config, s: State, p: nat)
    requires Inv(cfg, s)
    ensures Inv(cfg, Step(cfg, s, Check(p)))
  {
    if Cached(s, p) && s.procs[p].pc.CheckAge? {
      var s' := DoCheck(cfg, s, p);
      assert ProcInv(cfg, s, s.procs[p]);
      SameSide(s, s', p);
      OneProcess(cfg, s, s', p, s'.procs[p]);
    }
  }

  lemma TryLockKeepsInv(cfg: Config, s: State, p: nat)
    requires Inv(cfg, s)
    ensures Inv(cfg, Step(cfg, s, TryLock(p)))
  {
    if p < |s.procs| && s.procs[p].pc.WantLock? {
      var s' := DoTryLock(s, p);
      assert ProcInv(cfg, s, s.procs[p]);
      if s.lock.Some? { SameSide(s, s', p); }
      OneProcess(cfg, s, s', p, s'.procs[p]);
    }
  }

  /** A lock file that is in the way is never old enough to be broken. */
  lemma InspectKeepsInv(cfg: Config, s: State, p: nat)
    requires Inv(cfg, s)
    ensures Inv(cfg, Step(cfg, s, Inspect(p)))
  {
    if p < |s.procs| && s.procs[p].pc.SawLock? {
      assert ProcInv(cfg, s, s.procs[p]);
      var s' := DoInspect(s, p);
      SameSide(s, s', p);
      OneProcess(cfg, s, s', p, s'.procs[p]);
    }
  }

  lemma GiveUpKeepsInv(cfg: Config, s: State, p: nat)
    requires Inv(cfg, s)
    ensures Inv(cfg, Step(cfg, s, GiveUp(p)))
  {
    if p < |s.procs| && s.procs[p].pc.SawLock? {
      assert ProcInv(cfg, s, s.procs[p]);
      var s' := SetPc(s, p, Idle);
      SameSide(s, s', p);
      OneProcess(cfg, s, s', p, s'.procs[p]);
    }
  }

  lemma RecheckKeepsInv(cfg: Config, s: State, p: nat)
    requires Inv(cfg, s)
    ensures Inv(cfg, Step(cfg, s, Recheck(p)))
  {
    if p < |s.procs| && s.procs[p].pc.Locked? {
      var s' := DoRecheck(cfg, s, p);
      assert ProcInv(cfg, s, s.procs[p]);
      if s.disk != [] {
        ActiveIsNewest(cfg, s.minted, s.clock, s.disk[|s.disk| - 1]);
      }
      SameSide(s, s', p);
      OneProcess(cfg, s, s', p, s'.procs[p]);
    }
  }

  lemma MintKeepsInv(cfg: Config, s: State, p: nat)
    requires Inv(cfg, s)
    ensures Inv(cfg, Step(cfg, s, Mint(p)))
  {
    if p < |s.procs| && s.procs[p].pc.Minting? {
      var s' := DoMint(s, p);
      assert ProcInv(cfg, s, s.procs[p]);
      var key := Key(|s.minted|, s.clock);
      assert RealKey(s'.minted, s'.clock, key);
      assert Fresh(s', key) by {
        forall i, x | 0 <= i < |s'.disk| && x in s'.disk[i].keys ensures x.kid < key.kid {
          assert Sound(cfg, s.minted, s.clock, s.disk[i]);
          var n :| 0 <= n < |s.disk[i].keys| && s.disk[i].keys[n] == x;
          assert RealKey(s.minted, s.clock, s.disk[i].keys[n]);
        }
      }
      SameSide(s, s', p);
      OneProcess(cfg, s, s', p, s'.procs[p]);
    }
  }

  lemma AppendOrdered(cfg: Config, ks: Keyset, key: Key)
    requires ks.keys != [] && Ordered(cfg, ks.keys) && cfg.interval > 0
    requires Newest(ks).created + cfg.interval <= key.created && Newest(ks).kid < key.kid
    ensures Ordered(cfg, ks.keys + [key])
  {}

  lemma SuffixSucceeds(cfg: Config, clock: int, ks: Keyset, key: Key, k: nat, next: Keyset)
    requires ks.keys != [] && cfg.interval > 0 && Newest(ks).created + cfg.interval <= key.created
    requires k <= |ks.keys| && next.keys == (ks.keys + [key])[k..]
    requires forall i :: 0 <= i < k ==> ks.keys[i].created < clock - Kept(cfg)
    ensures Succeeds(cfg, clock, ks, next)
  {
    assert Newest(next) == key;
    forall x | x in ks.keys ensures Survives(cfg, clock, x, next) {
      var i :| 0 <= i < |ks.keys| && ks.keys[i] == x;
      if k <= i { assert next.keys[i - k] == x; }
    }
    forall x | x in next.keys ensures x in ks.keys || x == key {
      var i :| 0 <= i < |next.keys| && next.keys[i] == x;
      assert x == (ks.keys + [key])[k + i];
    }
  }

  lemma SuffixSound(cfg: Config, minted: seq<int>, clock: int, keys: seq<Key>, k: nat, next: Keyset)
    requires k < |keys| && Ordered(cfg, keys) && next == Keyset(keys[|keys| - 1].kid, keys[k..])
    requires forall i :: 0 <= i < |keys| ==> RealKey(minted, clock, keys[i])
    requires k < |keys| - 1 ==> keys[k].created >= clock - Kept(cfg)
    ensures Sound(cfg, minted, clock, next)
  {}

  lemma AppendReal(minted: seq<int>, clock: int, keys: seq<Key>, key: Key)
    requires RealKey(minted, clock, key) && forall i :: 0 <= i < |keys| ==> RealKey(minted, clock, keys[i])
    ensures forall i :: 0 <= i < |keys + [key]| ==> RealKey(minted, clock, (keys + [key])[i])
  {}

  lemma RotatedIsSound(cfg: Config, minted: seq<int>, clock: int, ks: Keyset, key: Key)
    requires Sound(cfg, minted, clock, ks) && RealKey(minted, clock, key) && cfg.interval > 0
    requires Newest(ks).created + cfg.interval <= key.created && Newest(ks).kid < key.kid
    ensures Sound(cfg, minted, clock, Rotated(cfg, ks, key, clock))
  {
    var k := RotatedIsSuffix(cfg, ks, key, clock);
    AppendOrdered(cfg, ks, key);
    AppendReal(minted, clock, ks.keys, key);
    SuffixSound(cfg, minted, clock, ks.keys + [key], k, Rotated(cfg, ks, key, clock));
  }

  lemma RotatedKeeps(cfg: Config, ks: Keyset, key: Key, clock: int)
    requires forall k :: k in ks.keys ==> k.kid != key.kid
    ensures var next := Rotated(cfg, ks, key, clock);
            (forall k :: k in next.keys && k != key ==>
              k in ks.keys && (k.created >= clock || k.created + cfg.retention >= clock)) &&
            (forall k :: k in ks.keys && k !in next.keys ==> k.created < clock && k.created + cfg.retention < clock)
  {
    forall k
      ensures k in Rotated(cfg, ks, key, clock).keys <==>
              k in ks.keys + [key] && (k.kid == key.kid || k.created >= clock || k.created + cfg.retention >= clock)
    {
      PruneKeeps(cfg, ks.keys + [key], key.kid, clock, k);
    }
  }

  /** What a rotation writes is a sound successor of what it loaded. */
  lemma RotatedSucceeds(cfg: Config, minted: seq<int>, clock: int, ks: Keyset, key: Key)
    requires Sound(cfg, minted, clock, ks) && RealKey(minted, clock, key) && cfg.interval > 0
    requires Newest(ks).created + cfg.interval <= key.created && Newest(ks).kid < key.kid
    ensures Rotated(cfg, ks, key, clock).keys != [] && Newest(Rotated(cfg, ks, key, clock)) == key
    ensures Sound(cfg, minted, clock, Rotated(cfg, ks, key, clock))
    ensures Succeeds(cfg, clock, ks, Rotated(cfg, ks, key, clock))
    ensures var next := Rotated(cfg, ks, key, clock);
            (forall k :: k in next.keys && k != key ==>
              k in ks.keys && (k.created >= clock || k.created + cfg.retention >= clock)) &&
            (forall k :: k in ks.keys && k !in next.keys ==> k.created < clock && k.created + cfg.retention < clock)
  {
    forall k | k in ks.keys ensures k.kid != key.kid {
      var i :| 0 <= i < |ks.keys| && ks.keys[i] == k;
      if i < |ks.keys| - 1 { assert ks.keys[i].kid < Newest(ks).kid; }
    }
    RotatedKeeps(cfg, ks, key, clock);
    RotatedIsSound(cfg, minted, clock, ks, key);
    var k := RotatedIsSuffix(cfg, ks, key, clock);
    SuffixSucceeds(cfg, clock, ks, key, k, Rotated(cfg, ks, key, clock));
  }

  lemma RotatedIsSuffix(cfg: Config, ks: Keyset, key: Key, clock: int) returns (k: nat)
    requires ks.keys != [] && Ordered(cfg, ks.keys) && cfg.interval > 0
    requires Newest(ks).created + cfg.interval <= key.created && Newest(ks).kid < key.kid
    ensures k <= |ks.keys| && Rotated(cfg, ks, key, clock) == Keyset(key.kid, (ks.keys + [key])[k..])
    ensures forall i :: 0 <= i < k ==> ks.keys[i].created < clock - Kept(cfg)
    ensures k < |ks.keys| ==> (ks.keys + [key])[k].created >= clock - Kept(cfg)
  {
    var keys := ks.keys + [key];
    AppendOrdered(cfg, ks, key);
    k := PruneDropsPrefix(cfg, keys, key.kid, clock);
    forall i | 0 <= i < k ensures ks.keys[i].created < clock - Kept(cfg) { assert keys[i] == ks.keys[i]; }
  }

  lemma TrimKeepsInv(cfg: Config, s: State, p: nat)
    requires Inv(cfg, s)
    ensures Inv(cfg, Step(cfg, s, Trim(p)))
  {
    if Cached(s, p) && s.procs[p].pc.Pruning? {
      var s' := DoTrim(cfg, s, p);
      var ks, key := CachedKeyset(s, p), s.procs[p].pc.key;
      assert ProcInv(cfg, s, s.procs[p]);
      assert Newest(ks) in ks.keys;
      RotatedSucceeds(cfg, s.minted, s.clock, ks, key);
      SameSide(s, s', p);
      OneProcess(cfg, s, s', p, s'.procs[p]);
    }
  }

  /** Appending a sound successor of the newest keyset keeps the history in order. */
  lemma DiskGrows(cfg: Config, s: State, s': State, next: Keyset)
    requires DiskInv(cfg, s) && Sound(cfg, s.minted, s.clock, next)
    requires s' == s.(disk := s.disk + [next], procs := s'.procs)
    requires s.disk == [] ==> |next.keys| == 1
    requires s.disk != [] ==> Rotating(cfg) && Succeeds(cfg, s.clock, s.disk[|s.disk| - 1], next)
    ensures DiskInv(cfg, s')
  {
    var n := |s.disk|;
    assert forall i :: 0 <= i < n ==> s'.disk[i] == s.disk[i];
    forall i, j | 0 <= i < j < |s'.disk| ensures Younger(cfg, s'.disk[i], s'.disk[j]) {
      if j < n {
        assert Younger(cfg, s.disk[i], s.disk[j]);
      } else if i < n - 1 {
        assert Younger(cfg, s.disk[i], s.disk[n - 1]);
      }
    }
    forall i, j | 0 <= i < j < |s'.disk| && j == i + 1 ensures AddsOnlyNewest(s'.disk[i], s'.disk[j]) {
      if j < n { assert AddsOnlyNewest(s.disk[i], s.disk[j]); }
    }
    DiskSurvives(cfg, s, s', next);
  }

  lemma DiskSurvives(cfg: Config, s: State, s': State, next: Keyset)
    requires DiskInv(cfg, s) && s'.disk == s.disk + [next] && s'.clock == s.clock
    requires s.disk != [] ==> AllSurvive(cfg, s.clock, s.disk[|s.disk| - 1], next)
    ensures forall i, j :: 0 <= i <= j < |s'.disk| ==> AllSurvive(cfg, s'.clock, s'.disk[i], s'.disk[j])
  {}

  lemma WriteKeepsInv(cfg: Config, s: State, p: nat)
    requires Inv(cfg, s)
    ensures Inv(cfg, Step(cfg, s, Write(p)))
  {
    if p < |s.procs| && s.procs[p].pc.Writing? {
      var s' := DoWrite(s, p);
      assert ProcInv(cfg, s, s.procs[p]);
      DiskGrows(cfg, s, s', s.procs[p].pc.next);
      SameSide(s, s', p);
      TokensInvLater(s, s');
      TicketsInvLater(s, s');
      forall q | 0 <= q < |s'.procs| ensures ProcInv(cfg, s', s'.procs[q]) {
        assert ProcInv(cfg, s, s.procs[q]);
        if q != p { assert !Holding(s.procs[q].pc); }
      }
    }
  }

  lemma UnlockKeepsInv(cfg: Config, s: State, p: nat)
    requires Inv(cfg, s)
    ensures Inv(cfg, Step(cfg, s, Unlock(p)))
  {
    if p < |s.procs| && s.procs[p].pc.Unlocking? {
      var s' := DoUnlock(s, p);
      assert ProcInv(cfg, s, s.procs[p]);
      forall q | 0 <= q < |s'.procs| ensures !Holding(s'.procs[q].pc) && !s'.procs[q].pc.Breaking? {}
      OneProcess(cfg, s, s', p, s'.procs[p]);
    }
  }

  lemma FinishKeepsInv(cfg: Config, s: State, p: nat)
    requires Inv(cfg, s)
    ensures Inv(cfg, Step(cfg, s, Finish(p)))
  {
    if p < |s.procs| && s.procs[p].pc.Returning? {
      var t := SetPc(s, p, Idle);
      assert ProcInv(cfg, s, s.procs[p]);
      SameSide(s, t, p);
      OneProcess(cfg, s, t, p, t.procs[p]);
      var proc := s.procs[p];
      AddTicket(cfg, t, Ticket(p, proc.epoch, proc.checkedAt, proc.seen));
    }
  }

  lemma AddTicket(cfg: Config, s: State, tk: Ticket)
    requires Inv(cfg, s) && TicketInv(s, tk)
    ensures Inv(cfg, s.(tickets := s.tickets + [tk]))
  {
    var s' := s.(tickets := s.tickets + [tk]);
    DiskInvLater(cfg, s, s');
    TokensInvLater(s, s');
    forall k | 0 <= k < |s'.tickets| ensures TicketInv(s', s'.tickets[k]) {
      assert TicketInv(s, s'.tickets[k]);
    }
    ProcsInvLater(cfg, s, s');
  }

  lemma SignKeepsInv(cfg: Config, s: State, t: nat, payload: string, exp: int)
    requires Inv(cfg, s)
    ensures Inv(cfg, Step(cfg, s, Sign(t, payload, exp)))
  {
    if Usable(s, t) {
      var s' := DoSign(s, t, payload, exp);
      if s' != s {
        var x := s'.tokens[|s.tokens|];
        assert Key(x.token.signer, x.created) in CachedKeyset(s, s.tickets[t].proc).keys;
        assert TokenInv(s', x);
        DiskInvLater(cfg, s, s');
        TicketsInvLater(s, s');
        forall k | 0 <= k < |s'.tokens| ensures TokenInv(s', s'.tokens[k]) {
          if k < |s.tokens| { assert TokenInv(s, s.tokens[k]); }
        }
        ProcsInvLater(cfg, s, s');
      }
    }
  }

  lemma RestartedProcess(cfg: Config, s: State, p: nat)
    requires Inv(cfg, s) && s.clock >= 0 && p < |s.procs| && s.procs[p].pc.Idle?
    ensures var s' := Step(cfg, s, Restart(p));
            ProcsInv(cfg, s') && TicketsInv(s')
  {
    var s' := Step(cfg, s, Restart(p));
    forall k | 0 <= k < |s'.tickets| ensures TicketInv(s', s'.tickets[k]) {
      assert TicketInv(s, s.tickets[k]);
    }
    forall q | 0 <= q < |s'.procs| ensures ProcInv(cfg, s', s'.procs[q]) {
      if q != p { ProcInvLater(cfg, s, s', s.procs[q]); }
    }
  }

  lemma RestartKeepsInv(cfg: Config, s: State, p: nat)
    requires Inv(cfg, s) && s.clock >= 0
    ensures Inv(cfg, Step(cfg, s, Restart(p)))
  {
    if p < |s.procs| && s.procs[p].pc.Idle? {
      var s' := Step(cfg, s, Restart(p));
      DiskInvLater(cfg, s, s');
      TokensInvLater(s, s');
      RestartedProcess(cfg, s, p);
    }
  }

  /** Steps on the way to the lock and back from it. */
  predicate Outside(e: Event) {
    e.Begin? || e.Check? || e.TryLock? || e.Inspect? || e.GiveUp? || e.Unlock? || e.Finish?
  }

  lemma OutsideKeepsInv(cfg: Config, s: State, e: Event)
    requires Inv(cfg, s) && Outside(e)
    ensures Inv(cfg, Step(cfg, s, e))
  {
    match e
    case Begin(p) => BeginKeepsInv(cfg, s, p);
    case Check(p) => CheckKeepsInv(cfg, s, p);
    case TryLock(p) => TryLockKeepsInv(cfg, s, p);
    case Inspect(p) => InspectKeepsInv(cfg, s, p);
    case GiveUp(p) => GiveUpKeepsInv(cfg, s, p);
    case Unlock(p) => UnlockKeepsInv(cfg, s, p);
    case Finish(p) => FinishKeepsInv(cfg, s, p);
  }

  /** No process ever finds the lock old enough to break. */
  lemma BreakKeepsInv(cfg: Config, s: State, p: nat)
    requires Inv(cfg, s)
    ensures Inv(cfg, Step(cfg, s, Break(p)))
  {}

  lemma TickStepKeepsInv(cfg: Config, s: State, d: nat)
    requires Inv(cfg, s) && PromptStep(s, Tick(d))
    ensures Inv(cfg, Step(cfg, s, Tick(d)))
  {
    TickKeepsInv(cfg, s, d);
    assert Step(cfg, s, Tick(d)) == s.(clock := s.clock + d);
  }

  lemma InsideKeepsInv(cfg: Config, s: State, e: Event)
    requires Inv(cfg, s) && PromptStep(s, e) && s.clock >= 0 && !Outside(e)
    ensures Inv(cfg, Step(cfg, s, e))
  {
    match e
    case Tick(d) => TickStepKeepsInv(cfg, s, d);
    case Break(p) => BreakKeepsInv(cfg, s, p);
    case Recheck(p) => RecheckKeepsInv(cfg, s, p);
    case Mint(p) => MintKeepsInv(cfg, s, p);
    case Trim(p) => TrimKeepsInv(cfg, s, p);
    case Write(p) => WriteKeepsInv(cfg, s, p);
    case Sign(t, payload, exp) => SignKeepsInv(cfg, s, t, payload, exp);
    case Restart(p) => RestartKeepsInv(cfg, s, p);
  }

  lemma ClockOnlyAdvances(cfg: Config, s: State, e: Event)
    ensures s.clock <= Step(cfg, s, e).clock
  {}

  lemma StepKeepsInv(cfg: Config, s: State, e: Event)
    requires Inv(cfg, s) && PromptStep(s, e) && s.clock >= 0
    ensures Inv(cfg, Step(cfg, s, e)) && Step(cfg, s, e).clock >= 0
  {
    ClockOnlyAdvances(cfg, s, e);
    if Outside(e) { OutsideKeepsInv(cfg, s, e); } else { InsideKeepsInv(cfg, s, e); }
  }

  lemma {:induction false} RunKeepsInv(cfg: Config, s: State, events: seq<Event>)
    requires Inv(cfg, s) && s.clock >= 0 && Prompt(cfg, s, events)
    ensures Inv(cfg, Run(cfg, s, events)) && Run(cfg, s, events).clock >= 0
    decreases |events|
  {
    if events != [] {
      StepKeepsInv(cfg, s, events[0]);
      RunKeepsInv(cfg, Step(cfg, s, events[0]), events[1..]);
    }
  }

  lemma StartInv(cfg: Config, clock: nat, n: nat)
    ensures Inv(cfg, Start(clock, n))
  {}

  /*** Results over every prompt run of every number of processes ***/

  /** The lock file excludes: no two processes are ever inside the critical section. */
  lemma LockFileExcludes(cfg: Config, clock: nat, n: nat, events: seq<Event>)
    requires Prompt(cfg, Start(clock, n), events)
    ensures MutualExclusion(Run(cfg, Start(clock, n), events))
  {
    StartInv(cfg, clock, n);
    RunKeepsInv(cfg, Start(clock, n), events);
  }

  lemma {:induction false} SpanOfOrdered(cfg: Config, keys: seq<Key>)
    requires keys != [] && Ordered(cfg, keys)
    ensures (|keys| - 1) * cfg.interval <= keys[|keys| - 1].created - keys[0].created
  {
    if |keys| > 1 {
      var n := |keys| - 1;
      SpanOfOrdered(cfg, keys[..n]);
      assert keys[n - 1].created + cfg.interval <= keys[n].created;
      assert n * cfg.interval == (n - 1) * cfg.interval + cfg.interval;
    }
  }

  /**
   Every keyset ever written ends in its active key, holds keys at least one
   rotation interval apart, and holds at most retention / interval + 1 of them.
   */
  lemma KeysetsAreBounded(cfg: Config, clock: nat, n: nat, events: seq<Event>, i: nat)
    requires Prompt(cfg, Start(clock, n), events)
    requires i < |Run(cfg, Start(clock, n), events).disk|
    ensures var ks := Run(cfg, Start(clock, n), events).disk[i];
            ks.keys != [] && ActiveKey(ks) == Some(ks.keys[|ks.keys| - 1]) &&
            (forall a, b :: 0 <= a < b < |ks.keys| ==> ks.keys[a].created + cfg.interval <= ks.keys[b].created) &&
            (cfg.retention >= 0 ==> (|ks.keys| - 1) * cfg.interval <= cfg.retention) &&
            (cfg.enabled && cfg.interval > 0 && cfg.retention >= 0 ==> |ks.keys| <= cfg.retention / cfg.interval + 1) &&
            (!cfg.enabled || cfg.interval <= 0 || cfg.retention <= 0 ==> |ks.keys| == 1)
  {
    StartInv(cfg, clock, n);
    RunKeepsInv(cfg, Start(clock, n), events);
    var s := Run(cfg, Start(clock, n), events);
    var ks := s.disk[i];
    ActiveIsNewest(cfg, s.minted, s.clock, ks);
    SpanOfOrdered(cfg, ks.keys);
    if Rotating(cfg) { QuotientBound(|ks.keys| - 1, cfg.interval, Kept(cfg)); }
  }

  lemma QuotientBound(m: nat, d: int, x: nat)
    requires d > 0 && m * d <= x
    ensures m <= x / d
  {
    var q := x / d;
    assert x < (q + 1) * d by { assert x == q * d + x % d; assert (q + 1) * d == q * d + d; }
    if m >= q + 1 { MulMonotone(q + 1, m, d); }
  }

  lemma MulMonotone(a: nat, b: nat, d: nat)
    requires a <= b
    ensures a * d <= b * d
  {}

  /**
   One first keyset, then rotations: each later keyset adds exactly one key, at
   least an interval younger than every key before it, and loses only keys whose
   retention is over.  Two processes seeing the same due key rotate it once.
   */
  lemma RotationsHappenOnce(cfg: Config, clock: nat, n: nat, events: seq<Event>)
    requires Prompt(cfg, Start(clock, n), events)
    ensures var s := Run(cfg, Start(clock, n), events);
            (s.disk != [] ==> |s.disk[0].keys| == 1) &&
            (|s.disk| > 1 ==> Rotating(cfg)) &&
            forall i, j :: 0 <= i < j < |s.disk| && j == i + 1 ==> IsRotation(cfg, s.clock, s.disk[i], s.disk[j])
  {
    StartInv(cfg, clock, n);
    RunKeepsInv(cfg, Start(clock, n), events);
    var s := Run(cfg, Start(clock, n), events);
    forall i, j | 0 <= i < j < |s.disk| && j == i + 1 ensures IsRotation(cfg, s.clock, s.disk[i], s.disk[j]) {
      var before, after := s.disk[i], s.disk[j];
      assert Sound(cfg, s.minted, s.clock, before) && Sound(cfg, s.minted, s.clock, after);
      assert AddsOnlyNewest(before, after) && Younger(cfg, before, after);
      assert AllSurvive(cfg, s.clock, before, after);
      forall k | k in before.keys
        ensures k.created <= Newest(before).created && Survives(cfg, s.clock, k, after)
      {
        var a :| 0 <= a < |before.keys| && before.keys[a] == k;
        if a < |before.keys| - 1 { assert before.keys[a].created < Newest(before).created; }
      }
    }
  }

  /** `after` is `before` with one new active key and without keys past their retention. */
  ghost predicate IsRotation(cfg: Config, clock: int, before: Keyset, after: Keyset) {
    AddsOnlyNewest(before, after) &&
    after.active == Newest(after).kid && Newest(after) !in before.keys &&
    (forall k :: k in before.keys ==> k.created + cfg.interval <= Newest(after).created) &&
    (forall k :: k in before.keys && k !in after.keys ==> k.created < clock && k.created + cfg.retention < clock)
  }

  /**
   A signed token decodes to its payload as long as it has not expired and the
   retention of the key that signed it is not over: at every process, whatever
   was loaded, rotated or pruned since, through any ensure_ready call that began
   after the token was signed.
   */
  lemma SignedTokensDecode(cfg: Config, clock: nat, n: nat, events: seq<Event>, ticket: nat, x: nat)
    requires Prompt(cfg, Start(clock, n), events)
    requires var s := Run(cfg, Start(clock, n), events);
             Usable(s, ticket) && x < s.tickets[ticket].seen && x < |s.tokens| &&
             (s.clock <= s.tokens[x].created || s.clock <= s.tokens[x].created + cfg.retention)
    ensures var s := Run(cfg, Start(clock, n), events);
            var token := s.tokens[x].token;
            Decode(s, ticket, token) == if token.exp <= s.clock then Err(ExpiredSignature) else Ok(token.payload)
  {
    StartInv(cfg, clock, n);
    RunKeepsInv(cfg, Start(clock, n), events);
    DecodeInState(cfg, Run(cfg, Start(clock, n), events), ticket, x);
  }

  lemma DecodeInState(cfg: Config, s: State, ticket: nat, x: nat)
    requires Inv(cfg, s) && Usable(s, ticket) && x < s.tickets[ticket].seen && x < |s.tokens|
    requires s.clock <= s.tokens[x].created + Kept(cfg)
    ensures var token := s.tokens[x].token;
            Decode(s, ticket, token) == if token.exp <= s.clock then Err(ExpiredSignature) else Ok(token.payload)
  {
    var signed, tk := s.tokens[x], s.tickets[ticket];
    assert TokenInv(s, signed) && TicketInv(s, tk);
    var key := Key(signed.token.signer, signed.created);
    assert AllSurvive(cfg, s.clock, s.disk[signed.version - 1], CachedKeyset(s, tk.proc));
    assert Survives(cfg, s.clock, key, CachedKeyset(s, tk.proc));
    DecodeFindsSigner(CachedKeyset(s, tk.proc), signed.token, key, s.clock);
  }

  /*** How old a signing key can be ***/

  /** No process gives up waiting for the lock once it has found a rotation due. */
  predicate PatientStep(s: State, e: Event) {
    e.GiveUp? && e.p < |s.procs| ==> s.procs[e.p].pc != SawLock(Rotation)
  }

  predicate Patient(cfg: Config, s: State, events: seq<Event>)
    decreases |events|
  {
    events == [] || (PatientStep(s, events[0]) && Patient(cfg, Step(cfg, s, events[0]), events[1..]))
  }

  /** Between finding a rotation due and having dealt with it. */
  predicate InRotation(pc: Pc) {
    ((pc.WantLock? || pc.SawLock? || pc.Locked? || pc.Minting? || pc.Writing?) && pc.goal == Rotation) || pc.Pruning?
  }

  /** The cached active key was younger than the interval at the last age check. */
  ghost predicate AgeOf(cfg: Config, s: State, proc: Proc) {
    (0 < proc.version <= |s.disk| && s.disk[proc.version - 1].keys != [] && !InRotation(proc.pc) ==>
      proc.lastCheck < Newest(s.disk[proc.version - 1]).created + cfg.interval) &&
    (proc.pc.Pruning? ==> proc.lastCheck <= proc.pc.key.created) &&
    (proc.pc.Writing? && proc.pc.next.keys != [] ==>
      0 <= Newest(proc.pc.next).created &&
      (proc.pc.goal == Rotation ==> proc.lastCheck <= Newest(proc.pc.next).created)) &&
    (InRotation(proc.pc) || proc.pc.Returning? || proc.pc == Unlocking(Rotation) ==>
      proc.checkedAt - proc.lastCheck < cfg.checkEvery) &&
    proc.checkedAt <= s.clock && (proc.version == 0 ==> proc.lastCheck == 0)
  }

  ghost predicate TicketAge(cfg: Config, s: State, tk: Ticket) {
    tk.at <= s.clock &&
    (tk.proc < |s.procs| && tk.epoch == s.procs[tk.proc].epoch && Cached(s, tk.proc) &&
     CachedKeyset(s, tk.proc).keys != [] ==>
      tk.at < Newest(CachedKeyset(s, tk.proc)).created + cfg.interval + cfg.checkEvery)
  }

  ghost predicate TokenAge(cfg: Config, x: Signed) {
    x.readyAt < x.created + cfg.interval + cfg.checkEvery
  }

  ghost predicate AgeInv(cfg: Config, s: State) {
    (forall i :: 0 <= i < |s.disk| && s.disk[i].keys != [] ==> 0 <= Newest(s.disk[i]).created) &&
    (forall p :: 0 <= p < |s.procs| ==> AgeOf(cfg, s, s.procs[p])) &&
    (forall t :: 0 <= t < |s.tickets| ==> TicketAge(cfg, s, s.tickets[t])) &&
    (forall t :: 0 <= t < |s.tokens| ==> TokenAge(cfg, s.tokens[t]))
  }

  ghost predicate NoOlder(before: Keyset, after: Keyset) {
    before.keys != [] && after.keys != [] && Newest(before).created <= Newest(after).created
  }

  ghost predicate VersionsInOrder(s: State) {
    forall i, j :: 0 <= i <= j < |s.disk| ==> NoOlder(s.disk[i], s.disk[j])
  }

  /** A later version's newest key is no older. */
  lemma NewerVersions(cfg: Config, s: State)
    requires DiskInv(cfg, s)
    ensures VersionsInOrder(s)
  {}

  /** Ages after a step of one process that may also write a keyset. */
  lemma AgesAfterProcess(cfg: Config, s: State, s': State, p: nat)
    requires AgeInv(cfg, s) && VersionsInOrder(s') && TicketsInv(s) && p < |s.procs| == |s'.procs|
    requires s.disk <= s'.disk && |s'.disk| <= |s.disk| + 1 && s.clock == s'.clock
    requires s'.tickets == s.tickets && s'.tokens == s.tokens
    requires forall q :: 0 <= q < |s.procs| && q != p ==> s'.procs[q] == s.procs[q]
    requires forall q :: 0 <= q < |s.procs| ==> s.procs[q].version <= |s.disk|
    requires AgeOf(cfg, s', s'.procs[p]) && s.procs[p].version <= s'.procs[p].version
    requires s'.procs[p].epoch == s.procs[p].epoch && WrittenAge(s, s')
    ensures AgeInv(cfg, s')
  {}

  ghost predicate WrittenAge(s: State, s': State) {
    |s'.disk| > |s.disk| && s'.disk[|s.disk|].keys != [] ==> 0 <= Newest(s'.disk[|s.disk|]).created
  }

  lemma CheckedAge(cfg: Config, s: State, p: nat)
    requires Inv(cfg, s) && AgeInv(cfg, s) && Rotating(cfg) && ValidConfig(cfg) && Cached(s, p)
    requires s.procs[p].pc.CheckAge?
    ensures AgeOf(cfg, DoCheck(cfg, s, p), DoCheck(cfg, s, p).procs[p])
  {
    assert AgeOf(cfg, s, s.procs[p]) && ProcInv(cfg, s, s.procs[p]);
    ActiveIsNewest(cfg, s.minted, s.clock, CachedKeyset(s, p));
  }

  lemma CheckKeepsAge(cfg: Config, s: State, p: nat)
    requires Inv(cfg, s) && AgeInv(cfg, s) && Rotating(cfg) && ValidConfig(cfg)
    ensures AgeInv(cfg, Step(cfg, s, Check(p)))
  {
    if Cached(s, p) && s.procs[p].pc.CheckAge? {
      CheckedAge(cfg, s, p);
      NewerVersions(cfg, s);
      assert forall q :: 0 <= q < |s.procs| ==> ProcInv(cfg, s, s.procs[q]);
      AgesAfterProcess(cfg, s, DoCheck(cfg, s, p), p);
    }
  }

  lemma BeginAge(cfg: Config, s: State, p: nat)
    requires Inv(cfg, s) && AgeInv(cfg, s) && Rotating(cfg) && p < |s.procs| && s.procs[p].pc.Idle?
    ensures AgeOf(cfg, DoBegin(s, p), DoBegin(s, p).procs[p])
  {}

  /** The newest keyset is no older than the cached one, or nothing was cached. */
  lemma LatestAge(cfg: Config, s: State, p: nat)
    requires Inv(cfg, s) && AgeInv(cfg, s) && Rotating(cfg) && p < |s.procs|
    ensures AgeOf(cfg, s, s.procs[p]) && ProcInv(cfg, s, s.procs[p])
    ensures s.disk != [] ==>
              Sound(cfg, s.minted, s.clock, s.disk[|s.disk| - 1]) && 0 <= Newest(s.disk[|s.disk| - 1]).created
    ensures s.disk != [] ==> ActiveKey(s.disk[|s.disk| - 1]) == Some(Newest(s.disk[|s.disk| - 1]))
    ensures s.disk != [] && !InRotation(s.procs[p].pc) ==>
              s.procs[p].lastCheck < Newest(s.disk[|s.disk| - 1]).created + cfg.interval
  {
    if s.disk != [] {
      ActiveIsNewest(cfg, s.minted, s.clock, s.disk[|s.disk| - 1]);
      NewerVersions(cfg, s);
      assert s.procs[p].version > 0 ==> NoOlder(s.disk[s.procs[p].version - 1], s.disk[|s.disk| - 1]);
    }
  }

  lemma TryLockAge(cfg: Config, s: State, p: nat)
    requires AgeInv(cfg, s) && p < |s.procs| && s.procs[p].pc.WantLock?
    ensures AgeOf(cfg, DoTryLock(s, p), DoTryLock(s, p).procs[p])
  {}

  lemma InspectAge(cfg: Config, s: State, p: nat)
    requires LockInv(s) && AgeInv(cfg, s) && p < |s.procs| && s.procs[p].pc.SawLock?
    ensures AgeOf(cfg, DoInspect(s, p), DoInspect(s, p).procs[p])
  {}

  lemma UnlockAge(cfg: Config, s: State, p: nat)
    requires AgeInv(cfg, s) && p < |s.procs| && s.procs[p].pc.Unlocking?
    ensures AgeOf(cfg, DoUnlock(s, p), DoUnlock(s, p).procs[p])
  {}

  lemma RecheckAge(cfg: Config, s: State, p: nat)
    requires Inv(cfg, s) && AgeInv(cfg, s) && Rotating(cfg) && p < |s.procs| && s.procs[p].pc.Locked?
    ensures AgeOf(cfg, DoRecheck(cfg, s, p), DoRecheck(cfg, s, p).procs[p])
  {
    LatestAge(cfg, s, p);
  }

  lemma MintAge(cfg: Config, s: State, p: nat)
    requires Inv(cfg, s) && AgeInv(cfg, s) && p < |s.procs| && s.procs[p].pc.Minting? && s.clock >= 0
    ensures AgeOf(cfg, DoMint(s, p), DoMint(s, p).procs[p])
  {}

  lemma TrimAge(cfg: Config, s: State, p: nat)
    requires Inv(cfg, s) && AgeInv(cfg, s) && Rotating(cfg) && Cached(s, p) && s.procs[p].pc.Pruning?
    ensures AgeOf(cfg, DoTrim(cfg, s, p), DoTrim(cfg, s, p).procs[p])
  {}

  lemma WriteAge(cfg: Config, s: State, p: nat)
    requires Inv(cfg, s) && AgeInv(cfg, s) && Rotating(cfg) && p < |s.procs| && s.procs[p].pc.Writing?
    ensures AgeOf(cfg, DoWrite(s, p), DoWrite(s, p).procs[p])
    ensures 0 <= Newest(s.procs[p].pc.next).created
  {}

  lemma StepKeepsVersions(cfg: Config, s: State, e: Event)
    requires Inv(cfg, s) && s.clock >= 0 && !e.Tick?
    ensures VersionsInOrder(Step(cfg, s, e))
  {
    StepKeepsInv(cfg, s, e);
    NewerVersions(cfg, Step(cfg, s, e));
  }

  /** A step that changes one process, whose age is right afterwards. */
  lemma ActedKeepsAge(cfg: Config, s: State, e: Event)
    requires Inv(cfg, s) && AgeInv(cfg, s) && s.clock >= 0
    requires e.Begin? || e.TryLock? || e.Inspect? || e.Recheck? || e.Mint? || e.Trim? || e.Write? || e.Unlock?
    requires e.p < |s.procs| && AgeOf(cfg, Step(cfg, s, e), Step(cfg, s, e).procs[e.p]) && WrittenAge(s, Step(cfg, s, e))
    ensures AgeInv(cfg, Step(cfg, s, e))
  {
    StepKeepsVersions(cfg, s, e);
    SectionStep(cfg, s, e);
    AgesAfterProcess(cfg, s, Step(cfg, s, e), e.p);
  }

  /** Steps that load, lock, mint, prune, write or unlock. */
  lemma SectionKeepsAge(cfg: Config, s: State, e: Event)
    requires Inv(cfg, s) && AgeInv(cfg, s) && Rotating(cfg) && s.clock >= 0
    requires e.Begin? || e.TryLock? || e.Inspect? || e.Recheck? || e.Mint? || e.Trim? || e.Write? || e.Unlock?
    ensures AgeInv(cfg, Step(cfg, s, e))
  {
    if Step(cfg, s, e) != s {
      assert e.p < |s.procs|;
      if e.Begin? || e.TryLock? || e.Inspect? || e.Unlock? { WaitingAge(cfg, s, e); } else { HolderAge(cfg, s, e); }
      ActedKeepsAge(cfg, s, e);
    }
  }

  /** Steps with nothing minted yet, or everything written. */
  lemma WaitingAge(cfg: Config, s: State, e: Event)
    requires Inv(cfg, s) && AgeInv(cfg, s) && Rotating(cfg)
    requires e.Begin? || e.TryLock? || e.Inspect? || e.Unlock?
    requires e.p < |s.procs| && Step(cfg, s, e) != s
    ensures AgeOf(cfg, Step(cfg, s, e), Step(cfg, s, e).procs[e.p]) && Step(cfg, s, e).disk == s.disk
  {
    match e
    case Begin(p) => BeginAge(cfg, s, p);
    case TryLock(p) => TryLockAge(cfg, s, p);
    case Inspect(p) => InspectAge(cfg, s, p);
    case Unlock(p) => UnlockAge(cfg, s, p);
  }

  lemma HolderAge(cfg: Config, s: State, e: Event)
    requires Inv(cfg, s) && AgeInv(cfg, s) && Rotating(cfg) && s.clock >= 0
    requires e.Recheck? || e.Mint? || e.Trim? || e.Write?
    requires e.p < |s.procs| && Step(cfg, s, e) != s
    ensures AgeOf(cfg, Step(cfg, s, e), Step(cfg, s, e).procs[e.p]) && WrittenAge(s, Step(cfg, s, e))
  {
    match e
    case Recheck(p) => RecheckAge(cfg, s, p);
    case Mint(p) => MintAge(cfg, s, p);
    case Trim(p) => TrimAge(cfg, s, p);
    case Write(p) => WriteAge(cfg, s, p);
  }

  /** What such a step leaves alone. */
  lemma SectionStep(cfg: Config, s: State, e: Event)
    requires e.Begin? || e.TryLock? || e.Inspect? || e.Recheck? || e.Mint? || e.Trim? || e.Write? || e.Unlock?
    requires ProcsInv(cfg, s) && e.p < |s.procs|
    ensures var s' := Step(cfg, s, e);
            |s'.procs| == |s.procs| && s.disk <= s'.disk && |s'.disk| <= |s.disk| + 1 && s'.clock == s.clock &&
            s'.tickets == s.tickets && s'.tokens == s.tokens &&
            (forall q :: 0 <= q < |s.procs| && q != e.p ==> s'.procs[q] == s.procs[q]) &&
            s.procs[e.p].version <= s'.procs[e.p].version && s'.procs[e.p].epoch == s.procs[e.p].epoch &&
            (|s'.disk| > |s.disk| ==> s.procs[e.p].pc.Writing? && s'.disk[|s.disk|] == s.procs[e.p].pc.next)
    ensures forall q :: 0 <= q < |s.procs| ==> s.procs[q].version <= |s.disk|
  {}

  lemma TickKeepsAge(cfg: Config, s: State, d: nat)
    requires TicketsInv(s) && AgeInv(cfg, s)
    ensures AgeInv(cfg, s.(clock := s.clock + d))
  {}

  /** A process that returns, gives up its first load, or restarts has no overdue key cached. */
  lemma ResetKeepsAge(cfg: Config, s: State, s': State, p: nat)
    requires TicketsInv(s) && AgeInv(cfg, s) && p < |s.procs| && s' == s.(procs := s'.procs)
    requires (s'.procs == s.procs[p := s.procs[p].(pc := Idle)] && !InRotation(s.procs[p].pc)) ||
             s'.procs == s.procs[p := Proc(Idle, 0, 0, s.procs[p].epoch + 1, s.clock, s.clock, 0)]
    ensures AgeInv(cfg, s')
  {}

  lemma FinishKeepsAge(cfg: Config, s: State, p: nat)
    requires Inv(cfg, s) && AgeInv(cfg, s)
    ensures AgeInv(cfg, Step(cfg, s, Finish(p)))
  {
    if p < |s.procs| && s.procs[p].pc.Returning? {
      var t, s' := SetPc(s, p, Idle), DoFinish(s, p);
      assert AgeOf(cfg, s, s.procs[p]) && ProcInv(cfg, s, s.procs[p]);
      ResetKeepsAge(cfg, s, t, p);
      assert TicketAge(cfg, s', s'.tickets[|s.tickets|]);
      AddTicketAge(cfg, t, s'.tickets[|s.tickets|]);
    }
  }

  lemma AddTicketAge(cfg: Config, s: State, tk: Ticket)
    requires AgeInv(cfg, s) && TicketAge(cfg, s, tk)
    ensures AgeInv(cfg, s.(tickets := s.tickets + [tk]))
  {}

  lemma SignKeepsAge(cfg: Config, s: State, t: nat, payload: string, exp: int)
    requires Inv(cfg, s) && AgeInv(cfg, s) && Usable(s, t)
    ensures AgeInv(cfg, DoSign(s, t, payload, exp))
  {
    var s', tk := DoSign(s, t, payload, exp), s.tickets[t];
    var ks := CachedKeyset(s, tk.proc);
    assert Sound(cfg, s.minted, s.clock, ks);
    ActiveIsNewest(cfg, s.minted, s.clock, ks);
    assert TicketAge(cfg, s, tk);
    assert TokenAge(cfg, s'.tokens[|s.tokens|]);
    AddTokenAge(cfg, s, s'.tokens[|s.tokens|]);
  }

  lemma AddTokenAge(cfg: Config, s: State, x: Signed)
    requires AgeInv(cfg, s) && TokenAge(cfg, x)
    ensures AgeInv(cfg, s.(tokens := s.tokens + [x]))
  {}

  lemma QuietKeepsAge(cfg: Config, s: State, e: Event)
    requires TicketsInv(s) && AgeInv(cfg, s) && PatientStep(s, e)
    requires e.Tick? || e.GiveUp? || e.Restart?
    ensures AgeInv(cfg, Step(cfg, s, e))
  {
    match e
    case Tick(d) => TickKeepsAge(cfg, s, d);
    case GiveUp(p) =>
      if p < |s.procs| && s.procs[p].pc.SawLock? { ResetKeepsAge(cfg, s, Step(cfg, s, e), p); }
    case Restart(p) =>
      if p < |s.procs| && s.procs[p].pc.Idle? { ResetKeepsAge(cfg, s, Step(cfg, s, e), p); }
  }

  lemma StepKeepsAge(cfg: Config, s: State, e: Event)
    requires Inv(cfg, s) && AgeInv(cfg, s) && Rotating(cfg) && ValidConfig(cfg) && s.clock >= 0
    requires PatientStep(s, e)
    ensures AgeInv(cfg, Step(cfg, s, e))
  {
    match e
    case Check(p) => CheckKeepsAge(cfg, s, p);
    case Sign(t, payload, exp) =>
      if Usable(s, t) { SignKeepsAge(cfg, s, t, payload, exp); }
    case Break(p) => assert Step(cfg, s, e) == s;
    case Finish(p) => FinishKeepsAge(cfg, s, p);
    case Tick(_) => QuietKeepsAge(cfg, s, e);
    case GiveUp(_) => QuietKeepsAge(cfg, s, e);
    case Restart(_) => QuietKeepsAge(cfg, s, e);
    case _ => SectionKeepsAge(cfg, s, e);
  }

  lemma {:induction false} RunKeepsAge(cfg: Config, s: State, events: seq<Event>)
    requires Inv(cfg, s) && AgeInv(cfg, s) && Rotating(cfg) && ValidConfig(cfg) && s.clock >= 0
    requires Prompt(cfg, s, events) && Patient(cfg, s, events)
    ensures AgeInv(cfg, Run(cfg, s, events))
    decreases |events|
  {
    if events != [] {
      StepKeepsInv(cfg, s, events[0]);
      StepKeepsAge(cfg, s, events[0]);
      RunKeepsAge(cfg, Step(cfg, s, events[0]), events[1..]);
    }
  }

  lemma StartAge(cfg: Config, clock: nat, n: nat)
    requires ValidConfig(cfg)
    ensures AgeInv(cfg, Start(clock, n))
  {}

  /**
   The delay of a rotation: when ensure_ready lets a request through, the active
   key is younger than the rotation interval plus the check interval, provided
   nobody gave up waiting for the lock to rotate.
   */
  lemma SigningKeyAge(cfg: Config, clock: nat, n: nat, events: seq<Event>, x: nat)
    requires ValidConfig(cfg) && Rotating(cfg)
    requires Prompt(cfg, Start(clock, n), events) && Patient(cfg, Start(clock, n), events)
    requires x < |Run(cfg, Start(clock, n), events).tokens|
    ensures var signed := Run(cfg, Start(clock, n), events).tokens[x];
            signed.readyAt < signed.created + cfg.interval + cfg.checkEvery
  {
    StartInv(cfg, clock, n);
    StartAge(cfg, clock, n);
    RunKeepsAge(cfg, Start(clock, n), events);
    assert TokenAge(cfg, Run(cfg, Start(clock, n), events).tokens[x]);
  }

  /**
   Every unexpired token decodes, when tokens live at most `ttl` seconds, were
   signed at most `delay` seconds after their ensure_ready, and the interval, the
   check interval, the delay and the lifetime together fit in the retention.
   Without rotation nothing is ever pruned and no bound is needed.
   */
  lemma UnexpiredTokensDecode(cfg: Config, clock: nat, n: nat, events: seq<Event>, ticket: nat, x: nat,
                              ttl: nat, delay: nat)
    requires ValidConfig(cfg) && Prompt(cfg, Start(clock, n), events)
    requires Rotating(cfg) ==> Patient(cfg, Start(clock, n), events) &&
                               cfg.interval + cfg.checkEvery + delay + ttl <= cfg.retention
    requires var s := Run(cfg, Start(clock, n), events);
             Usable(s, ticket) && x < s.tickets[ticket].seen && x < |s.tokens| &&
             s.tokens[x].token.exp <= s.tokens[x].at + ttl && s.tokens[x].at <= s.tokens[x].readyAt + delay &&
             s.clock < s.tokens[x].token.exp
    ensures var s := Run(cfg, Start(clock, n), events);
            Decode(s, ticket, s.tokens[x].token) == Ok(s.tokens[x].token.payload)
  {
    var s := Run(cfg, Start(clock, n), events);
    if Rotating(cfg) {
      SigningKeyAge(cfg, clock, n, events, x);
      SignedTokensDecode(cfg, clock, n, events, ticket, x);
    } else {
      StartInv(cfg, clock, n);
      RunKeepsInv(cfg, Start(clock, n), events);
      var signed, tk := s.tokens[x], s.tickets[ticket];
      assert TokenInv(s, signed) && TicketInv(s, tk);
      DecodeFindsSigner(CachedKeyset(s, tk.proc), signed.token, Key(signed.token.signer, signed.created), s.clock);
    }
  }

  lemma RunSteps(cfg: Config, s: State, e: Event, rest: seq<Event>)
    ensures Run(cfg, s, [e] + rest) == Run(cfg, Step(cfg, s, e), rest)
  {}

  /**
   Why promptness is needed, exactly: while p is inside the critical section,
   a waiting process q enters it too precisely when p has held the lock for more
   than the stale limit.
   */
  lemma StaleBreakIff(cfg: Config, s: State, p: nat, q: nat, d: nat)
    requires Inv(cfg, s) && p < |s.procs| && q < |s.procs| && p != q
    requires Holding(s.procs[p].pc) && s.procs[q].pc.WantLock?
    ensures !MutualExclusion(Run(cfg, s, [Tick(d), TryLock(q), Inspect(q), Break(q), TryLock(q)])) <==>
            s.clock + d - s.procs[p].lockedAt > STALE_AFTER
  {
    var s1 := Step(cfg, s, Tick(d));
    var s2 := Step(cfg, s1, TryLock(q));
    var s3 := Step(cfg, s2, Inspect(q));
    var s4 := Step(cfg, s3, Break(q));
    var s5 := Step(cfg, s4, TryLock(q));
    RunSteps(cfg, s, Tick(d), [TryLock(q), Inspect(q), Break(q), TryLock(q)]);
    RunSteps(cfg, s1, TryLock(q), [Inspect(q), Break(q), TryLock(q)]);
    RunSteps(cfg, s2, Inspect(q), [Break(q), TryLock(q)]);
    RunSteps(cfg, s3, Break(q), [TryLock(q)]);
    RunSteps(cfg, s4, TryLock(q), []);
    BreaksInIff(cfg, s1, q, s.procs[p].lockedAt);
    OnlyTwoMatter(s, s5, p, q);
  }

  /** Trying, looking at the lock's age, breaking it and trying again succeeds exactly on a stale lock. */
  lemma BreaksInIff(cfg: Config, s: State, q: nat, since: int)
    requires q < |s.procs| && s.procs[q].pc.WantLock? && s.lock.Some? && s.lock.value.since == since
    ensures var t := Step(cfg, Step(cfg, Step(cfg, Step(cfg, s, TryLock(q)), Inspect(q)), Break(q)), TryLock(q));
            |t.procs| == |s.procs| && (Holding(t.procs[q].pc) <==> s.clock - since > STALE_AFTER) &&
            forall r :: 0 <= r < |s.procs| && r != q ==> t.procs[r] == s.procs[r]
  {}

  /** With p inside and every other process but q unchanged, exclusion depends on q alone. */
  lemma OnlyTwoMatter(s: State, s': State, p: nat, q: nat)
    requires LockInv(s) && p < |s.procs| == |s'.procs| && q < |s.procs| && p != q && Holding(s.procs[p].pc)
    requires forall r :: 0 <= r < |s.procs| && r != q ==> s'.procs[r] == s.procs[r]
    ensures MutualExclusion(s') <==> !Holding(s'.procs[q].pc)
  {}

  /** The holder p dies inside the critical section and starts anew; its lock file stays. */
  function Crashed(s: State, p: nat): State
    requires p < |s.procs|
  {
    s.(procs := s.procs[p := Proc(Idle, 0, 0, s.procs[p].epoch + 1, s.clock, s.clock, 0)])
  }

  /** Two waiting processes both look at the lock's age, and then each breaks it and takes it. */
  function BothBreak(q: nat, r: nat): seq<Event> {
    [TryLock(q), TryLock(r), Inspect(q), Inspect(r), Break(q), TryLock(q), Break(r), TryLock(r)]
  }

  /**
   Why a crash is excluded: once the lock file a crashed holder left is older than the
   stale limit, and only then, two waiting processes that look at its age before either
   removes it both enter, at the same moment, the second by removing the first one's lock.
   */
  lemma CrashAdmitsTwoIff(cfg: Config, s: State, p: nat, q: nat, r: nat, d: nat)
    requires Inv(cfg, s) && p < |s.procs| && q < |s.procs| && r < |s.procs| && p != q && p != r && q != r
    requires Holding(s.procs[p].pc) && s.procs[q].pc.WantLock? && s.procs[r].pc.WantLock?
    ensures var t := Run(cfg, Step(cfg, Crashed(s, p), Tick(d)), BothBreak(q, r));
            |t.procs| == |s.procs| &&
            (!MutualExclusion(t) <==> s.clock + d - s.procs[p].lockedAt > STALE_AFTER) &&
            (!MutualExclusion(t) ==> t.procs[q].lockedAt == t.clock && t.procs[r].lockedAt == t.clock)
  {
    var s0 := CrashedLock(cfg, s, p, d);
    var s8 := BothEnterIff(cfg, s0, q, r);
  }

  /** After the crash no one holds, and the lock file is as old as before. */
  lemma CrashedLock(cfg: Config, s: State, p: nat, d: nat) returns (t: State)
    requires LockInv(s) && p < |s.procs| && Holding(s.procs[p].pc)
    ensures t == Step(cfg, Crashed(s, p), Tick(d)) && t.clock == s.clock + d && |t.procs| == |s.procs|
    ensures t.lock.Some? && t.lock.value.since == s.procs[p].lockedAt
    ensures forall x :: 0 <= x < |s.procs| ==> !Holding(t.procs[x].pc) && (x != p ==> t.procs[x] == s.procs[x])
  {
    t := Step(cfg, Crashed(s, p), Tick(d));
  }

  lemma BothEnterIff(cfg: Config, s: State, q: nat, r: nat) returns (t: State)
    requires q < |s.procs| && r < |s.procs| && q != r && s.lock.Some?
    requires s.procs[q].pc.WantLock? && s.procs[r].pc.WantLock?
    requires forall x :: 0 <= x < |s.procs| ==> !Holding(s.procs[x].pc)
    ensures t == Run(cfg, s, BothBreak(q, r)) && |t.procs| == |s.procs|
    ensures !MutualExclusion(t) <==> s.clock - s.lock.value.since > STALE_AFTER
    ensures !MutualExclusion(t) ==> t.procs[q].lockedAt == t.clock && t.procs[r].lockedAt == t.clock
  {
    var e := BothBreak(q, r);
    var s4 := BothLook(cfg, s, q, r);
    t := BothTry(cfg, s4, q, r);
    RunFour(cfg, s, e[0], e[1], e[2], e[3], e[4..]);
    RunFour(cfg, s4, e[4], e[5], e[6], e[7], []);
    assert e == [e[0], e[1], e[2], e[3]] + e[4..] && e[4..] == [e[4], e[5], e[6], e[7]] + [];
    assert forall x :: 0 <= x < |t.procs| && x != q && x != r ==> !Holding(t.procs[x].pc);
  }

  lemma BothTry(cfg: Config, s: State, q: nat, r: nat) returns (t: State)
    requires q < |s.procs| && r < |s.procs| && q != r && s.lock.Some?
    requires (s.procs[q].pc.Breaking? && s.procs[r].pc.Breaking?) || (s.procs[q].pc.WantLock? && s.procs[r].pc.WantLock?)
    ensures t == Step(cfg, Step(cfg, Step(cfg, Step(cfg, s, Break(q)), TryLock(q)), Break(r)), TryLock(r))
    ensures |t.procs| == |s.procs| && t.clock == s.clock &&
            (Holding(t.procs[q].pc) <==> s.procs[q].pc.Breaking?) && (Holding(t.procs[r].pc) <==> s.procs[q].pc.Breaking?) &&
            (s.procs[q].pc.Breaking? ==> t.procs[q].lockedAt == s.clock && t.procs[r].lockedAt == s.clock) &&
            forall x :: 0 <= x < |s.procs| && x != q && x != r ==> t.procs[x] == s.procs[x]
  {
    t := Step(cfg, Step(cfg, Step(cfg, Step(cfg, s, Break(q)), TryLock(q)), Break(r)), TryLock(r));
  }

  lemma RunFour(cfg: Config, s: State, e0: Event, e1: Event, e2: Event, e3: Event, rest: seq<Event>)
    ensures Run(cfg, s, [e0, e1, e2, e3] + rest) ==
            Run(cfg, Step(cfg, Step(cfg, Step(cfg, Step(cfg, s, e0), e1), e2), e3), rest)
  {
    RunSteps(cfg, s, e0, [e1, e2, e3] + rest);
    RunSteps(cfg, Step(cfg, s, e0), e1, [e2, e3] + rest);
    RunSteps(cfg, Step(cfg, Step(cfg, s, e0), e1), e2, [e3] + rest);
    RunSteps(cfg, Step(cfg, Step(cfg, Step(cfg, s, e0), e1), e2), e3, rest);
    assert [e0, e1, e2, e3] + rest == [e0] + ([e1, e2, e3] + rest);
    assert [e1, e2, e3] + rest == [e1] + ([e2, e3] + rest);
    assert [e2, e3] + rest == [e2] + ([e3] + rest);
  }

  lemma BothLook(cfg: Config, s: State, q: nat, r: nat) returns (t: State)
    requires q < |s.procs| && r < |s.procs| && q != r && s.lock.Some?
    requires s.procs[q].pc.WantLock? && s.procs[r].pc.WantLock?
    ensures t == Step(cfg, Step(cfg, Step(cfg, Step(cfg, s, TryLock(q)), TryLock(r)), Inspect(q)), Inspect(r))
    ensures var old_ := s.clock - s.lock.value.since > STALE_AFTER;
            |t.procs| == |s.procs| && t.clock == s.clock && t.lock == s.lock &&
            t.procs[q].pc == (if old_ then Breaking(s.procs[q].pc.goal) else s.procs[q].pc) &&
            t.procs[r].pc == (if old_ then Breaking(s.procs[r].pc.goal) else s.procs[r].pc) &&
            forall x :: 0 <= x < |s.procs| && x != q && x != r ==> t.procs[x] == s.procs[x]
  {
    t := Step(cfg, Step(cfg, Step(cfg, Step(cfg, s, TryLock(q)), TryLock(r)), Inspect(q)), Inspect(r));
  }

  /**
   Why patience is needed: a process that gives up a due rotation has already
   recorded its age check, so until the next check interval its requests are
   signed with the overdue key, however old that key is.
   */
  lemma GivingUpSignsWithOverdueKey(cfg: Config, s: State, q: nat, payload: string, exp: int)
    requires Inv(cfg, s) && q < |s.procs| && s.procs[q].pc == SawLock(Rotation)
    requires s.clock - s.procs[q].lastCheck < cfg.checkEvery
    requires s.disk != [] && s.disk[|s.disk| - 1].keys != [] && Due(cfg, Newest(s.disk[|s.disk| - 1]), s.clock)
    ensures var s' := Run(cfg, s, [GiveUp(q), Begin(q), Check(q), Finish(q), Sign(|s.tickets|, payload, exp)]);
            |s'.tokens| == |s.tokens| + 1 &&
            s'.tokens[|s.tokens|].at == s.clock &&
            s'.tokens[|s.tokens|].created == Newest(s.disk[|s.disk| - 1]).created
  {
    ActiveIsNewest(cfg, s.minted, s.clock, s.disk[|s.disk| - 1]);
    RequestAfterGivingUp(cfg, s, q, payload, exp);
  }

  lemma RequestAfterGivingUp(cfg: Config, s: State, q: nat, payload: string, exp: int)
    requires q < |s.procs| && s.procs[q].pc == SawLock(Rotation) && s.disk != []
    requires s.clock - s.procs[q].lastCheck < cfg.checkEvery && ActiveKey(s.disk[|s.disk| - 1]).Some?
    ensures var s' := Run(cfg, s, [GiveUp(q), Begin(q), Check(q), Finish(q), Sign(|s.tickets|, payload, exp)]);
            |s'.tokens| == |s.tokens| + 1 &&
            s'.tokens[|s.tokens|].at == s.clock &&
            s'.tokens[|s.tokens|].created == ActiveKey(s.disk[|s.disk| - 1]).value.created
  {
    RunSteps(cfg, s, GiveUp(q), [Begin(q), Check(q), Finish(q), Sign(|s.tickets|, payload, exp)]);
    NextRequest(cfg, SetPc(s, q, Idle), q, payload, exp);
  }

  /** A request within the check interval of the last check signs with the newest key of the file. */
  lemma NextRequest(cfg: Config, s: State, q: nat, payload: string, exp: int)
    requires q < |s.procs| && s.procs[q].pc.Idle? && s.disk != []
    requires s.clock - s.procs[q].lastCheck < cfg.checkEvery && ActiveKey(s.disk[|s.disk| - 1]).Some?
    ensures var s' := Run(cfg, s, [Begin(q), Check(q), Finish(q), Sign(|s.tickets|, payload, exp)]);
            |s'.tokens| == |s.tokens| + 1 &&
            s'.tokens[|s.tokens|].at == s.clock &&
            s'.tokens[|s.tokens|].created == ActiveKey(s.disk[|s.disk| - 1]).value.created
  {
    var t := |s.tickets|;
    var s2 := Step(cfg, s, Begin(q));
    var s3 := Step(cfg, s2, Check(q));
    var s4 := Step(cfg, s3, Finish(q));
    RunSteps(cfg, s, Begin(q), [Check(q), Finish(q), Sign(t, payload, exp)]);
    RunSteps(cfg, s2, Check(q), [Finish(q), Sign(t, payload, exp)]);
    RunSteps(cfg, s3, Finish(q), [Sign(t, payload, exp)]);
    RunSteps(cfg, s4, Sign(t, payload, exp), []);
    SkippedCheck(cfg, s, q);
    SignsWithCached(cfg, s4, t, payload, exp);
  }

  lemma SignsWithCached(cfg: Config, s: State, t: nat, payload: string, exp: int)
    requires Usable(s, t) && ActiveKey(CachedKeyset(s, s.tickets[t].proc)).Some?
    ensures var s' := Step(cfg, s, Sign(t, payload, exp));
            |s'.tokens| == |s.tokens| + 1 && s'.tokens[|s.tokens|].at == s.clock &&
            s'.tokens[|s.tokens|].created == ActiveKey(CachedKeyset(s, s.tickets[t].proc)).value.created
  {}

  /** A call within the check interval of the last age check returns without another. */
  lemma SkippedCheck(cfg: Config, s: State, q: nat)
    requires q < |s.procs| && s.procs[q].pc.Idle? && s.disk != []
    requires s.clock - s.procs[q].lastCheck < cfg.checkEvery
    ensures var s4 := Step(cfg, Step(cfg, Step(cfg, s, Begin(q)), Check(q)), Finish(q));
            s4.disk == s.disk && s4.clock == s.clock && s4.tokens == s.tokens &&
            |s4.tickets| == |s.tickets| + 1 && s4.tickets[|s.tickets|].proc == q &&
            q < |s4.procs| && s4.procs[q].version == |s.disk| && s4.procs[q].pc.Idle? &&
            s4.tickets[|s.tickets|].epoch == s4.procs[q].epoch
  {}

  lemma StepKeepsDisk(cfg: Config, s: State, e: Event)
    ensures s.disk <= Step(cfg, s, e).disk
  {}

  lemma {:induction false} RunKeepsDisk(cfg: Config, s: State, events: seq<Event>)
    ensures s.disk <= Run(cfg, s, events).disk
    decreases |events|
  {
    if events != [] {
      StepKeepsDisk(cfg, s, events[0]);
      RunKeepsDisk(cfg, Step(cfg, s, events[0]), events[1..]);
    }
  }

  /**
   After q gives up a due rotation and while it makes no step, anything may happen; its
   next request within the check interval signs with the key that was due then exactly
   when nobody has written a keyset in between.
   */
  lemma SignsWithOverdueKeyIff(cfg: Config, s: State, q: nat, events: seq<Event>, payload: string, exp: int)
    requires Inv(cfg, s) && s.clock >= 0 && q < |s.procs| && s.procs[q].pc == SawLock(Rotation)
    requires s.disk != [] && s.disk[|s.disk| - 1].keys != [] && Due(cfg, Newest(s.disk[|s.disk| - 1]), s.clock)
    requires Prompt(cfg, Step(cfg, s, GiveUp(q)), events)
    requires var t := Run(cfg, Step(cfg, s, GiveUp(q)), events);
             q < |t.procs| && t.procs[q] == s.procs[q].(pc := Idle) && t.clock - t.procs[q].lastCheck < cfg.checkEvery
    ensures var t := Run(cfg, Step(cfg, s, GiveUp(q)), events);
            var u := Run(cfg, t, [Begin(q), Check(q), Finish(q), Sign(|t.tickets|, payload, exp)]);
            |u.tokens| == |t.tokens| + 1 &&
            (u.tokens[|t.tokens|].created == Newest(s.disk[|s.disk| - 1]).created <==> t.disk == s.disk)
  {
    var s1 := Step(cfg, s, GiveUp(q));
    var t := Run(cfg, s1, events);
    GiveUpKeepsInv(cfg, s, q);
    RunKeepsInv(cfg, s1, events);
    RunKeepsDisk(cfg, s1, events);
    NewestTellsRotation(cfg, t, |s.disk|);
    NextRequest(cfg, t, q, payload, exp);
  }

  /** The newest key is that of an earlier version exactly when nothing has been written since. */
  lemma NewestTellsRotation(cfg: Config, t: State, n: nat)
    requires Inv(cfg, t) && 0 < n <= |t.disk|
    ensures t.disk[n - 1].keys != [] && t.disk[|t.disk| - 1].keys != []
    ensures ActiveKey(t.disk[|t.disk| - 1]) == Some(Newest(t.disk[|t.disk| - 1]))
    ensures Newest(t.disk[|t.disk| - 1]).created == Newest(t.disk[n - 1]).created <==> n == |t.disk|
  {
    var last := t.disk[|t.disk| - 1];
    assert Sound(cfg, t.minted, t.clock, last) && Sound(cfg, t.minted, t.clock, t.disk[n - 1]);
    ActiveIsNewest(cfg, t.minted, t.clock, last);
    if n < |t.disk| { assert Younger(cfg, t.disk[n - 1], last); }
  }
}

/**
 Asymmetric signing keys: the keyset, its rotation and pruning, and signing and
 decoding with it.  Signatures are abstract: a token verifies under a key exactly
 when that key signed it, and key ids are distinct.

 Source: app/core/signing_keys.py.
 */
module SigningKeys {
  import opened Common

  datatype Key = Key(kid: nat, created: int)

  datatype Keyset = Keyset(active: nat, keys: seq<Key>)

  /** The check interval is at least one second, as the constructor enforces. */
  datatype Config = Config(enabled: bool, interval: int, retention: int, checkEvery: int)

  predicate ValidConfig(cfg: Config) {
    cfg.checkEvery >= 1
  }

  predicate Rotating(cfg: Config) {
    cfg.enabled && cfg.interval > 0
  }

  /** How long a key outlives its creation at least. */
  function Kept(cfg: Config): int {
    if cfg.retention > 0 then cfg.retention else 0
  }

  function Initial(key: Key): Keyset {
    Keyset(key.kid, [key])
  }

  /** The first key carrying the active kid. */
  function ActiveKey(ks: Keyset): Option<Key> {
    FindKid(ks.keys, ks.active)
  }

  function FindKid(keys: seq<Key>, kid: nat): (r: Option<Key>)
    ensures r.Some? ==> r.value in keys && r.value.kid == kid
  {
    if keys == [] then None
    else if keys[0].kid == kid then Some(keys[0])
    else FindKid(keys[1..], kid)
  }

  predicate Due(cfg: Config, key: Key, now: int) {
    now - key.created >= cfg.interval
  }

  predicate Retained(cfg: Config, key: Key, active: nat, now: int) {
    key.kid == active || key.created >= now - Kept(cfg)
  }

  function Prune(cfg: Config, keys: seq<Key>, active: nat, now: int): seq<Key> {
    if keys == [] then []
    else
      var last := |keys| - 1;
      Prune(cfg, keys[..last], active, now) +
      if Retained(cfg, keys[last], active, now) then [keys[last]] else []
  }

  /** The keyset a rotation writes: the new key appended, then old keys pruned. */
  function Rotated(cfg: Config, ks: Keyset, key: Key, pruneAt: int): Keyset {
    Keyset(key.kid, Prune(cfg, ks.keys + [key], key.kid, pruneAt))
  }

  function WithKid(keys: seq<Key>, kid: nat): seq<Key> {
    if keys == [] then []
    else (if keys[0].kid == kid then [keys[0]] else []) + WithKid(keys[1..], kid)
  }

  /** The keys a token is tried against: those with its kid, or all of them. */
  function Candidates(ks: Keyset, kid: Option<nat>): seq<Key> {
    if kid.Some? && WithKid(ks.keys, kid.value) != [] then WithKid(ks.keys, kid.value) else ks.keys
  }

  datatype Token = Token(kid: Option<nat>, signer: nat, payload: string, exp: int)

  datatype Error = InvalidSignature | ExpiredSignature | NoKeys | MissingActiveKey | LockTimeout

  function Verify(token: Token, key: Key, now: int): Result<string, Error> {
    if token.signer != key.kid then Err(InvalidSignature)
    else if token.exp <= now then Err(ExpiredSignature)
    else Ok(token.payload)
  }

  /** The first candidate that verifies decides; otherwise the last failure is raised. */
  function DecodeWith(candidates: seq<Key>, token: Token, now: int): Result<string, Error> {
    if candidates == [] then Err(NoKeys)
    else
      var first := Verify(token, candidates[0], now);
      if first.Ok? || |candidates| == 1 then first else DecodeWith(candidates[1..], token, now)
  }

  /*** Facts about pruning and decoding ***/

  /** Pruning keeps a key exactly when it is the active one, or was created less than the retention ago, or only now. */
  lemma {:induction false} PruneKeeps(cfg: Config, keys: seq<Key>, active: nat, now: int, key: Key)
    ensures key in Prune(cfg, keys, active, now) <==>
            key in keys && (key.kid == active || key.created >= now || key.created + cfg.retention >= now)
  {
    if keys != [] {
      var last := |keys| - 1;
      assert keys == keys[..last] + [keys[last]];
      PruneKeeps(cfg, keys[..last], active, now, key);
    }
  }

  /** Keys in creation order. */
  predicate Ordered(cfg: Config, keys: seq<Key>) {
    forall i, j :: 0 <= i < j < |keys| ==>
      keys[i].kid < keys[j].kid && keys[i].created < keys[j].created
      && keys[i].created + cfg.interval <= keys[j].created
  }

  /** On keys in creation order with the active key last, pruning drops a prefix. */
  lemma {:induction false} PruneDropsPrefix(cfg: Config, keys: seq<Key>, active: nat, now: int) returns (k: nat)
    requires Ordered(cfg, keys) && keys != [] && keys[|keys| - 1].kid == active
    ensures k < |keys| && Prune(cfg, keys, active, now) == keys[k..]
    ensures forall i :: 0 <= i < k ==> keys[i].created < now && keys[i].created + cfg.retention < now
    ensures k < |keys| - 1 ==> keys[k].created >= now || keys[k].created + cfg.retention >= now
  {
    var last := |keys| - 1;
    k := PruneYounger(cfg, keys[..last], active, now);
    assert keys[..last][k..] + [keys[last]] == keys[k..];
  }

  lemma {:induction false} PruneYounger(cfg: Config, keys: seq<Key>, active: nat, now: int) returns (k: nat)
    requires Ordered(cfg, keys) && forall i :: 0 <= i < |keys| ==> keys[i].kid != active
    ensures k <= |keys| && Prune(cfg, keys, active, now) == keys[k..]
    ensures forall i :: 0 <= i < k ==> keys[i].created < now - Kept(cfg)
    ensures k < |keys| ==> keys[k].created >= now - Kept(cfg)
  {
    if keys == [] {
      k := 0;
    } else {
      var last := |keys| - 1;
      k := PruneYounger(cfg, keys[..last], active, now);
      if Retained(cfg, keys[last], active, now) {
        assert keys[..last][k..] + [keys[last]] == keys[k..];
      } else {
        assert k == last;
        k := |keys|;
        assert keys[k..] == [];
      }
    }
  }

  lemma {:induction false} WithKidContains(keys: seq<Key>, kid: nat, key: Key)
    ensures key in WithKid(keys, kid) <==> key in keys && key.kid == kid
  {
    if keys != [] {
      WithKidContains(keys[1..], kid, key);
      assert keys == [keys[0]] + keys[1..];
    }
  }

  lemma {:induction false} DecodeWithSigner(candidates: seq<Key>, token: Token, now: int)
    requires candidates != [] && forall k :: k in candidates ==> k.kid == token.signer
    ensures DecodeWith(candidates, token, now) ==
            if token.exp <= now then Err(ExpiredSignature) else Ok(token.payload)
  {
    assert candidates[0] in candidates;
    if |candidates| > 1 {
      forall k | k in candidates[1..] ensures k.kid == token.signer { assert k in candidates; }
      DecodeWithSigner(candidates[1..], token, now);
    }
  }

  /** A keyset that still holds the signer decodes the token to its payload until it expires. */
  lemma DecodeFindsSigner(ks: Keyset, token: Token, key: Key, now: int)
    requires token.kid == Some(token.signer) && key.kid == token.signer && key in ks.keys
    ensures DecodeWith(Candidates(ks, token.kid), token, now) ==
            if token.exp <= now then Err(ExpiredSignature) else Ok(token.payload)
  {
    WithKidContains(ks.keys, token.signer, key);
    forall k | k in WithKid(ks.keys, token.signer) ensures k.kid == token.signer {
      WithKidContains(ks.keys, token.signer, k);
    }
    DecodeWithSigner(WithKid(ks.keys, token.signer), token, now);
  }

  /** A keyset that no longer holds the signer never decodes the token. */
  lemma {:induction false} DecodeNeedsSigner(keys: seq<Key>, token: Token, now: int)
    requires forall k :: k in keys ==> k.kid != token.signer
    ensures DecodeWith(keys, token, now).Err?
  {
    if keys != [] {
      assert keys[0] in keys;
      forall k | k in keys[1..] ensures k.kid != token.signer { assert k in keys; }
      DecodeNeedsSigner(keys[1..], token, now);
    }
  }

  /*** One process ***/

  /** What one call to ensure_ready leaves on disk when it obtains the lock. */
  function Loaded(disk: Option<Keyset>, now: int, freshKid: nat): Keyset {
    match disk
    case Some(ks) => ks
    case None => Initial(Key(freshKid, now))
  }

  predicate RotatesNow(cfg: Config, ks: Keyset, lastCheck: int, now: int) {
    Rotating(cfg) && now - lastCheck >= cfg.checkEvery &&
    ActiveKey(ks).Some? && Due(cfg, ActiveKey(ks).value, now)
  }

  function Ready(cfg: Config, disk: Option<Keyset>, lastCheck: int, now: int, freshKid: nat): Keyset {
    var ks := Loaded(disk, now, freshKid);
    if RotatesNow(cfg, ks, lastCheck, now) then Rotated(cfg, ks, Key(freshKid, now), now) else ks
  }

  lemma {:induction false} FindsFirst(keys: seq<Key>, kid: nat, n: nat)
    requires n < |keys| && keys[n].kid == kid && forall i :: 0 <= i < n ==> keys[i].kid != kid
    ensures FindKid(keys, kid) == Some(keys[n])
  {
    if n > 0 { FindsFirst(keys[1..], kid, n - 1); }
  }

  lemma {:induction false} FindsNone(keys: seq<Key>, kid: nat)
    requires forall k :: k in keys ==> k.kid != kid
    ensures FindKid(keys, kid) == None
  {
    if keys != [] {
      assert keys[0] in keys;
      FindsNone(keys[1..], kid);
    }
  }

  /** Rotation is enabled, the last check was at least a check interval ago, and the key is an interval old. */
  predicate IsDue(cfg: Config, created: int, lastCheck: int, now: int) {
    cfg.enabled && cfg.interval > 0 && now - lastCheck >= cfg.checkEvery && now - created >= cfg.interval
  }

  /**
   What an ensure_ready call that obtains the lock leaves on disk: a first keyset when
   there is none; the file as it is while its active key, the n-th, is not due; and otherwise
   the new key, active, with just those of the old keys that the retention still covers.
   */
  lemma ReadyMeans(cfg: Config, ks: Keyset, n: nat, lastCheck: int, now: int, freshKid: nat)
    requires n < |ks.keys| && ks.keys[n].kid == ks.active && forall i :: 0 <= i < n ==> ks.keys[i].kid != ks.active
    ensures Ready(cfg, None, lastCheck, now, freshKid) == Keyset(freshKid, [Key(freshKid, now)])
    ensures !IsDue(cfg, ks.keys[n].created, lastCheck, now) ==> Ready(cfg, Some(ks), lastCheck, now, freshKid) == ks
    ensures IsDue(cfg, ks.keys[n].created, lastCheck, now) ==>
              var next := Ready(cfg, Some(ks), lastCheck, now, freshKid);
              next.active == freshKid &&
              forall k :: k in next.keys <==>
                k == Key(freshKid, now) ||
                (k in ks.keys && (k.kid == freshKid || k.created >= now || k.created + cfg.retention >= now))
  {
    FindsFirst(ks.keys, ks.active, n);
    var key := Key(freshKid, now);
    forall k
      ensures k in Prune(cfg, ks.keys + [key], freshKid, now) <==>
              k == key || (k in ks.keys && (k.kid == freshKid || k.created >= now || k.created + cfg.retention >= now))
    {
      PruneKeeps(cfg, ks.keys + [key], freshKid, now, k);
    }
  }

  /** The keyset file and its lock file; every write changes the modification time. */
  class KeysetFile {
    var content: Option<Keyset>
    var mtime: nat
    var locked: bool

    constructor ()
      ensures content == None && !locked
    {
      content, mtime, locked := None, 0, false;
    }
  }

  class SigningKeyManager {
    const cfg: Config
    const file: KeysetFile
    var state: Option<Keyset>
    var stateMtime: Option<nat>
    var lastRotationCheck: int

    /** A cached keyset whose modification time is current is the one on disk. */
    ghost predicate Valid()
      reads this, file
    {
      ValidConfig(cfg) &&
      (stateMtime.Some? ==> state.Some? && stateMtime.value <= file.mtime) &&
      (stateMtime == Some(file.mtime) && file.content.Some? ==> state == file.content)
    }

    ghost predicate Fresh()
      reads this, file
    {
      Valid() && file.content.Some? && stateMtime == Some(file.mtime)
    }

    constructor (cfg: Config, file: KeysetFile)
      requires ValidConfig(cfg)
      ensures Valid() && this.cfg == cfg && this.file == file
      ensures state == None && lastRotationCheck == 0
    {
      this.cfg, this.file := cfg, file;
      state, stateMtime, lastRotationCheck := None, None, 0;
    }

    method LoadStateFromDisk()
      requires Valid() && file.content.Some?
      modifies this`state, this`stateMtime
      ensures Fresh() && state == file.content
    {
      state := file.content;
      stateMtime := Some(file.mtime);
    }

    method WriteState(ks: Keyset)
      requires Valid()
      modifies this`state, this`stateMtime, file`content, file`mtime
      ensures Fresh() && file.content == Some(ks) && state == Some(ks) && file.mtime == old(file.mtime) + 1
    {
      file.content, file.mtime := Some(ks), file.mtime + 1;
      state := Some(ks);
      stateMtime := Some(file.mtime);
    }

    method GetActiveKey(ks: Keyset) returns (r: Option<Key>)
      ensures r == ActiveKey(ks)
      ensures r.Some? ==> exists n :: 0 <= n < |ks.keys| && r.value == ks.keys[n] && ks.keys[n].kid == ks.active &&
                                      forall i :: 0 <= i < n ==> ks.keys[i].kid != ks.active
      ensures r.None? <==> forall k :: k in ks.keys ==> k.kid != ks.active
    {
      for n := 0 to |ks.keys|
        invariant FindKid(ks.keys[n..], ks.active) == ActiveKey(ks)
        invariant forall i :: 0 <= i < n ==> ks.keys[i].kid != ks.active
      {
        assert ks.keys[n..][1..] == ks.keys[n + 1..];
        if ks.keys[n].kid == ks.active {
          return Some(ks.keys[n]);
        }
      }
      assert ks.keys[|ks.keys|..] == [];
      return None;
    }

    method PruneKeys(keys: seq<Key>, active: nat, now: int) returns (retained: seq<Key>)
      ensures retained == Prune(cfg, keys, active, now)
      ensures forall k :: k in retained <==>
                k in keys && (k.kid == active || k.created >= now || k.created + cfg.retention >= now)
    {
      var cutoff := now - Kept(cfg);
      retained := [];
      for n := 0 to |keys|
        invariant retained == Prune(cfg, keys[..n], active, now)
      {
        if keys[n].kid == active || keys[n].created >= cutoff {
          retained := retained + [keys[n]];
        }
        assert keys[..n + 1][..n] == keys[..n];
      }
      assert keys[..|keys|] == keys;
      forall k
        ensures k in retained <==>
                k in keys && (k.kid == active || k.created >= now || k.created + cfg.retention >= now)
      {
        PruneKeeps(cfg, keys, active, now, k);
      }
    }

    method GetCandidateKeys(ks: Keyset, kid: Option<nat>) returns (r: seq<Key>)
      ensures r == Candidates(ks, kid)
      ensures kid.None? || (forall k :: k in ks.keys ==> k.kid != kid.value) ==> r == ks.keys
      ensures kid.Some? && (exists k :: k in ks.keys && k.kid == kid.value) ==>
                forall k :: k in r <==> k in ks.keys && k.kid == kid.value
    {
      if kid.Some? {
        forall k ensures k in WithKid(ks.keys, kid.value) <==> k in ks.keys && k.kid == kid.value {
          WithKidContains(ks.keys, kid.value, k);
        }
        var matches := [];
        for n := 0 to |ks.keys|
          invariant matches + WithKid(ks.keys[n..], kid.value) == WithKid(ks.keys, kid.value)
        {
          assert ks.keys[n..][1..] == ks.keys[n + 1..];
          if ks.keys[n].kid == kid.value {
            matches := matches + [ks.keys[n]];
          }
        }
        assert ks.keys[|ks.keys|..] == [];
        if matches != [] {
          assert matches[0] in WithKid(ks.keys, kid.value);
          return matches;
        }
      }
      return ks.keys;
    }

    /** Loads the keyset when it changed on disk, or writes the first one under the lock. */
    method EnsureStateLoaded(now: int, freshKid: nat) returns (r: Result<(), Error>)
      requires Valid()
      modifies this`state, this`stateMtime, file`content, file`mtime
      ensures Valid()
      ensures r.Err? <==> old(file.content.None? && file.locked)
      ensures r.Err? ==> r.error == LockTimeout && file.content == old(file.content)
      ensures r.Ok? ==> Fresh() && file.content == Some(Loaded(old(file.content), now, freshKid))
      ensures r.Ok? ==> file.content == if old(file.content).Some? then old(file.content)
                                        else Some(Keyset(freshKid, [Key(freshKid, now)]))
      ensures old(file.content).Some? ==> file.mtime == old(file.mtime)
    {
      if file.content.Some? {
        if state.None? || stateMtime != Some(file.mtime) {
          LoadStateFromDisk();
        }
        return Ok(());
      }
      if file.locked {
        return Err(LockTimeout);
      }
      WriteState(Initial(Key(freshKid, now)));
      return Ok(());
    }

    /** Rotates when the age check is due; the keyset is reloaded and rechecked under the lock. */
    method MaybeRotate(now: int, freshKid: nat) returns (r: Result<(), Error>)
      requires Fresh()
      modifies this, file`content, file`mtime
      ensures Fresh()
      ensures lastRotationCheck == if cfg.enabled && cfg.interval > 0 && now - old(lastRotationCheck) >= cfg.checkEvery
                                   then now else old(lastRotationCheck)
      ensures r.Ok? && RotatesNow(cfg, old(file.content).value, old(lastRotationCheck), now) ==>
                file.content == Some(Rotated(cfg, old(file.content).value, Key(freshKid, now), now))
      ensures r.Err? || !RotatesNow(cfg, old(file.content).value, old(lastRotationCheck), now) ==>
                file.content == old(file.content)
      ensures r == Err(LockTimeout) <==>
              RotatesNow(cfg, old(file.content).value, old(lastRotationCheck), now) && old(file.locked)
      ensures r.Err? ==> r.error == LockTimeout || r.error == MissingActiveKey
      ensures r == Err(MissingActiveKey) ==> ActiveKey(old(file.content).value).None?
    {
      if !cfg.enabled || cfg.interval <= 0 {
        return Ok(());
      }
      if now - lastRotationCheck < cfg.checkEvery {
        return Ok(());
      }
      lastRotationCheck := now;
      var active := GetActiveKey(state.value);
      if active.None? {
        return Err(MissingActiveKey);
      }
      if now - active.value.created < cfg.interval {
        return Ok(());
      }
      if file.locked {
        return Err(LockTimeout);
      }
      LoadStateFromDisk();
      active := GetActiveKey(state.value);
      if active.None? {
        return Err(MissingActiveKey);
      }
      if now - active.value.created < cfg.interval {
        return Ok(());
      }
      var key := Key(freshKid, now);
      var keys := PruneKeys(state.value.keys + [key], key.kid, now);
      WriteState(Keyset(key.kid, keys));
      return Ok(());
    }

    method EnsureReady(now: int, freshKid: nat) returns (r: Result<(), Error>)
      requires Valid()
      modifies this, file`content, file`mtime
      ensures Valid()
      ensures r.Ok? ==> Fresh() && state == file.content
      ensures r.Ok? ==> file.content == Some(Ready(cfg, old(file.content), old(lastRotationCheck), now, freshKid))
      ensures old(!file.locked) && r.Err? ==> r.error == MissingActiveKey
      ensures r == Err(MissingActiveKey) ==> ActiveKey(Loaded(old(file.content), now, freshKid)).None?
    {
      r := EnsureStateLoaded(now, freshKid);
      if r.Err? {
        return;
      }
      r := MaybeRotate(now, freshKid);
    }

    /** Signs under the active key of the current keyset. */
    method SignToken(payload: string, exp: int, now: int, freshKid: nat) returns (r: Result<Token, Error>)
      requires Valid()
      modifies this, file`content, file`mtime
      ensures Valid()
      ensures r.Ok? ==>
                var ks := Ready(cfg, old(file.content), old(lastRotationCheck), now, freshKid);
                file.content == Some(ks) && ActiveKey(ks).Some? &&
                r.value == Token(Some(ks.active), ks.active, payload, exp)
    {
      var ready := EnsureReady(now, freshKid);
      if ready.Err? {
        return Err(ready.error);
      }
      var active := GetActiveKey(state.value);
      if active.None? {
        return Err(MissingActiveKey);
      }
      return Ok(Token(Some(active.value.kid), active.value.kid, payload, exp));
    }

    /** Tries the candidate keys in turn. */
    method DecodeToken(token: Token, now: int, freshKid: nat) returns (r: Result<string, Error>)
      requires Valid()
      modifies this, file`content, file`mtime
      ensures Valid()
      ensures old(!file.locked) && ActiveKey(Loaded(old(file.content), now, freshKid)).Some? ==>
                var ks := Ready(cfg, old(file.content), old(lastRotationCheck), now, freshKid);
                file.content == Some(ks) && r == DecodeWith(Candidates(ks, token.kid), token, now)
      ensures r.Ok? ==> r.value == token.payload && now < token.exp && file.content.Some?
      ensures r.Ok? ==> exists k :: k in file.content.value.keys && k.kid == token.signer
    {
      var ready := EnsureReady(now, freshKid);
      if ready.Err? {
        return Err(ready.error);
      }
      var ks := state.value;
      var candidates := GetCandidateKeys(ks, token.kid);
      forall k | k in candidates ensures k in ks.keys {
        if token.kid.Some? { WithKidContains(ks.keys, token.kid.value, k); }
      }
      r := Err(NoKeys);
      for n := 0 to |candidates|
        invariant r.Err?
        invariant n < |candidates| ==> DecodeWith(candidates[n..], token, now) == DecodeWith(candidates, token, now)
        invariant n == |candidates| ==> r == DecodeWith(candidates, token, now)
      {
        assert candidates[n..][1..] == candidates[n + 1..];
        r := Verify(token, candidates[n], now);
        if r.Ok? {
          return;
        }
      }
    }
  }
}

/** The two registration instructions. Each checks its accounts, creates the storage
    slot it writes to when the system program still owns it, tops the slot up to the
    minimum balance for one more entry and resizes it, appends the entry, charges the
    fixed fee to the payer in favour of the team account, writes the records back and
    bumps the registration counter. */
module AddProgram {
  import opened Host
  import opened Utils
  import opened State

  // ---------------------------------------------------------------------------
  // The slot-growth rule, on slot records
  // ---------------------------------------------------------------------------

  /** A slot the system program still owns must be empty to be created. */
  predicate Creatable(s: Slot)
  {
    s.owner == SYSTEM_PROGRAM_ID ==> s.lamports == 0 && s.data == []
  }

  /** The slot after the create-if-absent step: a system-owned slot becomes a
      program-owned slot of `space` bytes that starts with `bytes` (zero after them)
      and holds the minimum balance for `space`; any other slot is left alone. */
  function Created(env: Env, s: Slot, space: nat, bytes: seq<u8>): (c: Slot)
    ensures s.owner == SYSTEM_PROGRAM_ID ==>
      c.owner == PROGRAM_ID && c.lamports == env.minimumBalance(space) && |c.data| == space
    ensures s.owner == SYSTEM_PROGRAM_ID && |bytes| <= space ==> c.data[..|bytes|] == bytes
    ensures s.owner != SYSTEM_PROGRAM_ID ==> c == s
  {
    if s.owner == SYSTEM_PROGRAM_ID then Slot(PROGRAM_ID, env.minimumBalance(space), Resized(bytes, space))
    else s
  }

  /** What the payer spends on the create-if-absent step. */
  function CreationCost(env: Env, s: Slot, space: nat): nat
  {
    if s.owner == SYSTEM_PROGRAM_ID then env.minimumBalance(space) else 0
  }

  /** How far the slot's balance falls short of the minimum for `newSize` bytes. */
  function Shortfall(env: Env, s: Slot, newSize: nat): int
  {
    env.minimumBalance(newSize) - s.lamports
  }

  /** What the payer spends on the top-up step. */
  function TopUpCost(env: Env, s: Slot, newSize: nat): nat
  {
    if Shortfall(env, s, newSize) > 0 then Shortfall(env, s, newSize) else 0
  }

  /** The slot after the top-up step: when its balance is short of the minimum for
      `newSize` bytes it receives exactly the shortfall and is resized to `newSize`;
      otherwise it is left as it is, size included. */
  function Grown(env: Env, s: Slot, newSize: nat): (g: Slot)
    ensures g.owner == s.owner
    ensures g.lamports == s.lamports + TopUpCost(env, s, newSize)
    ensures g.lamports >= env.minimumBalance(newSize)
    ensures Shortfall(env, s, newSize) > 0 ==> g.lamports == env.minimumBalance(newSize) && |g.data| == newSize
    ensures Shortfall(env, s, newSize) <= 0 ==> g == s
  {
    if Shortfall(env, s, newSize) > 0 then
      Slot(s.owner, env.minimumBalance(newSize), Resized(s.data, newSize))
    else s
  }

  /** The minimum balance grows with the size. */
  ghost predicate Increasing(minimumBalance: nat -> nat)
  {
    forall m, n :: m < n ==> minimumBalance(m) < minimumBalance(n)
  }

  /** A slot that holds exactly the minimum balance for its size is always short for
      a larger size, so the top-up step grows it and leaves it again holding exactly
      the minimum balance for its (new) size. */
  lemma ExactlyFundedSlotGrows(env: Env, s: Slot, newSize: nat)
    requires Increasing(env.minimumBalance)
    requires s.lamports == env.minimumBalance(|s.data|) && |s.data| < newSize
    ensures Grown(env, s, newSize) == Slot(s.owner, env.minimumBalance(newSize), Resized(s.data, newSize))
    ensures Grown(env, s, newSize).lamports == env.minimumBalance(|Grown(env, s, newSize).data|)
  {
    assert env.minimumBalance(|s.data|) < env.minimumBalance(newSize);
  }

  /** After the top-up step, the page has room for the record with one more key
      exactly when the slot was short, that is, exactly when it was resized. */
  lemma GrownPageFits(env: Env, s: Slot, program: Pubkey)
    requires DecodedPrograms(s).Some? && |DecodedPrograms(s).value| < MAX_PROGRAMS_PER_STORAGE_ACCOUNT
    ensures var list := DecodedPrograms(s).value;
      |SerializeStorage(STORAGE_VALIDATION_PHASE, list + [program])| <= |Grown(env, s, |s.data| + 32).data|
      <==> Shortfall(env, s, |s.data| + 32) > 0
  {
  }

  /** `GrownPageFits` for the page as the storage half leaves it: the staged record
      fits the grown slot exactly when the page was short. */
  lemma StagedRecordFits(env: Env, s: Slot, grown: Slot, record: seq<u8>, program: Pubkey)
    requires DecodedPrograms(PreparedStorage(env, s)).Some?
    requires |DecodedPrograms(PreparedStorage(env, s)).value| < MAX_PROGRAMS_PER_STORAGE_ACCOUNT
    requires grown == Grown(env, PreparedStorage(env, s), |PreparedStorage(env, s).data| + 32)
    requires record == SerializeStorage(STORAGE_VALIDATION_PHASE, DecodedPrograms(PreparedStorage(env, s)).value + [program])
    ensures |record| <= |grown.data| <==> StorageShortfall(env, s) > 0
  {
    GrownPageFits(env, PreparedStorage(env, s), program);
  }

  /** A page that was short for one more key ends, once the new record is written
      into the grown buffer, as the program-owned encoding of the longer list with
      exactly the minimum balance for its size. */
  lemma PageAfterRegistration(env: Env, s: Slot, program: Pubkey)
    requires DecodedPrograms(PreparedStorage(env, s)).Some?
    requires |DecodedPrograms(PreparedStorage(env, s)).value| < MAX_PROGRAMS_PER_STORAGE_ACCOUNT
    requires StorageShortfall(env, s) > 0
    ensures var p := PreparedStorage(env, s);
      var list := DecodedPrograms(p).value;
      Grown(env, p, |p.data| + 32).(data := SerializeStorage(STORAGE_VALIDATION_PHASE, list + [program]))
      == Slot(PROGRAM_ID, env.minimumBalance(8 + 32 * (|list| + 1)), SerializeStorage(STORAGE_VALIDATION_PHASE, list + [program]))
  {
  }

  /** The storage slot once created, as `Storage::default()` (8 bytes) dictates. */
  function PreparedStorage(env: Env, s: Slot): (p: Slot)
    ensures p == Created(env, s, 8, DEFAULT_STORAGE_BYTES)
  {
    if s.owner == SYSTEM_PROGRAM_ID then Slot(PROGRAM_ID, env.minimumBalance(8), DEFAULT_STORAGE_BYTES) else s
  }

  /** A freshly created page decodes to the empty list. */
  lemma CreatedPageIsEmpty(env: Env, s: Slot)
    requires s.owner == SYSTEM_PROGRAM_ID
    ensures DecodedPrograms(PreparedStorage(env, s)) == Some([])
  {
    assert PreparedStorage(env, s) == Slot(PROGRAM_ID, env.minimumBalance(8), DEFAULT_STORAGE_BYTES);
    DecodeSerializedStorage(env.minimumBalance(8), []);
  }

  /** An existing page that `Storage::decode` rejects: it is not created afresh, so
      the registration reaches the decode and panics there. */
  predicate PageUndecodable(s: Slot)
  {
    s.owner != SYSTEM_PROGRAM_ID && DecodedPrograms(s).None?
  }

  /** Whether the storage half of a registration (create, decode, top up, append)
      succeeds, in terms of the slot and the payer before it. */
  predicate StorageStagePasses(env: Env, payerSigner: bool, payerLamports: nat, s: Slot)
  {
    && Creatable(s)
    && DecodedPrograms(PreparedStorage(env, s)).Some?
    && |DecodedPrograms(PreparedStorage(env, s)).value| < MAX_PROGRAMS_PER_STORAGE_ACCOUNT
    && (s.owner == SYSTEM_PROGRAM_ID || StorageShortfall(env, s) > 0 ==> payerSigner)
    && StorageStageCost(env, s) <= payerLamports
  }

  /** The page's shortfall against the minimum balance for one more key. */
  function StorageShortfall(env: Env, s: Slot): int
  {
    Shortfall(env, PreparedStorage(env, s), |PreparedStorage(env, s).data| + 32)
  }

  /** What the storage half costs the payer. */
  function StorageStageCost(env: Env, s: Slot): nat
  {
    CreationCost(env, s, 8) + TopUpCost(env, PreparedStorage(env, s), |PreparedStorage(env, s).data| + 32)
  }

  // ---------------------------------------------------------------------------
  // The steps, on accounts
  // ---------------------------------------------------------------------------

  /** A slot the system program owns is created at `space` bytes with the minimum
      balance for them, paid by `payer`, and `bytes` (a default record) is written
      into it; any other slot is left alone. */
  method CreateIfAbsent(env: Env, programId: Pubkey, payer: Account, slot: Account, space: nat, bytes: seq<u8>)
    returns (r: Result<()>)
    requires programId == PROGRAM_ID && payer != slot
    modifies payer, slot
    ensures old(slot.owner) != SYSTEM_PROGRAM_ID ==>
      r.Ok? && payer.Snapshot() == old(payer.Snapshot()) && slot.Snapshot() == old(slot.Snapshot())
    ensures old(slot.owner) == SYSTEM_PROGRAM_ID ==>
      (r.Ok? <==>
        Creatable(old(slot.Snapshot())) && payer.isSigner
        && env.minimumBalance(space) <= old(payer.lamports) && |bytes| <= space)
    ensures r.Ok? && old(slot.owner) == SYSTEM_PROGRAM_ID ==>
      && slot.Snapshot() == Created(env, old(slot.Snapshot()), space, bytes)
      && payer.Snapshot() == old(payer.Snapshot()).(lamports := old(payer.lamports) - env.minimumBalance(space))
  {
    if slot.owner == SYSTEM_PROGRAM_ID {
      var created := CreateAccount(payer, slot, env.minimumBalance(space), space, programId);
      if created.Err? {
        return Err(created.error);
      }
      r := Serialize(slot, bytes);
      if r.Ok? {
        assert slot.data == Resized(bytes, space);
      }
    } else {
      r := Ok(());
    }
  }

  /** The payer tops the slot up by the shortfall against the minimum balance for
      `space + extra` bytes and, only when that shortfall was positive, the slot is
      resized to `space + extra`. */
  method TopUpAndResize(env: Env, payer: Account, slot: Account, space: nat, extra: nat) returns (r: Result<()>)
    requires payer != slot
    modifies payer, slot
    ensures Shortfall(env, old(slot.Snapshot()), space + extra) <= 0 ==> r.Ok?
    ensures Shortfall(env, old(slot.Snapshot()), space + extra) > 0 ==>
      r == old(TransferStatus(payer, Shortfall(env, slot.Snapshot(), space + extra)))
    ensures r.Ok? ==>
      && slot.Snapshot() == Grown(env, old(slot.Snapshot()), space + extra)
      && payer.Snapshot() == old(payer.Snapshot()).(lamports := old(payer.lamports) - TopUpCost(env, old(slot.Snapshot()), space + extra))
    ensures r.Err? ==> payer.Snapshot() == old(payer.Snapshot()) && slot.Snapshot() == old(slot.Snapshot())
  {
    var transferLamports: int := env.minimumBalance(space + extra) - slot.lamports;
    if transferLamports > 0 {
      r := Transfer(payer, slot, transferLamports);
      if r.Err? {
        return;
      }
      Realloc(slot, space + extra);
    } else {
      r := Ok(());
    }
  }

  /** The first steps of the storage half: create the page if absent and decode it
      (a panic when that fails); the decoded record is returned. */
  method OpenStorage(env: Env, programId: Pubkey, payer: Account, storage: Account)
    returns (r: ProgramResult, decoded: Storage?)
    requires programId == PROGRAM_ID && payer != storage
    modifies payer, storage
    ensures r == Success <==>
      && Creatable(old(storage.Snapshot()))
      && (old(storage.owner) == SYSTEM_PROGRAM_ID ==> payer.isSigner && env.minimumBalance(8) <= old(payer.lamports))
      && DecodedPrograms(PreparedStorage(env, old(storage.Snapshot()))).Some?
    ensures PageUndecodable(old(storage.Snapshot())) ==> r == Panicked
    ensures r == Success ==>
      && decoded != null && fresh(decoded)
      && decoded.validationPhase == STORAGE_VALIDATION_PHASE
      && decoded.programs == DecodedPrograms(PreparedStorage(env, old(storage.Snapshot()))).value
      && storage.Snapshot() == PreparedStorage(env, old(storage.Snapshot()))
      && payer.Snapshot() == old(payer.Snapshot()).(lamports := old(payer.lamports) - CreationCost(env, old(storage.Snapshot()), 8))
  {
    decoded := null;
    ghost var before := storage.Snapshot();
    if before.owner == SYSTEM_PROGRAM_ID {
      CreatedPageIsEmpty(env, before);
    }
    var storageDefault := new Storage.Default();
    var created := CreateIfAbsent(env, programId, payer, storage, storageDefault.GetSpace(), storageDefault.Serialize());
    if created.Err? {
      return Failure(created.error), null;
    }
    assert storage.Snapshot() == PreparedStorage(env, before);
    var found := Storage.Decode(storage);
    if found.None? {
      return Panicked, null;
    }
    r, decoded := Success, found.value;
  }

  /** The storage half of a registration: create the page if absent, decode it (a
      panic when that fails), fund and grow it for one more key, and append the key
      to the decoded record, which is returned for the caller to write back. */
  method StageStorage(env: Env, programId: Pubkey, payer: Account, storage: Account, program: Pubkey)
    returns (r: ProgramResult, staged: Storage?)
    requires programId == PROGRAM_ID && payer != storage
    modifies payer, storage
    ensures r == Success <==> StorageStagePasses(env, payer.isSigner, old(payer.lamports), old(storage.Snapshot()))
    ensures PageUndecodable(old(storage.Snapshot())) ==> r == Panicked
    ensures r == Success ==>
      var p := PreparedStorage(env, old(storage.Snapshot()));
      && staged != null && fresh(staged)
      && staged.validationPhase == STORAGE_VALIDATION_PHASE
      && staged.programs == DecodedPrograms(p).value + [program]
      && storage.Snapshot() == Grown(env, p, |p.data| + 32)
      && payer.Snapshot() == old(payer.Snapshot()).(lamports := old(payer.lamports) - StorageStageCost(env, old(storage.Snapshot())))
  {
    staged := null;
    ghost var before := storage.Snapshot();
    ghost var prepared := PreparedStorage(env, before);
    var storageData: Storage?;
    r, storageData := OpenStorage(env, programId, payer, storage);
    if r != Success {
      return;
    }
    assert !PageUndecodable(before);
    var space := storageData.GetSpace();
    assert space == |prepared.data|;
    var topped := TopUpAndResize(env, payer, storage, space, 32);
    if topped.Err? {
      return Failure(topped.error), null;
    }
    var added := storageData.AddProgram(program);
    if added.Err? {
      return Failure(added.error), null;
    }
    r, staged := Success, storageData;
  }

  // ---------------------------------------------------------------------------
  // The account checks
  // ---------------------------------------------------------------------------

  /** Whether the checks that precede every write of the marketplace registration
      pass, as one predicate. */
  predicate MarketplaceAccountsValid(env: Env, programId: Pubkey, config: Account, registered: Account, team: Account, storage: Account)
    reads config, registered
  {
    && registered.owner == BPF_LOADER_UPGRADEABLE_ID
    && registered.executable
    && team.key == TEAM_ID
    && storage.key == env.findProgramAddress([STORAGE_SEED], programId).0
    && config.key == env.findProgramAddress([CONFIG_SEED], programId).0
    && config.owner == programId
    && Config.Decode(config).Some?
  }

  /** The checks of the marketplace registration, in the order the source makes them,
      ending in the decoded config header. */
  function MarketplaceGate(env: Env, programId: Pubkey, config: Account, registered: Account, team: Account, storage: Account)
    : (g: Guarded<Config>)
    reads config, registered
    ensures g.Proceed? <==> MarketplaceAccountsValid(env, programId, config, registered, team, storage)
    ensures g.Proceed? ==> Config.Decode(config) == Some(g.value)
    ensures registered.owner != BPF_LOADER_UPGRADEABLE_ID ==> g == Abort(Failure(Custom(0)))
    ensures registered.owner == BPF_LOADER_UPGRADEABLE_ID && !registered.executable ==> g == Abort(Panicked)
    ensures g.Abort? ==> g.result == Failure(Custom(0)) || g.result == Panicked
  {
    if AssertOwner(registered, BPF_LOADER_UPGRADEABLE_ID).Err? then Abort(Failure(AssertOwner(registered, BPF_LOADER_UPGRADEABLE_ID).error))
    else if !registered.executable then Abort(Panicked)
    else if AssertKeyMatch(team, TEAM_ID).Err? then Abort(Failure(AssertKeyMatch(team, TEAM_ID).error))
    else if AssertSeed(env, storage, programId, [STORAGE_SEED]).Err? then Abort(Failure(AssertSeed(env, storage, programId, [STORAGE_SEED]).error))
    else if AssertSeed(env, config, programId, [CONFIG_SEED]).Err? then Abort(Failure(AssertSeed(env, config, programId, [CONFIG_SEED]).error))
    else if AssertOwner(config, programId).Err? then Abort(Failure(AssertOwner(config, programId).error))
    else match Config.Decode(config)
      case None => Abort(Panicked)
      case Some(c) => Proceed(c)
  }

  /** The validator registration makes the same checks with one more, on the
      name-storage address, after the storage address. */
  function ValidatorGate(env: Env, programId: Pubkey, config: Account, registered: Account, team: Account, storage: Account, nameStorage: Account)
    : (g: Guarded<Config>)
    reads config, registered
    ensures g.Proceed? <==>
      MarketplaceAccountsValid(env, programId, config, registered, team, storage)
      && nameStorage.key == env.findProgramAddress([NAME_STORAGE_SEED], programId).0
    ensures g.Proceed? ==> Config.Decode(config) == Some(g.value)
    ensures registered.owner != BPF_LOADER_UPGRADEABLE_ID ==> g == Abort(Failure(Custom(0)))
    ensures registered.owner == BPF_LOADER_UPGRADEABLE_ID && !registered.executable ==> g == Abort(Panicked)
    ensures g.Abort? ==> g.result == Failure(Custom(0)) || g.result == Panicked
  {
    if AssertOwner(registered, BPF_LOADER_UPGRADEABLE_ID).Err? then Abort(Failure(AssertOwner(registered, BPF_LOADER_UPGRADEABLE_ID).error))
    else if !registered.executable then Abort(Panicked)
    else if AssertKeyMatch(team, TEAM_ID).Err? then Abort(Failure(AssertKeyMatch(team, TEAM_ID).error))
    else if AssertSeed(env, storage, programId, [STORAGE_SEED]).Err? then Abort(Failure(AssertSeed(env, storage, programId, [STORAGE_SEED]).error))
    else if AssertSeed(env, nameStorage, programId, [NAME_STORAGE_SEED]).Err? then Abort(Failure(AssertSeed(env, nameStorage, programId, [NAME_STORAGE_SEED]).error))
    else if AssertSeed(env, config, programId, [CONFIG_SEED]).Err? then Abort(Failure(AssertSeed(env, config, programId, [CONFIG_SEED]).error))
    else if AssertOwner(config, programId).Err? then Abort(Failure(AssertOwner(config, programId).error))
    else match Config.Decode(config)
      case None => Abort(Panicked)
      case Some(c) => Proceed(c)
  }

  // ---------------------------------------------------------------------------
  // The instructions
  // ---------------------------------------------------------------------------

  /** The accounts at the first `n` positions are distinct objects. */
  predicate DistinctPrefix(accounts: seq<Account>, n: nat)
  {
    forall i, j :: 0 <= i < j < |accounts| && j < n ==> accounts[i] != accounts[j]
  }

  /** The counter in the config account at position `i`, if it decodes, can still be
      incremented without overflow. */
  predicate CounterHasRoom(accounts: seq<Account>, i: nat)
    reads accounts
  {
    i < |accounts| && Config.Decode(accounts[i]).Some? ==> Config.Decode(accounts[i]).value.validatorNumeration < U32_MAX
  }

  /** The header with its counter one higher. */
  function Bumped(c: Config): (c': Config)
    requires c.validatorNumeration < U32_MAX
    ensures c'.validationPhase == c.validationPhase && c'.validatorNumeration == c.validatorNumeration + 1
  {
    c.(validatorNumeration := c.validatorNumeration + 1)
  }

  /** What a successful registration does to the storage page, the config header,
      the team account and the payer (each given before and after): the page holds
      exactly the encoding of its old list with the key appended and the minimum
      balance for that size; the counter goes up by one under the same tag and the
      rest of the config buffer is kept; the team receives `fee`; the payer pays
      `fee`, the page's creation and top-up, and `otherCost`. */
  predicate Registered(
    env: Env, program: Pubkey, fee: nat, otherCost: nat,
    payer: Slot, payer': Slot, config: Slot, config': Slot, team: Slot, team': Slot, storage: Slot, storage': Slot)
  {
    && DecodedPrograms(PreparedStorage(env, storage)).Some?
    && |DecodedPrograms(PreparedStorage(env, storage)).value| < MAX_PROGRAMS_PER_STORAGE_ACCOUNT
    && Config.Deserialize(config.data).Some?
    && Config.Deserialize(config.data).value.validatorNumeration < U32_MAX
    && storage' == Slot(PROGRAM_ID, env.minimumBalance(8 + 32 * (|DecodedPrograms(PreparedStorage(env, storage)).value| + 1)),
                        SerializeStorage(STORAGE_VALIDATION_PHASE, DecodedPrograms(PreparedStorage(env, storage)).value + [program]))
    && Config.Deserialize(config.data).value.validationPhase == CONFIG_VALIDATION_PHASE
    && config' == config.(data := Bumped(Config.Deserialize(config.data).value).Serialize() + config.data[8..])
    && team' == team.(lamports := team.lamports + fee)
    && payer' == payer.(lamports := payer'.lamports)
    && payer.lamports == payer'.lamports + StorageStageCost(env, storage) + fee + otherCost
  }

  /** Whether a registration gets past its storage half and pays its fee, in terms
      of the slots before it: the storage half passes, the page is short for one
      more key (so it is resized and the new record fits), and the payer signs and
      can pay the storage half and the fee together. */
  predicate StoragePathPasses(env: Env, fee: nat, payerSigner: bool, payerLamports: nat, s: Slot)
  {
    && StorageStagePasses(env, payerSigner, payerLamports, s)
    && StorageShortfall(env, s) > 0
    && payerSigner
    && StorageStageCost(env, s) + fee <= payerLamports
  }

  /** The last writes of both registrations: the staged page record and the config
      header with its counter bumped, each serialised into the front of its buffer. */
  method WriteBack(storage: Account, staged: Storage, config: Account, configData: Config) returns (r: ProgramResult)
    requires storage != config
    requires |staged.programs| <= U32_MAX && configData.validatorNumeration < U32_MAX
    modifies storage, config
    ensures r == Success <==> |staged.Serialize()| <= |old(storage.data)| && 8 <= |old(config.data)|
    ensures r != Success ==> r == Failure(BorshIoError)
    ensures r == Success ==>
      && storage.Snapshot() == old(storage.Snapshot()).(data := staged.Serialize() + old(storage.data)[|staged.Serialize()|..])
      && config.Snapshot() == old(config.Snapshot()).(data := Bumped(configData).Serialize() + old(config.data)[8..])
  {
    var written := Serialize(storage, staged.Serialize());
    if written.Err? {
      return Failure(written.error);
    }
    var bumped := Bumped(configData);
    written := Serialize(config, bumped.Serialize());
    if written.Err? {
      return Failure(written.error);
    }
    r := Success;
  }

  /** The storage half followed by the fee: after it the payer has paid for the
      page and `fee` to the team, and the staged record waits to be written. */
  method StageAndPay(env: Env, fee: nat, programId: Pubkey, payer: Account, team: Account, storage: Account, program: Pubkey)
    returns (r: ProgramResult, staged: Storage?)
    requires programId == PROGRAM_ID && payer != storage && payer != team && team != storage
    modifies payer, team, storage
    ensures r == Success <==>
      && StorageStagePasses(env, payer.isSigner, old(payer.lamports), old(storage.Snapshot()))
      && payer.isSigner
      && StorageStageCost(env, old(storage.Snapshot())) + fee <= old(payer.lamports)
    ensures PageUndecodable(old(storage.Snapshot())) ==> r == Panicked
    ensures r == Success ==>
      var p := PreparedStorage(env, old(storage.Snapshot()));
      && staged != null && fresh(staged)
      && staged.validationPhase == STORAGE_VALIDATION_PHASE
      && staged.programs == DecodedPrograms(p).value + [program]
      && storage.Snapshot() == Grown(env, p, |p.data| + 32)
      && team.Snapshot() == old(team.Snapshot()).(lamports := old(team.lamports) + fee)
      && payer.Snapshot() == old(payer.Snapshot()).(lamports := payer.lamports)
      && old(payer.lamports) == payer.lamports + StorageStageCost(env, old(storage.Snapshot())) + fee
  {
    r, staged := StageStorage(env, programId, payer, storage, program);
    if r != Success {
      return;
    }
    var paid := Transfer(payer, team, fee);
    if paid.Err? {
      return Failure(paid.error), staged;
    }
  }

  /** Everything `add_marketplace_program` does once its account checks have passed
      and handed over the decoded config header. */
  method RegisterMarketplaceProgram(
    env: Env, u: Unmodelled, programId: Pubkey,
    payer: Account, config: Account, registered: Account, team: Account, storage: Account, configData: Config)
    returns (r: ProgramResult)
    requires programId == PROGRAM_ID
    requires payer != config && payer != team && payer != storage && config != team && config != storage && team != storage
    requires Config.Decode(config) == Some(configData) && configData.validatorNumeration < U32_MAX
    modifies payer, config, team, storage
    ensures r == Success <==>
      StoragePathPasses(env, u.programDeploymentPayback, payer.isSigner, old(payer.lamports), old(storage.Snapshot()))
    ensures
      && StorageStagePasses(env, payer.isSigner, old(payer.lamports), old(storage.Snapshot()))
      && StorageShortfall(env, old(storage.Snapshot())) <= 0
      && payer.isSigner
      && StorageStageCost(env, old(storage.Snapshot())) + u.programDeploymentPayback <= old(payer.lamports)
      ==> r == Failure(BorshIoError)
    ensures PageUndecodable(old(storage.Snapshot())) ==> r == Panicked
    ensures r == Success ==>
      Registered(env, registered.key, u.programDeploymentPayback, 0,
                 old(payer.Snapshot()), payer.Snapshot(), old(config.Snapshot()), config.Snapshot(),
                 old(team.Snapshot()), team.Snapshot(), old(storage.Snapshot()), storage.Snapshot())
  {
    ghost var payer0, config0, team0, storage0 := payer.Snapshot(), config.Snapshot(), team.Snapshot(), storage.Snapshot();
    var staged: Storage?;
    r, staged := StageAndPay(env, u.programDeploymentPayback, programId, payer, team, storage, registered.key);
    if r != Success {
      return;
    }
    StagedRecordFits(env, storage0, storage.Snapshot(), staged.Serialize(), registered.key);
    assert 8 <= |config.data| && Config.Deserialize(config.data) == Some(configData);
    ghost var grown := storage.Snapshot();
    r := WriteBack(storage, staged, config, configData);
    if r == Success {
      StepsMakeRegistered(env, registered.key, u.programDeploymentPayback, 0, configData,
                          payer0, payer.Snapshot(), config0, config.Snapshot(), team0, team.Snapshot(), storage0, storage.Snapshot(),
                          grown, staged.Serialize());
    }
  }

  /** The steps of a registration, each as its own contract states it, add up to
      `Registered`. */
  lemma StepsMakeRegistered(
    env: Env, program: Pubkey, fee: nat, otherCost: nat, configData: Config,
    payer: Slot, payer': Slot, config: Slot, config': Slot, team: Slot, team': Slot, storage: Slot, storage': Slot,
    grown: Slot, record: seq<u8>)
    requires DecodedPrograms(PreparedStorage(env, storage)).Some?
    requires |DecodedPrograms(PreparedStorage(env, storage)).value| < MAX_PROGRAMS_PER_STORAGE_ACCOUNT
    requires grown == Grown(env, PreparedStorage(env, storage), |PreparedStorage(env, storage).data| + 32)
    requires record == SerializeStorage(STORAGE_VALIDATION_PHASE, DecodedPrograms(PreparedStorage(env, storage)).value + [program])
    requires |record| <= |grown.data| && storage' == grown.(data := record + grown.data[|record|..])
    requires Config.Deserialize(config.data) == Some(configData)
    requires configData.validationPhase == CONFIG_VALIDATION_PHASE && configData.validatorNumeration < U32_MAX
    requires config' == config.(data := Bumped(configData).Serialize() + config.data[8..])
    requires team' == team.(lamports := team.lamports + fee)
    requires payer' == payer.(lamports := payer'.lamports)
    requires payer.lamports == payer'.lamports + StorageStageCost(env, storage) + fee + otherCost
    ensures Registered(env, program, fee, otherCost, payer, payer', config, config', team, team', storage, storage')
  {
    StagedRecordFits(env, storage, grown, record, program);
    assert storage' == grown.(data := record);
    PageAfterRegistration(env, storage, program);
  }

  /** A registration keeps the page decodable: afterwards it decodes to the old list
      with the key appended and holds exactly the minimum balance for its size, and
      the config header decodes to the bumped counter under the same tag. */
  lemma RegistrationKeepsRecordsDecodable(
    env: Env, program: Pubkey, fee: nat, otherCost: nat,
    payer: Slot, payer': Slot, config: Slot, config': Slot, team: Slot, team': Slot, storage: Slot, storage': Slot)
    requires Registered(env, program, fee, otherCost, payer, payer', config, config', team, team', storage, storage')
    ensures DecodedPrograms(storage') == Some(DecodedPrograms(PreparedStorage(env, storage)).value + [program])
    ensures storage'.lamports == env.minimumBalance(|storage'.data|)
    ensures Config.Deserialize(config'.data) == Some(Bumped(Config.Deserialize(config.data).value))
  {
    var list := DecodedPrograms(PreparedStorage(env, storage)).value;
    assert storage' == Slot(PROGRAM_ID, storage'.lamports, SerializeStorage(STORAGE_VALIDATION_PHASE, list + [program]));
    DecodeSerializedStorage(storage'.lamports, list + [program]);
    var c := Bumped(Config.Deserialize(config.data).value);
    assert config'.data[..8] == c.Serialize();
    ConfigRoundTrip(c);
    assert config'.data[..8] == c.Serialize()[..8];
  }

  /** A program-owned page holding exactly the minimum balance for its size (as every
      registration leaves it) is short for one more key when the minimum balance grows
      with the size, so the next registration resizes it. */
  lemma ExactlyFundedPageIsShort(env: Env, s: Slot)
    requires Increasing(env.minimumBalance)
    requires DecodedPrograms(s).Some? && s.lamports == env.minimumBalance(|s.data|)
    ensures StorageShortfall(env, s) > 0
  {
    assert PreparedStorage(env, s) == s;
    assert env.minimumBalance(|s.data|) < env.minimumBalance(|s.data| + 32);
  }

  /** `add_marketplace_program`: accounts payer, config, registered program, team,
      storage. */
  method AddMarketplaceProgram(env: Env, u: Unmodelled, programId: Pubkey, accounts: seq<Account>) returns (r: ProgramResult)
    requires programId == PROGRAM_ID
    requires DistinctPrefix(accounts, 5)
    requires CounterHasRoom(accounts, 1)
    modifies accounts
    ensures |accounts| < 5 ==> r == Failure(NotEnoughAccountKeys) && unchanged(accounts)
    ensures |accounts| >= 5 && old(MarketplaceGate(env, programId, accounts[1], accounts[2], accounts[3], accounts[4])).Abort? ==>
      r == old(MarketplaceGate(env, programId, accounts[1], accounts[2], accounts[3], accounts[4])).result && unchanged(accounts)
    ensures |accounts| >= 5 ==>
      (r == Success <==>
        && old(MarketplaceAccountsValid(env, programId, accounts[1], accounts[2], accounts[3], accounts[4]))
        && StoragePathPasses(env, u.programDeploymentPayback, accounts[0].isSigner, old(accounts[0].lamports), old(accounts[4].Snapshot())))
    ensures |accounts| >= 5 ==>
      (&& old(MarketplaceAccountsValid(env, programId, accounts[1], accounts[2], accounts[3], accounts[4]))
       && StorageStagePasses(env, accounts[0].isSigner, old(accounts[0].lamports), old(accounts[4].Snapshot()))
       && StorageShortfall(env, old(accounts[4].Snapshot())) <= 0
       && accounts[0].isSigner
       && StorageStageCost(env, old(accounts[4].Snapshot())) + u.programDeploymentPayback <= old(accounts[0].lamports)
       ==> r == Failure(BorshIoError))
    ensures
      && |accounts| >= 5
      && old(MarketplaceAccountsValid(env, programId, accounts[1], accounts[2], accounts[3], accounts[4]))
      && PageUndecodable(old(accounts[4].Snapshot()))
      ==> r == Panicked
    ensures r == Success ==>
      && Registered(env, accounts[2].key, u.programDeploymentPayback, 0,
                    old(accounts[0].Snapshot()), accounts[0].Snapshot(), old(accounts[1].Snapshot()), accounts[1].Snapshot(),
                    old(accounts[3].Snapshot()), accounts[3].Snapshot(), old(accounts[4].Snapshot()), accounts[4].Snapshot())
      && accounts[2].Snapshot() == old(accounts[2].Snapshot())
    ensures |accounts| >= 5 ==> UnchangedExcept(accounts, {accounts[0], accounts[1], accounts[3], accounts[4]})
  {
    if |accounts| < 5 {
      return Failure(NotEnoughAccountKeys);
    }
    var payer, config, registered, team, storage := accounts[0], accounts[1], accounts[2], accounts[3], accounts[4];
    var gate := MarketplaceGate(env, programId, config, registered, team, storage);
    if gate.Abort? {
      return gate.result;
    }
    r := RegisterMarketplaceProgram(env, u, programId, payer, config, registered, team, storage, gate.value);
  }

  // ---------------------------------------------------------------------------
  // The name half of the validator registration
  // ---------------------------------------------------------------------------

  /** The name slot once created, as `NameStorage::default()` dictates. */
  function PreparedName(env: Env, u: Unmodelled, s: Slot): Slot
  {
    Created(env, s, u.nameStorage.defaultSpace, u.nameStorage.defaultBytes)
  }

  /** The size the name slot is grown to: its decoded record's space plus room for
      the longest name. */
  function NameSize(env: Env, u: Unmodelled, s: Slot): nat
  {
    match u.nameStorage.decodedSpace(PreparedName(env, u, s))
    case Some(space) => space + u.maxNameLength
    case None => 0
  }

  function NameShortfall(env: Env, u: Unmodelled, s: Slot): int
  {
    Shortfall(env, PreparedName(env, u, s), NameSize(env, u, s))
  }

  /** What the name half costs the payer. */
  function NameStageCost(env: Env, u: Unmodelled, s: Slot): nat
  {
    CreationCost(env, s, u.nameStorage.defaultSpace) + TopUpCost(env, PreparedName(env, u, s), NameSize(env, u, s))
  }

  /** Whether the name half (create, decode, top up, add the name) succeeds, in terms
      of the slot and the payer before it. */
  predicate NameStagePasses(env: Env, u: Unmodelled, payerSigner: bool, payerLamports: nat, s: Slot, name: seq<u8>)
  {
    && Creatable(s)
    && (s.owner == SYSTEM_PROGRAM_ID ==> payerSigner && |u.nameStorage.defaultBytes| <= u.nameStorage.defaultSpace)
    && u.nameStorage.decodedSpace(PreparedName(env, u, s)).Some?
    && (NameShortfall(env, u, s) > 0 ==> payerSigner)
    && NameStageCost(env, u, s) <= payerLamports
    && u.nameStorage.addName(PreparedName(env, u, s).data, name).Ok?
  }

  /** The name record with the new name, written into the front of the grown slot
      (the grown slot itself where `add_name` fails or the record does not fit). */
  function NamedSlot(env: Env, u: Unmodelled, s: Slot, name: seq<u8>): (n: Slot)
    ensures var g := Grown(env, PreparedName(env, u, s), NameSize(env, u, s));
      var added := u.nameStorage.addName(PreparedName(env, u, s).data, name);
      added.Ok? && |added.value| <= |g.data| ==>
        n.owner == g.owner && n.lamports == g.lamports && n.data == added.value + g.data[|added.value|..]
  {
    var g := Grown(env, PreparedName(env, u, s), NameSize(env, u, s));
    match u.nameStorage.addName(PreparedName(env, u, s).data, name)
    case Err(_) => g
    case Ok(named) =>
      match WriteInto(g.data, named)
      case Ok(data) => g.(data := data)
      case Err(_) => g
  }

  /** Whether the encoding of the updated name record fits the grown name slot. */
  predicate NameFits(env: Env, u: Unmodelled, s: Slot, name: seq<u8>)
    requires u.nameStorage.addName(PreparedName(env, u, s).data, name).Ok?
  {
    |u.nameStorage.addName(PreparedName(env, u, s).data, name).value|
      <= |Grown(env, PreparedName(env, u, s), NameSize(env, u, s)).data|
  }

  /** The name half: create the name slot if absent, decode it (a panic when that
      fails), fund and grow it for the longest name, and add the name to the decoded
      record, whose encoding is returned for the caller to write back. */
  method StageName(env: Env, u: Unmodelled, programId: Pubkey, payer: Account, nameStorage: Account, name: seq<u8>)
    returns (r: ProgramResult, named: seq<u8>)
    requires programId == PROGRAM_ID && payer != nameStorage
    modifies payer, nameStorage
    ensures r == Success <==> NameStagePasses(env, u, payer.isSigner, old(payer.lamports), old(nameStorage.Snapshot()), name)
    ensures r == Success ==>
      var p := PreparedName(env, u, old(nameStorage.Snapshot()));
      && named == u.nameStorage.addName(p.data, name).value
      && nameStorage.Snapshot() == Grown(env, p, NameSize(env, u, old(nameStorage.Snapshot())))
      && payer.Snapshot() == old(payer.Snapshot()).(lamports := payer.lamports)
      && old(payer.lamports) == payer.lamports + NameStageCost(env, u, old(nameStorage.Snapshot()))
  {
    named := [];
    ghost var before := nameStorage.Snapshot();
    var created := CreateIfAbsent(env, programId, payer, nameStorage, u.nameStorage.defaultSpace, u.nameStorage.defaultBytes);
    if created.Err? {
      return Failure(created.error), [];
    }
    assert nameStorage.Snapshot() == PreparedName(env, u, before);
    var space := u.nameStorage.decodedSpace(nameStorage.Snapshot());
    if space.None? {
      return Panicked, [];
    }
    var record := nameStorage.data;
    var topped := TopUpAndResize(env, payer, nameStorage, space.value, u.maxNameLength);
    if topped.Err? {
      return Failure(topped.error), [];
    }
    var added := u.nameStorage.addName(record, name);
    if added.Err? {
      return Failure(added.error), [];
    }
    r, named := Success, added.value;
  }

  /** Whether the validator registration succeeds once its account checks have
      passed: the name half passes, then the storage path passes with what the payer
      has left, and the updated name record fits its grown slot. */
  predicate ValidatorPathPasses(env: Env, u: Unmodelled, name: seq<u8>, payerSigner: bool, payerLamports: nat, n: Slot, s: Slot)
  {
    && NameStagePasses(env, u, payerSigner, payerLamports, n, name)
    && StoragePathPasses(env, u.programDeploymentPayback, payerSigner, payerLamports - NameStageCost(env, u, n), s)
    && NameFits(env, u, n, name)
  }

  /** The last writes of the validator registration: the updated name record, then
      the page record and the config header as `WriteBack` writes them. */
  method WriteNamedBack(nameStorage: Account, named: seq<u8>, storage: Account, staged: Storage, config: Account, configData: Config)
    returns (r: ProgramResult)
    requires nameStorage != storage && nameStorage != config && storage != config
    requires |staged.programs| <= U32_MAX && configData.validatorNumeration < U32_MAX
    modifies nameStorage, storage, config
    ensures r == Success <==>
      |named| <= |old(nameStorage.data)| && |staged.Serialize()| <= |old(storage.data)| && 8 <= |old(config.data)|
    ensures r != Success ==> r == Failure(BorshIoError)
    ensures r == Success ==>
      && nameStorage.Snapshot() == old(nameStorage.Snapshot()).(data := named + old(nameStorage.data)[|named|..])
      && storage.Snapshot() == old(storage.Snapshot()).(data := staged.Serialize() + old(storage.data)[|staged.Serialize()|..])
      && config.Snapshot() == old(config.Snapshot()).(data := Bumped(configData).Serialize() + old(config.data)[8..])
  {
    var written := Serialize(nameStorage, named);
    if written.Err? {
      return Failure(written.error);
    }
    r := WriteBack(storage, staged, config, configData);
  }

  /** The part of the validator registration after its name half: the storage half
      and the fee, then the three records written back. */
  method CompleteValidatorProgram(
    env: Env, u: Unmodelled, programId: Pubkey, named: seq<u8>,
    payer: Account, config: Account, registered: Account, team: Account, storage: Account, nameStorage: Account,
    configData: Config)
    returns (r: ProgramResult)
    requires programId == PROGRAM_ID
    requires payer != config && payer != team && payer != storage && payer != nameStorage
    requires config != team && config != storage && config != nameStorage
    requires team != storage && team != nameStorage && storage != nameStorage
    requires Config.Decode(config) == Some(configData) && configData.validatorNumeration < U32_MAX
    modifies payer, config, team, storage, nameStorage
    ensures r == Success <==>
      && StoragePathPasses(env, u.programDeploymentPayback, payer.isSigner, old(payer.lamports), old(storage.Snapshot()))
      && |named| <= |old(nameStorage.data)|
    ensures PageUndecodable(old(storage.Snapshot())) ==> r == Panicked
    ensures r == Success ==>
      && Registered(env, registered.key, u.programDeploymentPayback, 0,
                    old(payer.Snapshot()), payer.Snapshot(), old(config.Snapshot()), config.Snapshot(),
                    old(team.Snapshot()), team.Snapshot(), old(storage.Snapshot()), storage.Snapshot())
      && nameStorage.Snapshot() == old(nameStorage.Snapshot()).(data := named + old(nameStorage.data)[|named|..])
  {
    ghost var payer0, config0, team0, storage0 := payer.Snapshot(), config.Snapshot(), team.Snapshot(), storage.Snapshot();
    var staged: Storage?;
    r, staged := StageAndPay(env, u.programDeploymentPayback, programId, payer, team, storage, registered.key);
    if r != Success {
      return;
    }
    StagedRecordFits(env, storage0, storage.Snapshot(), staged.Serialize(), registered.key);
    assert 8 <= |config.data| && Config.Deserialize(config.data) == Some(configData);
    ghost var grown := storage.Snapshot();
    r := WriteNamedBack(nameStorage, named, storage, staged, config, configData);
    if r == Success {
      StepsMakeRegistered(env, registered.key, u.programDeploymentPayback, 0, configData,
                          payer0, payer.Snapshot(), config0, config.Snapshot(), team0, team.Snapshot(), storage0, storage.Snapshot(),
                          grown, staged.Serialize());
    }
  }

  /** A payer charged `cost` before a registration that charged it `otherCost` has,
      overall, paid `cost + otherCost`. */
  lemma EarlierChargeAddsUp(
    env: Env, program: Pubkey, fee: nat, otherCost: nat, cost: nat,
    payer0: Slot, payer: Slot, payer': Slot, config: Slot, config': Slot, team: Slot, team': Slot, storage: Slot, storage': Slot)
    requires Registered(env, program, fee, otherCost, payer, payer', config, config', team, team', storage, storage')
    requires payer == payer0.(lamports := payer.lamports) && payer0.lamports == payer.lamports + cost
    ensures Registered(env, program, fee, otherCost + cost, payer0, payer', config, config', team, team', storage, storage')
  {
  }

  /** Everything `add_permissionless_validator_program` does once its account checks
      have passed and handed over the decoded config header. */
  method RegisterValidatorProgram(
    env: Env, u: Unmodelled, programId: Pubkey, name: seq<u8>,
    payer: Account, config: Account, registered: Account, team: Account, storage: Account, nameStorage: Account,
    configData: Config)
    returns (r: ProgramResult)
    requires programId == PROGRAM_ID
    requires payer != config && payer != team && payer != storage && payer != nameStorage
    requires config != team && config != storage && config != nameStorage
    requires team != storage && team != nameStorage && storage != nameStorage
    requires Config.Decode(config) == Some(configData) && configData.validatorNumeration < U32_MAX
    modifies payer, config, team, storage, nameStorage
    ensures r == Success <==>
      ValidatorPathPasses(env, u, name, payer.isSigner, old(payer.lamports), old(nameStorage.Snapshot()), old(storage.Snapshot()))
    ensures
      && NameStagePasses(env, u, payer.isSigner, old(payer.lamports), old(nameStorage.Snapshot()), name)
      && PageUndecodable(old(storage.Snapshot()))
      ==> r == Panicked
    ensures r == Success ==>
      && Registered(env, registered.key, u.programDeploymentPayback, NameStageCost(env, u, old(nameStorage.Snapshot())),
                    old(payer.Snapshot()), payer.Snapshot(), old(config.Snapshot()), config.Snapshot(),
                    old(team.Snapshot()), team.Snapshot(), old(storage.Snapshot()), storage.Snapshot())
      && nameStorage.Snapshot() == NamedSlot(env, u, old(nameStorage.Snapshot()), name)
  {
    ghost var payer0, nameBefore := payer.Snapshot(), nameStorage.Snapshot();
    var named: seq<u8>;
    r, named := StageName(env, u, programId, payer, nameStorage, name);
    if r != Success {
      return;
    }
    ghost var payer1, config1, team1, storage1 := payer.Snapshot(), config.Snapshot(), team.Snapshot(), storage.Snapshot();
    assert NameFits(env, u, nameBefore, name) <==> |named| <= |nameStorage.data|;
    r := CompleteValidatorProgram(env, u, programId, named, payer, config, registered, team, storage, nameStorage, configData);
    if r == Success {
      assert nameStorage.Snapshot() == NamedSlot(env, u, nameBefore, name);
      EarlierChargeAddsUp(env, registered.key, u.programDeploymentPayback, 0, NameStageCost(env, u, nameBefore),
                          payer0, payer1, payer.Snapshot(), config1, config.Snapshot(), team1, team.Snapshot(), storage1, storage.Snapshot());
    }
  }

  /** `add_permissionless_validator_program`: accounts payer, config, registered
      program, team, storage, name storage. */
  method AddPermissionlessValidatorProgram(env: Env, u: Unmodelled, programId: Pubkey, accounts: seq<Account>, name: seq<u8>)
    returns (r: ProgramResult)
    requires programId == PROGRAM_ID
    requires DistinctPrefix(accounts, 6)
    requires CounterHasRoom(accounts, 1)
    modifies accounts
    ensures |accounts| < 6 ==> r == Failure(NotEnoughAccountKeys) && unchanged(accounts)
    ensures |accounts| >= 6 && old(ValidatorGate(env, programId, accounts[1], accounts[2], accounts[3], accounts[4], accounts[5])).Abort? ==>
      r == old(ValidatorGate(env, programId, accounts[1], accounts[2], accounts[3], accounts[4], accounts[5])).result && unchanged(accounts)
    ensures |accounts| >= 6 ==>
      (r == Success <==>
        && old(MarketplaceAccountsValid(env, programId, accounts[1], accounts[2], accounts[3], accounts[4]))
        && accounts[5].key == env.findProgramAddress([NAME_STORAGE_SEED], programId).0
        && ValidatorPathPasses(env, u, name, accounts[0].isSigner, old(accounts[0].lamports), old(accounts[5].Snapshot()), old(accounts[4].Snapshot())))
    ensures
      && |accounts| >= 6
      && old(MarketplaceAccountsValid(env, programId, accounts[1], accounts[2], accounts[3], accounts[4]))
      && accounts[5].key == env.findProgramAddress([NAME_STORAGE_SEED], programId).0
      && NameStagePasses(env, u, accounts[0].isSigner, old(accounts[0].lamports), old(accounts[5].Snapshot()), name)
      && PageUndecodable(old(accounts[4].Snapshot()))
      ==> r == Panicked
    ensures r == Success ==>
      && Registered(env, accounts[2].key, u.programDeploymentPayback, NameStageCost(env, u, old(accounts[5].Snapshot())),
                    old(accounts[0].Snapshot()), accounts[0].Snapshot(), old(accounts[1].Snapshot()), accounts[1].Snapshot(),
                    old(accounts[3].Snapshot()), accounts[3].Snapshot(), old(accounts[4].Snapshot()), accounts[4].Snapshot())
      && accounts[5].Snapshot() == NamedSlot(env, u, old(accounts[5].Snapshot()), name)
      && accounts[2].Snapshot() == old(accounts[2].Snapshot())
    ensures |accounts| >= 6 ==> UnchangedExcept(accounts, {accounts[0], accounts[1], accounts[3], accounts[4], accounts[5]})
  {
    if |accounts| < 6 {
      return Failure(NotEnoughAccountKeys);
    }
    var payer, config, registered, team, storage, nameStorage := accounts[0], accounts[1], accounts[2], accounts[3], accounts[4], accounts[5];
    var gate := ValidatorGate(env, programId, config, registered, team, storage, nameStorage);
    if gate.Abort? {
      return gate.result;
    }
    r := RegisterValidatorProgram(env, u, programId, name, payer, config, registered, team, storage, nameStorage, gate.value);
  }
}

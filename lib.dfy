/** The program's entry point: the instruction enum and its Borsh tag encoding, the
    dispatch table, and the `Reset` instruction, which overwrites the three record
    pages with their defaults after checking their addresses. */
module Lib {
  import opened Host
  import opened Borsh
  import opened Utils
  import opened State
  import opened AddProgram

  datatype InstructionEnum =
    | InitConfig
    | AddValidatorProgram(name: seq<u8>)
    | RemovePrograms(programCount: u8)
    | AddMarketplaceProgram
    | Reset
    | Blank

  /** The instructions Borsh can encode: a name is well-formed UTF-8 whose length fits
      the `u32` prefix. */
  predicate WellFormed(i: InstructionEnum)
  {
    i.AddValidatorProgram? ==> |i.name| <= U32_MAX && ValidUtf8(i.name)
  }

  /** Borsh layout of the enum: the variant index, in declaration order, as one byte,
      then the variant's fields. */
  function EncodeInstruction(i: InstructionEnum): (b: seq<u8>)
    requires WellFormed(i)
    ensures |b| >= 1
  {
    match i
    case InitConfig => [0]
    case AddValidatorProgram(name) => [1] + StringBytes(name)
    case RemovePrograms(count) => [2, count]
    case AddMarketplaceProgram => [3]
    case Reset => [4]
    case Blank => [5]
  }

  /** `InstructionEnum::decode`: strict `try_from_slice`; `None` stands for the panic
      of its `unwrap` on an unknown variant, a malformed field or trailing bytes. */
  function DecodeInstruction(input: seq<u8>): (r: Option<InstructionEnum>)
    ensures |input| == 0 || input[0] > 5 ==> r.None?
    ensures r.Some? ==> WellFormed(r.value) && EncodeInstruction(r.value) == input
  {
    if |input| == 0 then None
    else if input[0] == 1 then
      match StringOf(input[1..])
      case None => None
      case Some(name) =>
        StringCanonical(input[1..]);
        assert input == [1] + input[1..];
        Some(AddValidatorProgram(name))
    else if input[0] == 2 then
      if |input| == 2 then Some(RemovePrograms(input[1])) else None
    else if |input| != 1 then None
    else if input[0] == 0 then Some(InitConfig)
    else if input[0] == 3 then Some(AddMarketplaceProgram)
    else if input[0] == 4 then Some(Reset)
    else if input[0] == 5 then Some(Blank)
    else None
  }

  lemma InstructionRoundTrip(i: InstructionEnum)
    requires WellFormed(i)
    ensures DecodeInstruction(EncodeInstruction(i)) == Some(i)
  {
    if i.AddValidatorProgram? {
      var b := EncodeInstruction(i);
      assert b[1..] == StringBytes(i.name);
      StringRoundTrip(i.name);
    }
  }

  /** What `process_instruction` does with a program id and an input. */
  datatype Handler =
    | Finish(result: ProgramResult)
    | RunValidator(name: seq<u8>)
    | RunMarketplace
    | RunReset

  /** The dispatch `match`: a foreign program id and an undecodable input panic,
      `InitConfig` succeeds doing nothing, the three live instructions run their
      handlers, and `RemovePrograms` and `Blank` fall into the
      `InvalidInstructionData` arm. */
  function Dispatch(programId: Pubkey, input: seq<u8>): (h: Handler)
    ensures programId != PROGRAM_ID || DecodeInstruction(input).None? ==> h == Finish(Panicked)
    ensures !h.Finish? ==> programId == PROGRAM_ID && DecodeInstruction(input).Some?
    ensures h.Finish? ==> h.result == Success || h.result == Panicked || h.result == Failure(InvalidInstructionData)
  {
    if programId != PROGRAM_ID then Finish(Panicked)
    else match DecodeInstruction(input)
      case None => Finish(Panicked)
      case Some(InitConfig) => Finish(Success)
      case Some(AddValidatorProgram(name)) => RunValidator(name)
      case Some(AddMarketplaceProgram) => RunMarketplace
      case Some(Reset) => RunReset
      case Some(_) => Finish(Failure(InvalidInstructionData))
  }

  /** The dispatch table, instruction by instruction, for encoded instructions. */
  lemma DispatchTable(i: InstructionEnum)
    requires WellFormed(i)
    ensures Dispatch(PROGRAM_ID, EncodeInstruction(i)) ==
      match i
      case InitConfig => Finish(Success)
      case AddValidatorProgram(name) => RunValidator(name)
      case RemovePrograms(_) => Finish(Failure(InvalidInstructionData))
      case AddMarketplaceProgram => RunMarketplace
      case Reset => RunReset
      case Blank => Finish(Failure(InvalidInstructionData))
  {
    InstructionRoundTrip(i);
  }

  /** Every input that reaches a handler is the encoding of the instruction it runs,
      and the program id is the registry's own. */
  lemma DispatchedInputsAreEncodings(programId: Pubkey, input: seq<u8>)
    requires !Dispatch(programId, input).Finish?
    ensures programId == PROGRAM_ID
    ensures Dispatch(programId, input).RunValidator? ==>
      |Dispatch(programId, input).name| <= U32_MAX && ValidUtf8(Dispatch(programId, input).name)
      && input == EncodeInstruction(AddValidatorProgram(Dispatch(programId, input).name))
    ensures Dispatch(programId, input).RunMarketplace? ==> input == EncodeInstruction(AddMarketplaceProgram)
    ensures Dispatch(programId, input).RunReset? ==> input == EncodeInstruction(Reset)
  {
  }

  // ---------------------------------------------------------------------------
  // Reset
  // ---------------------------------------------------------------------------

  /** The address checks of `Reset`, in the order the source makes them. */
  predicate ResetAddressesValid(env: Env, u: Unmodelled, programId: Pubkey, storage: Account, nameStorage: Account, marketplace: Account)
  {
    && storage.key == env.findProgramAddress([STORAGE_SEED], programId).0
    && nameStorage.key == env.findProgramAddress([NAME_STORAGE_SEED], programId).0
    && marketplace.key == env.findProgramAddress([u.marketplaceStorageSeed], programId).0
  }

  /** A slot whose buffer has had `bytes` serialised into its front. */
  function Overwritten(s: Slot, bytes: seq<u8>): (s': Slot)
    requires |bytes| <= |s.data|
    ensures s'.owner == s.owner && s'.lamports == s.lamports && |s'.data| == |s.data|
    ensures s'.data[..|bytes|] == bytes && s'.data[|bytes|..] == s.data[|bytes|..]
  {
    s.(data := WriteInto(s.data, bytes).value)
  }

  /** `Reset` writes the default page into the front of the buffer and does not
      shrink it: a page that ever held a key keeps trailing bytes, so the strict
      decoder rejects it and every later registration panics at `Storage::decode`. */
  lemma ResetGrownPageDoesNotDecode(s: Slot)
    requires |s.data| > 8
    ensures DecodedPrograms(Overwritten(s, DEFAULT_STORAGE_BYTES)) == None
  {
    var s' := Overwritten(s, DEFAULT_STORAGE_BYTES);
    var tail := s'.data[4..];
    assert DEFAULT_STORAGE_BYTES[4..8] == U32Bytes(0);
    assert tail[..4] == DEFAULT_STORAGE_BYTES[4..8];
    U32RoundTrip(0);
    assert KeyVecOf(tail) == None;
  }

  /** A program-owned page that was never grown is reset to the empty list. */
  lemma ResetUngrownPageIsEmpty(s: Slot)
    requires s.owner == PROGRAM_ID && |s.data| == 8
    ensures DecodedPrograms(Overwritten(s, DEFAULT_STORAGE_BYTES)) == Some([])
  {
    assert Overwritten(s, DEFAULT_STORAGE_BYTES) == Slot(PROGRAM_ID, s.lamports, DEFAULT_STORAGE_BYTES);
    DecodeSerializedStorage(s.lamports, []);
  }

  /** The three records `Reset` writes (positions one to three) are distinct
      accounts; the payer at position zero may be any account. */
  predicate ResetAccountsDistinct(accounts: seq<Account>)
  {
    forall i, j :: 1 <= i < j < |accounts| && j < 4 ==> accounts[i] != accounts[j]
  }

  /** The `Reset` arm: accounts payer, storage, name storage, marketplace storage.
      The payer is taken from the list but never checked. */
  method ResetStorages(env: Env, u: Unmodelled, programId: Pubkey, accounts: seq<Account>) returns (r: ProgramResult)
    requires ResetAccountsDistinct(accounts)
    modifies accounts
    ensures |accounts| < 4 ==> r == Failure(NotEnoughAccountKeys) && unchanged(accounts)
    ensures |accounts| >= 4 && !ResetAddressesValid(env, u, programId, accounts[1], accounts[2], accounts[3]) ==>
      r == Failure(Custom(0)) && unchanged(accounts)
    ensures |accounts| >= 4 && ResetAddressesValid(env, u, programId, accounts[1], accounts[2], accounts[3]) ==>
      (r == Success <==>
        && 8 <= |old(accounts[1].data)|
        && |u.nameStorage.defaultBytes| <= |old(accounts[2].data)|
        && |u.marketplaceStorageDefault| <= |old(accounts[3].data)|)
    ensures r == Success ==>
      && accounts[1].Snapshot() == Overwritten(old(accounts[1].Snapshot()), DEFAULT_STORAGE_BYTES)
      && accounts[2].Snapshot() == Overwritten(old(accounts[2].Snapshot()), u.nameStorage.defaultBytes)
      && accounts[3].Snapshot() == Overwritten(old(accounts[3].Snapshot()), u.marketplaceStorageDefault)
      && UnchangedExcept(accounts, {accounts[1], accounts[2], accounts[3]})
  {
    if |accounts| < 4 {
      return Failure(NotEnoughAccountKeys);
    }
    var storage, nameStorage, marketplace := accounts[1], accounts[2], accounts[3];
    var checked := AssertSeed(env, storage, programId, [STORAGE_SEED]);
    if checked.Err? {
      return Failure(checked.error);
    }
    checked := AssertSeed(env, nameStorage, programId, [NAME_STORAGE_SEED]);
    if checked.Err? {
      return Failure(checked.error);
    }
    checked := AssertSeed(env, marketplace, programId, [u.marketplaceStorageSeed]);
    if checked.Err? {
      return Failure(checked.error);
    }
    var storageData := new Storage.Default();
    var written := Serialize(storage, storageData.Serialize());
    if written.Err? {
      return Failure(written.error);
    }
    written := Serialize(nameStorage, u.nameStorage.defaultBytes);
    if written.Err? {
      return Failure(written.error);
    }
    written := Serialize(marketplace, u.marketplaceStorageDefault);
    if written.Err? {
      return Failure(written.error);
    }
    r := Success;
  }

  // ---------------------------------------------------------------------------
  // process_instruction
  // ---------------------------------------------------------------------------

  /** When an instruction succeeds, handler by handler, in terms of the accounts
      before it runs. */
  predicate SucceedsOn(env: Env, u: Unmodelled, programId: Pubkey, accounts: seq<Account>, input: seq<u8>)
    reads accounts
  {
    match Dispatch(programId, input)
    case Finish(result) => result == Success
    case RunMarketplace =>
      && |accounts| >= 5
      && MarketplaceAccountsValid(env, programId, accounts[1], accounts[2], accounts[3], accounts[4])
      && StoragePathPasses(env, u.programDeploymentPayback, accounts[0].isSigner, accounts[0].lamports, accounts[4].Snapshot())
    case RunValidator(name) =>
      && |accounts| >= 6
      && MarketplaceAccountsValid(env, programId, accounts[1], accounts[2], accounts[3], accounts[4])
      && accounts[5].key == env.findProgramAddress([NAME_STORAGE_SEED], programId).0
      && ValidatorPathPasses(env, u, name, accounts[0].isSigner, accounts[0].lamports, accounts[5].Snapshot(), accounts[4].Snapshot())
    case RunReset =>
      && |accounts| >= 4
      && ResetAddressesValid(env, u, programId, accounts[1], accounts[2], accounts[3])
      && 8 <= |accounts[1].data|
      && |u.nameStorage.defaultBytes| <= |accounts[2].data|
      && |u.marketplaceStorageDefault| <= |accounts[3].data|
  }

  /** A registration whose account checks pass (and, for a validator, whose name
      half passes) on an existing page that does not decode: it panics. */
  predicate RegistrationPanics(env: Env, u: Unmodelled, programId: Pubkey, accounts: seq<Account>, input: seq<u8>)
    reads accounts
  {
    match Dispatch(programId, input)
    case RunMarketplace =>
      && |accounts| >= 5
      && MarketplaceAccountsValid(env, programId, accounts[1], accounts[2], accounts[3], accounts[4])
      && PageUndecodable(accounts[4].Snapshot())
    case RunValidator(name) =>
      && |accounts| >= 6
      && MarketplaceAccountsValid(env, programId, accounts[1], accounts[2], accounts[3], accounts[4])
      && accounts[5].key == env.findProgramAddress([NAME_STORAGE_SEED], programId).0
      && NameStagePasses(env, u, accounts[0].isSigner, accounts[0].lamports, accounts[5].Snapshot(), name)
      && PageUndecodable(accounts[4].Snapshot())
    case _ => false
  }

  /** What a successful marketplace registration did: the payer, config, team and
      storage slots moved as `Registered` says, and every other account is as it was. */
  twostate predicate MarketplaceSucceeded(env: Env, u: Unmodelled, accounts: seq<Account>)
    reads accounts
  {
    && |accounts| >= 5
    && Registered(env, accounts[2].key, u.programDeploymentPayback, 0,
                  old(accounts[0].Snapshot()), accounts[0].Snapshot(), old(accounts[1].Snapshot()), accounts[1].Snapshot(),
                  old(accounts[3].Snapshot()), accounts[3].Snapshot(), old(accounts[4].Snapshot()), accounts[4].Snapshot())
    && accounts[2].Snapshot() == old(accounts[2].Snapshot())
    && UnchangedExcept(accounts, {accounts[0], accounts[1], accounts[3], accounts[4]})
  }

  /** What a successful validator registration did: as the marketplace one, with the
      name charge added and the name written into its slot. */
  twostate predicate ValidatorSucceeded(env: Env, u: Unmodelled, accounts: seq<Account>, name: seq<u8>)
    reads accounts
  {
    && |accounts| >= 6
    && Registered(env, accounts[2].key, u.programDeploymentPayback, NameStageCost(env, u, old(accounts[5].Snapshot())),
                  old(accounts[0].Snapshot()), accounts[0].Snapshot(), old(accounts[1].Snapshot()), accounts[1].Snapshot(),
                  old(accounts[3].Snapshot()), accounts[3].Snapshot(), old(accounts[4].Snapshot()), accounts[4].Snapshot())
    && accounts[5].Snapshot() == NamedSlot(env, u, old(accounts[5].Snapshot()), name)
    && accounts[2].Snapshot() == old(accounts[2].Snapshot())
    && UnchangedExcept(accounts, {accounts[0], accounts[1], accounts[3], accounts[4], accounts[5]})
  }

  /** What a successful reset did: the three records overwritten with their defaults,
      and every other account as it was. */
  twostate predicate ResetSucceeded(env: Env, u: Unmodelled, programId: Pubkey, accounts: seq<Account>)
    reads accounts
  {
    && |accounts| >= 4
    && ResetAddressesValid(env, u, programId, accounts[1], accounts[2], accounts[3])
    && 8 <= |old(accounts[1].data)|
    && |u.nameStorage.defaultBytes| <= |old(accounts[2].data)|
    && |u.marketplaceStorageDefault| <= |old(accounts[3].data)|
    && accounts[1].Snapshot() == Overwritten(old(accounts[1].Snapshot()), DEFAULT_STORAGE_BYTES)
    && accounts[2].Snapshot() == Overwritten(old(accounts[2].Snapshot()), u.nameStorage.defaultBytes)
    && accounts[3].Snapshot() == Overwritten(old(accounts[3].Snapshot()), u.marketplaceStorageDefault)
    && UnchangedExcept(accounts, {accounts[1], accounts[2], accounts[3]})
  }

  /** What a successful instruction did, handler by handler. */
  twostate predicate SucceededAs(env: Env, u: Unmodelled, programId: Pubkey, accounts: seq<Account>, input: seq<u8>)
    reads accounts
  {
    match Dispatch(programId, input)
    case Finish(_) => UnchangedExcept(accounts, {})
    case RunMarketplace => MarketplaceSucceeded(env, u, accounts)
    case RunValidator(name) => ValidatorSucceeded(env, u, accounts, name)
    case RunReset => ResetSucceeded(env, u, programId, accounts)
  }

  /** `process_instruction`. The registration handlers are modelled for accounts at
      distinct positions and a counter with room for one more, `Reset` for three
      distinct records; the other arms take any accounts. */
  method ProcessInstruction(env: Env, u: Unmodelled, programId: Pubkey, accounts: seq<Account>, input: seq<u8>)
    returns (r: ProgramResult)
    requires Dispatch(programId, input).RunMarketplace? ==> DistinctPrefix(accounts, 5) && CounterHasRoom(accounts, 1)
    requires Dispatch(programId, input).RunValidator? ==> DistinctPrefix(accounts, 6) && CounterHasRoom(accounts, 1)
    requires Dispatch(programId, input).RunReset? ==> ResetAccountsDistinct(accounts)
    modifies accounts
    ensures Dispatch(programId, input).Finish? ==> r == Dispatch(programId, input).result && unchanged(accounts)
    ensures r == Success <==> old(SucceedsOn(env, u, programId, accounts, input))
    ensures old(RegistrationPanics(env, u, programId, accounts, input)) ==> r == Panicked
    ensures r == Success ==> SucceededAs(env, u, programId, accounts, input)
  {
    match Dispatch(programId, input)
    case Finish(result) =>
      r := result;
    case RunValidator(name) =>
      r := AddPermissionlessValidatorProgram(env, u, programId, accounts, name);
    case RunMarketplace =>
      r := AddProgram.AddMarketplaceProgram(env, u, programId, accounts);
    case RunReset =>
      r := ResetStorages(env, u, programId, accounts);
  }
}

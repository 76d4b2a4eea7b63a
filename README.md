# validator_registry in Dafny

A Dafny model of the ingl validator registry, a Solana on-chain program. It keeps
four program-owned records. The config header holds a schema tag and a registration
counter. The storage page holds a schema tag and the list of registered program keys,
at most 625 of them. The name store holds the registered names. The marketplace store
is written only by `Reset`. The program serves three live instructions:

- `AddValidatorProgram(name)` registers an upgradeable program together with a name.
- `AddMarketplaceProgram` registers a program without a name.
- `Reset` writes the default records back into the front of the storage page, the name store and the marketplace store.

The registration path of one new key runs in this order:

1. Check the accounts.
2. Create the storage page if the system program still owns it.
3. Decode the page.
4. Top the page up to the minimum balance for one more key and resize it.
5. Append the key.
6. Charge the fixed fee to the payer in favour of the team account.
7. Write the page back.
8. Bump the counter in the config header.

The modules follow the program's files:

- `Host` holds the runtime interface the program calls:
  - keys and error codes;
  - accounts, as a class whose owner, lamports and data change in place;
  - address derivation and rent, as functions passed in an `Env`;
  - the system program's `create_account` and `transfer`;
  - `realloc`;
  - Borsh's serialise-into-the-front-of-a-slice.
- `Borsh` holds the byte layouts: little-endian `u32`, `Vec<Pubkey>` and `String`, with round trips and canonicity.
- `Utils` is `src/utils.rs`: the account checks and the two `error_log` combinators.
- `State` is `src/state.rs`:
  - the constants;
  - `Config` as a datatype;
  - `Storage` as a class whose `add_program` and `remove_program` change its list in place;
  - the strict page decoder.
- `AddProgram` is `src/add_program.rs`:
  - every step as a method on accounts, each proved against a function on slot values (`Created`, `Grown`, `PreparedStorage`);
  - the account checks as a function;
  - what a successful registration does, as the predicate `Registered`, with lemmas about it.
- `Lib` is `src/lib.rs`: the instruction enum and its encoding, the dispatch table, `Reset` and `process_instruction`.
- `Runtime` is the host's side of an instruction. It discards every account change of an instruction that does not succeed, so each failure path ends in "error returned, slots unchanged".

A Rust panic (`assert!`, `unwrap` of an error, `panic!`) is the result `Panicked`.

The code as written:

- The program keeps a single storage page. Its address is derived from the seed `"storage"` alone, with no page index. `get_storage_numeration` computes a page index that no instruction uses.
- `add_program` appends without any duplicate check. The only checks are the schema tag and the 625-key ceiling.
- `Reset` does not touch the counter; the counter reset is commented out in the source. It also does not shrink the slots (see `Lib.ResetGrownPageDoesNotDecode`).
- `InitConfig` succeeds without doing anything; its body is commented out in the source. `RemovePrograms` and `Blank` fall into the `InvalidInstructionData` arm.

Two consequences of the code as written are proved:

- Once a page is funded at or above the minimum balance for one more key, it is not resized, and the registration then fails with a Borsh I/O error. See the `BorshIoError` clauses of `AddProgram.RegisterMarketplaceProgram` and `AddProgram.AddMarketplaceProgram`. Every registration leaves the page exactly funded, so under increasing rent the next one resizes. See `AddProgram.ExactlyFundedPageIsShort`.
- After `Reset`, a page that ever held a key still carries its old trailing bytes after the default record, and the strict decoder rejects it (`Lib.ResetGrownPageDoesNotDecode`). A later marketplace registration that passes its account checks then panics, and so does a validator registration whose name half passes. See the `Panicked` clauses of `AddProgram.AddMarketplaceProgram`, `AddProgram.AddPermissionlessValidatorProgram` and `Lib.ProcessInstruction`.

## Model

| member | source | states |
|---|---|---|
| `Host.CreateAccountStatus` | src/add_program.rs:185-195 | `create_account` succeeds exactly when the target is an unused system account and the payer signs and can afford the balance; an account in use gives `Custom(0)` |
| `Host.CreateAccount` | src/add_program.rs:185-195 | on success the target belongs to the program with the balance and `space` zero bytes and the payer has paid exactly that balance; on failure neither account changes |
| `Host.TransferStatus` | src/add_program.rs:207-215 | a transfer succeeds exactly when the sender signs and holds the amount; a signed transfer that is short gives `Custom(1)` |
| `Host.Transfer` | src/add_program.rs:226-233 | exactly `amount` lamports move from sender to receiver, and nothing else changes; on failure neither account changes |
| `Host.Resized` | src/add_program.rs:217-219 | a resized buffer has the new length, keeps its old bytes up to it and is zero after them |
| `Host.Realloc` | src/add_program.rs:217-219 | `realloc` replaces the data by its resized copy and changes nothing else |
| `Host.WriteInto` | src/add_program.rs:236-238 | serialising into a buffer succeeds exactly when the encoding fits; the encoding then overwrites the front, the rest is kept and the length is unchanged; otherwise a Borsh I/O error |
| `Host.Serialize` | src/add_program.rs:197-199 | the account's data becomes the encoding followed by the old tail when it fits; otherwise a Borsh I/O error and no change |
| `Borsh.U32Bytes` | src/state.rs:25-29 | a `u32` takes exactly four bytes |
| `Borsh.U32RoundTrip` | src/state.rs:25-29 | decoding the four little-endian bytes of a `u32` gives it back |
| `Borsh.U32Of` | src/state.rs:25-29 | the little-endian reading of four bytes; every four bytes are the encoding of the `u32` read from them |
| `Borsh.Flatten` | src/state.rs:64-68 | the keys of a `Vec<Pubkey>` laid end to end take 32 bytes each |
| `Borsh.FlattenIndex` | src/state.rs:64-68 | byte `j` of key `i` sits at offset `32 * i + j` |
| `Borsh.Chunk` | src/state.rs:64-68 | a buffer of whole keys cuts into one key per 32 bytes |
| `Borsh.ChunkFlatten` | src/state.rs:64-68 | cutting laid-out keys gives the keys back |
| `Borsh.FlattenChunk` | src/state.rs:64-68 | laying out the cut keys gives the buffer back |
| `Borsh.KeyVecBytes` | src/state.rs:64-68 | a `Vec<Pubkey>` encodes to a 4-byte length and 32 bytes per key |
| `Borsh.KeyVecRoundTrip` | src/state.rs:64-68 | the strict decoder returns every encoded key list unchanged |
| `Borsh.KeyVecOf` | src/state.rs:83-85 | the strict `Vec<Pubkey>` decoder accepts a buffer only when it holds exactly the 4-byte count plus the announced number of keys |
| `Borsh.KeyVecCanonical` | src/state.rs:83-85 | whatever the strict decoder accepts is exactly the encoding of its result |
| `Borsh.StringBytes` | src/lib.rs:20-23 | a `String` encodes to a 4-byte length followed by its bytes |
| `Borsh.ValidUtf8` | src/lib.rs:29-34 | well-formed UTF-8 never starts with a continuation byte, and every ASCII byte string is well-formed |
| `Borsh.StringOf` | src/lib.rs:29-34 | the strict `String` decoder accepts only well-formed UTF-8 whose byte count is the announced one, and rejects ill-formed UTF-8 |
| `Borsh.StringRoundTrip` | src/lib.rs:20-23 | the decoder returns every encoded valid UTF-8 name unchanged |
| `Borsh.StringCanonical` | src/lib.rs:29-34 | whatever the string decoder accepts is valid UTF-8 and exactly the encoding of its result |
| `Utils.AssertMatch` | src/utils.rs:11-16 | `Ok` exactly when the keys are equal; otherwise `Custom(0)` |
| `Utils.AssertKeyMatch` | src/utils.rs:31-33 | `Ok` exactly when the account's key is the given key; otherwise `Custom(0)` |
| `Utils.AssertOwner` | src/utils.rs:34-38 | `Ok` exactly when the account's current owner is the given key; otherwise `Custom(0)` |
| `Utils.AssertSigner` | src/utils.rs:39-44 | `Ok` exactly when the account signed; otherwise `MissingRequiredSignature` |
| `Utils.AssertSeed` | src/utils.rs:45-54 | `Ok` exactly when the account sits at the address derived from the seeds, returning that address and bump; otherwise `Custom(0)` |
| `Utils.ResultErrorLog` | src/utils.rs:61-73 | `error_log` on a `Result` returns its argument unchanged |
| `Utils.OptionErrorLog` | src/utils.rs:79-89 | `error_log` on an `Option` maps `Some(v)` to `Ok(v)` and `None` to `Custom(1)` |
| `State.Config.Default` | src/state.rs:31-38 | the default header has the config tag and a zero counter and encodes to `get_space()` = 8 bytes |
| `State.Config.Serialize` | src/state.rs:25-29 | the header encodes to 8 bytes |
| `State.Config.Deserialize` | src/state.rs:45-47 | the lenient decoder succeeds exactly on buffers of at least 8 bytes, and the header it returns encodes to their first 8 bytes (trailing bytes are tolerated) |
| `State.Config.Decode` | src/state.rs:40-53 | the header decodes exactly when the program owns the account, the buffer holds 8 bytes and the tag is the config tag; the result is the lenient decoding of the buffer |
| `State.Config.GetSpace` | src/state.rs:54-56 | `get_space` is the header's encoded length, 8 |
| `State.Config.GetStorageNumeration` | src/state.rs:57-61 | the page index is the quotient: the counter lies in `[page * 625, (page + 1) * 625)` |
| `State.ConfigRoundTrip` | src/state.rs:25-53 | decoding an encoded header gives it back |
| `State.StorageNumerationMonotone` | src/state.rs:57-61 | the page index never decreases as the counter grows |
| `State.SerializeStorage` | src/state.rs:64-68 | an encoded page takes `8 + 32 * n` bytes for `n` keys, which is `get_space()` |
| `State.DeserializeStorage` | src/state.rs:83-85 | the strict page decoder accepts only buffers of exactly `8 + 32 * n` bytes for the `n` keys it returns, with the tag read from the first four |
| `State.StorageRoundTrip` | src/state.rs:83-85 | the strict decoder returns every encoded page unchanged |
| `State.StorageCanonical` | src/state.rs:83-85 | whatever the strict decoder accepts is exactly the encoding of its result, so the buffer has no trailing bytes |
| `State.DecodedPrograms` | src/state.rs:78-91 | a slot decodes only when the program owns it and its data is exactly the encoding of a page with the storage tag |
| `State.DecodeSerializedStorage` | src/state.rs:78-91 | a program-owned slot holding an encoded page, at any balance, decodes to its key list |
| `State.Position` | src/state.rs:111-115 | `position` returns `None` exactly when the key is absent; otherwise the first index that holds it |
| `State.RemoveAtMultiset` | src/state.rs:116 | `Vec::remove` at an index takes exactly one copy of that element out |
| `State.Storage.Default` | src/state.rs:69-76 | the default page has the storage tag and no keys |
| `State.Storage.Decode` | src/state.rs:78-91 | `Storage::decode` returns a fresh record exactly when the slot decodes, holding the decoded list; `None` stands for its panics |
| `State.Storage.GetSpace` | src/state.rs:93-95 | `get_space` is the exact length of the page's encoding |
| `State.Storage.Verify` | src/state.rs:96-104 | `Ok` exactly when the tag is the storage tag and the page holds at most 625 keys; otherwise `InvalidAccountData` |
| `State.Storage.AddProgram` | src/state.rs:105-109 | the key is appended whatever happens; the result is `Ok` exactly when the page had the tag and fewer than 625 keys |
| `State.Storage.RemoveProgram` | src/state.rs:110-119 | an absent key is `InvalidAccountData` and changes nothing; otherwise the first occurrence goes, the other keys keep their order, one copy leaves the multiset, and the page is verified again |
| `AddProgram.Created` | src/add_program.rs:182-200 | a system-owned slot becomes program-owned with `space` bytes starting with the default record and the minimum balance for that size; any other slot is left alone |
| `AddProgram.Grown` | src/add_program.rs:203-220 | the top-up adds exactly the shortfall; the slot then holds at least the minimum balance, and it is resized when it was short and untouched otherwise |
| `AddProgram.ExactlyFundedSlotGrows` | src/add_program.rs:203-220 | under increasing rent, an exactly funded slot is grown to the new size and is again exactly funded |
| `AddProgram.GrownPageFits` | src/add_program.rs:203-238 | after the top-up, the page record with one more key fits the buffer exactly when the slot was short |
| `AddProgram.StagedRecordFits` | src/add_program.rs:182-238 | the same for the page as the storage half leaves it, with creation included |
| `AddProgram.PageAfterRegistration` | src/add_program.rs:203-238 | a short page ends as the program-owned encoding of the longer list, holding exactly the minimum balance for its size |
| `AddProgram.PreparedStorage` | src/add_program.rs:182-200 | the page after the create-if-absent step is `Created` with the 8-byte default page |
| `AddProgram.CreatedPageIsEmpty` | src/add_program.rs:182-202 | a freshly created page decodes to the empty list |
| `AddProgram.CreateIfAbsent` | src/add_program.rs:182-200 | a slot that is not system-owned is left alone; otherwise success exactly when the slot is empty, the payer signs and affords it, and the record fits; on success slot and payer are as `Created` says |
| `AddProgram.TopUpAndResize` | src/add_program.rs:203-220 | no shortfall means success and no change; otherwise the outcome is the transfer's; on success the slot is `Grown` and the payer paid the top-up; on failure nothing changes |
| `AddProgram.OpenStorage` | src/add_program.rs:182-202 | the create-and-decode steps succeed exactly when the page can be created (or exists) and decodes; the result holds the decoded list; an existing page that does not decode panics |
| `AddProgram.StageStorage` | src/add_program.rs:182-223 | the storage half succeeds exactly when `StorageStagePasses`; the staged record is the old list with the key appended, the slot is `Grown` and the payer paid exactly `StorageStageCost`; an existing page that does not decode panics |
| `AddProgram.MarketplaceGate` | src/add_program.rs:166-180 | the checks pass exactly when `MarketplaceAccountsValid`, ending in the decoded header; a wrong loader is `Custom(0)`, a non-executable program panics, every other failure is `Custom(0)` or a panic |
| `AddProgram.ValidatorGate` | src/add_program.rs:31-47 | the same checks plus the name-storage address; the decoded header on success; a wrong owner of the registered program gives `Custom(0)` and a non-executable one panics |
| `AddProgram.Bumped` | src/add_program.rs:239 | `validator_numeration += 1` under the same tag |
| `AddProgram.WriteBack` | src/add_program.rs:236-242 | success exactly when the page record and the 8-byte header fit their buffers; both are then written into the front of their buffers; any failure is `BorshIoError` |
| `AddProgram.StageAndPay` | src/add_program.rs:182-233 | the storage half, then the fee: success exactly when the storage half passes and the payer signs and can also pay the fee; the team receives the fee; an existing page that does not decode panics |
| `AddProgram.RegisterMarketplaceProgram` | src/add_program.rs:182-243 | once the checks pass: success exactly when `StoragePathPasses`; an overfunded page that passes everything else gives `BorshIoError`; success means `Registered`; an existing page that does not decode panics |
| `AddProgram.StepsMakeRegistered` | src/add_program.rs:182-243 | the steps' outcomes put together are exactly `Registered` |
| `AddProgram.RegistrationKeepsRecordsDecodable` | src/add_program.rs:236-242 | after a registration the page decodes to the old list plus the key and is exactly funded, and the header decodes to the counter plus one |
| `AddProgram.ExactlyFundedPageIsShort` | src/add_program.rs:203-220 | under increasing rent, the exactly funded page a registration leaves is short for the next key, so the next registration resizes it |
| `AddProgram.AddMarketplaceProgram` | src/add_program.rs:158-244 | fewer than five accounts gives `NotEnoughAccountKeys`; a failing check returns its error with nothing changed; otherwise success exactly when the checks and `StoragePathPasses` hold; success is `Registered` and leaves the registered program alone; every account other than payer, config, team and storage keeps its slot; with the checks passing, an existing page that does not decode panics |
| `AddProgram.NamedSlot` | src/add_program.rs:85-87 | the grown name slot with the updated name record written into its front, when the record fits |
| `AddProgram.StageName` | src/add_program.rs:49-87 | the name half succeeds exactly when `NameStagePasses`; the slot is grown as for the page and the payer paid exactly `NameStageCost` |
| `AddProgram.WriteNamedBack` | src/add_program.rs:145-154 | the name record, the page record and the header are written in that order; success exactly when all three fit; any failure is `BorshIoError` |
| `AddProgram.CompleteValidatorProgram` | src/add_program.rs:89-155 | after the name half: success exactly when `StoragePathPasses` and the name record fits; success is `Registered` and the name record written; an existing page that does not decode panics |
| `AddProgram.EarlierChargeAddsUp` | src/add_program.rs:49-155 | a payer charged for the name half before a registration has paid both costs overall |
| `AddProgram.RegisterValidatorProgram` | src/add_program.rs:49-155 | once the checks pass: success exactly when `ValidatorPathPasses`; success is `Registered`, with the name half's cost added, and the name slot is `NamedSlot`; once the name half passes, an existing page that does not decode panics |
| `AddProgram.AddPermissionlessValidatorProgram` | src/add_program.rs:18-156 | fewer than six accounts gives `NotEnoughAccountKeys`; a failing check returns its error with nothing changed; otherwise success exactly when the checks, the name-storage address and `ValidatorPathPasses` hold, with the effects of `RegisterValidatorProgram`; every account other than payer, config, team, storage and name storage keeps its slot; with the checks and the name half passing, an existing page that does not decode panics |
| `Lib.EncodeInstruction` | src/lib.rs:20-28 | every instruction encodes to a variant byte followed by its fields |
| `Lib.DecodeInstruction` | src/lib.rs:29-34 | an empty input or a variant byte above 5 does not decode; whatever decodes is well-formed and its encoding is exactly the input |
| `Lib.InstructionRoundTrip` | src/lib.rs:20-34 | decoding an encoded instruction gives it back |
| `Lib.Dispatch` | src/lib.rs:38-122 | a foreign program id or an undecodable input panics; a handler runs only for the registry's id and a decoded instruction; an instruction that finishes at dispatch returns `Success`, a panic or `InvalidInstructionData` |
| `Lib.DispatchTable` | src/lib.rs:46-123 | the handler of each instruction: `InitConfig` succeeds, the three live ones run, `RemovePrograms` and `Blank` are `InvalidInstructionData` |
| `Lib.DispatchedInputsAreEncodings` | src/lib.rs:44-123 | an input that reaches a handler came with the registry's program id and is exactly the encoding of the instruction it runs |
| `Lib.Overwritten` | src/lib.rs:106-116 | serialising a default record keeps owner, balance and length, writes the record into the front and keeps the tail |
| `Lib.ResetGrownPageDoesNotDecode` | src/lib.rs:106-108 | after `Reset`, a page longer than 8 bytes no longer decodes |
| `Lib.ResetUngrownPageIsEmpty` | src/lib.rs:106-108 | after `Reset`, an 8-byte program-owned page decodes to the empty list |
| `Lib.ResetStorages` | src/lib.rs:72-120 | fewer than four accounts gives `NotEnoughAccountKeys`; a wrong address gives `Custom(0)` with nothing changed; otherwise success exactly when the three defaults fit; the three slots are then overwritten and every other account is unchanged |
| `Lib.ProcessInstruction` | src/lib.rs:38-125 | an instruction that finishes at dispatch returns that result, with nothing changed; it succeeds exactly when `SucceedsOn` holds of the accounts before it (per handler: enough accounts, the handler's checks and its funding and size conditions); success means the handler's effects as `SucceededAs` states them, including that the accounts it does not write keep their slots; a registration that meets an existing undecodable page past its checks panics (`RegistrationPanics`) |
| `Runtime.Restore` | src/lib.rs:36 | writing the saved slots back leaves every position with its saved slot |
| `Runtime.Execute` | src/lib.rs:36-125 | an instruction that does not succeed leaves every account as it was; it succeeds exactly when `SucceedsOn` holds of the accounts before it; one that succeeds has the handler's effects; a registration that meets an existing undecodable page past its checks panics |

## Left out

- Logging (`msg!` and the messages of `error_log`) is not modelled. It has no effect on state or results.
- `entrypoint!` and `declare_id!` are left out. The program id and the team key are constants.
- `Pubkey::find_program_address` is not modelled. It is an uninterpreted parameter, and no property of it is assumed.
- `Rent::minimum_balance` is not modelled either. It is a parameter, and `Rent::get()` is taken never to fail.
- `NameStorage`, `MarketplaceStorage`, `MAX_NAME_LENGTH`, `PROGRAM_DEPLOYMENT_PAYBACK` and `MARKETPLACE_STORAGE_SEED` are used by the code but not defined in the files modelled. They are parameters (`Unmodelled`, `NameStorageApi`):
  - the name record's size;
  - the default bytes;
  - the decoder;
  - the outcome of `add_name`.
- The account argument of `add_name(&name, account)` and of `add_program(key, account)` is dropped from the model, because `state.rs` defines `add_program` with the key alone. The model follows that one-argument definition.
- The registration methods, and the registration arms of `ProcessInstruction` and `Execute`, require the accounts at the first five or six positions to be distinct objects (`DistinctPrefix`). A registration that passes one account twice is not modelled.
- `ResetStorages`, and the `Reset` arm of `ProcessInstruction` and `Execute`, require the three reset accounts (positions one to three) to be distinct objects (`ResetAccountsDistinct`). The payer at position zero may be any account. A reset that passes one account for two of the records is not modelled.
- The counter increment `validator_numeration += 1` is modelled only where the counter is below `u32::MAX` (`CounterHasRoom`, required by the registration arms only). The overflow behaviour of the build is not part of this model.
- Lamport arithmetic is unbounded, so `u64` overflow on the team's balance is not modelled. The `i128` shortfall computation is exact, as in the source.
- The system program's own checks are reduced:
  - `create_account` checks only that the target is empty and system-owned, that the payer signs and that the payer can pay;
  - `transfer` checks only the signature and the balance;
  - the signer requirement on the created address is not modelled.
- `realloc` is taken to succeed. Growth per instruction is 32 bytes plus the name length, far below the runtime limit.
- A Borsh serialisation that does not fit leaves a partly written prefix in the source. The model leaves the buffer unchanged. The runtime discards the buffer either way, because the instruction fails.
- `InitConfig`'s commented-out body and the commented-out config reset in `Reset` are not modelled, since neither runs.
- `SPAM_PREVENTION_SOL` is declared but never used.
- The runtime's checks after an instruction are not modelled: the `is_writable` flags, the rule that only an account's owner may change its data or debit it, and the rent-state transition of touched accounts. `Account` has no writable flag. The "succeeds exactly when `SucceedsOn`" of `Runtime.Execute` is the program's verdict, and the transaction can still be rejected by these checks.
- Lib.ProcessInstruction: says nothing about the accounts after a failed instruction. `Runtime.Execute` covers that case, because the host discards the changes.

/** The parts of the Solana runtime that the registry program touches: byte and key
    types, the program error codes, accounts, program-derived addresses, rent, the
    system program's `create_account` and `transfer`, `realloc`, and Borsh's
    "serialize into the front of a slice". Everything here is the host's behaviour,
    reduced to what the registry's code depends on. */
module Host {

  type u8 = x: int | 0 <= x < 256
  type u32 = x: int | 0 <= x < 0x1_0000_0000

  const U32_MAX: int := 0xFFFF_FFFF

  type Pubkey = k: seq<u8> | |k| == 32 witness seq(32, _ => 0)

  /** `n` zero bytes. */
  function Zeros(n: nat): (z: seq<u8>)
    ensures |z| == n
    ensures forall i :: 0 <= i < n ==> z[i] == 0
  {
    seq(n, _ => 0)
  }

  /** `system_program::id()`, the all-zero key. */
  const SYSTEM_PROGRAM_ID: Pubkey :=
    [0, 0, 0, 0, 0, 0, 0, 0, 0, 0, 0, 0, 0, 0, 0, 0,
     0, 0, 0, 0, 0, 0, 0, 0, 0, 0, 0, 0, 0, 0, 0, 0]

  /** `bpf_loader_upgradeable::id()` ("BPFLoaderUpgradeab1e11111111111111111111111"). */
  const BPF_LOADER_UPGRADEABLE_ID: Pubkey :=
    [2, 168, 246, 145, 78, 136, 161, 176, 226, 16, 21, 62, 247, 99, 174, 43,
     0, 194, 185, 61, 22, 193, 36, 210, 192, 83, 122, 16, 4, 128, 0, 0]

  /** The `ProgramError` variants this program can end with. */
  datatype ProgramError =
    | Custom(code: u32)
    | InvalidInstructionData
    | InvalidAccountData
    | MissingRequiredSignature
    | NotEnoughAccountKeys
    | BorshIoError

  /** System program error codes, which reach the caller as `Custom` errors. */
  const ACCOUNT_ALREADY_IN_USE: ProgramError := Custom(0)
  const RESULT_WITH_NEGATIVE_LAMPORTS: ProgramError := Custom(1)

  datatype Option<T> = None | Some(value: T)

  /** Rust's `Result<T, ProgramError>`. */
  datatype Result<T> = Ok(value: T) | Err(error: ProgramError)

  /** How an instruction ends: `Ok(())`, `Err(e)`, or a Rust panic (`assert!`,
      `unwrap` on an error, `panic!`), which aborts the transaction. */
  datatype ProgramResult = Success | Failure(error: ProgramError) | Panicked

  /** One stage of an instruction: either it hands a value to the next stage or the
      instruction ends here with `result`. */
  datatype Guarded<T> = Proceed(value: T) | Abort(result: ProgramResult)

  /** The part of an account the runtime persists: owner, balance and data. */
  datatype Slot = Slot(owner: Pubkey, lamports: nat, data: seq<u8>)

  /** An `AccountInfo`: the key, signer and executable flags are fixed for the
      instruction; the owner, the lamports and the data buffer can change. */
  class Account {
    const key: Pubkey
    const isSigner: bool
    const executable: bool
    var owner: Pubkey
    var lamports: nat
    var data: seq<u8>

    constructor (key: Pubkey, isSigner: bool, executable: bool, owner: Pubkey, lamports: nat, data: seq<u8>)
      ensures this.key == key && this.isSigner == isSigner && this.executable == executable
      ensures Snapshot() == Slot(owner, lamports, data)
    {
      this.key := key;
      this.isSigner := isSigner;
      this.executable := executable;
      this.owner := owner;
      this.lamports := lamports;
      this.data := data;
    }

    function Snapshot(): Slot
      reads this
    {
      Slot(owner, lamports, data)
    }
  }

  /** Every account of the list outside `touched` holds the slot it held before. */
  twostate predicate UnchangedExcept(accounts: seq<Account>, touched: set<Account>)
    reads accounts
  {
    forall i :: 0 <= i < |accounts| && accounts[i] !in touched ==> accounts[i].Snapshot() == old(accounts[i].Snapshot())
  }

  /** What the runtime supplies and this model leaves abstract:
      `Pubkey::find_program_address` (a SHA-256 based derivation) and
      `Rent::minimum_balance`. */
  datatype Env = Env(
    findProgramAddress: (seq<seq<u8>>, Pubkey) -> (Pubkey, u8),
    minimumBalance: nat -> nat)

  /** Outcome of the system program's `create_account(from, to, lamports, ..)`:
      the target must be an unused system account and `from` must sign and afford it. */
  function CreateAccountStatus(from: Account, to: Account, lamports: nat): (r: Result<()>)
    reads from, to
    ensures r.Ok? <==>
      to.lamports == 0 && to.data == [] && to.owner == SYSTEM_PROGRAM_ID && from.isSigner && lamports <= from.lamports
    ensures r.Err? && !(to.lamports == 0 && to.data == [] && to.owner == SYSTEM_PROGRAM_ID) ==> r.error == ACCOUNT_ALREADY_IN_USE
  {
    if to.lamports > 0 || to.data != [] || to.owner != SYSTEM_PROGRAM_ID then Err(ACCOUNT_ALREADY_IN_USE)
    else if !from.isSigner then Err(MissingRequiredSignature)
    else if from.lamports < lamports then Err(RESULT_WITH_NEGATIVE_LAMPORTS)
    else Ok(())
  }

  /** `invoke_signed(create_account(from, to, lamports, space, owner))`: on success the
      target holds `lamports`, `space` zero bytes and belongs to `owner`. */
  method CreateAccount(from: Account, to: Account, lamports: nat, space: nat, owner: Pubkey) returns (r: Result<()>)
    requires from != to
    modifies from, to
    ensures r == old(CreateAccountStatus(from, to, lamports))
    ensures r.Ok? ==> to.Snapshot() == Slot(owner, lamports, Zeros(space))
    ensures r.Ok? ==> from.Snapshot() == old(from.Snapshot()).(lamports := old(from.lamports) - lamports)
    ensures r.Err? ==> from.Snapshot() == old(from.Snapshot()) && to.Snapshot() == old(to.Snapshot())
  {
    r := CreateAccountStatus(from, to, lamports);
    if r.Ok? {
      from.lamports := from.lamports - lamports;
      to.lamports := lamports;
      to.data := Zeros(space);
      to.owner := owner;
    }
  }

  /** Outcome of the system program's `transfer(from, to, amount)`. */
  function TransferStatus(from: Account, amount: nat): (r: Result<()>)
    reads from
    ensures r.Ok? <==> from.isSigner && amount <= from.lamports
    ensures r.Err? && from.isSigner ==> r.error == RESULT_WITH_NEGATIVE_LAMPORTS
  {
    if !from.isSigner then Err(MissingRequiredSignature)
    else if from.lamports < amount then Err(RESULT_WITH_NEGATIVE_LAMPORTS)
    else Ok(())
  }

  /** `invoke(transfer(from, to, amount))`: exactly `amount` lamports move. */
  method Transfer(from: Account, to: Account, amount: nat) returns (r: Result<()>)
    requires from != to
    modifies from, to
    ensures r == old(TransferStatus(from, amount))
    ensures r.Ok? ==> from.Snapshot() == old(from.Snapshot()).(lamports := old(from.lamports) - amount)
    ensures r.Ok? ==> to.Snapshot() == old(to.Snapshot()).(lamports := old(to.lamports) + amount)
    ensures r.Err? ==> from.Snapshot() == old(from.Snapshot()) && to.Snapshot() == old(to.Snapshot())
  {
    r := TransferStatus(from, amount);
    if r.Ok? {
      from.lamports := from.lamports - amount;
      to.lamports := to.lamports + amount;
    }
  }

  /** A buffer resized to `newLen`: its prefix kept, any new bytes zero. */
  function Resized(data: seq<u8>, newLen: nat): (r: seq<u8>)
    ensures |r| == newLen
    ensures forall i :: 0 <= i < newLen ==> r[i] == (if i < |data| then data[i] else 0)
  {
    if newLen <= |data| then data[..newLen] else data + Zeros(newLen - |data|)
  }

  /** `AccountInfo::realloc(newLen, false)`. */
  method Realloc(account: Account, newLen: nat)
    modifies account
    ensures account.Snapshot() == old(account.Snapshot()).(data := Resized(old(account.data), newLen))
  {
    account.data := Resized(account.data, newLen);
  }

  /** Borsh `serialize(&mut &mut buffer[..])`: the encoding overwrites the front of the
      buffer and the rest is left as it was; a buffer shorter than the encoding is an
      I/O error. */
  function WriteInto(buffer: seq<u8>, bytes: seq<u8>): (r: Result<seq<u8>>)
    ensures r.Ok? <==> |bytes| <= |buffer|
    ensures r.Ok? ==> |r.value| == |buffer| && r.value[..|bytes|] == bytes && r.value[|bytes|..] == buffer[|bytes|..]
    ensures r.Err? ==> r.error == BorshIoError
  {
    if |bytes| <= |buffer| then Ok(bytes + buffer[|bytes|..]) else Err(BorshIoError)
  }

  /** Serialise `bytes` into the account's data buffer, which keeps its length. */
  method Serialize(account: Account, bytes: seq<u8>) returns (r: Result<()>)
    modifies account
    ensures r.Ok? <==> |bytes| <= |old(account.data)|
    ensures r.Err? ==> r.error == BorshIoError && account.Snapshot() == old(account.Snapshot())
    ensures r.Ok? ==> account.Snapshot() == old(account.Snapshot()).(data := bytes + old(account.data)[|bytes|..])
  {
    var w := WriteInto(account.data, bytes);
    if w.Ok? {
      account.data := w.value;
      r := Ok(());
    } else {
      r := Err(w.error);
    }
  }
}

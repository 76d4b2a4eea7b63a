/** The host's side of an instruction: it runs `process_instruction` and, when the
    instruction does not succeed (an error or a panic), discards every change it made
    to the accounts, so a failed registration or reset leaves all slots as they were. */
module Runtime {
  import opened Host
  import opened State
  import opened AddProgram
  import opened Lib

  /** The slots of the accounts, position by position. */
  function Snapshots(accounts: seq<Account>): (s: seq<Slot>)
    reads accounts
    ensures |s| == |accounts|
    ensures forall i :: 0 <= i < |accounts| ==> s[i] == accounts[i].Snapshot()
  {
    if accounts == [] then [] else [accounts[0].Snapshot()] + Snapshots(accounts[1..])
  }

  /** Writes the saved slots back, position by position. Positions that share an
      account were saved from the same account, so they hold the same slot. */
  method Restore(accounts: seq<Account>, saved: seq<Slot>)
    requires |saved| == |accounts|
    requires forall i, j :: 0 <= i < |accounts| && 0 <= j < |accounts| && accounts[i] == accounts[j] ==> saved[i] == saved[j]
    modifies accounts
    ensures Snapshots(accounts) == saved
  {
    var k := 0;
    while k < |accounts|
      invariant 0 <= k <= |accounts|
      invariant forall i :: 0 <= i < k ==> accounts[i].Snapshot() == saved[i]
    {
      accounts[k].owner := saved[k].owner;
      accounts[k].lamports := saved[k].lamports;
      accounts[k].data := saved[k].data;
      k := k + 1;
    }
  }

  /** One instruction as the runtime executes it: on success its effects stay, on any
      other outcome every account is as it was before. */
  method Execute(env: Env, u: Unmodelled, programId: Pubkey, accounts: seq<Account>, input: seq<u8>)
    returns (r: ProgramResult)
    requires Dispatch(programId, input).RunMarketplace? ==> DistinctPrefix(accounts, 5) && CounterHasRoom(accounts, 1)
    requires Dispatch(programId, input).RunValidator? ==> DistinctPrefix(accounts, 6) && CounterHasRoom(accounts, 1)
    requires Dispatch(programId, input).RunReset? ==> ResetAccountsDistinct(accounts)
    modifies accounts
    ensures r != Success ==> Snapshots(accounts) == old(Snapshots(accounts))
    ensures r == Success <==> old(SucceedsOn(env, u, programId, accounts, input))
    ensures old(RegistrationPanics(env, u, programId, accounts, input)) ==> r == Panicked
    ensures r == Success ==> SucceededAs(env, u, programId, accounts, input)
    ensures Dispatch(programId, input).Finish? ==> r == Dispatch(programId, input).result
  {
    var saved := Snapshots(accounts);
    r := ProcessInstruction(env, u, programId, accounts, input);
    if r != Success {
      Restore(accounts, saved);
    }
  }
}

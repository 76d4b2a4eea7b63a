/** The account checks every instruction is gated on, and the two `error_log`
    combinators. Each check is an equality test that ends in `Ok(())` or in a fixed
    error; `error_log` only adds a log line, so both combinators pass their value
    through. */
module Utils {
  import opened Host

  /** `Pubkey::assert_match`: `Custom(0)` when the keys differ. */
  function AssertMatch(self: Pubkey, a: Pubkey): (r: Result<()>)
    ensures r.Ok? <==> self == a
    ensures r.Err? ==> r.error == Custom(0)
  {
    if self != a then Err(Custom(0)) else Ok(())
  }

  /** `assert_key_match`: the account's key must be `a`. */
  function AssertKeyMatch(account: Account, a: Pubkey): (r: Result<()>)
    ensures r.Ok? <==> account.key == a
    ensures r.Err? ==> r.error == Custom(0)
  {
    AssertMatch(account.key, a)
  }

  /** `assert_owner`: the account must currently be owned by `a`. */
  function AssertOwner(account: Account, a: Pubkey): (r: Result<()>)
    reads account
    ensures r.Ok? <==> account.owner == a
    ensures r.Err? ==> r.error == Custom(0)
  {
    ResultErrorLog(AssertMatch(account.owner, a))
  }

  /** `assert_signer`: the account must have signed the transaction. */
  function AssertSigner(account: Account): (r: Result<()>)
    ensures r.Ok? <==> account.isSigner
    ensures r.Err? ==> r.error == MissingRequiredSignature
  {
    if !account.isSigner then Err(MissingRequiredSignature) else Ok(())
  }

  /** `assert_seed`: the account must sit at the address derived from `seeds` and
      `programId`; on success the derived key and bump are returned. */
  function AssertSeed(env: Env, account: Account, programId: Pubkey, seeds: seq<seq<u8>>): (r: Result<(Pubkey, u8)>)
    ensures r.Ok? <==> account.key == env.findProgramAddress(seeds, programId).0
    ensures r.Ok? ==> r.value == env.findProgramAddress(seeds, programId)
    ensures r.Err? ==> r.error == Custom(0)
  {
    var (key, bump) := env.findProgramAddress(seeds, programId);
    var check := ResultErrorLog(AssertKeyMatch(account, key));
    if check.Err? then Err(check.error) else Ok((key, bump))
  }

  /** `Result::error_log`: logs on `Err` and returns its argument unchanged. */
  function ResultErrorLog<T>(r: Result<T>): (r': Result<T>)
    ensures r' == r
  {
    match r
    case Ok(v) => Ok(v)
    case Err(e) => Err(e)
  }

  /** `Option::error_log`: `Some(v)` becomes `Ok(v)`, `None` becomes `Custom(1)`. */
  function OptionErrorLog<T>(o: Option<T>): (r: Result<T>)
    ensures r.Ok? <==> o.Some?
    ensures r.Ok? ==> r.value == o.value
    ensures r.Err? ==> r.error == Custom(1)
  {
    match o
    case Some(v) => Ok(v)
    case None => Err(Custom(1))
  }
}

/** The registry's records: the `Config` header (schema tag and registration counter)
    and the single `Storage` page (schema tag and the list of registered program keys,
    at most 625 of them), with their Borsh layouts, their decoders and the page
    operations. */
module State {
  import opened Host
  import opened Borsh
  import opened Utils

  /** `constants::ID` ("38pfsot7kCZkrttx1THEDXEz4JJXmCCcaDoDieRtVuy5"). */
  const PROGRAM_ID: Pubkey :=
    [31, 184, 87, 40, 251, 104, 145, 20, 245, 235, 95, 137, 163, 101, 93, 227,
     175, 15, 7, 106, 68, 3, 204, 95, 105, 139, 146, 24, 222, 41, 139, 84]

  /** `constants::team::id()` ("Team111111111111111111111111111111111111111"). */
  const TEAM_ID: Pubkey :=
    [6, 211, 152, 94, 93, 193, 217, 136, 80, 206, 206, 144, 133, 45, 13, 219,
     186, 247, 139, 229, 253, 196, 40, 173, 99, 254, 217, 0, 0, 0, 0, 0]

  const CONFIG_VALIDATION_PHASE: u32 := 373_836_823
  const STORAGE_VALIDATION_PHASE: u32 := 332_049_381
  const MAX_PROGRAMS_PER_STORAGE_ACCOUNT: nat := 625

  /** The address seeds the instructions derive their accounts from. */
  const STORAGE_SEED: seq<u8> := [115, 116, 111, 114, 97, 103, 101]  // "storage"
  const NAME_STORAGE_SEED: seq<u8> := [110, 97, 109, 101, 95, 115, 116, 111, 114, 97, 103, 101]  // "name_storage"
  const CONFIG_SEED: seq<u8> := [99, 111, 110, 102, 105, 103]  // "config"

  /** The name-storage record's operations, known only by their interface. */
  datatype NameStorageApi = NameStorageApi(
    /** `NameStorage::default().get_space()` and the default record's encoding. */
    defaultSpace: nat,
    defaultBytes: seq<u8>,
    /** `NameStorage::decode(account).get_space()`, or `None` where the decode panics. */
    decodedSpace: Slot -> Option<nat>,
    /** `add_name(name)` on the record decoded from the given bytes: the updated
        record's encoding, or the error it returns. */
    addName: (seq<u8>, seq<u8>) -> Result<seq<u8>>)

  /** The items the add and reset code uses that this model knows only by name. */
  datatype Unmodelled = Unmodelled(
    programDeploymentPayback: nat,
    maxNameLength: nat,
    marketplaceStorageSeed: seq<u8>,
    nameStorage: NameStorageApi,
    /** `MarketplaceStorage::default()` serialised. */
    marketplaceStorageDefault: seq<u8>)

  /** The singleton header: schema tag and the number of registrations so far. */
  datatype Config = Config(validationPhase: u32, validatorNumeration: u32)
  {
    static function Default(): (c: Config)
      ensures c.validationPhase == CONFIG_VALIDATION_PHASE && c.validatorNumeration == 0
      ensures |c.Serialize()| == c.GetSpace() == 8
    {
      Config(CONFIG_VALIDATION_PHASE, 0)
    }

    /** Borsh layout: the two `u32` fields, little-endian. */
    function Serialize(): (b: seq<u8>)
      ensures |b| == 8
    {
      U32Bytes(validationPhase) + U32Bytes(validatorNumeration)
    }

    /** `try_from_slice_unchecked`: reads the header from the front of the buffer and
        tolerates trailing bytes. */
    static function Deserialize(b: seq<u8>): (r: Option<Config>)
      ensures r.Some? <==> |b| >= 8
      ensures r.Some? ==> r.value.Serialize() == b[..8]
    {
      if |b| < 8 then None
      else
        Some(Config(U32Of(b[..4]), U32Of(b[4..8])))
    }

    /** `Config::decode`: `None` stands for the panic on a foreign owner, a buffer
        shorter than the header, or a wrong schema tag. */
    static function Decode(account: Account): (r: Option<Config>)
      reads account
      ensures r.Some? <==>
        account.owner == PROGRAM_ID && |account.data| >= 8
        && Deserialize(account.data).value.validationPhase == CONFIG_VALIDATION_PHASE
      ensures r.Some? ==> r.value.validationPhase == CONFIG_VALIDATION_PHASE
      ensures r.Some? ==> r.value.Serialize() == account.data[..8] && r == Deserialize(account.data)
    {
      if AssertOwner(account, PROGRAM_ID).Err? then None
      else match Deserialize(account.data)
        case None => None
        case Some(config) =>
          if config.validationPhase == CONFIG_VALIDATION_PHASE then Some(config) else None
    }

    /** The space a header takes: its encoded length. */
    function GetSpace(): (n: nat)
      ensures n == |Serialize()|
    {
      8
    }

    /** The index of the storage page the counter falls in. */
    function GetStorageNumeration(): (page: u32)
      ensures page * MAX_PROGRAMS_PER_STORAGE_ACCOUNT <= validatorNumeration < (page + 1) * MAX_PROGRAMS_PER_STORAGE_ACCOUNT
    {
      validatorNumeration / MAX_PROGRAMS_PER_STORAGE_ACCOUNT
    }
  }

  lemma ConfigRoundTrip(c: Config)
    ensures Config.Deserialize(c.Serialize()) == Some(c)
  {
    var b := c.Serialize();
    assert b[..4] == U32Bytes(c.validationPhase) && b[4..8] == U32Bytes(c.validatorNumeration);
    U32RoundTrip(c.validationPhase);
    U32RoundTrip(c.validatorNumeration);
  }

  lemma StorageNumerationMonotone(a: Config, b: Config)
    requires a.validatorNumeration <= b.validatorNumeration
    ensures a.GetStorageNumeration() <= b.GetStorageNumeration()
  {
  }

  /** Borsh layout of a `Storage`: the tag, then the `Vec<Pubkey>`. */
  function SerializeStorage(validationPhase: u32, programs: seq<Pubkey>): (b: seq<u8>)
    requires |programs| <= U32_MAX
    ensures |b| == 8 + 32 * |programs|
  {
    U32Bytes(validationPhase) + KeyVecBytes(programs)
  }

  /** `Storage::try_from_slice`: strict, so the buffer must hold exactly one encoding. */
  function DeserializeStorage(b: seq<u8>): (r: Option<(u32, seq<Pubkey>)>)
    ensures r.Some? ==> |b| == 8 + 32 * |r.value.1| && r.value.0 == U32Of(b[..4])
  {
    if |b| < 4 then None
    else match KeyVecOf(b[4..])
      case None => None
      case Some(programs) => Some((U32Of(b[..4]), programs))
  }

  lemma StorageRoundTrip(validationPhase: u32, programs: seq<Pubkey>)
    requires |programs| <= U32_MAX
    ensures DeserializeStorage(SerializeStorage(validationPhase, programs)) == Some((validationPhase, programs))
  {
    var b := SerializeStorage(validationPhase, programs);
    assert b[..4] == U32Bytes(validationPhase);
    assert b[4..] == KeyVecBytes(programs);
    U32RoundTrip(validationPhase);
    KeyVecRoundTrip(programs);
  }

  /** Whatever the strict decoder accepts is exactly the encoding of what it returns:
      no trailing bytes, no second spelling. */
  lemma StorageCanonical(b: seq<u8>)
    requires DeserializeStorage(b).Some?
    ensures |DeserializeStorage(b).value.1| <= U32_MAX
    ensures SerializeStorage(DeserializeStorage(b).value.0, DeserializeStorage(b).value.1) == b
    ensures |b| == 8 + 32 * |DeserializeStorage(b).value.1|
  {
    KeyVecCanonical(b[4..]);
    assert b == b[..4] + b[4..];
  }

  /** `Storage::default()` serialised: the tag and an empty list. */
  const DEFAULT_STORAGE_BYTES: seq<u8> := SerializeStorage(STORAGE_VALIDATION_PHASE, [])

  /** What `Storage::decode` finds in a slot: the program list, or `None` where it
      panics (foreign owner, not exactly one encoding, wrong tag). */
  function DecodedPrograms(s: Slot): (r: Option<seq<Pubkey>>)
    ensures r.Some? ==> s.owner == PROGRAM_ID && |r.value| <= U32_MAX
    ensures r.Some? ==> s.data == SerializeStorage(STORAGE_VALIDATION_PHASE, r.value)
    ensures r.Some? ==> |s.data| == 8 + 32 * |r.value|
  {
    if s.owner != PROGRAM_ID then None
    else match DeserializeStorage(s.data)
      case None => None
      case Some((validationPhase, programs)) =>
        StorageCanonical(s.data);
        if validationPhase == STORAGE_VALIDATION_PHASE then Some(programs) else None
  }

  /** A program-owned slot holding an encoded page decodes to its key list, whatever
      its balance. */
  lemma DecodeSerializedStorage(lamports: nat, programs: seq<Pubkey>)
    requires |programs| <= U32_MAX
    ensures DecodedPrograms(Slot(PROGRAM_ID, lamports, SerializeStorage(STORAGE_VALIDATION_PHASE, programs))) == Some(programs)
  {
    StorageRoundTrip(STORAGE_VALIDATION_PHASE, programs);
  }

  /** `iter().position(..)`: the first index holding `x`. */
  function Position(s: seq<Pubkey>, x: Pubkey): (r: Option<nat>)
    ensures r.None? <==> x !in s
    ensures r.Some? ==> r.value < |s| && s[r.value] == x && x !in s[..r.value]
  {
    if s == [] then None
    else if s[0] == x then Some(0)
    else match Position(s[1..], x)
      case None => None
      case Some(i) =>
        assert s[..i + 1] == [s[0]] + s[1..][..i];
        Some(i + 1)
  }

  /** Removing the element at `i` takes exactly one copy of it out. */
  lemma RemoveAtMultiset(s: seq<Pubkey>, i: nat)
    requires i < |s|
    ensures multiset(s[..i] + s[i + 1..]) == multiset(s) - multiset{s[i]}
  {
    assert s == s[..i] + [s[i]] + s[i + 1..];
  }

  /** The page of program keys. `Storage::add_program` and `remove_program` change
      the list in place. */
  class Storage {
    var validationPhase: u32
    var programs: seq<Pubkey>

    constructor Default()
      ensures validationPhase == STORAGE_VALIDATION_PHASE && programs == []
    {
      validationPhase := STORAGE_VALIDATION_PHASE;
      programs := [];
    }

    constructor FromFields(validationPhase: u32, programs: seq<Pubkey>)
      ensures this.validationPhase == validationPhase && this.programs == programs
    {
      this.validationPhase := validationPhase;
      this.programs := programs;
    }

    /** `Storage::decode`: a fresh record holding exactly what the slot encodes, or
        `None` where the source panics. */
    static method Decode(account: Account) returns (r: Option<Storage>)
      ensures r.Some? <==> DecodedPrograms(account.Snapshot()).Some?
      ensures r.Some? ==> fresh(r.value)
      ensures r.Some? ==> r.value.validationPhase == STORAGE_VALIDATION_PHASE
      ensures r.Some? ==> r.value.programs == DecodedPrograms(account.Snapshot()).value
    {
      var owned := AssertOwner(account, PROGRAM_ID);
      if owned.Err? {
        return None;
      }
      var fields := DeserializeStorage(account.data);
      if fields.None? {
        return None;
      }
      if fields.value.0 != STORAGE_VALIDATION_PHASE {
        return None;
      }
      var storage := new Storage.FromFields(fields.value.0, fields.value.1);
      r := Some(storage);
    }

    function Serialize(): seq<u8>
      reads this
      requires |programs| <= U32_MAX
    {
      SerializeStorage(validationPhase, programs)
    }

    /** `get_space`: the exact length of the record's encoding. */
    function GetSpace(): (n: nat)
      reads this
      ensures |programs| <= U32_MAX ==> n == |Serialize()|
    {
      4 + 4 + |programs| * 32
    }

    /** `verify`: the tag must be the storage tag and the page must not be over-full. */
    function Verify(): (r: Result<()>)
      reads this
      ensures r.Ok? <==> validationPhase == STORAGE_VALIDATION_PHASE && |programs| <= MAX_PROGRAMS_PER_STORAGE_ACCOUNT
      ensures r.Err? ==> r.error == InvalidAccountData
    {
      if validationPhase != STORAGE_VALIDATION_PHASE then Err(InvalidAccountData)
      else if |programs| > MAX_PROGRAMS_PER_STORAGE_ACCOUNT then Err(InvalidAccountData)
      else Ok(())
    }

    /** `add_program`: appends without a duplicate check, then verifies; the key stays
        appended even when the verification fails. */
    method AddProgram(program: Pubkey) returns (r: Result<()>)
      modifies this
      ensures programs == old(programs) + [program]
      ensures validationPhase == old(validationPhase)
      ensures r.Ok? <==> old(validationPhase) == STORAGE_VALIDATION_PHASE && |old(programs)| < MAX_PROGRAMS_PER_STORAGE_ACCOUNT
      ensures r.Err? ==> r.error == InvalidAccountData
    {
      programs := programs + [program];
      var verified := Verify();
      if verified.Err? {
        return Err(verified.error);
      }
      r := Ok(());
    }

    /** `remove_program`: an absent key is an error and changes nothing; otherwise the
        first occurrence goes, the other keys keep their order, and the page is
        verified again. */
    method RemoveProgram(program: Pubkey) returns (r: Result<()>)
      modifies this
      ensures validationPhase == old(validationPhase)
      ensures program !in old(programs) ==> r == Err(InvalidAccountData) && programs == old(programs)
      ensures program in old(programs) ==>
        var i := Position(old(programs), program).value;
        && programs == old(programs)[..i] + old(programs)[i + 1..]
        && program !in old(programs)[..i]
        && multiset(programs) == multiset(old(programs)) - multiset{program}
        && (r.Ok? <==> validationPhase == STORAGE_VALIDATION_PHASE && |programs| <= MAX_PROGRAMS_PER_STORAGE_ACCOUNT)
      ensures r.Err? ==> r.error == InvalidAccountData
    {
      var found := Position(programs, program);
      if found.None? {
        return Err(InvalidAccountData);
      }
      var index := found.value;
      RemoveAtMultiset(programs, index);
      programs := programs[..index] + programs[index + 1..];
      var verified := Verify();
      if verified.Err? {
        return Err(verified.error);
      }
      r := Ok(());
    }
  }
}

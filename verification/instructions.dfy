/**
 * The three instruction builders: initialize-mint and mint-to for the token program, and
 * create-associated-token-account for the associated-token program. Each is a pure function
 * from typed inputs to (account metas, program id, payload bytes).
 */
module Instructions {
  import opened Wrappers
  import opened Codec
  import opened Keys
  import opened TokenInstructions

  datatype AccountMeta = AccountMeta(pubkey: PublicKey, isSigner: bool, isWritable: bool)

  datatype TransactionInstruction = TransactionInstruction(keys: seq<AccountMeta>, programId: PublicKey, data: seq<Byte>)

  /** The accounts an instruction requires to sign. */
  function Signers(keys: seq<AccountMeta>): set<PublicKey>
  {
    set i | 0 <= i < |keys| && keys[i].isSigner :: keys[i].pubkey
  }

  /** The accounts an instruction may write. */
  function WritableAccounts(keys: seq<AccountMeta>): set<PublicKey>
  {
    set i | 0 <= i < |keys| && keys[i].isWritable :: keys[i].pubkey
  }

  /** The record written by `initializeMintInstructionData` for the given arguments. */
  function InitializeMintValues(decimals: nat, mintAuthority: PublicKey, freezeAuthority: Option<PublicKey>): seq<Value>
  {
    [UInt(Discriminant(InitializeMint)),
     UInt(decimals),
     Key(mintAuthority),
     UInt(if freezeAuthority.Some? then 1 else 0),
     Key(if freezeAuthority.Some? then freezeAuthority.value else ZERO_KEY)]
  }

  /**
   * `createInitializeMintIx`: the mint (writable) and the rent sysvar (read-only), neither a
   * signer, and the 67-byte payload. An absent freeze authority becomes flag 0 followed by
   * 32 zero bytes. A `decimals` that does not fit in a byte fails to encode.
   */
  function CreateInitializeMintIx(
    mint: PublicKey,
    decimals: nat,
    mintAuthority: PublicKey,
    freezeAuthority: Option<PublicKey>,
    programId: PublicKey := TOKEN_PROGRAM_ID
  ): (r: Result<TransactionInstruction>)
    ensures r.Ok? <==> decimals < 256
    ensures r.Err? ==> r.error == EncodingError
    ensures r.Ok? ==> r.value.programId == programId && |r.value.data| == 67
  {
    var keys := [AccountMeta(mint, false, true), AccountMeta(SYSVAR_RENT_PUBKEY, false, false)];
    var data := Encode(InitializeMintInstructionData, InitializeMintValues(decimals, mintAuthority, freezeAuthority));
    if data.Err? then Err(data.error)
    else
      LayoutSpans();
      Ok(TransactionInstruction(keys, programId, data.value))
  }

  /** The seeds of an associated token account: owner, token program and mint, in that order. */
  function AssociatedTokenSeeds(owner: PublicKey, programId: PublicKey, mint: PublicKey): seq<seq<Byte>>
  {
    [owner, programId, mint]
  }

  /**
   * `createCreateAssociatedTokenAccIx`: an empty payload to the associated-token program with
   * seven accounts — payer (signer, writable), the derived address (writable), then owner, mint,
   * system program, token program and rent sysvar, all read-only. Fails when no program
   * address can be derived.
   */
  function CreateCreateAssociatedTokenAccIx(
    findProgramAddress: FindProgramAddress,
    payer: PublicKey,
    mint: PublicKey,
    owner: PublicKey,
    programId: PublicKey := TOKEN_PROGRAM_ID,
    associatedTokenProgramId: PublicKey := ASSOCIATED_TOKEN_PROGRAM_ID
  ): (r: Result<TransactionInstruction>)
    ensures r.Ok? <==> findProgramAddress(AssociatedTokenSeeds(owner, programId, mint), associatedTokenProgramId).Some?
    ensures r.Err? ==> r.error == NoValidDerivation
    ensures r.Ok? ==>
      var address := findProgramAddress(AssociatedTokenSeeds(owner, programId, mint), associatedTokenProgramId).value.address;
      && r.value.programId == associatedTokenProgramId && r.value.data == []
      && |r.value.keys| == 7 && r.value.keys[1] == AccountMeta(address, false, true)
  {
    match findProgramAddress(AssociatedTokenSeeds(owner, programId, mint), associatedTokenProgramId)
    case None => Err(NoValidDerivation)
    case Some(ProgramAddress(address, _)) =>
      var keys := [
        AccountMeta(payer, true, true),
        AccountMeta(address, false, true),
        AccountMeta(owner, false, false),
        AccountMeta(mint, false, false),
        AccountMeta(SYSTEM_PROGRAM_ID, false, false),
        AccountMeta(programId, false, false),
        AccountMeta(SYSVAR_RENT_PUBKEY, false, false)
      ];
      Ok(TransactionInstruction(keys, associatedTokenProgramId, []))
  }

  /** The record written by `mintToInstructionData` for the given amount. */
  function MintToValues(amount: nat): seq<Value>
  {
    [UInt(Discriminant(MintTo)), UInt(amount)]
  }

  /**
   * `createMintToIx`: mint and destination writable, the authority the only signer, and the
   * 9-byte payload. An amount that does not fit in 64 bits fails to encode.
   */
  function CreateMintToIx(
    mint: PublicKey,
    destination: PublicKey,
    authority: PublicKey,
    amount: nat,
    programId: PublicKey := TOKEN_PROGRAM_ID
  ): (r: Result<TransactionInstruction>)
    ensures r.Ok? <==> amount < U64_LIMIT
    ensures r.Err? ==> r.error == EncodingError
    ensures r.Ok? ==> r.value.programId == programId && |r.value.data| == 9
  {
    var keys := [
      AccountMeta(mint, false, true),
      AccountMeta(destination, false, true),
      AccountMeta(authority, true, false)
    ];
    var data := Encode(MintToInstructionData, MintToValues(amount));
    if data.Err? then Err(data.error)
    else
      LayoutSpans();
      Ok(TransactionInstruction(keys, programId, data.value))
  }
}

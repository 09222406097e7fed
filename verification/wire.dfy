/**
 * The receiving side of the wire contract: how the token program and the associated-token
 * program read an instruction back into the intent it carries, with the exact account list,
 * flags and payload each expects. The lemmas connect every builder to this reading.
 */
module Wire {
  import opened Wrappers
  import opened Codec
  import opened Keys
  import opened TokenInstructions
  import opened Instructions

  /** What an instruction asks its program to do. */
  datatype Intent =
    | InitializeMintIntent(program: PublicKey, mint: PublicKey, decimals: nat, mintAuthority: PublicKey, freezeAuthority: Option<PublicKey>)
    | MintToIntent(program: PublicKey, mint: PublicKey, destination: PublicKey, authority: PublicKey, amount: nat)
    | CreateAssociatedTokenAccountIntent(program: PublicKey, payer: PublicKey, address: PublicKey, owner: PublicKey, mint: PublicKey, tokenProgram: PublicKey)

  /** The fields of an initialize-mint payload, with the freeze flag folded back into an option. */
  datatype InitializeMintData = InitializeMintData(decimals: nat, mintAuthority: PublicKey, freezeAuthority: Option<PublicKey>)

  /**
   * Reads an initialize-mint payload: discriminant 0, then a freeze flag of 0 (no freeze
   * authority; the 32 bytes after it are ignored) or 1 (those 32 bytes are the authority).
   */
  function DecodeInitializeMintData(data: seq<Byte>): (r: Result<InitializeMintData>)
    ensures r.Ok? ==> r.value.decimals < 256
  {
    var layout := InitializeMintInstructionData;
    match Decode(layout, data)
    case Err(e) => Err(e)
    case Ok(v) =>
      assert Fits(layout[0], v[0]) && Fits(layout[1], v[1]) && Fits(layout[2], v[2]);
      assert Fits(layout[3], v[3]) && Fits(layout[4], v[4]);
      if v[0].n != Discriminant(InitializeMint) || v[3].n > 1 then Err(DecodingError)
      else Ok(InitializeMintData(v[1].n, v[2].bytes, if v[3].n == 1 then Some(v[4].bytes) else None))
  }

  /** Reads a mint-to payload: discriminant 7, then the amount as a little-endian u64. */
  function DecodeMintToData(data: seq<Byte>): (r: Result<nat>)
    ensures r.Ok? ==> r.value < U64_LIMIT
  {
    var layout := MintToInstructionData;
    match Decode(layout, data)
    case Err(e) => Err(e)
    case Ok(v) =>
      assert Fits(layout[0], v[0]) && Fits(layout[1], v[1]);
      if v[0].n != Discriminant(MintTo) then Err(DecodingError) else Ok(v[1].n)
  }

  /**
   * Reads an instruction. An empty payload is the associated-token program's create
   * instruction; otherwise the first byte selects the token instruction. Each kind accepts
   * only its own account list, in its own order, with its own signer and writable flags.
   */
  function ParseInstruction(ix: TransactionInstruction): (r: Result<Intent>)
    ensures r.Ok? ==> r.value.program == ix.programId
  {
    var keys := ix.keys;
    if ix.data == [] then
      if |keys| == 7
         && keys == [AccountMeta(keys[0].pubkey, true, true), AccountMeta(keys[1].pubkey, false, true),
                     AccountMeta(keys[2].pubkey, false, false), AccountMeta(keys[3].pubkey, false, false),
                     AccountMeta(SYSTEM_PROGRAM_ID, false, false), AccountMeta(keys[5].pubkey, false, false),
                     AccountMeta(SYSVAR_RENT_PUBKEY, false, false)]
      then Ok(CreateAssociatedTokenAccountIntent(ix.programId, keys[0].pubkey, keys[1].pubkey, keys[2].pubkey,
                                                 keys[3].pubkey, keys[5].pubkey))
      else Err(DecodingError)
    else
      match FromDiscriminant(ix.data[0])
      case Some(InitializeMint) =>
        if |keys| == 2 && keys == [AccountMeta(keys[0].pubkey, false, true), AccountMeta(SYSVAR_RENT_PUBKEY, false, false)]
        then
          match DecodeInitializeMintData(ix.data)
          case Err(e) => Err(e)
          case Ok(d) => Ok(InitializeMintIntent(ix.programId, keys[0].pubkey, d.decimals, d.mintAuthority, d.freezeAuthority))
        else Err(DecodingError)
      case Some(MintTo) =>
        if |keys| == 3
           && keys == [AccountMeta(keys[0].pubkey, false, true), AccountMeta(keys[1].pubkey, false, true),
                       AccountMeta(keys[2].pubkey, true, false)]
        then
          match DecodeMintToData(ix.data)
          case Err(e) => Err(e)
          case Ok(amount) => Ok(MintToIntent(ix.programId, keys[0].pubkey, keys[1].pubkey, keys[2].pubkey, amount))
        else Err(DecodingError)
      case _ => Err(DecodingError)
  }

  // Initialize-mint.

  /** Payload bytes of initialize-mint: 0, decimals, mint authority, freeze flag, freeze authority or zeros. */
  lemma InitializeMintPayload(mint: PublicKey, decimals: nat, mintAuthority: PublicKey, freezeAuthority: Option<PublicKey>, programId: PublicKey)
    requires decimals < 256
    ensures var data := CreateInitializeMintIx(mint, decimals, mintAuthority, freezeAuthority, programId).value.data;
      && |data| == 67
      && data[0] == 0
      && data[1] == decimals
      && data[2..34] == mintAuthority
      && data[34] == (if freezeAuthority.Some? then 1 else 0)
      && data[35..67] == (if freezeAuthority.Some? then freezeAuthority.value else ZERO_KEY)
  {
    InitializeMintEncoding(decimals, mintAuthority, freezeAuthority);
  }

  lemma InitializeMintEncoding(decimals: nat, mintAuthority: PublicKey, freezeAuthority: Option<PublicKey>)
    requires decimals < 256
    ensures var data := Encode(InitializeMintInstructionData, InitializeMintValues(decimals, mintAuthority, freezeAuthority)).value;
      && |data| == 67
      && data[0] == 0
      && data[1] == decimals
      && data[2..34] == mintAuthority
      && data[34] == (if freezeAuthority.Some? then 1 else 0)
      && data[35..67] == (if freezeAuthority.Some? then freezeAuthority.value else ZERO_KEY)
  {
    var layout := InitializeMintInstructionData;
    var values := InitializeMintValues(decimals, mintAuthority, freezeAuthority);
    LayoutSpans();
    InitializeMintOffsets();
    ByteFieldAt(layout, values, 0);
    ByteFieldAt(layout, values, 1);
    KeyFieldAt(layout, values, 2);
    ByteFieldAt(layout, values, 3);
    KeyFieldAt(layout, values, 4);
  }

  lemma InitializeMintOffsets()
    ensures Offset(InitializeMintInstructionData, 0) == 0 && Offset(InitializeMintInstructionData, 1) == 1
    ensures Offset(InitializeMintInstructionData, 2) == 2 && Offset(InitializeMintInstructionData, 3) == 34
    ensures Offset(InitializeMintInstructionData, 4) == 35 && Offset(InitializeMintInstructionData, 5) == 67
  {
    var layout := InitializeMintInstructionData;
    OffsetStep(layout, 0);
    OffsetStep(layout, 1);
    OffsetStep(layout, 2);
    OffsetStep(layout, 3);
    OffsetStep(layout, 4);
  }

  /** Decoding an initialize-mint payload recovers decimals, mint authority and the optional freeze authority. */
  lemma InitializeMintRoundTrip(mint: PublicKey, decimals: nat, mintAuthority: PublicKey, freezeAuthority: Option<PublicKey>, programId: PublicKey)
    requires decimals < 256
    ensures ParseInstruction(CreateInitializeMintIx(mint, decimals, mintAuthority, freezeAuthority, programId).value)
            == Ok(InitializeMintIntent(programId, mint, decimals, mintAuthority, freezeAuthority))
  {
    var values := InitializeMintValues(decimals, mintAuthority, freezeAuthority);
    DecodeEncode(InitializeMintInstructionData, values);
    InitializeMintPayload(mint, decimals, mintAuthority, freezeAuthority, programId);
  }

  /** Account roles of initialize-mint: nobody signs, only the mint is written. */
  lemma InitializeMintAccounts(mint: PublicKey, decimals: nat, mintAuthority: PublicKey, freezeAuthority: Option<PublicKey>, programId: PublicKey)
    requires decimals < 256
    ensures var keys := CreateInitializeMintIx(mint, decimals, mintAuthority, freezeAuthority, programId).value.keys;
      Signers(keys) == {} && WritableAccounts(keys) == {mint}
  {
    var keys := CreateInitializeMintIx(mint, decimals, mintAuthority, freezeAuthority, programId).value.keys;
    assert keys[0].pubkey == mint;
  }

  /**
   * Conversely, a well-formed 67-byte initialize-mint instruction whose absent freeze
   * authority is written as zeros is exactly what the builder produces for its intent.
   */
  lemma InitializeMintUnique(ix: TransactionInstruction, programId: PublicKey, mint: PublicKey, decimals: nat,
                             mintAuthority: PublicKey, freezeAuthority: Option<PublicKey>)
    requires ParseInstruction(ix) == Ok(InitializeMintIntent(programId, mint, decimals, mintAuthority, freezeAuthority))
    requires |ix.data| == 67
    requires freezeAuthority.None? ==> ix.data[35..67] == ZERO_KEY
    ensures CreateInitializeMintIx(mint, decimals, mintAuthority, freezeAuthority, programId) == Ok(ix)
  {
    assert ix.data != [];
    assert DecodeInitializeMintData(ix.data) == Ok(InitializeMintData(decimals, mintAuthority, freezeAuthority));
    InitializeMintDataInverse(ix.data, InitializeMintData(decimals, mintAuthority, freezeAuthority));
  }

  /** Re-encoding a decoded 67-byte initialize-mint payload gives it back, when an absent freeze authority is zeros. */
  lemma InitializeMintDataInverse(data: seq<Byte>, d: InitializeMintData)
    requires DecodeInitializeMintData(data) == Ok(d) && |data| == 67
    requires d.freezeAuthority.None? ==> data[35..67] == ZERO_KEY
    ensures Encode(InitializeMintInstructionData, InitializeMintValues(d.decimals, d.mintAuthority, d.freezeAuthority)) == Ok(data)
  {
    var layout := InitializeMintInstructionData;
    LayoutSpans();
    var v := Decode(layout, data).value;
    assert Encode(layout, v) == Ok(data) by {
      CanonicalWithoutBool(layout, data);
      EncodeDecode(layout, data);
      assert data[..67] == data;
    }
    assert v[4].bytes == data[35..67] by {
      InitializeMintOffsets();
      KeyFieldAt(layout, v, 4);
    }
    assert Fits(layout[0], v[0]) && Fits(layout[1], v[1]) && Fits(layout[2], v[2]);
    assert Fits(layout[3], v[3]) && Fits(layout[4], v[4]);
    var expected := InitializeMintValues(d.decimals, d.mintAuthority, d.freezeAuthority);
    assert v[0] == expected[0] && v[1] == expected[1] && v[2] == expected[2];
    assert v[3] == expected[3] && v[4] == expected[4];
    assert v == expected;
  }

  // Mint-to.

  /** Payload bytes of mint-to: discriminant 7, then the amount as eight little-endian bytes that read back as the amount. */
  lemma MintToPayload(mint: PublicKey, destination: PublicKey, authority: PublicKey, amount: nat, programId: PublicKey)
    requires amount < U64_LIMIT
    ensures var data := CreateMintToIx(mint, destination, authority, amount, programId).value.data;
      && data == [7] + LittleEndian(amount, 8)
      && FromLittleEndian(data[1..9]) == amount
  {
    var layout := MintToInstructionData;
    var values := MintToValues(amount);
    var data := Encode(layout, values).value;
    LayoutSpans();
    OffsetStep(layout, 0);
    ByteFieldAt(layout, values, 0);
    FieldAt(layout, values, 1);
    assert data == data[0..1] + data[1..9];
    LittleEndianRoundTrip(amount, 8);
  }

  /** 100 tokens at 2 decimals, scaled to 10000 = 0x2710 by the caller, encode as 7, 0x10, 0x27 and six zeros. */
  lemma MintToExample(mint: PublicKey, destination: PublicKey, authority: PublicKey)
    ensures CreateMintToIx(mint, destination, authority, 10000).value.data == [7, 16, 39, 0, 0, 0, 0, 0, 0]
  {
    TenThousandLittleEndian();
    MintToPayload(mint, destination, authority, 10000, TOKEN_PROGRAM_ID);
  }

  lemma TenThousandLittleEndian()
    ensures LittleEndian(10000, 8) == [16, 39, 0, 0, 0, 0, 0, 0]
  {
    assert LittleEndian(0, 6) == [0, 0, 0, 0, 0, 0];
    assert LittleEndian(39, 7) == [39] + LittleEndian(0, 6);
    assert LittleEndian(10000, 8) == [16] + LittleEndian(39, 7);
  }

  lemma MintToRoundTrip(mint: PublicKey, destination: PublicKey, authority: PublicKey, amount: nat, programId: PublicKey)
    requires amount < U64_LIMIT
    ensures ParseInstruction(CreateMintToIx(mint, destination, authority, amount, programId).value)
            == Ok(MintToIntent(programId, mint, destination, authority, amount))
  {
    DecodeEncode(MintToInstructionData, MintToValues(amount));
    MintToPayload(mint, destination, authority, amount, programId);
  }

  /** Account roles of mint-to: only the authority signs; the mint and the destination are written. */
  lemma MintToAccounts(mint: PublicKey, destination: PublicKey, authority: PublicKey, amount: nat, programId: PublicKey)
    requires amount < U64_LIMIT
    ensures var keys := CreateMintToIx(mint, destination, authority, amount, programId).value.keys;
      Signers(keys) == {authority} && WritableAccounts(keys) == {mint, destination}
  {
    var keys := CreateMintToIx(mint, destination, authority, amount, programId).value.keys;
    assert keys[0].pubkey == mint && keys[1].pubkey == destination && keys[2].pubkey == authority;
  }

  /** A well-formed 9-byte mint-to instruction is exactly what the builder produces for its intent. */
  lemma MintToUnique(ix: TransactionInstruction, programId: PublicKey, mint: PublicKey, destination: PublicKey,
                     authority: PublicKey, amount: nat)
    requires ParseInstruction(ix) == Ok(MintToIntent(programId, mint, destination, authority, amount))
    requires |ix.data| == 9
    ensures CreateMintToIx(mint, destination, authority, amount, programId) == Ok(ix)
  {
    var layout := MintToInstructionData;
    var data := ix.data;
    assert data != [];
    LayoutSpans();
    var v := Decode(layout, data).value;
    CanonicalWithoutBool(layout, data);
    EncodeDecode(layout, data);
    assert data[..9] == data;
    assert v == MintToValues(amount);
  }

  // Create associated token account.

  lemma CreateAssociatedTokenAccountRoundTrip(findProgramAddress: FindProgramAddress, payer: PublicKey, mint: PublicKey,
                                              owner: PublicKey, programId: PublicKey, associatedTokenProgramId: PublicKey)
    requires findProgramAddress(AssociatedTokenSeeds(owner, programId, mint), associatedTokenProgramId).Some?
    ensures var address := findProgramAddress(AssociatedTokenSeeds(owner, programId, mint), associatedTokenProgramId).value.address;
      ParseInstruction(CreateCreateAssociatedTokenAccIx(findProgramAddress, payer, mint, owner, programId, associatedTokenProgramId).value)
      == Ok(CreateAssociatedTokenAccountIntent(associatedTokenProgramId, payer, address, owner, mint, programId))
  {
  }

  /** Account roles of create-associated-token-account: only the payer signs; the payer and the new account are written. */
  lemma CreateAssociatedTokenAccountAccounts(findProgramAddress: FindProgramAddress, payer: PublicKey, mint: PublicKey,
                                             owner: PublicKey, programId: PublicKey, associatedTokenProgramId: PublicKey)
    requires findProgramAddress(AssociatedTokenSeeds(owner, programId, mint), associatedTokenProgramId).Some?
    ensures var address := findProgramAddress(AssociatedTokenSeeds(owner, programId, mint), associatedTokenProgramId).value.address;
      var keys := CreateCreateAssociatedTokenAccIx(findProgramAddress, payer, mint, owner, programId, associatedTokenProgramId).value.keys;
      Signers(keys) == {payer} && WritableAccounts(keys) == {payer, address}
  {
    var keys := CreateCreateAssociatedTokenAccIx(findProgramAddress, payer, mint, owner, programId, associatedTokenProgramId).value.keys;
    assert keys[0].pubkey == payer && keys[1].isWritable;
  }

  /**
   * A well-formed create instruction whose account is the address derived for its owner,
   * token program and mint is exactly what the builder produces.
   */
  lemma CreateAssociatedTokenAccountUnique(ix: TransactionInstruction, findProgramAddress: FindProgramAddress,
                                           program: PublicKey, payer: PublicKey, address: PublicKey, owner: PublicKey,
                                           mint: PublicKey, tokenProgram: PublicKey)
    requires ParseInstruction(ix) == Ok(CreateAssociatedTokenAccountIntent(program, payer, address, owner, mint, tokenProgram))
    requires var derived := findProgramAddress(AssociatedTokenSeeds(owner, tokenProgram, mint), program);
      derived.Some? && derived.value.address == address
    ensures CreateCreateAssociatedTokenAccIx(findProgramAddress, payer, mint, owner, tokenProgram, program) == Ok(ix)
  {
    assert ix.data == [];
  }
}

/**
 * `createAndInitializeMint`: build the five instructions, then append create-account,
 * initialize-mint and create-metadata to a fresh transaction, and create-associated-token-account
 * followed by mint-to only when `createTokenAccount` is set.
 */
module MintTransaction {
  import opened Wrappers
  import opened Codec
  import opened Keys
  import opened Instructions
  import opened Wire

  /** `web3.Transaction`: the ordered instruction list that `add` appends to. */
  class Transaction {
    var instructions: seq<TransactionInstruction>

    constructor ()
      ensures instructions == []
    {
      instructions := [];
    }

    method Add(ix: TransactionInstruction)
      modifies this
      ensures instructions == old(instructions) + [ix]
    {
      instructions := instructions + [ix];
    }
  }

  /** The order the instructions are appended in: three always, the last two only on request. */
  function MintBatch(
    createMintIx: TransactionInstruction,
    initializeMintIx: TransactionInstruction,
    createMetadataIx: TransactionInstruction,
    createTokenAccIx: TransactionInstruction,
    mintToIx: TransactionInstruction,
    createTokenAccount: bool
  ): seq<TransactionInstruction>
  {
    [createMintIx, initializeMintIx, createMetadataIx] + (if createTokenAccount then [createTokenAccIx, mintToIx] else [])
  }

  /** The seeds both derivations in the assembly use: payer as owner, the token program, the new mint. */
  function PayerTokenAccount(findProgramAddress: FindProgramAddress, payer: PublicKey, mintAccount: PublicKey): Option<ProgramAddress>
  {
    findProgramAddress(AssociatedTokenSeeds(payer, TOKEN_PROGRAM_ID, mintAccount), ASSOCIATED_TOKEN_PROGRAM_ID)
  }

  /**
   * The batch `createAndInitializeMint` submits, or the first failure in the order
   * `createAndInitializeMint` (src/index.ts:234-242) meets them: initialize-mint encoding, metadata, the associated-account derivation, the
   * second derivation and mint-to encoding. All five instructions are built before the
   * `createTokenAccount` test, so a failure in the last two aborts even when they are not added.
   */
  function AssembleMintTransaction(
    findProgramAddress: FindProgramAddress,
    payer: PublicKey,
    mintAccount: PublicKey,
    mintAuthority: PublicKey,
    freezeAuthority: PublicKey,
    decimals: nat,
    createMintIx: TransactionInstruction,
    createMetadataIx: Result<TransactionInstruction>,
    createTokenAccount: bool,
    amount: nat
  ): (r: Result<seq<TransactionInstruction>>)
    ensures r.Ok? <==> && decimals < 256 && createMetadataIx.Ok?
                       && PayerTokenAccount(findProgramAddress, payer, mintAccount).Some?
                       && amount < U64_LIMIT
    ensures r.Ok? ==> |r.value| == if createTokenAccount then 5 else 3
  {
    var initializeMintIx := CreateInitializeMintIx(mintAccount, decimals, mintAuthority, Some(freezeAuthority), TOKEN_PROGRAM_ID);
    if initializeMintIx.Err? then Err(initializeMintIx.error)
    else if createMetadataIx.Err? then Err(createMetadataIx.error)
    else
      var createTokenAccIx := CreateCreateAssociatedTokenAccIx(findProgramAddress, payer, mintAccount, payer,
                                                               TOKEN_PROGRAM_ID, ASSOCIATED_TOKEN_PROGRAM_ID);
      if createTokenAccIx.Err? then Err(createTokenAccIx.error)
      else
        var address := PayerTokenAccount(findProgramAddress, payer, mintAccount);
        if address.None? then Err(NoValidDerivation)
        else
          var mintToIx := CreateMintToIx(mintAccount, address.value.address, payer, amount, TOKEN_PROGRAM_ID);
          if mintToIx.Err? then Err(mintToIx.error)
          else Ok(MintBatch(createMintIx, initializeMintIx.value, createMetadataIx.value,
                            createTokenAccIx.value, mintToIx.value, createTokenAccount))
  }

  /**
   * The transaction-building part of `createAndInitializeMint`. The mint keypair, the
   * create-account instruction (with its rent-exempt lamports) and the metadata instruction
   * come from collaborators and are parameters; `amount` is already scaled by 10^decimals.
   */
  method CreateAndInitializeMint(
    findProgramAddress: FindProgramAddress,
    payer: PublicKey,
    mintAccount: PublicKey,
    mintAuthority: PublicKey,
    freezeAuthority: PublicKey,
    decimals: nat,
    createMintIx: TransactionInstruction,
    createMetadataIx: Result<TransactionInstruction>,
    createTokenAccount: bool,
    amount: nat
  ) returns (r: Result<Transaction>)
    ensures var spec := AssembleMintTransaction(findProgramAddress, payer, mintAccount, mintAuthority, freezeAuthority,
                                                decimals, createMintIx, createMetadataIx, createTokenAccount, amount);
      && (r.Ok? <==> spec.Ok?)
      && (r.Err? ==> r.error == spec.error)
      && (r.Ok? ==> fresh(r.value) && r.value.instructions == spec.value)
  {
    var transaction := new Transaction();
    var initializeMintIx := CreateInitializeMintIx(mintAccount, decimals, mintAuthority, Some(freezeAuthority), TOKEN_PROGRAM_ID);
    if initializeMintIx.Err? {
      return Err(initializeMintIx.error);
    }
    if createMetadataIx.Err? {
      return Err(createMetadataIx.error);
    }
    var createTokenAccIx := CreateCreateAssociatedTokenAccIx(findProgramAddress, payer, mintAccount, payer,
                                                             TOKEN_PROGRAM_ID, ASSOCIATED_TOKEN_PROGRAM_ID);
    if createTokenAccIx.Err? {
      return Err(createTokenAccIx.error);
    }
    var address := findProgramAddress(AssociatedTokenSeeds(payer, TOKEN_PROGRAM_ID, mintAccount), ASSOCIATED_TOKEN_PROGRAM_ID);
    if address.None? {
      return Err(NoValidDerivation);
    }
    var mintToIx := CreateMintToIx(mintAccount, address.value.address, payer, amount, TOKEN_PROGRAM_ID);
    if mintToIx.Err? {
      return Err(mintToIx.error);
    }

    transaction.Add(createMintIx);
    transaction.Add(initializeMintIx.value);
    transaction.Add(createMetadataIx.value);
    if createTokenAccount {
      transaction.Add(createTokenAccIx.value);
      transaction.Add(mintToIx.value);
    }
    return Ok(transaction);
  }

  /**
   * The assembly with `createTokenAccount` unset succeeds exactly when it succeeds with the flag
   * set, and its batch is then the first three instructions of the flagged batch: the flag only
   * appends, it never reorders, drops or changes the first three steps.
   */
  lemma MintBatchPrefix(
    findProgramAddress: FindProgramAddress,
    payer: PublicKey,
    mintAccount: PublicKey,
    mintAuthority: PublicKey,
    freezeAuthority: PublicKey,
    decimals: nat,
    createMintIx: TransactionInstruction,
    createMetadataIx: Result<TransactionInstruction>,
    amount: nat
  )
    ensures var off := AssembleMintTransaction(findProgramAddress, payer, mintAccount, mintAuthority, freezeAuthority,
                                               decimals, createMintIx, createMetadataIx, false, amount);
            var on := AssembleMintTransaction(findProgramAddress, payer, mintAccount, mintAuthority, freezeAuthority,
                                              decimals, createMintIx, createMetadataIx, true, amount);
            && (off.Ok? <==> on.Ok?)
            && (off.Ok? ==> off.value == on.value[..3])
  {
  }

  /**
   * What each position of an assembled batch does: create the mint account, initialize it
   * with the given decimals and authorities, create its metadata, then (on request) create
   * the payer's associated token account and mint `amount` into exactly that account.
   */
  lemma AssembledBatchMeaning(
    findProgramAddress: FindProgramAddress,
    payer: PublicKey,
    mintAccount: PublicKey,
    mintAuthority: PublicKey,
    freezeAuthority: PublicKey,
    decimals: nat,
    createMintIx: TransactionInstruction,
    createMetadataIx: Result<TransactionInstruction>,
    createTokenAccount: bool,
    amount: nat
  )
    requires AssembleMintTransaction(findProgramAddress, payer, mintAccount, mintAuthority, freezeAuthority,
                                     decimals, createMintIx, createMetadataIx, createTokenAccount, amount).Ok?
    ensures var batch := AssembleMintTransaction(findProgramAddress, payer, mintAccount, mintAuthority, freezeAuthority,
                                                 decimals, createMintIx, createMetadataIx, createTokenAccount, amount).value;
      var tokenAccount := PayerTokenAccount(findProgramAddress, payer, mintAccount).value.address;
      && batch[0] == createMintIx
      && ParseInstruction(batch[1]) == Ok(InitializeMintIntent(TOKEN_PROGRAM_ID, mintAccount, decimals, mintAuthority, Some(freezeAuthority)))
      && batch[2] == createMetadataIx.value
      && (createTokenAccount ==>
            && ParseInstruction(batch[3]) == Ok(CreateAssociatedTokenAccountIntent(ASSOCIATED_TOKEN_PROGRAM_ID, payer, tokenAccount,
                                                                                   payer, mintAccount, TOKEN_PROGRAM_ID))
            && ParseInstruction(batch[4]) == Ok(MintToIntent(TOKEN_PROGRAM_ID, mintAccount, tokenAccount, payer, amount)))
  {
    InitializeMintRoundTrip(mintAccount, decimals, mintAuthority, Some(freezeAuthority), TOKEN_PROGRAM_ID);
    CreateAssociatedTokenAccountRoundTrip(findProgramAddress, payer, mintAccount, payer, TOKEN_PROGRAM_ID, ASSOCIATED_TOKEN_PROGRAM_ID);
    var tokenAccount := PayerTokenAccount(findProgramAddress, payer, mintAccount).value.address;
    MintToRoundTrip(mintAccount, tokenAccount, payer, amount, TOKEN_PROGRAM_ID);
  }

  /**
   * The instructions this client builds itself need only the payer's signature; the mint
   * keypair signs only for the create-account step.
   */
  lemma BuiltInstructionsSignedByPayer(
    findProgramAddress: FindProgramAddress,
    payer: PublicKey,
    mintAccount: PublicKey,
    mintAuthority: PublicKey,
    freezeAuthority: PublicKey,
    decimals: nat,
    createMintIx: TransactionInstruction,
    createMetadataIx: Result<TransactionInstruction>,
    createTokenAccount: bool,
    amount: nat
  )
    requires AssembleMintTransaction(findProgramAddress, payer, mintAccount, mintAuthority, freezeAuthority,
                                     decimals, createMintIx, createMetadataIx, createTokenAccount, amount).Ok?
    ensures var batch := AssembleMintTransaction(findProgramAddress, payer, mintAccount, mintAuthority, freezeAuthority,
                                                 decimals, createMintIx, createMetadataIx, createTokenAccount, amount).value;
      forall k :: k == 1 || (createTokenAccount && 3 <= k < 5) ==> Signers(batch[k].keys) <= {payer}
  {
    InitializeMintAccounts(mintAccount, decimals, mintAuthority, Some(freezeAuthority), TOKEN_PROGRAM_ID);
    CreateAssociatedTokenAccountAccounts(findProgramAddress, payer, mintAccount, payer, TOKEN_PROGRAM_ID, ASSOCIATED_TOKEN_PROGRAM_ID);
    var tokenAccount := PayerTokenAccount(findProgramAddress, payer, mintAccount).value.address;
    MintToAccounts(mintAccount, tokenAccount, payer, amount, TOKEN_PROGRAM_ID);
  }
}

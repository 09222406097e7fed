# PipCoin token-minting client: instruction encoding and transaction assembly

This project models the core of a small Solana client, `src/index.ts`. The client creates a
token mint, initializes it, attaches metadata, and can then create the payer's associated
token account and mint an amount into it, all in one transaction. The model covers the
part of that file which is defined byte for byte:

- **Codec** (`codec.dfy`): the packed, unpadded field layouts of the buffer-layout library. A
  layout is a list of `u8`, `u32`, `u64`, `publicKey` and `bool` fields. Integers are
  little-endian, a key is 32 raw bytes and a boolean is one byte. Encoding fails with
  `EncodingError` on a value outside its field's domain. Decoding fails with
  `DecodingError` on a buffer shorter than the span. The module proves both round trips,
  and that each field sits at its cumulative offset in a non-overlapping range. It defines
  the three layouts the client uses: `initializeMintInstructionData` (67 bytes),
  `mintToInstructionData` (9 bytes) and `MintLayout`, whose span is `MINT_SIZE` = 82.
- **Keys** (`keys.dfy`): 32-byte addresses, and the token program, associated-token
  program, system program and rent sysvar ids decoded from their base58 strings.
  `findProgramAddress` is the type `FindProgramAddress`, a function passed as a
  parameter. It is therefore deterministic: equal seeds and program id always give the
  same address. It returns `None` when no bump seed gives an off-curve address.
- **TokenInstructions** (`token_instruction.dfy`): the 21 `TokenInstruction` kinds and their
  discriminants 0..20. A first byte above 20 decodes to nothing.
- **Instructions** (`instructions.dfy`): the three builders `createInitializeMintIx`,
  `createCreateAssociatedTokenAccIx` and `createMintToIx`. Each is a pure function that
  returns account metas, program id and payload, or an error.
- **Wire** (`wire.dfy`): the reading of an instruction by the token program and the
  associated-token program. `ParseInstruction` demands the exact account list and flags of
  each kind. It reads the payload fields at their offsets and, like the programs, ignores
  bytes past the layout's span. Every builder is proved to produce an instruction that
  parses back to its own arguments. Conversely, a parsed initialize-mint instruction is
  exactly what the builder produces when its payload is 67 bytes and an absent freeze
  authority is written as zeros. A parsed mint-to instruction is exactly what the builder
  produces when its payload is 9 bytes. A parsed create-associated-account instruction on
  the derived address is exactly what the builder produces.
- **MintTransaction** (`transaction.dfy`): `web3.Transaction` as a class holding an
  instruction sequence, with `add` appending to it. `CreateAndInitializeMint` builds the
  five instructions and appends them in the order `createAndInitializeMint`
  (src/index.ts:244-248) adds them. It is proved equal to the
  specification function `AssembleMintTransaction`. Lemmas about that function give the
  3-or-5 length, the fixed order, and the meaning of every position. They also show that
  mint-to credits exactly the associated account created one instruction earlier.

The create-associated-account instruction carries seven accounts (src/index.ts:163-171):
payer, derived address, owner, mint, system program, token program and rent sysvar.

Collaborators that are not part of the model and enter as parameters:
- the mint keypair's public key;
- the system program's create-account instruction, with its rent-exempt lamports, taken as
  an opaque instruction;
- the metadata instruction, a `Result` whose error is a failed upload;
- `findProgramAddress`;
- the token amount, already scaled by 10^decimals.

## Model

| member | source | states |
|---|---|---|
| `Codec.LittleEndian` | src/index.ts:9 | an unsigned integer is written in exactly `width` bytes, least significant first, and those bytes read back as the integer modulo 256^width (higher bytes are dropped) |
| `Codec.FromLittleEndian` | src/index.ts:9 | reading little-endian bytes gives a value below 256^len |
| `Codec.LittleEndianRoundTrip` | src/index.ts:9 | every value below 256^width is read back from its `width` little-endian bytes |
| `Codec.LittleEndianOfDecoded` | src/index.ts:9 | every byte string is the little-endian encoding of the value it reads as |
| `Codec.EncodeField` | src/index.ts:8-9 | a field value in its domain encodes to exactly the field's width |
| `Codec.DecodeField` | src/index.ts:8-9 | any field-width byte string decodes to a value in the field's domain: an integer read little-endian, a key verbatim, a `bool` true for any non-zero byte |
| `Codec.FieldRoundTrip` | src/index.ts:8-9 | decoding an encoded field gives the value back |
| `Codec.FieldInverse` | src/index.ts:8-9 | re-encoding decoded bytes gives the bytes back when a boolean byte is 0 or 1 |
| `Codec.LimitIsPow256` | src/index.ts:8-9 | the domain limits of `u8`, `u32`, `u64` are 2^8, 2^32, 2^64 |
| `Codec.Encode` | src/index.ts:47-49 | a struct encodes iff every value is in its field's domain (else `EncodingError`), and then to exactly `Span` bytes |
| `Codec.Decode` | src/index.ts:47-49 | a struct decodes iff the buffer holds at least `Span` bytes (else `DecodingError`), giving one in-domain value per field |
| `Codec.DecodeEncode` | src/index.ts:47-49 | decode(encode(values)) == values for every encodable record |
| `Codec.EncodeDecode` | src/index.ts:47-49 | encode(decode(bytes)) == the first `Span` bytes when the boolean bytes are 0/1 |
| `Codec.SpanAppend` | src/index.ts:86-97 | the span of two layouts in sequence is the sum of their spans |
| `Codec.OffsetStep` | src/index.ts:86-97 | offsets are cumulative: each field starts where the previous one ends, and the last ends at the span |
| `Codec.OffsetsDisjoint` | src/index.ts:86-97 | fields occupy strictly ordered, non-overlapping byte ranges inside the span |
| `Codec.FieldAt` | src/index.ts:62-69 | field `i` of an encoding is exactly that field's bytes, at its cumulative offset |
| `Codec.ByteFieldAt` | src/index.ts:62-69 | a `u8` field is the single byte holding its value |
| `Codec.KeyFieldAt` | src/index.ts:62-69 | a `publicKey` field is the key's 32 bytes verbatim |
| `Codec.CanonicalWithoutBool` | src/index.ts:47-49 | a layout without `bool` fields has no non-canonical byte strings |
| `Codec.MintSize` | src/index.ts:96-97 | `MINT_SIZE` = 4+32+8+1+1+4+32 = 82 |
| `Codec.LayoutSpans` | src/index.ts:47-49 | the initialize-mint payload is 67 bytes, the mint-to payload 9, a mint account 82 |
| `Codec.MintLayoutOffsets` | src/index.ts:86-94 | mint account fields start at 0, 4, 36, 44, 45, 46, 50 and end at 82 |
| `TokenInstructions.Discriminant` | src/index.ts:15-37 | every instruction kind has a discriminant in 0..20 |
| `TokenInstructions.AllTokenInstructionsOrdered` | src/index.ts:15-37 | the 21 kinds listed in order carry discriminants 0..20, and every kind is listed |
| `TokenInstructions.FromDiscriminant` | src/index.ts:15-37 | a first byte decodes to a kind iff it is at most 20, and that kind's discriminant is the byte |
| `TokenInstructions.DiscriminantRoundTrip` | src/index.ts:15-37 | each discriminant decodes to its own kind, and distinct kinds have distinct discriminants |
| `TokenInstructions.BuiltDiscriminants` | src/index.ts:16-23 | `InitializeMint` = 0 and `MintTo` = 7 |
| `Instructions.CreateInitializeMintIx` | src/index.ts:51-71 | succeeds iff decimals fits a `u8` (else `EncodingError`); addressed to `programId` with a 67-byte payload |
| `Instructions.CreateCreateAssociatedTokenAccIx` | src/index.ts:150-179 | succeeds iff the address derives from seeds [owner, programId, mint] under the associated-token program (else `NoValidDerivation`); empty payload, 7 accounts, the second being the derived address, writable |
| `Instructions.CreateMintToIx` | src/index.ts:189-208 | succeeds iff amount < 2^64 (else `EncodingError`); addressed to `programId` with a 9-byte payload |
| `Wire.InitializeMintPayload` | src/index.ts:62-69 | the payload is byte 0 = 0, byte 1 = decimals, bytes 2..33 = mint authority, byte 34 = 1 iff a freeze authority is given, bytes 35..66 = that authority or 32 zeros |
| `Wire.InitializeMintEncoding` | src/index.ts:47-49 | the same byte positions for the encoded initialize-mint record itself |
| `Wire.InitializeMintOffsets` | src/index.ts:47-49 | initialize-mint fields start at 0, 1, 2, 34, 35 and end at 67 |
| `Wire.InitializeMintRoundTrip` | src/index.ts:51-71 | the built instruction parses back to its program id, mint, decimals, mint authority and optional freeze authority |
| `Wire.InitializeMintAccounts` | src/index.ts:58-61 | no account signs; the mint is the only writable account |
| `Wire.InitializeMintUnique` | src/index.ts:51-71 | every well-formed 67-byte initialize-mint instruction with a zeroed absent freeze authority is what the builder produces for its intent |
| `Wire.InitializeMintDataInverse` | src/index.ts:62-69 | re-encoding a decoded 67-byte initialize-mint payload gives it back when an absent freeze authority is written as zeros |
| `Wire.MintToPayload` | src/index.ts:202-206 | the payload is 7 followed by the amount in 8 little-endian bytes, which read back as the amount |
| `Wire.MintToExample` | src/index.ts:242 | 10000 base units (100 tokens at 2 decimals) encode as [7, 16, 39, 0, 0, 0, 0, 0, 0] |
| `Wire.TenThousandLittleEndian` | src/index.ts:242 | 10000 in 8 little-endian bytes is [16, 39, 0, 0, 0, 0, 0, 0] |
| `Wire.MintToRoundTrip` | src/index.ts:189-208 | the built instruction parses back to its program id, mint, destination, authority and amount |
| `Wire.MintToAccounts` | src/index.ts:197-201 | only the authority signs; the mint and the destination are the writable accounts |
| `Wire.MintToUnique` | src/index.ts:189-208 | every well-formed 9-byte mint-to instruction is what the builder produces for its intent |
| `Wire.CreateAssociatedTokenAccountRoundTrip` | src/index.ts:150-179 | the built instruction parses back to payer, derived address, owner, mint and token program, under the associated-token program |
| `Wire.CreateAssociatedTokenAccountAccounts` | src/index.ts:163-171 | only the payer signs; the payer and the derived address are the writable accounts |
| `Wire.CreateAssociatedTokenAccountUnique` | src/index.ts:150-179 | every well-formed create instruction whose account is the derived address is what the builder produces |
| `MintTransaction.Transaction.constructor` | src/index.ts:226 | a new transaction holds no instructions |
| `MintTransaction.Transaction.Add` | src/index.ts:244 | `add` appends exactly one instruction at the end and changes nothing else |
| `MintTransaction.AssembleMintTransaction` | src/index.ts:234-248 | succeeds iff decimals fits, metadata was built, the associated address derives and the amount fits (even when no token account is requested), and then holds 5 instructions with the flag, 3 without |
| `MintTransaction.CreateAndInitializeMint` | src/index.ts:223-248 | the appended transaction is fresh and holds exactly `AssembleMintTransaction`'s batch, or fails with its error |
| `MintTransaction.MintBatchPrefix` | src/index.ts:244-248 | the assembly without the flag succeeds iff it succeeds with it, and its batch is then the first three instructions of the flagged batch: the flag only appends |
| `MintTransaction.AssembledBatchMeaning` | src/index.ts:237-248 | positions 0-2 are create-account, initialize-mint (token program, the mint, the decimals and authorities) and metadata; with the flag, 3 creates the payer's associated account and 4 mints `amount` into exactly that derived address |
| `MintTransaction.BuiltInstructionsSignedByPayer` | src/index.ts:237-249 | every instruction the client builds itself needs no signer other than the payer |

## Left out

- `findProgramAddress` internals: SHA-256 hashing, the ed25519 on-curve test, the bump search
  and its seed-length checks. They are a function-typed parameter with a `None` failure.
- `createCreateMetadataAccIx`: the image file read, the Bundlr/Metaplex uploads,
  `findMetadataPda` and the Metaplex instruction encoding. These are I/O and library code.
  Its result enters as a `Result` (a failure is `BuilderFailure` or whatever the caller passes).
- `SystemProgram.createAccount` and `getMinimumBalanceForRentExemption`: library and RPC
  calls. The create-account instruction is an opaque parameter. The model does not relate its
  `space` to `MINT_SIZE`.
- `Keypair.generate`, `sendAndConfirmTransaction`, `initializeKeypair`, `main` and console
  logging: key generation, network and process plumbing. The signer list `[payer, mint]`
  is not modelled beyond `BuiltInstructionsSignedByPayer`.
- The scaling `amount * 10**decimals` is JavaScript floating-point arithmetic. The model takes
  the scaled amount as a `nat`. A non-integer product, which `BigInt` rejects, is not modelled.
- `decimals` is a `nat`. Negative or fractional JavaScript numbers are not modelled.
- Instructions.CreateMintToIx: rejects an amount of 2^64 or more with `EncodingError`. The
  source hands such a value to the bigint-buffer library, whose behaviour is not part of
  this model.
- MintTransaction.AssembleMintTransaction: an amount of 2^64 or more makes the whole
  assembly fail, even with `createTokenAccount` unset. In the source `createMintToIx` runs
  before that test (src/index.ts:242 vs 246), and nothing visible in src/index.ts throws for
  such an amount, so the source would go on to add and submit the three-instruction batch
  (src/index.ts:244, 249). The model inherits the `EncodingError` of `CreateMintToIx` instead.
- The try/catch around the build: the model returns `Err` whether the source throws out of
  the function (initialize-mint encoding, outside the `try`) or logs and swallows the error
  (everything inside it). In both cases nothing is submitted.
- Determinism of the associated-account address is not a separate lemma. It holds because
  `FindProgramAddress` is a function. The builder's contract names the derived address
  through that function, and `AssembledBatchMeaning` uses it to show that the mint-to
  destination is the created account.

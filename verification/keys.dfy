/** 32-byte account addresses and the well-known program and sysvar addresses the client uses. */
module Keys {
  import opened Wrappers
  import opened Codec

  type PublicKey = k: seq<Byte> | |k| == 32 witness
    [0, 0, 0, 0, 0, 0, 0, 0, 0, 0, 0, 0, 0, 0, 0, 0,
     0, 0, 0, 0, 0, 0, 0, 0, 0, 0, 0, 0, 0, 0, 0, 0]

  /** `new PublicKey(0)`: the all-zero address, used as the placeholder for an absent authority. */
  const ZERO_KEY: PublicKey :=
    [0, 0, 0, 0, 0, 0, 0, 0, 0, 0, 0, 0, 0, 0, 0, 0,
     0, 0, 0, 0, 0, 0, 0, 0, 0, 0, 0, 0, 0, 0, 0, 0]

  /** `SystemProgram.programId` ("11111111111111111111111111111111"), also all zeros. */
  const SYSTEM_PROGRAM_ID: PublicKey := ZERO_KEY

  /** "TokenkegQfeZyiNwAJbNbGKPFXCWuBvf9Ss623VQ5DA" decoded from base58. */
  const TOKEN_PROGRAM_ID: PublicKey :=
    [6, 221, 246, 225, 215, 101, 161, 147, 217, 203, 225, 70, 206, 235, 121, 172,
     28, 180, 133, 237, 95, 91, 55, 145, 58, 140, 245, 133, 126, 255, 0, 169]

  /** "ATokenGPvbdGVxr1b2hvZbsiqW5xWH25efTNsLJA8knL" decoded from base58. */
  const ASSOCIATED_TOKEN_PROGRAM_ID: PublicKey :=
    [140, 151, 37, 143, 78, 36, 137, 241, 187, 61, 16, 41, 20, 142, 13, 131,
     11, 90, 19, 153, 218, 255, 16, 132, 4, 142, 123, 216, 219, 233, 248, 89]

  /** `SYSVAR_RENT_PUBKEY`, "SysvarRent111111111111111111111111111111111" decoded from base58. */
  const SYSVAR_RENT_PUBKEY: PublicKey :=
    [6, 167, 213, 23, 25, 44, 92, 81, 33, 140, 201, 76, 61, 74, 241, 127,
     88, 218, 238, 8, 155, 161, 253, 68, 227, 219, 217, 138, 0, 0, 0, 0]

  /** A program-derived address and the bump seed that made it fall off the curve. */
  datatype ProgramAddress = ProgramAddress(address: PublicKey, bump: Byte)

  /**
   * `PublicKey.findProgramAddress(seeds, programId)`: a deterministic search over bump seeds
   * (hashing and the ed25519 curve test are not part of this model), `None` when no bump
   * gives an off-curve address. Being a function, equal inputs always give equal results.
   */
  type FindProgramAddress = (seq<seq<Byte>>, PublicKey) -> Option<ProgramAddress>

}

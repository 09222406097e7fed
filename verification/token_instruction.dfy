/** The `TokenInstruction` enumeration: the first payload byte the token program dispatches on. */
module TokenInstructions {
  import opened Wrappers
  import opened Codec

  datatype TokenInstruction =
    | InitializeMint | InitializeAccount | InitializeMultisig | Transfer | Approve | Revoke
    | SetAuthority | MintTo | Burn | CloseAccount | FreezeAccount | ThawAccount
    | TransferChecked | ApproveChecked | MintToChecked | BurnChecked | InitializeAccount2
    | SyncNative | InitializeAccount3 | InitializeMultisig2 | InitializeMint2

  /** Every instruction kind, in discriminant order. */
  const AllTokenInstructions: seq<TokenInstruction> :=
    [InitializeMint, InitializeAccount, InitializeMultisig, Transfer, Approve, Revoke,
     SetAuthority, MintTo, Burn, CloseAccount, FreezeAccount, ThawAccount,
     TransferChecked, ApproveChecked, MintToChecked, BurnChecked, InitializeAccount2,
     SyncNative, InitializeAccount3, InitializeMultisig2, InitializeMint2]

  function Discriminant(t: TokenInstruction): (b: Byte)
    ensures b <= 20
  {
    match t
    case InitializeMint => 0
    case InitializeAccount => 1
    case InitializeMultisig => 2
    case Transfer => 3
    case Approve => 4
    case Revoke => 5
    case SetAuthority => 6
    case MintTo => 7
    case Burn => 8
    case CloseAccount => 9
    case FreezeAccount => 10
    case ThawAccount => 11
    case TransferChecked => 12
    case ApproveChecked => 13
    case MintToChecked => 14
    case BurnChecked => 15
    case InitializeAccount2 => 16
    case SyncNative => 17
    case InitializeAccount3 => 18
    case InitializeMultisig2 => 19
    case InitializeMint2 => 20
  }

  /** The listing order is the discriminant order, and it lists every kind. */
  lemma AllTokenInstructionsOrdered()
    ensures |AllTokenInstructions| == 21
    ensures forall i :: 0 <= i < 21 ==> Discriminant(AllTokenInstructions[i]) == i
    ensures forall t :: t in AllTokenInstructions
  {
    forall i | 0 <= i < 21 ensures Discriminant(AllTokenInstructions[i]) == i {
      var all := AllTokenInstructions;
      if i < 7 {
        assert i == 0 || i == 1 || i == 2 || i == 3 || i == 4 || i == 5 || i == 6;
      } else if i < 14 {
        assert i == 7 || i == 8 || i == 9 || i == 10 || i == 11 || i == 12 || i == 13;
      } else {
        assert i == 14 || i == 15 || i == 16 || i == 17 || i == 18 || i == 19 || i == 20;
      }
    }
    forall t ensures t in AllTokenInstructions {
      assert AllTokenInstructions[Discriminant(t)] == t;
    }
  }

  /** The decoder's view of a first byte: a kind for 0..20, nothing above. */
  function FromDiscriminant(b: Byte): (r: Option<TokenInstruction>)
    ensures r.Some? <==> b <= 20
    ensures r.Some? ==> Discriminant(r.value) == b
  {
    if b <= 20 then
      AllTokenInstructionsOrdered();
      Some(AllTokenInstructions[b])
    else None
  }

  /** Distinct kinds have distinct discriminants, and each discriminant decodes to its kind. */
  lemma DiscriminantRoundTrip(s: TokenInstruction, t: TokenInstruction)
    ensures FromDiscriminant(Discriminant(t)) == Some(t)
    ensures Discriminant(s) == Discriminant(t) <==> s == t
  {
    AllTokenInstructionsOrdered();
  }

  lemma BuiltDiscriminants()
    ensures Discriminant(InitializeMint) == 0 && Discriminant(MintTo) == 7
  {
  }
}

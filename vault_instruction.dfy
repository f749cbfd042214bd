/** What the six token-vault instruction builders share: the account-meta and
    instruction records, the per-kind table (discriminator, ordered account
    roles with their flags, trailing program ids) and one table-driven
    `Build` that every `create…Instruction` applies to its own kind. */
module VaultInstruction {
  import opened Primitives

  /** One account reference of an instruction: the address and how the
      program may use it. */
  datatype AccountMeta = AccountMeta(pubkey: PublicKey, isWritable: bool, isSigner: bool)

  /** The instruction handed to the transaction assembler. */
  datatype TransactionInstruction = TransactionInstruction(
    programId: PublicKey,
    keys: seq<AccountMeta>,
    data: seq<Byte>)

  /** The fixed addresses every builder uses: the token-vault program the
      instruction is addressed to, the SPL token program and the rent sysvar. */
  datatype ProgramAddresses = ProgramAddresses(
    vaultProgram: PublicKey,
    tokenProgram: PublicKey,
    rentSysvar: PublicKey)

  datatype InstructionKind =
    | InitVault
    | CombineVault
    | RedeemShares
    | WithdrawTokenFromSafetyDepositBox
    | WithdrawSharesFromTreasury
    | AddSharesToTreasury

  /** The fixed flags of one caller-supplied account of an instruction kind;
      the table below names each role in a comment. */
  datatype Role = Role(isWritable: bool, isSigner: bool)

  /** A program id appended after the caller-supplied accounts. */
  datatype TrailingProgram = TokenProgram | RentSysvar

  datatype InitVaultArgs = InitVaultArgs(allowFurtherShareCreation: bool)
  datatype AmountArgs = AmountArgs(amount: nat)
  datatype NumberOfShareArgs = NumberOfShareArgs(numberOfShares: nat)

  /** The argument bundle serialized after the discriminator, if any. */
  datatype InstructionArgs =
    | NoArgs
    | WithInitVaultArgs(initVaultArgs: InitVaultArgs)
    | WithAmountArgs(amountArgs: AmountArgs)
    | WithNumberOfShareArgs(numberOfShareArgs: NumberOfShareArgs)

  // ---------------------------------------------------------------------------
  // The per-kind table

  /** The first payload byte of each kind. */
  function Discriminator(kind: InstructionKind): (d: Byte)
    ensures d in {0, 3, 4, 5, 7, 8}
  {
    match kind
    case InitVault => 0
    case CombineVault => 3
    case RedeemShares => 4
    case WithdrawTokenFromSafetyDepositBox => 5
    case WithdrawSharesFromTreasury => 7
    case AddSharesToTreasury => 8
  }

  /** The caller-supplied accounts of each kind, in key-list order: six for
      InitVault, eleven for CombineVault, seven for RedeemShares and
      WithdrawTokenFromSafetyDepositBox, five for the two treasury kinds. */
  function Roles(kind: InstructionKind): (roles: seq<Role>)
    ensures |roles| == match kind
      case InitVault => 6
      case CombineVault => 11
      case RedeemShares => 7
      case WithdrawTokenFromSafetyDepositBox => 7
      case _ => 5
  {
    match kind
    case InitVault => [
      Role(true, false),  // fractionMint
      Role(true, false),  // redeemTreasury
      Role(true, false),  // fractionTreasury
      Role(true, false),  // vault
      Role(false, false),  // authority
      Role(false, false)]  // pricingLookupAddress
    case CombineVault => [
      Role(true, false),  // vault
      Role(true, false),  // yourOutstandingShares
      Role(true, false),  // yourPayment
      Role(true, false),  // fractionMint
      Role(true, false),  // fractionTreasury
      Role(true, false),  // redeemTreasury
      Role(false, false),  // newVaultAuthority
      Role(false, true),  // vaultAuthority
      Role(false, true),  // transferAuthority
      Role(false, false),  // fractionBurnAuthority
      Role(false, false)]  // externalPricing
    case RedeemShares => [
      Role(true, false),  // outstandingShares
      Role(true, false),  // destination
      Role(true, false),  // fractionMint
      Role(true, false),  // redeemTreasury
      Role(false, false),  // transferAuthority
      Role(false, true),  // burnAuthority
      Role(false, false)]  // vault
    case WithdrawTokenFromSafetyDepositBox => [
      Role(true, false),  // destination
      Role(true, false),  // safetyDeposit
      Role(true, false),  // store
      Role(true, false),  // vault
      Role(false, false),  // fractionMint
      Role(false, true),  // vaultAuthority
      Role(false, false)]  // transferAuthority
    case WithdrawSharesFromTreasury => [
      Role(true, false),  // destination
      Role(true, false),  // fractionTreasury
      Role(false, false),  // vault
      Role(false, false),  // transferAuthority
      Role(false, true)]  // vaultAuthority
    case AddSharesToTreasury => [
      Role(true, false),  // source
      Role(true, false),  // fractionTreasury
      Role(false, false),  // vault
      Role(false, true),  // transferAuthority
      Role(false, true)]  // vaultAuthority
  }

  /** The token program always follows the accounts; the rent sysvar follows
      it for every kind except CombineVault and AddSharesToTreasury. */
  function TrailingPrograms(kind: InstructionKind): (programs: seq<TrailingProgram>)
    ensures 1 <= |programs| <= 2 && programs[0] == TokenProgram
    ensures |programs| == 2 <==> !(kind == CombineVault || kind == AddSharesToTreasury)
    ensures |programs| == 2 ==> programs[1] == RentSysvar
  {
    match kind
    case CombineVault => [TokenProgram]
    case AddSharesToTreasury => [TokenProgram]
    case _ => [TokenProgram, RentSysvar]
  }

  /** The argument bundle each kind's builder is typed to take, with its u64
      quantities in range. */
  predicate ArgsFit(kind: InstructionKind, args: InstructionArgs) {
    && ArgsInRange(args)
    && match kind
       case InitVault => args.WithInitVaultArgs?
       case CombineVault => args.NoArgs?
       case RedeemShares => args.NoArgs?
       case WithdrawTokenFromSafetyDepositBox => args.WithAmountArgs?
       case WithdrawSharesFromTreasury => args.WithNumberOfShareArgs?
       case AddSharesToTreasury => args.WithNumberOfShareArgs?
  }

  /** Every u64 quantity of the bundle fits 64 bits. */
  predicate ArgsInRange(args: InstructionArgs) {
    match args
    case WithAmountArgs(a) => a.amount < U64_LIMIT
    case WithNumberOfShareArgs(n) => n.numberOfShares < U64_LIMIT
    case _ => true
  }

  /** The argument struct's bytes: `allowFurtherShareCreation` as a bool, the
      amount and the share count as little-endian u64. */
  function EncodeArgs(args: InstructionArgs): (bs: seq<Byte>)
    requires ArgsInRange(args)
    ensures |bs| == match args
      case NoArgs => 0
      case WithInitVaultArgs(_) => BOOL_SIZE
      case _ => U64_SIZE
  {
    match args
    case NoArgs => []
    case WithInitVaultArgs(a) => WriteBool(a.allowFurtherShareCreation)
    case WithAmountArgs(a) => WriteU64(a.amount)
    case WithNumberOfShareArgs(n) => WriteU64(n.numberOfShares)
  }

  function ProgramAddress(addrs: ProgramAddresses, p: TrailingProgram): PublicKey {
    match p
    case TokenProgram => addrs.tokenProgram
    case RentSysvar => addrs.rentSysvar
  }

  // ---------------------------------------------------------------------------
  // Building

  /** The metas of the supplied accounts: account `i` with the flags of role `i`. */
  function RoleMetas(roles: seq<Role>, accounts: seq<PublicKey>): (metas: seq<AccountMeta>)
    requires |roles| == |accounts|
    ensures |metas| == |roles|
    ensures forall i :: 0 <= i < |roles| ==>
      metas[i] == AccountMeta(accounts[i], roles[i].isWritable, roles[i].isSigner)
  {
    if roles == [] then [] else
      [AccountMeta(accounts[0], roles[0].isWritable, roles[0].isSigner)]
      + RoleMetas(roles[1..], accounts[1..])
  }

  /** The metas of the trailing program ids, none writable, none a signer. */
  function TrailingMetas(addrs: ProgramAddresses, programs: seq<TrailingProgram>): (metas: seq<AccountMeta>)
    ensures |metas| == |programs|
    ensures forall j :: 0 <= j < |programs| ==>
      metas[j] == AccountMeta(ProgramAddress(addrs, programs[j]), false, false)
  {
    if programs == [] then [] else
      [AccountMeta(ProgramAddress(addrs, programs[0]), false, false)]
      + TrailingMetas(addrs, programs[1..])
  }

  /** The instruction of `kind` over the supplied accounts (one per role, in
      role order) and argument bundle. */
  function Build(addrs: ProgramAddresses, kind: InstructionKind, accounts: seq<PublicKey>,
                 args: InstructionArgs): (ix: TransactionInstruction)
    requires |accounts| == |Roles(kind)|
    requires ArgsFit(kind, args)
    ensures ix.programId == addrs.vaultProgram
    ensures |ix.keys| == |Roles(kind)| + |TrailingPrograms(kind)|
    ensures forall i :: 0 <= i < |Roles(kind)| ==>
      ix.keys[i] == AccountMeta(accounts[i], Roles(kind)[i].isWritable, Roles(kind)[i].isSigner)
    ensures forall j :: 0 <= j < |TrailingPrograms(kind)| ==>
      ix.keys[|Roles(kind)| + j]
        == AccountMeta(ProgramAddress(addrs, TrailingPrograms(kind)[j]), false, false)
    ensures ix.data == [Discriminator(kind)] + EncodeArgs(args)
  {
    var data := WriteU8(Discriminator(kind)) + EncodeArgs(args);
    var keys := RoleMetas(Roles(kind), accounts) + TrailingMetas(addrs, TrailingPrograms(kind));
    TransactionInstruction(addrs.vaultProgram, keys, data)
  }

  // ---------------------------------------------------------------------------
  // Views of a key list, used to state the per-kind contracts

  function Writable(k: PublicKey): AccountMeta { AccountMeta(k, true, false) }
  function Signer(k: PublicKey): AccountMeta { AccountMeta(k, false, true) }
  function ReadOnly(k: PublicKey): AccountMeta { AccountMeta(k, false, false) }

  predicate NoWritableSigner(keys: seq<AccountMeta>) {
    forall i :: 0 <= i < |keys| ==> !(keys[i].isWritable && keys[i].isSigner)
  }

  // ---------------------------------------------------------------------------
  // Properties of the table and of Build

  /** No two kinds share a discriminator, so the first payload byte names
      the kind. */
  lemma DiscriminatorInjective(k1: InstructionKind, k2: InstructionKind)
    ensures Discriminator(k1) == Discriminator(k2) <==> k1 == k2
  {
  }

  /** No role of any kind is both writable and a signer. */
  lemma RolesNeverWritableSigner(kind: InstructionKind, i: nat)
    requires i < |Roles(kind)|
    ensures !(Roles(kind)[i].isWritable && Roles(kind)[i].isSigner)
  {
  }

  /** Whatever the kind, accounts and arguments, no key of a built
      instruction is both writable and a signer, and the trailing program ids
      are neither. */
  lemma BuildNeverWritableSigner(addrs: ProgramAddresses, kind: InstructionKind,
                                 accounts: seq<PublicKey>, args: InstructionArgs)
    requires |accounts| == |Roles(kind)| && ArgsFit(kind, args)
    ensures NoWritableSigner(Build(addrs, kind, accounts, args).keys)
  {
    var keys := Build(addrs, kind, accounts, args).keys;
    forall i | 0 <= i < |keys| ensures !(keys[i].isWritable && keys[i].isSigner) {
      if i < |Roles(kind)| {
        RolesNeverWritableSigner(kind, i);
      } else {
        assert keys[|Roles(kind)| + (i - |Roles(kind)|)] == keys[i];
      }
    }
  }

  /** Building is injective in the supplied accounts: two different account
      lists never give the same key list. */
  lemma BuildAccountsInjective(addrs: ProgramAddresses, kind: InstructionKind,
                               a1: seq<PublicKey>, a2: seq<PublicKey>, args: InstructionArgs)
    requires |a1| == |Roles(kind)| && |a2| == |Roles(kind)| && ArgsFit(kind, args)
    requires Build(addrs, kind, a1, args).keys == Build(addrs, kind, a2, args).keys
    ensures a1 == a2
  {
    forall i | 0 <= i < |a1| ensures a1[i] == a2[i] {
      assert Build(addrs, kind, a1, args).keys[i].pubkey == a1[i];
    }
  }

  /** The payload is the discriminator followed by nothing (CombineVault,
      RedeemShares), a bool byte (InitVault) or a u64 (the other three). */
  lemma BuildPayloadSize(addrs: ProgramAddresses, kind: InstructionKind,
                         accounts: seq<PublicKey>, args: InstructionArgs)
    requires |accounts| == |Roles(kind)| && ArgsFit(kind, args)
    ensures |Build(addrs, kind, accounts, args).data| == match kind
      case CombineVault => 1
      case RedeemShares => 1
      case InitVault => 2
      case _ => 9
  {
  }
}

/** The AddSharesToTreasury instruction (discriminator 8, then the
    NumberOfShareArgs struct): five caller-supplied accounts, then the SPL
    token program; no rent sysvar. */
module AddSharesToTreasuryInstruction {
  import opened Primitives
  import opened VaultInstruction

  datatype AddSharesToTreasuryInstructionArgs =
    AddSharesToTreasuryInstructionArgs(numberOfShareArgs: NumberOfShareArgs)

  datatype AddSharesToTreasuryInstructionAccounts = AddSharesToTreasuryInstructionAccounts(
    source: PublicKey,
    fractionTreasury: PublicKey,
    vault: PublicKey,
    transferAuthority: PublicKey,
    vaultAuthority: PublicKey)

  /** The nine-byte payload is 8 followed by the share count as a
      little-endian u64; the six keys are the accounts in declaration order,
      then the token program; only source and fractionTreasury are writable,
      and both transferAuthority and vaultAuthority sign. */
  function CreateAddSharesToTreasuryInstruction(
    addrs: ProgramAddresses,
    accounts: AddSharesToTreasuryInstructionAccounts,
    args: AddSharesToTreasuryInstructionArgs): (ix: TransactionInstruction)
    requires args.numberOfShareArgs.numberOfShares < U64_LIMIT
    ensures ix.programId == addrs.vaultProgram
    ensures ix.data == [8] + WriteU64(args.numberOfShareArgs.numberOfShares)
    ensures ix.keys == [
      Writable(accounts.source),
      Writable(accounts.fractionTreasury),
      ReadOnly(accounts.vault),
      Signer(accounts.transferAuthority),
      Signer(accounts.vaultAuthority),
      ReadOnly(addrs.tokenProgram)]
  {
    var bundle := WithNumberOfShareArgs(args.numberOfShareArgs);
    assert EncodeArgs(bundle) == WriteU64(args.numberOfShareArgs.numberOfShares);
    Build(addrs, AddSharesToTreasury, [
      accounts.source,
      accounts.fractionTreasury,
      accounts.vault,
      accounts.transferAuthority,
      accounts.vaultAuthority], bundle)
  }

  /** Only source and fractionTreasury are writable; transferAuthority (3)
      and vaultAuthority (4) both sign.
      No key is thus both writable and a signer. */
  lemma AddSharesToTreasuryAccess(addrs: ProgramAddresses,
                                  accounts: AddSharesToTreasuryInstructionAccounts,
                                  args: AddSharesToTreasuryInstructionArgs)
    requires args.numberOfShareArgs.numberOfShares < U64_LIMIT
    ensures var keys := CreateAddSharesToTreasuryInstruction(addrs, accounts, args).keys;
      && (forall i :: 0 <= i < |keys| ==> (keys[i].isWritable <==> i < 2) && (keys[i].isSigner <==> i == 3 || i == 4))
      && NoWritableSigner(keys)
  {
    var keys := CreateAddSharesToTreasuryInstruction(addrs, accounts, args).keys;
    forall i | 0 <= i < |keys| ensures (keys[i].isWritable <==> i < 2) && (keys[i].isSigner <==> i == 3 || i == 4) {
      // One case per position of the key list.
      if i == 0 {} else if i == 1 {} else if i == 2 {} else if i == 3 {} else if i == 4 {}
      else {}
    }
  }
}

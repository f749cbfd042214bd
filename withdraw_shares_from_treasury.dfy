/** The WithdrawSharesFromTreasury instruction (discriminator 7, then the
    NumberOfShareArgs struct): five caller-supplied accounts, then the SPL
    token program and the rent sysvar. */
module WithdrawSharesFromTreasuryInstruction {
  import opened Primitives
  import opened VaultInstruction

  datatype WithdrawSharesFromTreasuryInstructionArgs =
    WithdrawSharesFromTreasuryInstructionArgs(numberOfShareArgs: NumberOfShareArgs)

  datatype WithdrawSharesFromTreasuryInstructionAccounts = WithdrawSharesFromTreasuryInstructionAccounts(
    destination: PublicKey,
    fractionTreasury: PublicKey,
    vault: PublicKey,
    transferAuthority: PublicKey,
    vaultAuthority: PublicKey)

  /** The nine-byte payload is 7 followed by the share count as a
      little-endian u64; the seven keys are the accounts in declaration
      order, then the token program and the rent sysvar; only destination and
      fractionTreasury are writable and only vaultAuthority signs. */
  function CreateWithdrawSharesFromTreasuryInstruction(
    addrs: ProgramAddresses,
    accounts: WithdrawSharesFromTreasuryInstructionAccounts,
    args: WithdrawSharesFromTreasuryInstructionArgs): (ix: TransactionInstruction)
    requires args.numberOfShareArgs.numberOfShares < U64_LIMIT
    ensures ix.programId == addrs.vaultProgram
    ensures ix.data == [7] + WriteU64(args.numberOfShareArgs.numberOfShares)
    ensures ix.keys == [
      Writable(accounts.destination),
      Writable(accounts.fractionTreasury),
      ReadOnly(accounts.vault),
      ReadOnly(accounts.transferAuthority),
      Signer(accounts.vaultAuthority),
      ReadOnly(addrs.tokenProgram),
      ReadOnly(addrs.rentSysvar)]
  {
    var bundle := WithNumberOfShareArgs(args.numberOfShareArgs);
    assert EncodeArgs(bundle) == WriteU64(args.numberOfShareArgs.numberOfShares);
    Build(addrs, WithdrawSharesFromTreasury, [
      accounts.destination,
      accounts.fractionTreasury,
      accounts.vault,
      accounts.transferAuthority,
      accounts.vaultAuthority], bundle)
  }

  /** Only destination and fractionTreasury are writable; vaultAuthority is
      the only signer, transferAuthority is not one.
      No key is thus both writable and a signer. */
  lemma WithdrawSharesFromTreasuryAccess(addrs: ProgramAddresses,
                                         accounts: WithdrawSharesFromTreasuryInstructionAccounts,
                                         args: WithdrawSharesFromTreasuryInstructionArgs)
    requires args.numberOfShareArgs.numberOfShares < U64_LIMIT
    ensures var keys := CreateWithdrawSharesFromTreasuryInstruction(addrs, accounts, args).keys;
      && (forall i :: 0 <= i < |keys| ==> (keys[i].isWritable <==> i < 2) && (keys[i].isSigner <==> i == 4))
      && NoWritableSigner(keys)
  {
    var keys := CreateWithdrawSharesFromTreasuryInstruction(addrs, accounts, args).keys;
    forall i | 0 <= i < |keys| ensures (keys[i].isWritable <==> i < 2) && (keys[i].isSigner <==> i == 4) {
      // One case per position of the key list.
      if i == 0 {} else if i == 1 {} else if i == 2 {} else if i == 3 {} else if i == 4 {}
      else if i == 5 {} else {}
    }
  }
}

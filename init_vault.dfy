/** The InitVault instruction (discriminator 0, then the InitVaultArgs
    struct): six caller-supplied accounts, then the SPL token program and the
    rent sysvar. */
module InitVaultInstruction {
  import opened Primitives
  import opened VaultInstruction

  datatype InitVaultInstructionArgs = InitVaultInstructionArgs(initVaultArgs: InitVaultArgs)

  datatype InitVaultInstructionAccounts = InitVaultInstructionAccounts(
    fractionMint: PublicKey,
    redeemTreasury: PublicKey,
    fractionTreasury: PublicKey,
    vault: PublicKey,
    authority: PublicKey,
    pricingLookupAddress: PublicKey)

  /** The payload is 0 followed by `allowFurtherShareCreation` as 0/1; the
      eight keys are the accounts in declaration order, then the token
      program and the rent sysvar; the first four are writable and nothing,
      not even the authority, signs. */
  function CreateInitVaultInstruction(addrs: ProgramAddresses, accounts: InitVaultInstructionAccounts,
                                      args: InitVaultInstructionArgs): (ix: TransactionInstruction)
    ensures ix.programId == addrs.vaultProgram
    ensures ix.data == [0, if args.initVaultArgs.allowFurtherShareCreation then 1 else 0]
    ensures ix.keys == [
      Writable(accounts.fractionMint),
      Writable(accounts.redeemTreasury),
      Writable(accounts.fractionTreasury),
      Writable(accounts.vault),
      ReadOnly(accounts.authority),
      ReadOnly(accounts.pricingLookupAddress),
      ReadOnly(addrs.tokenProgram),
      ReadOnly(addrs.rentSysvar)]
  {
    Build(addrs, InitVault, [
      accounts.fractionMint,
      accounts.redeemTreasury,
      accounts.fractionTreasury,
      accounts.vault,
      accounts.authority,
      accounts.pricingLookupAddress], WithInitVaultArgs(args.initVaultArgs))
  }

  /** fractionMint, redeemTreasury, fractionTreasury and vault are writable;
      nothing signs, not even the authority.
      No key is thus both writable and a signer. */
  lemma InitVaultAccess(addrs: ProgramAddresses,
                        accounts: InitVaultInstructionAccounts,
                        args: InitVaultInstructionArgs)
    ensures var keys := CreateInitVaultInstruction(addrs, accounts, args).keys;
      && (forall i :: 0 <= i < |keys| ==> (keys[i].isWritable <==> i < 4) && !keys[i].isSigner)
      && NoWritableSigner(keys)
  {
    var keys := CreateInitVaultInstruction(addrs, accounts, args).keys;
    forall i | 0 <= i < |keys| ensures (keys[i].isWritable <==> i < 4) && !keys[i].isSigner {
      // One case per position of the key list.
      if i == 0 {} else if i == 1 {} else if i == 2 {} else if i == 3 {} else if i == 4 {}
      else if i == 5 {} else if i == 6 {} else {}
    }
  }
}

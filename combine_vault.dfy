/** The CombineVault instruction (discriminator 3, no arguments): eleven
    caller-supplied accounts followed by the SPL token program. */
module CombineVaultInstruction {
  import opened Primitives
  import opened VaultInstruction

  datatype CombineVaultInstructionAccounts = CombineVaultInstructionAccounts(
    vault: PublicKey,
    yourOutstandingShares: PublicKey,
    yourPayment: PublicKey,
    fractionMint: PublicKey,
    fractionTreasury: PublicKey,
    redeemTreasury: PublicKey,
    newVaultAuthority: PublicKey,
    vaultAuthority: PublicKey,
    transferAuthority: PublicKey,
    fractionBurnAuthority: PublicKey,
    externalPricing: PublicKey)

  /** The payload is the single byte 3; the twelve keys are the accounts in
      declaration order, then the token program; the first six are writable,
      only vaultAuthority and transferAuthority sign. */
  function CreateCombineVaultInstruction(addrs: ProgramAddresses,
                                         accounts: CombineVaultInstructionAccounts): (ix: TransactionInstruction)
    ensures ix.programId == addrs.vaultProgram
    ensures ix.data == [3]
    ensures ix.keys == [
      Writable(accounts.vault),
      Writable(accounts.yourOutstandingShares),
      Writable(accounts.yourPayment),
      Writable(accounts.fractionMint),
      Writable(accounts.fractionTreasury),
      Writable(accounts.redeemTreasury),
      ReadOnly(accounts.newVaultAuthority),
      Signer(accounts.vaultAuthority),
      Signer(accounts.transferAuthority),
      ReadOnly(accounts.fractionBurnAuthority),
      ReadOnly(accounts.externalPricing),
      ReadOnly(addrs.tokenProgram)]
  {
    Build(addrs, CombineVault, [
      accounts.vault,
      accounts.yourOutstandingShares,
      accounts.yourPayment,
      accounts.fractionMint,
      accounts.fractionTreasury,
      accounts.redeemTreasury,
      accounts.newVaultAuthority,
      accounts.vaultAuthority,
      accounts.transferAuthority,
      accounts.fractionBurnAuthority,
      accounts.externalPricing], NoArgs)
  }

  /** The first six accounts are writable; only vaultAuthority (7) and
      transferAuthority (8) sign.
      No key is thus both writable and a signer. */
  lemma CombineVaultAccess(addrs: ProgramAddresses, accounts: CombineVaultInstructionAccounts)
    ensures var keys := CreateCombineVaultInstruction(addrs, accounts).keys;
      && (forall i :: 0 <= i < |keys| ==> (keys[i].isWritable <==> i < 6) && (keys[i].isSigner <==> i == 7 || i == 8))
      && NoWritableSigner(keys)
  {
    var keys := CreateCombineVaultInstruction(addrs, accounts).keys;
    forall i | 0 <= i < |keys| ensures (keys[i].isWritable <==> i < 6) && (keys[i].isSigner <==> i == 7 || i == 8) {
      // One case per position of the key list.
      if i == 0 {} else if i == 1 {} else if i == 2 {} else if i == 3 {} else if i == 4 {}
      else if i == 5 {} else if i == 6 {} else if i == 7 {} else if i == 8 {}
      else if i == 9 {} else if i == 10 {} else {}
    }
  }
}

/** The RedeemShares instruction (discriminator 4, no arguments): seven
    caller-supplied accounts, then the SPL token program and the rent sysvar. */
module RedeemSharesInstruction {
  import opened Primitives
  import opened VaultInstruction

  datatype RedeemSharesInstructionAccounts = RedeemSharesInstructionAccounts(
    outstandingShares: PublicKey,
    destination: PublicKey,
    fractionMint: PublicKey,
    redeemTreasury: PublicKey,
    transferAuthority: PublicKey,
    burnAuthority: PublicKey,
    vault: PublicKey)

  /** The payload is the single byte 4; the nine keys are the accounts in
      declaration order, then the token program and the rent sysvar; the
      first four are writable and only burnAuthority signs. */
  function CreateRedeemSharesInstruction(addrs: ProgramAddresses,
                                         accounts: RedeemSharesInstructionAccounts): (ix: TransactionInstruction)
    ensures ix.programId == addrs.vaultProgram
    ensures ix.data == [4]
    ensures ix.keys == [
      Writable(accounts.outstandingShares),
      Writable(accounts.destination),
      Writable(accounts.fractionMint),
      Writable(accounts.redeemTreasury),
      ReadOnly(accounts.transferAuthority),
      Signer(accounts.burnAuthority),
      ReadOnly(accounts.vault),
      ReadOnly(addrs.tokenProgram),
      ReadOnly(addrs.rentSysvar)]
  {
    Build(addrs, RedeemShares, [
      accounts.outstandingShares,
      accounts.destination,
      accounts.fractionMint,
      accounts.redeemTreasury,
      accounts.transferAuthority,
      accounts.burnAuthority,
      accounts.vault], NoArgs)
  }

  /** The first four accounts are writable; burnAuthority (5) is the only
      signer.
      No key is thus both writable and a signer. */
  lemma RedeemSharesAccess(addrs: ProgramAddresses, accounts: RedeemSharesInstructionAccounts)
    ensures var keys := CreateRedeemSharesInstruction(addrs, accounts).keys;
      && (forall i :: 0 <= i < |keys| ==> (keys[i].isWritable <==> i < 4) && (keys[i].isSigner <==> i == 5))
      && NoWritableSigner(keys)
  {
    var keys := CreateRedeemSharesInstruction(addrs, accounts).keys;
    forall i | 0 <= i < |keys| ensures (keys[i].isWritable <==> i < 4) && (keys[i].isSigner <==> i == 5) {
      // One case per position of the key list.
      if i == 0 {} else if i == 1 {} else if i == 2 {} else if i == 3 {} else if i == 4 {}
      else if i == 5 {} else if i == 6 {} else if i == 7 {} else {}
    }
  }
}

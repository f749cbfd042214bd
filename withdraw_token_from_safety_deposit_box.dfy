/** The WithdrawTokenFromSafetyDepositBox instruction (discriminator 5, then
    the AmountArgs struct): seven caller-supplied accounts, then the SPL token
    program and the rent sysvar. */
module WithdrawTokenFromSafetyDepositBoxInstruction {
  import opened Primitives
  import opened VaultInstruction

  datatype WithdrawTokenFromSafetyDepositBoxInstructionArgs =
    WithdrawTokenFromSafetyDepositBoxInstructionArgs(amountArgs: AmountArgs)

  datatype WithdrawTokenFromSafetyDepositBoxInstructionAccounts =
    WithdrawTokenFromSafetyDepositBoxInstructionAccounts(
      destination: PublicKey,
      safetyDeposit: PublicKey,
      store: PublicKey,
      vault: PublicKey,
      fractionMint: PublicKey,
      vaultAuthority: PublicKey,
      transferAuthority: PublicKey)

  /** The nine-byte payload is 5 followed by the amount as a little-endian
      u64; the nine keys are the accounts in declaration order, then the
      token program and the rent sysvar; the first four are writable and only
      vaultAuthority signs. */
  function CreateWithdrawTokenFromSafetyDepositBoxInstruction(
    addrs: ProgramAddresses,
    accounts: WithdrawTokenFromSafetyDepositBoxInstructionAccounts,
    args: WithdrawTokenFromSafetyDepositBoxInstructionArgs): (ix: TransactionInstruction)
    requires args.amountArgs.amount < U64_LIMIT
    ensures ix.programId == addrs.vaultProgram
    ensures ix.data == [5] + WriteU64(args.amountArgs.amount)
    ensures ix.keys == [
      Writable(accounts.destination),
      Writable(accounts.safetyDeposit),
      Writable(accounts.store),
      Writable(accounts.vault),
      ReadOnly(accounts.fractionMint),
      Signer(accounts.vaultAuthority),
      ReadOnly(accounts.transferAuthority),
      ReadOnly(addrs.tokenProgram),
      ReadOnly(addrs.rentSysvar)]
  {
    var bundle := WithAmountArgs(args.amountArgs);
    assert EncodeArgs(bundle) == WriteU64(args.amountArgs.amount);
    Build(addrs, WithdrawTokenFromSafetyDepositBox, [
      accounts.destination,
      accounts.safetyDeposit,
      accounts.store,
      accounts.vault,
      accounts.fractionMint,
      accounts.vaultAuthority,
      accounts.transferAuthority], bundle)
  }

  /** destination, safetyDeposit, store and vault are writable;
      vaultAuthority (5) is the only signer.
      No key is thus both writable and a signer. */
  lemma WithdrawTokenFromSafetyDepositBoxAccess(
    addrs: ProgramAddresses,
    accounts: WithdrawTokenFromSafetyDepositBoxInstructionAccounts,
    args: WithdrawTokenFromSafetyDepositBoxInstructionArgs)
    requires args.amountArgs.amount < U64_LIMIT
    ensures var keys := CreateWithdrawTokenFromSafetyDepositBoxInstruction(addrs, accounts, args).keys;
      && (forall i :: 0 <= i < |keys| ==> (keys[i].isWritable <==> i < 4) && (keys[i].isSigner <==> i == 5))
      && NoWritableSigner(keys)
  {
    var keys := CreateWithdrawTokenFromSafetyDepositBoxInstruction(addrs, accounts, args).keys;
    forall i | 0 <= i < |keys| ensures (keys[i].isWritable <==> i < 4) && (keys[i].isSigner <==> i == 5) {
      // One case per position of the key list.
      if i == 0 {} else if i == 1 {} else if i == 2 {} else if i == 3 {} else if i == 4 {}
      else if i == 5 {} else if i == 6 {} else if i == 7 {} else {}
    }
  }

  /** Byte 1 + i of the payload is digit i of the amount in base 256. */
  lemma WithdrawTokenAmountBytes(addrs: ProgramAddresses,
                                 accounts: WithdrawTokenFromSafetyDepositBoxInstructionAccounts,
                                 args: WithdrawTokenFromSafetyDepositBoxInstructionArgs, i: nat)
    requires args.amountArgs.amount < U64_LIMIT && i < U64_SIZE
    ensures CreateWithdrawTokenFromSafetyDepositBoxInstruction(addrs, accounts, args).data[1 + i]
         == (args.amountArgs.amount / Pow256(i)) % 256
  {
    var data := CreateWithdrawTokenFromSafetyDepositBoxInstruction(addrs, accounts, args).data;
    U64LimitIsEightBytes();
    assert data[1 + i] == EncodeLE(args.amountArgs.amount, U64_SIZE)[i];
    EncodeLEDigit(args.amountArgs.amount, U64_SIZE, i);
  }

  /** An amount of 1000 gives the payload 05 E8 03 00 00 00 00 00 00. */
  lemma WithdrawTokenAmount1000(addrs: ProgramAddresses,
                                accounts: WithdrawTokenFromSafetyDepositBoxInstructionAccounts)
    ensures CreateWithdrawTokenFromSafetyDepositBoxInstruction(
              addrs, accounts, WithdrawTokenFromSafetyDepositBoxInstructionArgs(AmountArgs(1000))).data
         == [0x05, 0xE8, 0x03, 0x00, 0x00, 0x00, 0x00, 0x00, 0x00]
  {
    WriteU64Of1000();
  }
}

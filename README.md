# Token-vault client codec, modelled in Dafny

This project models the client-side codec layer of the token-vault program:

* the **ExternalPriceAccount** record, a fixed 42-byte layout. It holds a one-byte
  account-kind tag, `pricePerShare` as a little-endian u64, the 32-byte
  `priceMint` address and the `allowedToCombine` flag as 0/1. The model has its
  `fromArgs`, `serialize`, `deserialize(buf, offset)`, `byteSize` and
  `hasCorrectByteSize`;
* the six **instruction builders** `createInitVaultInstruction`,
  `createCombineVaultInstruction`, `createRedeemSharesInstruction`,
  `createWithdrawTokenFromSafetyDepositBoxInstruction`,
  `createWithdrawSharesFromTreasuryInstruction` and
  `createAddSharesToTreasuryInstruction`. Each one serializes a one-byte
  discriminator and, for some kinds, an argument struct. It then lists the
  account metas `(pubkey, isWritable, isSigner)` in a fixed order, appends the
  SPL token program and sometimes the rent sysvar, and addresses the result to the
  vault program.

Everything is pure, so the model is datatypes, functions and lemmas:

* `primitives.dfy` (module `Primitives`) holds the field codecs: u8,
  little-endian u64 over any width, bool and the 32-byte public key. Each reader
  takes `(buf, offset)` and returns the value and the next offset. It fails with
  `BufferTooShort` when fewer bytes than the field's width remain.
* `external_price_account.dfy` (module `ExternalPriceAccountCodec`) holds the
  record, its serializer and deserializer, the two round trips and the layout.
* `vault_instruction.dfy` (module `VaultInstruction`) holds one
  `InstructionKind` datatype with a per-kind table: the discriminator, the
  ordered roles with their flags and the trailing program ids. It also holds
  the table-driven `Build` that every builder applies.
* There is one module per builder file (`combine_vault.dfy`, `init_vault.dfy`,
  `redeem_shares.dfy`, `withdraw_token_from_safety_deposit_box.dfy`,
  `withdraw_shares_from_treasury.dfy`, `add_shares_to_treasury.dfy`). Each has
  the builder's accounts and argument records and a `Create…Instruction`
  function. That function's contract gives the exact payload, the exact key
  list and the program id.

Modelling decisions:

* Bytes are the integers 0..255 (`Primitives.Byte`). A public key is a
  sequence of exactly 32 bytes, compared by its bytes.
* The vault program address, `TOKEN_PROGRAM_ID` and `SYSVAR_RENT_PUBKEY` are
  fixed constants in the source. Here they are one `ProgramAddresses` value that
  every builder receives. The base58 literal is not decoded. Each contract then
  says that the instruction uses `addrs.vaultProgram`, `addrs.tokenProgram` and
  `addrs.rentSysvar`.
* u64 quantities (`pricePerShare`, `amount`, `numberOfShares`) are `nat` with
  a `< 2^64` precondition wherever they are written.
* A bool field is written as 1 or 0. It is read back as `true` exactly when the
  byte is 1, so every other byte reads as `false`. For that reason the
  bytes-to-record-to-bytes round trip (`SerializeDeserialize`) requires the
  flag byte to be 0 or 1.
* The builders check no missing account at run time; only TypeScript types
  guard them. So here each builder takes a record with one address per role and
  has no failure mode. This follows the code. The generic design of the
  protocol suggests a `MissingAccount` failure, which the code does not have.
* The builder files' argument types come from a types module that is not part
  of this model. Their layouts are taken as `InitVaultArgs {
  allowFurtherShareCreation: bool }`, `AmountArgs { amount: u64 }` and
  `NumberOfShareArgs { numberOfShares: u64 }`.

## Model

| member | source | states |
|---|---|---|
| `Primitives.DecodeLE` | token-vault/js/src/generated/accounts/ExternalPriceAccount.ts:115 | the little-endian value of n bytes is below 256^n |
| `Primitives.EncodeLE` | token-vault/js/src/generated/accounts/ExternalPriceAccount.ts:115 | an n-byte little-endian encoding has n bytes and decodes back to the value |
| `Primitives.EncodeLEDigit` | token-vault/js/src/generated/accounts/ExternalPriceAccount.ts:115 | byte i of the encoding is digit i of the value in base 256, least significant first |
| `Primitives.EncodeDecodeLE` | token-vault/js/src/generated/accounts/ExternalPriceAccount.ts:115 | re-encoding decoded bytes gives back the same bytes |
| `Primitives.DecodeLEInjective` | token-vault/js/src/generated/accounts/ExternalPriceAccount.ts:115 | two byte strings of one width with equal values are equal |
| `Primitives.U64LimitIsEightBytes` | token-vault/js/src/generated/accounts/ExternalPriceAccount.ts:115 | 256^8 is 2^64, the u64 bound |
| `Primitives.WriteU8` | token-vault/js/src/generated/accounts/ExternalPriceAccount.ts:114 | a u8 is written as one byte, the value itself |
| `Primitives.WriteU64` | token-vault/js/src/generated/accounts/ExternalPriceAccount.ts:115 | a u64 is written as 8 bytes that decode little-endian to the value |
| `Primitives.WriteU64Of1000` | token-vault/js/src/generated/accounts/ExternalPriceAccount.ts:115 | the u64 1000 is written as E8 03 00 00 00 00 00 00 |
| `Primitives.WriteBool` | token-vault/js/src/generated/accounts/ExternalPriceAccount.ts:117 | a bool is written as one byte that is 0 or 1, and it is 1 exactly when the bool is true |
| `Primitives.WritePublicKey` | token-vault/js/src/generated/accounts/ExternalPriceAccount.ts:116 | a public key is written as 32 bytes, byte i equal to the key's byte i |
| `Primitives.ReadU8` | token-vault/js/src/generated/accounts/ExternalPriceAccount.ts:114 | reading a u8 at an offset succeeds exactly when a byte remains, returns that byte and advances by 1 |
| `Primitives.ReadU64` | token-vault/js/src/generated/accounts/ExternalPriceAccount.ts:115 | reading a u64 succeeds exactly when 8 bytes remain, yields a value below 2^64 whose encoding is those 8 bytes, and advances by 8 |
| `Primitives.ReadBool` | token-vault/js/src/generated/accounts/ExternalPriceAccount.ts:117 | reading a bool succeeds exactly when a byte remains, yields true exactly for byte 1, and advances by 1 |
| `Primitives.ReadPublicKey` | token-vault/js/src/generated/accounts/ExternalPriceAccount.ts:116 | reading a public key succeeds exactly when 32 bytes remain, yields those bytes and advances by 32 |
| `Primitives.ReadU8Write` | token-vault/js/src/generated/accounts/ExternalPriceAccount.ts:114 | a written u8 is read back at its offset in any buffer |
| `Primitives.ReadU64Write` | token-vault/js/src/generated/accounts/ExternalPriceAccount.ts:115 | a written u64 is read back at its offset in any buffer |
| `Primitives.ReadBoolWrite` | token-vault/js/src/generated/accounts/ExternalPriceAccount.ts:117 | a written bool is read back at its offset in any buffer |
| `Primitives.ReadPublicKeyWrite` | token-vault/js/src/generated/accounts/ExternalPriceAccount.ts:116 | a written public key is read back at its offset in any buffer |
| `ExternalPriceAccountCodec.ByteSize` | token-vault/js/src/generated/accounts/ExternalPriceAccount.ts:70-72 | the record size is the end of the last field, the sum of the four field widths in declaration order |
| `ExternalPriceAccountCodec.ByteSizeIs42` | token-vault/js/src/generated/accounts/ExternalPriceAccount.ts:113-118 | the size is 1 + 8 + 32 + 1 = 42 |
| `ExternalPriceAccountCodec.FromArgs` | token-vault/js/src/generated/accounts/ExternalPriceAccount.ts:30-37 | fromArgs keeps all four fields unchanged |
| `ExternalPriceAccountCodec.Serialize` | token-vault/js/src/generated/accounts/ExternalPriceAccount.ts:62-64 | serialize returns a buffer of byteSize bytes and byteSize as the written length |
| `ExternalPriceAccountCodec.Deserialize` | token-vault/js/src/generated/accounts/ExternalPriceAccount.ts:54-56 | deserialize(buf, offset) succeeds exactly when byteSize bytes remain from offset, and then returns offset + byteSize as the end. Each field comes from its own slice: key at offset, price from the next 8 bytes, mint from the next 32, flag from the last byte |
| `ExternalPriceAccountCodec.SerializeLayout` | token-vault/js/src/generated/accounts/ExternalPriceAccount.ts:113-118 | fields lie in the order key, pricePerShare, priceMint, allowedToCombine: key at byte 0, the price as little-endian u64 in bytes 1..8 (byte 1+i is base-256 digit i), the mint in bytes 9..40, the flag as 0/1 in byte 41 |
| `ExternalPriceAccountCodec.DeserializeSerialize` | token-vault/js/src/generated/accounts/ExternalPriceAccount.ts:54-64 | a record with price below 2^64, serialized at any offset of any buffer, deserializes from that offset to the same record, with the end offset just past it |
| `ExternalPriceAccountCodec.DeserializeSerializeExact` | token-vault/js/src/generated/accounts/ExternalPriceAccount.ts:54-64 | deserialize(serialize(r), 0) gives back r and the end offset 42 |
| `ExternalPriceAccountCodec.SerializeDeserialize` | token-vault/js/src/generated/accounts/ExternalPriceAccount.ts:109-121 | when 42 bytes remain and the flag byte is 0 or 1, serializing the deserialized record reproduces those 42 bytes |
| `ExternalPriceAccountCodec.HasCorrectByteSize` | token-vault/js/src/generated/accounts/ExternalPriceAccount.ts:91-93 | the check holds exactly when the offset lies in the buffer and the bytes from it to the end number byteSize |
| `ExternalPriceAccountCodec.HasCorrectByteSizeIffWholeRecord` | token-vault/js/src/generated/accounts/ExternalPriceAccount.ts:91-93 | hasCorrectByteSize(buf, offset) holds exactly when deserializing from offset succeeds and ends at the end of the buffer |
| `ExternalPriceAccountCodec.HasCorrectByteSizeBoundaries` | token-vault/js/src/generated/accounts/ExternalPriceAccount.ts:91-93 | from offset 0 the check holds exactly for 42-byte buffers and fails for 41 and 43 bytes |
| `VaultInstruction.Discriminator` | token-vault/js/src/generated/instructions/CombineVault.ts:37 | each kind's first payload byte is one of the six discriminator constants 0, 3, 4, 5, 7, 8 |
| `VaultInstruction.Roles` | token-vault/js/src/generated/instructions/CombineVault.ts:62-123 | the number of caller-supplied accounts per kind: 6 (InitVault), 11 (CombineVault), 7 (RedeemShares, WithdrawTokenFromSafetyDepositBox), 5 (the two treasury kinds). Their flags are the table's, which every Create contract restates as a literal key list |
| `VaultInstruction.TrailingPrograms` | token-vault/js/src/generated/instructions/AddSharesToTreasury.ts:81-85 | the token program always comes first after the accounts; the rent sysvar follows it exactly for the kinds other than CombineVault and AddSharesToTreasury |
| `VaultInstruction.EncodeArgs` | token-vault/js/src/generated/instructions/WithdrawSharesFromTreasury.ts:9-19 | an argument struct takes no bytes (no arguments), 1 byte (InitVaultArgs) or 8 bytes (a u64 bundle) |
| `VaultInstruction.RoleMetas` | token-vault/js/src/generated/instructions/CombineVault.ts:62-123 | the supplied account for role i stands at position i with role i's flags |
| `VaultInstruction.TrailingMetas` | token-vault/js/src/generated/instructions/RedeemShares.ts:86-95 | each trailing program id is neither writable nor a signer |
| `VaultInstruction.Build` | token-vault/js/src/generated/instructions/CombineVault.ts:44-131 | the instruction goes to the vault program. Its keys are the supplied accounts in role order with the role flags, then the trailing program ids, neither writable nor signer. Its payload is the kind's discriminator followed by the encoded argument bundle |
| `VaultInstruction.DiscriminatorInjective` | token-vault/js/src/generated/instructions/CombineVault.ts:37 | no two kinds share a discriminator (0, 3, 4, 5, 7, 8) |
| `VaultInstruction.RolesNeverWritableSigner` | token-vault/js/src/generated/instructions/CombineVault.ts:62-123 | no role of any kind is both writable and a signer |
| `VaultInstruction.BuildNeverWritableSigner` | token-vault/js/src/generated/instructions/CombineVault.ts:62-123 | for every kind, accounts and arguments, no key of the built instruction is both writable and a signer |
| `VaultInstruction.BuildAccountsInjective` | token-vault/js/src/generated/instructions/CombineVault.ts:45-57 | different account lists never yield the same key list, so no supplied account is dropped or substituted |
| `VaultInstruction.BuildPayloadSize` | token-vault/js/src/generated/instructions/WithdrawTokenFromSafetyDepositBox.ts:63-66 | the payload is 1 byte (CombineVault, RedeemShares), 2 bytes (InitVault) or 9 bytes (the three u64 kinds) |
| `CombineVaultInstruction.CreateCombineVaultInstruction` | token-vault/js/src/generated/instructions/CombineVault.ts:44-131 | the payload is exactly [3] and the program is the vault program. There are exactly 12 keys: the 11 accounts in declaration order, then the token program. vault … redeemTreasury are writable, vaultAuthority and transferAuthority are signers, and every other key is neither. |
| `CombineVaultInstruction.CombineVaultAccess` | token-vault/js/src/generated/instructions/CombineVault.ts:62-123 | exactly positions 0-5 are writable and exactly positions 7 and 8 sign, so no key is both writable and a signer |
| `InitVaultInstruction.CreateInitVaultInstruction` | token-vault/js/src/generated/instructions/InitVault.ts:47-113 | the payload is [0, allowFurtherShareCreation as 0/1] and the program is the vault program. There are 8 keys: the 6 accounts in declaration order, then the token program and the rent sysvar. fractionMint, redeemTreasury, fractionTreasury and vault are writable; nothing else is writable and nothing signs |
| `InitVaultInstruction.InitVaultAccess` | token-vault/js/src/generated/instructions/InitVault.ts:64-105 | exactly positions 0-3 are writable and no key signs, the authority included, so no key is both writable and a signer |
| `RedeemSharesInstruction.CreateRedeemSharesInstruction` | token-vault/js/src/generated/instructions/RedeemShares.ts:36-104 | the payload is exactly [4] and the program is the vault program. There are 9 keys: the 7 accounts in declaration order, then the token program and the rent sysvar. outstandingShares, destination, fractionMint and redeemTreasury are writable, burnAuthority alone signs, and the rest are neither. |
| `RedeemSharesInstruction.RedeemSharesAccess` | token-vault/js/src/generated/instructions/RedeemShares.ts:50-96 | exactly positions 0-3 are writable and exactly position 5 (burnAuthority) signs, so no key is both writable and a signer |
| `WithdrawTokenFromSafetyDepositBoxInstruction.CreateWithdrawTokenFromSafetyDepositBoxInstruction` | token-vault/js/src/generated/instructions/WithdrawTokenFromSafetyDepositBox.ts:49-121 | the 9-byte payload is 5 followed by the amount as little-endian u64, and the program is the vault program. There are 9 keys: the 7 accounts in declaration order, then the token program and the rent sysvar. destination, safetyDeposit, store and vault are writable, vaultAuthority alone signs, and the rest are neither. |
| `WithdrawTokenFromSafetyDepositBoxInstruction.WithdrawTokenFromSafetyDepositBoxAccess` | token-vault/js/src/generated/instructions/WithdrawTokenFromSafetyDepositBox.ts:67-113 | exactly positions 0-3 are writable and exactly position 5 (vaultAuthority) signs, so no key is both writable and a signer |
| `WithdrawTokenFromSafetyDepositBoxInstruction.WithdrawTokenAmountBytes` | token-vault/js/src/generated/instructions/WithdrawTokenFromSafetyDepositBox.ts:63-66 | payload byte 1+i is base-256 digit i of the amount |
| `WithdrawTokenFromSafetyDepositBoxInstruction.WithdrawTokenAmount1000` | token-vault/js/src/generated/instructions/WithdrawTokenFromSafetyDepositBox.ts:63-66 | amount 1000 gives the payload 05 E8 03 00 00 00 00 00 00 |
| `WithdrawSharesFromTreasuryInstruction.CreateWithdrawSharesFromTreasuryInstruction` | token-vault/js/src/generated/instructions/WithdrawSharesFromTreasury.ts:45-99 | the 9-byte payload is 7 followed by the share count as little-endian u64, and the program is the vault program. There are 7 keys: destination, fractionTreasury, vault, transferAuthority and vaultAuthority, then the token program and the rent sysvar. Only destination and fractionTreasury are writable; only vaultAuthority signs, and transferAuthority does not. |
| `WithdrawSharesFromTreasuryInstruction.WithdrawSharesFromTreasuryAccess` | token-vault/js/src/generated/instructions/WithdrawSharesFromTreasury.ts:55-91 | exactly positions 0 and 1 are writable and exactly position 4 (vaultAuthority) signs, so no key is both writable and a signer |
| `AddSharesToTreasuryInstruction.CreateAddSharesToTreasuryInstruction` | token-vault/js/src/generated/instructions/AddSharesToTreasury.ts:45-94 | the 9-byte payload is 8 followed by the share count as little-endian u64, and the program is the vault program. There are exactly 6 keys: source, fractionTreasury, vault, transferAuthority and vaultAuthority, then the token program, with no rent sysvar. Only source and fractionTreasury are writable; transferAuthority and vaultAuthority both sign. |
| `AddSharesToTreasuryInstruction.AddSharesToTreasuryAccess` | token-vault/js/src/generated/instructions/AddSharesToTreasury.ts:55-86 | exactly positions 0 and 1 are writable and exactly positions 3 and 4 sign, so no key is both writable and a signer |

## Left out

- `token-vault/js/src/common/helpers.ts`: key-pair generation, account creation and token-program calls into libraries, plus pushes onto caller-owned arrays; none of it is codec logic.
- `ExternalPriceAccount.getMinimumBalanceForRentExemption` (lines 80-85) is an asynchronous network query and is not modelled.
- `ExternalPriceAccount.pretty` (lines 99-106) is base58 text formatting for display and is not modelled.
- `ExternalPriceAccount.fromAccountInfo` (lines 43-48) only passes the account's data bytes to `deserialize`. The account-info record is not modelled, so `Deserialize` stands for both.
- The base58 text of the vault program address, and the values of `TOKEN_PROGRAM_ID` and `SYSVAR_RENT_PUBKEY`, are not modelled. They come as the `ProgramAddresses` parameter, so no contract depends on their bytes (for example, on their being distinct).
- The set of variants of the account-kind `Key` enum lives in a types module that is not part of this model. The key byte is carried unchanged, and rejecting an unknown tag is not modelled.
- The source's default `offset = 0` arguments (ExternalPriceAccount.ts lines 45, 54 and 91) are not modelled as defaults: `Deserialize` and `HasCorrectByteSize` always take the offset, and a call without one is the call with offset 0.
- Writing a share count, amount or price of 2^64 or more is excluded by preconditions, not modelled as a failure.
- The remaining instruction kinds of the vault program are not part of this model, since their builder files are not either.
- The internals of the serialization and web3 libraries (buffer allocation, the BN big-number type, the `TransactionInstruction` class) are not modelled. Each field codec is written from the declared field layout.

# Starcoin block-sync processor and mock key-pair wallet, in Dafny

This project models two sequential pieces of a Starcoin node and proves
properties about them.

**Block-sync request processing** (`sync_messages.dfy`, `sync_process.dfy`).
A peer asks for block data. The request is either a list of block numbers or a
list of block hashes with a data type. The processor answers by point queries
against the chain:

- numbers become `(number, hash)` pairs;
- hashes become headers, or headers plus bodies.

When a new peer connects, the node sends it the head block as a `LatestStateMsg`.

- The chain actor is the immutable value `ChainReader`: a head block and three
  maps (number→block, hash→header, hash→block).
- The crypto hash of a block and the request id (`get_id`) of an RPC request are
  uninterpreted function parameters.
- Network sends are returned as values: `Outbound` for `response_for` and
  `PeerSend` for `send_peer_message`.
- In the source, a missing block or header makes `unwrap` panic inside the
  spawned task. The peer then gets no response. The model makes this an
  explicit `None`.
- Each batch has two forms. One is a recursive specification function with a
  position-by-position contract (`HashesByNumber`, `HeadersByHash`,
  `BodiesByHash`). The other is the loop that builds the batch with `push`, as a
  method proved against that function.
- The RPC routing is a function, `HandleRpcRequest`. The method
  `DispatchRpcRequest` calls the loop methods and is proved equal to it.

**Mock key-pair wallet** (`mock_wallet.dfy`). This is an account registry in a
shared store. `WalletStore` is a class with two maps. The first maps an address
to its `WalletAccount` (the address and the default flag). The second maps
(address, key name) to bytes, and the private key lives under `"private_key"`.
`KeyPairWallet` holds the store. Its methods change the store in place. They
state the whole new state and keep "exactly one default account" when it held
before.

- Key generation is a parameter: `CreateAccount` receives the new key bytes and
  the address derived from them (`derive(privateKey) == Some(address)`), so a
  created account's stored key always parses back to its address.
- Parsing a private key and deriving its address is an uninterpreted function
  parameter, `derive`.
- A signature is abstracted as the raw transaction paired with the key pair that
  signs it.
- `WalletScenario` replays the source's unit test: a new wallet has a default
  account, and that account can sign.

Notes on behaviour:

- `import_account` overwrites an existing record under the same address with
  `is_default = false`. Re-importing the default account's key therefore leaves
  no default account, and then `default_account` fails.
  `ReimportingDefaultClearsDefault` states this.
- The invariant-preservation clauses of `CreateAccount` and `ImportAccount`
  assume the address is new.
- On a standalone body request (`DataType::BODY`), the handler's `_ => {}` arm
  (sync/src/process.rs:156) sends nothing. `BodyOnlyRequestIgnored` states this.
- A missing block or header makes `unwrap` panic inside the spawned task, so no
  failure response is sent. The model returns `None`.

## Model

| member | source | states |
|---|---|---|
| `SyncProcess.HashesByNumber` | sync/src/process.rs:197-216 | succeeds iff every requested number has a block; then it has one entry per number, in input order, and entry i is the (header number, header id) of the block at `numbers[i]` |
| `SyncProcess.HandleGetHashByNumberMsg` | sync/src/process.rs:192-219 | the `for`/`push` loop: fails iff some number is unknown (no partial batch); on success the batch carries exactly the given `req_id` and the entries of `HashesByNumber` |
| `SyncProcess.HeadersByHash` | sync/src/process.rs:225-237 | succeeds iff every hash has a header; then it has one entry per hash and entry i is (`hashs[i]`, header of `hashs[i]`) |
| `SyncProcess.HandleGetHeaderByHashMsg` | sync/src/process.rs:221-238 | the loop: fails iff some hash is unknown; on success its headers are those of `HeadersByHash` |
| `SyncProcess.BodiesByHash` | sync/src/process.rs:244-260 | never fails; one entry per hash in order; entry i has hash `hashs[i]`, and the block's transactions if it is known, else none |
| `SyncProcess.HandleGetBodyByHashMsg` | sync/src/process.rs:240-261 | the loop builds exactly `BodiesByHash` |
| `SyncProcess.LatestState` | sync/src/process.rs:182-190 | the announcement's hash is the crypto hash of the head block and its header is the head block's header |
| `SyncProcess.AnswerProcessMessage` | sync/src/process.rs:113-161 | any response it gives is addressed to the requesting peer under the request id, and the payload carries that same id |
| `SyncProcess.HandleRpcRequest` | sync/src/process.rs:106-165 | a `TestRequest` gets no response; every response goes to the sender's `peer_id` under `get_id()` of the request, with the same id inside the payload; a `NewPeerMsg` inside an RPC is excluded by the precondition (`unreachable!`) |
| `SyncProcess.DispatchRpcRequest` | sync/src/process.rs:106-165 | the handler that runs the batch loops yields exactly the response `HandleRpcRequest` describes |
| `SyncProcess.HandleProcessMessage` | sync/src/process.rs:70-100 | `NewPeerMsg(p)` yields exactly one send, to `p.id`, of the head announcement; every other variant sends nothing |
| `SyncProcess.HashByNumberRouting` | sync/src/process.rs:115-127 | a hash-by-number request is answered iff every number is known, with one `BatchHashByNumberMsg` whose id is the request id and whose entries follow the numbers one for one |
| `SyncProcess.HeaderAndBodyRouting` | sync/src/process.rs:129-155 | a `HEADER` request is answered iff every hash has a header, with one combined response under the request id whose header and body batches both have one entry per hash, aligned with the hash list |
| `SyncProcess.BodyOnlyRequestIgnored` | sync/src/process.rs:131-157 | a data request of any other type gets no response |
| `SyncProcess.HashByNumberEchoesNumbers` | sync/src/process.rs:210-213 | on a chain whose blocks sit under their own numbers, entry i reports `numbers[i]` |
| `SyncProcess.EntriesMatchTheirHeaders` | sync/src/process.rs:233-256 | on a consistently indexed chain, each header entry's hash is its header's id, and each known body's hash is the id of the block its transactions come from |
| `SyncProcess.HashByNumberScenario` | sync/src/process.rs:198-216 | with blocks 1..5 on a consistently indexed chain, the numbers [2, 4, 1] give the pairs of blocks 2, 4, 1 in that order, reporting the numbers 2, 4, 1 |
| `SyncProcess.UnknownHeaderScenario` | sync/src/process.rs:226-232 | a header request for an unknown hash produces no response at all |
| `SyncProcess.BodiesScenario` | sync/src/process.rs:245-258 | bodies for [known, unknown] are the known block's transactions followed by an empty list |
| `MockWallet.FirstAccountIsSoleDefault` | wallet/api/src/mock/keypair_wallet.rs:73-75 | the first account put in an empty store is the one and only default |
| `MockWallet.AddingNonDefaultKeepsDefault` | wallet/api/src/mock/keypair_wallet.rs:88-89 | adding a new non-default account keeps the sole default |
| `MockWallet.SwapMovesDefault` | wallet/api/src/mock/keypair_wallet.rs:145-148 | rewriting the target as default and the old default as non-default makes the target the sole default |
| `MockWallet.RemovingOtherKeepsDefault` | wallet/api/src/mock/keypair_wallet.rs:156-157 | removing an account other than the default keeps the sole default |
| `MockWallet.ReimportingDefaultClearsDefault` | wallet/api/src/mock/keypair_wallet.rs:84-91 | importing the default account's own key leaves no account flagged default |
| `MockWallet.KeyPairWallet.New` | wallet/api/src/mock/keypair_wallet.rs:27-29 | over a fresh store, the wallet holds exactly one account, and it is the default with its key stored |
| `MockWallet.KeyPairWallet.NewWithStore` | wallet/api/src/mock/keypair_wallet.rs:31-37 | an empty store ends with exactly one account, the sole default; a non-empty store is left unchanged |
| `MockWallet.KeyPairWallet.SaveAccount` | wallet/api/src/mock/keypair_wallet.rs:39-48 | stores the record under its address and the private key under (address, "private_key"); nothing else changes |
| `MockWallet.KeyPairWallet.GetKeyPair` | wallet/api/src/mock/keypair_wallet.rs:50-61 | fails with "not found" when no private key is stored, and with "invalid" when the stored bytes do not parse; otherwise returns the stored key |
| `MockWallet.KeyPairWallet.CreateAccount` | wallet/api/src/mock/keypair_wallet.rs:67-78 | the new account is default iff the store had no account before; the record and its private key are stored and nothing else changes; the stored key derives the account's address; exactly-one-default is kept for a new address |
| `MockWallet.KeyPairWallet.ImportAccount` | wallet/api/src/mock/keypair_wallet.rs:84-91 | an unparsable key fails with nothing changed; otherwise the account is saved with `is_default = false` along with its key; exactly-one-default is kept for a new address |
| `MockWallet.KeyPairWallet.GetAccount` | wallet/api/src/mock/keypair_wallet.rs:80-82 | the stored record at the address, or none |
| `MockWallet.KeyPairWallet.Contains` | wallet/api/src/mock/keypair_wallet.rs:93-95 | true iff the store has an account at the address |
| `MockWallet.KeyPairWallet.SignTxn` | wallet/api/src/mock/keypair_wallet.rs:112-121 | fails when the sender is not contained, then when it has no stored key or the key does not parse; otherwise signs with the sender's stored key |
| `MockWallet.KeyPairWallet.DefaultAccount` | wallet/api/src/mock/keypair_wallet.rs:123-130 | fails iff no account is flagged default; otherwise returns a stored account flagged default, the sole one when there is exactly one |
| `MockWallet.KeyPairWallet.SetDefault` | wallet/api/src/mock/keypair_wallet.rs:136-150 | no default: error, no change; unknown address: error, no change; already default: no change; otherwise only the target (now default) and the old default (now not) are rewritten, and the target is the sole default |
| `MockWallet.KeyPairWallet.RemoveAccount` | wallet/api/src/mock/keypair_wallet.rs:152-162 | unknown address: Ok with no change; the default: error with no change; otherwise exactly that account is removed; a sole default stays the sole default |
| `MockWallet.WalletScenario` | wallet/api/src/mock/keypair_wallet.rs:169-176 | a fresh wallet's default account is the created one, and signing a transaction from it succeeds with the stored key |

## Left out

- Actor machinery is not modelled: the bus subscription in `started`, `Arbiter::spawn`, futures and `wrap_future`. Each handler is one sequential function, so concurrent interleaving of responses is not captured.
- The one-second `Delay` before the new-peer announcement is not modelled; it is only timing.
- Network sends (`send_peer_message`, `response_for`) are returned as values instead of being performed. Transport failures are not modelled.
- `Processor::head_block` unwraps a mailbox result from the chain actor. The model's chain always has a head, so that failure is not modelled.
- `crypto_hash`, `HashValue` internals, Ed25519 key parsing, `OsRng`/`StdRng` key generation and `KeyPair::sign_txn` are opaque. They appear only as function parameters or caller-supplied values.
- The unused `msg.crypto_hash()` at the top of the ProcessMessage handler is omitted.
- The `MemWalletStore` type and the `WalletStore` trait implementation are not part of this model. The store is two maps, and its operations always succeed. So the `?` error paths of store calls, and the `Result` around `create_account` and `new_with_store`, are not modelled.
- When an account is removed, the model leaves its key data in the store. The store's own removal behaviour is not part of this model.
- MockWallet.KeyPairWallet.DefaultAccount: when several accounts are flagged default, which one is returned depends on the store's listing order. The model leaves that choice open.
- MockWallet.KeyPairWallet.SetDefault: with several flagged accounts, the new state is given only in general terms (same addresses, target flagged). The exact new map is stated only when there is one default.
- MockWallet.KeyPairWallet.SignTxn: the `Result` of the foreign `KeyPair::sign_txn` call is taken to be Ok, so a signing failure inside the crypto library is not modelled.
- `unlock_account` and `lock_account` are not modelled; they do nothing.
- `accounts()` is not a separate member; it is the store's account map, read directly.
- The account CLI commands (`transfer_cmd.rs`, `show_cmd.rs`) are not modelled. They are option parsing and RPC client calls.

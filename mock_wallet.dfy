/**
 * The mock key-pair wallet: an account registry kept in a shared store.
 *
 * The store holds one record per address (its account and whether it is the
 * default) and a byte map keyed by (address, key name), where the private key
 * lives under "private_key". Key generation is a parameter (the caller
 * supplies the new address and key bytes); parsing a private key and deriving
 * its address is the uninterpreted function `derive`; a signature is
 * abstracted as the raw transaction together with the key pair that signs it.
 */
module MockWallet {
  import opened Wrappers

  datatype AccountAddress = AccountAddress(bytes: seq<bv8>)

  datatype WalletAccount = WalletAccount(address: AccountAddress, isDefault: bool)

  datatype KeyPair = KeyPair(privateKey: seq<bv8>)

  datatype RawUserTransaction = RawUserTransaction(sender: AccountAddress, payload: seq<bv8>)

  datatype SignedUserTransaction = SignedUserTransaction(raw: RawUserTransaction, signer: KeyPair)

  datatype WalletError =
    | AccountNotFound(address: AccountAddress)
    | NoDefaultAccount
    | CannotRemoveDefault
    | PrivateKeyNotFound(address: AccountAddress)
    | InvalidPrivateKey

  const PrivateKeyName: string := "private_key"

  type Accounts = map<AccountAddress, WalletAccount>

  /** Each record is stored under its own address. */
  ghost predicate IsKeyed(accounts: Accounts)
  {
    forall a :: a in accounts ==> accounts[a].address == a
  }

  predicate HasDefault(accounts: Accounts)
  {
    exists a :: a in accounts && accounts[a].isDefault
  }

  /** `d` is flagged default and no other account is. */
  ghost predicate IsSoleDefault(accounts: Accounts, d: AccountAddress)
  {
    && d in accounts
    && accounts[d].isDefault
    && forall e :: e in accounts && accounts[e].isDefault ==> e == d
  }

  ghost predicate ExactlyOneDefault(accounts: Accounts)
  {
    exists d :: IsSoleDefault(accounts, d)
  }

  // ---------------------------------------------------------------------------
  // The registry invariant under each update the wallet makes

  /** The first account created in an empty store is the only default. */
  lemma FirstAccountIsSoleDefault(accounts: Accounts, address: AccountAddress)
    requires |accounts| == 0
    ensures IsSoleDefault(accounts[address := WalletAccount(address, true)], address)
  {
  }

  /** Adding a fresh non-default account keeps the default. */
  lemma AddingNonDefaultKeepsDefault(accounts: Accounts, d: AccountAddress, address: AccountAddress)
    requires IsSoleDefault(accounts, d) && address !in accounts
    ensures IsSoleDefault(accounts[address := WalletAccount(address, false)], d)
  {
  }

  /** Swapping the flag from `d` to `address` makes `address` the only default. */
  lemma SwapMovesDefault(accounts: Accounts, d: AccountAddress, address: AccountAddress)
    requires IsSoleDefault(accounts, d) && address in accounts && address != d
    ensures IsSoleDefault(accounts[address := WalletAccount(address, true)][d := WalletAccount(d, false)], address)
  {
  }

  /** Removing an account other than the default keeps the default. */
  lemma RemovingOtherKeepsDefault(accounts: Accounts, d: AccountAddress, address: AccountAddress)
    requires IsSoleDefault(accounts, d) && address != d
    ensures IsSoleDefault(accounts - {address}, d)
  {
  }

  /**
   * Re-importing the key of the default account overwrites its record with a
   * non-default one, and the registry is left with no default at all.
   */
  lemma ReimportingDefaultClearsDefault(accounts: Accounts, address: AccountAddress)
    requires IsSoleDefault(accounts, address)
    ensures !HasDefault(accounts[address := WalletAccount(address, false)])
  {
  }

  // ---------------------------------------------------------------------------
  // The store

  /** The wallet store, shared by reference: accounts by address and key material by (address, key name). */
  class WalletStore {
    var accounts: Accounts
    var data: map<(AccountAddress, string), seq<bv8>>

    ghost predicate Valid()
      reads this
    {
      IsKeyed(accounts)
    }

    constructor ()
      ensures Valid() && accounts == map[] && data == map[]
    {
      accounts := map[];
      data := map[];
    }

    method SaveAccount(account: WalletAccount)
      requires Valid()
      modifies this
      ensures Valid()
      ensures accounts == old(accounts)[account.address := account] && data == old(data)
    {
      accounts := accounts[account.address := account];
    }

    method SaveToAccount(address: AccountAddress, key: string, value: seq<bv8>)
      requires Valid()
      modifies this
      ensures Valid()
      ensures data == old(data)[(address, key) := value] && accounts == old(accounts)
    {
      data := data[(address, key) := value];
    }

    method RemoveAccount(address: AccountAddress)
      requires Valid()
      modifies this
      ensures Valid()
      ensures accounts == old(accounts) - {address} && data == old(data)
    {
      accounts := accounts - {address};
    }
  }

  // ---------------------------------------------------------------------------
  // The wallet

  class KeyPairWallet {
    const store: WalletStore

    /** A wallet over a fresh, empty store: its one account is the default. */
    constructor New(address: AccountAddress, privateKey: seq<bv8>, derive: seq<bv8> -> Option<AccountAddress>)
      requires derive(privateKey) == Some(address)
      ensures fresh(store) && store.Valid()
      ensures store.accounts == map[address := WalletAccount(address, true)]
      ensures store.data == map[(address, PrivateKeyName) := privateKey]
      ensures IsSoleDefault(store.accounts, address)
    {
      store := new WalletStore();
      new;
      var account := CreateAccount(address, privateKey, derive);
    }

    /** A wallet over an existing store; an empty store gets a first, default account. */
    constructor NewWithStore(store: WalletStore, address: AccountAddress, privateKey: seq<bv8>,
                             derive: seq<bv8> -> Option<AccountAddress>)
      requires store.Valid() && derive(privateKey) == Some(address)
      modifies store
      ensures this.store == store && store.Valid()
      ensures |old(store.accounts)| == 0 ==>
                && store.accounts == map[address := WalletAccount(address, true)]
                && store.data == old(store.data)[(address, PrivateKeyName) := privateKey]
                && IsSoleDefault(store.accounts, address)
      ensures |old(store.accounts)| != 0 ==>
                store.accounts == old(store.accounts) && store.data == old(store.data)
    {
      this.store := store;
      new;
      if |store.accounts| == 0 {
        var account := CreateAccount(address, privateKey, derive);
        assert old(store.accounts) == map[];
      }
    }

    /** Stores the account record and its private key. */
    method SaveAccount(account: WalletAccount, keyPair: KeyPair)
      requires store.Valid()
      modifies store
      ensures store.Valid()
      ensures store.accounts == old(store.accounts)[account.address := account]
      ensures store.data == old(store.data)[(account.address, PrivateKeyName) := keyPair.privateKey]
    {
      store.SaveAccount(account);
      store.SaveToAccount(account.address, PrivateKeyName, keyPair.privateKey);
    }

    /** The private key stored for `address`, parsed. */
    method GetKeyPair(address: AccountAddress, derive: seq<bv8> -> Option<AccountAddress>)
      returns (r: Result<KeyPair, WalletError>)
      ensures (address, PrivateKeyName) !in store.data ==> r == Err(PrivateKeyNotFound(address))
      ensures (address, PrivateKeyName) in store.data ==>
                r == if derive(store.data[(address, PrivateKeyName)]).Some?
                     then Ok(KeyPair(store.data[(address, PrivateKeyName)]))
                     else Err(InvalidPrivateKey)
    {
      if (address, PrivateKeyName) !in store.data {
        return Err(PrivateKeyNotFound(address));
      }
      var bytes := store.data[(address, PrivateKeyName)];
      if derive(bytes).None? {
        return Err(InvalidPrivateKey);
      }
      r := Ok(KeyPair(bytes));
    }

    /**
     * Creates the account of a freshly generated key pair, whose address is
     * derived from its key. It is the default exactly when the store had no
     * account before.
     */
    method CreateAccount(address: AccountAddress, privateKey: seq<bv8>, derive: seq<bv8> -> Option<AccountAddress>)
      returns (account: WalletAccount)
      requires store.Valid() && derive(privateKey) == Some(address)
      modifies store
      ensures store.Valid()
      ensures account == WalletAccount(address, |old(store.accounts)| == 0)
      ensures store.accounts == old(store.accounts)[address := account]
      ensures store.data == old(store.data)[(address, PrivateKeyName) := privateKey]
      ensures derive(store.data[(address, PrivateKeyName)]) == Some(address)
      ensures |old(store.accounts)| == 0 ==> IsSoleDefault(store.accounts, address)
      ensures address !in old(store.accounts) && ExactlyOneDefault(old(store.accounts)) ==>
                ExactlyOneDefault(store.accounts)
    {
      var isDefault := |store.accounts| == 0;
      account := WalletAccount(address, isDefault);
      ghost var before := store.accounts;
      SaveAccount(account, KeyPair(privateKey));
      if isDefault {
        FirstAccountIsSoleDefault(before, address);
      } else if address !in before && ExactlyOneDefault(before) {
        var d :| IsSoleDefault(before, d);
        AddingNonDefaultKeepsDefault(before, d, address);
      }
    }

    /** Imports an account from its private key; an imported account is never the default. */
    method ImportAccount(privateKey: seq<bv8>, derive: seq<bv8> -> Option<AccountAddress>)
      returns (r: Result<WalletAccount, WalletError>)
      requires store.Valid()
      modifies store
      ensures store.Valid()
      ensures derive(privateKey).None? ==>
                r == Err(InvalidPrivateKey) && store.accounts == old(store.accounts) && store.data == old(store.data)
      ensures derive(privateKey).Some? ==>
                var address := derive(privateKey).value;
                && r == Ok(WalletAccount(address, false))
                && store.accounts == old(store.accounts)[address := WalletAccount(address, false)]
                && store.data == old(store.data)[(address, PrivateKeyName) := privateKey]
      ensures (derive(privateKey).Some? && derive(privateKey).value !in old(store.accounts)
               && ExactlyOneDefault(old(store.accounts))) ==> ExactlyOneDefault(store.accounts)
    {
      var parsed := derive(privateKey);
      if parsed.None? {
        return Err(InvalidPrivateKey);
      }
      var address := parsed.value;
      var account := WalletAccount(address, false);
      ghost var before := store.accounts;
      SaveAccount(account, KeyPair(privateKey));
      if address !in before && ExactlyOneDefault(before) {
        var d :| IsSoleDefault(before, d);
        AddingNonDefaultKeepsDefault(before, d, address);
      }
      r := Ok(account);
    }

    method GetAccount(address: AccountAddress) returns (r: Option<WalletAccount>)
      ensures address in store.accounts ==> r == Some(store.accounts[address])
      ensures address !in store.accounts ==> r == None
    {
      r := if address in store.accounts then Some(store.accounts[address]) else None;
    }

    method Contains(address: AccountAddress) returns (b: bool)
      ensures b <==> address in store.accounts
    {
      var account := GetAccount(address);
      b := account.Some?;
    }

    /** Signs with the sender's stored key; fails when the sender is unknown or has no key. */
    method SignTxn(raw: RawUserTransaction, derive: seq<bv8> -> Option<AccountAddress>)
      returns (r: Result<SignedUserTransaction, WalletError>)
      ensures raw.sender !in store.accounts ==> r == Err(AccountNotFound(raw.sender))
      ensures raw.sender in store.accounts && (raw.sender, PrivateKeyName) !in store.data ==>
                r == Err(PrivateKeyNotFound(raw.sender))
      ensures raw.sender in store.accounts && (raw.sender, PrivateKeyName) in store.data ==>
                var key := store.data[(raw.sender, PrivateKeyName)];
                r == if derive(key).Some? then Ok(SignedUserTransaction(raw, KeyPair(key))) else Err(InvalidPrivateKey)
    {
      var known := Contains(raw.sender);
      if !known {
        return Err(AccountNotFound(raw.sender));
      }
      var keyPair := GetKeyPair(raw.sender, derive);
      if keyPair.Err? {
        return Err(keyPair.error);
      }
      r := Ok(SignedUserTransaction(raw, keyPair.value));
    }

    /**
     * An account flagged default; an error iff there is none. When several are
     * flagged the store's listing order decides, which is not modelled.
     */
    method DefaultAccount() returns (r: Result<WalletAccount, WalletError>)
      requires store.Valid()
      ensures r.Ok? <==> HasDefault(store.accounts)
      ensures r.Err? ==> r.error == NoDefaultAccount
      ensures r.Ok? ==> r.value.address in store.accounts && store.accounts[r.value.address] == r.value
      ensures r.Ok? ==> r.value.isDefault
      ensures forall d :: IsSoleDefault(store.accounts, d) ==> r == Ok(store.accounts[d])
    {
      if a :| a in store.accounts && store.accounts[a].isDefault {
        r := Ok(store.accounts[a]);
      } else {
        r := Err(NoDefaultAccount);
      }
    }

    /**
     * Makes `address` the default: a no-op when it already is, an error with
     * nothing changed when there is no default or the address is unknown;
     * otherwise exactly the old default and the target are rewritten.
     */
    method SetDefault(address: AccountAddress) returns (r: Result<(), WalletError>)
      requires store.Valid()
      modifies store
      ensures store.Valid() && store.data == old(store.data)
      ensures !HasDefault(old(store.accounts)) ==>
                r == Err(NoDefaultAccount) && store.accounts == old(store.accounts)
      ensures HasDefault(old(store.accounts)) && address !in old(store.accounts) ==>
                r == Err(AccountNotFound(address)) && store.accounts == old(store.accounts)
      ensures HasDefault(old(store.accounts)) && address in old(store.accounts) ==>
                r == Ok(()) && store.accounts.Keys == old(store.accounts).Keys && store.accounts[address].isDefault
      ensures forall d :: IsSoleDefault(old(store.accounts), d) && address in old(store.accounts) ==>
                && store.accounts == (if d == address then old(store.accounts)
                                      else old(store.accounts)[address := WalletAccount(address, true)]
                                                              [d := WalletAccount(d, false)])
                && IsSoleDefault(store.accounts, address)
    {
      var current := DefaultAccount();
      if current.Err? {
        return Err(current.error);
      }
      var previous := current.value;
      if previous.address == address {
        return Ok(());
      }
      var target := GetAccount(address);
      if target.None? {
        return Err(AccountNotFound(address));
      }
      ghost var before := store.accounts;
      store.SaveAccount(target.value.(isDefault := true));
      store.SaveAccount(previous.(isDefault := false));
      forall d | IsSoleDefault(before, d)
        ensures IsSoleDefault(store.accounts, address)
      {
        SwapMovesDefault(before, d, address);
      }
      r := Ok(());
    }

    /**
     * Removes a non-default account. An unknown address is accepted with
     * nothing changed; the default account is refused.
     */
    method RemoveAccount(address: AccountAddress) returns (r: Result<(), WalletError>)
      requires store.Valid()
      modifies store
      ensures store.Valid() && store.data == old(store.data)
      ensures address !in old(store.accounts) ==> r == Ok(()) && store.accounts == old(store.accounts)
      ensures address in old(store.accounts) && old(store.accounts)[address].isDefault ==>
                r == Err(CannotRemoveDefault) && store.accounts == old(store.accounts)
      ensures address in old(store.accounts) && !old(store.accounts)[address].isDefault ==>
                r == Ok(()) && store.accounts == old(store.accounts) - {address}
      ensures forall d :: IsSoleDefault(old(store.accounts), d) ==> IsSoleDefault(store.accounts, d)
    {
      var account := GetAccount(address);
      if account.Some? {
        if account.value.isDefault {
          return Err(CannotRemoveDefault);
        }
        ghost var before := store.accounts;
        store.RemoveAccount(address);
        forall d | IsSoleDefault(before, d)
          ensures IsSoleDefault(store.accounts, d)
        {
          RemovingOtherKeepsDefault(before, d, address);
        }
      }
      r := Ok(());
    }
  }

  /**
   * The source's own test: a new wallet's default account is the created one,
   * and a transaction it sends is signed with its stored key.
   */
  method WalletScenario(address: AccountAddress, privateKey: seq<bv8>, derive: seq<bv8> -> Option<AccountAddress>,
                        payload: seq<bv8>)
    returns (account: Result<WalletAccount, WalletError>, signed: Result<SignedUserTransaction, WalletError>)
    requires derive(privateKey) == Some(address)
    ensures account == Ok(WalletAccount(address, true))
    ensures signed == Ok(SignedUserTransaction(RawUserTransaction(address, payload), KeyPair(privateKey)))
  {
    var wallet := new KeyPairWallet.New(address, privateKey, derive);
    account := wallet.DefaultAccount();
    signed := wallet.SignTxn(RawUserTransaction(account.value.address, payload), derive);
  }
}

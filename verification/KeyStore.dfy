/**
 The key store and the resolution of a key for every input. Key derivation is uninterpreted
 and may fail.
 */
module KeyStore {
  import opened Wrappers
  import opened Scripts
  import opened Fees
  import opened Transactions
  import opened Builders

  datatype PublicKeys = PublicKeys(
    walletType: string, walletAddress: string, walletPubKey: string,
    ordAddress: string, ordPubKey: string, identityAddress: string, identityPubKey: string)

  datatype WalletKeys = WalletKeys(
    walletWif: string, ordWif: string, identityWif: string, mnemonic: Option<string>, pubKeys: PublicKeys)

  // What the store holds.
  datatype Contents = Contents(
    walletWif: Option<string>, ordWif: Option<string>, identityWif: Option<string>,
    mnemonic: Option<string>, pubKeys: Option<PublicKeys>)

  const EMPTY: Contents := Contents(None, None, None, None, None)

  // Derivation of an account from a trimmed mnemonic, and the check of a stored key's format.
  datatype World = World(derive: (string, nat) -> Option<(string, string, string, PublicKeys)>, validWif: string -> bool)

  datatype Error =
    | Locked
    | NoMnemonic
    | NotDerivable
    | InvalidKey(wif: string)
    | NoKey(keyType: string)
    | InvalidKeyType(keyType: string)
    | BadWalletKey
    | MissingSender(address: string)
    | MissingInvoice(address: string)
    | ChildNotDerivable(address: string)
    | NoSigner(address: string)
    | BuildFailed(error: Transactions.Error)

  datatype Command =
    | Store(mnemonic: string, index: Option<nat>)
    | StoreDirect(keys: WalletKeys)
    | Switch(account: nat)
    | Clear

  predicate IsSpace(c: char) {
    c == ' ' || c == '\n' || c == '\r' || c == '\t'
  }

  function TrimStart(s: string): (t: string)
    ensures t == [] || !IsSpace(t[0])
    ensures s == [] || !IsSpace(s[0]) ==> t == s
  {
    if s != [] && IsSpace(s[0]) then TrimStart(s[1..]) else s
  }

  function TrimEnd(s: string): (t: string)
    ensures |t| <= |s|
    ensures t == [] || (!IsSpace(t[|t| - 1]) && t[0] == s[0])
    ensures s == [] || !IsSpace(s[|s| - 1]) ==> t == s
  {
    if s != [] && IsSpace(s[|s| - 1]) then TrimEnd(s[..|s| - 1]) else s
  }

  function Trim(s: string): (t: string)
    ensures Trims(t)
    ensures Trims(s) ==> t == s
  {
    TrimEnd(TrimStart(s))
  }

  // Nothing to trim.
  predicate Trims(s: string) {
    s == [] || (!IsSpace(s[0]) && !IsSpace(s[|s| - 1]))
  }

  // Trimming takes spaces off both ends and nothing else.
  lemma TrimTakesSpaces(s: string) returns (i: nat, j: nat)
    ensures i <= j <= |s| && Trim(s) == s[i..j]
    ensures forall k :: 0 <= k < i || j <= k < |s| ==> s[k] in {' ', '\n', '\r', '\t'}
  {
    i := TrimStartTakesSpaces(s);
    j := TrimEndTakesSpaces(s[i..]);
    assert forall k :: i + j <= k < |s| ==> s[k] == s[i..][k - i];
    j := i + j;
  }

  lemma {:induction false} TrimStartTakesSpaces(s: string) returns (i: nat)
    ensures i <= |s| && TrimStart(s) == s[i..]
    ensures forall k :: 0 <= k < i ==> s[k] in {' ', '\n', '\r', '\t'}
  {
    if s == [] || !IsSpace(s[0]) {
      i := 0;
    } else {
      i := TrimStartTakesSpaces(s[1..]);
      assert forall k :: 1 <= k < i + 1 ==> s[k] == s[1..][k - 1];
      i := i + 1;
    }
  }

  lemma {:induction false} TrimEndTakesSpaces(s: string) returns (j: nat)
    ensures j <= |s| && TrimEnd(s) == s[..j]
    ensures forall k :: j <= k < |s| ==> s[k] in {' ', '\n', '\r', '\t'}
  {
    if s == [] || !IsSpace(s[|s| - 1]) {
      j := |s|;
    } else {
      j := TrimEndTakesSpaces(s[..|s| - 1]);
    }
  }

  function Derive(w: World, mnemonic: string, index: nat): Option<WalletKeys> {
    match w.derive(Trim(mnemonic), index)
    case None => None
    case Some((wallet, ord, identity, pubKeys)) => Some(WalletKeys(wallet, ord, identity, Some(Trim(mnemonic)), pubKeys))
  }

  function Holding(k: WalletKeys): Contents {
    Contents(Some(k.walletWif), Some(k.ordWif), Some(k.identityWif), k.mnemonic, Some(k.pubKeys))
  }

  // Keys that come from outside are stored under the one wallet type there is.
  function Typed(k: WalletKeys): WalletKeys {
    k.(pubKeys := k.pubKeys.(walletType := "yours"))
  }

  predicate ValidWifs(w: World, k: WalletKeys) {
    w.validWif(k.walletWif) && w.validWif(k.ordWif) && w.validWif(k.identityWif)
  }

  function Apply(w: World, s: Contents, c: Command): Contents {
    match c
    case Clear => EMPTY
    case StoreDirect(k) => if ValidWifs(w, k) then Holding(Typed(k)) else s
    case Store(mnemonic, index) =>
      (match Derive(w, mnemonic, if index.Some? then index.value else 0)
       case Some(k) => Holding(k).(mnemonic := Some(mnemonic))
       case None => s)
    case Switch(account) =>
      if s.mnemonic.None? then s
      else match Derive(w, s.mnemonic.value, account) case Some(k) => Holding(k) case None => s
  }

  // Each key of the derivation, or of the caller, goes to its own place; the mnemonic is kept as
  // it came by a store and trimmed by a switch, and a caller's keys are of the type "yours".
  lemma KeysGoToTheirPlaces(w: World, s: Contents, mnemonic: string, index: nat, wallet: string, ord: string,
                            identity: string, pub: PublicKeys)
    requires w.derive(Trim(mnemonic), index) == Some((wallet, ord, identity, pub))
    ensures Apply(w, s, Store(mnemonic, Some(index)))
         == Contents(Some(wallet), Some(ord), Some(identity), Some(mnemonic), Some(pub))
    ensures index == 0 ==> Apply(w, s, Store(mnemonic, None)) == Apply(w, s, Store(mnemonic, Some(0)))
    ensures s.mnemonic == Some(mnemonic) ==>
              var switched := Apply(w, s, Switch(index));
              switched == Contents(Some(wallet), Some(ord), Some(identity), Some(Trim(mnemonic)), Some(pub))
    ensures w.validWif(wallet) && w.validWif(ord) && w.validWif(identity) ==>
              var direct := Apply(w, s, StoreDirect(WalletKeys(wallet, ord, identity, Some(mnemonic), pub)));
              direct == Contents(Some(wallet), Some(ord), Some(identity), Some(mnemonic), Some(pub.(walletType := "yours")))
    ensures Apply(w, s, Clear) == Contents(None, None, None, None, None)
  {
  }

  function Run(w: World, s: Contents, commands: seq<Command>): Contents
    decreases commands
  {
    if commands == [] then s else Run(w, Apply(w, s, commands[0]), commands[1..])
  }

  // ---------- What every run keeps ----------

  // The keys are all there or all gone, and a seed is only kept together with keys.
  predicate Whole(s: Contents) {
    && s.walletWif.Some? == s.ordWif.Some? == s.identityWif.Some? == s.pubKeys.Some?
    && (s.mnemonic.Some? ==> s.walletWif.Some?)
  }

  lemma {:induction false} EveryRunKeepsWhole(w: World, s: Contents, commands: seq<Command>)
    requires Whole(s)
    ensures Whole(Run(w, s, commands))
    decreases commands
  {
    if commands == [] {
    } else {
      EveryRunKeepsWhole(w, Apply(w, s, commands[0]), commands[1..]);
    }
  }

  // The last account in the list that could be derived, or else the first one.
  function LastDerivable(w: World, mnemonic: string, first: nat, switches: seq<nat>): nat {
    if switches == [] then first
    else
      var last := switches[|switches| - 1];
      if Derive(w, mnemonic, last).Some? then last else LastDerivable(w, mnemonic, first, switches[..|switches| - 1])
  }

  function Switches(accounts: seq<nat>): (c: seq<Command>)
    ensures |c| == |accounts|
  {
    seq(|accounts|, i requires 0 <= i < |accounts| => Switch(accounts[i]))
  }

  lemma {:induction false} RunConcats(w: World, s: Contents, before: seq<Command>, after: seq<Command>)
    ensures Run(w, s, before + after) == Run(w, Run(w, s, before), after)
    decreases before
  {
    if before == [] {
      assert before + after == after;
    } else {
      assert (before + after)[1..] == before[1..] + after;
      RunConcats(w, Apply(w, s, before[0]), before[1..], after);
    }
  }

  // However often the account is switched, the keys are those of the last account that could
  // be derived from the mnemonic first stored, and the mnemonic stays, spaces around it aside.
  lemma {:induction false} SwitchesFollowTheSeed(w: World, s: Contents, mnemonic: string, first: nat, accounts: seq<nat>)
    requires Derive(w, mnemonic, first).Some?
    ensures var last := LastDerivable(w, mnemonic, first, accounts);
            var end := Run(w, Apply(w, s, Store(mnemonic, Some(first))), Switches(accounts));
            && Derive(w, mnemonic, last).Some?
            && end.(mnemonic := None) == Holding(Derive(w, mnemonic, last).value).(mnemonic := None)
            && end.mnemonic.Some? && Trim(end.mnemonic.value) == Trim(mnemonic)
            && var (wallet, ord, identity, pub) := w.derive(Trim(mnemonic), last).value;
               && end.walletWif == Some(wallet) && end.ordWif == Some(ord)
               && end.identityWif == Some(identity) && end.pubKeys == Some(pub)
    decreases |accounts|
  {
    var stored := Apply(w, s, Store(mnemonic, Some(first)));
    if accounts == [] {
    } else {
      var before := accounts[..|accounts| - 1];
      SwitchesFollowTheSeed(w, s, mnemonic, first, before);
      assert Switches(accounts) == Switches(before) + [Switch(accounts[|accounts| - 1])];
      RunConcats(w, stored, Switches(before), [Switch(accounts[|accounts| - 1])]);
    }
  }

  // ---------- Keys for inputs ----------

  datatype DerivedSigner = DerivedSigner(
    address: string, senderPubKey: Option<string>, invoiceNumber: Option<string>, legacyWif: Option<string>)

  datatype ResolvedUtxo = ResolvedUtxo(utxo: Utxo, address: string)

  // Child-key derivation from identity key, sender and invoice number.
  type ChildDerivation = (string, string, string) -> Option<string>

  function SignerKey(derive: ChildDerivation, identityWif: string, s: DerivedSigner): Result<string, Error> {
    if s.legacyWif.Some? then Ok(s.legacyWif.value)
    else if s.senderPubKey.None? then Err(MissingSender(s.address))
    else if s.invoiceNumber.None? then Err(MissingInvoice(s.address))
    else
      match derive(identityWif, s.senderPubKey.value, s.invoiceNumber.value)
      case Some(wif) => Ok(wif)
      case None => Err(ChildNotDerivable(s.address))
  }

  // A signer's key can be had: it is given, or sender and invoice number are and a key can be
  // derived from them.
  predicate Derivable(derive: ChildDerivation, identityWif: string, s: DerivedSigner) {
    || s.legacyWif.Some?
    || (s.senderPubKey.Some? && s.invoiceNumber.Some?
        && derive(identityWif, s.senderPubKey.value, s.invoiceNumber.value).Some?)
  }

  predicate AllDerivable(derive: ChildDerivation, identityWif: string, signers: seq<DerivedSigner>) {
    forall i :: 0 <= i < |signers| ==> Derivable(derive, identityWif, signers[i])
  }

  // The signers are listed under the addresses of their own keys.
  ghost predicate RightlyListed(sdk: Sdk, derive: ChildDerivation, identityWif: string, signers: seq<DerivedSigner>) {
    forall i :: 0 <= i < |signers| ==> OwnAddress(sdk, derive, identityWif, signers[i])
  }

  ghost predicate OwnAddress(sdk: Sdk, derive: ChildDerivation, identityWif: string, s: DerivedSigner) {
    match s.legacyWif
    case Some(wif) => sdk.addressOf(wif) == Some(s.address)
    case None =>
      s.senderPubKey.Some? && s.invoiceNumber.Some? ==>
        match derive(identityWif, s.senderPubKey.value, s.invoiceNumber.value)
        case Some(wif) => sdk.addressOf(wif) == Some(s.address)
        case None => true
  }

  lemma SignerKeyDerivable(derive: ChildDerivation, identityWif: string, s: DerivedSigner)
    ensures SignerKey(derive, identityWif, s).Ok? <==> Derivable(derive, identityWif, s)
  {
  }

  lemma SignerKeyIsOwn(sdk: Sdk, derive: ChildDerivation, identityWif: string, s: DerivedSigner)
    ensures OwnAddress(sdk, derive, identityWif, s) && SignerKey(derive, identityWif, s).Ok? ==>
              sdk.addressOf(SignerKey(derive, identityWif, s).value) == Some(s.address)
  {
  }

  // If the signers are rightly listed, the key that signs for an address is a key of it.
  lemma SignsForOwnAddress(sdk: Sdk, derive: ChildDerivation, identityWif: string, walletWif: string,
                           signers: seq<DerivedSigner>, address: string, wif: string)
    requires sdk.addressOf(walletWif).Some? && RightlyListed(sdk, derive, identityWif, signers)
    requires SignsFor(derive, identityWif, sdk.addressOf(walletWif).value, walletWif, signers, address, wif)
    ensures sdk.addressOf(wif) == Some(address)
  {
    if Listed(signers, address) {
      var j :| 0 <= j < |signers| && signers[j].address == address && SignerKey(derive, identityWif, signers[j]) == Ok(wif);
      SignerKeyIsOwn(sdk, derive, identityWif, signers[j]);
      assert OwnAddress(sdk, derive, identityWif, signers[j]);
    }
  }

  // The key that signs for an address: that of the last signer listed for it, or else the
  // wallet key if it is the wallet's address.
  ghost predicate SignsFor(derive: ChildDerivation, identityWif: string, walletAddress: string, walletWif: string,
                           signers: seq<DerivedSigner>, address: string, wif: string) {
    if Listed(signers, address) then
      exists j ::
        && 0 <= j < |signers| && signers[j].address == address
        && SignerKey(derive, identityWif, signers[j]) == Ok(wif)
        && forall k :: j < k < |signers| ==> signers[k].address != address
    else address == walletAddress && wif == walletWif
  }

  predicate Listed(signers: seq<DerivedSigner>, address: string) {
    exists j :: 0 <= j < |signers| && signers[j].address == address
  }

  // There is only one such key.
  lemma SignsForOneKey(derive: ChildDerivation, identityWif: string, walletAddress: string, walletWif: string,
                       signers: seq<DerivedSigner>, address: string, wif: string, other: string)
    requires SignsFor(derive, identityWif, walletAddress, walletWif, signers, address, wif)
    requires SignsFor(derive, identityWif, walletAddress, walletWif, signers, address, other)
    ensures wif == other
  {
  }

  class KeyStoreInner {
    var walletWif: Option<string>
    var ordWif: Option<string>
    var identityWif: Option<string>
    var mnemonic: Option<string>
    var pubKeys: Option<PublicKeys>

    function Now(): Contents
      reads this
    {
      Contents(walletWif, ordWif, identityWif, mnemonic, pubKeys)
    }

    constructor ()
      ensures Now() == EMPTY
    {
      walletWif, ordWif, identityWif, mnemonic, pubKeys := None, None, None, None, None;
    }

    method ClearKeys(w: World)
      modifies this
      ensures Now() == Apply(w, old(Now()), Clear)
    {
      walletWif, ordWif, identityWif, mnemonic, pubKeys := None, None, None, None, None;
    }

    predicate HasKeys()
      reads this
    {
      walletWif.Some?
    }

    method StoreKeys(w: World, seed: string, index: Option<nat>) returns (result: Result<PublicKeys, Error>)
      modifies this
      ensures Now() == Apply(w, old(Now()), Store(seed, index))
      ensures result.Ok? ==> pubKeys == Some(result.value)
      ensures result.Err? ==> Now() == old(Now())
    {
      var keys := if index.Some? then Derive(w, seed, index.value) else Derive(w, seed, 0);
      if keys.None? {
        return Err(NotDerivable);
      }
      ClearKeys(w);
      Set(keys.value.(mnemonic := Some(seed)));
      return Ok(keys.value.pubKeys);
    }

    method StoreKeysDirect(w: World, keys: WalletKeys) returns (result: Result<PublicKeys, Error>)
      modifies this
      ensures Now() == Apply(w, old(Now()), StoreDirect(keys))
      ensures result.Ok? <==> w.validWif(keys.walletWif) && w.validWif(keys.ordWif) && w.validWif(keys.identityWif)
      ensures result.Ok? ==> pubKeys == Some(result.value)
      ensures result.Err? ==> Now() == old(Now())
    {
      if !w.validWif(keys.walletWif) {
        return Err(InvalidKey(keys.walletWif));
      }
      if !w.validWif(keys.ordWif) {
        return Err(InvalidKey(keys.ordWif));
      }
      if !w.validWif(keys.identityWif) {
        return Err(InvalidKey(keys.identityWif));
      }
      ClearKeys(w);
      Set(Typed(keys));
      return Ok(Typed(keys).pubKeys);
    }

    // The keys are overwritten in place; a failed derivation leaves the store as it was.
    method SwitchAccount(w: World, account: nat) returns (result: Result<PublicKeys, Error>)
      modifies this
      ensures Now() == Apply(w, old(Now()), Switch(account))
      ensures result.Ok? ==> pubKeys == Some(result.value)
      ensures result.Err? ==> Now() == old(Now())
    {
      if mnemonic.None? {
        return Err(NoMnemonic);
      }
      var keys := Derive(w, mnemonic.value, account);
      if keys.None? {
        return Err(NotDerivable);
      }
      Set(keys.value);
      return Ok(keys.value.pubKeys);
    }

    method Set(keys: WalletKeys)
      modifies this
      ensures Now() == Holding(keys)
    {
      walletWif := Some(keys.walletWif);
      ordWif := Some(keys.ordWif);
      identityWif := Some(keys.identityWif);
      mnemonic := keys.mnemonic;
      pubKeys := Some(keys.pubKeys);
    }

    // In every reachable state an unlocked store has a key of every type.
    method GetWif(keyType: string) returns (result: Result<string, Error>)
      ensures result.Err? ==>
                result.error == if keyType in ["wallet", "ord", "ordinals", "identity"] then NoKey(keyType)
                                else InvalidKeyType(keyType)
      ensures Whole(Now()) ==>
                (result.Ok? <==> HasKeys() && keyType in ["wallet", "ord", "ordinals", "identity"])
      ensures result.Ok? ==>
                Some(result.value) == (if keyType == "wallet" then walletWif
                                       else if keyType == "identity" then identityWif else ordWif)
    {
      var wif: Option<string>;
      if keyType == "wallet" {
        wif := walletWif;
      } else if keyType == "ord" || keyType == "ordinals" {
        wif := ordWif;
      } else if keyType == "identity" {
        wif := identityWif;
      } else {
        return Err(InvalidKeyType(keyType));
      }
      return if wif.Some? then Ok(wif.value) else Err(NoKey(keyType));
    }

    // Resolution succeeds exactly when every listed signer's key can be had and every input's
    // address has a signer; each input then comes with the key that signs for it, in order.
    method ResolveExtendedUtxos(sdk: Sdk, derive: ChildDerivation, selected: seq<ResolvedUtxo>, signers: seq<DerivedSigner>)
      returns (result: Result<seq<Coin>, Error>)
      requires Whole(Now())
      ensures result.Ok? <==>
                && HasKeys() && sdk.addressOf(walletWif.value).Some?
                && AllDerivable(derive, identityWif.value, signers)
                && forall i :: 0 <= i < |selected| ==>
                     Listed(signers, selected[i].address) || Some(selected[i].address) == sdk.addressOf(walletWif.value)
      ensures result.Ok? ==>
                && |result.value| == |selected|
                && forall i :: 0 <= i < |selected| ==>
                     && result.value[i].utxo == selected[i].utxo
                     && SignsFor(derive, identityWif.value, sdk.addressOf(walletWif.value).value, walletWif.value,
                                 signers, selected[i].address, result.value[i].wif)
      ensures result.Ok? && RightlyListed(sdk, derive, identityWif.value, signers) ==>
                forall i :: 0 <= i < |selected| ==> sdk.addressOf(result.value[i].wif) == Some(selected[i].address)
      ensures (result.Err? && result.error.NoSigner?) <==>
                (result.Err? && HasKeys() && sdk.addressOf(walletWif.value).Some?
                 && AllDerivable(derive, identityWif.value, signers))
      ensures result.Err? && result.error.NoSigner? ==>
                exists i ::
                  && 0 <= i < |selected| && result.error == NoSigner(selected[i].address)
                  && !Listed(signers, selected[i].address)
                  && forall k :: 0 <= k < i ==>
                       Listed(signers, selected[k].address) || Some(selected[k].address) == sdk.addressOf(walletWif.value)
    {
      if !HasKeys() {
        return Err(Locked);
      }
      // A store that has keys has all of them, so neither lookup can fail.
      var wallet := GetWif("wallet");
      var walletAddress := sdk.addressOf(wallet.value);
      if walletAddress.None? {
        return Err(BadWalletKey);
      }
      var identity := GetWif("identity");
      var keys := CollectKeys(derive, identity.value, walletAddress.value, wallet.value, signers);
      if keys.Err? {
        return Err(keys.error);
      }
      result := LookUpKeys(keys.value, selected);
      if result.Ok? && RightlyListed(sdk, derive, identity.value, signers) {
        forall i | 0 <= i < |selected| ensures sdk.addressOf(result.value[i].wif) == Some(selected[i].address) {
          SignsForOwnAddress(sdk, derive, identity.value, wallet.value, signers, selected[i].address, result.value[i].wif);
        }
      }
    }
  }

  // The map from addresses to keys; a later signer for the same address replaces an earlier
  // one, and the wallet key.
  method CollectKeys(derive: ChildDerivation, identityWif: string, walletAddress: string, walletWif: string,
                     signers: seq<DerivedSigner>)
    returns (result: Result<map<string, string>, Error>)
    ensures result.Ok? <==> AllDerivable(derive, identityWif, signers)
    ensures result.Err? ==> !result.error.NoSigner?
    ensures result.Ok? ==>
              forall a :: a in result.value <==> Listed(signers, a) || a == walletAddress
    ensures result.Ok? ==>
              forall a :: a in result.value ==>
                SignsFor(derive, identityWif, walletAddress, walletWif, signers, a, result.value[a])
  {
    var keys := map[walletAddress := walletWif];
    for i := 0 to |signers|
      invariant AllDerivable(derive, identityWif, signers[..i])
      invariant forall a :: a in keys <==> Listed(signers[..i], a) || a == walletAddress
      invariant forall a :: a in keys ==>
                  SignsFor(derive, identityWif, walletAddress, walletWif, signers[..i], a, keys[a])
    {
      var wif := SignerKey(derive, identityWif, signers[i]);
      SignerKeyDerivable(derive, identityWif, signers[i]);
      if wif.Err? {
        return Err(wif.error);
      }
      forall a ensures Listed(signers[..i + 1], a) <==> Listed(signers[..i], a) || a == signers[i].address {
        ListedAppends(signers, i, a);
      }
      forall a | a in keys && a != signers[i].address
        ensures SignsFor(derive, identityWif, walletAddress, walletWif, signers[..i + 1], a, keys[a])
      {
        SignsForAppends(derive, identityWif, walletAddress, walletWif, signers, i, a, keys[a]);
      }
      LastSigns(derive, identityWif, walletAddress, walletWif, signers, i, wif.value);
      keys := keys[signers[i].address := wif.value];
    }
    assert signers[..|signers|] == signers;
    return Ok(keys);
  }

  lemma ListedAppends(signers: seq<DerivedSigner>, i: nat, address: string)
    requires i < |signers|
    ensures Listed(signers[..i + 1], address) <==> Listed(signers[..i], address) || address == signers[i].address
  {
  }

  lemma SignsForAppends(derive: ChildDerivation, identityWif: string, walletAddress: string, walletWif: string,
                        signers: seq<DerivedSigner>, i: nat, address: string, wif: string)
    requires i < |signers| && address != signers[i].address
    requires SignsFor(derive, identityWif, walletAddress, walletWif, signers[..i], address, wif)
    ensures SignsFor(derive, identityWif, walletAddress, walletWif, signers[..i + 1], address, wif)
  {
    ListedAppends(signers, i, address);
    if Listed(signers[..i], address) {
      var before, after := signers[..i], signers[..i + 1];
      var j :| 0 <= j < i && before[j].address == address && SignerKey(derive, identityWif, before[j]) == Ok(wif)
               && forall k :: j < k < i ==> before[k].address != address;
      assert after[j] == before[j];
      assert forall k :: j < k < i + 1 ==> after[k].address != address;
    }
  }

  lemma LastSigns(derive: ChildDerivation, identityWif: string, walletAddress: string, walletWif: string,
                  signers: seq<DerivedSigner>, i: nat, wif: string)
    requires i < |signers| && SignerKey(derive, identityWif, signers[i]) == Ok(wif)
    ensures SignsFor(derive, identityWif, walletAddress, walletWif, signers[..i + 1], signers[i].address, wif)
  {
  }

  method LookUpKeys(keys: map<string, string>, selected: seq<ResolvedUtxo>) returns (result: Result<seq<Coin>, Error>)
    ensures result.Ok? <==> forall i :: 0 <= i < |selected| ==> selected[i].address in keys
    ensures result.Ok? ==>
              && |result.value| == |selected|
              && forall i :: 0 <= i < |selected| ==> result.value[i] == Coin(selected[i].utxo, keys[selected[i].address])
    ensures result.Err? ==>
              exists i ::
                && 0 <= i < |selected| && result.error == NoSigner(selected[i].address) && selected[i].address !in keys
                && forall k :: 0 <= k < i ==> selected[k].address in keys
  {
    var coins: seq<Coin> := [];
    for i := 0 to |selected|
      invariant |coins| == i
      invariant forall k :: 0 <= k < i ==>
                  selected[k].address in keys && coins[k] == Coin(selected[k].utxo, keys[selected[k].address])
    {
      if selected[i].address !in keys {
        return Err(NoSigner(selected[i].address));
      }
      coins := coins + [Coin(selected[i].utxo, keys[selected[i].address])];
    }
    return Ok(coins);
  }

  // ---------- Resolution and signing together ----------

  // The built transaction spends exactly the selected coins, in order, each unlocked by a
  // signature of the key that signs for its address.
  ghost predicate SignedByOwners(sdk: Sdk, derive: ChildDerivation, c: Contents, selected: seq<ResolvedUtxo>,
                                 signers: seq<DerivedSigner>, b: Built)
    requires c.walletWif.Some? && c.identityWif.Some? && sdk.addressOf(c.walletWif.value).Some?
  {
    && |b.inputs| == |selected| && |b.unlocking| == |selected|
    && forall i :: 0 <= i < |selected| ==>
         && b.inputs[i] == selected[i].utxo
         && exists wif: string ::
              && SignsFor(derive, c.identityWif.value, sdk.addressOf(c.walletWif.value).value, c.walletWif.value,
                          signers, selected[i].address, wif)
              && b.unlocking[i].Some? && b.unlocking[i] == sdk.sign(wif, Unsigned(b.inputs, b.outputs), i)
  }

  // Every input is unlocked by a signature of a key of the address it is selected with.
  ghost predicate UnlockedByOwners(sdk: Sdk, selected: seq<ResolvedUtxo>, b: Built) {
    && |b.inputs| == |selected| && |b.unlocking| == |selected|
    && forall i :: 0 <= i < |selected| ==>
         exists wif: string ::
           && sdk.addressOf(wif) == Some(selected[i].address)
           && b.unlocking[i].Some? && b.unlocking[i] == sdk.sign(wif, Unsigned(b.inputs, b.outputs), i)
  }

  lemma OwnersUnlock(sdk: Sdk, derive: ChildDerivation, c: Contents, selected: seq<ResolvedUtxo>,
                     signers: seq<DerivedSigner>, b: Built)
    requires c.walletWif.Some? && c.identityWif.Some? && sdk.addressOf(c.walletWif.value).Some?
    requires SignedByOwners(sdk, derive, c, selected, signers, b)
    requires RightlyListed(sdk, derive, c.identityWif.value, signers)
    ensures UnlockedByOwners(sdk, selected, b)
  {
    forall i | 0 <= i < |selected|
      ensures exists wif: string ::
                && sdk.addressOf(wif) == Some(selected[i].address)
                && b.unlocking[i].Some? && b.unlocking[i] == sdk.sign(wif, Unsigned(b.inputs, b.outputs), i)
    {
      var wif: string :|
        && SignsFor(derive, c.identityWif.value, sdk.addressOf(c.walletWif.value).value, c.walletWif.value,
                    signers, selected[i].address, wif)
        && b.unlocking[i].Some? && b.unlocking[i] == sdk.sign(wif, Unsigned(b.inputs, b.outputs), i);
      SignsForOwnAddress(sdk, derive, c.identityWif.value, c.walletWif.value, signers, selected[i].address, wif);
    }
  }

  // The selected coins, in order, each with the key that signs for its address.
  ghost predicate Resolves(sdk: Sdk, derive: ChildDerivation, c: Contents, selected: seq<ResolvedUtxo>,
                           signers: seq<DerivedSigner>, coins: seq<Coin>)
    requires c.walletWif.Some? && c.identityWif.Some? && sdk.addressOf(c.walletWif.value).Some?
  {
    && |coins| == |selected|
    && forall i :: 0 <= i < |selected| ==>
         && coins[i].utxo == selected[i].utxo
         && SignsFor(derive, c.identityWif.value, sdk.addressOf(c.walletWif.value).value, c.walletWif.value,
                     signers, selected[i].address, coins[i].wif)
  }

  lemma ResolvesOneWay(sdk: Sdk, derive: ChildDerivation, c: Contents, selected: seq<ResolvedUtxo>,
                       signers: seq<DerivedSigner>, coins: seq<Coin>, others: seq<Coin>)
    requires c.walletWif.Some? && c.identityWif.Some? && sdk.addressOf(c.walletWif.value).Some?
    requires Resolves(sdk, derive, c, selected, signers, coins) && Resolves(sdk, derive, c, selected, signers, others)
    ensures coins == others
  {
  }

  // Everything a resolved build needs before the transaction: an unlocked store, a usable
  // wallet key and every listed signer's key.
  predicate Ready(sdk: Sdk, derive: ChildDerivation, c: Contents, signers: seq<DerivedSigner>) {
    && c.walletWif.Some? && c.identityWif.Some? && sdk.addressOf(c.walletWif.value).Some?
    && AllDerivable(derive, c.identityWif.value, signers)
  }

  // Some input's address has neither a listed signer nor the wallet key.
  ghost predicate Unsignable(signers: seq<DerivedSigner>, selected: seq<ResolvedUtxo>, address: string) {
    exists i :: 0 <= i < |selected| && selected[i].address == address && !Listed(signers, address)
  }

  method BuildResolvedMultiKeyP2pkhTx(store: KeyStoreInner, sdk: Sdk, derive: ChildDerivation, toAddress: string,
                                      satoshis: U64, selected: seq<ResolvedUtxo>, signers: seq<DerivedSigner>,
                                      totalInput: U64, rate: real)
    returns (result: Result<Built, Error>)
    requires Whole(store.Now())
    ensures result.Ok? <==>
              && Ready(sdk, derive, store.Now(), signers)
              && exists coins ::
                   && Resolves(sdk, derive, store.Now(), selected, signers, coins)
                   && Settles(sdk, coins, [ToAddress(toAddress, satoshis)], totalInput, satoshis,
                              PaymentFee(totalInput, satoshis, |coins|, 1, rate), sdk.addressOf(store.walletWif.value).value)
    ensures result.Ok? ==>
              && sdk.addressOf(store.walletWif.value) == Some(result.value.changeAddress)
              && SignedByOwners(sdk, derive, store.Now(), selected, signers, result.value)
              && sdk.payTo(toAddress).Some?
              && result.value.outputs == [Output(satoshis, sdk.payTo(toAddress).value)] +
                                         ChangeOutputs(sdk, result.value.change, result.value.changeAddress)
              && (Conserves(result.value) <==> totalInput == SumCoins(result.value.inputs))
    ensures result.Ok? && RightlyListed(sdk, derive, store.identityWif.value, signers) ==>
              UnlockedByOwners(sdk, selected, result.value)
    ensures result.Err? && result.error.NoSigner? ==> Unsignable(signers, selected, result.error.address)
  {
    var wallet := store.GetWif("wallet");
    if wallet.Err? {
      return Err(wallet.error);
    }
    var coins := store.ResolveExtendedUtxos(sdk, derive, selected, signers);
    if coins.Err? {
      return Err(coins.error);
    }
    forall others | Resolves(sdk, derive, store.Now(), selected, signers, others) ensures others == coins.value {
      ResolvesOneWay(sdk, derive, store.Now(), selected, signers, coins.value, others);
    }
    var built := BuildMultiKeyP2pkhTx(sdk, wallet.value, toAddress, satoshis, coins.value, totalInput, rate);
    if built.Err? {
      return Err(BuildFailed(built.error));
    }
    if RightlyListed(sdk, derive, store.identityWif.value, signers) {
      OwnersUnlock(sdk, derive, store.Now(), selected, signers, built.value);
    }
    return Ok(built.value);
  }

  method BuildResolvedMultiOutputP2pkhTx(store: KeyStoreInner, sdk: Sdk, derive: ChildDerivation,
                                         payments: seq<AddressPayment>, selected: seq<ResolvedUtxo>,
                                         signers: seq<DerivedSigner>, totalInput: U64, rate: real)
    returns (result: Result<Built, Error>)
    requires Whole(store.Now())
    ensures result.Ok? <==>
              && payments != []
              && Ready(sdk, derive, store.Now(), signers)
              && exists coins ::
                   && Resolves(sdk, derive, store.Now(), selected, signers, coins)
                   && Settles(sdk, coins, payments, totalInput, PaidFor(payments),
                              PaymentFee(totalInput, PaidFor(payments), |coins|, |payments|, rate),
                              sdk.addressOf(store.walletWif.value).value)
    ensures result.Ok? ==>
              && sdk.addressOf(store.walletWif.value) == Some(result.value.changeAddress)
              && SignedByOwners(sdk, derive, store.Now(), selected, signers, result.value)
              && OutputsOf(sdk, payments).Some?
              && result.value.outputs == OutputsOf(sdk, payments).value +
                                         ChangeOutputs(sdk, result.value.change, result.value.changeAddress)
              && (SumPayments(payments) < TWO_TO_64 ==>
                    (Conserves(result.value) <==> totalInput == SumCoins(result.value.inputs)))
    ensures result.Ok? && RightlyListed(sdk, derive, store.identityWif.value, signers) ==>
              UnlockedByOwners(sdk, selected, result.value)
    ensures result.Err? && result.error.NoSigner? ==> Unsignable(signers, selected, result.error.address)
  {
    var wallet := store.GetWif("wallet");
    if wallet.Err? {
      return Err(wallet.error);
    }
    var coins := store.ResolveExtendedUtxos(sdk, derive, selected, signers);
    if coins.Err? {
      return Err(coins.error);
    }
    forall others | Resolves(sdk, derive, store.Now(), selected, signers, others) ensures others == coins.value {
      ResolvesOneWay(sdk, derive, store.Now(), selected, signers, coins.value, others);
    }
    var built := BuildMultiKeyOutputP2pkhTx(sdk, wallet.value, payments, coins.value, totalInput, rate);
    if built.Err? {
      return Err(BuildFailed(built.error));
    }
    if RightlyListed(sdk, derive, store.identityWif.value, signers) {
      OwnersUnlock(sdk, derive, store.Now(), selected, signers, built.value);
    }
    return Ok(built.value);
  }
}

/**
 OrdinalLock listings: the fixed contract bytes around the owner's key hash and a payout,
 which names the seller and the price.
 */
module Listings {
  import opened Wrappers
  import opened Scripts
  import opened OrdinalLock

  /** The fixed bytes of the OrdinalLock contract around the terms of a listing. */
  datatype Contract = Contract(prefix: Bytes, suffix: Bytes)

  datatype Terms = Terms(owner: Hash, seller: Hash, price: nat)

  const U64_LIMIT: nat := 0x1_0000_0000_0000_0000

  function Varint(len: nat): Bytes {
    if len < 0xfd then [len]
    else if len <= 0xffff then [0xfd] + LeBytes(len, 2)
    else []
  }

  function Payout(price: nat, seller: Hash): Bytes {
    LeBytes(price, 8) + Varint(25) + P2pkh(seller)
  }

  function ListingScript(c: Contract, t: Terms): Bytes {
    c.prefix + t.owner + Push(Payout(t.price, t.seller)) + c.suffix
  }

  function DecodeContract(): Option<Contract> {
    DecodeTexts(OLOCK_PREFIX, OLOCK_SUFFIX)
  }

  function DecodeTexts(prefixText: seq<(nat, nat)>, suffixText: seq<(nat, nat)>): Option<Contract> {
    match (HexDecode(Joined(prefixText)), HexDecode(Joined(suffixText)))
    case (Some(prefix), Some(suffix)) => Some(Contract(prefix, suffix))
    case _ => None
  }

  lemma TextsDecode(prefixText: seq<(nat, nat)>, suffixText: seq<(nat, nat)>, before: nat, after: nat)
    requires Fifties(prefixText, before) && Fifties(suffixText, after)
    ensures var c := DecodeTexts(prefixText, suffixText);
            c.Some? && |c.value.prefix| == before && |c.value.suffix| == after
  {
    TextDecodes(prefixText, before);
    TextDecodes(suffixText, after);
  }

  lemma ContractSizes()
    ensures var c := DecodeContract();
            c.Some? && |c.value.prefix| == 102 && |c.value.suffix| == 702
  {
    TableSizes();
    TextsDecode(OLOCK_PREFIX, OLOCK_SUFFIX, 102, 702);
  }

  lemma ListingLength(c: Contract, t: Terms)
    ensures |ListingScript(c, t)| == |c.prefix| + 55 + |c.suffix|
  {
  }

  // The fixed text decodes, and every listing script is 859 bytes long, whatever its terms.
  lemma ContractDecodes(t: Terms)
    ensures DecodeContract().Some?
    ensures |DecodeContract().value.prefix| == 102 && |DecodeContract().value.suffix| == 702
    ensures |ListingScript(DecodeContract().value, t)| == 859
  {
    ContractSizes();
    ListingLength(DecodeContract().value, t);
  }

  method EncodeVarint(len: nat) returns (encoded: Bytes)
    ensures encoded == Varint(len)
    ensures len <= 0xffff ==> ParseVarint(encoded) == Some((len, []))
  {
    encoded := [];
    if len < 0xfd {
      encoded := encoded + [len];
    } else if len <= 0xffff {
      encoded := encoded + [0xfd];
      encoded := encoded + LeBytes(len, 2);
      LeOfTwoBytes(len);
      assert |encoded| == 3 && encoded[1..3] == LeBytes(len, 2) && encoded[3..] == [];
    }
    if len < 0xfd {
      assert encoded[1..] == [];
    }
  }

  method EncodePayout(decode: string -> Option<Bytes>, priceSats: nat, payAddress: string)
    returns (result: Result<Bytes, string>)
    requires priceSats < U64_LIMIT
    ensures match HashFromAddress(decode, payAddress)
            case Err(e) => result == Err(e)
            case Ok(seller) => result == Ok(Payout(priceSats, seller))
  {
    var hash := HashFromAddress(decode, payAddress);
    if hash.Err? {
      return Err(hash.error);
    }
    var payScript: Bytes := [0x76, 0xa9, 0x14];
    payScript := payScript + hash.value;
    payScript := payScript + [0x88, 0xac];
    var encoded: Bytes := LeBytes(priceSats, 8);
    var varint := EncodeVarint(|payScript|);
    encoded := encoded + varint;
    encoded := encoded + payScript;
    result := Ok(encoded);
  }

  method BuildListingScript(decode: string -> Option<Bytes>, payAddress: string, ordAddress: string, priceSats: nat)
    returns (result: Result<Bytes, string>)
    requires priceSats < U64_LIMIT
    ensures result.Ok? <==> HashFromAddress(decode, ordAddress).Ok? && HashFromAddress(decode, payAddress).Ok?
    ensures DecodeContract().Some?
    ensures result.Ok? ==>
              var terms := Terms(HashFromAddress(decode, ordAddress).value,
                                 HashFromAddress(decode, payAddress).value, priceSats);
              && |result.value| == 859
              && result.value == ListingScript(DecodeContract().value, terms)
              && ParseListing(DecodeContract().value, result.value) == Some(terms)
  {
    ContractSizes();
    var cancelHash := HashFromAddress(decode, ordAddress);
    if cancelHash.Err? {
      return Err(cancelHash.error);
    }
    var payout := EncodePayout(decode, priceSats, payAddress);
    if payout.Err? {
      return Err(payout.error);
    }
    // The fixed text is hexadecimal, so its decoding cannot fail.
    var c := DecodeContract().value;
    var script := c.prefix;
    script := script + cancelHash.value;
    var pushed := PushDataBytes(payout.value);
    script := script + pushed;
    script := script + c.suffix;
    var terms := Terms(cancelHash.value, HashFromAddress(decode, payAddress).value, priceSats);
    ListingLength(c, terms);
    ListingRoundTrip(c, terms);
    result := Ok(script);
  }

  function ParseVarint(b: Bytes): Option<(nat, Bytes)> {
    if |b| >= 1 && b[0] < 0xfd then Some((b[0], b[1..]))
    else if |b| >= 3 && b[0] == 0xfd then Some((LeValue(b[1..3]), b[3..]))
    else None
  }

  function ParsePayout(b: Bytes): Option<(nat, Hash)> {
    if |b| < 8 then None
    else
      match ParseVarint(b[8..])
      case None => None
      case Some((len, script)) =>
        match ParseP2pkh(script)
        case None => None
        case Some(hash) => if len == |script| then Some((LeValue(b[..8]), hash)) else None
  }

  function ParseListing(c: Contract, script: Bytes): Option<Terms> {
    var p := |c.prefix|;
    if |script| < p + HASH_SIZE || script[..p] != c.prefix then None
    else
      match ParsePush(script[p + HASH_SIZE..])
      case None => None
      case Some((payout, rest)) =>
        match ParsePayout(payout)
        case None => None
        case Some((price, seller)) =>
          if rest == c.suffix then Some(Terms(script[p..p + HASH_SIZE], seller, price)) else None
  }

  lemma PriceRoundTrip(price: nat)
    requires price < U64_LIMIT
    ensures LeValue(LeBytes(price, 8)) == price
  {
    assert Pow256(8) == U64_LIMIT;
    LeRoundTrip(price, 8);
  }

  lemma PayoutParts(price: Bytes, seller: Hash)
    requires |price| == 8
    ensures ParsePayout(price + Varint(25) + P2pkh(seller)) == Some((LeValue(price), seller))
  {
    var b := price + Varint(25) + P2pkh(seller);
    var script := P2pkh(seller);
    assert b[..8] == price && b[8..] == [25] + script;
    assert ([25] + script)[1..] == script;
    P2pkhRoundTrip(seller);
  }

  lemma PayoutRoundTrip(price: nat, seller: Hash)
    requires price < U64_LIMIT
    ensures ParsePayout(Payout(price, seller)) == Some((price, seller))
  {
    PriceRoundTrip(price);
    PayoutParts(LeBytes(price, 8), seller);
  }

  lemma PartsOfFraming(prefix: Bytes, owner: Hash, rest: Bytes)
    ensures var script := prefix + owner + rest;
            var p := |prefix|;
            && |script| >= p + HASH_SIZE && script[..p] == prefix
            && script[p..p + HASH_SIZE] == owner && script[p + HASH_SIZE..] == rest
  {
  }

  lemma ParseOfShortPush(payout: Bytes, suffix: Bytes)
    requires |payout| <= 0xffff
    ensures ParsePush(Push(payout) + suffix) == Some((payout, suffix))
  {
    ParseOfPush(payout, suffix);
    assert payout[..|payout|] == payout && payout[|payout|..] + suffix == suffix;
  }

  lemma PushFramed(prefix: Bytes, owner: Bytes, push: Bytes, suffix: Bytes)
    ensures prefix + owner + push + suffix == prefix + owner + (push + suffix)
  {
  }

  // A listing script determines its terms: owner, seller and the exact price.
  lemma ListingRoundTrip(c: Contract, t: Terms)
    requires t.price < U64_LIMIT
    ensures ParseListing(c, ListingScript(c, t)) == Some(t)
  {
    var payout := Payout(t.price, t.seller);
    PayoutRoundTrip(t.price, t.seller);
    PayoutLength(t.price, t.seller);
    FramedRoundTrip(c, t, payout);
  }

  lemma PayoutLength(price: nat, seller: Hash)
    ensures |Payout(price, seller)| == 34
  {
  }

  lemma FramedRoundTrip(c: Contract, t: Terms, payout: Bytes)
    requires |payout| <= 0xffff && ParsePayout(payout) == Some((t.price, t.seller))
    ensures ParseListing(c, c.prefix + t.owner + Push(payout) + c.suffix) == Some(t)
  {
    var rest := Push(payout) + c.suffix;
    PushFramed(c.prefix, t.owner, Push(payout), c.suffix);
    PartsOfFraming(c.prefix, t.owner, rest);
    ParseOfShortPush(payout, c.suffix);
  }

  lemma EqualListingsHaveEqualTerms(c: Contract, t: Terms, u: Terms)
    requires t.price < U64_LIMIT && u.price < U64_LIMIT
    ensures ListingScript(c, t) == ListingScript(c, u) <==> t == u
  {
    ListingRoundTrip(c, t);
    ListingRoundTrip(c, u);
  }
}

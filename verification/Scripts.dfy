/**
 Locking scripts as bytes: push operations, inscription envelopes and OrdinalLock listings,
 each with a parser that the printed bytes are proved against.
 */
module Scripts {
  import opened Wrappers

  type Byte = b: int | 0 <= b < 256
  type Bytes = seq<Byte>

  const HASH_SIZE: nat := 20

  type Hash = h: Bytes | |h| == HASH_SIZE witness seq(20, i => 0)

  // ---------- Little-endian numbers ----------

  function Pow256(k: nat): (p: nat)
    ensures p >= 1
  {
    if k == 0 then 1 else 256 * Pow256(k - 1)
  }

  function LeBytes(n: nat, k: nat): (b: Bytes)
    ensures |b| == k
    decreases k
  {
    if k == 0 then [] else [n % 256] + LeBytes(n / 256, k - 1)
  }

  function LeValue(b: Bytes): nat {
    if b == [] then 0 else b[0] + 256 * LeValue(b[1..])
  }

  lemma {:induction false} LeRoundTrip(n: nat, k: nat)
    requires n < Pow256(k)
    ensures LeValue(LeBytes(n, k)) == n
    decreases k
  {
    if k == 0 {
    } else {
      LeRoundTrip(n / 256, k - 1);
      assert LeBytes(n, k)[1..] == LeBytes(n / 256, k - 1);
    }
  }

  // ---------- Push operations ----------

  // The opcode and length prefix of a push; lengths above 255 are cast to 16 bits.
  function PushPrefix(len: nat): Bytes {
    if len <= 0x4b then [len]
    else if len <= 0xff then [0x4c, len]
    else [0x4d] + LeBytes(len % 0x1_0000, 2)
  }

  // The opcode and the length take one byte up to 75, two up to 255, and three beyond.
  lemma PrefixIsShortest(len: nat)
    ensures |PushPrefix(len)| == if len <= 75 then 1 else if len <= 255 then 2 else 3
  {
  }

  method PushDataBytes(data: Bytes) returns (result: Bytes)
    ensures result == PushPrefix(|data|) + data
  {
    result := [];
    var len := |data|;
    if len == 0 {
      result := result + [0x00];
    } else if len <= 0x4b {
      result := result + [len];
    } else if len <= 0xff {
      result := result + [0x4c];
      result := result + [len];
    } else {
      result := result + [0x4d];
      result := result + LeBytes(len % 0x1_0000, 2);
    }
    result := result + data;
  }

  // How many bytes a script pushes first, and where they begin.
  function PushHeader(script: Bytes): Option<(nat, nat)> {
    if |script| >= 1 && script[0] <= 0x4b then Some((script[0], 1))
    else if |script| >= 2 && script[0] == 0x4c then Some((script[1], 2))
    else if |script| >= 3 && script[0] == 0x4d then Some((LeValue(script[1..3]), 3))
    else None
  }

  // The data pushed first and the rest of the script.
  function ParsePush(script: Bytes): Option<(Bytes, Bytes)> {
    match PushHeader(script)
    case None => None
    case Some((len, from)) =>
      if from + len > |script| then None else Some((script[from..from + len], script[from + len..]))
  }

  function Push(data: Bytes): Bytes {
    PushPrefix(|data|) + data
  }

  lemma LeOfTwoBytes(n: nat)
    requires n < 0x1_0000
    ensures LeValue(LeBytes(n, 2)) == n
  {
    assert Pow256(2) == 0x1_0000;
    LeRoundTrip(n, 2);
  }

  function PushedLength(len: nat): (pushed: nat)
    ensures pushed <= len && (pushed == len <==> len <= 0xffff)
  {
    if len <= 0xffff then len else len % 0x1_0000
  }

  lemma HeaderOfPrefix(len: nat, rest: Bytes)
    ensures PushHeader(PushPrefix(len) + rest) == Some((PushedLength(len), |PushPrefix(len)|))
  {
    var script := PushPrefix(len) + rest;
    if len > 0xff {
      LeOfTwoBytes(len % 0x1_0000);
      assert script[1..3] == LeBytes(len % 0x1_0000, 2);
    }
  }

  lemma SliceAfter(prefix: Bytes, data: Bytes, rest: Bytes, len: nat)
    requires len <= |data|
    ensures var from := |prefix|;
            var script := prefix + data + rest;
            script[from..from + len] == data[..len] && script[from + len..] == data[len..] + rest
  {
  }

  // Parsing a printed push: exact up to 65535 bytes; beyond, the length wraps and only that
  // many bytes come back.
  lemma ParseOfPush(data: Bytes, rest: Bytes)
    ensures ParsePush(Push(data) + rest) ==
            var len := PushedLength(|data|);
            Some((data[..len], data[len..] + rest))
  {
    var prefix := PushPrefix(|data|);
    assert Push(data) + rest == prefix + (data + rest);
    HeaderOfPrefix(|data|, data + rest);
    SliceAfter(prefix, data, rest, PushedLength(|data|));
  }

  // Base58check decoding is a parameter; the hash is what follows the version byte.
  function HashFromAddress(decode: string -> Option<Bytes>, address: string): Result<Hash, string> {
    match decode(address)
    case None => Err("Invalid address")
    case Some(decoded) => if |decoded| < 21 then Err("Address too short") else Ok(decoded[1..21])
  }

  // A decoded address is a version byte, the hash and, perhaps, more; anything shorter is refused.
  lemma HashFollowsVersion(decode: string -> Option<Bytes>, address: string, version: Byte, hash: Hash, rest: Bytes)
    ensures decode(address) == Some([version] + hash + rest) ==> HashFromAddress(decode, address) == Ok(hash)
    ensures HashFromAddress(decode, address).Err? <==> decode(address).None? || |decode(address).value| <= 20
  {
  }

  // ---------- Inscriptions ----------

  datatype Inscription = Inscription(contentType: Bytes, content: Bytes, hash: Hash)

  const ORD: Bytes := [0x6f, 0x72, 0x64]

  function P2pkh(hash: Hash): Bytes {
    [0x76, 0xa9, 0x14] + hash + [0x88, 0xac]
  }

  function ParseP2pkh(script: Bytes): Option<Hash> {
    if |script| == 25 && script[..3] == [0x76, 0xa9, 0x14] && script[23..] == [0x88, 0xac]
    then Some(script[3..23]) else None
  }

  lemma P2pkhRoundTrip(hash: Hash)
    ensures ParseP2pkh(P2pkh(hash)) == Some(hash)
  {
  }

  function Tagged(tag: Byte, data: Bytes, rest: Bytes): Bytes {
    [tag] + Push(data) + rest
  }

  function InscriptionScript(i: Inscription): Bytes {
    [0x00] +
    Tagged(0x63, ORD,
    Tagged(0x51, i.contentType,
    Tagged(0x00, i.content, [0x68] + P2pkh(i.hash))))
  }

  method BuildInscriptionScript(content: Bytes, contentType: Bytes, destHash: Hash) returns (script: Bytes)
    ensures script == InscriptionScript(Inscription(contentType, content, destHash))
  {
    script := [];
    script := script + [0x00];
    script := script + [0x63];
    var ord := PushDataBytes(ORD);
    script := script + ord;
    script := script + [0x51];
    var pushedType := PushDataBytes(contentType);
    script := script + pushedType;
    script := script + [0x00];
    var pushedContent := PushDataBytes(content);
    script := script + pushedContent;
    script := script + [0x68];
    script := script + [0x76, 0xa9, 0x14];
    script := script + destHash;
    script := script + [0x88, 0xac];
    Associates(ord, pushedType, pushedContent, destHash);
  }

  lemma Associates(a: Bytes, b: Bytes, c: Bytes, hash: Hash)
    ensures [] + [0x00] + [0x63] + a + [0x51] + b + [0x00] + c + [0x68] + [0x76, 0xa9, 0x14] + hash + [0x88, 0xac]
         == [0x00] + ([0x63] + a + ([0x51] + b + ([0x00] + c + ([0x68] + P2pkh(hash)))))
  {
  }

  // Reads one expected byte.
  function Expect(script: Bytes, b: Byte): Option<Bytes> {
    if script != [] && script[0] == b then Some(script[1..]) else None
  }

  // Reads an expected byte and the push after it.
  function ParseTagged(script: Bytes, tag: Byte): Option<(Bytes, Bytes)> {
    match Expect(script, tag)
    case None => None
    case Some(rest) => ParsePush(rest)
  }

  // The end of the envelope and the payment script after it; nothing may be left over.
  function ParseTail(script: Bytes): Option<Hash> {
    match Expect(script, 0x68)
    case None => None
    case Some(rest) => ParseP2pkh(rest)
  }

  // The content, its type being known already.
  function ParseContent(script: Bytes, contentType: Bytes): Option<Inscription> {
    match ParseTagged(script, 0x00)
    case None => None
    case Some((content, rest)) =>
      match ParseTail(rest)
      case None => None
      case Some(hash) => Some(Inscription(contentType, content, hash))
  }

  // A parser for the whole script.
  function ParseInscription(script: Bytes): Option<Inscription> {
    match Expect(script, 0x00)
    case None => None
    case Some(s1) =>
      match ParseTagged(s1, 0x63)
      case None => None
      case Some((ord, s2)) =>
        if ord != ORD then None
        else
          match ParseTagged(s2, 0x51)
          case None => None
          case Some((contentType, s3)) => ParseContent(s3, contentType)
  }

  lemma ParseOfTagged(tag: Byte, data: Bytes, rest: Bytes)
    ensures var parsed := ParseTagged(Tagged(tag, data, rest), tag);
            if |data| <= 0xffff then parsed == Some((data, rest)) else parsed.Some? && |parsed.value.0| < |data|
  {
    assert Tagged(tag, data, rest)[1..] == Push(data) + rest;
    ParseOfPush(data, rest);
    if |data| <= 0xffff {
      assert data[|data|..] + rest == rest;
    }
  }

  lemma ContentRoundTrip(contentType: Bytes, content: Bytes, hash: Hash)
    ensures var parsed := ParseContent(Tagged(0x00, content, [0x68] + P2pkh(hash)), contentType);
            parsed == Some(Inscription(contentType, content, hash)) <==> |content| <= 0xffff
  {
    var tail := [0x68] + P2pkh(hash);
    ParseOfTagged(0x00, content, tail);
    assert tail[1..] == P2pkh(hash);
    P2pkhRoundTrip(hash);
  }

  // An inscription is read back from its script exactly when content type and content fit
  // the 16-bit push length.
  lemma InscriptionRoundTrip(i: Inscription)
    ensures ParseInscription(InscriptionScript(i)) == Some(i) <==> |i.contentType| <= 0xffff && |i.content| <= 0xffff
  {
    var s3 := Tagged(0x00, i.content, [0x68] + P2pkh(i.hash));
    var s2 := Tagged(0x51, i.contentType, s3);
    var s1 := Tagged(0x63, ORD, s2);
    assert ([0x00] + s1)[1..] == s1;
    ParseOfTagged(0x63, ORD, s2);
    ParseOfTagged(0x51, i.contentType, s3);
    ContentRoundTrip(i.contentType, i.content, i.hash);
  }
}

/**
 The OrdinalLock contract's fixed text, and hexadecimal decoding. The text is written as
 numbers, each with the count of bytes it stands for.
 */
module OrdinalLock {
  import opened Wrappers
  import opened Scripts

  const OLOCK_PREFIX: seq<(nat, nat)> := [
    (0x2097dfd76851bf465e8f715593b217714858bbe9570ff3bd5e33840a34e20ff0262102ba79df5f8ae7604a9830f03c793302, 50),
    (0x8186aede0675a16f025dc4f8be8eec0382201008ce7480da41702918d1ec8e6849ba32b4d65b1e40dc669c31a1e6306b266c, 50),
    (0x0000, 2)]

  const OLOCK_SUFFIX: seq<(nat, nat)> := [
    (0x615179547a75537a537a537a0079537a75527a527a7575615579008763567901c161517957795779210ac407f0e4bd44bfc2, 50),
    (0x07355a778b046225a7068fc59ee7eda43ad905aadbffc800206c266b30e6a1319c66dc401e5bd6b432ba49688eecd1182970, 50),
    (0x41da8074ce081059795679615679aa0079610079517f517f517f517f517f517f517f517f517f517f517f517f517f517f517f, 50),
    (0x517f517f517f517f517f517f517f517f517f517f517f517f517f517f517f517f7c7e7c7e7c7e7c7e7c7e7c7e7c7e7c7e7c7e, 50),
    (0x7c7e7c7e7c7e7c7e7c7e7c7e7c7e7c7e7c7e7c7e7c7e7c7e7c7e7c7e7c7e7c7e7c7e7c7e7c7e7c7e7c7e7c7e01007e81517a, 50),
    (0x75615779567956795679567961537956795479577995939521414136d08c5ed2bf3ba048afe6dcaebafeffffffffffffffff, 50),
    (0xffffffffffffff00517951796151795179970079009f63007952799367007968517a75517a75517a7561527a75517a517951, 50),
    (0x795296a0630079527994527a75517a6853798277527982775379012080517f517f517f517f517f517f517f517f517f517f51, 50),
    (0x7f517f517f517f517f517f517f517f517f517f517f517f517f517f517f517f517f517f517f517f517f7c7e7c7e7c7e7c7e7c, 50),
    (0x7e7c7e7c7e7c7e7c7e7c7e7c7e7c7e7c7e7c7e7c7e7c7e7c7e7c7e7c7e7c7e7c7e7c7e7c7e7c7e7c7e7c7e7c7e7c7e7c7e7c, 50),
    (0x7e7c7e01205279947f7754537993527993013051797e527e54797e58797e527e53797e52797e57797e0079517a75517a7551, 50),
    (0x7a75517a75517a75517a75517a75517a75517a75517a75517a75517a75517a756100795779ac517a75517a75517a75517a75, 50),
    (0x517a75517a75517a75517a75517a7561517a75517a756169587951797e58797eaa577961007982775179517958947f755179, 50),
    (0x0128947f77517a75517a75618777777777777777777767557951876351795779a9876957795779ac77777777777777776700, 50),
    (0x6868, 2)]

  function HexDigit(c: char): Option<Byte> {
    if '0' <= c <= '9' then Some((c - '0') as int)
    else if 'a' <= c <= 'f' then Some(10 + (c - 'a') as int)
    else if 'A' <= c <= 'F' then Some(10 + (c - 'A') as int)
    else None
  }

  function HexDecode(text: string): Option<Bytes> {
    if text == "" then Some([])
    else if |text| == 1 then None
    else
      match (HexDigit(text[0]), HexDigit(text[1]), HexDecode(text[2..]))
      case (Some(high), Some(low), Some(rest)) => Some([16 * high + low] + rest)
      case _ => None
  }

  predicate IsHex(text: string) {
    |text| % 2 == 0 && forall i :: 0 <= i < |text| ==> HexDigit(text[i]).Some?
  }

  lemma {:induction false} DecodesIffHex(text: string)
    ensures HexDecode(text).Some? <==> IsHex(text)
  {
    if |text| <= 1 {
    } else {
      DecodesIffHex(text[2..]);
      if IsHex(text[2..]) && HexDigit(text[0]).Some? && HexDigit(text[1]).Some? {
        forall i | 0 <= i < |text| ensures HexDigit(text[i]).Some? {
          assert i >= 2 ==> text[i] == text[2..][i - 2];
        }
      }
    }
  }

  lemma {:induction false} HexLength(text: string)
    ensures var decoded := HexDecode(text);
            decoded.Some? ==> 2 * |decoded.value| == |text|
  {
    if |text| <= 1 {
    } else {
      HexLength(text[2..]);
    }
  }

  // The text of some bytes, two digits for each, the higher first; `a` is the letter for ten.
  function Hex(b: Bytes, a: char): string
    requires a in {'a', 'A'}
  {
    if b == [] then "" else [Digit(b[0] / 16, a), Digit(b[0] % 16, a)] + Hex(b[1..], a)
  }

  function Digit(d: nat, a: char): (c: char)
    requires d < 16 && a in {'a', 'A'}
    ensures HexDigit(c) == Some(d)
  {
    if d < 10 then '0' + d as char else a + (d - 10) as char
  }

  // Bytes are read back from their text, in small letters or capitals.
  lemma {:induction false} HexRoundTrip(b: Bytes, a: char)
    requires a in {'a', 'A'}
    ensures HexDecode(Hex(b, a)) == Some(b)
  {
    if b == [] {
    } else {
      var text := Hex(b, a);
      HexRoundTrip(b[1..], a);
      assert text[0] == Digit(b[0] / 16, a) && text[1] == Digit(b[0] % 16, a) && text[2..] == Hex(b[1..], a);
      assert b == [16 * (b[0] / 16) + b[0] % 16] + b[1..];
    }
  }

  // ---------- The fixed text ----------

  function HexText(n: nat, digits: nat): (text: string)
    ensures |text| == digits && forall i :: 0 <= i < digits ==> HexDigit(text[i]).Some?
    decreases digits
  {
    if digits == 0 then "" else HexText(n / 16, digits - 1) + [Digit(n % 16, 'a')]
  }

  function Joined(pieces: seq<(nat, nat)>): (text: string)
    ensures IsHex(text)
  {
    if pieces == [] then "" else HexText(pieces[0].0, 2 * pieces[0].1) + Joined(pieces[1..])
  }

  function BeBytes(n: nat, k: nat): (b: Bytes)
    ensures |b| == k
    decreases k
  {
    if k == 0 then [] else BeBytes(n / 256, k - 1) + [n % 256]
  }

  // The text of a number is that of its bytes, the highest first.
  lemma {:induction false} TextOfNumber(n: nat, k: nat)
    ensures HexText(n, 2 * k) == Hex(BeBytes(n, k), 'a')
    decreases k
  {
    if k == 0 {
    } else {
      TextOfNumber(n / 256, k - 1);
      assert n / 16 / 16 == n / 256 && n / 16 % 16 == n % 256 / 16 && n % 16 == n % 256 % 16;
      HexOfLast(BeBytes(n / 256, k - 1), n % 256);
      assert HexText(n, 2 * k) == HexText(n / 16, 2 * k - 1) + [Digit(n % 16, 'a')];
      assert HexText(n / 16, 2 * k - 1) == HexText(n / 256, 2 * (k - 1)) + [Digit(n / 16 % 16, 'a')];
    }
  }

  lemma {:induction false} HexOfLast(b: Bytes, last: Byte)
    ensures Hex(b + [last], 'a') == Hex(b, 'a') + [Digit(last / 16, 'a'), Digit(last % 16, 'a')]
  {
    if b == [] {
    } else {
      assert (b + [last])[1..] == b[1..] + [last];
      HexOfLast(b[1..], last);
    }
  }

  // All pieces but the last stand for 50 bytes, and all together for `size`.
  predicate Fifties(pieces: seq<(nat, nat)>, size: nat) {
    && pieces != [] && (forall i :: 0 <= i < |pieces| - 1 ==> pieces[i].1 == 50)
    && size == 50 * (|pieces| - 1) + pieces[|pieces| - 1].1
  }

  lemma TableSizes()
    ensures Fifties(OLOCK_PREFIX, 102) && Fifties(OLOCK_SUFFIX, 702)
  {
  }

  lemma {:induction false} JoinedLength(pieces: seq<(nat, nat)>, size: nat)
    requires Fifties(pieces, size)
    ensures |Joined(pieces)| == 2 * size
  {
    if |pieces| == 1 {
      assert Joined(pieces[1..]) == "";
    } else {
      JoinedLength(pieces[1..], size - 50);
    }
  }

  lemma TextDecodes(pieces: seq<(nat, nat)>, size: nat)
    requires Fifties(pieces, size)
    ensures var decoded := HexDecode(Joined(pieces));
            decoded.Some? && |decoded.value| == size
  {
    DecodesIffHex(Joined(pieces));
    HexLength(Joined(pieces));
    JoinedLength(pieces, size);
  }
}

/**
 The content of a token transfer inscription: a JSON object of four string fields, put together
 without escaping, and a reader for such objects.
 */
module TransferJson {
  import opened Wrappers
  import opened Text

  function TransferText(ticker: string, amount: string, protocol: string): string {
    if protocol == "bsv-21" || protocol == "bsv21"
    then "{" + "\"p\":\"bsv-21\"" + "," + "\"op\":\"transfer\"" + "," + ("\"id\":\"" + ticker + "\"") +
         "," + ("\"amt\":\"" + amount + "\"") + "}"
    else "{" + "\"p\":\"bsv-20\"" + "," + "\"op\":\"transfer\"" + "," + ("\"tick\":\"" + ticker + "\"") +
         "," + ("\"amt\":\"" + amount + "\"") + "}"
  }

  function TransferType(protocol: string): string {
    if protocol == "bsv-21" || protocol == "bsv21" then "application/bsv-21" else "application/bsv-20"
  }

  // ---------- The reader ----------

  // Characters that stand for themselves in a JSON string.
  predicate Plain(text: string) {
    forall i :: 0 <= i < |text| ==> text[i] != '"' && text[i] != '\\' && text[i] >= ' '
  }

  // A string in quotation marks, without escapes, and what follows it.
  function ReadString(s: string): (read: Option<(string, string)>)
    ensures read.Some? ==> |read.value.1| < |s|
  {
    if s == "" || s[0] != '"' then None
    else
      var rest := s[1..];
      var k := IndexOf(rest, '"');
      if k < |rest| && Plain(rest[..k]) then Some((rest[..k], rest[k + 1..])) else None
  }

  // A name and a value with a colon between them, and what follows.
  function ReadPair(s: string): (read: Option<((string, string), string)>)
    ensures read.Some? ==> |read.value.1| < |s|
  {
    match ReadString(s)
    case None => None
    case Some((name, rest)) =>
      if rest == "" || rest[0] != ':' then None
      else
        match ReadString(rest[1..])
        case None => None
        case Some((value, rest)) => Some(((name, value), rest))
  }

  // Pairs with commas between them up to the closing brace, after which nothing may follow.
  function ReadPairs(s: string): Option<seq<(string, string)>>
    decreases |s|
  {
    match ReadPair(s)
    case None => None
    case Some((pair, rest)) =>
      if rest == "}" then Some([pair])
      else if rest == "" || rest[0] != ',' then None
      else
        match ReadPairs(rest[1..])
        case None => None
        case Some(pairs) => Some([pair] + pairs)
  }

  function ReadObject(s: string): Option<seq<(string, string)>> {
    if s == "" || s[0] != '{' then None else ReadPairs(s[1..])
  }

  // ---------- The text reads back ----------

  function Quoted(text: string): string {
    ['"'] + text + ['"']
  }

  function Pair(name: string, value: string): string {
    Quoted(name) + [':'] + Quoted(value)
  }

  lemma ReadOfQuoted(text: string, rest: string)
    ensures var read := ReadString(Quoted(text) + rest);
            if Plain(text) then read == Some((text, rest)) else read.Some? ==> read.value.0 != text
  {
    var s := Quoted(text) + rest;
    assert s[1..] == text + ['"'] + rest;
    if '"' !in text {
      IndexOfFirst(text, '"', rest);
      assert s[1..][..|text|] == text && s[1..][|text| + 1..] == rest;
    } else {
      var k :| 0 <= k < |text| && text[k] == '"';
      assert s[1..][k] == '"' && IndexOf(s[1..], '"') <= k;
    }
  }

  lemma PairInParts(name: string, value: string, rest: string)
    ensures var after := [':'] + (Quoted(value) + rest);
            Pair(name, value) + rest == Quoted(name) + after && after[1..] == Quoted(value) + rest
  {
  }

  lemma ReadOfPair(name: string, value: string, rest: string)
    requires Plain(name)
    ensures var read := ReadPair(Pair(name, value) + rest);
            if Plain(value) then read == Some(((name, value), rest)) else read.Some? ==> read.value.0.1 != value
  {
    PairInParts(name, value, rest);
    ReadOfQuoted(name, [':'] + (Quoted(value) + rest));
    ReadOfQuoted(value, rest);
  }

  lemma ReadOfPairs(name: string, value: string, rest: string)
    requires Plain(name)
    ensures var read := ReadPairs(Pair(name, value) + ([','] + rest));
            if !Plain(value) then read.Some? ==> read.value[0].1 != value
            else read == match ReadPairs(rest) case None => None case Some(pairs) => Some([(name, value)] + pairs)
  {
    ReadOfPair(name, value, [','] + rest);
    assert ([','] + rest)[0] == ',' && ([','] + rest)[1..] == rest;
  }

  lemma ReadOfLastPair(name: string, value: string)
    requires Plain(name) && Plain(value)
    ensures ReadPairs(Pair(name, value) + "}") == Some([(name, value)])
  {
    ReadOfPair(name, value, "}");
  }

  type Pairs = seq<(string, string)>

  function FieldsFrom(pairs: Pairs): string
    requires pairs != []
  {
    Pair(pairs[0].0, pairs[0].1) + if |pairs| == 1 then "}" else [','] + FieldsFrom(pairs[1..])
  }

  predicate NamesPlain(pairs: Pairs) {
    pairs == [] || (Plain(pairs[0].0) && NamesPlain(pairs[1..]))
  }

  predicate ValuesPlain(pairs: Pairs) {
    pairs == [] || (Plain(pairs[0].1) && ValuesPlain(pairs[1..]))
  }

  // Pairs with plain names read back exactly if all values are plain.
  lemma {:induction false} ReadOfFields(pairs: Pairs)
    requires pairs != [] && NamesPlain(pairs)
    ensures ReadPairs(FieldsFrom(pairs)) == Some(pairs) <==> ValuesPlain(pairs)
    decreases pairs
  {
    var (name, value) := pairs[0];
    if |pairs| == 1 {
      assert pairs == [(name, value)];
      ReadOfPair(name, value, "}");
    } else {
      ReadOfFields(pairs[1..]);
      ReadOfPairs(name, value, FieldsFrom(pairs[1..]));
      assert pairs == [(name, value)] + pairs[1..];
    }
  }

  function TransferPairs(ticker: string, amount: string, is21: bool): Pairs {
    [("p", if is21 then "bsv-21" else "bsv-20"), ("op", "transfer"),
     (if is21 then "id" else "tick", ticker), ("amt", amount)]
  }

  lemma Regroup(a: string, b: string, c: string, d: string)
    ensures ("{" + a + "," + b + "," + c + "," + d + "}")[1..]
         == a + ([','] + (b + ([','] + (c + ([','] + (d + "}"))))))
  {
  }

  lemma FieldsOfFour(pairs: Pairs)
    requires |pairs| == 4
    ensures FieldsFrom(pairs) == Pair(pairs[0].0, pairs[0].1) + ([','] + (Pair(pairs[1].0, pairs[1].1) + ([','] +
                                   (Pair(pairs[2].0, pairs[2].1) + ([','] + (Pair(pairs[3].0, pairs[3].1) + "}"))))))
  {
    assert pairs[1..][1..] == pairs[2..] && pairs[2..][1..] == pairs[3..];
    assert FieldsFrom(pairs[3..]) == Pair(pairs[3].0, pairs[3].1) + "}";
    assert FieldsFrom(pairs[2..]) == Pair(pairs[2].0, pairs[2].1) + ([','] + FieldsFrom(pairs[3..]));
    assert FieldsFrom(pairs[1..]) == Pair(pairs[1].0, pairs[1].1) + ([','] + FieldsFrom(pairs[2..]));
  }

  lemma PairOfText(head: string, name: string, value: string)
    requires head == Quoted(name) + ":\""
    ensures head + value + "\"" == Pair(name, value)
  {
  }

  lemma FixedPairs()
    ensures "\"p\":\"bsv-21\"" == Pair("p", "bsv-21") && "\"p\":\"bsv-20\"" == Pair("p", "bsv-20")
    ensures "\"op\":\"transfer\"" == Pair("op", "transfer")
    ensures "\"id\":\"" == Quoted("id") + ":\"" && "\"tick\":\"" == Quoted("tick") + ":\""
    ensures "\"amt\":\"" == Quoted("amt") + ":\""
  {
  }

  lemma TextOfFields(ticker: string, amount: string, protocol: string)
    ensures var text := TransferText(ticker, amount, protocol);
            && text[0] == '{'
            && text[1..] == FieldsFrom(TransferPairs(ticker, amount, protocol in {"bsv-21", "bsv21"}))
  {
    var is21 := protocol in {"bsv-21", "bsv21"};
    var key := if is21 then "id" else "tick";
    FixedPairs();
    PairOfText(if is21 then "\"id\":\"" else "\"tick\":\"", key, ticker);
    PairOfText("\"amt\":\"", "amt", amount);
    FieldsOfFour(TransferPairs(ticker, amount, is21));
    Regroup(Pair("p", if is21 then "bsv-21" else "bsv-20"), Pair("op", "transfer"), Pair(key, ticker), Pair("amt", amount));
  }

  lemma FixedPartsArePlain(ticker: string, amount: string, is21: bool)
    requires Plain(amount)
    ensures var pairs := TransferPairs(ticker, amount, is21);
            NamesPlain(pairs) && (ValuesPlain(pairs) <==> Plain(ticker))
  {
    var pairs := TransferPairs(ticker, amount, is21);
    assert pairs[1..] == [pairs[1], pairs[2], pairs[3]] && pairs[2..] == [pairs[2], pairs[3]] && pairs[3..] == [pairs[3]];
    assert pairs[1..][1..] == pairs[2..] && pairs[2..][1..] == pairs[3..] && pairs[3..][1..] == [];
    assert NamesPlain(pairs[3..]) && ValuesPlain(pairs[3..]);
    assert NamesPlain(pairs[2..]) && (ValuesPlain(pairs[2..]) <==> Plain(ticker));
    assert NamesPlain(pairs[1..]) && (ValuesPlain(pairs[1..]) <==> Plain(ticker));
  }

  // The text is a JSON object that names protocol, operation, token and amount, in this order,
  // exactly if the ticker needs no escaping.
  lemma TransferReadsBackIff(ticker: string, amount: string, protocol: string)
    requires Plain(amount)
    ensures var is21 := protocol in {"bsv-21", "bsv21"};
            var read := ReadObject(TransferText(ticker, amount, protocol));
            var pairs := [("p", if is21 then "bsv-21" else "bsv-20"), ("op", "transfer"),
                          (if is21 then "id" else "tick", ticker), ("amt", amount)];
            read == Some(pairs) <==> Plain(ticker)
  {
    var is21 := protocol in {"bsv-21", "bsv21"};
    TextOfFields(ticker, amount, protocol);
    FixedPartsArePlain(ticker, amount, is21);
    ReadOfFields(TransferPairs(ticker, amount, is21));
  }
}

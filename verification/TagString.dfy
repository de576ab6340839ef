/**
 The tag string of a derived key: three fields, each printed after its length. Strings stand
 for byte strings, one character a byte.
 */
module TagString {
  import opened Wrappers
  import opened Text
  import Decimal

  datatype Tag = Tag(labelText: string, id: string, domain: string)

  function Field(text: string): string {
    Decimal.Print(|text|) + ":" + text
  }

  function TagString(labelText: string, id: string, domain: Option<string>): string {
    Field(labelText) + "|" + Field(id) + "|" + Field(if domain.Some? then domain.value else "")
  }

  // Reads one field: digits up to the first colon, then as many bytes as they say.
  function ParseField(s: string): Option<(string, string)> {
    var k := IndexOf(s, ':');
    if k == |s| || k == 0 || !Decimal.AllDigits(s[..k]) then None
    else
      var n := Decimal.Value(s[..k]);
      var rest := s[k + 1..];
      if n > |rest| then None else Some((rest[..n], rest[n..]))
  }

  function ParseTag(s: string): Option<Tag> {
    match ParseField(s)
    case None => None
    case Some((labelText, s1)) =>
      if s1 == "" || s1[0] != '|' then None
      else
        match ParseField(s1[1..])
        case None => None
        case Some((id, s2)) =>
          if s2 == "" || s2[0] != '|' then None
          else
            match ParseField(s2[1..])
            case None => None
            case Some((domain, s3)) => if s3 == "" then Some(Tag(labelText, id, domain)) else None
  }

  lemma ParseOfField(text: string, rest: string)
    ensures ParseField(Field(text) + rest) == Some((text, rest))
  {
    var digits := Decimal.Print(|text|);
    var s := Field(text) + rest;
    assert ':' !in digits;
    assert s == digits + [':'] + (text + rest);
    IndexOfFirst(digits, ':', text + rest);
    assert s[..|digits|] == digits && s[|digits| + 1..] == text + rest;
    Decimal.ValueOfPrint(|text|);
    assert (text + rest)[..|text|] == text && (text + rest)[|text|..] == rest;
  }

  // Whatever digits, colons and bars the fields contain, the parser recovers them.
  lemma TagRoundTrip(labelText: string, id: string, domain: Option<string>)
    ensures ParseTag(TagString(labelText, id, domain)) == Some(Tag(labelText, id, if domain.Some? then domain.value else ""))
  {
    var d := if domain.Some? then domain.value else "";
    var s2 := "|" + Field(d);
    var s1 := "|" + (Field(id) + s2);
    assert TagString(labelText, id, domain) == Field(labelText) + s1;
    assert s1[1..] == Field(id) + s2 && s2[1..] == Field(d) == Field(d) + "";
    ParseOfField(labelText, s1);
    ParseOfField(id, s2);
    ParseOfField(d, "");
  }

  // Two tags have one string exactly when they agree in every field, a missing domain being the empty one.
  lemma TagStringInjective(a: string, b: string, c: Option<string>, a': string, b': string, c': Option<string>)
    ensures TagString(a, b, c) == TagString(a', b', c') <==>
            a == a' && b == b' &&
            (if c.Some? then c.value else "") == (if c'.Some? then c'.value else "")
  {
    TagRoundTrip(a, b, c);
    TagRoundTrip(a', b', c');
  }
}

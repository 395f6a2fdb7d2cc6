/** Text of UUIDs. */
module Uuids {

  datatype Parsed = Uuid(text: string) | Malformed

  predicate Hex(c: char) {
    '0' <= c <= '9' || 'a' <= c <= 'f'
  }

  function Lower(c: char): char {
    if 'A' <= c <= 'F' then c - 'A' + 'a' else c
  }

  /** Hexadecimal digits in lower case, hyphens dropped. */
  function Digits(s: string): (r: string)
    ensures |r| <= |s|
    ensures '-' !in r
  {
    if s == "" then ""
    else if s[0] == '-' then Digits(s[1..])
    else [Lower(s[0])] + Digits(s[1..])
  }

  function Hyphenated(d: string): string
    requires |d| == 32
  {
    d[..8] + "-" + d[8..12] + "-" + d[12..16] + "-" + d[16..20] + "-" + d[20..]
  }

  /** `str(UUID(s))`, or a ValueError. */
  function ParseUuid(s: string): Parsed {
    var d := Digits(s);
    if |d| == 32 && forall i :: 0 <= i < 32 ==> Hex(d[i]) then Uuid(Hyphenated(d)) else Malformed
  }

  /** The one spelling that `str` gives a UUID. */
  predicate Canonical(s: string) {
    ParseUuid(s) == Uuid(s)
  }

  /** Canonical text is 36 characters and never contains a colon. */
  lemma CanonicalShape(s: string)
    requires Canonical(s)
    ensures |s| == 36 && ':' !in s
  {
  }

  lemma {:induction false} DigitsOfBoth(s: string, t: string)
    ensures Digits(s + t) == Digits(s) + Digits(t)
  {
    if s == "" {
      assert s + t == t;
    } else {
      assert (s + t)[1..] == s[1..] + t;
      DigitsOfBoth(s[1..], t);
    }
  }

  /** Text without hyphens or capitals A to F is its own digits. */
  lemma {:induction false} DigitsStay(s: string)
    requires forall i :: 0 <= i < |s| ==> s[i] != '-' && !('A' <= s[i] <= 'F')
    ensures Digits(s) == s
  {
    if s != "" { DigitsStay(s[1..]); }
  }

  /** Hyphens are no digits, A to F are read in lower case, and every other character as it is. */
  lemma DigitsExactly(c: char)
    ensures Digits([c]) ==
      match c
      case '-' => ""
      case 'A' => "a"
      case 'B' => "b"
      case 'C' => "c"
      case 'D' => "d"
      case 'E' => "e"
      case 'F' => "f"
      case _ => [c]
  {
    assert [c][1..] == "";
  }

  /**
   A text is a UUID exactly when 32 hexadecimal digits are left once hyphens are dropped and A to F
   lowered; what is read is those digits, in the one spelling that reads as itself.
   */
  lemma ParsesExactly(s: string)
    ensures ParseUuid(s).Uuid? <==>
      |Digits(s)| == 32 && forall i :: 0 <= i < 32 ==> '0' <= Digits(s)[i] <= '9' || 'a' <= Digits(s)[i] <= 'f'
    ensures ParseUuid(s).Uuid? ==>
      var t := ParseUuid(s).text;
      && |t| == 36 && t[8] == t[13] == t[18] == t[23] == '-'
      && t[..8] + t[9..13] + t[14..18] + t[19..23] + t[24..] == Digits(s)
      && Canonical(t)
  {
    if ParseUuid(s).Uuid? {
      var d, t := Digits(s), ParseUuid(s).text;
      HyphensDropped(d);
      assert t == Hyphenated(d);
      assert t[..8] == d[..8] && t[9..13] == d[8..12] && t[14..18] == d[12..16] && t[19..23] == d[16..20];
      assert t[24..] == d[20..];
      assert d[..8] + d[8..12] + d[12..16] + d[16..20] + d[20..] == d;
    }
  }

  lemma HyphensDropped(d: string)
    requires |d| == 32 && forall i :: 0 <= i < 32 ==> Hex(d[i])
    ensures Digits(Hyphenated(d)) == d
  {
    hide Digits, Hex;
    var a, b, c, e, f := d[..8], d[8..12], d[12..16], d[16..20], d[20..];
    GroupAndRest(e, f);
    GroupAndRest(c, e + "-" + f);
    GroupAndRest(b, c + "-" + (e + "-" + f));
    GroupAndRest(a, b + "-" + (c + "-" + (e + "-" + f)));
    DigitsStayHex(f);
    Regrouped(a, b, c, e, f);
    assert a + (b + (c + (e + f))) == d;
  }

  lemma Regrouped(a: string, b: string, c: string, e: string, f: string)
    ensures a + "-" + b + "-" + c + "-" + e + "-" + f == a + "-" + (b + "-" + (c + "-" + (e + "-" + f)))
  {
  }

  lemma DigitsStayHex(s: string)
    requires forall i :: 0 <= i < |s| ==> Hex(s[i])
    ensures Digits(s) == s
  {
    DigitsStay(s);
  }

  lemma GroupAndRest(word: string, rest: string)
    requires forall i :: 0 <= i < |word| ==> Hex(word[i])
    ensures Digits(word + "-" + rest) == word + Digits(rest)
  {
    DigitsOfBoth(word + "-", rest);
    DigitsOfBoth(word, "-");
    DigitsStayHex(word);
    assert Digits("-") == "";
  }
}

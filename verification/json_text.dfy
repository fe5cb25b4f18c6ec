/**
  The JSON texts of the chat messages: flat objects with string members and a final integer
  timestamp (RFC 8259, sections 4, 6 and 7), as the servers print them, and the parser the
  browser applies to the object once the timestamp has been cut out.
 */
module JsonText {
  import opened Options

  // ---------------------------------------------------------------- strings

  predicate IsControl(c: char) {
    c < ' '
  }

  function HexDigit(n: nat): (c: char)
    requires n < 16
  {
    "0123456789abcdef"[n]
  }

  function HexValue(c: char): Option<nat> {
    if '0' <= c <= '9' then Some(c as int - '0' as int)
    else if 'a' <= c <= 'f' then Some(c as int - 'a' as int + 10)
    else if 'A' <= c <= 'F' then Some(c as int - 'A' as int + 10)
    else None
  }

  function UnicodeEscape(n: nat): string
    requires n < 0x10000
  {
    ['\\', 'u', HexDigit(n / 4096), HexDigit(n / 256 % 16), HexDigit(n / 16 % 16), HexDigit(n % 16)]
  }

  // The character that a backslash and this character stand for.
  function SimpleEscape(c: char): Option<char> {
    match c
    case '"' => Some('"')
    case '\\' => Some('\\')
    case '/' => Some('/')
    case 'b' => Some(8 as char)
    case 'f' => Some(12 as char)
    case 'n' => Some('\n')
    case 'r' => Some('\r')
    case 't' => Some('\t')
    case _ => None
  }

  // The character at the front of a string's text, and the rest of the text; None when no
  // character of a string can start there. Escaped surrogates are not part of this model.
  function ParseChar(t: string): (r: Option<(char, string)>)
    ensures r.Some? ==> |r.value.1| < |t|
  {
    if t == [] || t[0] == '"' || IsControl(t[0]) then None
    else if t[0] != '\\' then Some((t[0], t[1..]))
    else if |t| < 2 then None
    else if t[1] != 'u' then
      match SimpleEscape(t[1])
      case None => None
      case Some(c) => Some((c, t[2..]))
    else if |t| < 6 then None
    else
      match (HexValue(t[2]), HexValue(t[3]), HexValue(t[4]), HexValue(t[5]))
      case (Some(a), Some(b), Some(c), Some(d)) =>
        var n := 4096 * a + 256 * b + 16 * c + d;
        if 0xD800 <= n < 0xE000 || n >= 0x10000 then None else Some((n as char, t[6..]))
      case _ => None
  }

  // A string's text after its opening quote: the string, and what follows the closing quote.
  function ParseChars(t: string): (r: Option<(string, string)>)
    ensures r.Some? ==> |r.value.1| < |t|
    decreases |t|
  {
    if t == [] then None
    else if t[0] == '"' then Some(("", t[1..]))
    else
      match ParseChar(t)
      case None => None
      case Some((c, rest)) =>
        match ParseChars(rest)
        case None => None
        case Some((s, after)) => Some(([c] + s, after))
  }

  // An encoder chooses one of the spellings of RFC 8259, section 7, for each character.
  ghost predicate Spells(t: string, c: char) {
    || (t == [c] && c != '"' && c != '\\' && !IsControl(c))
    || (|t| == 2 && t[0] == '\\' && SimpleEscape(t[1]) == Some(c))
    || (c as int < 0xD800 && t == UnicodeEscape(c as int))
  }

  ghost predicate ValidEscaper(esc: char -> string) {
    forall c :: Spells(esc(c), c)
  }

  function Escape(esc: char -> string, s: string): string {
    if s == [] then [] else esc(s[0]) + Escape(esc, s[1..])
  }

  function Quote(esc: char -> string, s: string): string {
    "\"" + Escape(esc, s) + "\""
  }

  // encoding/json: also escapes the characters that matter in HTML, and two line separators.
  function GoEscaper(c: char): string {
    if c == '"' then "\\\"" else if c == '\\' then "\\\\"
    else if c == '\n' then "\\n" else if c == '\r' then "\\r" else if c == '\t' then "\\t"
    else if IsControl(c) || c == '<' || c == '>' || c == '&' || c as int == 0x2028 || c as int == 0x2029
    then UnicodeEscape(c as int)
    else [c]
  }

  // nlohmann::json::dump; serde_json escapes alike.
  function CppEscaper(c: char): string {
    if c == '"' then "\\\"" else if c == '\\' then "\\\\"
    else if c as int == 8 then "\\b" else if c as int == 12 then "\\f"
    else if c == '\n' then "\\n" else if c == '\r' then "\\r" else if c == '\t' then "\\t"
    else if IsControl(c) then UnicodeEscape(c as int)
    else [c]
  }

  lemma UnicodeSpells(c: char)
    requires c as int < 0xD800
    ensures Spells(UnicodeEscape(c as int), c)
  {
    hide UnicodeEscape, SimpleEscape;
  }

  lemma GoSpells(c: char)
    ensures Spells(GoEscaper(c), c)
  {
    hide UnicodeEscape;
    if c as int < 0xD800 {
      UnicodeSpells(c);
    }
  }

  lemma CppSpells(c: char)
    ensures Spells(CppEscaper(c), c)
  {
    hide UnicodeEscape;
    if c as int < 0xD800 {
      UnicodeSpells(c);
    }
  }

  lemma EscapersValid()
    ensures ValidEscaper(GoEscaper)
    ensures ValidEscaper(CppEscaper)
  {
    hide Spells, GoEscaper, CppEscaper;
    forall c: char
      ensures Spells(GoEscaper(c), c) && Spells(CppEscaper(c), c)
    {
      GoSpells(c);
      CppSpells(c);
    }
  }

  // The characters that have a one-letter escape in Go 1.19, and in C++ and Rust.
  predicate GoShort(c: char) {
    c == '"' || c == '\\' || c == '\n' || c == '\r' || c == '\t'
  }

  predicate CppShort(c: char) {
    GoShort(c) || c as int == 8 || c as int == 12
  }

  /**
    Which spelling each encoder chooses: with a letter, by its number, or, for all but a few
    characters, as it is. Go never prints an angle bracket or an ampersand.
   */
  lemma EscapersChoose(c: char)
    ensures |GoEscaper(c)| == 2 <==> GoShort(c)
    ensures |CppEscaper(c)| == 2 <==> CppShort(c)
    ensures GoEscaper(c) == [c] <==>
              !IsControl(c) && c !in "\"\\<>&" && c as int != 0x2028 && c as int != 0x2029
    ensures CppEscaper(c) == [c] <==> !IsControl(c) && c != '"' && c != '\\'
    ensures c in "<>&" ==> forall i :: 0 <= i < |GoEscaper(c)| ==> GoEscaper(c)[i] !in "<>&"
  {
    hide HexDigit;
    if c in "<>&" {
      HexDigits(c as int);
    }
  }

  lemma HexDigits(n: nat)
    requires n < 0x10000
    ensures forall i :: 0 <= i < 6 ==> UnicodeEscape(n)[i] !in "<>&"
  {
  }

  lemma HexRoundTrip(n: nat)
    requires n < 16
    ensures HexValue(HexDigit(n)) == Some(n)
  {
  }

  lemma ParseUnicode(n: nat, rest: string)
    requires n < 0xD800
    ensures ParseChar(UnicodeEscape(n) + rest) == Some((n as char, rest))
  {
    var t := UnicodeEscape(n) + rest;
    HexRoundTrip(n / 4096);
    HexRoundTrip(n / 256 % 16);
    HexRoundTrip(n / 16 % 16);
    HexRoundTrip(n % 16);
    hide HexValue, HexDigit, SimpleEscape;
    HexSplit(n);
    assert t[0] == '\\' && t[1] == 'u' && t[6..] == rest;
    assert t[2] == HexDigit(n / 4096) && t[3] == HexDigit(n / 256 % 16);
    assert t[4] == HexDigit(n / 16 % 16) && t[5] == HexDigit(n % 16);
  }

  lemma HexSplit(n: nat)
    ensures 4096 * (n / 4096) + 256 * (n / 256 % 16) + 16 * (n / 16 % 16) + n % 16 == n
  {
    DivDiv(n, 16);
    DivDiv(n, 256);
    var a, b := n / 16, n / 256;
    assert n == 16 * a + n % 16;
    assert a == 16 * b + a % 16;
    assert b == 16 * (n / 4096) + b % 16;
  }

  lemma DivDiv(n: nat, k: nat)
    requires k == 16 || k == 256
    ensures n / k / 16 == n / (k * 16)
  {
  }

  lemma ParseSpelled(t: string, c: char, rest: string)
    requires Spells(t, c)
    ensures t != [] && t[0] != '"'
    ensures ParseChar(t + rest) == Some((c, rest))
  {
    if c as int < 0xD800 && t == UnicodeEscape(c as int) {
      ParseUnicode(c as int, rest);
    } else if |t| == 2 {
      assert (t + rest)[2..] == rest;
    } else {
      assert (t + rest)[1..] == rest;
    }
  }

  /** Every string survives being escaped and parsed, whatever follows its closing quote. */
  lemma {:induction false} StringRoundTrip(esc: char -> string, s: string, rest: string)
    requires ValidEscaper(esc)
    ensures ParseChars(Escape(esc, s) + "\"" + rest) == Some((s, rest))
  {
    if s == [] {
      assert Escape(esc, s) + "\"" + rest == "\"" + rest;
    } else {
      var tail := Escape(esc, s[1..]) + "\"" + rest;
      assert Escape(esc, s) + "\"" + rest == esc(s[0]) + tail;
      assert Spells(esc(s[0]), s[0]);
      ParseSpelled(esc(s[0]), s[0], tail);
      StringRoundTrip(esc, s[1..], rest);
      assert s == [s[0]] + s[1..];
    }
  }

  /** A quote in a string's text is always preceded by a backslash. */
  lemma {:induction false} QuotesAreEscaped(esc: char -> string, s: string, j: nat)
    requires ValidEscaper(esc)
    requires j < |Escape(esc, s)| && Escape(esc, s)[j] == '"'
    ensures j > 0 && Escape(esc, s)[j - 1] == '\\'
  {
    var t := esc(s[0]);
    assert Spells(t, s[0]);
    if j >= |t| {
      QuotesAreEscaped(esc, s[1..], j - |t|);
    } else if |t| == 6 {
      HexDigitsAreNoQuotes(s[0] as int);
    }
  }

  lemma HexDigitsAreNoQuotes(n: nat)
    requires n < 0x10000
    ensures forall i :: 0 <= i < 6 ==> UnicodeEscape(n)[i] != '"'
  {
  }

  // ---------------------------------------------------------------- numbers

  predicate IsDigit(c: char) {
    '0' <= c <= '9'
  }

  function DecNat(n: nat): (t: string)
    ensures t != [] && forall i :: 0 <= i < |t| ==> IsDigit(t[i])
  {
    if n < 10 then [('0' as int + n) as char]
    else DecNat(n / 10) + [('0' as int + n % 10) as char]
  }

  function Dec(n: int): string {
    if n < 0 then "-" + DecNat(-n) else DecNat(n)
  }

  // The integer that a string of digits denotes.
  function DigitsValue(t: string): nat
    requires forall i :: 0 <= i < |t| ==> IsDigit(t[i])
  {
    if t == [] then 0
    else
      assert IsDigit(t[|t| - 1]);
      10 * DigitsValue(t[..|t| - 1]) + (t[|t| - 1] as int - '0' as int)
  }

  lemma {:induction false} DecRoundTrip(n: nat)
    ensures DigitsValue(DecNat(n)) == n
  {
    if n >= 10 {
      DecRoundTrip(n / 10);
      assert DecNat(n)[..|DecNat(n)| - 1] == DecNat(n / 10);
    } else {
      assert DecNat(n)[..0] == [];
    }
  }

  lemma {:induction false} NoLeadingZero(n: nat)
    ensures DecNat(n)[0] == '0' <==> n == 0
  {
    if n >= 10 {
      NoLeadingZero(n / 10);
    }
  }

  /**
    An integer is printed as RFC 8259, section 6, wants it: a minus sign exactly if it is negative,
    then digits that denote its absolute value, without a leading zero unless it is zero.
   */
  lemma DecIs(n: int)
    ensures var t := Dec(n);
      var digits := if n < 0 then t[1..] else t;
      && (t[0] == '-' <==> n < 0)
      && digits != "" && (forall i :: 0 <= i < |digits| ==> IsDigit(digits[i]))
      && DigitsValue(digits) == (if n < 0 then -n else n)
      && (digits[0] == '0' <==> n == 0)
  {
    hide DecNat, DigitsValue;
    var m: nat := if n < 0 then -n else n;
    DecRoundTrip(m);
    NoLeadingZero(m);
    assert n < 0 ==> Dec(n)[1..] == DecNat(m);
    assert IsDigit(DecNat(m)[0]);
  }

  // ---------------------------------------------------------------- objects

  type Field = (string, string)

  function Member(esc: char -> string, f: Field): string {
    Quote(esc, f.0) + ":" + Quote(esc, f.1)
  }

  function Join(esc: char -> string, fields: seq<Field>): string {
    if fields == [] then ""
    else if |fields| == 1 then Member(esc, fields[0])
    else Member(esc, fields[0]) + "," + Join(esc, fields[1..])
  }

  // An object with these string members, and then the timestamp unless it is omitted.
  function Encode(esc: char -> string, fields: seq<Field>, timestamp: Option<int>): string {
    match timestamp
    case None => "{" + Join(esc, fields) + "}"
    case Some(ts) =>
      "{" + Join(esc, fields) + (if fields == [] then "" else ",") + "\"timestamp\":" + Dec(ts) + "}"
  }

  function ToMap(fields: seq<Field>): map<string, string> {
    if fields == [] then map[] else map[fields[0].0 := fields[0].1] + ToMap(fields[1..])
  }

  predicate IsJsonSpace(c: char) {
    c == ' ' || c == '\t' || c == '\n' || c == '\r'
  }

  function SkipSpace(t: string): (r: string)
    ensures |r| <= |t|
  {
    if t != [] && IsJsonSpace(t[0]) then SkipSpace(t[1..]) else t
  }

  // One member of an object, from its opening quote; the rest starts after its value.
  function ParseMember(t: string): (r: Option<(Field, string)>)
    ensures r.Some? ==> |r.value.1| < |t|
  {
    if t == [] || t[0] != '"' then None
    else
      match ParseChars(t[1..])
      case None => None
      case Some((key, t1)) =>
        var t2 := SkipSpace(t1);
        if t2 == [] || t2[0] != ':' then None
        else
          var t3 := SkipSpace(t2[1..]);
          if t3 == [] || t3[0] != '"' then None
          else
            match ParseChars(t3[1..])
            case None => None
            case Some((value, t4)) => Some(((key, value), SkipSpace(t4)))
  }

  // The members from the first one on; a later member replaces an earlier one of the same name.
  function ParseMembers(t: string, sofar: map<string, string>): Option<map<string, string>>
    decreases |t|
  {
    match ParseMember(t)
    case None => None
    case Some((f, rest)) =>
      if rest == [] then None
      else if rest[0] == ',' then ParseMembers(SkipSpace(rest[1..]), sofar[f.0 := f.1])
      else if rest[0] == '}' && SkipSpace(rest[1..]) == [] then Some(sofar[f.0 := f.1])
      else None
  }

  // JSON.parse on a flat object whose members are strings.
  function ParseObject(t: string): Option<map<string, string>> {
    var t1 := SkipSpace(t);
    if t1 == [] || t1[0] != '{' then None
    else
      var t2 := SkipSpace(t1[1..]);
      if t2 != [] && t2[0] == '}' then (if SkipSpace(t2[1..]) == [] then Some(map[]) else None)
      else ParseMembers(t2, map[])
  }

  lemma MemberRoundTrip(esc: char -> string, f: Field, rest: string)
    requires ValidEscaper(esc) && rest != [] && !IsJsonSpace(rest[0])
    ensures ParseMember(Member(esc, f) + rest) == Some((f, rest))
  {
    hide ParseChars, Escape, ValidEscaper;
    var chars := Escape(esc, f.1) + "\"" + rest;
    var tail := "\"" + chars;
    StringRoundTrip(esc, f.0, ":" + tail);
    StringRoundTrip(esc, f.1, rest);
    assert Member(esc, f) + rest == "\"" + (Escape(esc, f.0) + "\"" + (":" + tail));
    ParseColon(Escape(esc, f.0) + "\"" + (":" + tail), f.0, chars, f.1, rest);
  }

  lemma ParseColon(t: string, key: string, chars: string, value: string, rest: string)
    requires ParseChars(t) == Some((key, ":" + ("\"" + chars))) && ParseChars(chars) == Some((value, rest))
    requires rest != [] && !IsJsonSpace(rest[0])
    ensures ParseMember("\"" + t) == Some(((key, value), rest))
  {
    hide ParseChars;
    var tail := "\"" + chars;
    assert ("\"" + t)[1..] == t && (":" + tail)[1..] == tail && tail[1..] == chars;
  }

  lemma JoinStarts(esc: char -> string, fields: seq<Field>)
    requires fields != []
    ensures Join(esc, fields) != [] && Join(esc, fields)[0] == '"'
  {
  }

  lemma ParseComma(t: string, f: Field, more: string, sofar: map<string, string>)
    requires ParseMember(t) == Some((f, "," + more)) && more != [] && !IsJsonSpace(more[0])
    ensures ParseMembers(t, sofar) == ParseMembers(more, sofar[f.0 := f.1])
  {
    hide ParseMember;
    assert ("," + more)[1..] == more;
    assert SkipSpace(more) == more;
  }

  lemma ParseBrace(t: string, f: Field, sofar: map<string, string>)
    requires ParseMember(t) == Some((f, "}"))
    ensures ParseMembers(t, sofar) == Some(sofar[f.0 := f.1])
  {
    hide ParseMember;
  }

  lemma {:induction false} MembersRoundTrip(esc: char -> string, fields: seq<Field>, sofar: map<string, string>)
    requires ValidEscaper(esc) && fields != []
    ensures ParseMembers(Join(esc, fields) + "}", sofar) == Some(sofar + ToMap(fields))
    decreases |fields|
  {
    hide ParseMember, Member, ValidEscaper, ParseMembers;
    var f := fields[0];
    if |fields| == 1 {
      MemberRoundTrip(esc, f, "}");
      ParseBrace(Join(esc, fields) + "}", f, sofar);
      assert fields[1..] == [];
    } else {
      var more := Join(esc, fields[1..]) + "}";
      assert Join(esc, fields) + "}" == Member(esc, f) + ("," + more);
      JoinStarts(esc, fields[1..]);
      MemberRoundTrip(esc, f, "," + more);
      ParseComma(Join(esc, fields) + "}", f, more, sofar);
      MembersRoundTrip(esc, fields[1..], sofar[f.0 := f.1]);
    }
    AddMember(sofar, f, ToMap(fields[1..]));
  }

  lemma AddMember(sofar: map<string, string>, f: Field, rest: map<string, string>)
    ensures sofar[f.0 := f.1] + rest == sofar + (map[f.0 := f.1] + rest)
    ensures sofar[f.0 := f.1] + map[] == sofar[f.0 := f.1]
  {
  }

  /** Every flat object of strings survives being printed and parsed. */
  lemma ObjectRoundTrip(esc: char -> string, fields: seq<Field>)
    requires ValidEscaper(esc)
    ensures ParseObject(Encode(esc, fields, None)) == Some(ToMap(fields))
  {
    hide ParseMembers, ValidEscaper;
    var t := Encode(esc, fields, None);
    if fields == [] {
      assert t == "{}" && t[1..] == "}";
    } else {
      JoinStarts(esc, fields);
      MembersRoundTrip(esc, fields, map[]);
      ParseOpens(Join(esc, fields) + "}");
      assert t == "{" + (Join(esc, fields) + "}");
      assert map[] + ToMap(fields) == ToMap(fields);
    }
  }

  lemma ParseOpens(t: string)
    requires t != [] && t[0] == '"'
    ensures ParseObject("{" + t) == ParseMembers(t, map[])
  {
    hide ParseMembers;
    assert ("{" + t)[1..] == t;
  }
}

/**
  The grammar of flat JSON objects of strings (RFC 8259, sections 2, 4 and 7), written without a
  parser, and that the parser of JsonText accepts exactly the texts of the grammar.
 */
module JsonGrammar {
  import opened JsonText
  import opened Options

  // Space, tab, line feed and carriage return, any number of them.
  predicate Blank(t: string) {
    forall i :: 0 <= i < |t| ==> t[i] in " \t\n\r"
  }

  // The letter that follows the backslash in the short escape of a character.
  predicate ShortEscape(letter: char, c: char) {
    || (letter == c && c in "\"\\/")
    || (letter == 'b' && c as int == 0x08) || (letter == 'f' && c as int == 0x0C)
    || (letter == 'n' && c as int == 0x0A) || (letter == 'r' && c as int == 0x0D) || (letter == 't' && c as int == 0x09)
  }

  // A hexadecimal digit, of either case, and its value.
  predicate Hex(d: char, v: nat) {
    v < 16 && (d == "0123456789abcdef"[v] || d == "0123456789ABCDEF"[v])
  }

  ghost predicate HexText(a: char, b: char, c: char, d: char, n: nat) {
    exists x: nat, y: nat, z: nat, w: nat ::
      Hex(a, x) && Hex(b, y) && Hex(c, z) && Hex(d, w) && n == 4096 * x + 256 * y + 16 * z + w
  }

  // A character as itself, after a backslash, or by its number.
  ghost predicate CharText(t: string, c: char) {
    || (t == [c] && c != '"' && c != '\\' && c as int >= 0x20)
    || (|t| == 2 && t[0] == '\\' && ShortEscape(t[1], c))
    || (|t| == 6 && t[0] == '\\' && t[1] == 'u' && HexText(t[2], t[3], t[4], t[5], c as int))
  }

  ghost predicate CharsText(t: string, s: string)
    decreases |s|
  {
    if s == [] then t == []
    else exists a, b :: CharText(a, s[0]) && CharsText(b, s[1..]) && t == a + b
  }

  ghost predicate StringText(t: string, s: string) {
    exists a :: CharsText(a, s) && t == "\"" + a + "\""
  }

  // A name, a colon and a value, with blanks around the colon and at the end.
  ghost predicate MemberText(t: string, f: Field) {
    exists k, x, y, v, z ::
      StringText(k, f.0) && Blank(x) && Blank(y) && StringText(v, f.1) && Blank(z)
      && t == k + x + ":" + y + v + z
  }

  ghost predicate MembersText(t: string, fields: seq<Field>)
    decreases |fields|
  {
    if fields == [] then false
    else if |fields| == 1 then MemberText(t, fields[0])
    else exists a, x, b :: MemberText(a, fields[0]) && Blank(x) && MembersText(b, fields[1..]) && t == a + "," + x + b
  }

  ghost predicate BodyText(t: string, fields: seq<Field>) {
    if fields == [] then t == "" else MembersText(t, fields)
  }

  ghost predicate ObjectText(t: string, fields: seq<Field>) {
    exists x, y, b, z ::
      Blank(x) && Blank(y) && BodyText(b, fields) && Blank(z)
      && t == x + "{" + y + b + "}" + z
  }

  // ---------------------------------------------------------------- blanks

  lemma {:induction false} SkipsBlank(t: string) returns (x: string)
    ensures Blank(x) && t == x + SkipSpace(t)
    ensures SkipSpace(t) == [] || !IsJsonSpace(SkipSpace(t)[0])
  {
    if t != [] && IsJsonSpace(t[0]) {
      var more := SkipsBlank(t[1..]);
      x := [t[0]] + more;
    } else {
      x := "";
    }
  }

  lemma {:induction false} BlankSkipped(x: string, t: string)
    requires Blank(x) && (t == [] || !IsJsonSpace(t[0]))
    ensures SkipSpace(x + t) == t
  {
    if x == [] {
      assert x + t == t;
    } else {
      assert (x + t)[1..] == x[1..] + t;
      BlankSkipped(x[1..], t);
    }
  }

  // ---------------------------------------------------------------- strings

  lemma HexIff(d: char, v: nat)
    ensures HexValue(d) == Some(v) <==> Hex(d, v)
  {
  }

  lemma ShortIff(letter: char, c: char)
    ensures SimpleEscape(letter) == Some(c) <==> ShortEscape(letter, c)
  {
  }

  lemma CharSound(t: string) returns (a: string)
    requires ParseChar(t).Some?
    ensures CharText(a, ParseChar(t).value.0) && t == a + ParseChar(t).value.1
  {
    hide HexValue, Hex, SimpleEscape, ShortEscape;
    var (c, rest) := ParseChar(t).value;
    a := t[..|t| - |rest|];
    if t[0] == '\\' && t[1] != 'u' {
      ShortIff(t[1], c);
    } else if t[0] == '\\' {
      var x, y, z, w := HexValue(t[2]).value, HexValue(t[3]).value, HexValue(t[4]).value, HexValue(t[5]).value;
      HexIff(t[2], x);
      HexIff(t[3], y);
      HexIff(t[4], z);
      HexIff(t[5], w);
      assert HexText(t[2], t[3], t[4], t[5], c as int);
    }
  }

  lemma CharComplete(a: string, c: char, rest: string)
    requires CharText(a, c)
    ensures a != [] && a[0] != '"' && ParseChar(a + rest) == Some((c, rest))
  {
    hide HexValue, Hex, SimpleEscape, ShortEscape;
    var t := a + rest;
    assert t[|a|..] == rest;
    if |a| == 6 {
      var x: nat, y: nat, z: nat, w: nat :| Hex(a[2], x) && Hex(a[3], y) && Hex(a[4], z) && Hex(a[5], w)
                                            && c as int == 4096 * x + 256 * y + 16 * z + w;
      HexIff(a[2], x);
      HexIff(a[3], y);
      HexIff(a[4], z);
      HexIff(a[5], w);
      assert t[2] == a[2] && t[3] == a[3] && t[4] == a[4] && t[5] == a[5];
      HexBound(a[2], a[3], a[4], a[5], x, y, z, w);
    } else if |a| == 2 {
      ShortIff(a[1], c);
      NoLetterU(c);
    }
  }

  lemma NoLetterU(c: char)
    ensures !ShortEscape('u', c)
  {
  }

  lemma HexBound(a: char, b: char, c: char, d: char, x: nat, y: nat, z: nat, w: nat)
    requires Hex(a, x) && Hex(b, y) && Hex(c, z) && Hex(d, w)
    ensures 4096 * x + 256 * y + 16 * z + w < 0x10000
  {
  }

  lemma CharsMore(a: string, c: char, b: string, s: string)
    requires CharText(a, c) && CharsText(b, s)
    ensures CharsText(a + b, [c] + s)
  {
    hide CharText;
    var all := [c] + s;
    assert all[0] == c && all[1..] == s;
    assert CharText(a, all[0]) && CharsText(b, all[1..]);
  }

  // The text before the closing quote.
  lemma {:induction false} CharsSound(t: string) returns (a: string)
    requires ParseChars(t).Some?
    ensures CharsText(a, ParseChars(t).value.0) && t == a + "\"" + ParseChars(t).value.1
    decreases |t|
  {
    hide ParseChar, CharText;
    if t[0] == '"' {
      a := "";
    } else {
      var first := CharSound(t);
      var (c, rest) := ParseChar(t).value;
      var more := CharsSound(rest);
      CharsMore(first, c, more, ParseChars(rest).value.0);
      a := first + more;
    }
  }

  lemma {:induction false} CharsComplete(a: string, s: string, rest: string)
    requires CharsText(a, s)
    ensures ParseChars(a + "\"" + rest) == Some((s, rest))
    decreases |s|
  {
    hide ParseChar, CharText;
    if s == [] {
      assert a + "\"" + rest == "\"" + rest;
    } else {
      var first, more :| CharText(first, s[0]) && CharsText(more, s[1..]) && a == first + more;
      var tail := more + "\"" + rest;
      CharComplete(first, s[0], tail);
      CharsComplete(more, s[1..], rest);
      assert a + "\"" + rest == first + tail;
      assert s == [s[0]] + s[1..];
    }
  }

  lemma StringSound(t: string) returns (a: string)
    requires t != [] && t[0] == '"' && ParseChars(t[1..]).Some?
    ensures StringText(a, ParseChars(t[1..]).value.0) && t == a + ParseChars(t[1..]).value.1
  {
    hide ParseChars, CharsText;
    var chars := CharsSound(t[1..]);
    a := "\"" + chars + "\"";
  }

  lemma StringComplete(a: string, s: string, rest: string)
    requires StringText(a, s)
    ensures a != [] && a[0] == '"' && ParseChars((a + rest)[1..]) == Some((s, rest))
  {
    hide ParseChars, CharsText;
    var chars :| CharsText(chars, s) && a == "\"" + chars + "\"";
    CharsComplete(chars, s, rest);
    assert (a + rest)[1..] == chars + "\"" + rest;
  }

  // ---------------------------------------------------------------- members

  lemma MemberSound(t: string) returns (a: string)
    requires ParseMember(t).Some?
    ensures MemberText(a, ParseMember(t).value.0) && t == a + ParseMember(t).value.1
  {
    hide ParseChars, StringText, SkipSpace, Blank;
    var k := StringSound(t);
    var t1 := ParseChars(t[1..]).value.1;
    var x := SkipsBlank(t1);
    var t2 := SkipSpace(t1);
    var y := SkipsBlank(t2[1..]);
    var t3 := SkipSpace(t2[1..]);
    var v := StringSound(t3);
    var z := SkipsBlank(ParseChars(t3[1..]).value.1);
    a := k + x + ":" + y + v + z;
    assert t2 == ":" + t2[1..];
  }

  // `rest` is what the members after this one, or the end of the object, start with.
  lemma MemberComplete(a: string, f: Field, rest: string)
    requires MemberText(a, f) && rest != [] && !IsJsonSpace(rest[0])
    ensures a != [] && a[0] == '"' && ParseMember(a + rest) == Some((f, rest))
  {
    hide ParseChars, StringText, SkipSpace, Blank;
    var k, x, y, v, z :| StringText(k, f.0) && Blank(x) && Blank(y) && StringText(v, f.1) && Blank(z)
                         && a == k + x + ":" + y + v + z;
    var t4 := z + rest;
    var t3 := v + t4;
    var t2 := ":" + (y + t3);
    StringComplete(k, f.0, x + t2);
    StringComplete(v, f.1, t4);
    BlankSkipped(x, t2);
    BlankSkipped(y, t3);
    BlankSkipped(z, rest);
    assert t2[1..] == y + t3;
    assert a + rest == k + (x + t2);
  }

  lemma OneMember(a: string, f: Field)
    requires MemberText(a, f)
    ensures MembersText(a, [f])
  {
    hide MemberText;
  }

  lemma MoreMembers(a: string, f: Field, x: string, b: string, fields: seq<Field>)
    requires MemberText(a, f) && Blank(x) && MembersText(b, fields)
    ensures MembersText(a + "," + x + b, [f] + fields)
  {
    hide MemberText;
    var all := [f] + fields;
    assert all[0] == f && all[1..] == fields;
    assert MemberText(a, all[0]) && MembersText(b, all[1..]);
  }

  // The members up to the closing brace, and the blanks behind it.
  lemma {:induction false} MembersSound(t: string, sofar: map<string, string>)
    returns (a: string, fields: seq<Field>, z: string)
    requires ParseMembers(t, sofar).Some?
    ensures fields != [] && MembersText(a, fields) && Blank(z) && t == a + "}" + z
    ensures ParseMembers(t, sofar) == Some(sofar + ToMap(fields))
    decreases |t|
  {
    hide ParseMember, MemberText, MembersText, Blank, SkipSpace;
    var first := MemberSound(t);
    var (f, rest) := ParseMember(t).value;
    AddMember(sofar, f, map[]);
    if rest[0] == ',' {
      var x := SkipsBlank(rest[1..]);
      var b, more, after := MembersSound(SkipSpace(rest[1..]), sofar[f.0 := f.1]);
      MoreMembers(first, f, x, b, more);
      AddMember(sofar, f, ToMap(more));
      a, fields, z := first + "," + x + b, [f] + more, after;
      assert fields[1..] == more;
      assert rest == "," + rest[1..];
    } else {
      OneMember(first, f);
      z := SkipsBlank(rest[1..]);
      a, fields := first, [f];
      assert rest == "}" + rest[1..];
    }
  }

  lemma {:induction false} MembersComplete(a: string, fields: seq<Field>, z: string, sofar: map<string, string>)
    requires MembersText(a, fields) && Blank(z)
    ensures a != [] && a[0] == '"'
    ensures ParseMembers(a + "}" + z, sofar) == Some(sofar + ToMap(fields))
    decreases |fields|
  {
    hide ParseMember, MemberText, SkipSpace, Blank;
    var f := fields[0];
    AddMember(sofar, f, ToMap(fields[1..]));
    if |fields| == 1 {
      var rest := "}" + z;
      MemberComplete(a, f, rest);
      assert a + "}" + z == a + rest;
      BlankSkipped(z, "");
      assert z + "" == z && rest[1..] == z && fields[1..] == [];
    } else {
      var first, x, b :| MemberText(first, f) && Blank(x) && MembersText(b, fields[1..]) && a == first + "," + x + b;
      var more := b + "}" + z;
      var rest := "," + (x + more);
      MemberComplete(first, f, rest);
      MembersComplete(b, fields[1..], z, sofar[f.0 := f.1]);
      BlankSkipped(x, more);
      assert a + "}" + z == first + rest && rest[1..] == x + more;
    }
  }

  // ---------------------------------------------------------------- objects

  lemma ObjectSound(t: string) returns (fields: seq<Field>)
    requires ParseObject(t).Some?
    ensures ObjectText(t, fields) && ParseObject(t) == Some(ToMap(fields))
  {
    hide ParseMembers, MembersText, SkipSpace, Blank;
    var x := SkipsBlank(t);
    var t1 := SkipSpace(t);
    var y := SkipsBlank(t1[1..]);
    var t2 := SkipSpace(t1[1..]);
    var b, z := "", "";
    if t2 != [] && t2[0] == '}' {
      z := SkipsBlank(t2[1..]);
      fields := [];
    } else {
      b, fields, z := MembersSound(t2, map[]);
      assert map[] + ToMap(fields) == ToMap(fields);
    }
    assert t2 == b + "}" + z && t1 == "{" + t1[1..];
    assert BodyText(b, fields);
    assert t == x + "{" + y + b + "}" + z;
  }

  lemma ObjectComplete(t: string, fields: seq<Field>)
    requires ObjectText(t, fields)
    ensures ParseObject(t) == Some(ToMap(fields))
  {
    hide ParseMembers, MembersText, SkipSpace, Blank;
    var x, y, b, z :| Blank(x) && Blank(y) && BodyText(b, fields) && Blank(z)
                      && t == x + "{" + y + b + "}" + z;
    var t2 := b + "}" + z;
    var t1 := "{" + (y + t2);
    assert t == x + t1 && t1[1..] == y + t2;
    if fields == [] {
      BlankSkipped(z, "");
      assert z + "" == z && t2[1..] == z;
    } else {
      MembersComplete(b, fields, z, map[]);
      assert map[] + ToMap(fields) == ToMap(fields);
    }
    BlankSkipped(x, t1);
    BlankSkipped(y, t2);
  }

  /** The parser accepts exactly the texts of objects, and returns what they denote. */
  lemma ParsesIff(t: string, m: map<string, string>)
    ensures ParseObject(t) == Some(m) <==> exists fields :: ObjectText(t, fields) && m == ToMap(fields)
  {
    hide ParseObject, ObjectText, ToMap;
    if ParseObject(t).Some? {
      var fields := ObjectSound(t);
    }
    forall fields | ObjectText(t, fields)
      ensures ParseObject(t) == Some(ToMap(fields))
    {
      ObjectComplete(t, fields);
    }
  }

  /** What an object denotes: of several members with one name the last one counts. */
  lemma {:induction false} LastMemberCounts(fields: seq<Field>, key: string)
    ensures key in ToMap(fields) <==> exists i :: 0 <= i < |fields| && fields[i].0 == key
    ensures forall i :: 0 <= i < |fields| && fields[i].0 == key && (forall j :: i < j < |fields| ==> fields[j].0 != key)
              ==> key in ToMap(fields) && ToMap(fields)[key] == fields[i].1
  {
    if fields != [] {
      var rest := fields[1..];
      LastMemberCounts(rest, key);
      assert forall i :: 1 <= i < |fields| ==> fields[i] == rest[i - 1];
      assert forall i :: 0 <= i < |rest| ==> rest[i] == fields[i + 1];
    }
  }
}

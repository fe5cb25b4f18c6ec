/**
  parseMessage of the browser client (server/static/js/index.js): a regular expression finds the
  timestamp in the text of a message, the match is cut out, and the rest is parsed as JSON.
 */
module BrowserParse {
  import opened Options
  import opened JsonText
  import opened Regex
  import opened Messages

  function Key(): string {
    "\"timestamp\""
  }

  function Literal(t: string): seq<Item> {
    seq(|t|, i requires 0 <= i < |t| => Item(Exactly(t[i]), 1, false))
  }

  // /,?\s*"timestamp"\s*:"?\W*(\d+)"?\s*/
  function TimestampPattern(): seq<Item> {
    [Item(Exactly(','), 0, false), Item(Space, 0, true)] + Literal(Key()) +
    [Item(Space, 0, true), Item(Exactly(':'), 1, false), Item(Exactly('"'), 0, false),
     Item(NonWord, 0, true), Item(Digit, 1, true), Item(Exactly('"'), 0, false), Item(Space, 0, true)]
  }

  // The position of the item \d+ in the expression.
  const GROUP := 17

  // What parseMessage returns: the members of the object, and the timestamp if one was found.
  datatype JsMessage = JsMessage(timestamp: Option<nat>, fields: map<string, string>)

  predicate OccursAt(s: string, pattern: string, i: nat) {
    i + |pattern| <= |s| && s[i..i + |pattern|] == pattern
  }

  // The first position, from `i` on, where the pattern occurs.
  function IndexOf(s: string, pattern: string, i: nat): Option<nat>
    requires i <= |s|
    decreases |s| - i
  {
    if OccursAt(s, pattern, i) then Some(i)
    else if i == |s| then None
    else IndexOf(s, pattern, i + 1)
  }

  // str.replace(pattern, "") for a string pattern.
  function CutFirst(s: string, pattern: string): string {
    match IndexOf(s, pattern, 0)
    case None => s
    case Some(i) => if i + |pattern| <= |s| then s[..i] + s[i + |pattern|..] else s
  }

  // None stands for the exception that JSON.parse throws.
  function ParseMessage(str: string): Option<JsMessage> {
    match Search(TimestampPattern(), str, 0)
    case None =>
      (match ParseObject(str)
       case None => None
       case Some(fields) => Some(JsMessage(None, fields)))
    case Some(ends) =>
      var timestamp := DigitsValue(MatchedDigits(str, ends));
      match ParseObject(CutFirst(str, str[ends[0]..ends[|TimestampPattern()|]]))
      case None => None
      case Some(fields) => Some(JsMessage(Some(timestamp), fields))
  }

  function MatchedDigits(s: string, ends: seq<nat>): (t: string)
    requires IsMatch(TimestampPattern(), s, ends)
    ensures ends[0] <= ends[|TimestampPattern()|] <= |s|
    ensures forall i :: 0 <= i < |t| ==> JsonText.IsDigit(t[i])
  {
    EndsOrdered(TimestampPattern(), s, ends, 0, |TimestampPattern()|);
    assert Takes(TimestampPattern()[GROUP], s, ends[GROUP], ends[GROUP + 1]);
    s[ends[GROUP]..ends[GROUP + 1]]
  }

  lemma {:induction false} EndsOrdered(items: seq<Item>, s: string, ends: seq<nat>, i: nat, j: nat)
    requires IsMatch(items, s, ends) && i <= j <= |items|
    ensures ends[i] <= ends[j]
    decreases j - i
  {
    if i < j {
      assert Takes(items[i], s, ends[i], ends[i + 1]);
      EndsOrdered(items, s, ends, i + 1, j);
    }
  }

  // ---------------------------------------------------------------- the key in the text

  // A quote that closes what may be the key of the timestamp.
  ghost predicate KeyEnd(s: string, e: nat) {
    0 < e < |s| - 1 && s[e] == '"' && s[e - 1] == 'p' && (IsSpace(s[e + 1]) || s[e + 1] == ':')
  }

  // Where a match has its key.
  lemma MatchHasKey(s: string, ends: seq<nat>)
    requires IsMatch(TimestampPattern(), s, ends)
    ensures ends[0] <= ends[1] <= ends[2] && ends[1] <= ends[0] + 1
    ensures ends[0] < ends[1] ==> s[ends[0]] == ','
    ensures forall k :: ends[1] <= k < ends[2] ==> IsSpace(s[k])
    ensures KeyEnd(s, ends[2] + 10)
  {
    assert Takes(TimestampPattern()[0], s, ends[0], ends[1]);
    assert Takes(TimestampPattern()[1], s, ends[1], ends[2]);
    forall j: nat | 2 <= j < 13
      ensures TimestampPattern()[j] == Item(Exactly(Key()[j - 2]), 1, false)
      ensures Takes(TimestampPattern()[j], s, ends[j], ends[j + 1])
    {
    }
    assert ends[3] == ends[2] + 1 && ends[4] == ends[2] + 2 && ends[5] == ends[2] + 3;
    assert ends[6] == ends[2] + 4 && ends[7] == ends[2] + 5 && ends[8] == ends[2] + 6;
    assert ends[9] == ends[2] + 7 && ends[10] == ends[2] + 8 && ends[11] == ends[2] + 9;
    assert ends[12] == ends[2] + 10 && ends[13] == ends[2] + 11;
    assert s[ends[11]] == 'p' && s[ends[12]] == '"';
    assert Takes(TimestampPattern()[13], s, ends[13], ends[14]);
    assert Takes(TimestampPattern()[14], s, ends[14], ends[15]);
  }

  ghost predicate Clean(s: string) {
    forall e: nat :: !KeyEnd(s, e)
  }

  // No member has a name that ends like the timestamp's.
  ghost predicate OtherKeys(fields: seq<Field>) {
    forall i :: 0 <= i < |fields| ==> fields[i].0 != "" && fields[i].0[|fields[i].0| - 1] != 'p'
  }

  predicate Separates(c: char) {
    c == '{' || c == ','
  }

  lemma {:induction false} LastSpelled(esc: char -> string, s: string)
    requires ValidEscaper(esc) && s != "" && s[|s| - 1] != 'p'
    ensures Escape(esc, s) != "" && Escape(esc, s)[|Escape(esc, s)| - 1] != 'p'
  {
    var t := esc(s[0]);
    assert Spells(t, s[0]);
    if |s| == 1 {
      assert Escape(esc, s) == t;
    } else {
      LastSpelled(esc, s[1..]);
    }
  }

  // No such key closes inside an escaped string.
  lemma CleanInside(y: string, at: nat, esc: char -> string, s: string)
    requires ValidEscaper(esc) && at + |Escape(esc, s)| <= |y|
    requires y[at..at + |Escape(esc, s)|] == Escape(esc, s)
    ensures forall e: nat :: at <= e < at + |Escape(esc, s)| ==> !KeyEnd(y, e)
  {
    hide ValidEscaper, Escape;
    var t := Escape(esc, s);
    assert forall i :: 0 <= i < |t| ==> y[at + i] == t[i];
    forall e: nat | at <= e < at + |t| && y[e] == '"'
      ensures !KeyEnd(y, e)
    {
      QuotesAreEscaped(esc, s, e - at);
    }
  }

  // One more member, with any name but the timestamp's and any value, is no such key.
  lemma CleanMember(x: string, esc: char -> string, f: Field)
    requires ValidEscaper(esc) && f.0 != "" && f.0[|f.0| - 1] != 'p'
    requires Clean(x) && x != "" && Separates(x[|x| - 1])
    ensures Clean(x + Member(esc, f) + ",")
  {
    hide ValidEscaper, Escape;
    var k, v := Escape(esc, f.0), Escape(esc, f.1);
    LastSpelled(esc, f.0);
    CleanShape(x, esc, f);
    var y := x + Member(esc, f) + ",";
    CleanInside(y, |x| + 1, esc, f.0);
    CleanInside(y, |x| + |k| + 4, esc, f.1);
  }

  // What surrounds the two strings of the member closes no such key either.
  lemma CleanShape(x: string, esc: char -> string, f: Field)
    requires Clean(x) && x != "" && Separates(x[|x| - 1])
    requires Escape(esc, f.0) != "" && Escape(esc, f.0)[|Escape(esc, f.0)| - 1] != 'p'
    ensures var k, v := Escape(esc, f.0), Escape(esc, f.1);
      var y := x + Member(esc, f) + ",";
      && |y| == |x| + |k| + |v| + 6
      && y[|x| + 1..|x| + 1 + |k|] == k && y[|x| + |k| + 4..|x| + |k| + 4 + |v|] == v
      && forall e: nat ::
           !(|x| + 1 <= e < |x| + 1 + |k|) && !(|x| + |k| + 4 <= e < |x| + |k| + 4 + |v|) ==> !KeyEnd(y, e)
  {
    hide Escape;
    var k, v := Escape(esc, f.0), Escape(esc, f.1);
    var y, n := x + Member(esc, f) + ",", |x|;
    assert y == x + "\"" + k + "\":\"" + v + "\",";
    assert y[n + |k|] == k[|k| - 1];
    forall e: nat | e < n
      ensures !KeyEnd(y, e)
    {
      assert !KeyEnd(x, e);
    }
  }

  // The text of an object up to where its timestamp, if any, starts.
  function Prefix(esc: char -> string, fields: seq<Field>): string {
    "{" + Join(esc, fields) + (if fields == [] then "" else ",")
  }

  lemma JoinSplit(x: string, esc: char -> string, fields: seq<Field>)
    requires |fields| > 1
    ensures x + Join(esc, fields) + "," == (x + Member(esc, fields[0]) + ",") + Join(esc, fields[1..]) + ","
  {
    hide Member;
    assert Join(esc, fields) == Member(esc, fields[0]) + "," + Join(esc, fields[1..]);
  }

  lemma {:induction false} CleanJoin(x: string, esc: char -> string, fields: seq<Field>)
    requires ValidEscaper(esc) && OtherKeys(fields) && fields != []
    requires Clean(x) && x != "" && Separates(x[|x| - 1])
    ensures Clean(x + Join(esc, fields) + ",")
    decreases |fields|
  {
    hide Clean, ValidEscaper, Member;
    CleanMember(x, esc, fields[0]);
    if |fields| > 1 {
      JoinSplit(x, esc, fields);
      hide Join;
      CleanJoin(x + Member(esc, fields[0]) + ",", esc, fields[1..]);
    }
  }

  lemma CleanPrefix(esc: char -> string, fields: seq<Field>)
    requires ValidEscaper(esc) && OtherKeys(fields)
    ensures Clean(Prefix(esc, fields))
    ensures Separates(Prefix(esc, fields)[|Prefix(esc, fields)| - 1])
  {
    if fields == [] {
      assert Prefix(esc, fields) == "{";
    } else {
      CleanJoin("{", esc, fields);
    }
  }

  lemma CleanWithout(esc: char -> string, fields: seq<Field>)
    requires ValidEscaper(esc) && OtherKeys(fields)
    ensures Clean(Encode(esc, fields, None))
  {
    var p, t := Prefix(esc, fields), Encode(esc, fields, None);
    CleanPrefix(esc, fields);
    assert t[|t| - 1] == '}';
    assert forall i :: 0 <= i < |t| - 1 ==> t[i] == p[i];
    forall e: nat | KeyEnd(t, e)
      ensures false
    {
      assert e < |t| - 2;
      assert KeyEnd(p, e);
    }
  }

  // With a timestamp, its key is the only place.
  lemma OnlyKey(p: string, d: string, e: nat)
    requires Clean(p) && p != "" && Separates(p[|p| - 1])
    requires forall i :: 0 <= i < |d| ==> d[i] != '"'
    requires KeyEnd(p + Key() + ":" + d + "}", e)
    ensures e == |p| + 10
  {
    var t := p + Key() + ":" + d + "}";
    if e < |p| - 1 {
      assert KeyEnd(p, e);
    } else if |p| < e < |p| + 11 {
      assert t[e] == Key()[e - |p|];
    }
    assert forall i :: 0 <= i < |d| ==> t[|p| + 12 + i] == d[i];
  }

  // ---------------------------------------------------------------- the unique match

  // The text of a message up to its timestamp's value, that value, and the closing brace.
  function Stamped(p: string, d: string): string {
    p + Key() + ":" + d + "}"
  }

  // The text of an integer.
  ghost predicate IsNumeral(d: string) {
    var n := if d != "" && d[0] == '-' then 1 else 0;
    n < |d| && forall i :: n <= i < |d| ==> JsonText.IsDigit(d[i])
  }

  lemma DecIsNumeral(n: int)
    ensures IsNumeral(Dec(n))
  {
    assert n >= 0 ==> JsonText.IsDigit(DecNat(n)[0]);
  }

  // The boundaries of the match: after a comma if there is one, from the key on, to the brace.
  function Ends(p: string, d: string): seq<nat>
    requires p != ""
  {
    var k := |p|;
    var n := if d != "" && d[0] == '-' then 1 else 0;
    var z := k + 12 + |d|;
    [if p[k - 1] == ',' then k - 1 else k, k, k, k + 1, k + 2, k + 3, k + 4, k + 5, k + 6, k + 7, k + 8, k + 9, k + 10,
     k + 11, k + 11, k + 12, k + 12, k + 12 + n, z, z, z]
  }

  lemma {:induction false} RunIs(item: Item, s: string, i: nat, n: nat)
    requires i + n <= |s| && (!item.many ==> n <= 1)
    requires forall k :: i <= k < i + n ==> InClass(item.cls, s[k])
    requires (item.many || n == 0) && i + n < |s| ==> !InClass(item.cls, s[i + n])
    ensures Run(item, s, i) == n
    decreases n
  {
    if n > 0 && item.many {
      RunIs(item, s, i + 1, n - 1);
    }
  }

  // How much each item takes: the key's first,
  lemma GreedyHead(p: string, d: string, j: nat)
    requires p != "" && Separates(p[|p| - 1]) && j < 13
    ensures Run(TimestampPattern()[j], Stamped(p, d), Ends(p, d)[j]) == Ends(p, d)[j + 1] - Ends(p, d)[j]
    ensures TimestampPattern()[j].min <= Ends(p, d)[j + 1] - Ends(p, d)[j]
  {
    var t, k, ends := Stamped(p, d), |p|, Ends(p, d);
    assert t[k - 1] == p[k - 1] && t[k] == Key()[0];
    if j >= 2 {
      GreedyKey(p, d, j - 2);
    } else {
      RunIs(TimestampPattern()[j], t, ends[j], ends[j + 1] - ends[j]);
    }
  }

  lemma GreedyKey(p: string, d: string, i: nat)
    requires p != "" && i < 11
    ensures TimestampPattern()[i + 2] == Item(Exactly(Key()[i]), 1, false)
    ensures Ends(p, d)[i + 2] == |p| + i && Ends(p, d)[i + 3] == |p| + i + 1
    ensures Run(TimestampPattern()[i + 2], Stamped(p, d), |p| + i) == 1
  {
    hide TimestampPattern, Stamped, Ends, Key;
    KeyItem(i);
    KeyEnds(p, d, i);
    KeyStamped(p, d, i);
    RunIs(Item(Exactly(Key()[i]), 1, false), Stamped(p, d), |p| + i, 1);
  }

  lemma KeyItem(i: nat)
    requires i < 11
    ensures |TimestampPattern()| == 20 && |Key()| == 11
    ensures TimestampPattern()[i + 2] == Item(Exactly(Key()[i]), 1, false)
  {
    assert TimestampPattern()[i + 2] == Literal(Key())[i];
  }

  lemma KeyEnds(p: string, d: string, i: nat)
    requires p != "" && i < 11
    ensures |Ends(p, d)| == 21
    ensures Ends(p, d)[i + 2] == |p| + i && Ends(p, d)[i + 3] == |p| + i + 1
  {
  }

  lemma KeyStamped(p: string, d: string, i: nat)
    requires i < |Key()|
    ensures |p| + i < |Stamped(p, d)| && Stamped(p, d)[|p| + i] == Key()[i]
  {
  }

  // then the value's.
  lemma GreedyTail(p: string, d: string, j: nat)
    requires p != "" && IsNumeral(d) && 13 <= j < 20
    ensures Run(TimestampPattern()[j], Stamped(p, d), Ends(p, d)[j]) == Ends(p, d)[j + 1] - Ends(p, d)[j]
    ensures TimestampPattern()[j].min <= Ends(p, d)[j + 1] - Ends(p, d)[j]
  {
    var t, k, ends := Stamped(p, d), |p|, Ends(p, d);
    assert t[k + 11] == ':' && t[k + 12 + |d|] == '}';
    assert forall i :: k + 12 <= i < k + 12 + |d| ==> t[i] == d[i - k - 12];
    RunIs(TimestampPattern()[j], t, ends[j], ends[j + 1] - ends[j]);
  }

  // The expression matches greedily, without backtracking, with these boundaries.
  lemma GreedyEnds(p: string, d: string)
    requires p != "" && Separates(p[|p| - 1]) && IsNumeral(d)
    ensures GreedyMatch(TimestampPattern(), Stamped(p, d), Ends(p, d))
  {
    var ends := Ends(p, d);
    assert forall j :: 0 <= j < 21 ==> ends[j] <= |Stamped(p, d)|;
    forall j | 0 <= j < |TimestampPattern()|
      ensures TimestampPattern()[j].min <= Run(TimestampPattern()[j], Stamped(p, d), ends[j])
      ensures ends[j + 1] == ends[j] + Run(TimestampPattern()[j], Stamped(p, d), ends[j])
    {
      if j < 13 {
        GreedyHead(p, d, j);
      } else {
        GreedyTail(p, d, j);
      }
    }
  }

  // No match starts before.
  lemma NoEarlierMatch(p: string, d: string, q: nat)
    requires Clean(p) && p != "" && Separates(p[|p| - 1]) && IsNumeral(d)
    requires q < Ends(p, d)[0]
    ensures MatchAt(TimestampPattern(), Stamped(p, d), q).None?
  {
    var t := Stamped(p, d);
    assert t[|p| - 1] == p[|p| - 1];
    if MatchAt(TimestampPattern(), t, q).Some? {
      var ends := MatchAt(TimestampPattern(), t, q).value;
      MatchHasKey(t, ends);
      OnlyKey(p, d, ends[2] + 10);
      assert false;
    }
  }

  /**
    Unique match. In the text of an object with any string members and an integer timestamp last,
    the expression matches first at the timestamp's own member, with the comma before it if there
    is one, and its group is the digits; nothing in a string value is mistaken for it.
   */
  lemma SearchFindsTimestamp(p: string, d: string)
    requires Clean(p) && p != "" && Separates(p[|p| - 1]) && IsNumeral(d)
    ensures Search(TimestampPattern(), Stamped(p, d), 0) == Some(Ends(p, d))
  {
    var t, ends := Stamped(p, d), Ends(p, d);
    GreedyEnds(p, d);
    GreedyIsFirst(TimestampPattern(), t, ends);
    forall q: nat | q < ends[0]
      ensures MatchAt(TimestampPattern(), t, q).None?
    {
      NoEarlierMatch(p, d, q);
    }
    hide GreedyMatch, Clean;
    SearchFinds(TimestampPattern(), t, 0, ends[0]);
  }

  // The first occurrence of the matched text is the match itself.
  lemma {:induction false} FirstOccurrence(s: string, pattern: string, i: nat, p: nat)
    requires i <= p <= |s| && OccursAt(s, pattern, p)
    requires forall q :: i <= q < p ==> !OccursAt(s, pattern, q)
    ensures IndexOf(s, pattern, i) == Some(p)
    decreases p - i
  {
    if i < p {
      FirstOccurrence(s, pattern, i + 1, p);
    }
  }

  lemma CutRemovesMatch(p: string, d: string)
    requires Clean(p) && p != "" && Separates(p[|p| - 1]) && IsNumeral(d)
    ensures var t, ends := Stamped(p, d), Ends(p, d);
      CutFirst(t, t[ends[0]..ends[20]]) == (if p[|p| - 1] == ',' then p[..|p| - 1] else p) + "}"
  {
    var t, k := Stamped(p, d), |p|;
    var a, z := Ends(p, d)[0], k + 12 + |d|;
    var m := t[a..z];
    assert m[k - a + 9] == Key()[9] && m[k - a + 10] == Key()[10] && m[k - a + 11] == ':';
    forall q: nat | q < a
      ensures !OccursAt(t, m, q)
    {
      if OccursAt(t, m, q) {
        assert forall i :: 0 <= i < |m| ==> t[q + i] == m[i];
        OnlyKey(p, d, q + k - a + 10);
      }
    }
    FirstOccurrence(t, m, 0, a);
    assert t[z..] == "}";
    assert t[..a] == p[..a];
  }

  // ---------------------------------------------------------------- the inverse

  function Abs(n: int): nat {
    if n < 0 then -n else n
  }

  lemma StampedEncode(esc: char -> string, fields: seq<Field>, ts: int)
    ensures var p := Prefix(esc, fields);
      && Encode(esc, fields, Some(ts)) == Stamped(p, Dec(ts))
      && (if p[|p| - 1] == ',' then p[..|p| - 1] else p) + "}" == Encode(esc, fields, None)
  {
    hide Dec, Join;
    if fields == [] {
      JoinNothing(esc);
    }
  }

  lemma JoinNothing(esc: char -> string)
    ensures Join(esc, []) == ""
  {
  }

  lemma DigitsOfMatch(p: string, ts: int)
    requires p != "" && IsMatch(TimestampPattern(), Stamped(p, Dec(ts)), Ends(p, Dec(ts)))
    ensures DigitsValue(MatchedDigits(Stamped(p, Dec(ts)), Ends(p, Dec(ts)))) == Abs(ts)
  {
    var t, d, ends := Stamped(p, Dec(ts)), Dec(ts), Ends(p, Dec(ts));
    DecIsNumeral(Abs(ts));
    assert MatchedDigits(t, ends) == DecNat(Abs(ts));
    DecRoundTrip(Abs(ts));
  }

  /**
    parseMessage inverts every encoder that prints an object of string members followed by an
    integer timestamp, for all member values: the members come back as they were, and the
    timestamp comes back without its sign.
   */
  lemma ParseInvertsEncode(esc: char -> string, fields: seq<Field>, ts: int)
    requires ValidEscaper(esc) && OtherKeys(fields)
    ensures ParseMessage(Encode(esc, fields, Some(ts))) == Some(JsMessage(Some(Abs(ts)), ToMap(fields)))
  {
    var p, d := Prefix(esc, fields), Dec(ts);
    CleanPrefix(esc, fields);
    DecIsNumeral(ts);
    StampedEncode(esc, fields, ts);
    SearchFindsTimestamp(p, d);
    CutRemovesMatch(p, d);
    DigitsOfMatch(p, ts);
    ObjectRoundTrip(esc, fields);
  }

  /** A message whose timestamp is omitted comes back as it was, without a timestamp. */
  lemma ParseWithoutTimestamp(esc: char -> string, fields: seq<Field>)
    requires ValidEscaper(esc) && OtherKeys(fields)
    ensures ParseMessage(Encode(esc, fields, None)) == Some(JsMessage(None, ToMap(fields)))
  {
    var t := Encode(esc, fields, None);
    CleanWithout(esc, fields);
    if Search(TimestampPattern(), t, 0).Some? {
      MatchHasKey(t, Search(TimestampPattern(), t, 0).value);
      assert false;
    }
    ObjectRoundTrip(esc, fields);
  }

  // A member of the parsed message; undefined when it is missing.
  function Get(m: JsMessage, name: string): Option<string> {
    if name in m.fields then Some(m.fields[name]) else None
  }

  /**
    The C++ server's text of every message is parsed into the message itself; the timestamp is
    right if and only if it is not negative.
   */
  lemma ParseInvertsCpp(m: Message)
    ensures var r := ParseMessage(CppText(m));
      && r.Some?
      && Get(r.value, "sender") == Some(m.sender)
      && Get(r.value, "action") == Some(ActionName(m.action))
      && Get(r.value, "contents") == Some(m.contents)
      && r.value.timestamp == Some(Abs(m.timestamp))
      && (r.value.timestamp.value as int == m.timestamp <==> m.timestamp >= 0)
  {
    EscapersValid();
    ParseInvertsEncode(CppEscaper, CppFields(m), m.timestamp);
    ToMapCpp(m);
  }

  lemma ToMapCpp(m: Message)
    ensures ToMap(CppFields(m)) == map["action" := ActionName(m.action), "contents" := m.contents, "sender" := m.sender]
  {
    var fs := CppFields(m);
    assert fs[1..][1..] == fs[2..] && fs[2..][1..] == [];
    assert ToMap(fs[2..]) == map["sender" := m.sender];
    assert ToMap(fs[1..]) == map["contents" := m.contents] + ToMap(fs[2..]);
  }

  /** The Rust server's text of every message is parsed into that message, as it spells it. */
  lemma ParseInvertsRust(m: Message)
    requires m.timestamp >= 0
    ensures var r := ParseMessage(RustText(m));
      && r.Some?
      && Get(r.value, "sender") == Some(m.sender)
      && Get(r.value, "action") == Some(RustActionName(m.action))
      && Get(r.value, "contents") == Some(m.contents)
      && r.value.timestamp == Some(m.timestamp)
  {
    EscapersValid();
    ParseInvertsEncode(CppEscaper, RustFields(m), m.timestamp);
    ToMapRust(m);
  }

  lemma ToMapRust(m: Message)
    ensures ToMap(RustFields(m)) == map["sender" := m.sender, "action" := RustActionName(m.action),
      "contents" := m.contents]
  {
    var fs := RustFields(m);
    assert fs[1..][1..] == fs[2..] && fs[2..][1..] == [];
    assert ToMap(fs[2..]) == map["contents" := m.contents];
    assert ToMap(fs[1..]) == map["action" := RustActionName(m.action)] + ToMap(fs[2..]);
  }

  // What a Go message with an empty field looks like in the browser.
  function Omitted(s: string): Option<string> {
    if s == "" then None else Some(s)
  }

  /**
    The Go server's text of every message is parsed into the message itself, where an empty
    field or a zero timestamp is missing; the timestamp comes back right iff it is positive.
   */
  lemma ParseInvertsGo(m: Message)
    ensures var r := ParseMessage(GoText(m));
      && r.Some?
      && Get(r.value, "sender") == Omitted(m.sender)
      && Get(r.value, "action") == Some(ActionName(m.action))
      && Get(r.value, "contents") == Omitted(m.contents)
      && (if m.timestamp == 0 then r.value.timestamp == None else r.value.timestamp == Some(Abs(m.timestamp)))
      && (r.value.timestamp.Some? && r.value.timestamp.value as int == m.timestamp <==> m.timestamp > 0)
  {
    hide ToMap, ParseMessage, Encode, GoFields, ActionName, OtherKeys, ValidEscaper;
    EscapersValid();
    GoKeys(m);
    if m.timestamp == 0 {
      ParseWithoutTimestamp(GoEscaper, GoFields(m));
    } else {
      ParseInvertsEncode(GoEscaper, GoFields(m), m.timestamp);
    }
    ToMapGo(m);
  }

  lemma GoKeys(m: Message)
    ensures OtherKeys(GoFields(m))
  {
    hide ActionName;
  }

  lemma {:induction false} ToMapConcat(a: seq<Field>, b: seq<Field>)
    ensures ToMap(a + b) == ToMap(a) + ToMap(b)
  {
    if a == [] {
      assert a + b == b;
    } else {
      ToMapConcat(a[1..], b);
      assert (a + b)[1..] == a[1..] + b;
      PlusAssociates(map[a[0].0 := a[0].1], ToMap(a[1..]), ToMap(b));
    }
  }

  lemma PlusAssociates(x: map<string, string>, y: map<string, string>, z: map<string, string>)
    ensures (x + y) + z == x + (y + z)
  {
  }

  lemma ToMapGo(m: Message)
    ensures ToMap(GoFields(m)) ==
      (if m.sender == "" then map[] else map["sender" := m.sender])
      + map["action" := ActionName(m.action)]
      + (if m.contents == "" then map[] else map["contents" := m.contents])
  {
    var a, b, c := Present(("sender", m.sender)), [("action", ActionName(m.action))], Present(("contents", m.contents));
    ToMapConcat(a + b, c);
    ToMapConcat(a, b);
    ToMapOne(("action", ActionName(m.action)));
    ToMapOne(("sender", m.sender));
    ToMapOne(("contents", m.contents));
  }

  lemma ToMapOne(f: Field)
    ensures ToMap([f]) == map[f.0 := f.1]
  {
    assert [f][1..] == [];
  }

  // ---------------------------------------------------------------- what the expression says

  predicate All(t: string, cls: Class) {
    forall k :: 0 <= k < |t| ==> InClass(cls, t[k])
  }

  // The piece of a text between two positions, if they are that.
  function Piece(str: string, lo: nat, hi: nat): Option<string> {
    if lo <= hi <= |str| then Some(str[lo..hi]) else None
  }

  predicate Optional(piece: Option<string>, c: char) {
    piece == Some("") || piece == Some([c])
  }

  // The pieces of a match: a comma or none, blanks, the name, blanks, a colon, a quote or none,
  // characters that are in no word, digits, a quote or none, blanks.
  predicate Reads(str: string, ends: seq<nat>) {
    && |ends| == 21
    && Optional(Piece(str, ends[0], ends[1]), ',')
    && Piece(str, ends[1], ends[2]).Some? && All(str[ends[1]..ends[2]], Space)
    && (forall i :: 2 <= i < 13 ==> Piece(str, ends[i], ends[i + 1]) == Some(["\"timestamp\""[i - 2]]))
    && Piece(str, ends[13], ends[14]).Some? && All(str[ends[13]..ends[14]], Space)
    && Piece(str, ends[14], ends[15]) == Some(":")
    && Optional(Piece(str, ends[15], ends[16]), '"')
    && Piece(str, ends[16], ends[17]).Some? && All(str[ends[16]..ends[17]], NonWord)
    && Piece(str, ends[17], ends[18]).Some? && All(str[ends[17]..ends[18]], Digit) && ends[17] < ends[18]
    && Optional(Piece(str, ends[18], ends[19]), '"')
    && Piece(str, ends[19], ends[20]).Some? && All(str[ends[19]..ends[20]], Space)
  }

  lemma OptionalItem(str: string, c: char, lo: nat, hi: nat)
    ensures Takes(Item(Exactly(c), 0, false), str, lo, hi) <==> Optional(Piece(str, lo, hi), c)
  {
    ExactItem(str, c, lo, hi);
    if lo == hi <= |str| {
      assert str[lo..hi] == "";
    }
  }

  lemma StarItem(str: string, cls: Class, lo: nat, hi: nat)
    ensures Takes(Item(cls, 0, true), str, lo, hi) <==> Piece(str, lo, hi).Some? && All(str[lo..hi], cls)
  {
    hide InClass;
    if lo <= hi <= |str| {
      assert forall k :: lo <= k < hi ==> str[k] == str[lo..hi][k - lo];
      assert forall k :: 0 <= k < hi - lo ==> str[lo..hi][k] == str[lo + k];
    }
  }

  lemma PlusItem(str: string, cls: Class, lo: nat, hi: nat)
    ensures Takes(Item(cls, 1, true), str, lo, hi) <==>
              Piece(str, lo, hi).Some? && All(str[lo..hi], cls) && lo < hi
  {
    StarItem(str, cls, lo, hi);
  }

  lemma ExactItem(str: string, c: char, lo: nat, hi: nat)
    ensures Takes(Item(Exactly(c), 1, false), str, lo, hi) <==> Piece(str, lo, hi) == Some([c])
  {
    if lo < hi <= |str| {
      assert str[lo..hi][0] == str[lo];
      assert str[lo..lo + 1] == [str[lo]];
    }
  }

  // The items that spell the name.
  lemma NameItem(str: string, ends: seq<nat>, i: nat)
    requires |ends| == 21 && 2 <= i < 13
    ensures Takes(TimestampPattern()[i], str, ends[i], ends[i + 1]) <==>
              Piece(str, ends[i], ends[i + 1]) == Some(["\"timestamp\""[i - 2]])
  {
    hide Takes, Piece;
    KeyItem(i - 2);
    ExactItem(str, Key()[i - 2], ends[i], ends[i + 1]);
  }

  lemma PatternItems()
    ensures var items := TimestampPattern();
      && |items| == 20
      && items[0] == Item(Exactly(','), 0, false) && items[1] == Item(Space, 0, true)
      && items[13] == Item(Space, 0, true) && items[14] == Item(Exactly(':'), 1, false)
      && items[15] == Item(Exactly('"'), 0, false) && items[16] == Item(NonWord, 0, true)
      && items[17] == Item(Digit, 1, true) && items[18] == Item(Exactly('"'), 0, false)
      && items[19] == Item(Space, 0, true)
  {
  }

  /** The expression matches exactly where its pieces can be read one after another. */
  lemma MatchIff(str: string, ends: seq<nat>)
    ensures IsMatch(TimestampPattern(), str, ends) <==> Reads(str, ends)
  {
    if |ends| == 21 {
      hide Takes, Optional, Piece, All, TimestampPattern;
      var items := TimestampPattern();
      PatternItems();
      forall i | 2 <= i < 13
        ensures Takes(items[i], str, ends[i], ends[i + 1]) <==>
                  Piece(str, ends[i], ends[i + 1]) == Some(["\"timestamp\""[i - 2]])
      {
        NameItem(str, ends, i);
      }
      OptionalItem(str, ',', ends[0], ends[1]);
      StarItem(str, Space, ends[1], ends[2]);
      StarItem(str, Space, ends[13], ends[14]);
      ExactItem(str, ':', ends[14], ends[15]);
      OptionalItem(str, '"', ends[15], ends[16]);
      StarItem(str, NonWord, ends[16], ends[17]);
      PlusItem(str, Digit, ends[17], ends[18]);
      OptionalItem(str, '"', ends[18], ends[19]);
      StarItem(str, Space, ends[19], ends[20]);
    }
  }

  // ---------------------------------------------------------------- any text at all

  // The match that JavaScript takes: the leftmost, and of these the one whose items take most.
  ghost predicate IsFound(str: string, ends: seq<nat>) {
    && IsMatch(TimestampPattern(), str, ends)
    && forall other :: IsMatch(TimestampPattern(), str, other) ==>
         ends[0] < other[0] || (ends[0] == other[0] && LexAtMost(other, ends))
  }

  lemma PrefixAgrees(a: seq<nat>, b: seq<nat>, i: nat)
    requires i <= |a| && i <= |b| && a[..i] == b[..i]
    ensures forall k :: 0 <= k < i ==> a[k] == b[k]
  {
    assert forall k :: 0 <= k < i ==> a[..i][k] == a[k] && b[..i][k] == b[k];
  }

  lemma SameMatch(a: seq<nat>, b: seq<nat>)
    requires LexAtMost(a, b) && LexAtMost(b, a)
    ensures a == b
  {
    if a != b {
      var i :| 0 <= i < |a| && a[..i] == b[..i] && a[i] < b[i];
      var j :| 0 <= j < |a| && b[..j] == a[..j] && b[j] < a[j];
      PrefixAgrees(a, b, i);
      PrefixAgrees(a, b, j);
    }
  }

  // Where a match starts is inside the text.
  lemma StartInside(str: string, ends: seq<nat>)
    requires IsMatch(TimestampPattern(), str, ends)
    ensures |ends| == 21 && ends[0] <= ends[20] <= |str|
  {
    EndsOrdered(TimestampPattern(), str, ends, 0, 20);
  }

  lemma SearchIsFound(str: string, ends: seq<nat>)
    requires IsFound(str, ends)
    ensures Search(TimestampPattern(), str, 0) == Some(ends)
  {
    hide IsMatch, TimestampPattern, LexAtMost;
    StartInside(str, ends);
    Leftmost(TimestampPattern(), str, 0, ends);
    var found := Search(TimestampPattern(), str, 0).value;
    GreatestFirst(TimestampPattern(), str, ends);
    SameMatch(ends, found);
  }

  lemma NothingFound(str: string)
    requires forall ends :: !IsMatch(TimestampPattern(), str, ends)
    ensures Search(TimestampPattern(), str, 0).None?
  {
    hide IsMatch, TimestampPattern;
  }

  /** Whenever there is a match, one of them is the one taken. */
  lemma FoundExists(str: string, other: seq<nat>)
    requires IsMatch(TimestampPattern(), str, other)
    ensures exists ends :: IsFound(str, ends)
  {
    hide TimestampPattern, LexAtMost;
    StartInside(str, other);
    Leftmost(TimestampPattern(), str, 0, other);
    var found := Search(TimestampPattern(), str, 0).value;
    forall ends | IsMatch(TimestampPattern(), str, ends)
      ensures found[0] < ends[0] || (found[0] == ends[0] && LexAtMost(ends, found))
    {
      StartInside(str, ends);
      Leftmost(TimestampPattern(), str, 0, ends);
      GreatestFirst(TimestampPattern(), str, ends);
    }
    assert IsFound(str, found);
  }

  // Where the same text occurs there is the same match.
  lemma MatchMoves(items: seq<Item>, str: string, ends: seq<nat>, q: nat)
    requires IsMatch(items, str, ends) && ends[0] <= ends[|items|]
    requires OccursAt(str, str[ends[0]..ends[|items|]], q)
    ensures exists other :: IsMatch(items, str, other) && other[0] == q
  {
    var n, a := |items|, ends[0];
    var other := seq(n + 1, j requires 0 <= j <= n => if ends[j] >= a then q + (ends[j] - a) else 0);
    forall j | 0 <= j < n
      ensures Takes(items[j], str, other[j], other[j + 1])
    {
      EndsOrdered(items, str, ends, 0, j);
      EndsOrdered(items, str, ends, j + 1, n);
      TakesMoves(items[j], str, ends[j], ends[j + 1], a, ends[n], q);
    }
    EndsOrdered(items, str, ends, 0, n);
    assert IsMatch(items, str, other) && other[0] == q;
  }

  lemma TakesMoves(item: Item, str: string, lo: nat, hi: nat, a: nat, z: nat, q: nat)
    requires Takes(item, str, lo, hi) && a <= lo && hi <= z <= |str| && OccursAt(str, str[a..z], q)
    ensures Takes(item, str, q + (lo - a), q + (hi - a))
  {
    forall k | q + (lo - a) <= k < q + (hi - a)
      ensures InClass(item.cls, str[k])
    {
      assert str[q..q + (z - a)][k - q] == str[a..z][k - q];
      assert str[k] == str[a + (k - q)];
    }
  }

  // Cutting the first occurrence of the matched text cuts the match.
  lemma CutIsMatch(str: string, ends: seq<nat>)
    requires IsFound(str, ends) && |ends| == 21 && ends[0] <= ends[20] <= |str|
    ensures CutFirst(str, str[ends[0]..ends[20]]) == str[..ends[0]] + str[ends[20]..]
  {
    hide IsMatch, TimestampPattern, LexAtMost;
    var m := str[ends[0]..ends[20]];
    forall q: nat | q < ends[0]
      ensures !OccursAt(str, m, q)
    {
      if OccursAt(str, m, q) {
        PatternLength();
        MatchMoves(TimestampPattern(), str, ends, q);
      }
    }
    FirstOccurrence(str, m, 0, ends[0]);
  }

  lemma GroupTakes(str: string, ends: seq<nat>)
    requires IsMatch(TimestampPattern(), str, ends)
    ensures ends[17] < ends[18] <= |str|
    ensures forall k :: ends[17] <= k < ends[18] ==> JsonText.IsDigit(str[k])
  {
    assert Takes(TimestampPattern()[17], str, ends[17], ends[18]);
  }

  // The digits that the group of the expression takes, and the text without the match.
  ghost predicate Splits(str: string, ends: seq<nat>, digits: string, rest: string) {
    && |ends| == 21 && ends[17] <= ends[18] <= |str| && ends[0] <= ends[20] <= |str|
    && digits == str[ends[17]..ends[18]]
    && rest == str[..ends[0]] + str[ends[20]..]
  }

  /**
    On every text: with a match the timestamp is the number its digits denote and the members are
    those of the text without it; without a match the members are those of the text. It throws
    exactly if what is left is no object.
   */
  lemma ParseMessageIs(str: string, ends: seq<nat>, digits: string, rest: string)
    ensures (forall other :: !IsMatch(TimestampPattern(), str, other)) ==>
              ParseMessage(str) == (if ParseObject(str).None? then None
                                    else Some(JsMessage(None, ParseObject(str).value)))
    ensures IsFound(str, ends) && Splits(str, ends, digits, rest) ==>
              && digits != "" && (forall k :: 0 <= k < |digits| ==> JsonText.IsDigit(digits[k]))
              && ParseMessage(str) == (if ParseObject(rest).None? then None
                                       else Some(JsMessage(Some(DigitsValue(digits)), ParseObject(rest).value)))
  {
    hide ParseObject, DigitsValue, IsMatch, TimestampPattern, LexAtMost, Search, CutFirst;
    if forall other :: !IsMatch(TimestampPattern(), str, other) {
      NothingFound(str);
    }
    if IsFound(str, ends) && Splits(str, ends, digits, rest) {
      SearchIsFound(str, ends);
      CutIsMatch(str, ends);
      GroupTakes(str, ends);
      PatternLength();
    }
  }

  lemma PatternLength()
    ensures |TimestampPattern()| == 20
  {
  }
}

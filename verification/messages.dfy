/**
  The chat message shared by the servers (wschat-go/common/message.go, wschat-cpp/message.hpp,
  wschat-rust/src/message.rs) and the texts these print for it.
 */
module Messages {
  import opened Options
  import opened JsonText

  datatype Action = Connect | Chat | Disconnect | Error

  datatype Message = Message(sender: string, action: Action, contents: string, timestamp: int)

  function SystemMessage(action: Action, contents: string, now: int): Message {
    Message("system", action, contents, now)
  }

  function ActionName(a: Action): string {
    match a
    case Connect => "connect"
    case Chat => "chat"
    case Disconnect => "disconnect"
    case Error => "error"
  }

  // action_from_string, and the Go codec; None is their invalid-action error.
  function ActionFromName(s: string): Option<Action> {
    if s == "connect" then Some(Connect)
    else if s == "chat" then Some(Chat)
    else if s == "disconnect" then Some(Disconnect)
    else if s == "error" then Some(Error)
    else None
  }

  /** A name is accepted as an action exactly when it is that action's own name, one of the four. */
  lemma ActionCodec(s: string, a: Action)
    ensures ActionFromName(s) == Some(a) <==> s == ActionName(a)
    ensures s == ActionName(a) <==>
      (s == "connect" && a.Connect?) || (s == "chat" && a.Chat?) || (s == "disconnect" && a.Disconnect?)
      || (s == "error" && a.Error?)
  {
    assert |"connect"| == 7 && |"chat"| == 4 && |"disconnect"| == 10 && |"error"| == 5;
  }

  function Present(f: Field): seq<Field> {
    if f.1 == "" then [] else [f]
  }

  // encoding/json prints the fields in their order and omits those that are empty.
  function GoFields(m: Message): seq<Field> {
    Present(("sender", m.sender)) + [("action", ActionName(m.action))] + Present(("contents", m.contents))
  }

  function GoText(m: Message): string {
    Encode(GoEscaper, GoFields(m), if m.timestamp == 0 then None else Some(m.timestamp))
  }

  // nlohmann::json keeps the members of an object sorted by name.
  function CppFields(m: Message): seq<Field> {
    [("action", ActionName(m.action)), ("contents", m.contents), ("sender", m.sender)]
  }

  function CppText(m: Message): string {
    Encode(CppEscaper, CppFields(m), Some(m.timestamp))
  }

  // The Rust server's spelling of the actions.
  function RustActionName(a: Action): string {
    if a.Disconnect? then "discconnect" else ActionName(a)
  }

  // serde prints the fields in their order; the timestamp is an unsigned integer.
  function RustFields(m: Message): seq<Field> {
    [("sender", m.sender), ("action", RustActionName(m.action)), ("contents", m.contents)]
  }

  function RustText(m: Message): string
    requires m.timestamp >= 0
  {
    Encode(CppEscaper, RustFields(m), Some(m.timestamp))
  }

  /** The Rust server's spelling names the action to its readers iff it is not a disconnect. */
  lemma RustActionCodec(a: Action)
    ensures ActionFromName(RustActionName(a)) == if a.Disconnect? then None else Some(a)
  {
    assert |"discconnect"| == 11 && |"disconnect"| == 10 && |"connect"| == 7 && |"chat"| == 4 && |"error"| == 5;
    if !a.Disconnect? {
      ActionCodec(ActionName(a), a);
    }
  }

  // ---------------------------------------------------------------- the texts as they are

  // A member as it stands in a text: the members' names need no escapes.
  function Printed(esc: char -> string, name: string, value: string): string {
    "\"" + name + "\":\"" + Escape(esc, value) + "\""
  }

  predicate IsPlain(t: string) {
    forall i :: 0 <= i < |t| ==> 'a' <= t[i] <= 'z'
  }

  lemma {:induction false} PlainText(esc: char -> string, t: string)
    requires IsPlain(t) && forall c :: 'a' <= c <= 'z' ==> esc(c) == [c]
    ensures Escape(esc, t) == t
  {
    if t != [] {
      PlainText(esc, t[1..]);
      assert esc(t[0]) == [t[0]];
    }
  }

  lemma PlainMember(esc: char -> string, name: string, value: string)
    requires IsPlain(name) && forall c :: 'a' <= c <= 'z' ==> esc(c) == [c]
    ensures Member(esc, (name, value)) == Printed(esc, name, value)
  {
    PlainText(esc, name);
    hide Escape;
  }

  lemma JoinTwo(esc: char -> string, a: Field, b: Field)
    ensures Join(esc, [a, b]) == Member(esc, a) + "," + Member(esc, b)
  {
    hide Member;
    assert [a, b][1..] == [b];
  }

  lemma JoinThree(esc: char -> string, a: Field, b: Field, c: Field)
    ensures Join(esc, [a, b, c]) == Member(esc, a) + "," + Member(esc, b) + "," + Member(esc, c)
  {
    hide Member;
    assert [a, b, c][1..] == [b, c];
    JoinTwo(esc, b, c);
  }

  lemma ThreeAndTimestamp(esc: char -> string, a: Field, b: Field, c: Field, timestamp: int)
    requires IsPlain(a.0) && IsPlain(b.0) && IsPlain(c.0) && forall c :: 'a' <= c <= 'z' ==> esc(c) == [c]
    ensures Encode(esc, [a, b, c], Some(timestamp)) ==
              "{" + (Printed(esc, a.0, a.1) + "," + Printed(esc, b.0, b.1) + "," + Printed(esc, c.0, c.1))
              + "," + "\"timestamp\":" + Dec(timestamp) + "}"
  {
    PlainMember(esc, a.0, a.1);
    PlainMember(esc, b.0, b.1);
    PlainMember(esc, c.0, c.1);
    JoinThree(esc, a, b, c);
    hide Join, Member, Printed, Dec;
  }

  /** The C++ server prints all the members, in alphabetical order and without blanks. */
  lemma CppTextIs(m: Message)
    ensures CppText(m) ==
              "{" + (Printed(CppEscaper, "action", ActionName(m.action)) + ","
                     + Printed(CppEscaper, "contents", m.contents) + "," + Printed(CppEscaper, "sender", m.sender))
              + "," + "\"timestamp\":" + Dec(m.timestamp) + "}"
  {
    PlainLetters();
    assert IsPlain("action") && IsPlain("contents") && IsPlain("sender");
    hide Encode, Printed, Dec, CppEscaper, ActionName, IsPlain;
    ThreeAndTimestamp(CppEscaper, ("action", ActionName(m.action)), ("contents", m.contents),
                      ("sender", m.sender), m.timestamp);
  }

  /** The Rust server prints them in the order of the struct. */
  lemma RustTextIs(m: Message)
    requires m.timestamp >= 0
    ensures RustText(m) ==
              "{" + (Printed(CppEscaper, "sender", m.sender) + ","
                     + Printed(CppEscaper, "action", RustActionName(m.action)) + ","
                     + Printed(CppEscaper, "contents", m.contents))
              + "," + "\"timestamp\":" + Dec(m.timestamp) + "}"
  {
    PlainLetters();
    assert IsPlain("action") && IsPlain("contents") && IsPlain("sender");
    hide Encode, Printed, Dec, CppEscaper, RustActionName, IsPlain;
    ThreeAndTimestamp(CppEscaper, ("sender", m.sender), ("action", RustActionName(m.action)),
                      ("contents", m.contents), m.timestamp);
  }

  lemma JoinGo(a: Field, b: Field, c: Field)
    requires IsPlain(a.0) && IsPlain(b.0) && IsPlain(c.0)
    ensures Join(GoEscaper, Present(a) + [b] + Present(c)) ==
              (if a.1 == "" then "" else Printed(GoEscaper, a.0, a.1) + ",") + Printed(GoEscaper, b.0, b.1)
              + (if c.1 == "" then "" else "," + Printed(GoEscaper, c.0, c.1))
  {
    PlainLetters();
    hide Member, GoEscaper, Printed, Escape, IsPlain;
    PlainMember(GoEscaper, a.0, a.1);
    PlainMember(GoEscaper, b.0, b.1);
    PlainMember(GoEscaper, c.0, c.1);
    if a.1 == "" && c.1 == "" {
      assert Present(a) + [b] + Present(c) == [b];
    } else if a.1 == "" {
      assert Present(a) + [b] + Present(c) == [b, c];
      JoinTwo(GoEscaper, b, c);
    } else if c.1 == "" {
      assert Present(a) + [b] + Present(c) == [a, b];
      JoinTwo(GoEscaper, a, b);
    } else {
      assert Present(a) + [b] + Present(c) == [a, b, c];
      JoinThree(GoEscaper, a, b, c);
    }
  }

  /** The Go server leaves out an empty sender, empty contents and a zero timestamp, with their commas. */
  lemma GoTextIs(m: Message)
    ensures var members :=
        (if m.sender == "" then "" else Printed(GoEscaper, "sender", m.sender) + ",")
        + Printed(GoEscaper, "action", ActionName(m.action))
        + (if m.contents == "" then "" else "," + Printed(GoEscaper, "contents", m.contents));
      GoText(m) == if m.timestamp == 0 then "{" + members + "}"
                   else "{" + members + "," + "\"timestamp\":" + Dec(m.timestamp) + "}"
  {
    assert IsPlain("action") && IsPlain("contents") && IsPlain("sender");
    hide Join, Dec, GoEscaper, Printed, ActionName, IsPlain, Present;
    JoinGo(("sender", m.sender), ("action", ActionName(m.action)), ("contents", m.contents));
  }

  lemma PlainLetters()
    ensures forall c :: 'a' <= c <= 'z' ==> CppEscaper(c) == [c] && GoEscaper(c) == [c]
  {
  }
}

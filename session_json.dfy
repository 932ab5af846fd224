/** The text form in which a conversation is kept in the session: a JSON
    array of objects with the properties "Role" and "Content", in that order,
    written without whitespace. Inside a string value a quotation mark and a
    backslash are escaped with a backslash; every other character is written
    as itself. The parser accepts exactly this form and the literal `null`. */
module SessionJson {
  import opened Wrappers
  import opened Services

  const JsonNull := "null"
  const JsonException := "JsonException"

  const RolePrefix := "{\"Role\":"
  const ContentPrefix := ",\"Content\":"
  const ObjectEnd := "}"

  /** The body of a JSON string literal for `s`, without the quotation marks. */
  function Escape(s: string): string {
    if |s| == 0 then ""
    else (if s[0] == '"' || s[0] == '\\' then ['\\', s[0]] else [s[0]]) + Escape(s[1..])
  }

  function EncodeString(s: string): string {
    "\"" + Escape(s) + "\""
  }

  function EncodeMessage(m: ChatMessage): string {
    RolePrefix + EncodeString(m.role) + ContentPrefix + EncodeString(m.content) + ObjectEnd
  }

  /** The encoded messages separated by commas. */
  function EncodeElements(history: seq<ChatMessage>): string {
    if |history| == 0 then ""
    else if |history| == 1 then EncodeMessage(history[0])
    else EncodeMessage(history[0]) + "," + EncodeElements(history[1..])
  }

  /** The stored text for a conversation. */
  function Serialize(history: seq<ChatMessage>): (json: string)
    ensures json != "" && json != JsonNull
  {
    "[" + EncodeElements(history) + "]"
  }

  /** What remains of `s` after the literal `lit`, or None when `s` does not
      start with it. */
  function Literal(lit: string, s: string): (r: Option<string>)
    ensures r.Some? ==> lit + r.value == s
  {
    if lit <= s then Some(s[|lit|..]) else None
  }

  /** Parses the body of a string literal up to and including its closing
      quotation mark; returns the decoded string and the rest. */
  function ParseStringBody(s: string): (r: Option<(string, string)>)
    ensures r.Some? ==> |r.value.1| < |s|
  {
    if |s| == 0 then None
    else if s[0] == '"' then Some(("", s[1..]))
    else if s[0] == '\\' then
      if |s| < 2 || (s[1] != '"' && s[1] != '\\') then None
      else
        match ParseStringBody(s[2..])
        case None => None
        case Some((t, rest)) => Some(([s[1]] + t, rest))
    else
      match ParseStringBody(s[1..])
      case None => None
      case Some((t, rest)) => Some(([s[0]] + t, rest))
  }

  function ParseString(s: string): (r: Option<(string, string)>)
    ensures r.Some? ==> |r.value.1| < |s|
  {
    match Literal("\"", s)
    case None => None
    case Some(body) => ParseStringBody(body)
  }

  function ParseMessage(s: string): (r: Option<(ChatMessage, string)>)
    ensures r.Some? ==> |r.value.1| < |s|
  {
    match Literal(RolePrefix, s)
    case None => None
    case Some(s1) =>
      match ParseString(s1)
      case None => None
      case Some((role, s2)) =>
        match Literal(ContentPrefix, s2)
        case None => None
        case Some(s3) =>
          match ParseString(s3)
          case None => None
          case Some((content, s4)) =>
            match Literal(ObjectEnd, s4)
            case None => None
            case Some(s5) => Some((ChatMessage(role, content), s5))
  }

  /** Parses one or more messages separated by commas. */
  function ParseElements(s: string): (r: Option<(seq<ChatMessage>, string)>)
    ensures r.Some? ==> |r.value.1| < |s|
    decreases |s|
  {
    match ParseMessage(s)
    case None => None
    case Some((m, rest)) =>
      if |rest| > 0 && rest[0] == ',' then
        match ParseElements(rest[1..])
        case None => None
        case Some((ms, rest')) => Some(([m] + ms, rest'))
      else Some(([m], rest))
  }

  /** The conversation a stored text describes: Ok(None) for the JSON null,
      Ok(Some(h)) for an array, and an error (the serializer throws) for
      anything else. */
  function Deserialize(json: string): (r: Result<Option<seq<ChatMessage>>, string>)
    ensures json == JsonNull ==> r == Ok(None)
    ensures r.Err? ==> r.error == JsonException
  {
    if json == JsonNull then Ok(None)
    else
      match Literal("[", json)
      case None => Err(JsonException)
      case Some(body) =>
        if body == "]" then Ok(Some([]))
        else
          match ParseElements(body)
          case Some((items, "]")) => Ok(Some(items))
          case _ => Err(JsonException)
  }

  lemma {:induction false} ParseStringBodyEscape(s: string, rest: string)
    ensures ParseStringBody(Escape(s) + "\"" + rest) == Some((s, rest))
  {
    if |s| == 0 {
      assert Escape(s) + "\"" + rest == ['"'] + rest;
    } else {
      var tail := Escape(s[1..]) + "\"" + rest;
      ParseStringBodyEscape(s[1..], rest);
      if s[0] == '"' || s[0] == '\\' {
        assert Escape(s) + "\"" + rest == ['\\', s[0]] + tail;
        assert (['\\', s[0]] + tail)[2..] == tail;
      } else {
        assert Escape(s) + "\"" + rest == [s[0]] + tail;
        assert ([s[0]] + tail)[1..] == tail;
      }
      assert [s[0]] + s[1..] == s;
    }
  }

  lemma ParseStringEncode(s: string, rest: string)
    ensures ParseString(EncodeString(s) + rest) == Some((s, rest))
  {
    assert EncodeString(s) + rest == "\"" + (Escape(s) + "\"" + rest);
    ParseStringBodyEscape(s, rest);
  }

  lemma LiteralPrefix(lit: string, rest: string)
    ensures Literal(lit, lit + rest) == Some(rest)
  {
  }

  lemma ParseMessageEncode(m: ChatMessage, rest: string)
    ensures ParseMessage(EncodeMessage(m) + rest) == Some((m, rest))
  {
    var s4 := ObjectEnd + rest;
    var s3 := EncodeString(m.content) + s4;
    var s2 := ContentPrefix + s3;
    var s1 := EncodeString(m.role) + s2;
    assert EncodeMessage(m) + rest == RolePrefix + s1;
    LiteralPrefix(RolePrefix, s1);
    ParseStringEncode(m.role, s2);
    LiteralPrefix(ContentPrefix, s3);
    ParseStringEncode(m.content, s4);
    LiteralPrefix(ObjectEnd, rest);
  }

  lemma {:induction false} ParseElementsEncode(history: seq<ChatMessage>, rest: string)
    requires |history| > 0
    requires |rest| == 0 || rest[0] != ','
    ensures ParseElements(EncodeElements(history) + rest) == Some((history, rest))
  {
    if |history| == 1 {
      ParseMessageEncode(history[0], rest);
      assert [history[0]] == history;
    } else {
      var tail := EncodeElements(history[1..]) + rest;
      assert EncodeElements(history) + rest == EncodeMessage(history[0]) + ("," + tail);
      ParseMessageEncode(history[0], "," + tail);
      assert ("," + tail)[1..] == tail;
      ParseElementsEncode(history[1..], rest);
      assert [history[0]] + history[1..] == history;
    }
  }

  /** Reading back a stored conversation yields the same messages, in the
      same order. */
  lemma DeserializeSerialize(history: seq<ChatMessage>)
    ensures Deserialize(Serialize(history)) == Ok(Some(history))
  {
    var body := EncodeElements(history) + "]";
    assert Serialize(history) == "[" + body;
    LiteralPrefix("[", body);
    if |history| > 0 {
      ParseElementsEncode(history, "]");
      assert body != "]" by {
        ParseMessageEncode(history[0], "]");
        assert |EncodeElements(history)| > 0 by {
          var e := EncodeMessage(history[0]);
          assert |e| >= |RolePrefix|;
        }
      }
    }
  }

  lemma {:induction false} ParseStringBodyInverse(s: string)
    requires ParseStringBody(s).Some?
    ensures s == Escape(ParseStringBody(s).value.0) + "\"" + ParseStringBody(s).value.1
  {
    var (t, rest) := ParseStringBody(s).value;
    if s[0] == '"' {
      assert t == "";
    } else if s[0] == '\\' {
      ParseStringBodyInverse(s[2..]);
      var t' := ParseStringBody(s[2..]).value.0;
      assert t == [s[1]] + t';
      assert t[1..] == t';
      assert Escape(t) == ['\\', s[1]] + Escape(t');
      assert s == s[..2] + s[2..];
    } else {
      ParseStringBodyInverse(s[1..]);
      var t' := ParseStringBody(s[1..]).value.0;
      assert t == [s[0]] + t';
      assert t[1..] == t';
      assert Escape(t) == [s[0]] + Escape(t');
      assert s == [s[0]] + s[1..];
    }
  }

  lemma {:induction false} ParseStringInverse(s: string)
    requires ParseString(s).Some?
    ensures s == EncodeString(ParseString(s).value.0) + ParseString(s).value.1
  {
    var body := Literal("\"", s).value;
    ParseStringBodyInverse(body);
  }

  lemma {:induction false} ParseMessageInverse(s: string, m: ChatMessage, rest: string)
    requires ParseMessage(s) == Some((m, rest))
    ensures s == EncodeMessage(m) + rest
  {
    var s1 := Literal(RolePrefix, s).value;
    var p2 := ParseString(s1).value;
    var s3 := Literal(ContentPrefix, p2.1).value;
    var p4 := ParseString(s3).value;
    assert m == ChatMessage(p2.0, p4.0);
    assert p4.1 == ObjectEnd + rest;
    ParseStringInverse(s3);
    assert s3 == EncodeString(m.content) + (ObjectEnd + rest);
    ParseStringInverse(s1);
    assert s1 == EncodeString(m.role) + (ContentPrefix + (EncodeString(m.content) + (ObjectEnd + rest)));
    assert s == RolePrefix + (EncodeString(m.role) + (ContentPrefix + (EncodeString(m.content) + (ObjectEnd + rest))));
    Regroup(RolePrefix, EncodeString(m.role), ContentPrefix, EncodeString(m.content), ObjectEnd, rest);
  }

  lemma SplitHead(x: string)
    requires |x| > 0
    ensures x == [x[0]] + x[1..]
  {
  }

  lemma Regroup3(a: string, b: string, c: string, r: string)
    ensures a + b + c + r == a + (b + (c + r))
  {
  }

  lemma Regroup(a: string, b: string, c: string, d: string, e: string, r: string)
    ensures a + b + c + d + e + r == a + (b + (c + (d + (e + r))))
  {
  }

  lemma {:induction false} ParseElementsInverse(s: string, history: seq<ChatMessage>, rest: string)
    requires ParseElements(s) == Some((history, rest))
    ensures |history| > 0
    ensures s == EncodeElements(history) + rest
    ensures |rest| == 0 || rest[0] != ','
    decreases |s|
  {
    var (m, after) := ParseMessage(s).value;
    ParseMessageInverse(s, m, after);
    if |after| > 0 && after[0] == ',' {
      var (ms, rest') := ParseElements(after[1..]).value;
      ParseElementsInverse(after[1..], ms, rest');
      assert history == [m] + ms && rest == rest';
      assert history[1..] == ms;
      assert EncodeElements(history) == EncodeMessage(m) + "," + EncodeElements(ms);
      SplitHead(after);
      Regroup3(EncodeMessage(m), ",", EncodeElements(ms), rest);
    } else {
      assert history == [m] && rest == after;
    }
  }

  /** The parser does not fail open: a text it accepts is the JSON null or
      exactly the serializer's text for the conversation it returns. */
  lemma SerializeDeserialize(json: string)
    requires Deserialize(json).Ok?
    ensures json == JsonNull || (Deserialize(json).value.Some? && json == Serialize(Deserialize(json).value.value))
  {
    if json != JsonNull {
      var body := Literal("[", json).value;
      if body == "]" {
        assert json == Serialize([]);
      } else {
        var (items, rest) := ParseElements(body).value;
        ParseElementsInverse(body, items, rest);
      }
    }
  }
}

/** The server's own JSON style, as one of the styles of the printer, and one event written in it. */
module JsonDumps {
  import opened Prelude
  import opened JsonText
  import SseReader

  function HexChar(d: nat): char
    requires d < 16
  {
    if d < 10 then '0' + d as char else 'a' + (d - 10) as char
  }

  /** `json.dumps(.., ensure_ascii=False)`: short escapes, and \u escapes for the other control characters. */
  function Escaped(c: char): string {
    if c == '"' then "\\\""
    else if c == '\\' then "\\\\"
    else if c == '\n' then "\\n"
    else if c == '\r' then "\\r"
    else if c == '\t' then "\\t"
    else if c == 8 as char then "\\b"
    else if c == 12 as char then "\\f"
    else if c < ' ' then "\\u00" + [HexChar(c as nat / 16), HexChar(c as nat % 16)]
    else [c]
  }

  const DUMPS := Style(_ => ", ", _ => ": ", _ => "", _ => "", (_, c) => Escaped(c))

  lemma {:induction false} EscapedIsValid(c: char)
    ensures ValidEscape(Escaped(c))
  {
    if c < ' ' {
      assert Escaped(c)[0] == '\\';
    }
  }

  /** The style is one that the reader understands. */
  lemma {:induction false} DumpsIsValid()
    ensures ValidStyle(DUMPS) && OneLineStyle(DUMPS)
  {
    assert WhiteSpace("") && WhiteSpace(" ");
    assert Structural(", ", ',') by {
      assert ", "[0] == ',' && ", "[..0] == "" && ", "[1..] == " ";
    }
    assert Structural(": ", ':') by {
      assert ": "[0] == ':' && ": "[..0] == "" && ": "[1..] == " ";
    }
    forall c ensures ValidEscape(Escaped(c)) {
      EscapedIsValid(c);
    }
  }

  /** The characters that the grammar of sections 2 and 7 of RFC 8259 allows: white space, the letters of the
      short escapes, the digits of the long ones, and those that need no escape. */
  lemma {:induction false} GrammarIs(c: char)
    ensures WhiteSpace([c]) <==> c == ' ' || c == '\t' || c == '\n' || c == '\r'
    ensures ValidEscape(['\\', c]) <==> c == '"' || c == '\\' || c == '/' || c == 'b' || c == 'f' || c == 'n' || c == 'r' || c == 't'
    ensures ValidEscape("\\u000" + [c]) <==> '0' <= c <= '9' || 'a' <= c <= 'f' || 'A' <= c <= 'F'
    ensures ValidEscape([c]) <==> c >= ' ' && c != '"' && c != '\\'
    ensures NumberText([c]) <==>
      '0' <= c <= '9' || c == '+' || c == '-' || c == '.' || c == 'e' || c == 'E'
    ensures NumberText("1" + [c]) <==> NumberText([c]) && !NumberText("")
    ensures WellFormed(Null) && WellFormed(Bool(true)) && WellFormed(Str([c]))
  {
    assert ("1" + [c])[1] == c && ("1" + [c])[0] == '1';
    var long := "\\u000" + [c];
    assert long[0] == '\\' && long[1] == 'u' && long[2] == '0' && long[3] == '0' && long[4] == '0' && long[5] == c;
    assert UnicodeEscape(long) <==> HexDigit(c);
    assert [c][0] == c && ['\\', c][1] == c;
  }

  /** Text without quotes, backslashes and control characters is written as it is. */
  lemma {:induction false} PlainBody(at: Place, s: string)
    requires forall i :: 0 <= i < |s| ==> s[i] >= ' ' && s[i] != '"' && s[i] != '\\'
    ensures PrintBody(DUMPS, at, s) == s
  {
    if s != "" {
      PlainBody(at, s[..|s| - 1]);
      SplitLast([], s);
    }
  }

  lemma {:induction false} PlainText(at: Place, s: string)
    requires forall i :: 0 <= i < |s| ==> s[i] >= ' ' && s[i] != '"' && s[i] != '\\'
    ensures Print(DUMPS, at, Str(s)) == "\"" + s + "\"" && PrintString(DUMPS, at, s) == "\"" + s + "\""
  {
    PlainBody(at, s);
  }

  /** One object, written out: names and texts in quotes, literals by name, numbers as they are, and the
      separators of the style between them. */
  lemma {:induction false} DoneEvent()
    ensures Print(DUMPS, [], Obj([Field("type", Str("done")), Field("ok", Bool(true)), Field("xs", Arr([Number("10"), Bool(false), Null]))]))
         == "{" + ("\"type\": " + "\"done\"" + ", "
                   + ("\"ok\": " + "true" + ", "
                      + ("\"xs\": " + ("[" + ("10" + ", " + ("false" + ", " + "null")) + "]")))) + "}"
  {
    hide *;
    var xs := Arr([Number("10"), Bool(false), Null]);
    PlainText([0] + [1], "done");
    ThreeItems([2] + [1], Number("10"), Bool(false), Null);
    FieldText([0], "type", Str("done"));
    FieldText([1], "ok", Bool(true));
    FieldText([2], "xs", xs);
    ThreeFields(Field("type", Str("done")), Field("ok", Bool(true)), Field("xs", xs));
    Literals([1] + [1], [2] + [1]);
  }

  lemma {:induction false} Literals(at: Place, other: Place)
    ensures Print(DUMPS, at, Bool(true)) == "true" && Print(DUMPS, other + [0], Number("10")) == "10"
    ensures Print(DUMPS, other + [1], Bool(false)) == "false" && Print(DUMPS, other + [2], Null) == "null"
    ensures "\"" + "type" + "\": " == "\"type\": " && "\"" + "ok" + "\": " == "\"ok\": "
    ensures "\"" + "xs" + "\": " == "\"xs\": " && "\"" + "done" + "\"" == "\"done\""
  {
  }

  lemma {:induction false} ThreeItems(at: Place, a: Json, b: Json, c: Json)
    ensures Print(DUMPS, at, Arr([a, b, c]))
         == "[" + (Print(DUMPS, at + [0], a) + ", " + (Print(DUMPS, at + [1], b) + ", " + Print(DUMPS, at + [2], c))) + "]"
  {
    var whole := Arr([a, b, c]);
    assert [a, b, c][1..] == [b, c] && [b, c][1..] == [c];
    assert PrintItems(DUMPS, at, whole, [c], 2) == Print(DUMPS, at + [2], c);
    var last := PrintItems(DUMPS, at, whole, [b, c], 1);
    assert last == Print(DUMPS, at + [1], b) + ", " + Print(DUMPS, at + [2], c);
    var items := PrintItems(DUMPS, at, whole, [a, b, c], 0);
    assert items == Print(DUMPS, at + [0], a) + ", " + last;
    assert "[" + "" + items + "" + "]" == "[" + items + "]";
  }

  lemma {:induction false} ThreeFields(a: Field, b: Field, c: Field)
    ensures Print(DUMPS, [], Obj([a, b, c]))
         == "{" + (PrintField(DUMPS, [0], a) + ", " + (PrintField(DUMPS, [1], b) + ", " + PrintField(DUMPS, [2], c))) + "}"
  {
    hide PrintField;
    var whole := Obj([a, b, c]);
    assert [] + [0] == [0] && [] + [1] == [1] && [] + [2] == [2];
    assert [a, b, c][1..] == [b, c] && [b, c][1..] == [c];
    assert PrintFields(DUMPS, [], whole, [c], 2) == PrintField(DUMPS, [2], c);
    var last := PrintFields(DUMPS, [], whole, [b, c], 1);
    assert last == PrintField(DUMPS, [1], b) + ", " + PrintField(DUMPS, [2], c);
    var fields := PrintFields(DUMPS, [], whole, [a, b, c], 0);
    assert fields == PrintField(DUMPS, [0], a) + ", " + last;
    assert "{" + "" + fields + "" + "}" == "{" + fields + "}";
  }

  lemma {:induction false} FieldText(at: Place, name: string, value: Json)
    requires forall i :: 0 <= i < |name| ==> name[i] >= ' ' && name[i] != '"' && name[i] != '\\'
    ensures PrintField(DUMPS, at, Field(name, value)) == "\"" + name + "\": " + Print(DUMPS, at + [1], value)
  {
    hide Print, PrintString;
    PlainText(at + [0], name);
    assert "\"" + name + "\"" + ": " == "\"" + name + "\": ";
  }
}

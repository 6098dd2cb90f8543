/** JSON as `json.dumps` writes it without white space, and a reader that takes it back. */
module JsonText {
  import opened Wrappers
  import opened Text

  datatype Json = Str(text: string) | Number(n: nat) | Flag(on: bool) | Array(items: seq<Json>) | Object(fields: seq<Field>)

  datatype Field = Field(name: string, value: Json)

  // --------------------------------------------------------------------------- writing

  function HexDigit(n: nat): char
    requires n < 16
  {
    "0123456789abcdef"[n]
  }

  /** A character inside a JSON string; text beyond ASCII is written as it is. */
  function Escaped(c: char): (r: string)
    ensures 1 <= |r| <= 6
  {
    if c == '\"' then "\\\""
    else if c == '\\' then "\\\\"
    else if c == '\n' then "\\n"
    else if c == '\r' then "\\r"
    else if c == '\t' then "\\t"
    else if c == '\U{8}' then "\\b"
    else if c == '\U{C}' then "\\f"
    else if c < ' ' then "\\u00" + [HexDigit(c as int / 16), HexDigit(c as int % 16)]
    else [c]
  }

  /** How wide a character becomes: two for those with a short escape, six for the other control characters. */
  lemma EscapeWidth(c: char)
    ensures |Escaped(c)| == if c in {'\"', '\\', '\n', '\r', '\t', '\U{8}', '\U{C}'} then 2 else if c as int < 32 then 6 else 1
  {
  }

  function EscapedText(s: string): string {
    if s == "" then "" else Escaped(s[0]) + EscapedText(s[1..])
  }

  function Quoted(s: string): string {
    "\"" + EscapedText(s) + "\""
  }

  function Dump(v: Json): string
    decreases v
  {
    match v
    case Str(text) => Quoted(text)
    case Number(n) => Decimal(n)
    case Flag(on) => if on then "true" else "false"
    case Array(items) => "[" + DumpItems(items) + "]"
    case Object(fields) => "{" + DumpFields(fields) + "}"
  }

  function DumpItems(items: seq<Json>): string
    decreases items
  {
    if items == [] then "" else Dump(items[0]) + (if |items| == 1 then "" else "," + DumpItems(items[1..]))
  }

  function DumpField(field: Field): string
    decreases field
  {
    Quoted(field.name) + ":" + Dump(field.value)
  }

  function DumpFields(fields: seq<Field>): string
    decreases fields
  {
    if fields == [] then "" else DumpField(fields[0]) + (if |fields| == 1 then "" else "," + DumpFields(fields[1..]))
  }

  // --------------------------------------------------------------------------- reading

  /** What was read, and the text behind it. */
  datatype Taken<T> = Taken(got: T, rest: string)

  function HexValue(c: char): Option<nat> {
    if '0' <= c <= '9' then Some(c as int - '0' as int)
    else if 'a' <= c <= 'f' then Some(c as int - 'a' as int + 10)
    else None
  }

  function ReadHex(s: string): Option<Taken<char>>
    requires |s| >= 6
  {
    var a, b, c, d := HexValue(s[2]), HexValue(s[3]), HexValue(s[4]), HexValue(s[5]);
    if a.None? || b.None? || c.None? || d.None? then None
    else
      var code := a.value * 4096 + b.value * 256 + c.value * 16 + d.value;
      if code < 0xD800 then Some(Taken(code as char, s[6..])) else None
  }

  /** One character of a string, which is not its closing quote. */
  function ReadChar(s: string): (r: Option<Taken<char>>)
    ensures r.Some? ==> |r.value.rest| < |s|
  {
    if s == "" || s[0] == '\"' || s[0] < ' ' then None
    else if s[0] != '\\' then Some(Taken(s[0], s[1..]))
    else if |s| < 2 then None
    else
      match s[1]
      case '\"' => Some(Taken('\"', s[2..]))
      case '\\' => Some(Taken('\\', s[2..]))
      case 'n' => Some(Taken('\n', s[2..]))
      case 'r' => Some(Taken('\r', s[2..]))
      case 't' => Some(Taken('\t', s[2..]))
      case 'b' => Some(Taken('\U{8}', s[2..]))
      case 'f' => Some(Taken('\U{C}', s[2..]))
      case 'u' => if |s| < 6 then None else ReadHex(s)
      case _ => None
  }

  /** A string from behind its opening quote. */
  function ReadText(s: string): (r: Option<Taken<string>>)
    ensures r.Some? ==> |r.value.rest| < |s|
    decreases |s|
  {
    if s != "" && s[0] == '\"' then Some(Taken("", s[1..]))
    else
      var first := ReadChar(s);
      if first.None? then None
      else
        var more := ReadText(first.value.rest);
        if more.None? then None else Some(Taken([first.value.got] + more.value.got, more.value.rest))
  }

  predicate DigitChar(c: char) { '0' <= c <= '9' }

  function DigitRun(s: string): (n: nat)
    ensures n <= |s|
  {
    if s == "" || !DigitChar(s[0]) then 0 else 1 + DigitRun(s[1..])
  }

  function Read(s: string): (r: Option<Taken<Json>>)
    ensures r.Some? ==> |r.value.rest| < |s|
    decreases |s|, 0
  {
    if s == "" then None
    else if s[0] == '\"' then
      var text := ReadText(s[1..]);
      if text.None? then None else Some(Taken(Str(text.value.got), text.value.rest))
    else if s[0] == '[' then
      if |s| > 1 && s[1] == ']' then Some(Taken(Array([]), s[2..]))
      else
        var items := ReadItems(s[1..]);
        if items.None? then None else Some(Taken(Array(items.value.got), items.value.rest))
    else if s[0] == '{' then
      if |s| > 1 && s[1] == '}' then Some(Taken(Object([]), s[2..]))
      else
        var fields := ReadFields(s[1..]);
        if fields.None? then None else Some(Taken(Object(fields.value.got), fields.value.rest))
    else if DigitChar(s[0]) then
      var n := DigitRun(s);
      var value := Value(s[..n]);
      if value < 0 then None else Some(Taken(Number(value), s[n..]))
    else if |s| >= 4 && s[..4] == "true" then Some(Taken(Flag(true), s[4..]))
    else if |s| >= 5 && s[..5] == "false" then Some(Taken(Flag(false), s[5..]))
    else None
  }

  /** Items up to the closing bracket. */
  function ReadItems(s: string): (r: Option<Taken<seq<Json>>>)
    ensures r.Some? ==> |r.value.rest| < |s|
    decreases |s|, 1
  {
    var first := Read(s);
    if first.None? || first.value.rest == "" then None
    else if first.value.rest[0] == ']' then Some(Taken([first.value.got], first.value.rest[1..]))
    else if first.value.rest[0] != ',' then None
    else
      var more := ReadItems(first.value.rest[1..]);
      if more.None? then None else Some(Taken([first.value.got] + more.value.got, more.value.rest))
  }

  function ReadField(s: string): (r: Option<Taken<Field>>)
    ensures r.Some? ==> |r.value.rest| < |s|
    decreases |s|, 1
  {
    if s == "" || s[0] != '\"' then None
    else
      var name := ReadText(s[1..]);
      if name.None? || name.value.rest == "" || name.value.rest[0] != ':' then None
      else
        var value := Read(name.value.rest[1..]);
        if value.None? then None else Some(Taken(Field(name.value.got, value.value.got), value.value.rest))
  }

  /** Fields up to the closing brace. */
  function ReadFields(s: string): (r: Option<Taken<seq<Field>>>)
    ensures r.Some? ==> |r.value.rest| < |s|
    decreases |s|, 2
  {
    var first := ReadField(s);
    if first.None? || first.value.rest == "" then None
    else if first.value.rest[0] == '}' then Some(Taken([first.value.got], first.value.rest[1..]))
    else if first.value.rest[0] != ',' then None
    else
      var more := ReadFields(first.value.rest[1..]);
      if more.None? then None else Some(Taken([first.value.got] + more.value.got, more.value.rest))
  }

  // ------------------------------------------------------------------------ round trip

  lemma CharComesBack(c: char, rest: string)
    ensures ReadChar(Escaped(c) + rest) == Some(Taken(c, rest))
    ensures Escaped(c)[0] != '\"'
  {
    var s := Escaped(c) + rest;
    if |Escaped(c)| == 1 {
      assert s[1..] == rest;
    } else if |Escaped(c)| == 2 {
      assert s[2..] == rest;
    } else {
      assert s[6..] == rest;
      assert c as int == c as int / 16 * 16 + c as int % 16;
    }
  }

  lemma {:induction false} TextComesBack(s: string, rest: string)
    ensures ReadText(EscapedText(s) + "\"" + rest) == Some(Taken(s, rest))
  {
    var whole := EscapedText(s) + "\"" + rest;
    if s == "" {
      assert whole[1..] == rest;
    } else {
      var behind := EscapedText(s[1..]) + "\"" + rest;
      assert whole == Escaped(s[0]) + behind;
      CharComesBack(s[0], behind);
      TextComesBack(s[1..], rest);
      assert [s[0]] + s[1..] == s;
    }
  }

  lemma {:induction false} DecimalIsDigits(n: nat)
    ensures forall i | 0 <= i < |Decimal(n)| :: DigitChar(Decimal(n)[i])
  {
    if n >= 10 {
      DecimalIsDigits(n / 10);
    }
  }

  predicate NoDigitFirst(s: string) { s != "" ==> !DigitChar(s[0]) }

  lemma {:induction false} RunOfDigits(digits: string, rest: string)
    requires forall i | 0 <= i < |digits| :: DigitChar(digits[i])
    requires NoDigitFirst(rest)
    ensures DigitRun(digits + rest) == |digits|
  {
    if digits == "" {
      assert digits + rest == rest;
    } else {
      assert (digits + rest)[1..] == digits[1..] + rest;
      RunOfDigits(digits[1..], rest);
    }
  }

  lemma NumberComesBack(n: nat, rest: string)
    requires NoDigitFirst(rest)
    ensures Read(Decimal(n) + rest) == Some(Taken(Number(n), rest))
  {
    var digits := Decimal(n);
    DecimalIsDigits(n);
    DecimalHasValue(n);
    RunOfDigits(digits, rest);
    assert (digits + rest)[..|digits|] == digits && (digits + rest)[|digits|..] == rest;
  }

  lemma FlagComesBack(on: bool, rest: string)
    ensures Read(Dump(Flag(on)) + rest) == Some(Taken(Flag(on), rest))
  {
    var s := Dump(Flag(on)) + rest;
    if on {
      assert s[..4] == "true" && s[4..] == rest;
    } else {
      assert s[..5] == "false" && s[5..] == rest;
    }
  }

  lemma QuotedComesBack(text: string, rest: string)
    ensures (Quoted(text) + rest)[0] == '\"' && ReadText((Quoted(text) + rest)[1..]) == Some(Taken(text, rest))
  {
    TextComesBack(text, rest);
    assert (Quoted(text) + rest)[1..] == EscapedText(text) + "\"" + rest;
  }

  /** What is written for a value begins with none of the closing marks. */
  lemma Opening(v: Json)
    ensures Dump(v) != "" && Dump(v)[0] != ']' && Dump(v)[0] != '}'
  {
    if v.Number? {
      DecimalIsDigits(v.n);
    }
  }

  /** Whatever a value holds, reading what was written for it gives it back and leaves what stood behind. */
  lemma {:induction false} ComesBack(v: Json, rest: string)
    requires NoDigitFirst(rest)
    ensures Read(Dump(v) + rest) == Some(Taken(v, rest))
    decreases v
  {
    match v
    case Str(text) => QuotedComesBack(text, rest);
    case Number(n) => NumberComesBack(n, rest);
    case Flag(on) => FlagComesBack(on, rest);
    case Array(items) => ArrayComesBack(items, rest);
    case Object(fields) => ObjectComesBack(fields, rest);
  }

  lemma ItemThenMore(s: string, item: Json, behind: string, more: seq<Json>, rest: string)
    requires Read(s) == Some(Taken(item, "," + behind)) && ReadItems(behind) == Some(Taken(more, rest))
    ensures ReadItems(s) == Some(Taken([item] + more, rest))
  {
    assert ("," + behind)[1..] == behind;
  }

  lemma FieldThenMore(s: string, field: Field, behind: string, more: seq<Field>, rest: string)
    requires ReadField(s) == Some(Taken(field, "," + behind)) && ReadFields(behind) == Some(Taken(more, rest))
    ensures ReadFields(s) == Some(Taken([field] + more, rest))
  {
    assert ("," + behind)[1..] == behind;
  }

  lemma LastItem(s: string, item: Json, rest: string)
    requires Read(s) == Some(Taken(item, "]" + rest))
    ensures ReadItems(s) == Some(Taken([item], rest))
  {
    assert ("]" + rest)[1..] == rest;
  }

  lemma LastField(s: string, field: Field, rest: string)
    requires ReadField(s) == Some(Taken(field, "}" + rest))
    ensures ReadFields(s) == Some(Taken([field], rest))
  {
    assert ("}" + rest)[1..] == rest;
  }

  lemma Bracketed(inner: string, items: seq<Json>, rest: string)
    requires inner != "" && inner[0] != ']' && ReadItems(inner + "]" + rest) == Some(Taken(items, rest))
    ensures Read("[" + inner + "]" + rest) == Some(Taken(Array(items), rest))
  {
    assert ("[" + inner + "]" + rest)[1..] == inner + "]" + rest;
  }

  lemma {:induction false} ArrayComesBack(items: seq<Json>, rest: string)
    ensures Read(Dump(Array(items)) + rest) == Some(Taken(Array(items), rest))
    decreases items, 1
  {
    if items == [] {
      assert (Dump(Array(items)) + rest)[2..] == rest;
    } else {
      ItemsComeBack(items, rest);
      Opening(items[0]);
      Bracketed(DumpItems(items), items, rest);
    }
  }

  lemma {:induction false} ItemsComeBack(items: seq<Json>, rest: string)
    requires items != []
    ensures ReadItems(DumpItems(items) + "]" + rest) == Some(Taken(items, rest))
    decreases items, 0
  {
    var whole := DumpItems(items) + "]" + rest;
    if |items| == 1 {
      assert whole == Dump(items[0]) + ("]" + rest) && [items[0]] == items;
      ComesBack(items[0], "]" + rest);
      LastItem(whole, items[0], rest);
    } else {
      var behind := DumpItems(items[1..]) + "]" + rest;
      assert whole == Dump(items[0]) + ("," + behind);
      ComesBack(items[0], "," + behind);
      ItemsComeBack(items[1..], rest);
      ItemThenMore(whole, items[0], behind, items[1..], rest);
      assert [items[0]] + items[1..] == items;
    }
  }

  lemma NameThenValue(s: string, name: string, value: Json, behind: string, rest: string)
    requires s != "" && s[0] == '\"' && ReadText(s[1..]) == Some(Taken(name, ":" + behind))
    requires Read(behind) == Some(Taken(value, rest))
    ensures ReadField(s) == Some(Taken(Field(name, value), rest))
  {
    assert (":" + behind)[1..] == behind;
  }

  lemma DumpedFieldThen(field: Field, rest: string)
    ensures DumpField(field) + rest == Quoted(field.name) + (":" + (Dump(field.value) + rest))
  {
  }

  lemma DumpedFieldsThen(fields: seq<Field>, rest: string)
    requires |fields| > 1
    ensures DumpFields(fields) + "}" + rest == DumpField(fields[0]) + ("," + (DumpFields(fields[1..]) + "}" + rest))
  {
  }

  lemma {:induction false} FieldComesBack(field: Field, rest: string)
    requires NoDigitFirst(rest)
    ensures ReadField(DumpField(field) + rest) == Some(Taken(field, rest))
    decreases field
  {
    var behind := Dump(field.value) + rest;
    DumpedFieldThen(field, rest);
    QuotedComesBack(field.name, ":" + behind);
    ComesBack(field.value, rest);
    NameThenValue(DumpField(field) + rest, field.name, field.value, behind, rest);
  }

  lemma {:induction false} ObjectComesBack(fields: seq<Field>, rest: string)
    ensures Read(Dump(Object(fields)) + rest) == Some(Taken(Object(fields), rest))
    decreases fields, 2
  {
    var s := Dump(Object(fields)) + rest;
    if fields == [] {
      assert s[2..] == rest;
    } else {
      FieldsComeBack(fields, rest);
      assert s[1..] == DumpFields(fields) + "}" + rest;
      assert s[1] == '\"';
    }
  }

  lemma {:induction false} OneFieldComesBack(fields: seq<Field>, rest: string)
    requires |fields| == 1
    ensures ReadFields(DumpFields(fields) + "}" + rest) == Some(Taken(fields, rest))
    decreases fields, 0
  {
    var whole := DumpFields(fields) + "}" + rest;
    assert whole == DumpField(fields[0]) + ("}" + rest) && [fields[0]] == fields;
    FieldComesBack(fields[0], "}" + rest);
    LastField(whole, fields[0], rest);
  }

  lemma {:induction false} FieldsComeBack(fields: seq<Field>, rest: string)
    requires fields != []
    ensures ReadFields(DumpFields(fields) + "}" + rest) == Some(Taken(fields, rest))
    decreases fields, 1
  {
    if |fields| == 1 {
      OneFieldComesBack(fields, rest);
    } else {
      var behind := DumpFields(fields[1..]) + "}" + rest;
      DumpedFieldsThen(fields, rest);
      FieldComesBack(fields[0], "," + behind);
      FieldsComeBack(fields[1..], rest);
      FieldThenMore(DumpField(fields[0]) + ("," + behind), fields[0], behind, fields[1..], rest);
      assert [fields[0]] + fields[1..] == fields;
    }
  }
}

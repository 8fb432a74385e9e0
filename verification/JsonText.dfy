/** JSON texts: the printer json.dumps is with ensure_ascii off and compact
    separators, a parser for the grammar of RFC 8259 (sections 2 to 7) without
    insignificant whitespace, and the round trip between the two. */
module JsonText {
  import opened Options
  import opened Text
  import opened JsonValues

  // ------------------------------------------------------------- printing

  function HexDigit(d: nat): char
    requires d < 16
  {
    if d < 10 then ('0' as int + d) as char else ('a' as int + d - 10) as char
  }

  function EscapeChar(c: char): (e: string)
    ensures e != "" && e[0] != '"'
  {
    if c == '"' then "\\\""
    else if c == '\\' then "\\\\"
    else if c == '\n' then "\\n"
    else if c == '\r' then "\\r"
    else if c == '\t' then "\\t"
    else if c == '\U{0008}' then "\\b"
    else if c == '\U{000C}' then "\\f"
    else if c < ' ' then "\\u00" + [HexDigit(c as int / 16), HexDigit(c as int % 16)]
    else [c]
  }

  function Escape(s: string): string {
    if s == "" then "" else EscapeChar(s[0]) + Escape(s[1..])
  }

  function Print(v: Json): string
    decreases v, 1
  {
    match v
    case Null => "null"
    case Bool(b) => if b then "true" else "false"
    case Int(i) => Numeral(i)
    case Float(token) => token
    case Str(s) => "\"" + Escape(s) + "\""
    case Arr(items) => "[" + PrintItems(items) + "]"
    case Obj(fields) => "{" + PrintFields(fields) + "}"
  }

  function PrintItems(items: seq<Json>): string
    decreases items, 0
  {
    if items == [] then ""
    else if |items| == 1 then Print(items[0])
    else Print(items[0]) + "," + PrintItems(items[1..])
  }

  function PrintMember(f: Field): string
    decreases f, 2
  {
    "\"" + Escape(f.key) + "\"" + ":" + Print(f.value)
  }

  function PrintFields(fields: seq<Field>): string
    decreases fields, 0
  {
    if fields == [] then ""
    else if |fields| == 1 then PrintMember(fields[0])
    else PrintMember(fields[0]) + "," + PrintFields(fields[1..])
  }

  // -------------------------------------------------------------- numbers

  predicate NumberChar(c: char) {
    IsDigit(c) || c == '-' || c == '+' || c == '.' || c == 'e' || c == 'E'
  }

  function NumberRun(t: string): (n: nat)
    ensures n <= |t|
  {
    if t == "" || !NumberChar(t[0]) then 0 else 1 + NumberRun(t[1..])
  }

  function DropDigits(t: string): (r: string)
    ensures |r| <= |t|
  {
    if t != "" && IsDigit(t[0]) then DropDigits(t[1..]) else t
  }

  /** [1-9] digit* or a lone zero; what follows it is returned. */
  function IntegerPart(t: string): Option<string> {
    if t == "" || !IsDigit(t[0]) then None
    else if t[0] == '0' then Some(t[1..])
    else Some(DropDigits(t[1..]))
  }

  function FractionPart(t: string): Option<string> {
    if t == "" || t[0] != '.' then Some(t)
    else if |t| > 1 && IsDigit(t[1]) then Some(DropDigits(t[1..]))
    else None
  }

  function ExponentPart(t: string): Option<string> {
    if t == "" || (t[0] != 'e' && t[0] != 'E') then Some(t)
    else
      var signed := |t| > 1 && (t[1] == '+' || t[1] == '-');
      var digits := if signed then t[2..] else t[1..];
      if digits != "" && IsDigit(digits[0]) then Some(DropDigits(digits)) else None
  }

  /** The number grammar of section 6. */
  predicate IsNumber(t: string) {
    var unsigned := if t != "" && t[0] == '-' then t[1..] else t;
    match IntegerPart(unsigned)
    case None => false
    case Some(afterInt) =>
      match FractionPart(afterInt)
      case None => false
      case Some(afterFraction) => ExponentPart(afterFraction) == Some("")
  }

  /** What float.__repr__ yields for a finite float: a number that is no integer numeral. */
  predicate FloatToken(t: string) {
    IsNumber(t) && NumeralValue(t).None? && NumberRun(t) == |t|
  }

  /** Every float in the value is printable as itself. */
  predicate Printable(v: Json)
    decreases v
  {
    match v
    case Float(token) => FloatToken(token)
    case Arr(items) => forall i :: 0 <= i < |items| ==> Printable(items[i])
    case Obj(fields) => forall i :: 0 <= i < |fields| ==> Printable(fields[i].value)
    case _ => true
  }

  // -------------------------------------------------------------- parsing

  function HexValue(c: char): Option<nat> {
    if '0' <= c <= '9' then Some(c as int - '0' as int)
    else if 'a' <= c <= 'f' then Some(c as int - 'a' as int + 10)
    else if 'A' <= c <= 'F' then Some(c as int - 'A' as int + 10)
    else None
  }

  /** Four hexadecimal digits at the head of the text. */
  function Hex4(t: string): Option<nat> {
    if |t| < 4 then None
    else
      match (HexValue(t[0]), HexValue(t[1]), HexValue(t[2]), HexValue(t[3]))
      case (Some(a), Some(b), Some(c), Some(d)) => Some(a * 4096 + b * 256 + c * 16 + d)
      case _ => None
  }

  /** The text after a backslash; \u escapes outside the basic plane come as surrogate pairs. */
  function ParseEscape(t: string): (r: Option<(char, string)>)
    ensures r.Some? ==> |r.value.1| < |t|
  {
    if t == "" then None
    else if t[0] == '"' || t[0] == '\\' || t[0] == '/' then Some((t[0], t[1..]))
    else if t[0] == 'b' then Some(('\U{0008}', t[1..]))
    else if t[0] == 'f' then Some(('\U{000C}', t[1..]))
    else if t[0] == 'n' then Some(('\n', t[1..]))
    else if t[0] == 'r' then Some(('\r', t[1..]))
    else if t[0] == 't' then Some(('\t', t[1..]))
    else if t[0] == 'u' then ParseUnicodeEscape(t[1..])
    else None
  }

  function ParseUnicodeEscape(t: string): (r: Option<(char, string)>)
    ensures r.Some? ==> |r.value.1| < |t|
  {
    match Hex4(t)
    case None => None
    case Some(high) =>
      if high < 0xD800 || 0xE000 <= high <= 0xFFFF then Some((high as char, t[4..]))
      else if high < 0xDC00 && |t| > 6 && t[4] == '\\' && t[5] == 'u' then
        match Hex4(t[6..])
        case Some(low) =>
          if 0xDC00 <= low < 0xE000 then
            Some(((0x1_0000 + (high - 0xD800) * 0x400 + (low - 0xDC00)) as char, t[10..]))
          else None
        case None => None
      else None
  }

  /** The characters of a string up to and including its closing quote. */
  function ParseChars(t: string): (r: Option<(string, string)>)
    ensures r.Some? ==> |r.value.1| < |t|
    decreases |t|
  {
    if t == "" then None
    else if t[0] == '"' then Some(("", t[1..]))
    else if t[0] < ' ' then None
    else if t[0] != '\\' then
      match ParseChars(t[1..])
      case Some((s, rest)) => Some(([t[0]] + s, rest))
      case None => None
    else
      match ParseEscape(t[1..])
      case None => None
      case Some((c, after)) =>
        match ParseChars(after)
        case Some((s, rest)) => Some(([c] + s, rest))
        case None => None
  }

  function ParseNumber(token: string): Option<Json> {
    if !IsNumber(token) then None
    else
      match NumeralValue(token)
      case Some(i) => Some(Int(i))
      case None => Some(Float(token))
  }

  function ParseValue(t: string): (r: Option<(Json, string)>)
    ensures r.Some? ==> |r.value.1| < |t|
    decreases |t|, 0
  {
    if t == "" then None
    else if t[0] == '"' then
      match ParseChars(t[1..])
      case Some((s, rest)) => Some((Str(s), rest))
      case None => None
    else if t[0] == '[' then
      if |t| > 1 && t[1] == ']' then Some((Arr([]), t[2..]))
      else
        match ParseItems(t[1..])
        case Some((items, rest)) => Some((Arr(items), rest))
        case None => None
    else if t[0] == '{' then
      if |t| > 1 && t[1] == '}' then Some((Obj([]), t[2..]))
      else
        match ParseFields(t[1..])
        case Some((fields, rest)) => Some((Obj(fields), rest))
        case None => None
    else if "null" <= t then Some((Null, t[4..]))
    else if "true" <= t then Some((Bool(true), t[4..]))
    else if "false" <= t then Some((Bool(false), t[5..]))
    else
      var n := NumberRun(t);
      match ParseNumber(t[..n])
      case Some(v) => if n == 0 then None else Some((v, t[n..]))
      case None => None
  }

  function ParseItems(t: string): (r: Option<(seq<Json>, string)>)
    ensures r.Some? ==> |r.value.1| < |t|
    decreases |t|, 1
  {
    match ParseValue(t)
    case None => None
    case Some((v, after)) =>
      if after == "" then None
      else if after[0] == ']' then Some(([v], after[1..]))
      else if after[0] == ',' then
        match ParseItems(after[1..])
        case Some((vs, rest)) => Some(([v] + vs, rest))
        case None => None
      else None
  }

  function ParseFields(t: string): (r: Option<(seq<Field>, string)>)
    ensures r.Some? ==> |r.value.1| < |t|
    decreases |t|, 1
  {
    if t == "" || t[0] != '"' then None
    else
      match ParseChars(t[1..])
      case None => None
      case Some((key, colon)) =>
        if colon == "" || colon[0] != ':' then None
        else
          match ParseValue(colon[1..])
          case None => None
          case Some((v, after)) =>
            if after == "" then None
            else if after[0] == '}' then Some(([Field(key, v)], after[1..]))
            else if after[0] == ',' then
              match ParseFields(after[1..])
              case Some((fs, rest)) => Some(([Field(key, v)] + fs, rest))
              case None => None
            else None
  }

  function Parse(t: string): Option<Json> {
    match ParseValue(t)
    case Some((v, rest)) => if rest == "" then Some(v) else None
    case None => None
  }

  // ----------------------------------------------------------- round trip

  /** A text that cannot prolong a number. */
  predicate Delimited(rest: string) { rest == "" || !NumberChar(rest[0]) }

  lemma {:induction false} RunStops(token: string, rest: string)
    requires NumberRun(token) == |token| && Delimited(rest)
    ensures NumberRun(token + rest) == |token|
  {
    if token == "" {
      assert token + rest == rest;
    } else {
      assert (token + rest)[1..] == token[1..] + rest;
      RunStops(token[1..], rest);
    }
  }

  lemma {:induction false} DigitsOnly(s: string)
    requires AllDigits(s)
    ensures DropDigits(s) == "" && NumberRun(s) == |s|
  {
    if s != "" { DigitsOnly(s[1..]); }
  }

  lemma NumeralIsNumber(i: int)
    ensures IsNumber(Numeral(i)) && NumberRun(Numeral(i)) == |Numeral(i)|
  {
    var digits := Decimal(if i < 0 then -i else i);
    DigitsOnly(digits);
    DigitsOnly(digits[1..]);
    if i < 0 { assert Numeral(i)[1..] == digits; }
  }

  lemma EscapeCharRoundTrip(c: char, tail: string)
    ensures var t := EscapeChar(c) + tail;
            && t[0] >= ' '
            && (t[0] != '\\' ==> t == [c] + tail)
            && (t[0] == '\\' ==> ParseEscape(t[1..]) == Some((c, tail)))
  {
    var t := EscapeChar(c) + tail;
    if |EscapeChar(c)| == 2 {
      assert t[1..][1..] == tail;
    } else if |EscapeChar(c)| == 6 {
      var hex := t[2..];
      assert t[1..][1..] == hex && hex[4..] == tail;
      assert hex[0] == '0' && hex[1] == '0';
      assert hex[2] == HexDigit(c as int / 16) && hex[3] == HexDigit(c as int % 16);
      assert Hex4(hex) == Some(c as int);
    }
  }

  /** ParseChars on a text whose first character is known. */
  lemma ParseOneChar(t: string, c: char, after: string, s: string, rest: string)
    requires t != "" && t[0] >= ' ' && t[0] != '"' && ParseChars(after) == Some((s, rest))
    requires t[0] != '\\' ==> c == t[0] && after == t[1..]
    requires t[0] == '\\' ==> ParseEscape(t[1..]) == Some((c, after))
    ensures ParseChars(t) == Some(([c] + s, rest))
  {
  }

  lemma {:induction false} CharsRoundTrip(s: string, rest: string)
    ensures ParseChars(Escape(s) + "\"" + rest) == Some((s, rest))
  {
    if s == "" {
      assert Escape(s) + "\"" + rest == "\"" + rest;
    } else {
      var tail := Escape(s[1..]) + "\"" + rest;
      CharsRoundTrip(s[1..], rest);
      EscapeCharRoundTrip(s[0], tail);
      var t := EscapeChar(s[0]) + tail;
      ParseOneChar(t, s[0], tail, s[1..], rest);
      EscapeTail(EscapeChar(s[0]), Escape(s[1..]), rest);
      assert s == [s[0]] + s[1..];
    }
  }

  lemma EscapeTail(first: string, more: string, rest: string)
    ensures (first + more) + "\"" + rest == first + (more + "\"" + rest)
  {
  }

  lemma PrintStarts(v: Json)
    requires Printable(v)
    ensures Print(v) != "" && Print(v)[0] != ']' && Print(v)[0] != '}'
  {
  }

  lemma NumberTokenRoundTrip(token: string, v: Json, rest: string)
    requires token != "" && NumberRun(token) == |token| && Delimited(rest)
    requires ParseNumber(token) == Some(v)
    ensures ParseValue(token + rest) == Some((v, rest))
  {
    RunStops(token, rest);
    var t := token + rest;
    assert t[..|token|] == token && t[|token|..] == rest;
    assert NumberChar(t[0]);
  }

  lemma WordRoundTrip(v: Json, rest: string)
    requires v.Null? || v.Bool?
    ensures ParseValue(Print(v) + rest) == Some((v, rest))
  {
    var t := Print(v) + rest;
    assert t[..|Print(v)|] == Print(v) && t[|Print(v)|..] == rest;
    assert t[0] == Print(v)[0];
  }

  lemma TextRoundTrip(s: string, rest: string)
    ensures ParseValue(Print(Str(s)) + rest) == Some((Str(s), rest))
  {
    CharsRoundTrip(s, rest);
    assert (Print(Str(s)) + rest)[1..] == Escape(s) + "\"" + rest;
  }

  /** ParseValue on a text that opens a non-empty array. */
  lemma ParseArray(t: string, items: seq<Json>, rest: string)
    requires |t| > 1 && t[0] == '[' && t[1] != ']'
    requires ParseItems(t[1..]) == Some((items, rest))
    ensures ParseValue(t) == Some((Arr(items), rest))
  {
  }

  /** ParseValue on a text that opens a non-empty object. */
  lemma ParseObject(t: string, fields: seq<Field>, rest: string)
    requires |t| > 1 && t[0] == '{' && t[1] != '}'
    requires ParseFields(t[1..]) == Some((fields, rest))
    ensures ParseValue(t) == Some((Obj(fields), rest))
  {
  }

  lemma EmptyContainers(rest: string)
    ensures ParseValue("[]" + rest) == Some((Arr([]), rest))
    ensures ParseValue("{}" + rest) == Some((Obj([]), rest))
  {
    assert ("[]" + rest)[2..] == rest && ("{}" + rest)[2..] == rest;
  }

  lemma ArrayRoundTrip(items: seq<Json>, rest: string)
    requires forall i :: 0 <= i < |items| ==> Printable(items[i])
    requires items != [] ==> ParseItems(PrintItems(items) + "]" + rest) == Some((items, rest))
    ensures ParseValue(Print(Arr(items)) + rest) == Some((Arr(items), rest))
  {
    var t := Print(Arr(items)) + rest;
    if items == [] {
      EmptyContainers(rest);
      assert t == "[]" + rest;
    } else {
      PrintStarts(items[0]);
      var body := PrintItems(items);
      assert body != "" && body[0] == Print(items[0])[0];
      assert t[1..] == body + "]" + rest;
      assert t[1] == body[0];
      ParseArray(t, items, rest);
    }
  }

  lemma MembersStart(fields: seq<Field>)
    requires fields != []
    ensures PrintFields(fields) != "" && PrintFields(fields)[0] == '"'
  {
    assert PrintMember(fields[0])[0] == '"';
  }

  lemma BraceText(body: string, rest: string)
    requires body != ""
    ensures var t := "{" + body + "}" + rest;
            |t| > 1 && t[0] == '{' && t[1] == body[0] && t[1..] == body + "}" + rest
  {
  }

  lemma ObjectRoundTrip(fields: seq<Field>, rest: string)
    requires fields != [] ==> ParseFields(PrintFields(fields) + "}" + rest) == Some((fields, rest))
    ensures ParseValue(Print(Obj(fields)) + rest) == Some((Obj(fields), rest))
  {
    var t := Print(Obj(fields)) + rest;
    if fields == [] {
      EmptyContainers(rest);
      assert t == "{}" + rest;
    } else {
      MembersStart(fields);
      BraceText(PrintFields(fields), rest);
      ParseObject(t, fields, rest);
    }
  }

  lemma {:induction false} ValueRoundTrip(v: Json, rest: string)
    requires Printable(v) && Delimited(rest)
    ensures ParseValue(Print(v) + rest) == Some((v, rest))
    decreases v, 1
  {
    match v
    case Null => WordRoundTrip(v, rest);
    case Bool(_) => WordRoundTrip(v, rest);
    case Int(i) =>
      NumeralIsNumber(i);
      NumeralRoundTrip(i);
      NumberTokenRoundTrip(Numeral(i), v, rest);
    case Float(token) => NumberTokenRoundTrip(token, v, rest);
    case Str(s) => TextRoundTrip(s, rest);
    case Arr(items) =>
      if items != [] { ItemsRoundTrip(items, rest); }
      ArrayRoundTrip(items, rest);
    case Obj(fields) =>
      if fields != [] { FieldsRoundTrip(fields, rest); }
      ObjectRoundTrip(fields, rest);
  }

  /** ParseItems on a text whose first item is known. */
  lemma ParseItem(t: string, v: Json, after: string)
    requires after != "" && ParseValue(t) == Some((v, after))
    ensures after[0] == ']' ==> ParseItems(t) == Some(([v], after[1..]))
    ensures after[0] == ',' && ParseItems(after[1..]).Some? ==>
              ParseItems(t) == Some(([v] + ParseItems(after[1..]).value.0, ParseItems(after[1..]).value.1))
  {
  }

  lemma SeparatorText(first: string, separator: string, rest: string)
    requires |separator| == 1
    ensures (separator + rest)[1..] == rest && (separator + rest)[0] == separator[0]
    ensures (first + separator) + rest == first + (separator + rest)
  {
  }

  lemma TailText(head: string, more: string, bracket: string, rest: string)
    ensures head + more + bracket + rest == head + (more + bracket + rest)
  {
  }

  lemma {:induction false} ItemsRoundTrip(items: seq<Json>, rest: string)
    requires items != [] && forall i :: 0 <= i < |items| ==> Printable(items[i])
    ensures ParseItems(PrintItems(items) + "]" + rest) == Some((items, rest))
    decreases items, 0
  {
    var v := items[0];
    var first := Print(v);
    if |items| == 1 {
      ValueRoundTrip(v, "]" + rest);
      SeparatorText(first, "]", rest);
      ParseItem(first + ("]" + rest), v, "]" + rest);
      assert items == [v];
    } else {
      var more := PrintItems(items[1..]);
      var tail := more + "]" + rest;
      ItemsRoundTrip(items[1..], rest);
      ValueRoundTrip(v, "," + tail);
      SeparatorText(first, ",", tail);
      ParseItem(first + ("," + tail), v, "," + tail);
      TailText(first + ",", more, "]", rest);
      assert items == [v] + items[1..];
    }
  }

  /** ParseFields on a text whose first member is known. */
  lemma ParseMember(t: string, f: Field, colon: string, after: string)
    requires t != "" && t[0] == '"' && ParseChars(t[1..]) == Some((f.key, colon))
    requires colon != "" && colon[0] == ':' && ParseValue(colon[1..]) == Some((f.value, after))
    requires after != ""
    ensures after[0] == '}' ==> ParseFields(t) == Some(([f], after[1..]))
    ensures after[0] == ',' && ParseFields(after[1..]).Some? ==>
              ParseFields(t) == Some(([f] + ParseFields(after[1..]).value.0, ParseFields(after[1..]).value.1))
  {
  }

  lemma MemberText(key: string, value: string, after: string)
    ensures var t := "\"" + key + "\"" + ":" + value + after;
            var colon := ":" + (value + after);
            && t[0] == '"' && t[1..] == key + "\"" + colon
            && colon[1..] == value + after
  {
    var t := "\"" + key + "\"" + ":" + value + after;
    assert t[1..] == key + "\"" + ":" + value + after;
  }

  lemma MemberRoundTrip(f: Field, after: string)
    requires after != "" && ParseValue(Print(f.value) + after) == Some((f.value, after))
    ensures var t := PrintMember(f) + after;
            && (after[0] == '}' ==> ParseFields(t) == Some(([f], after[1..])))
            && (after[0] == ',' && ParseFields(after[1..]).Some? ==>
                  ParseFields(t) == Some(([f] + ParseFields(after[1..]).value.0, ParseFields(after[1..]).value.1)))
  {
    var colon := ":" + (Print(f.value) + after);
    CharsRoundTrip(f.key, colon);
    MemberText(Escape(f.key), Print(f.value), after);
    ParseMember(PrintMember(f) + after, f, colon, after);
  }

  lemma {:induction false} FieldsRoundTrip(fields: seq<Field>, rest: string)
    requires fields != [] && forall i :: 0 <= i < |fields| ==> Printable(fields[i].value)
    ensures ParseFields(PrintFields(fields) + "}" + rest) == Some((fields, rest))
    decreases fields, 0
  {
    var f := fields[0];
    var first := PrintMember(f);
    if |fields| == 1 {
      ValueRoundTrip(f.value, "}" + rest);
      MemberRoundTrip(f, "}" + rest);
      SeparatorText(first, "}", rest);
      assert fields == [f];
    } else {
      var more := PrintFields(fields[1..]);
      var tail := more + "}" + rest;
      FieldsRoundTrip(fields[1..], rest);
      ValueRoundTrip(f.value, "," + tail);
      MemberRoundTrip(f, "," + tail);
      SeparatorText(first, ",", tail);
      TailText(first + ",", more, "}", rest);
      assert fields == [f] + fields[1..];
    }
  }

  /** Parsing a printed value yields that value. */
  lemma PrintParse(v: Json)
    requires Printable(v)
    ensures Parse(Print(v)) == Some(v)
  {
    ValueRoundTrip(v, "");
    assert Print(v) + "" == Print(v);
  }

  /** Elements and members are separated by a comma, a key from its value by a colon,
      and there is no white space. */
  lemma PrintedForm(a: Json, b: Json, key: string, other: string)
    ensures Print(Arr([])) == "[]" && Print(Obj([])) == "{}"
    ensures Print(Arr([a, b])) == "[" + Print(a) + "," + Print(b) + "]"
    ensures Print(Obj([Field(key, a), Field(other, b)])) ==
      "{" + ("\"" + Escape(key) + "\"" + ":" + Print(a)) + "," + ("\"" + Escape(other) + "\"" + ":" + Print(b)) + "}"
  {
    var items, fields := [a, b], [Field(key, a), Field(other, b)];
    assert items[1..] == [b] && fields[1..] == [Field(other, b)];
    assert PrintItems(items) == Print(a) + "," + PrintItems([b]);
    assert PrintFields(fields) == PrintMember(fields[0]) + "," + PrintFields([Field(other, b)]);
    Around(PrintMember(fields[0]), PrintMember(fields[1]));
  }

  lemma Around(x: string, y: string)
    ensures "{" + (x + "," + y) + "}" == "{" + x + "," + y + "}"
  {
  }

  /** The escapes of section 7 of RFC 8259, the short ones where there are any. */
  lemma KnownEscapes()
    ensures EscapeChar('\n') == "\\n" && EscapeChar('\t') == "\\t" && EscapeChar('"') == "\\\""
    ensures EscapeChar('\\') == "\\\\" && EscapeChar(0x1F as char) == "\\u001f" && EscapeChar('/') == "/"
  {
  }
}

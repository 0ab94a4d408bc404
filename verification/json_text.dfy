/** The JSON text of a checkpoint line, on UTF-8 bytes: what the writer emits and what the reader takes back.
    Control characters inside strings are escaped (section 7 of RFC 8259), so a line holds no newline. */
module JsonText {

  datatype Option<+T> = None | Some(value: T)

  newtype Byte = i: int | 0 <= i < 256

  /** Values.  A number is the token that stands for it: the writer gives different numbers different tokens. */
  datatype Json =
    | Null
    | Bool(flag: bool)
    | Number(token: Token)
    | Text(chars: seq<Byte>)
    | Array(items: Items)
    | Object(fields: Fields)

  datatype Items = Empty | More(value: Json, rest: Items)

  datatype Fields = Nil | Cons(name: seq<Byte>, value: Json, rest: Fields)

  const NEWLINE: Byte := 10
  const QUOTE: Byte := 34
  const BACKSLASH: Byte := 92
  const OPEN: Byte := 123
  const CLOSE: Byte := 125
  const OPEN_LIST: Byte := 91
  const CLOSE_LIST: Byte := 93
  const MINUS: Byte := 45
  const PLUS: Byte := 43
  const POINT: Byte := 46
  const ZERO: Byte := 48

  const NULL: seq<Byte> := [110, 117, 108, 108]
  const TRUE: seq<Byte> := [116, 114, 117, 101]
  const FALSE: seq<Byte> := [102, 97, 108, 115, 101]
  const COLON: seq<Byte> := [58, 32]
  const COMMA: seq<Byte> := [44, 32]

  /* ---------- numbers ---------- */

  predicate IsDigit(c: Byte)
  {
    48 <= c <= 57
  }

  predicate NumberByte(c: Byte)
  {
    IsDigit(c) || c == MINUS || c == PLUS || c == POINT || c == 69 || c == 101
  }

  function AfterDigits(s: seq<Byte>): (r: seq<Byte>)
    ensures |r| <= |s|
  {
    if s != [] && IsDigit(s[0]) then AfterDigits(s[1..]) else s
  }

  /** Nothing, or `e`, a sign if there is one, and digits to the end. */
  predicate Exponent(s: seq<Byte>)
  {
    s == [] ||
    ((s[0] == 69 || s[0] == 101) &&
      var digits := if |s| > 1 && (s[1] == MINUS || s[1] == PLUS) then s[2..] else s[1..];
      digits != [] && AfterDigits(digits) == [])
  }

  predicate Fraction(s: seq<Byte>)
  {
    if s != [] && s[0] == POINT then |s| > 1 && IsDigit(s[1]) && Exponent(AfterDigits(s[1..])) else Exponent(s)
  }

  /** A number as section 6 of RFC 8259 has it: no leading zeros, a digit on each side of the point. */
  predicate NumberToken(s: seq<Byte>)
  {
    && (forall c :: c in s ==> NumberByte(c))
    && var digits := if s != [] && s[0] == MINUS then s[1..] else s;
    && digits != [] && IsDigit(digits[0])
    && Fraction(if digits[0] == ZERO then digits[1..] else AfterDigits(digits))
  }

  type Token = s: seq<Byte> | NumberToken(s) witness [ZERO]

  /* ---------- writing ---------- */

  function HexDigit(n: Byte): Byte
    requires n < 16
  {
    if n < 10 then 48 + n else 87 + n
  }

  function EscapeByte(c: Byte): (r: seq<Byte>)
    ensures NEWLINE !in r && r != []
  {
    if c == QUOTE then [BACKSLASH, QUOTE]
    else if c == BACKSLASH then [BACKSLASH, BACKSLASH]
    else if c == 10 then [BACKSLASH, 110]
    else if c == 13 then [BACKSLASH, 114]
    else if c == 9 then [BACKSLASH, 116]
    else if c == 8 then [BACKSLASH, 98]
    else if c == 12 then [BACKSLASH, 102]
    else if c < 32 then [BACKSLASH, 117, 48, 48, HexDigit(c / 16), HexDigit(c % 16)]
    else [c]
  }

  function Escape(s: seq<Byte>): (r: seq<Byte>)
    ensures NEWLINE !in r
  {
    if s == [] then [] else EscapeByte(s[0]) + Escape(s[1..])
  }

  function Quoted(s: seq<Byte>): (r: seq<Byte>)
    ensures NEWLINE !in r
  {
    [QUOTE] + Escape(s) + [QUOTE]
  }

  /** `json.dumps(value, ensure_ascii=False)`. */
  function Encode(j: Json): (r: seq<Byte>)
    ensures NEWLINE !in r
  {
    match j
    case Null => NULL
    case Bool(flag) => if flag then TRUE else FALSE
    case Number(token) => (assert !NumberByte(NEWLINE); token)
    case Text(s) => Quoted(s)
    case Array(items) => [OPEN_LIST] + EncodeItems(items) + [CLOSE_LIST]
    case Object(fields) => [OPEN] + EncodeFields(fields) + [CLOSE]
  }

  function EncodeItems(items: Items): (r: seq<Byte>)
    ensures NEWLINE !in r
  {
    match items
    case Empty => []
    case More(value, rest) => Encode(value) + (if rest.Empty? then [] else COMMA + EncodeItems(rest))
  }

  function EncodeFields(fields: Fields): (r: seq<Byte>)
    ensures NEWLINE !in r
  {
    match fields
    case Nil => []
    case Cons(name, value, rest) =>
      Quoted(name) + COLON + Encode(value) + (if rest.Nil? then [] else COMMA + EncodeFields(rest))
  }

  /* ---------- reading ---------- */

  function HexValue(c: Byte): Option<Byte>
  {
    if 48 <= c <= 57 then Some(c - 48) else if 97 <= c <= 102 then Some(c - 87) else None
  }

  /** The character an escape stands for, and how many bytes it takes. */
  function Unescape(b: seq<Byte>): (r: Option<(Byte, nat)>)
    requires b != [] && b[0] == BACKSLASH
    ensures r.Some? ==> 0 < r.value.1 <= |b|
  {
    if |b| < 2 then None
    else if b[1] == QUOTE || b[1] == BACKSLASH then Some((b[1], 2))
    else if b[1] == 110 then Some((10, 2))
    else if b[1] == 114 then Some((13, 2))
    else if b[1] == 116 then Some((9, 2))
    else if b[1] == 98 then Some((8, 2))
    else if b[1] == 102 then Some((12, 2))
    else if b[1] == 117 && |b| >= 6 && b[2] == 48 && b[3] == 48 && HexValue(b[4]).Some? && HexValue(b[5]).Some? && HexValue(b[4]).value < 8
      then Some((HexValue(b[4]).value * 16 + HexValue(b[5]).value, 6))
    else None
  }

  /** The rest of a string up to its closing quote; raw control characters are refused. */
  function ReadText(b: seq<Byte>): (r: Option<(seq<Byte>, seq<Byte>)>)
    ensures r.Some? ==> |r.value.1| < |b|
    decreases |b|
  {
    if b == [] || (b[0] < 32) then None
    else if b[0] == QUOTE then Some(([], b[1..]))
    else if b[0] == BACKSLASH then
      match Unescape(b)
      case None => None
      case Some(one) =>
        match ReadText(b[one.1..])
        case None => None
        case Some(more) => Some(([one.0] + more.0, more.1))
    else
      match ReadText(b[1..])
      case None => None
      case Some(more) => Some(([b[0]] + more.0, more.1))
  }

  /** How many of the first bytes can belong to a number. */
  function NumberLength(b: seq<Byte>): (n: nat)
    ensures n <= |b| && (b != [] && NumberByte(b[0]) ==> n > 0)
  {
    if b != [] && NumberByte(b[0]) then 1 + NumberLength(b[1..]) else 0
  }

  function Parse(b: seq<Byte>): (r: Option<(Json, seq<Byte>)>)
    ensures r.Some? ==> |r.value.1| < |b|
    decreases |b|, 0
  {
    if NULL <= b then Some((Null, b[4..]))
    else if TRUE <= b then Some((Bool(true), b[4..]))
    else if FALSE <= b then Some((Bool(false), b[5..]))
    else if b == [] then None
    else if NumberByte(b[0]) then
      var n := NumberLength(b);
      if NumberToken(b[..n]) then Some((Number(b[..n]), b[n..])) else None
    else if b[0] == QUOTE then
      match ReadText(b[1..])
      case None => None
      case Some(text) => Some((Text(text.0), text.1))
    else if b[0] == OPEN then
      if |b| > 1 && b[1] == CLOSE then Some((Object(Nil), b[2..]))
      else
        match ParseFields(b[1..])
        case None => None
        case Some(fields) => Some((Object(fields.0), fields.1))
    else if b[0] == OPEN_LIST then
      if |b| > 1 && b[1] == CLOSE_LIST then Some((Array(Empty), b[2..]))
      else
        match ParseItems(b[1..])
        case None => None
        case Some(items) => Some((Array(items.0), items.1))
    else None
  }

  /** Items up to and including the closing bracket. */
  function ParseItems(b: seq<Byte>): (r: Option<(Items, seq<Byte>)>)
    ensures r.Some? ==> |r.value.1| < |b|
    decreases |b|, 1
  {
    match Parse(b)
    case None => None
    case Some(value) =>
      if value.1 != [] && value.1[0] == CLOSE_LIST then Some((More(value.0, Empty), value.1[1..]))
      else if COMMA <= value.1 then
        match ParseItems(value.1[2..])
        case None => None
        case Some(rest) => Some((More(value.0, rest.0), rest.1))
      else None
  }

  /** Fields up to and including the closing brace. */
  function ParseFields(b: seq<Byte>): (r: Option<(Fields, seq<Byte>)>)
    ensures r.Some? ==> |r.value.1| < |b|
    decreases |b|, 0
  {
    if b == [] || b[0] != QUOTE then None
    else
      match ReadText(b[1..])
      case None => None
      case Some(name) =>
        if !(COLON <= name.1) then None
        else
          match Parse(name.1[2..])
          case None => None
          case Some(value) =>
            if value.1 != [] && value.1[0] == CLOSE then Some((Cons(name.0, value.0, Nil), value.1[1..]))
            else if COMMA <= value.1 then
              match ParseFields(value.1[2..])
              case None => None
              case Some(rest) => Some((Cons(name.0, value.0, rest.0), rest.1))
            else None
  }

  /** `json.loads`: one value and nothing after it. */
  function Decode(b: seq<Byte>): Option<Json>
  {
    match Parse(b)
    case None => None
    case Some(r) => if r.1 == [] then Some(r.0) else None
  }

  /* ---------- round trip ---------- */

  lemma ReadsEscapedByte(c: Byte, rest: seq<Byte>)
    ensures
      var b := EscapeByte(c) + rest;
      && b != [] && b[0] >= 32 && b[0] != QUOTE
      && (b[0] == BACKSLASH ==> Unescape(b) == Some((c, |EscapeByte(c)|)))
      && (b[0] != BACKSLASH ==> EscapeByte(c) == [c] && b[0] == c)
      && b[|EscapeByte(c)|..] == rest
  {
    var b := EscapeByte(c) + rest;
    if c < 32 && c !in {10, 13, 9, 8, 12} {
      assert b[4] == HexDigit(c / 16) && b[5] == HexDigit(c % 16);
    }
  }

  lemma {:induction false} ReadsBack(s: seq<Byte>, rest: seq<Byte>)
    ensures ReadText(Escape(s) + [QUOTE] + rest) == Some((s, rest))
  {
    hide EscapeByte, Unescape;
    if s == [] {
      assert Escape(s) + [QUOTE] + rest == [QUOTE] + rest;
    } else {
      var tail := Escape(s[1..]) + [QUOTE] + rest;
      assert Escape(s) + [QUOTE] + rest == EscapeByte(s[0]) + tail;
      ReadsEscapedByte(s[0], tail);
      ReadsBack(s[1..], rest);
      assert s == [s[0]] + s[1..];
    }
  }

  lemma ReadsQuoted(s: seq<Byte>, rest: seq<Byte>)
    ensures
      var b := Quoted(s) + rest;
      b != [] && b[0] == QUOTE && ReadText(b[1..]) == Some((s, rest))
  {
    var b := Quoted(s) + rest;
    assert b[1..] == Escape(s) + [QUOTE] + rest;
    ReadsBack(s, rest);
  }

  lemma ParsesNull(rest: seq<Byte>)
    ensures Parse(NULL + rest) == Some((Null, rest))
  {
    var b := NULL + rest;
    assert b[..4] == NULL && b[4..] == rest;
  }

  lemma ParsesText(s: seq<Byte>, rest: seq<Byte>)
    ensures Parse(Quoted(s) + rest) == Some((Text(s), rest))
  {
    hide ReadText, Quoted;
    ReadsQuoted(s, rest);
    assert NULL[0] != QUOTE && TRUE[0] != QUOTE && FALSE[0] != QUOTE;
  }

  lemma ParsesBool(flag: bool, rest: seq<Byte>)
    ensures Parse((if flag then TRUE else FALSE) + rest) == Some((Bool(flag), rest))
  {
    var b := (if flag then TRUE else FALSE) + rest;
    if flag {
      assert b[0] == 116 && NULL[0] != 116 && b[..4] == TRUE && b[4..] == rest;
    } else {
      assert b[0] == 102 && NULL[0] != 102 && TRUE[0] != 102 && b[..5] == FALSE && b[5..] == rest;
    }
  }

  lemma {:induction false} TakesTheToken(token: seq<Byte>, rest: seq<Byte>)
    requires forall c :: c in token ==> NumberByte(c)
    requires rest == [] || !NumberByte(rest[0])
    ensures NumberLength(token + rest) == |token|
    decreases |token|
  {
    if token == [] {
      assert token + rest == rest;
    } else {
      assert (token + rest)[0] == token[0] && token[0] in token;
      assert (token + rest)[1..] == token[1..] + rest;
      TakesTheToken(token[1..], rest);
    }
  }

  lemma ParsesNumber(token: Token, rest: seq<Byte>)
    requires rest == [] || !NumberByte(rest[0])
    ensures Parse(token + rest) == Some((Number(token), rest))
  {
    hide Fraction;
    var b := token + rest;
    TakesTheToken(token, rest);
    assert b[..|token|] == token && b[|token|..] == rest;
    assert b[0] == token[0] && NumberByte(b[0]);
    assert !NumberByte(NULL[0]) && !NumberByte(TRUE[0]) && !NumberByte(FALSE[0]);
  }

  lemma ParsesArray(inner: seq<Byte>, items: Items, rest: seq<Byte>)
    requires inner != [] && inner[0] != CLOSE_LIST && ParseItems(inner) == Some((items, rest))
    ensures Parse([OPEN_LIST] + inner) == Some((Array(items), rest))
  {
    hide ParseItems;
    var b := [OPEN_LIST] + inner;
    assert b[0] == OPEN_LIST && NULL[0] != OPEN_LIST && TRUE[0] != OPEN_LIST && FALSE[0] != OPEN_LIST && b[1..] == inner;
  }

  lemma ParsesEmptyArray(rest: seq<Byte>)
    ensures Parse([OPEN_LIST, CLOSE_LIST] + rest) == Some((Array(Empty), rest))
  {
    var b := [OPEN_LIST, CLOSE_LIST] + rest;
    assert b[0] == OPEN_LIST && NULL[0] != OPEN_LIST && TRUE[0] != OPEN_LIST && FALSE[0] != OPEN_LIST && b[2..] == rest;
  }

  /** A value, and then the end or the next item. */
  lemma ParsesItem(text: seq<Byte>, value: Json, after: seq<Byte>)
    requires Parse(text) == Some((value, after))
    ensures after != [] && after[0] == CLOSE_LIST ==> ParseItems(text) == Some((More(value, Empty), after[1..]))
    ensures COMMA <= after && ParseItems(after[2..]).Some? ==>
      var more := ParseItems(after[2..]).value;
      ParseItems(text) == Some((More(value, more.0), more.1))
  {
    hide Parse;
    assert COMMA[0] != CLOSE_LIST;
  }

  lemma ParsesObject(inner: seq<Byte>, fields: Fields, rest: seq<Byte>)
    requires inner != [] && inner[0] != CLOSE && ParseFields(inner) == Some((fields, rest))
    ensures Parse([OPEN] + inner) == Some((Object(fields), rest))
  {
    hide ParseFields;
    var b := [OPEN] + inner;
    assert b[0] == OPEN && NULL[0] != OPEN && TRUE[0] != OPEN && FALSE[0] != OPEN && b[1..] == inner;
  }

  lemma ParsesEmptyObject(rest: seq<Byte>)
    ensures Parse([OPEN, CLOSE] + rest) == Some((Object(Nil), rest))
  {
    var b := [OPEN, CLOSE] + rest;
    assert b[0] == OPEN && NULL[0] != OPEN && TRUE[0] != OPEN && FALSE[0] != OPEN && b[2..] == rest;
  }

  /** A name, a colon, a value, and then the end or the next field. */
  lemma ParsesField(name: seq<Byte>, text: seq<Byte>, value: Json, after: seq<Byte>)
    requires Parse(text) == Some((value, after))
    ensures after != [] && after[0] == CLOSE ==>
      ParseFields(Quoted(name) + COLON + text) == Some((Cons(name, value, Nil), after[1..]))
    ensures COMMA <= after && ParseFields(after[2..]).Some? ==>
      var more := ParseFields(after[2..]).value;
      ParseFields(Quoted(name) + COLON + text) == Some((Cons(name, value, more.0), more.1))
  {
    hide ReadText, Quoted, Parse;
    var b := Quoted(name) + COLON + text;
    assert b == Quoted(name) + (COLON + text);
    ReadsQuoted(name, COLON + text);
    assert (COLON + text)[..2] == COLON && (COLON + text)[2..] == text;
    assert COMMA[0] != CLOSE;
  }

  lemma StartsWithQuote(fields: Fields, rest: seq<Byte>)
    requires fields.Cons?
    ensures EncodeFields(fields) + rest != [] && (EncodeFields(fields) + rest)[0] == QUOTE
  {
    hide Encode;
    assert Quoted(fields.name)[0] == QUOTE;
  }

  /** What may follow a value: only after a number it matters, and there a comma, a bracket or the end will do. */
  predicate Delimits(j: Json, rest: seq<Byte>)
  {
    j.Number? && rest != [] ==> !NumberByte(rest[0])
  }

  /** An encoded value is read back whole, whatever follows it, if no byte after a number could belong to it. */
  lemma {:induction false} ParsesBack(j: Json, rest: seq<Byte>)
    requires Delimits(j, rest)
    ensures Parse(Encode(j) + rest) == Some((j, rest))
    decreases j
  {
    hide Quoted, Parse, ParseFields, ParseItems, NumberToken;
    match j
    case Null => ParsesNull(rest);
    case Bool(flag) => ParsesBool(flag, rest);
    case Number(token) => ParsesNumber(token, rest);
    case Text(s) => ParsesText(s, rest);
    case Array(items) =>
      if items.Empty? {
        ParsesEmptyArray(rest);
        assert Encode(j) + rest == [OPEN_LIST, CLOSE_LIST] + rest;
      } else {
        ItemsParseBack(items, rest);
        ItemsStart(items, [CLOSE_LIST] + rest);
        ParsesArray(EncodeItems(items) + ([CLOSE_LIST] + rest), items, rest);
        Enclosed(OPEN_LIST, EncodeItems(items), CLOSE_LIST, rest);
      }
    case Object(fields) =>
      if fields.Nil? {
        ParsesEmptyObject(rest);
        assert Encode(j) + rest == [OPEN, CLOSE] + rest;
      } else {
        FieldsParseBack(fields, rest);
        StartsWithQuote(fields, [CLOSE] + rest);
        ParsesObject(EncodeFields(fields) + ([CLOSE] + rest), fields, rest);
        Enclosed(OPEN, EncodeFields(fields), CLOSE, rest);
      }
  }

  lemma Enclosed(open: Byte, inner: seq<Byte>, close: Byte, rest: seq<Byte>)
    ensures [open] + inner + [close] + rest == [open] + (inner + ([close] + rest))
  {
  }

  lemma ItemsStart(items: Items, rest: seq<Byte>)
    requires items.More?
    ensures EncodeItems(items) + rest != [] && (EncodeItems(items) + rest)[0] != CLOSE_LIST
  {
    StartsAValue(items.value);
  }

  lemma StartsAValue(j: Json)
    ensures Encode(j) != [] && Encode(j)[0] != CLOSE_LIST
  {
    hide Escape, Fraction;
  }

  /** The delimiter matters: the digits 1 and 2 written one after the other read as twelve. */
  lemma NumbersNeedADelimiter(a: Token, b: Token)
    requires NumberToken(a + b)
    ensures Decode(Encode(Number(a)) + Encode(Number(b))) == Some(Number(a + b))
  {
    hide NumberToken, Parse;
    ParsesNumber(a + b, []);
    assert a + b + [] == a + b;
  }

  lemma {:induction false} ItemsParseBack(items: Items, rest: seq<Byte>)
    requires items.More?
    ensures ParseItems(EncodeItems(items) + ([CLOSE_LIST] + rest)) == Some((items, rest))
    decreases items
  {
    hide Quoted, Parse, ParseItems, NumberToken;
    var more := if items.rest.Empty? then [] else COMMA + EncodeItems(items.rest);
    var after := more + ([CLOSE_LIST] + rest);
    assert after[0] == COMMA[0] || after[0] == CLOSE_LIST;
    ParsesBack(items.value, after);
    ParsesItem(Encode(items.value) + after, items.value, after);
    Grouped(Encode(items.value), more, [CLOSE_LIST] + rest);
    if items.rest.Empty? {
      Closed(CLOSE_LIST, rest);
    } else {
      ItemsParseBack(items.rest, rest);
      SkipsComma(EncodeItems(items.rest), [CLOSE_LIST] + rest);
    }
  }

  lemma Grouped(a: seq<Byte>, b: seq<Byte>, c: seq<Byte>)
    ensures a + b + c == a + (b + c)
  {
  }

  lemma Closed(close: Byte, rest: seq<Byte>)
    ensures [] + ([close] + rest) == [close] + rest && ([close] + rest)[1..] == rest
  {
  }

  lemma Regroup(a: seq<Byte>, b: seq<Byte>, c: seq<Byte>, d: seq<Byte>, e: seq<Byte>)
    ensures a + b + c + d + e == a + b + (c + (d + e))
  {
  }

  lemma {:induction false} FieldsParseBack(fields: Fields, rest: seq<Byte>)
    requires fields.Cons?
    ensures ParseFields(EncodeFields(fields) + ([CLOSE] + rest)) == Some((fields, rest))
    decreases fields
  {
    hide Quoted, Parse, ParseFields;
    var more := if fields.rest.Nil? then [] else COMMA + EncodeFields(fields.rest);
    var after := more + ([CLOSE] + rest);
    assert after[0] == COMMA[0] || after[0] == CLOSE;
    ParsesBack(fields.value, after);
    ParsesField(fields.name, Encode(fields.value) + after, fields.value, after);
    Regroup(Quoted(fields.name), COLON, Encode(fields.value), more, [CLOSE] + rest);
    if fields.rest.Nil? {
      assert after[1..] == rest;
    } else {
      FieldsParseBack(fields.rest, rest);
      SkipsComma(EncodeFields(fields.rest), [CLOSE] + rest);
    }
  }

  lemma SkipsComma(a: seq<Byte>, b: seq<Byte>)
    ensures COMMA <= COMMA + a + b && (COMMA + a + b)[2..] == a + b
  {
  }

  /** Reading back what was written gives the value, and the text never spans two lines. */
  lemma DecodesBack(j: Json)
    ensures Decode(Encode(j)) == Some(j) && NEWLINE !in Encode(j)
  {
    ParsesBack(j, []);
    assert Encode(j) + [] == Encode(j);
  }

  /* ---------- a half line and the line after it ---------- */

  /** A text that starts like an object whose first name has no delimiter in front, and that is a whole value if it
      is one at all. */
  predicate Opens(line: seq<Byte>)
  {
    && |line| > 2 && line[0] == OPEN && line[1] == QUOTE && line[2] !in {COMMA[0], COLON[0], CLOSE, CLOSE_LIST}
    && (Parse(line).Some? ==> Parse(line).value.1 == [])
  }

  /** Neither the next item, nor a value, nor the end of anything. */
  predicate Stuck(rest: seq<Byte>)
  {
    rest == [] || rest[0] !in {COMMA[0], COLON[0], CLOSE, CLOSE_LIST}
  }

  lemma StartsWithLine(line: seq<Byte>)
    requires Opens(line)
    ensures line != [] && line[0] == OPEN && !NumberByte(line[0])
    ensures Stuck(line) && ParseFields(line).None? && ParseItems(line).None?
    ensures Parse(line).Some? ==> Stuck(Parse(line).value.1)
    ensures ReadText(line).Some? ==> Stuck(ReadText(line).value.1)
  {
    hide Parse;
    assert line[1..][0] == QUOTE;
    assert line[1..][1..] == line[2..];
  }

  /** A cut escape followed by the line is no escape. */
  lemma CutEscape(c: Byte, cut: seq<Byte>, line: seq<Byte>)
    requires Opens(line) && cut <= EscapeByte(c) && 0 < |cut| < |EscapeByte(c)|
    ensures cut[0] == BACKSLASH && Unescape(cut + line).None?
  {
    hide Parse;
    var b := cut + line;
    assert b[|cut|] == OPEN;
  }

  /** A cut string runs into the line and ends at its first quote. */
  lemma {:induction false} CutText(s: seq<Byte>, cut: seq<Byte>, line: seq<Byte>)
    requires Opens(line) && cut <= Escape(s)
    ensures ReadText(cut + line).Some? ==> Stuck(ReadText(cut + line).value.1)
    decreases |s|
  {
    hide EscapeByte, Unescape, Opens, Stuck;
    if cut == [] {
      assert cut + line == line;
      StartsWithLine(line);
    } else {
      var head := EscapeByte(s[0]);
      assert Escape(s) == head + Escape(s[1..]);
      if |cut| < |head| {
        assert cut == head[..|cut|];
        CutEscape(s[0], cut, line);
      } else {
        var tail := cut[|head|..];
        assert cut[..|head|] == head && cut + line == head + (tail + line);
        assert tail == Escape(s)[|head|..|cut|];
        ReadsEscapedByte(s[0], tail + line);
        CutText(s[1..], tail, line);
      }
    }
  }

  lemma CutQuoted(s: seq<Byte>, cut: seq<Byte>, line: seq<Byte>)
    requires Opens(line) && cut <= Quoted(s) && 0 < |cut| < |Quoted(s)|
    ensures (cut + line)[0] == QUOTE && (ReadText((cut + line)[1..]).Some? ==> Stuck(ReadText((cut + line)[1..]).value.1))
  {
    hide Opens, Stuck, ReadText;
    assert cut[1..] == Escape(s)[..|cut| - 1];
    assert (cut + line)[1..] == cut[1..] + line;
    CutText(s, cut[1..], line);
  }

  /** A word cut short: null, true or false. */
  lemma CutWord(word: seq<Byte>, cut: seq<Byte>, line: seq<Byte>)
    requires Opens(line) && word in {NULL, TRUE, FALSE} && cut <= word && 0 < |cut| < |word|
    ensures Parse(cut + line).None?
  {
    hide ParseFields, ParseItems, ReadText, Opens;
    StartsWithLine(line);
    var b := cut + line;
    assert b[|cut|] == OPEN && b[0] == word[0];
    assert word[|cut|] in word && OPEN !in word;
    NoPrefix(word, b, |cut|);
    assert NULL[0] == 110 && TRUE[0] == 116 && FALSE[0] == 102;
  }

  lemma NoPrefix(word: seq<Byte>, b: seq<Byte>, k: nat)
    requires k < |word| && k < |b| && word[k] != b[k]
    ensures !(word <= b)
  {
  }

  lemma CutNumber(token: Token, cut: seq<Byte>, line: seq<Byte>)
    requires Opens(line) && cut <= token && 0 < |cut|
    ensures Parse(cut + line).Some? ==> Parse(cut + line).value.1 == line
  {
    hide NumberToken, ParseFields, ParseItems, ReadText, Opens;
    StartsWithLine(line);
    var b := cut + line;
    TokenBytes(token, cut);
    TakesTheToken(cut, line);
    assert b[0] == cut[0] && cut[0] in cut;
    assert !NumberByte(NULL[0]) && !NumberByte(TRUE[0]) && !NumberByte(FALSE[0]);
    assert b[|cut|..] == line;
  }

  lemma TokenBytes(token: Token, cut: seq<Byte>)
    requires cut <= token
    ensures forall c :: c in cut ==> NumberByte(c)
  {
    assert forall c :: c in cut ==> c in token;
  }

  /** A cut value followed by the line reads as nothing, or as something no object or list can go on from. */
  lemma {:induction false} CutValue(j: Json, cut: seq<Byte>, line: seq<Byte>)
    requires Opens(line) && cut <= Encode(j) && |cut| < |Encode(j)|
    ensures Parse(cut + line).Some? ==> Stuck(Parse(cut + line).value.1)
    decreases j
  {
    hide Quoted, Parse, ParseFields, ParseItems, NumberToken, Opens, Stuck, ReadText;
    StartsWithLine(line);
    if cut == [] {
      assert cut + line == line;
    } else {
      match j
      case Null => CutWord(NULL, cut, line);
      case Bool(flag) => CutWord(if flag then TRUE else FALSE, cut, line);
      case Number(token) => CutNumber(token, cut, line);
      case Text(s) => CutString(s, cut, line);
      case Array(items) => CutArray(items, cut, line);
      case Object(fields) => CutObject(fields, cut, line);
    }
  }

  lemma CutString(s: seq<Byte>, cut: seq<Byte>, line: seq<Byte>)
    requires Opens(line) && cut <= Quoted(s) && 0 < |cut| < |Quoted(s)|
    ensures Parse(cut + line).Some? ==> Stuck(Parse(cut + line).value.1)
  {
    hide Quoted, ReadText, ParseFields, ParseItems, Opens, Stuck;
    CutQuoted(s, cut, line);
    assert NULL[0] != QUOTE && TRUE[0] != QUOTE && FALSE[0] != QUOTE;
  }

  lemma {:induction false} CutArray(items: Items, cut: seq<Byte>, line: seq<Byte>)
    requires Opens(line) && cut <= [OPEN_LIST] + EncodeItems(items) + [CLOSE_LIST] && 0 < |cut| < |EncodeItems(items)| + 2
    ensures Parse(cut + line).None?
    decreases items, 1
  {
    hide Encode, EncodeItems, ParseFields, ParseItems, ReadText, Opens;
    StartsWithLine(line);
    var inner := cut[1..];
    assert inner == EncodeItems(items)[..|inner|];
    assert cut + line == [OPEN_LIST] + (inner + line);
    if inner == [] { assert inner + line == line; } else { ItemsBegin(items, inner, line); }
    CutItems(items, inner, line);
    assert (cut + line)[0] == OPEN_LIST && (cut + line)[1..] == inner + line;
    assert NULL[0] != OPEN_LIST && TRUE[0] != OPEN_LIST && FALSE[0] != OPEN_LIST;
  }

  lemma ItemsBegin(items: Items, cut: seq<Byte>, line: seq<Byte>)
    requires cut <= EncodeItems(items) && cut != []
    ensures (cut + line)[0] != CLOSE_LIST
  {
    StartsAValue(items.value);
    assert EncodeItems(items)[0] == Encode(items.value)[0];
  }

  lemma Within(a: seq<Byte>, b: seq<Byte>, cut: seq<Byte>)
    requires cut <= a + b
    ensures |cut| < |a| ==> cut <= a
    ensures |cut| >= |a| ==> cut[|a|..] <= b && forall line :: cut + line == a + (cut[|a|..] + line)
  {
    if |cut| < |a| { assert cut == a[..|cut|]; }
    if |cut| >= |a| {
      assert cut == a + cut[|a|..];
      assert cut[|a|..] == b[..|cut| - |a|];
    }
  }

  function ItemsAfter(rest: Items): seq<Byte>
  {
    if rest.Empty? then [] else COMMA + EncodeItems(rest)
  }

  lemma {:induction false} CutItems(items: Items, cut: seq<Byte>, line: seq<Byte>)
    requires Opens(line) && cut <= EncodeItems(items)
    ensures ParseItems(cut + line).None?
    decreases items, 0
  {
    hide Encode, Parse, ParseItems, ParseFields, ReadText, NumberToken, Opens, Stuck, ItemsAfter;
    StartsWithLine(line);
    if cut == [] {
      assert cut + line == line;
    } else {
      var head := Encode(items.value);
      ItemsText(items);
      Within(head, ItemsAfter(items.rest), cut);
      if |cut| < |head| {
        CutValue(items.value, cut, line);
        if Parse(cut + line).Some? { NotStuck(Parse(cut + line)); }
        ItemFails(cut + line);
      } else {
        var tail := cut[|head|..];
        CutComma(ItemsAfter(items.rest), tail, line);
        ParsesBack(items.value, tail + line);
        if |tail| >= 2 {
          ItemsTail(items, tail, line);
          CutItems(items.rest, tail[2..], line);
        }
        ItemFails(cut + line);
      }
    }
  }

  lemma ItemsText(items: Items)
    requires items.More?
    ensures EncodeItems(items) == Encode(items.value) + ItemsAfter(items.rest)
    ensures ItemsAfter(items.rest) == [] || COMMA <= ItemsAfter(items.rest)
  {
  }

  lemma ItemsTail(items: Items, tail: seq<Byte>, line: seq<Byte>)
    requires items.More? && tail <= ItemsAfter(items.rest) && |tail| >= 2
    ensures tail[2..] <= EncodeItems(items.rest) && (tail + line)[2..] == tail[2..] + line && items.rest.More?
  {
    hide EncodeItems;
    assert tail[2..] == EncodeItems(items.rest)[..|tail| - 2];
  }

  lemma ItemFails(b: seq<Byte>)
    requires Parse(b).Some? ==>
      var after := Parse(b).value.1;
      (after != [] ==> after[0] != CLOSE_LIST) && (COMMA <= after ==> ParseItems(after[2..]).None?)
    ensures ParseItems(b).None?
  {
    hide Parse;
  }

  /** After a value the cut may fall into the comma. */
  lemma CutComma(whole: seq<Byte>, tail: seq<Byte>, line: seq<Byte>)
    requires Opens(line) && tail <= whole && (whole == [] || COMMA <= whole)
    ensures !NumberByte((tail + line)[0]) && (tail + line)[0] != CLOSE && (tail + line)[0] != CLOSE_LIST
    ensures |tail| < 2 ==> !(COMMA <= tail + line)
  {
    hide Parse;
    var b := tail + line;
    assert b[|tail|] == OPEN;
    if |tail| == 1 { assert tail[0] == whole[0] == COMMA[0] && b[1] == OPEN; }
    if |tail| > 1 { assert tail[0] == whole[0] == COMMA[0]; }
  }

  lemma {:induction false} CutObject(fields: Fields, cut: seq<Byte>, line: seq<Byte>)
    requires Opens(line) && cut <= [OPEN] + EncodeFields(fields) + [CLOSE] && 0 < |cut| < |EncodeFields(fields)| + 2
    ensures Parse(cut + line).None?
    decreases fields, 2
  {
    hide Encode, EncodeFields, ParseFields, ParseItems, ReadText, Opens;
    StartsWithLine(line);
    var inner := cut[1..];
    assert inner == EncodeFields(fields)[..|inner|];
    assert cut + line == [OPEN] + (inner + line);
    if inner == [] { assert inner + line == line; } else { FieldsBegin(fields, inner, line); }
    CutFields(fields, inner, line);
    assert (cut + line)[0] == OPEN && (cut + line)[1..] == inner + line;
    assert NULL[0] != OPEN && TRUE[0] != OPEN && FALSE[0] != OPEN;
  }

  lemma FieldsBegin(fields: Fields, cut: seq<Byte>, line: seq<Byte>)
    requires cut <= EncodeFields(fields) && cut != []
    ensures (cut + line)[0] != CLOSE
  {
    hide Encode;
    assert EncodeFields(fields)[0] == Quoted(fields.name)[0] == QUOTE;
  }

  function FieldsAfter(rest: Fields): seq<Byte>
  {
    if rest.Nil? then [] else COMMA + EncodeFields(rest)
  }

  lemma {:induction false} CutFields(fields: Fields, cut: seq<Byte>, line: seq<Byte>)
    requires Opens(line) && cut <= EncodeFields(fields)
    ensures ParseFields(cut + line).None?
    decreases fields, 1
  {
    hide Encode, Parse, ParseItems, ParseFields, ReadText, NumberToken, Opens, Quoted, Stuck, FieldsAfter;
    StartsWithLine(line);
    if cut == [] {
      assert cut + line == line;
    } else {
      var name, value := Quoted(fields.name), Encode(fields.value) + FieldsAfter(fields.rest);
      FieldsText(fields);
      Within(name, COLON + value, cut);
      if |cut| < |name| {
        CutQuoted(fields.name, cut, line);
        NameFails(cut + line);
      } else {
        var tail := cut[|name|..];
        Within(COLON, value, tail);
        if |tail| < 2 {
          CutColon(tail, line);
          ColonFails(fields.name, tail + line);
        } else {
          CutField(fields, tail[2..], line);
        }
      }
    }
  }

  lemma FieldsText(fields: Fields)
    requires fields.Cons?
    ensures EncodeFields(fields) == Quoted(fields.name) + (COLON + (Encode(fields.value) + FieldsAfter(fields.rest)))
    ensures FieldsAfter(fields.rest) == [] || COMMA <= FieldsAfter(fields.rest)
  {
    hide Encode, Quoted;
  }

  lemma NameFails(b: seq<Byte>)
    requires b != [] && b[0] == QUOTE && (ReadText(b[1..]).Some? ==> Stuck(ReadText(b[1..]).value.1))
    ensures ParseFields(b).None?
  {
    hide ReadText;
  }

  lemma CutColon(tail: seq<Byte>, line: seq<Byte>)
    requires Opens(line) && |tail| < 2 && tail <= COLON
    ensures !(COLON <= tail + line)
  {
    hide Parse;
    assert (tail + line)[|tail|] == OPEN;
    NoPrefix(COLON, tail + line, |tail|);
  }

  lemma ColonFails(name: seq<Byte>, b: seq<Byte>)
    requires !(COLON <= b)
    ensures ParseFields(Quoted(name) + b).None?
  {
    hide ReadText, Quoted;
    ReadsQuoted(name, b);
  }

  /** The cut falls into a field's value, or behind it. */
  lemma {:induction false} CutField(fields: Fields, cut: seq<Byte>, line: seq<Byte>)
    requires Opens(line) && fields.Cons? && cut <= Encode(fields.value) + FieldsAfter(fields.rest)
    ensures ParseFields(Quoted(fields.name) + (COLON + (cut + line))).None?
    decreases fields, 0
  {
    hide Encode, Parse, ParseItems, ParseFields, ReadText, NumberToken, Opens, Quoted, Stuck, FieldsAfter;
    var value := Encode(fields.value);
    Within(value, FieldsAfter(fields.rest), cut);
    if |cut| < |value| {
      CutValue(fields.value, cut, line);
      if Parse(cut + line).Some? { NotStuck(Parse(cut + line)); }
    } else {
      var tail := cut[|value|..];
      FieldsText(fields);
      CutComma(FieldsAfter(fields.rest), tail, line);
      ParsesBack(fields.value, tail + line);
      if |tail| >= 2 {
        FieldsTail(fields, tail, line);
        CutFields(fields.rest, tail[2..], line);
      }
    }
    FieldFails(fields.name, cut + line);
  }

  lemma FieldsTail(fields: Fields, tail: seq<Byte>, line: seq<Byte>)
    requires fields.Cons? && tail <= FieldsAfter(fields.rest) && |tail| >= 2
    ensures tail[2..] <= EncodeFields(fields.rest) && (tail + line)[2..] == tail[2..] + line && fields.rest.Cons?
  {
    hide EncodeFields;
    assert tail[2..] == EncodeFields(fields.rest)[..|tail| - 2];
  }

  lemma FieldFails(name: seq<Byte>, text: seq<Byte>)
    requires Parse(text).Some? ==>
      var after := Parse(text).value.1;
      (after != [] ==> after[0] != CLOSE) && (COMMA <= after ==> ParseFields(after[2..]).None?)
    ensures ParseFields(Quoted(name) + (COLON + text)).None?
  {
    hide ReadText, Quoted, Parse;
    ReadsQuoted(name, COLON + text);
    assert (COLON + text)[..2] == COLON && (COLON + text)[2..] == text;
  }

  lemma NotStuck(r: Option<(Json, seq<Byte>)>)
    requires r.Some? && Stuck(r.value.1)
    ensures !(COMMA <= r.value.1) && (r.value.1 != [] ==> r.value.1[0] != CLOSE && r.value.1[0] != CLOSE_LIST)
  {
  }

  /** A record cut anywhere, with a whole record written behind it, is no JSON text any more. */
  lemma CutRecordIsLost(fields: Fields, cut: seq<Byte>, line: seq<Byte>)
    requires Opens(line) && cut <= Encode(Object(fields)) && cut != []
    ensures Decode(cut + line).None?
  {
    hide Parse, Opens, EncodeFields;
    StartsWithLine(line);
    if |cut| < |Encode(Object(fields))| {
      CutObject(fields, cut, line);
    } else {
      assert cut == Encode(Object(fields));
      ParsesBack(Object(fields), line);
    }
  }
}

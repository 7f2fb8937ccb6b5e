/** A printer and parser for relay headers with the facts the relay relies on: parsing inverts printing, no
    text with a NUL byte parses, and a printed object begins with its brace.  Strings are escaped as in section 7 of
    RFC 8259; every character outside printable ASCII is written as one or two \u escapes. */
module SmallJson {
  import opened Frames

  type Bytes = seq<Byte>

  datatype Parsed<+T> = Bad | Got(value: T, rest: Bytes)

  lemma Assoc(a: Bytes, b: Bytes, c: Bytes)
    ensures a + b + c == a + (b + c)
  {}

  lemma Tail(a: Byte, t: Bytes)
    ensures ([a] + t)[1..] == t && [a] + t != [] && ([a] + t)[0] == a
  {}

  lemma NoNul(a: Bytes, b: Bytes)
    requires 0 !in a && 0 !in b
    ensures 0 !in a + b
  {}

  // ----- Characters

  function Hex(d: int): Byte
    requires 0 <= d < 16
  {
    if d < 10 then 48 + d else 87 + d
  }

  function Unhex(b: Byte): int { if 48 <= b < 58 then b - 48 else if 97 <= b < 103 then b - 87 else -1 }

  /** One UTF-16 unit as \uXXXX. */
  function Escape(u: int): Bytes
    requires 0 <= u < 0x10000
  {
    [92, 117, Hex(u / 4096), Hex(u / 256 % 16), Hex(u / 16 % 16), Hex(u % 16)]
  }

  function Unescape(b: Bytes): Parsed<int>
    ensures Unescape(b).Got? ==> |Unescape(b).rest| < |b| && 0 <= Unescape(b).value < 0x10000
  {
    if |b| < 6 || b[0] != 92 || b[1] != 117 then Bad
    else
      var (p, q, r, s) := (Unhex(b[2]), Unhex(b[3]), Unhex(b[4]), Unhex(b[5]));
      if p < 0 || q < 0 || r < 0 || s < 0 then Bad else Got(((p * 16 + q) * 16 + r) * 16 + s, b[6..])
  }

  predicate Plain(n: int) { 0x20 <= n < 0x7F && n != 34 && n != 92 }

  function PrintChar(c: char): Bytes {
    var n := c as int;
    if Plain(n) then [n]
    else if n < 0x10000 then Escape(n)
    else Escape(0xD800 + (n - 0x10000) / 0x400) + Escape(0xDC00 + (n - 0x10000) % 0x400)
  }

  function ParseChar(b: Bytes): Parsed<char>
    ensures ParseChar(b).Got? ==> |ParseChar(b).rest| < |b|
  {
    if b == [] then Bad
    else if Plain(b[0]) then Got(b[0] as char, b[1..])
    else
      match Unescape(b)
      case Bad => Bad
      case Got(u, rest) =>
        if u < 0xD800 || 0xE000 <= u then Got(u as char, rest)
        else
          match Unescape(rest)
          case Bad => Bad
          case Got(l, rest') =>
            if u < 0xDC00 && 0xDC00 <= l < 0xE000
            then Got((0x10000 + (u - 0xD800) * 0x400 + (l - 0xDC00)) as char, rest') else Bad
  }

  lemma HexDigits(u: int)
    requires 0 <= u < 0x10000
    ensures ((u / 4096 * 16 + u / 256 % 16) * 16 + u / 16 % 16) * 16 + u % 16 == u
    ensures 0 <= u / 4096 < 16
  {
    var q := u / 16;
    assert u / 256 == q / 16 && u / 4096 == q / 16 / 16;
  }

  lemma HexRoundTrip(d: int)
    requires 0 <= d < 16
    ensures Unhex(Hex(d)) == d && Hex(d) != 0
  {}

  lemma EscapeRoundTrip(u: int, rest: Bytes)
    requires 0 <= u < 0x10000
    ensures Unescape(Escape(u) + rest) == Got(u, rest)
    ensures 0 !in Escape(u)
  {
    var b := Escape(u) + rest;
    HexDigits(u);
    var (p, q, r, s) := (u / 4096, u / 256 % 16, u / 16 % 16, u % 16);
    HexRoundTrip(p);
    HexRoundTrip(q);
    HexRoundTrip(r);
    HexRoundTrip(s);
    assert b[2] == Hex(p) && b[3] == Hex(q) && b[4] == Hex(r) && b[5] == Hex(s);
    assert b[6..] == rest;
  }

  lemma CharRoundTrip(c: char, rest: Bytes)
    ensures ParseChar(PrintChar(c) + rest) == Got(c, rest)
    ensures 0 !in PrintChar(c) && PrintChar(c) != [] && PrintChar(c)[0] != 34
  {
    var n := c as int;
    if Plain(n) {
      assert (PrintChar(c) + rest)[1..] == rest;
    } else if n < 0x10000 {
      EscapeRoundTrip(n, rest);
    } else {
      var hi, lo := 0xD800 + (n - 0x10000) / 0x400, 0xDC00 + (n - 0x10000) % 0x400;
      EscapeRoundTrip(lo, rest);
      EscapeRoundTrip(hi, Escape(lo) + rest);
      assert PrintChar(c) + rest == Escape(hi) + (Escape(lo) + rest);
    }
  }

  // ----- Strings: the text and the closing quote

  function PrintText(s: string): Bytes { if s == "" then [34] else PrintChar(s[0]) + PrintText(s[1..]) }

  function ParseText(b: Bytes): Parsed<string>
    ensures ParseText(b).Got? ==> |ParseText(b).rest| < |b|
    decreases |b|
  {
    if b == [] then Bad
    else if b[0] == 34 then Got("", b[1..])
    else
      match ParseChar(b)
      case Bad => Bad
      case Got(c, rest) =>
        match ParseText(rest)
        case Bad => Bad
        case Got(s, rest') => Got([c] + s, rest')
  }

  lemma ParseOneChar(b: Bytes, c: char, b1: Bytes, s: string, rest: Bytes)
    requires b != [] && b[0] != 34 && ParseChar(b) == Got(c, b1) && ParseText(b1) == Got(s, rest)
    ensures ParseText(b) == Got([c] + s, rest)
  {
  }

  lemma HeadOfJoin(a: Bytes, b: Bytes)
    requires a != []
    ensures a + b != [] && (a + b)[0] == a[0]
  {
  }

  lemma {:induction false} TextRoundTrip(s: string, rest: Bytes)
    ensures ParseText(PrintText(s) + rest) == Got(s, rest)
    ensures 0 !in PrintText(s)
  {
    if s == "" {
      assert ([34] + rest)[1..] == rest;
    } else {
      var more := PrintText(s[1..]) + rest;
      CharRoundTrip(s[0], more);
      TextRoundTrip(s[1..], rest);
      HeadOfJoin(PrintChar(s[0]), more);
      ParseOneChar(PrintChar(s[0]) + more, s[0], more, s[1..], rest);
      Assoc(PrintChar(s[0]), PrintText(s[1..]), rest);
      assert [s[0]] + s[1..] == s;
    }
  }

  // ----- Numbers

  predicate Digit(b: Byte) { 48 <= b < 58 }

  function PrintNat(n: nat): Bytes { if n < 10 then [48 + n] else PrintNat(n / 10) + [48 + n % 10] }

  /** The value of `acc` followed by all leading digits. */
  function ParseNat(acc: nat, b: Bytes): (nat, Bytes)
    ensures |ParseNat(acc, b).1| <= |b|
    decreases |b|
  {
    if b == [] || !Digit(b[0]) then (acc, b) else ParseNat(acc * 10 + (b[0] - 48), b[1..])
  }

  /** What may follow a value: nothing, or a byte that is no digit. */
  predicate Ends(rest: Bytes) { rest == [] || !Digit(rest[0]) }

  lemma {:induction false} NatRoundTrip(n: nat, rest: Bytes)
    ensures ParseNat(0, PrintNat(n) + rest) == ParseNat(n, rest)
    ensures 0 !in PrintNat(n) && PrintNat(n) != [] && Digit(PrintNat(n)[0])
  {
    if n < 10 {
      assert (PrintNat(n) + rest)[1..] == rest;
    } else {
      var tail := [48 + n % 10] + rest;
      NatRoundTrip(n / 10, tail);
      assert PrintNat(n) + rest == PrintNat(n / 10) + tail;
      assert tail[1..] == rest;
    }
  }

  // ----- Values

  const NULL: Bytes := [110, 117, 108, 108]
  const TRUE: Bytes := [116, 114, 117, 101]
  const FALSE: Bytes := [102, 97, 108, 115, 101]

  function Print(v: Json): Bytes
    decreases v, 0
  {
    match v
    case Null => NULL
    case Bool(b) => if b then TRUE else FALSE
    case Num(n) => if n < 0 then [45] + PrintNat(-n) else PrintNat(n)
    case Str(s) => [34] + PrintText(s)
    case Arr(items) => [91] + PrintItems(items, true)
    case Obj(fields) => [123] + PrintFields(fields, true)
  }

  /** The items separated by commas, and the closing bracket. */
  function PrintItems(items: seq<Json>, first: bool): Bytes
    decreases items, 1
  {
    if items == [] then [93] else (if first then [] else [44]) + Print(items[0]) + PrintItems(items[1..], false)
  }

  function PrintName(name: string, first: bool): Bytes {
    (if first then [] else [44]) + [34] + PrintText(name) + [58]
  }

  function PrintFields(fields: seq<Field>, first: bool): Bytes
    decreases fields, 1
  {
    if fields == [] then [125]
    else
      PrintName(fields[0].name, first) + Print(fields[0].value) + PrintFields(fields[1..], false)
  }

  function ParseValue(b: Bytes): Parsed<Json>
    ensures ParseValue(b).Got? ==> |ParseValue(b).rest| < |b|
    decreases |b|, 0
  {
    if b == [] then Bad
    else if NULL <= b then Got(Null, b[4..])
    else if TRUE <= b then Got(Bool(true), b[4..])
    else if FALSE <= b then Got(Bool(false), b[5..])
    else if Digit(b[0]) then var (n, rest) := ParseNat(b[0] - 48, b[1..]); Got(Num(n), rest)
    else if b[0] == 45 then var (n, rest) := ParseNat(0, b[1..]); Got(Num(-(n as int)), rest)
    else if b[0] == 34 then (match ParseText(b[1..]) case Bad => Bad case Got(s, rest) => Got(Str(s), rest))
    else if b[0] == 91 then (match ParseItems(b[1..], true) case Bad => Bad case Got(vs, rest) => Got(Arr(vs), rest))
    else if b[0] == 123 then (match ParseFields(b[1..], true) case Bad => Bad case Got(fs, rest) => Got(Obj(fs), rest))
    else Bad
  }

  function ParseItems(b: Bytes, first: bool): Parsed<seq<Json>>
    ensures ParseItems(b, first).Got? ==> |ParseItems(b, first).rest| < |b|
    decreases |b|, 1
  {
    if b == [] then Bad
    else if b[0] == 93 then Got([], b[1..])
    else if !first && b[0] != 44 then Bad
    else
      match ParseValue(if first then b else b[1..])
      case Bad => Bad
      case Got(v, rest) =>
        match ParseItems(rest, false)
        case Bad => Bad
        case Got(vs, rest') => Got([v] + vs, rest')
  }

  function ParseFields(b: Bytes, first: bool): Parsed<seq<Field>>
    ensures ParseFields(b, first).Got? ==> |ParseFields(b, first).rest| < |b|
    decreases |b|, 1
  {
    if b == [] then Bad
    else if b[0] == 125 then Got([], b[1..])
    else
      match ParseName(b, first)
      case Bad => Bad
      case Got(name, rest) =>
        match ParseValue(rest)
        case Bad => Bad
        case Got(v, rest') =>
          match ParseFields(rest', false)
          case Bad => Bad
          case Got(fs, rest'') => Got([Field(name, v)] + fs, rest'')
  }

  /** The comma before any but the first field, the quoted name and the colon. */
  function ParseName(b: Bytes, first: bool): Parsed<string>
    ensures ParseName(b, first).Got? ==> |ParseName(b, first).rest| < |b|
  {
    var t := if first then b else if b != [] && b[0] == 44 then b[1..] else [];
    if t == [] || t[0] != 34 then Bad
    else
      match ParseText(t[1..])
      case Bad => Bad
      case Got(name, rest) => if rest == [] || rest[0] != 58 then Bad else Got(name, rest[1..])
  }

  lemma NoKeyword(b: Bytes)
    requires b != [] && b[0] < 102
    ensures !(NULL <= b) && !(TRUE <= b) && !(FALSE <= b)
  {
    assert NULL[0] == 110 && TRUE[0] == 116 && FALSE[0] == 102;
  }

  lemma ParseDigits(t: Bytes)
    requires t != [] && Digit(t[0])
    ensures ParseNat(0, t) == ParseNat(t[0] - 48, t[1..])
  {
  }

  /** A digit or a minus sign makes a number. */
  lemma NumberOpening(t: Bytes)
    ensures t != [] && Digit(t[0]) ==> ParseValue(t) == Got(Num(ParseNat(0, t).0), ParseNat(0, t).1)
    ensures ParseValue([45] + t) == Got(Num(-(ParseNat(0, t).0 as int)), ParseNat(0, t).1)
  {
    Tail(45, t);
    NoKeyword([45] + t);
    if t != [] && Digit(t[0]) {
      NoKeyword(t);
      ParseDigits(t);
    }
  }

  lemma NumberRoundTrip(n: int, rest: Bytes)
    requires Ends(rest)
    ensures ParseValue(Print(Num(n)) + rest) == Got(Num(n), rest)
    ensures 0 !in Print(Num(n))
  {
    var size: nat := if n < 0 then -n else n;
    var digits := PrintNat(size);
    NatRoundTrip(size, rest);
    assert digits + rest != [] && (digits + rest)[0] == digits[0];
    NumberOpening(digits + rest);
    if n < 0 {
      Assoc([45], digits, rest);
      NoNul([45], digits);
    }
  }

  lemma KeywordRoundTrip(v: Json, rest: Bytes)
    requires v.Null? || v.Bool?
    ensures ParseValue(Print(v) + rest) == Got(v, rest)
    ensures 0 !in Print(v)
  {
    var b := Print(v) + rest;
    assert b[0] == Print(v)[0];
    assert b[..|Print(v)|] == Print(v) && b[|Print(v)|..] == rest;
  }

  /** A quote, bracket or brace decides which parser reads on. */
  lemma Opening(t: Bytes)
    ensures ParseValue([34] + t) == match ParseText(t) case Bad => Bad case Got(s, rest) => Got(Str(s), rest)
    ensures ParseValue([91] + t) == match ParseItems(t, true) case Bad => Bad case Got(vs, rest) => Got(Arr(vs), rest)
    ensures ParseValue([123] + t) == match ParseFields(t, true) case Bad => Bad case Got(fs, rest) => Got(Obj(fs), rest)
  {
    assert ([34] + t)[1..] == t && ([91] + t)[1..] == t && ([123] + t)[1..] == t;
  }

  lemma TextValue(s: string, text: Bytes, rest: Bytes)
    requires ParseText(text + rest) == Got(s, rest) && 0 !in text
    ensures ParseValue([34] + text + rest) == Got(Str(s), rest) && 0 !in [34] + text
  {
    Opening(text + rest);
    Assoc([34], text, rest);
    NoNul([34], text);
  }

  lemma ArrValue(items: seq<Json>, text: Bytes, rest: Bytes)
    requires ParseItems(text + rest, true) == Got(items, rest) && 0 !in text
    ensures ParseValue([91] + text + rest) == Got(Arr(items), rest) && 0 !in [91] + text
  {
    Opening(text + rest);
    Assoc([91], text, rest);
    NoNul([91], text);
  }

  lemma ObjValue(fields: seq<Field>, text: Bytes, rest: Bytes)
    requires ParseFields(text + rest, true) == Got(fields, rest) && 0 !in text
    ensures ParseValue([123] + text + rest) == Got(Obj(fields), rest) && 0 !in [123] + text
  {
    Opening(text + rest);
    Assoc([123], text, rest);
    NoNul([123], text);
  }

  lemma FirstByte(v: Json)
    ensures Print(v) != [] && Print(v)[0] != 93
  {
    if v.Num? { NatRoundTrip(if v.n < 0 then -v.n else v.n, []); }
  }

  lemma {:induction false} ValueRoundTrip(v: Json, rest: Bytes)
    requires Ends(rest)
    ensures ParseValue(Print(v) + rest) == Got(v, rest)
    ensures 0 !in Print(v)
    decreases v, 0
  {
    match v
    case Null => KeywordRoundTrip(v, rest);
    case Bool(_) => KeywordRoundTrip(v, rest);
    case Num(n) => NumberRoundTrip(n, rest);
    case Str(s) =>
      TextRoundTrip(s, rest);
      TextValue(s, PrintText(s), rest);
    case Arr(items) =>
      ItemsRoundTrip(items, true, rest);
      ArrValue(items, PrintItems(items, true), rest);
    case Obj(fields) =>
      FieldsRoundTrip(fields, true, rest);
      ObjValue(fields, PrintFields(fields, true), rest);
  }

  lemma {:induction false} ItemsRoundTrip(items: seq<Json>, first: bool, rest: Bytes)
    ensures ParseItems(PrintItems(items, first) + rest, first) == Got(items, rest)
    ensures 0 !in PrintItems(items, first) && PrintItems(items, first) != []
    ensures !first ==> !Digit(PrintItems(items, first)[0])
    decreases items, 1
  {
    if items == [] {
      assert ([93] + rest)[1..] == rest;
    } else {
      ItemsRoundTrip(items[1..], false, rest);
      ValueRoundTrip(items[0], PrintItems(items[1..], false) + rest);
      ItemsStep(items, first, rest);
    }
  }

  lemma ParseOneItem(b: Bytes, first: bool, v: Json, b1: Bytes, vs: seq<Json>, b2: Bytes)
    requires b != [] && b[0] != 93 && (!first ==> b[0] == 44)
    requires ParseValue(if first then b else b[1..]) == Got(v, b1) && ParseItems(b1, false) == Got(vs, b2)
    ensures ParseItems(b, first) == Got([v] + vs, b2)
  {}

  lemma ItemsStep(items: seq<Json>, first: bool, rest: Bytes)
    requires items != [] && ParseItems(PrintItems(items[1..], false) + rest, false) == Got(items[1..], rest)
    requires 0 !in PrintItems(items[1..], false) && 0 !in Print(items[0])
    requires ParseValue(Print(items[0]) + (PrintItems(items[1..], false) + rest)) ==
        Got(items[0], PrintItems(items[1..], false) + rest)
    ensures ParseItems(PrintItems(items, first) + rest, first) == Got(items, rest)
    ensures 0 !in PrintItems(items, first) && PrintItems(items, first) != []
    ensures !first ==> !Digit(PrintItems(items, first)[0])
  {
    var comma: Bytes := if first then [] else [44];
    var head, more := Print(items[0]), PrintItems(items[1..], false);
    FirstByte(items[0]);
    Assoc(comma + head, more, rest);
    Assoc(comma, head, more + rest);
    NoNul(comma, head);
    NoNul(comma + head, more);
    var b := PrintItems(items, first) + rest;
    assert b == comma + (head + (more + rest));
    if first { assert b == head + (more + rest); } else { Tail(44, head + (more + rest)); }
    ParseOneItem(b, first, items[0], more + rest, items[1..], rest);
    assert items == [items[0]] + items[1..];
  }

  lemma QuotedName(name: string, rest: Bytes)
    ensures ParseName([34] + (PrintText(name) + ([58] + rest)), true) == Got(name, rest)
  {
    TextRoundTrip(name, [58] + rest);
    Tail(34, PrintText(name) + ([58] + rest));
    Tail(58, rest);
  }

  lemma NameBytes(name: string, first: bool)
    ensures 0 !in PrintName(name, first) && PrintName(name, first) != []
    ensures PrintName(name, first)[0] != 125 && (!first ==> !Digit(PrintName(name, first)[0]))
  {
    TextRoundTrip(name, []);
  }

  lemma AfterComma(t: Bytes)
    requires t != []
    ensures ParseName([44] + t, false) == if ParseName(t, true).Got? then ParseName(t, true) else Bad
  {
    Tail(44, t);
  }

  lemma NameRoundTrip(name: string, first: bool, rest: Bytes)
    ensures ParseName(PrintName(name, first) + rest, first) == Got(name, rest)
  {
    var text, colon: Bytes := PrintText(name), [58];
    QuotedName(name, rest);
    Assoc([34] + text, colon, rest);
    Assoc([34], text, colon + rest);
    assert [] + [34] == [34];
    assert PrintName(name, true) == [34] + text + colon;
    if !first {
      AfterComma(PrintName(name, true) + rest);
      Assoc([44], [34], text);
      Assoc([44], [34] + text, colon);
      Assoc([44], PrintName(name, true), rest);
    }
  }

  lemma ParseOneField(b: Bytes, first: bool, name: string, b1: Bytes, v: Json, b2: Bytes, fs: seq<Field>, b3: Bytes)
    requires b != [] && b[0] != 125
    requires ParseName(b, first) == Got(name, b1) && ParseValue(b1) == Got(v, b2)
    requires ParseFields(b2, false) == Got(fs, b3)
    ensures ParseFields(b, first) == Got([Field(name, v)] + fs, b3)
  {}

  lemma {:induction false} FieldsRoundTrip(fields: seq<Field>, first: bool, rest: Bytes)
    ensures ParseFields(PrintFields(fields, first) + rest, first) == Got(fields, rest)
    ensures 0 !in PrintFields(fields, first) && PrintFields(fields, first) != []
    ensures !first ==> !Digit(PrintFields(fields, first)[0])
    decreases fields, 1
  {
    if fields == [] {
      assert ([125] + rest)[1..] == rest;
    } else {
      FieldsRoundTrip(fields[1..], false, rest);
      ValueRoundTrip(fields[0].value, PrintFields(fields[1..], false) + rest);
      FieldsStep(fields, first, rest);
    }
  }

  lemma FieldsStep(fields: seq<Field>, first: bool, rest: Bytes)
    requires fields != [] && ParseFields(PrintFields(fields[1..], false) + rest, false) == Got(fields[1..], rest)
    requires 0 !in PrintFields(fields[1..], false) && 0 !in Print(fields[0].value)
    requires ParseValue(Print(fields[0].value) + (PrintFields(fields[1..], false) + rest))
             == Got(fields[0].value, PrintFields(fields[1..], false) + rest)
    ensures ParseFields(PrintFields(fields, first) + rest, first) == Got(fields, rest)
    ensures 0 !in PrintFields(fields, first) && PrintFields(fields, first) != []
    ensures !first ==> !Digit(PrintFields(fields, first)[0])
  {
    var (name, v) := (fields[0].name, fields[0].value);
    var head, val, more := PrintName(name, first), Print(v), PrintFields(fields[1..], false);
    NameRoundTrip(name, first, val + (more + rest));
    NameBytes(name, first);
    Assoc(head + val, more, rest);
    Assoc(head, val, more + rest);
    NoNul(head, val);
    NoNul(head + val, more);
    var b := PrintFields(fields, first) + rest;
    assert b == head + (val + (more + rest));
    ParseOneField(b, first, name, val + (more + rest), v, more + rest, fields[1..], rest);
    assert fields == [Field(name, v)] + fields[1..];
  }

  // ----- Header objects

  /** The fields of a header in some order. */
  ghost function Listed(h: Header): seq<Field> {
    if h == map[] then [] else var k :| k in h; [Field(k, h[k])] + Listed(h - {k})
  }

  /** The object read from a list of fields; of two fields with one name the later counts. */
  function Collected(fields: seq<Field>): Header {
    if fields == [] then map[]
    else
      var last := |fields| - 1;
      Collected(fields[..last])[fields[last].name := fields[last].value]
  }

  ghost function Stringify(h: Header): Bytes { Print(Obj(Listed(h))) }

  function ParseHeader(b: Bytes): Option<Header> {
    match ParseValue(b)
    case Bad => None
    case Got(v, rest) => if v.Obj? && rest == [] then Some(Collected(v.fields)) else None
  }

  lemma {:induction false} CollectedPrepend(k: string, v: Json, fields: seq<Field>)
    requires forall i | 0 <= i < |fields| :: fields[i].name != k
    ensures Collected([Field(k, v)] + fields) == Collected(fields)[k := v]
  {
    var all := [Field(k, v)] + fields;
    if fields == [] {
      assert all[..0] == [];
    } else {
      var last := |fields| - 1;
      CollectedPrepend(k, v, fields[..last]);
      assert all[..|all| - 1] == [Field(k, v)] + fields[..last];
    }
  }

  lemma {:induction false} ListedRoundTrip(h: Header)
    ensures Collected(Listed(h)) == h
    ensures forall i | 0 <= i < |Listed(h)| :: Listed(h)[i].name in h
  {
    if h != map[] {
      var k :| k in h && Listed(h) == [Field(k, h[k])] + Listed(h - {k});
      ListedRoundTrip(h - {k});
      CollectedPrepend(k, h[k], Listed(h - {k}));
    }
  }

  // ----- No text with a NUL byte parses: every parser leaves the first NUL in the rest

  lemma NulStays(b: Bytes, k: nat)
    requires k <= |b| && 0 !in b[..k] && 0 in b
    ensures 0 in b[k..]
  {
    assert b == b[..k] + b[k..];
  }

  lemma UnescapeKeepsNul(b: Bytes)
    requires 0 in b && Unescape(b).Got?
    ensures 0 in Unescape(b).rest
  {
    NulStays(b, 6);
  }

  lemma CharKeepsNul(b: Bytes)
    requires 0 in b && ParseChar(b).Got?
    ensures 0 in ParseChar(b).rest
  {
    if Plain(b[0]) {
      NulStays(b, 1);
    } else {
      UnescapeKeepsNul(b);
      var rest := Unescape(b).rest;
      if Unescape(rest).Got? { UnescapeKeepsNul(rest); }
    }
  }

  lemma {:induction false} TextKeepsNul(b: Bytes)
    requires 0 in b && ParseText(b).Got?
    ensures 0 in ParseText(b).rest
    decreases |b|
  {
    if b[0] == 34 {
      NulStays(b, 1);
    } else {
      CharKeepsNul(b);
      TextKeepsNul(ParseChar(b).rest);
    }
  }

  lemma {:induction false} NatKeepsNul(acc: nat, b: Bytes)
    requires 0 in b
    ensures 0 in ParseNat(acc, b).1
    decreases |b|
  {
    if Digit(b[0]) {
      NulStays(b, 1);
      NatKeepsNul(acc * 10 + (b[0] - 48), b[1..]);
    }
  }

  lemma NameKeepsNul(b: Bytes, first: bool)
    requires 0 in b && ParseName(b, first).Got?
    ensures 0 in ParseName(b, first).rest
  {
    if !first { NulStays(b, 1); }
    var t := if first then b else b[1..];
    NulStays(t, 1);
    TextKeepsNul(t[1..]);
    NulStays(ParseText(t[1..]).rest, 1);
  }

  lemma KeywordKeepsNul(b: Bytes, word: Bytes)
    requires word <= b && 0 !in word && 0 in b
    ensures 0 in b[|word|..]
  {
    NulStays(b, |word|);
  }

  lemma {:induction false} ValueKeepsNul(b: Bytes)
    requires 0 in b && ParseValue(b).Got?
    ensures 0 in ParseValue(b).rest
    decreases |b|, 0
  {
    if NULL <= b { KeywordKeepsNul(b, NULL); }
    else if TRUE <= b { KeywordKeepsNul(b, TRUE); }
    else if FALSE <= b { KeywordKeepsNul(b, FALSE); }
    else {
      NulStays(b, 1);
      if Digit(b[0]) { NatKeepsNul(b[0] - 48, b[1..]); }
      else if b[0] == 45 { NatKeepsNul(0, b[1..]); }
      else if b[0] == 34 { TextKeepsNul(b[1..]); }
      else if b[0] == 91 { ItemsKeepNul(b[1..], true); }
      else { FieldsKeepNul(b[1..], true); }
    }
  }

  lemma {:induction false} ItemsKeepNul(b: Bytes, first: bool)
    requires 0 in b && ParseItems(b, first).Got?
    ensures 0 in ParseItems(b, first).rest
    decreases |b|, 1
  {
    if b[0] == 93 {
      NulStays(b, 1);
    } else {
      if !first { NulStays(b, 1); }
      var t := if first then b else b[1..];
      ValueKeepsNul(t);
      ItemsKeepNul(ParseValue(t).rest, false);
    }
  }

  lemma {:induction false} FieldsKeepNul(b: Bytes, first: bool)
    requires 0 in b && ParseFields(b, first).Got?
    ensures 0 in ParseFields(b, first).rest
    decreases |b|, 1
  {
    if b[0] == 125 {
      NulStays(b, 1);
    } else {
      NameKeepsNul(b, first);
      var t := ParseName(b, first).rest;
      ValueKeepsNul(t);
      FieldsKeepNul(ParseValue(t).rest, false);
    }
  }

  ghost function TheCodec(): Codec { Codec(h => Stringify(h), b => ParseHeader(b)) }

  /** Such a codec exists: the relay's frame theorems are about something. */
  lemma SmallJsonIsSound()
    ensures TheCodec().Sound()
  {
    forall h: Header ensures ParseHeader(Stringify(h)) == Some(h) && Stringify(h) != [] && Stringify(h)[0] == BRACE {
      ValueRoundTrip(Obj(Listed(h)), []);
      assert Stringify(h) + [] == Stringify(h);
      ListedRoundTrip(h);
    }
    forall b: Bytes | ParseHeader(b).Some? ensures 0 !in b {
      if 0 in b { ValueKeepsNul(b); }
    }
  }
}

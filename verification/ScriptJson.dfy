/** `serializeForScript`: JSON that is safe inside an inline script, and a JSON reader
    (RFC 8259, sections 2, 4 and 7) that undoes it. Text is a sequence of UTF-16 code
    units, as JavaScript has it. */
module ScriptJson {
  import opened Wrappers
  import opened Search

  type Unit = u: int | 0 <= u < 0x1_0000

  type Text = seq<Unit>

  /** The JSON values that a language catalog is made of. */
  datatype Json = Str(text: Text) | Obj(members: seq<Member>)

  datatype Member = Member(key: Text, value: Json)

  const QUOTE: Unit := 0x22
  const COMMA: Unit := 0x2C
  const COLON: Unit := 0x3A
  const LESS: Unit := 0x3C
  const BACKSLASH: Unit := 0x5C
  const LOWER_U: Unit := 0x75
  const OPEN_BRACE: Unit := 0x7B
  const CLOSE_BRACE: Unit := 0x7D
  const LINE_SEPARATOR: Unit := 0x2028
  const PARAGRAPH_SEPARATOR: Unit := 0x2029

  // ----- JSON.stringify

  function HexDigit(d: int): Unit
    requires 0 <= d < 16
  {
    if d < 10 then 0x30 + d else 0x61 + d - 10
  }

  /** A backslash, a `u` and four lower-case hexadecimal digits. */
  function UnicodeEscape(u: Unit): Text {
    [BACKSLASH, LOWER_U, HexDigit(u / 4096), HexDigit(u / 256 % 16), HexDigit(u / 16 % 16), HexDigit(u % 16)]
  }

  predicate IsHigh(u: Unit) {
    0xD800 <= u < 0xDC00
  }

  predicate IsLow(u: Unit) {
    0xDC00 <= u < 0xE000
  }

  /** Half of a surrogate pair without its other half. */
  predicate IsLone(t: Text, i: nat)
    requires i < |t|
  {
    || (IsHigh(t[i]) && !(i + 1 < |t| && IsLow(t[i + 1])))
    || (IsLow(t[i]) && !(0 < i && IsHigh(t[i - 1])))
  }

  /** The letter of a two-character escape, if the unit has one. */
  function ShortEscape(u: Unit): Option<Unit> {
    match u
    case 0x22 => Some(QUOTE)
    case 0x5C => Some(BACKSLASH)
    case 0x08 => Some(0x62)
    case 0x09 => Some(0x74)
    case 0x0A => Some(0x6E)
    case 0x0C => Some(0x66)
    case 0x0D => Some(0x72)
    case _ => None
  }

  function Escape(t: Text, i: nat): Text
    requires i < |t|
  {
    if ShortEscape(t[i]).Some? then [BACKSLASH, ShortEscape(t[i]).value]
    else if t[i] < 0x20 || IsLone(t, i) then UnicodeEscape(t[i])
    else [t[i]]
  }

  /** The characters of a string literal from position `i` on. */
  function Characters(t: Text, i: nat): Text
    requires i <= |t|
    decreases |t| - i
  {
    if i == |t| then [] else Escape(t, i) + Characters(t, i + 1)
  }

  function Quote(t: Text): Text {
    [QUOTE] + Characters(t, 0) + [QUOTE]
  }

  function Stringify(json: Json): Text
    decreases json, 1
  {
    match json
    case Str(text) => Quote(text)
    case Obj(members) => [OPEN_BRACE] + StringifyMembers(members) + [CLOSE_BRACE]
  }

  function StringifyMembers(members: seq<Member>): Text
    decreases members, 0
  {
    if members == [] then []
    else
      Quote(members[0].key)
      + ([COLON]
         + (Stringify(members[0].value)
            + if |members| == 1 then [] else [COMMA] + StringifyMembers(members[1..])))
  }

  // ----- serializeForScript

  function MakeSafe(t: Text): Text {
    Replace(
      Replace(
        Replace(t, [LESS], UnicodeEscape(LESS)),
        [LINE_SEPARATOR], UnicodeEscape(LINE_SEPARATOR)),
      [PARAGRAPH_SEPARATOR], UnicodeEscape(PARAGRAPH_SEPARATOR))
  }

  function SerializeForScript(json: Json): Text {
    MakeSafe(Stringify(json))
  }

  // ----- The reader

  function HexValue(u: Unit): (v: Option<int>)
    ensures v.Some? ==> 0 <= v.value < 16
  {
    if 0x30 <= u <= 0x39 then Some(u - 0x30)
    else if 0x61 <= u <= 0x66 then Some(u - 0x61 + 10)
    else if 0x41 <= u <= 0x46 then Some(u - 0x41 + 10)
    else None
  }

  function FromDigits(a: int, b: int, c: int, d: int): Unit
    requires 0 <= a < 16 && 0 <= b < 16 && 0 <= c < 16 && 0 <= d < 16
  {
    a * 4096 + b * 256 + c * 16 + d
  }

  /** The unit written by four hexadecimal digits. */
  function ReadHex(p: Unit, q: Unit, r: Unit, s: Unit): Option<Unit> {
    match (HexValue(p), HexValue(q), HexValue(r), HexValue(s))
    case (Some(a), Some(b), Some(c), Some(d)) => Some(FromDigits(a, b, c, d))
    case _ => None
  }

  function UnescapeShort(u: Unit): Option<Unit> {
    match u
    case 0x22 => Some(QUOTE)
    case 0x5C => Some(BACKSLASH)
    case 0x2F => Some(0x2F)
    case 0x62 => Some(0x08)
    case 0x66 => Some(0x0C)
    case 0x6E => Some(0x0A)
    case 0x72 => Some(0x0D)
    case 0x74 => Some(0x09)
    case _ => None
  }

  /** The first character of a literal's body and what follows it. */
  function ReadCharacter(t: Text): (r: Option<(Unit, Text)>)
    ensures r.Some? ==> |r.value.1| < |t|
  {
    if t == [] || t[0] < 0x20 || t[0] == QUOTE then None
    else if t[0] != BACKSLASH then Some((t[0], t[1..]))
    else if |t| >= 2 && UnescapeShort(t[1]).Some? then Some((UnescapeShort(t[1]).value, t[2..]))
    else if |t| >= 6 && t[1] == LOWER_U && ReadHex(t[2], t[3], t[4], t[5]).Some? then
      Some((ReadHex(t[2], t[3], t[4], t[5]).value, t[6..]))
    else None
  }

  /** The rest of a string literal, after its opening quote. */
  function ReadString(t: Text): (r: Option<(Text, Text)>)
    ensures r.Some? ==> |r.value.1| < |t|
    decreases |t|
  {
    if t != [] && t[0] == QUOTE then Some(([], t[1..]))
    else
      var first := ReadCharacter(t);
      if first.None? then None
      else
        var rest := ReadString(first.value.1);
        if rest.None? then None else Some(([first.value.0] + rest.value.0, rest.value.1))
  }

  function SkipSpace(t: Text): (rest: Text)
    ensures |rest| <= |t|
  {
    if t != [] && t[0] in {0x20, 0x09, 0x0A, 0x0D} then SkipSpace(t[1..]) else t
  }

  function ReadValue(t: Text): (r: Option<(Json, Text)>)
    ensures r.Some? ==> |r.value.1| < |t|
    decreases |t|, 1
  {
    var s := SkipSpace(t);
    if s == [] then None
    else if s[0] == QUOTE then
      var text := ReadString(s[1..]);
      if text.None? then None else Some((Str(text.value.0), text.value.1))
    else if s[0] == OPEN_BRACE then
      var inside := SkipSpace(s[1..]);
      if inside != [] && inside[0] == CLOSE_BRACE then Some((Obj([]), inside[1..]))
      else
        var members := ReadMembers(inside);
        if members.None? then None else Some((Obj(members.value.0), members.value.1))
    else None
  }

  /** One or more members and the closing brace. */
  function ReadMembers(t: Text): (r: Option<(seq<Member>, Text)>)
    ensures r.Some? ==> |r.value.1| < |t|
    decreases |t|, 0
  {
    var s := SkipSpace(t);
    if s == [] || s[0] != QUOTE then None
    else
      var key := ReadString(s[1..]);
      if key.None? then None
      else
        var colon := SkipSpace(key.value.1);
        if colon == [] || colon[0] != COLON then None
        else
          var value := ReadValue(colon[1..]);
          if value.None? then None
          else
            var member := Member(key.value.0, value.value.0);
            var next := SkipSpace(value.value.1);
            if next == [] then None
            else if next[0] == CLOSE_BRACE then Some(([member], next[1..]))
            else if next[0] != COMMA then None
            else
              var others := ReadMembers(next[1..]);
              if others.None? then None else Some(([member] + others.value.0, others.value.1))
  }

  function Parse(t: Text): Option<Json> {
    var value := ReadValue(t);
    if value.Some? && SkipSpace(value.value.1) == [] then Some(value.value.0) else None
  }

  // ----- Replacing one unit acts unit by unit

  lemma {:induction false} ReplaceFirst(u: Unit, s: Text, c: Unit, r: Text)
    ensures Replace([u] + s, [c], r) == (if u == c then r else [u]) + Replace(s, [c], r)
  {
    var t := [u] + s;
    assert t[1..] == s;
    if u == c {
      assert OccursAt(t, [c], 0);
      FindIs(t, [c], 0);
      assert t[..0] + r == r;
    } else {
      var at := Find(s, [c]);
      assert !OccursAt(t, [c], 0);
      forall j | 1 <= j
        ensures OccursAt(t, [c], j) <==> OccursAt(s, [c], j - 1)
      {
        OccursInSuffix(t, [c], 1, j - 1);
      }
      if at == -1 {
        assert Find(t, [c]) == -1;
      } else {
        FindIs(t, [c], at + 1);
        assert t[..at + 1] == [u] + s[..at];
        assert t[at + 2..] == s[at + 1..];
        assert [u] + s[..at] + r + Replace(s[at + 1..], [c], r) == [u] + (s[..at] + r + Replace(s[at + 1..], [c], r));
      }
    }
  }

  lemma {:induction false} ReplaceAppend(a: Text, b: Text, c: Unit, r: Text)
    ensures Replace(a + b, [c], r) == Replace(a, [c], r) + Replace(b, [c], r)
    decreases |a|
  {
    hide Replace;
    if a == [] {
      assert a + b == b;
      ReplaceAbsent(a, c, r);
    } else {
      assert a == [a[0]] + a[1..];
      assert a + b == [a[0]] + (a[1..] + b);
      ReplaceFirst(a[0], a[1..] + b, c, r);
      ReplaceFirst(a[0], a[1..], c, r);
      ReplaceAppend(a[1..], b, c, r);
    }
  }

  lemma ReplaceAbsent(a: Text, c: Unit, r: Text)
    requires c !in a
    ensures Replace(a, [c], r) == a
  {
    forall i
      ensures !OccursAt(a, [c], i)
    {
      if OccursAt(a, [c], i) {
        OccurrenceIn(a, [c], i, 0);
      }
    }
    assert Find(a, [c]) == -1;
  }

  lemma ReplaceOne(c: Unit, r: Text)
    ensures Replace([c], [c], r) == r
  {
  }

  predicate IsUnsafe(u: Unit) {
    u == LESS || u == LINE_SEPARATOR || u == PARAGRAPH_SEPARATOR
  }

  ghost predicate IsSafe(t: Text) {
    forall i :: 0 <= i < |t| ==> !IsUnsafe(t[i])
  }

  lemma SafeStays(t: Text)
    requires IsSafe(t)
    ensures MakeSafe(t) == t
  {
    ReplaceAbsent(t, LESS, UnicodeEscape(LESS));
    ReplaceAbsent(t, LINE_SEPARATOR, UnicodeEscape(LINE_SEPARATOR));
    ReplaceAbsent(t, PARAGRAPH_SEPARATOR, UnicodeEscape(PARAGRAPH_SEPARATOR));
  }

  lemma MakeSafeAppend(a: Text, b: Text)
    ensures MakeSafe(a + b) == MakeSafe(a) + MakeSafe(b)
  {
    ReplaceAppend(a, b, LESS, UnicodeEscape(LESS));
    var a1, b1 := Replace(a, [LESS], UnicodeEscape(LESS)), Replace(b, [LESS], UnicodeEscape(LESS));
    ReplaceAppend(a1, b1, LINE_SEPARATOR, UnicodeEscape(LINE_SEPARATOR));
    var a2 := Replace(a1, [LINE_SEPARATOR], UnicodeEscape(LINE_SEPARATOR));
    var b2 := Replace(b1, [LINE_SEPARATOR], UnicodeEscape(LINE_SEPARATOR));
    ReplaceAppend(a2, b2, PARAGRAPH_SEPARATOR, UnicodeEscape(PARAGRAPH_SEPARATOR));
  }

  lemma EscapesAreSafe(u: Unit)
    ensures IsSafe(UnicodeEscape(u))
  {
  }

  /** An unsafe unit becomes its escape: no later replacement touches what an earlier one wrote. */
  lemma UnsafeIsEscaped(u: Unit)
    requires IsUnsafe(u)
    ensures MakeSafe([u]) == UnicodeEscape(u)
  {
    var less, line, par := UnicodeEscape(LESS), UnicodeEscape(LINE_SEPARATOR), UnicodeEscape(PARAGRAPH_SEPARATOR);
    EscapesAreSafe(u);
    if u == LESS {
      ReplaceOne(LESS, less);
      ReplaceAbsent(less, LINE_SEPARATOR, line);
      ReplaceAbsent(less, PARAGRAPH_SEPARATOR, par);
    } else if u == LINE_SEPARATOR {
      ReplaceAbsent([u], LESS, less);
      ReplaceOne(LINE_SEPARATOR, line);
      ReplaceAbsent(line, PARAGRAPH_SEPARATOR, par);
    } else {
      ReplaceAbsent([u], LESS, less);
      ReplaceAbsent([u], LINE_SEPARATOR, line);
      ReplaceOne(PARAGRAPH_SEPARATOR, par);
    }
  }

  /** Whatever the text, none of the three holes is left in it. */
  lemma {:induction false} MakeSafeIsSafe(t: Text)
    ensures IsSafe(MakeSafe(t))
    decreases |t|
  {
    hide MakeSafe;
    if t == [] {
      SafeStays(t);
    } else {
      assert t == [t[0]] + t[1..];
      MakeSafeAppend([t[0]], t[1..]);
      MakeSafeIsSafe(t[1..]);
      if IsUnsafe(t[0]) {
        UnsafeIsEscaped(t[0]);
        EscapesAreSafe(t[0]);
      } else {
        SafeStays([t[0]]);
      }
    }
  }

  // ----- The reader undoes the printer

  lemma HexRoundTrip(d: int)
    requires 0 <= d < 16
    ensures HexValue(HexDigit(d)) == Some(d)
  {
  }

  lemma DivideTwice(n: int, k: int)
    requires k == 16 || k == 256
    ensures n / (k * 16) == n / k / 16
  {
  }

  lemma DigitsRoundTrip(u: Unit)
    ensures FromDigits(u / 4096, u / 256 % 16, u / 16 % 16, u % 16) == u
  {
    DivideTwice(u, 16);
    DivideTwice(u, 256);
  }

  lemma HexIsRead(u: Unit)
    ensures ReadHex(HexDigit(u / 4096), HexDigit(u / 256 % 16), HexDigit(u / 16 % 16), HexDigit(u % 16)) == Some(u)
  {
    hide HexDigit, HexValue, FromDigits;
    HexRoundTrip(u / 4096);
    HexRoundTrip(u / 256 % 16);
    HexRoundTrip(u / 16 % 16);
    HexRoundTrip(u % 16);
    DigitsRoundTrip(u);
  }

  lemma UnicodeEscapeIsRead(u: Unit, rest: Text)
    ensures ReadCharacter(UnicodeEscape(u) + rest) == Some((u, rest))
  {
    hide ReadHex, HexDigit;
    var t := UnicodeEscape(u) + rest;
    HexIsRead(u);
    assert t[6..] == rest;
  }

  lemma ShortEscapeIsRead(u: Unit, rest: Text)
    requires ShortEscape(u).Some?
    ensures ReadCharacter([BACKSLASH, ShortEscape(u).value] + rest) == Some((u, rest))
  {
  }

  /** Each unit of a literal is read back, however it was written. */
  lemma CharacterIsRead(t: Text, i: nat, rest: Text)
    requires i < |t|
    ensures MakeSafe(Escape(t, i)) != [] && MakeSafe(Escape(t, i))[0] != QUOTE
    ensures ReadCharacter(MakeSafe(Escape(t, i)) + rest) == Some((t[i], rest))
  {
    hide MakeSafe;
    var u := t[i];
    if ShortEscape(u).Some? {
      ShortEscapeIsRead(u, rest);
      SafeStays(Escape(t, i));
    } else if u < 0x20 || IsLone(t, i) {
      UnicodeEscapeIsRead(u, rest);
      EscapesAreSafe(u);
      SafeStays(Escape(t, i));
    } else if IsUnsafe(u) {
      UnicodeEscapeIsRead(u, rest);
      UnsafeIsEscaped(u);
    } else {
      SafeStays([u]);
      assert ([u] + rest)[1..] == rest;
    }
  }

  lemma {:induction false} StringIsRead(t: Text, i: nat, rest: Text)
    requires i <= |t|
    ensures ReadString(MakeSafe(Characters(t, i)) + [QUOTE] + rest) == Some((t[i..], rest))
    decreases |t| - i
  {
    hide MakeSafe, ReadCharacter, Escape;
    if i == |t| {
      SafeStays([]);
      var all := [QUOTE] + rest;
      assert MakeSafe(Characters(t, i)) + [QUOTE] + rest == all;
      assert all[1..] == rest;
      assert t[i..] == [];
    } else {
      var head, tail := MakeSafe(Escape(t, i)), MakeSafe(Characters(t, i + 1)) + [QUOTE] + rest;
      MakeSafeAppend(Escape(t, i), Characters(t, i + 1));
      CharacterIsRead(t, i, tail);
      StringIsRead(t, i + 1, rest);
      assert MakeSafe(Characters(t, i)) + [QUOTE] + rest == head + tail;
      assert t[i..] == [t[i]] + t[i + 1..];
    }
  }

  lemma QuotedIsRead(t: Text, rest: Text)
    ensures MakeSafe(Quote(t)) + rest != [] && (MakeSafe(Quote(t)) + rest)[0] == QUOTE
    ensures ReadString((MakeSafe(Quote(t)) + rest)[1..]) == Some((t, rest))
  {
    hide MakeSafe, ReadString;
    MakeSafeAppend([QUOTE] + Characters(t, 0), [QUOTE]);
    MakeSafeAppend([QUOTE], Characters(t, 0));
    SafeStays([QUOTE]);
    StringIsRead(t, 0, rest);
    var body := MakeSafe(Characters(t, 0)) + [QUOTE] + rest;
    assert MakeSafe(Quote(t)) + rest == [QUOTE] + body;
    assert ([QUOTE] + body)[1..] == body;
    assert t[0..] == t;
  }

  lemma NoSpace(t: Text)
    requires t == [] || t[0] > 0x20
    ensures SkipSpace(t) == t
  {
  }

  lemma MakeSafeAround(a: Unit, t: Text, b: Unit)
    requires !IsUnsafe(a) && !IsUnsafe(b)
    ensures MakeSafe([a] + t + [b]) == [a] + MakeSafe(t) + [b]
  {
    hide MakeSafe;
    MakeSafeAppend([a] + t, [b]);
    MakeSafeAppend([a], t);
    SafeStays([a]);
    SafeStays([b]);
  }

  lemma {:induction false} ValueIsRead(json: Json, rest: Text)
    ensures ReadValue(MakeSafe(Stringify(json)) + rest) == Some((json, rest))
    decreases json, 1
  {
    hide MakeSafe, ReadString, Quote, SkipSpace, ReadMembers, StringifyMembers;
    var t := MakeSafe(Stringify(json)) + rest;
    match json
    case Str(text) =>
      QuotedIsRead(text, rest);
      NoSpace(t);
    case Obj(members) =>
      var inside := MakeSafe(StringifyMembers(members)) + ([CLOSE_BRACE] + rest);
      MakeSafeAround(OPEN_BRACE, StringifyMembers(members), CLOSE_BRACE);
      assert t == [OPEN_BRACE] + inside;
      assert t[1..] == inside;
      NoSpace(t);
      if members == [] {
        NoMembers();
        assert inside[1..] == rest;
      } else {
        MembersAreRead(members, rest);
      }
      NoSpace(inside);
  }

  lemma NoMembers()
    ensures MakeSafe(StringifyMembers([])) == []
  {
  }

  /** What follows a member inside an object that ends before `rest`. */
  function AfterMember(others: seq<Member>, rest: Text): Text {
    (if others == [] then [] else [COMMA] + MakeSafe(StringifyMembers(others))) + ([CLOSE_BRACE] + rest)
  }

  lemma MembersText(members: seq<Member>, rest: Text)
    requires members != []
    ensures MakeSafe(StringifyMembers(members)) + ([CLOSE_BRACE] + rest)
         == MakeSafe(Quote(members[0].key))
            + ([COLON] + (MakeSafe(Stringify(members[0].value)) + AfterMember(members[1..], rest)))
  {
    hide MakeSafe, Quote, Stringify;
    var key, value := Quote(members[0].key), Stringify(members[0].value);
    var others := if |members| == 1 then [] else [COMMA] + StringifyMembers(members[1..]);
    assert StringifyMembers(members) == key + ([COLON] + (value + others));
    MakeSafeAppend(key, [COLON] + (value + others));
    MakeSafeAppend([COLON], value + others);
    MakeSafeAppend(value, others);
    SafeStays([COLON]);
    assert AfterMember(members[1..], rest) == MakeSafe(others) + ([CLOSE_BRACE] + rest) by {
      if |members| == 1 {
        SafeStays([]);
      } else {
        MakeSafeAppend([COMMA], StringifyMembers(members[1..]));
        SafeStays([COMMA]);
      }
    }
    AppendedLast(MakeSafe(key), [COLON], MakeSafe(value), MakeSafe(others), [CLOSE_BRACE] + rest);
  }

  lemma AppendedLast(a: Text, b: Text, c: Text, d: Text, e: Text)
    ensures a + (b + (c + d)) + e == a + (b + (c + (d + e)))
  {
  }

  lemma {:induction false} MembersAreRead(members: seq<Member>, rest: Text)
    requires members != []
    ensures var t := MakeSafe(StringifyMembers(members)) + ([CLOSE_BRACE] + rest);
            t != [] && t[0] == QUOTE && ReadMembers(t) == Some((members, rest))
    decreases members, 0
  {
    hide MakeSafe, ReadString, Quote, SkipSpace, ReadValue, Stringify, StringifyMembers;
    var key, value, others := members[0].key, members[0].value, members[1..];
    var next := AfterMember(others, rest);
    var afterColon := MakeSafe(Stringify(value)) + next;
    var t := MakeSafe(StringifyMembers(members)) + ([CLOSE_BRACE] + rest);
    MembersText(members, rest);
    QuotedIsRead(key, [COLON] + afterColon);
    NoSpace(t);
    NoSpace([COLON] + afterColon);
    assert ([COLON] + afterColon)[1..] == afterColon;
    ValueIsRead(value, next);
    NoSpace(next);
    if others == [] {
      assert next[1..] == rest;
      assert members == [members[0]];
    } else {
      MembersAreRead(others, rest);
      assert next[1..] == MakeSafe(StringifyMembers(others)) + ([CLOSE_BRACE] + rest);
      assert members == [members[0]] + others;
    }
  }

  /** Reading the script-safe text gives the value back. */
  lemma ParseUndoesSerialize(json: Json)
    ensures Parse(SerializeForScript(json)) == Some(json)
  {
    hide MakeSafe, ReadValue, Stringify;
    ValueIsRead(json, []);
    assert MakeSafe(Stringify(json)) + [] == MakeSafe(Stringify(json));
  }

  lemma SerializedIsSafe(json: Json)
    ensures IsSafe(SerializeForScript(json))
  {
    MakeSafeIsSafe(Stringify(json));
  }

  // ----- The language catalog inlined in the page

  datatype Language = English | Chinese

  const DEFAULT_LANGUAGE: Language := English

  /** `en` or `zh`. */
  function Tag(language: Language): Text {
    match language
    case English => [0x65, 0x6E]
    case Chinese => [0x7A, 0x68]
  }

  /** `globalThis.__BEX_I18N__=` */
  function Assignment(): Text {
    [0x67, 0x6C, 0x6F, 0x62, 0x61, 0x6C, 0x54, 0x68, 0x69, 0x73, 0x2E]
    + [0x5F, 0x5F, 0x42, 0x45, 0x58, 0x5F, 0x49, 0x31, 0x38, 0x4E, 0x5F, 0x5F, 0x3D]
  }

  function LngKey(): Text {
    [0x6C, 0x6E, 0x67]
  }

  function CatalogKey(): Text {
    [0x63, 0x61, 0x74, 0x61, 0x6C, 0x6F, 0x67]
  }

  function Payload(language: Language, catalog: Json): Json {
    Obj([Member(LngKey(), Str(Tag(language))), Member(CatalogKey(), catalog)])
  }

  function BootstrapScript(language: Language, catalog: Option<Json>): Option<Text> {
    if language == DEFAULT_LANGUAGE || catalog.None? then None
    else Some(Assignment() + SerializeForScript(Payload(language, catalog.value)))
  }

  // ----- What the browser makes of the literal

  /** `__proto__` */
  function ProtoKey(): Text {
    [0x5F, 0x5F, 0x70, 0x72, 0x6F, 0x74, 0x6F, 0x5F, 0x5F]
  }

  /** The value of the text as an object literal (ECMA-262, section B.3.1): as `JSON.parse` reads
      it, except that a member named `__proto__` is no member of the object. */
  function Evaluated(json: Json): Json
    decreases json, 1
  {
    match json
    case Str(_) => json
    case Obj(members) => Obj(EvaluatedMembers(members))
  }

  function EvaluatedMembers(members: seq<Member>): (r: seq<Member>)
    ensures |r| <= |members|
    decreases members, 0
  {
    if members == [] then []
    else
      (if members[0].key == ProtoKey() then [] else [Member(members[0].key, Evaluated(members[0].value))])
      + EvaluatedMembers(members[1..])
  }

  /** No object in the value, at any depth, has a member named `__proto__`. */
  predicate ProtoFree(json: Json)
    decreases json, 1
  {
    json.Obj? ==> ProtoFreeMembers(json.members)
  }

  predicate ProtoFreeMembers(members: seq<Member>)
    decreases members, 0
  {
    members != [] ==> members[0].key != ProtoKey() && ProtoFree(members[0].value) && ProtoFreeMembers(members[1..])
  }

  lemma {:induction false} EvaluatedIsSame(json: Json)
    ensures Evaluated(json) == json <==> ProtoFree(json)
    decreases json, 1
  {
    if json.Obj? {
      EvaluatedMembersAreSame(json.members);
    }
  }

  lemma {:induction false} EvaluatedMembersAreSame(members: seq<Member>)
    ensures EvaluatedMembers(members) == members <==> ProtoFreeMembers(members)
    decreases members, 0
  {
    hide ProtoKey;
    if members != [] {
      var first, others := members[0], members[1..];
      EvaluatedIsSame(first.value);
      EvaluatedMembersAreSame(others);
      assert members == [first] + others;
      if first.key != ProtoKey() {
        var r := [Member(first.key, Evaluated(first.value))];
        assert EvaluatedMembers(members) == r + EvaluatedMembers(others);
        if EvaluatedMembers(members) == members {
          assert (r + EvaluatedMembers(others))[0] == first;
          assert (r + EvaluatedMembers(others))[1..] == EvaluatedMembers(others);
        }
      } else {
        assert |EvaluatedMembers(members)| < |members|;
      }
    }
  }

  function Seed(json: Json): Option<(Text, Json)> {
    match json
    case Obj(m) =>
      if && |m| == 2 && m[0].key == LngKey() && m[1].key == CatalogKey()
         && m[0].value.Str? && m[0].value.text != Tag(DEFAULT_LANGUAGE)
      then Some((m[0].value.text, m[1].value)) else None
    case Str(_) => None
  }

  /** What the client finds on `globalThis` once the script, if any, has run: the browser
      evaluates the assigned literal, and the default language counts as absent. */
  function ClientBootstrap(script: Option<Text>): Option<(Text, Json)> {
    if script.None? || !(Assignment() <= script.value) then None
    else
      match Parse(script.value[|Assignment()|..])
      case Some(json) => Seed(Evaluated(json))
      case None => None
  }

  /** The client is seeded with the language and catalog the server rendered, except that the
      default language and a missing catalog send nothing and that members named `__proto__`
      are lost: the catalog arrives whole exactly when it has none. What is sent cannot close
      the script element. */
  lemma ClientSeesTheServersCatalog(language: Language, catalog: Option<Json>)
    ensures ClientBootstrap(BootstrapScript(language, catalog))
         == if language != DEFAULT_LANGUAGE && catalog.Some?
            then Some((Tag(language), Evaluated(catalog.value))) else None
    ensures catalog.Some? ==> (Evaluated(catalog.value) == catalog.value <==> ProtoFree(catalog.value))
    ensures BootstrapScript(language, catalog).Some? ==> IsSafe(BootstrapScript(language, catalog).value)
  {
    hide Parse, SerializeForScript, Assignment, Evaluated, ProtoFree;
    if catalog.Some? {
      EvaluatedIsSame(catalog.value);
      if language != DEFAULT_LANGUAGE {
        var payload := Payload(language, catalog.value);
        var script := Assignment() + SerializeForScript(payload);
        assert script[|Assignment()|..] == SerializeForScript(payload);
        ParseUndoesSerialize(payload);
        SerializedIsSafe(payload);
        AssignmentIsSafe();
        PayloadIsEvaluated(language, catalog.value);
      }
    }
  }

  lemma PayloadIsEvaluated(language: Language, catalog: Json)
    ensures Evaluated(Payload(language, catalog)) == Payload(language, Evaluated(catalog))
  {
    var members := Payload(language, catalog).members;
    assert members[1..] == [Member(CatalogKey(), catalog)];
    assert members[1..][1..] == [];
    assert Evaluated(Str(Tag(language))) == Str(Tag(language));
    assert EvaluatedMembers(members[1..]) == [Member(CatalogKey(), Evaluated(catalog))];
  }

  lemma AssignmentIsSafe()
    ensures IsSafe(Assignment())
  {
  }
}

/** The lines of pricing.yaml as `parse_pricing` of scripts/stripe-billing-setup.py reads them. */
module SheetText {
  import opened Wrappers

  datatype RateKey = UsdPerSecond | UsdPerByte | UsdPerGBSecond | UsdPerWeightedSecond

  /** What a line says; a rate that is no decimal number is `None`. `Blank` stands for every
      line that the reader passes over. */
  datatype SheetLine =
    | Section(name: string)
    | Tier(tier: string)
    | Markup(markup: Option<real>)
    | Rate(key: RateKey, rate: Option<real>)
    | Blank

  // ----- str.split and str.strip

  /** What `str.strip` takes for white space. */
  predicate IsSpace(c: char) {
    var u := c as int;
    || 9 <= u <= 13 || 28 <= u <= 32 || u == 0x85 || u == 0xA0 || u == 0x1680 || 0x2000 <= u <= 0x200A
    || u == 0x2028 || u == 0x2029 || u == 0x202F || u == 0x205F || u == 0x3000
  }

  /** The text before the first `c`, or all of it. */
  function Before(s: string, c: char): string {
    if s == "" || s[0] == c then "" else [s[0]] + Before(s[1..], c)
  }

  /** The text after the first `c`, if there is one. */
  function After(s: string, c: char): string {
    if s == "" then "" else if s[0] == c then s[1..] else After(s[1..], c)
  }

  function StripLeft(s: string): string {
    if s != "" && IsSpace(s[0]) then StripLeft(s[1..]) else s
  }

  function StripRight(s: string): string {
    if s != "" && IsSpace(s[|s| - 1]) then StripRight(s[..|s| - 1]) else s
  }

  function Strip(s: string): string {
    StripRight(StripLeft(s))
  }

  // ----- One line

  function KeyOf(name: string): Option<RateKey> {
    if name == "usdPerSecond" then Some(UsdPerSecond)
    else if name == "usdPerByte" then Some(UsdPerByte)
    else if name == "usdPerGBSecond" then Some(UsdPerGBSecond)
    else if name == "usdPerWeightedSecond" then Some(UsdPerWeightedSecond)
    else None
  }

  /** `read` is the reading of a decimal number. A mark-up outside its section, where the
      original passes it over, says nothing in the table that is built either. */
  function Classify(raw: string, read: string -> Option<real>): SheetLine {
    var line := StripRight(Before(raw, '#'));
    if line == "" then Blank
    else if line[0] != ' ' && line[|line| - 1] == ':' then Section(Strip(line[..|line| - 1]))
    else Says(Strip(line), read)
  }

  /** What a line that is no heading says. */
  function Says(text: string, read: string -> Option<real>): SheetLine {
    if "- tier:" <= text then Tier(Strip(After(text, ':')))
    else if "markup:" <= text then Markup(read(After(text, ':')))
    else if ':' !in text then Blank
    else
      var key, value := Strip(Before(text, ':')), Strip(After(text, ':'));
      if key == "tier" then Tier(value)
      else if KeyOf(key).Some? then Rate(KeyOf(key).value, read(value))
      else Blank
  }

  function Lines(text: seq<string>, read: string -> Option<real>): (lines: seq<SheetLine>)
    ensures |lines| == |text| && forall i :: 0 <= i < |text| ==> lines[i] == Classify(text[i], read)
  {
    seq(|text|, i requires 0 <= i < |text| => Classify(text[i], read))
  }

  // ----- What does not matter, and what is read as written

  lemma {:induction false} BeforeComment(s: string, comment: string)
    ensures Before(s + "#" + comment, '#') == Before(s, '#')
  {
    var t := s + "#" + comment;
    if s == "" || s[0] == '#' {
      assert t[0] == '#';
    } else {
      BeforeComment(s[1..], comment);
      assert t[1..] == s[1..] + "#" + comment;
    }
  }

  /** A comment says nothing, whatever is in it. */
  lemma CommentsSayNothing(raw: string, comment: string, read: string -> Option<real>)
    ensures Classify(raw + "#" + comment, read) == Classify(raw, read)
  {
    BeforeComment(raw, comment);
  }

  /** The text neither begins nor ends with white space. */
  predicate IsTrimmed(s: string) {
    s != "" ==> !IsSpace(s[0]) && !IsSpace(s[|s| - 1])
  }

  function Indent(n: nat): (s: string)
    ensures |s| == n && forall i :: 0 <= i < n ==> s[i] == ' '
  {
    seq(n, i => ' ')
  }

  lemma {:induction false} BeforeNone(s: string, c: char)
    requires c !in s
    ensures Before(s, c) == s
  {
    if s != "" {
      BeforeNone(s[1..], c);
    }
  }

  lemma {:induction false} SplitAt(key: string, c: char, value: string)
    requires c !in key
    ensures Before(key + [c] + value, c) == key && After(key + [c] + value, c) == value
  {
    var t := key + [c] + value;
    if key == "" {
      assert t[0] == c && t[1..] == value;
    } else {
      SplitAt(key[1..], c, value);
      assert t[0] == key[0] && t[1..] == key[1..] + [c] + value;
    }
  }

  lemma {:induction false} IndentIsStripped(n: nat, s: string)
    requires s != "" && !IsSpace(s[0])
    ensures StripLeft(Indent(n) + s) == s
  {
    var t := Indent(n) + s;
    if n == 0 {
      assert t == s;
    } else {
      assert t[0] == ' ' && t[1..] == Indent(n - 1) + s;
      IndentIsStripped(n - 1, s);
    }
  }

  lemma TrimmedIsStripped(s: string)
    requires IsTrimmed(s)
    ensures Strip(s) == s && Strip(" " + s) == s
  {
    assert (" " + s)[1..] == s;
    if s == "" {
      assert StripLeft(" " + s) == "";
    }
  }

  /** A text within a line. */
  predicate IsWord(s: string) {
    s != "" && IsTrimmed(s) && '#' !in s
  }

  /** Section headings, tiers and rates as the price sheet writes them, at any indentation, are
      read for what they are. */
  lemma WrittenIsRead(n: nat, word: string, key: RateKey, name: string, read: string -> Option<real>)
    requires n > 0 && IsWord(word) && KeyOf(name) == Some(key)
    ensures Classify(word + ":", read) == Section(word)
    ensures Classify(Indent(n) + ("- tier: " + word), read) == Tier(word)
    ensures Classify(Indent(n) + (name + ": " + word), read) == Rate(key, read(word))
  {
    hide Strip, Says, IsSpace, KeyOf, StripLeft;
    HeadingIsRead(word, read);
    var tier, rate := "- tier: " + word, name + ": " + word;
    TierIsRead(word, read);
    RateIsRead(name, word, key, read);
    assert IsWord(tier) by {
      assert tier[|tier| - 1] == word[|word| - 1];
      DashIsNoSpace();
    }
    assert IsWord(rate) by {
      NamesAreWords(name, key);
      assert rate[|rate| - 1] == word[|word| - 1];
      assert rate[0] == name[0];
    }
    IndentedIsRead(n, tier, read);
    IndentedIsRead(n, rate, read);
  }

  lemma DashIsNoSpace()
    ensures !IsSpace('-') && !IsSpace(':') && IsSpace(' ')
  {
  }

  lemma NamesAreWords(name: string, key: RateKey)
    requires KeyOf(name) == Some(key)
    ensures IsWord(name) && ':' !in name && name[0] == 'u' && name != "tier"
  {
  }

  lemma HeadingIsRead(word: string, read: string -> Option<real>)
    requires IsWord(word)
    ensures Classify(word + ":", read) == Section(word)
  {
    hide Says;
    var line := word + ":";
    BeforeNone(line, '#');
    TrimmedIsStripped(word);
    DashIsNoSpace();
    assert line[|line| - 1] == ':' && line[0] == word[0];
    assert line[..|line| - 1] == word;
  }

  lemma IndentedIsRead(n: nat, word: string, read: string -> Option<real>)
    requires n > 0 && IsWord(word)
    ensures Classify(Indent(n) + word, read) == Says(word, read)
  {
    hide Says, IsSpace;
    var line := Indent(n) + word;
    BeforeNone(line, '#');
    IndentIsStripped(n, word);
    TrimmedIsStripped(word);
    assert line[0] == ' ' && line[|line| - 1] == word[|word| - 1];
  }

  lemma TierIsRead(word: string, read: string -> Option<real>)
    requires IsWord(word)
    ensures Says("- tier: " + word, read) == Tier(word)
  {
    var text := "- tier: " + word;
    assert text == "- tier" + [':'] + (" " + word);
    SplitAt("- tier", ':', " " + word);
    TrimmedIsStripped(word);
    hide Strip, IsSpace;
    assert text[..7] == "- tier:";
  }

  lemma RateIsRead(name: string, word: string, key: RateKey, read: string -> Option<real>)
    requires IsWord(word) && KeyOf(name) == Some(key)
    ensures Says(name + ": " + word, read) == Rate(key, read(word))
  {
    var text := name + ": " + word;
    NamesAreWords(name, key);
    assert text == name + [':'] + (" " + word);
    SplitAt(name, ':', " " + word);
    TrimmedIsStripped(name);
    TrimmedIsStripped(word);
    hide Strip, IsSpace, KeyOf;
    assert text[0] == 'u' && text[|name|] == ':';
  }
}

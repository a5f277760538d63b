/** `patch_finder`: the insertion of one private interpreter check into the Python finder
    that node-gyp bundles, and its migration from an earlier wording. */
module NodeFinderPatch {
  import opened Wrappers
  import opened Search
  import opened Insertion

  // ----- The constants, in pieces

  const OPEN := "        {\n"
  const LOG := "          before: () => { "
  const CALL := "this.addLog('checking "
  const THE_BEX := "the Bex "
  const LEGACY := "private legacy Node"
  const NODE14 := "private Node14"
  const BUILD := " build interpreter') },\n"
  const CHECK := "          check: "
  const COMMAND := "this.checkCommand,\n"
  const ARG := "          arg: '"
  const PREFIX := "/opt/bex/native-node-python"
  const BINARY := "/bin/python3.9'\n"
  const CLOSE := "        },\n"

  const PYTHON := "if \"python\" can be used') },"
  const PYTHON3 := "if \"python3\" can be used') },"

  function Anchor(): string {
    OPEN + LOG + CALL + PYTHON
  }

  function Anchor3(): string {
    OPEN + LOG + CALL + PYTHON3
  }

  /** The inserted check around the interpreter's path, with either wording. */
  function Check(wording: string): Block {
    Block(OPEN + LOG + CALL + THE_BEX + wording + BUILD + CHECK + COMMAND + ARG, BINARY + CLOSE)
  }

  function PrivateCheck(): string {
    Text(PREFIX, Check(LEGACY))
  }

  function PreviousPrivateCheck(): string {
    Text(PREFIX, Check(NODE14))
  }

  const FORCE := "if (this.env.NODE_GYP_FORCE_PYTHON)"
  const CONFIG := "arg: this.configPython"
  const ENV := "arg: this.env.PYTHON"

  datatype Refusal = AnchorChanged | SelectionChanged

  lemma NothingIsEmpty()
    ensures Anchor() != [] && Anchor3() != [] && PrivateCheck() != [] && PreviousPrivateCheck() != []
  {
  }

  // ----- The patch

  function Clean(source: string): string {
    NothingIsEmpty();
    Replace(Replace(source, PrivateCheck(), ""), PreviousPrivateCheck(), "")
  }

  predicate AnchorsHold(source: string) {
    NothingIsEmpty();
    var clean := Clean(source);
    && Count(clean, Anchor()) == 1
    && Count(clean, Anchor3()) == 1
    && Count(source, PrivateCheck()) + Count(source, PreviousPrivateCheck()) <= 1
  }

  /** The anchor that comes first. */
  function FirstAnchor(clean: string): string {
    if Find(clean, Anchor()) <= Find(clean, Anchor3()) then Anchor() else Anchor3()
  }

  /** The three explicit selections come in order. */
  predicate SelectsExplicitly(before: string) {
    -1 < Find(before, FORCE) <= Find(before, CONFIG) <= Find(before, ENV)
  }

  function PatchFinder(source: string): Result<string, Refusal> {
    if !AnchorsHold(source) then Failure(AnchorChanged) else PatchClean(Clean(source))
  }

  function PatchClean(clean: string): Result<string, Refusal> {
    NothingIsEmpty();
    var anchor := FirstAnchor(clean);
    var at := Find(clean, anchor);
    var before := if at == -1 then clean else clean[..at];
    if !SelectsExplicitly(before) || Find(clean, PREFIX) != -1 then Failure(SelectionChanged)
    else Success(Replace(clean, anchor, PrivateCheck() + anchor))
  }

  // ----- The checks are recognised by the interpreter's path

  lemma LacksJoin(s: string, t: string, c: char)
    requires Lacks(s, c) && Lacks(t, c)
    ensures Lacks(s + t, c)
  {
  }

  lemma HeadLacksSlash(wording: string)
    requires Lacks(wording, '/')
    ensures Lacks(Check(wording).head, '/')
  {
    LacksJoin(OPEN, LOG, '/');
    LacksJoin(OPEN + LOG, CALL, '/');
    LacksJoin(OPEN + LOG + CALL, THE_BEX, '/');
    LacksJoin(OPEN + LOG + CALL + THE_BEX, wording, '/');
    LacksJoin(OPEN + LOG + CALL + THE_BEX + wording, BUILD, '/');
    LacksJoin(OPEN + LOG + CALL + THE_BEX + wording + BUILD, CHECK, '/');
    LacksJoin(OPEN + LOG + CALL + THE_BEX + wording + BUILD + CHECK, COMMAND, '/');
    LacksJoin(OPEN + LOG + CALL + THE_BEX + wording + BUILD + CHECK + COMMAND, ARG, '/');
  }

  /** Where the path's first two characters stand together. */
  ghost predicate SlashO(s: string, k: int) {
    0 <= k && k + 1 < |s| && s[k] == '/' && s[k + 1] == 'o'
  }

  lemma SlashOInPath(k: int)
    ensures SlashO(PREFIX, k) <==> k == 0
    ensures PREFIX[|PREFIX| - 1] == 'n'
  {
  }

  lemma SlashOInTail(k: int)
    ensures !SlashO(BINARY + CLOSE, k)
  {
  }

  lemma SlashOJoins(h: string, m: string, t: string, k: int)
    requires Lacks(h, '/') && m != [] && m[|m| - 1] != '/'
    requires forall i :: SlashO(m, i) ==> i == 0
    requires forall i :: !SlashO(t, i)
    ensures SlashO(h + m + t, k) ==> k == |h|
  {
    var s := h + m + t;
    assert forall i :: 0 <= i < |h| ==> s[i] == h[i];
    assert s[|h| + |m| - 1] == m[|m| - 1];
    assert |h| <= k && k + 1 < |h| + |m| ==> (SlashO(s, k) <==> SlashO(m, k - |h|));
    assert |h| + |m| <= k ==> (SlashO(s, k) <==> SlashO(t, k - |h| - |m|));
  }

  predicate Known(wording: string) {
    wording == LEGACY || wording == NODE14
  }

  lemma HeadAndTail(wording: string)
    ensures
      var check := Check(wording);
      && check.head != [] && check.head[0] == ' '
      && check.tail != [] && check.tail[|check.tail| - 1] == '\n'
  {
  }

  lemma PathHasNoBlank()
    ensures Lacks(PREFIX, ' ') && Lacks(PREFIX, '\n')
    ensures |PREFIX| == 27 && PREFIX[0] == '/' && PREFIX[1] == 'o'
  {
  }

  /** Each wording of the check can be recognised by the path in it. */
  lemma ChecksAreMarked(wording: string)
    requires Known(wording)
    ensures Marked(PREFIX, Check(wording))
  {
    assert Lacks(wording, '/');
    HeadLacksSlash(wording);
    HeadAndTail(wording);
    PathHasNoBlank();
    var check := Check(wording);
    assert check.tail == BINARY + CLOSE;
    hide Check;
    var text := Text(PREFIX, check);
    forall k | OccursAt(text, PREFIX, k) ensures k == |check.head| {
      OccurrenceIn(text, PREFIX, k, 0);
      OccurrenceIn(text, PREFIX, k, 1);
      forall i ensures (SlashO(PREFIX, i) ==> i == 0) && !SlashO(check.tail, i) {
        SlashOInPath(i);
        SlashOInTail(i);
      }
      SlashOInPath(0);
      SlashOJoins(check.head, PREFIX, check.tail, k);
    }
  }

  lemma ChecksClash()
    ensures Clash(PREFIX, Check(LEGACY), Check(NODE14))
    ensures Clash(PREFIX, Check(NODE14), Check(LEGACY))
  {
    assert |OPEN| == 10 && OPEN[8] == '{' && OPEN[3] == ' ';
    assert |LEGACY| == 19 && |NODE14| == 14;
    var x, y := Check(LEGACY), Check(NODE14);
    assert |x.head| - |y.head| == 5;
    assert x.head[8] == OPEN[8] && y.head[3] == OPEN[3];
    assert |x.head| > 8 && |y.head| > 3;
    hide Check;
    assert Text(PREFIX, x)[3 + 5] != Text(PREFIX, y)[3];
    assert Text(PREFIX, y)[8 - 5] != Text(PREFIX, x)[8];
  }

  // ----- What the patch does

  lemma CleanOfClean(clean: string)
    requires Free(PREFIX, clean)
    ensures Clean(clean) == clean
    ensures AnchorsHold(clean) <==> (NothingIsEmpty(); Count(clean, Anchor()) == 1 && Count(clean, Anchor3()) == 1)
  {
    PathHasNoBlank();
    FreeIsUntouched(PREFIX, Check(LEGACY), clean);
    FreeIsUntouched(PREFIX, Check(NODE14), clean);
    hide Check, Anchor, Anchor3, Text;
  }

  lemma CleanOfChecked(a: string, b: string, wording: string)
    requires Known(wording) && Free(PREFIX, a + b)
    ensures Clean(a + Text(PREFIX, Check(wording)) + b) == a + b
    ensures AnchorsHold(a + Text(PREFIX, Check(wording)) + b) <==>
              (NothingIsEmpty(); Count(a + b, Anchor()) == 1 && Count(a + b, Anchor3()) == 1)
  {
    PathHasNoBlank();
    ChecksAreMarked(wording);
    ChecksClash();
    InsertedIsRemoved(PREFIX, Check(wording), a, b);
    OtherIsAbsent(PREFIX, Check(wording), Check(if wording == LEGACY then NODE14 else LEGACY), a, b);
    FreeIsUntouched(PREFIX, Check(NODE14), a + b);
    hide Check, Anchor, Anchor3, Text, Marked, Clash, Free;
  }

  /** A source that already holds the check in either wording, anywhere, is patched as
      if it were the clean text. */
  lemma Migrates(a: string, b: string, wording: string)
    requires Known(wording) && Free(PREFIX, a + b)
    ensures PatchFinder(a + Text(PREFIX, Check(wording)) + b) == PatchFinder(a + b)
  {
    CleanOfChecked(a, b, wording);
    CleanOfClean(a + b);
    hide Check, Clean, AnchorsHold, PatchClean, Anchor, Anchor3, Text, Free;
  }

  lemma ReplaceOnce(s: string, p: string, r: string)
    requires p != [] && Count(s, p) == 1
    ensures
      var at := Find(s, p);
      at != -1 && Replace(s, p, r) == s[..at] + r + s[at + |p|..]
  {
  }

  lemma ReplaceAnchor(clean: string, anchor: string, check: string)
    requires anchor != [] && Count(clean, anchor) == 1
    ensures
      var at := Find(clean, anchor);
      at != -1 && Replace(clean, anchor, check + anchor) == clean[..at] + check + clean[at..]
  {
    ReplaceOnce(clean, anchor, check + anchor);
    var at := Find(clean, anchor);
    assert clean[at..] == anchor + clean[at + |anchor|..];
    assert clean[..at] + (check + anchor) + clean[at + |anchor|..] == clean[..at] + check + clean[at..];
  }

  /** A successful patch is the clean text with the check put in once, after the three
      explicit selections and before the first default anchor. */
  lemma PatchPlaces(source: string)
    ensures PatchFinder(source).Success? ==>
      var clean := Clean(source);
      var at := Find(clean, FirstAnchor(clean));
      && 0 <= at <= |clean|
      && PatchFinder(source).value == clean[..at] + PrivateCheck() + clean[at..]
      && Free(PREFIX, clean)
      && SelectsExplicitly(clean[..at])
      && at <= Find(clean, Anchor()) && at <= Find(clean, Anchor3())
  {
    if PatchFinder(source).Success? {
      NothingIsEmpty();
      var clean := Clean(source);
      hide Clean, Anchor, Anchor3, PrivateCheck, SelectsExplicitly;
      var anchor := FirstAnchor(clean);
      ReplaceAnchor(clean, anchor, PrivateCheck());
      ReplaceOnce(clean, Anchor(), "");
      ReplaceOnce(clean, Anchor3(), "");
      hide Count, Replace;
    }
  }

  lemma CleanIsPatchedAlike(source: string)
    requires AnchorsHold(source) && Free(PREFIX, Clean(source))
    ensures PatchFinder(Clean(source)) == PatchFinder(source)
  {
    CleanOfClean(Clean(source));
    hide Clean, Anchor, Anchor3, PatchClean, Free, Count;
  }

  lemma CheckedIsPatchedAlike(clean: string, at: nat)
    requires at <= |clean| && Free(PREFIX, clean)
    ensures PatchFinder(clean[..at] + PrivateCheck() + clean[at..]) == PatchFinder(clean)
  {
    assert clean[..at] + clean[at..] == clean;
    Migrates(clean[..at], clean[at..], LEGACY);
    hide PatchFinder, Free, Check, Text;
  }

  /** Patching a patched source changes nothing, and so does patching the clean text. */
  lemma PatchIsIdempotent(source: string)
    ensures PatchFinder(source).Success? ==>
      && PatchFinder(PatchFinder(source).value) == PatchFinder(source)
      && PatchFinder(Clean(source)) == PatchFinder(source)
  {
    if PatchFinder(source).Success? {
      PatchPlaces(source);
      hide Clean, PatchClean, FirstAnchor, SelectsExplicitly, Free, PrivateCheck, Find, Anchor, Anchor3, AnchorsHold;
      var clean := Clean(source);
      CleanIsPatchedAlike(source);
      CheckedIsPatchedAlike(clean, Find(clean, FirstAnchor(clean)));
    }
  }
}

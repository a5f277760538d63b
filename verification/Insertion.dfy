/** A block of text that is recognised by a mark inside it: what happens when one such
    block is put into a text that does not mention the mark. */
module Insertion {
  import opened Search

  datatype Block = Block(head: string, tail: string)

  function Text(mark: string, block: Block): string {
    block.head + mark + block.tail
  }

  ghost predicate Lacks(s: string, c: char) {
    forall i :: 0 <= i < |s| ==> s[i] != c
  }

  /** The mark stands in the block exactly once and cannot reach over the block's ends. */
  ghost predicate Marked(mark: string, block: Block) {
    var text := Text(mark, block);
    && mark != [] && block.head != [] && block.tail != []
    && Lacks(mark, block.head[0])
    && Lacks(mark, block.tail[|block.tail| - 1])
    && forall k :: OccursAt(text, mark, k) ==> k == |block.head|
  }

  ghost predicate Free(mark: string, s: string) {
    forall i :: !OccursAt(s, mark, i)
  }

  lemma FreeParts(mark: string, a: string, b: string)
    requires Free(mark, a + b)
    ensures Free(mark, a) && Free(mark, b)
  {
    forall i ensures !OccursAt(a, mark, i) {
      if OccursAt(a, mark, i) {
        OccursInPrefix(a, b, mark, i);
      }
    }
    forall i ensures !OccursAt(b, mark, i) {
      if OccursAt(b, mark, i) {
        assert (a + b)[|a|..] == b;
        OccursInSuffix(a + b, mark, |a|, i);
      }
    }
  }

  /** Inside the block's text the mark is where it is put. */
  lemma MarkInText(mark: string, block: Block, s: string, j: int)
    requires OccursAt(s, Text(mark, block), j)
    ensures OccursAt(s, mark, j + |block.head|)
  {
    var text := Text(mark, block);
    OccursByIndexIn(s, text, j, mark, |block.head|);
  }

  lemma OccursByIndexIn(s: string, text: string, j: int, p: string, k: nat)
    requires OccursAt(s, text, j) && k + |p| <= |text| && text[k..k + |p|] == p
    ensures OccursAt(s, p, j + k)
  {
    forall n | 0 <= n < |p| ensures s[j + k + n] == p[n] {
      OccurrenceIn(s, text, j, k + n);
      assert text[k..k + |p|][n] == text[k + n];
    }
    OccursByIndex(s, p, j + k);
  }

  lemma NoMarkBefore(mark: string, block: Block, a: string, b: string, i: int)
    requires Marked(mark, block) && Free(mark, a) && i < |a|
    ensures !OccursAt(a + Text(mark, block) + b, mark, i)
  {
    var text := Text(mark, block);
    var s := a + text + b;
    assert s == a + (text + b);
    assert s[|a|] == text[0] == block.head[0];
    hide Text, OccursAt;
    if OccursAt(s, mark, i) {
      if i + |mark| <= |a| {
        OccursInPrefix(a, text + b, mark, i);
      } else {
        OccurrenceIn(s, mark, i, |a| - i);
      }
    }
  }

  lemma NoMarkAfter(mark: string, block: Block, a: string, b: string, i: int)
    requires Marked(mark, block) && Free(mark, b) && i + |mark| > |a| + |Text(mark, block)|
    ensures !OccursAt(a + Text(mark, block) + b, mark, i)
  {
    var text := Text(mark, block);
    var s := a + text + b;
    var last := |a| + |text| - 1;
    assert s[last] == text[|text| - 1] == block.tail[|block.tail| - 1];
    assert s[|a| + |text|..] == b;
    hide Text, OccursAt;
    if OccursAt(s, mark, i) {
      if i > last {
        OccursInSuffix(s, mark, |a| + |text|, i - |a| - |text|);
      } else {
        OccurrenceIn(s, mark, i, last - i);
      }
    }
  }

  /** The mark of an inserted block is the only one. */
  lemma MarkOccursOnce(mark: string, block: Block, a: string, b: string, i: int)
    requires Marked(mark, block) && Free(mark, a + b)
    ensures OccursAt(a + Text(mark, block) + b, mark, i) ==> i == |a| + |block.head|
  {
    var text := Text(mark, block);
    var s := a + text + b;
    FreeParts(mark, a, b);
    if OccursAt(s, mark, i) {
      if i < |a| {
        NoMarkBefore(mark, block, a, b, i);
      } else if i + |mark| > |a| + |text| {
        NoMarkAfter(mark, block, a, b, i);
      } else {
        assert s[|a|..] == text + b;
        hide Text, Free;
        OccursInSuffix(s, mark, |a|, i - |a|);
        OccursInPrefix(text, b, mark, i - |a|);
      }
    }
  }

  /** Two blocks that differ somewhere when their marks are put on top of each other. */
  ghost predicate Clash(mark: string, x: Block, y: Block) {
    var shift := |x.head| - |y.head|;
    exists k :: 0 <= k < |Text(mark, y)| && 0 <= k + shift < |Text(mark, x)|
        && Text(mark, x)[k + shift] != Text(mark, y)[k]
  }

  lemma OtherNeverOccurs(mark: string, x: Block, y: Block, a: string, b: string, j: int)
    requires Marked(mark, x) && Free(mark, a + b) && Clash(mark, x, y)
    ensures !OccursAt(a + Text(mark, x) + b, Text(mark, y), j)
  {
    var tx, ty := Text(mark, x), Text(mark, y);
    var s := a + tx + b;
    var shift := |x.head| - |y.head|;
    var k :| 0 <= k < |ty| && 0 <= k + shift < |tx| && tx[k + shift] != ty[k];
    assert s[|a| + k + shift] == tx[k + shift];
    if OccursAt(s, ty, j) {
      MarkInText(mark, y, s, j);
      MarkOccursOnce(mark, x, a, b, j + |y.head|);
      hide Text;
      OccurrenceIn(s, ty, j, k);
    }
  }

  lemma BlockOccursAt(mark: string, x: Block, a: string, b: string, j: int)
    requires Marked(mark, x) && Free(mark, a + b)
    ensures OccursAt(a + Text(mark, x) + b, Text(mark, x), j) <==> j == |a|
  {
    var text := Text(mark, x);
    var s := a + text + b;
    if OccursAt(s, text, j) {
      MarkInText(mark, x, s, j);
      MarkOccursOnce(mark, x, a, b, j + |x.head|);
    }
    hide Text;
    assert s[|a|..|a| + |text|] == text;
  }

  lemma FreeOfBlocks(mark: string, x: Block, s: string)
    requires Free(mark, s)
    ensures Find(s, Text(mark, x)) == -1
  {
    var at := Find(s, Text(mark, x));
    if at != -1 {
      MarkInText(mark, x, s, at);
    }
  }

  /** Removing the inserted block gives the text back; it is counted once. */
  lemma InsertedIsRemoved(mark: string, x: Block, a: string, b: string)
    requires Marked(mark, x) && Free(mark, a + b)
    ensures Text(mark, x) != []
    ensures Replace(a + Text(mark, x) + b, Text(mark, x), "") == a + b
    ensures Count(a + Text(mark, x) + b, Text(mark, x)) == 1
  {
    var text := Text(mark, x);
    var s := a + text + b;
    assert |text| > 0;
    forall j ensures OccursAt(s, text, j) <==> j == |a| {
      BlockOccursAt(mark, x, a, b, j);
    }
    FreeParts(mark, a, b);
    FreeOfBlocks(mark, x, b);
    hide Text;
    FindIs(s, text, |a|);
    assert s[..|a|] == a && s[|a| + |text|..] == b;
    assert a + "" + b == a + b;
  }

  /** Removing the other block changes nothing; it is not counted. */
  lemma OtherIsAbsent(mark: string, x: Block, y: Block, a: string, b: string)
    requires Marked(mark, x) && Free(mark, a + b) && Clash(mark, x, y) && mark != []
    ensures Text(mark, y) != []
    ensures Replace(a + Text(mark, x) + b, Text(mark, y), "") == a + Text(mark, x) + b
    ensures Count(a + Text(mark, x) + b, Text(mark, y)) == 0
  {
    var s := a + Text(mark, x) + b;
    assert |Text(mark, y)| > 0;
    forall j ensures !OccursAt(s, Text(mark, y), j) {
      OtherNeverOccurs(mark, x, y, a, b, j);
    }
    hide Text;
  }

  lemma FreeIsUntouched(mark: string, x: Block, s: string)
    requires Free(mark, s) && mark != []
    ensures Text(mark, x) != []
    ensures Replace(s, Text(mark, x), "") == s && Count(s, Text(mark, x)) == 0
  {
    FreeOfBlocks(mark, x, s);
    assert |Text(mark, x)| > 0;
  }
}

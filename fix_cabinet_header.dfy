/**
 * The in-memory part of the header fix-up script: the generated header's lines are split into
 * the ManagedObjectHandle typedef block and the other lines, and the block (plus a blank line)
 * is re-inserted in front of the first NativeBeatmap typedef.
 */
module CabinetHeader {

  const HandleMarker := "typedef struct ManagedObjectHandle"
  const BeatmapMarker := "typedef struct NativeBeatmap"

  /** Python's `pattern in line` for strings: the pattern occurs at some position of the line. */
  predicate Contains(line: string, pattern: string)
    decreases |line|
  {
    if |line| < |pattern| then false
    else line[..|pattern|] == pattern || Contains(line[1..], pattern)
  }

  /** The test that ends the handle block: the line holds both a '}' and a ';'. */
  predicate Closes(line: string) {
    '}' in line && ';' in line
  }

  /**
   * The first loop as a function of the remaining lines and the inside_handle flag: the pair
   * (handle_block, other_lines) it appends. A marker line always opens (or re-opens) the block
   * and is never tested for closing; inside the block every line is kept until one closes it.
   */
  function Partition(lines: seq<string>, inside: bool): (seq<string>, seq<string>) {
    if lines == [] then ([], [])
    else
      var line := lines[0];
      if Contains(line, HandleMarker) then
        var rest := Partition(lines[1..], true);
        ([line] + rest.0, rest.1)
      else if inside then
        var rest := Partition(lines[1..], !Closes(line));
        ([line] + rest.0, rest.1)
      else
        var rest := Partition(lines[1..], false);
        (rest.0, [line] + rest.1)
  }

  /** The second loop as a function of the remaining other lines and the inserted flag. */
  function Reassemble(other: seq<string>, block: seq<string>, inserted: bool): seq<string> {
    if other == [] then []
    else if Contains(other[0], BeatmapMarker) && !inserted then
      block + ["\n"] + [other[0]] + Reassemble(other[1..], block, true)
    else
      [other[0]] + Reassemble(other[1..], block, inserted)
  }

  /** The whole transformation: the final_content the script writes back. */
  function FixHeader(lines: seq<string>): seq<string> {
    var (block, other) := Partition(lines, false);
    Reassemble(other, block, false)
  }

  /** The script's two loops over the header's lines: the partition, then the re-insertion. */
  method FixCabinetHeader(lines: seq<string>) returns (finalContent: seq<string>)
    ensures finalContent == FixHeader(lines)
  {
    var handleBlock, otherLines := SplitHandleBlock(lines);
    finalContent := InsertHandleBlock(otherLines, handleBlock);
  }

  /** The first loop, with the inside_handle flag. */
  method SplitHandleBlock(lines: seq<string>) returns (handleBlock: seq<string>, otherLines: seq<string>)
    ensures (handleBlock, otherLines) == Partition(lines, false)
  {
    handleBlock, otherLines := [], [];
    var insideHandle := false;
    for i := 0 to |lines|
      invariant handleBlock + Partition(lines[i..], insideHandle).0 == Partition(lines, false).0
      invariant otherLines + Partition(lines[i..], insideHandle).1 == Partition(lines, false).1
    {
      var line := lines[i];
      assert lines[i..] == [line] + lines[i + 1..];
      if Contains(line, HandleMarker) {
        StepMarker(line, lines[i + 1..], insideHandle);
        insideHandle := true;
        handleBlock := handleBlock + [line];
        continue;
      }
      if insideHandle {
        StepInside(line, lines[i + 1..]);
        handleBlock := handleBlock + [line];
        if Closes(line) {
          insideHandle := false;
        }
        continue;
      }
      StepOutside(line, lines[i + 1..]);
      otherLines := otherLines + [line];
    }
    assert lines[|lines|..] == [];
    assert handleBlock + [] == handleBlock && otherLines + [] == otherLines;
  }

  /** The second loop, with the inserted flag. */
  method InsertHandleBlock(otherLines: seq<string>, handleBlock: seq<string>) returns (finalContent: seq<string>)
    ensures finalContent == Reassemble(otherLines, handleBlock, false)
  {
    finalContent := [];
    var inserted := false;
    for i := 0 to |otherLines|
      invariant finalContent + Reassemble(otherLines[i..], handleBlock, inserted) == Reassemble(otherLines, handleBlock, false)
    {
      var line := otherLines[i];
      assert otherLines[i..][1..] == otherLines[i + 1..];
      if Contains(line, BeatmapMarker) && !inserted {
        finalContent := finalContent + handleBlock;
        finalContent := finalContent + ["\n"];
        inserted := true;
      }
      finalContent := finalContent + [line];
    }
    assert otherLines[|otherLines|..] == [];
    assert finalContent + [] == finalContent;
  }

  /** Every line goes to exactly one of the two lists. */
  lemma {:induction false} PartitionIsSplit(lines: seq<string>, inside: bool)
    ensures var (block, other) := Partition(lines, inside);
      |block| + |other| == |lines| && multiset(block) + multiset(other) == multiset(lines)
  {
    if lines != [] {
      var line := lines[0];
      assert lines == [line] + lines[1..];
      var inside' := if Contains(line, HandleMarker) then true else if inside then !Closes(line) else false;
      PartitionIsSplit(lines[1..], inside');
    }
  }

  /** No marker line is left among the other lines. */
  lemma {:induction false} OtherLinesHaveNoMarker(lines: seq<string>, inside: bool)
    ensures forall l :: l in Partition(lines, inside).1 ==> !Contains(l, HandleMarker)
  {
    if lines != [] {
      var line := lines[0];
      var inside' := if Contains(line, HandleMarker) then true else if inside then !Closes(line) else false;
      OtherLinesHaveNoMarker(lines[1..], inside');
    }
  }

  /** Helper: concatenation of line lists is associative. */
  lemma Associative(a: seq<string>, b: seq<string>, c: seq<string>)
    ensures a + (b + c) == a + b + c
  {
  }

  /** One line outside the block that holds no marker goes to other_lines. */
  lemma StepOutside(line: string, rest: seq<string>)
    requires !Contains(line, HandleMarker)
    ensures Partition([line] + rest, false) == (Partition(rest, false).0, [line] + Partition(rest, false).1)
  {
    assert ([line] + rest)[1..] == rest;
  }

  /** One line inside the block that holds no marker joins the block, and it closes the block when it closes. */
  lemma StepInside(line: string, rest: seq<string>)
    requires !Contains(line, HandleMarker)
    ensures Partition([line] + rest, true)
      == ([line] + Partition(rest, !Closes(line)).0, Partition(rest, !Closes(line)).1)
  {
    assert ([line] + rest)[1..] == rest;
  }

  /** A marker line joins the block and leaves the scan inside it, whatever the state before. */
  lemma StepMarker(line: string, rest: seq<string>, inside: bool)
    requires Contains(line, HandleMarker)
    ensures Partition([line] + rest, inside) == ([line] + Partition(rest, true).0, Partition(rest, true).1)
  {
    assert ([line] + rest)[1..] == rest;
  }

  /** Lines outside the block that hold no marker go to other_lines, in order. */
  lemma {:induction false} PartitionOutside(prefix: seq<string>, rest: seq<string>)
    requires forall l :: l in prefix ==> !Contains(l, HandleMarker)
    ensures Partition(prefix + rest, false) == (Partition(rest, false).0, prefix + Partition(rest, false).1)
  {
    if prefix == [] {
      assert prefix + rest == rest;
      assert prefix + Partition(rest, false).1 == Partition(rest, false).1;
    } else {
      assert prefix[0] in prefix;
      assert forall l :: l in prefix[1..] ==> l in prefix;
      PartitionOutside(prefix[1..], rest);
      assert prefix + rest == [prefix[0]] + (prefix[1..] + rest);
      StepOutside(prefix[0], prefix[1..] + rest);
      assert [prefix[0]] + (prefix[1..] + Partition(rest, false).1) == prefix + Partition(rest, false).1;
    }
  }

  /** Inside the block, lines with neither a marker nor a closing brace and semicolon join the block, in order. */
  lemma {:induction false} PartitionInside(run: seq<string>, rest: seq<string>)
    requires forall l :: l in run ==> !Contains(l, HandleMarker) && !Closes(l)
    ensures Partition(run + rest, true) == (run + Partition(rest, true).0, Partition(rest, true).1)
  {
    if run == [] {
      assert run + rest == rest;
      assert run + Partition(rest, true).0 == Partition(rest, true).0;
    } else {
      assert run[0] in run;
      assert forall l :: l in run[1..] ==> l in run;
      PartitionInside(run[1..], rest);
      assert run + rest == [run[0]] + (run[1..] + rest);
      StepInside(run[0], run[1..] + rest);
      assert [run[0]] + (run[1..] + Partition(rest, true).0) == run + Partition(rest, true).0;
    }
  }

  /**
   * The handle block is the first marker line, the lines after it, and the first following
   * line that closes it; the lines before the marker stay in other_lines, and scanning resumes
   * outside the block after the closing line.
   */
  lemma ClosedBlock(before: seq<string>, marker: string, run: seq<string>, closing: string, after: seq<string>)
    requires forall l :: l in before ==> !Contains(l, HandleMarker)
    requires Contains(marker, HandleMarker)
    requires forall l :: l in run ==> !Contains(l, HandleMarker) && !Closes(l)
    requires !Contains(closing, HandleMarker) && Closes(closing)
    ensures var rest := Partition(after, false);
      Partition(before + [marker] + run + [closing] + after, false)
      == ([marker] + run + [closing] + rest.0, before + rest.1)
  {
    var rest := Partition(after, false);
    var tail := [closing] + after;
    StepInside(closing, after);
    PartitionInside(run, tail);
    var inner := run + tail;
    StepMarker(marker, inner, false);
    var fromMarker := [marker] + inner;
    var block := [marker] + (run + ([closing] + rest.0));
    assert Partition(fromMarker, false) == (block, rest.1);
    PartitionOutside(before, fromMarker);
    assert Partition(before + fromMarker, false) == (block, before + rest.1);
    var whole := before + [marker] + run + [closing] + after;
    Associative(run, [closing], after);
    Associative([marker], run + [closing], after);
    Associative([marker], run, [closing]);
    Associative(before, [marker] + run + [closing], after);
    Associative(before, [marker] + run, [closing]);
    Associative(before, [marker], run);
    assert whole == before + fromMarker;
    Associative(run, [closing], rest.0);
    Associative([marker], run + [closing], rest.0);
    assert block == [marker] + run + [closing] + rest.0;
  }

  /** When no line closes the block, every line from the marker on goes into the block. */
  lemma UnclosedBlock(before: seq<string>, marker: string, run: seq<string>)
    requires forall l :: l in before ==> !Contains(l, HandleMarker)
    requires Contains(marker, HandleMarker)
    requires forall l :: l in run ==> !Contains(l, HandleMarker) && !Closes(l)
    ensures Partition(before + [marker] + run, false) == ([marker] + run, before)
  {
    assert Partition([], true) == ([], []);
    PartitionInside(run, []);
    assert run + [] == run;
    StepMarker(marker, run, false);
    PartitionOutside(before, [marker] + run);
    assert Partition([], false) == ([], []);
    assert before + [marker] + run == before + ([marker] + run);
    assert before + [] == before;
  }

  /**
   * A marker line does not close the block even when it holds '}' and ';': the line after it
   * is still taken into the block, and only that line's own test decides what follows.
   */
  lemma MarkerLineNeverCloses(marker: string, next: string, rest: seq<string>, inside: bool)
    requires Contains(marker, HandleMarker) && Closes(marker)
    requires !Contains(next, HandleMarker)
    ensures Partition([marker, next] + rest, inside)
      == ([marker, next] + Partition(rest, !Closes(next)).0, Partition(rest, !Closes(next)).1)
  {
    StepInside(next, rest);
    StepMarker(marker, [next] + rest, inside);
    assert [marker, next] + rest == [marker] + ([next] + rest);
    assert [marker] + ([next] + Partition(rest, !Closes(next)).0) == [marker, next] + Partition(rest, !Closes(next)).0;
  }

  /** Once the block has been inserted, the remaining lines are copied unchanged. */
  lemma {:induction false} ReassembleAfterInsertion(other: seq<string>, block: seq<string>)
    ensures Reassemble(other, block, true) == other
  {
    if other != [] {
      ReassembleAfterInsertion(other[1..], block);
    }
  }

  /** Without any NativeBeatmap line the block is dropped and other_lines are written unchanged. */
  lemma {:induction false} ReassembleWithoutTarget(other: seq<string>, block: seq<string>)
    requires forall l :: l in other ==> !Contains(l, BeatmapMarker)
    ensures Reassemble(other, block, false) == other
  {
    if other != [] {
      assert other[0] in other;
      ReassembleWithoutTarget(other[1..], block);
    }
  }

  /**
   * With a NativeBeatmap line, the block and one "\n" line are inserted exactly once,
   * immediately before the first such line, and other_lines keep their order around it.
   */
  lemma {:induction false} ReassembleWithTarget(other: seq<string>, block: seq<string>, k: nat)
    requires k < |other| && Contains(other[k], BeatmapMarker)
    requires forall i :: 0 <= i < k ==> !Contains(other[i], BeatmapMarker)
    ensures Reassemble(other, block, false) == other[..k] + block + ["\n"] + other[k..]
    ensures |Reassemble(other, block, false)| == |other| + |block| + 1
  {
    if k == 0 {
      ReassembleAfterInsertion(other[1..], block);
      assert other == [other[0]] + other[1..];
    } else {
      ReassembleWithTarget(other[1..], block, k - 1);
      assert other[..k] == [other[0]] + other[1..][..k - 1];
      assert other[k..] == other[1..][k - 1..];
    }
  }

  /** A single closed handle block among marker-free lines is lifted out whole, the rest kept in order. */
  lemma PartitionOneBlock(before: seq<string>, block: seq<string>, after: seq<string>)
    requires forall l :: l in before ==> !Contains(l, HandleMarker)
    requires forall l :: l in after ==> !Contains(l, HandleMarker)
    requires |block| >= 2 && Contains(block[0], HandleMarker) && Closes(block[|block| - 1])
    requires forall l :: l in block[1..] ==> !Contains(l, HandleMarker)
    requires forall l :: l in block[1..|block| - 1] ==> !Closes(l)
    ensures Partition(before + block + after, false) == (block, before + after)
  {
    var marker, run, closing := block[0], block[1..|block| - 1], block[|block| - 1];
    assert closing in block[1..];
    assert forall l :: l in run ==> l in block[1..];
    var shape := [marker] + run + [closing];
    assert block == shape;
    PartitionOutside(after, []);
    assert after + [] == after;
    assert Partition(after, false) == ([], after);
    ClosedBlock(before, marker, run, closing, after);
    var whole := before + [marker] + run + [closing] + after;
    assert Partition(whole, false) == (shape + [], before + after);
    assert shape + [] == shape;
    Associative(before, block, after);
    assert before + block + after == before + shape + after;
    Associative(before, [marker] + run, [closing]);
    Associative(before, [marker], run);
    assert before + shape == before + [marker] + run + [closing];
  }

  /**
   * The purpose of the script: a header whose one ManagedObjectHandle typedef comes after the
   * first NativeBeatmap line is rewritten with that typedef, and a blank line, moved in front of
   * the NativeBeatmap line; whatever precedes it (`pre`) stays first, and every other line keeps
   * its place.
   */
  lemma MovesHandleBeforeBeatmap(pre: seq<string>, target: string, post: seq<string>, block: seq<string>, after: seq<string>)
    requires forall l :: l in pre ==> !Contains(l, BeatmapMarker) && !Contains(l, HandleMarker)
    requires Contains(target, BeatmapMarker) && !Contains(target, HandleMarker)
    requires forall l :: l in post ==> !Contains(l, HandleMarker)
    requires forall l :: l in after ==> !Contains(l, HandleMarker)
    requires |block| >= 2 && Contains(block[0], HandleMarker) && Closes(block[|block| - 1])
    requires forall l :: l in block[1..] ==> !Contains(l, HandleMarker)
    requires forall l :: l in block[1..|block| - 1] ==> !Closes(l)
    ensures FixHeader(pre + [target] + post + block + after) == pre + block + ["\n"] + [target] + post + after
  {
    var before := pre + [target] + post;
    assert forall l :: l in before ==> !Contains(l, HandleMarker);
    PartitionOneBlock(before, block, after);
    var other := before + after;
    var k := |pre|;
    assert other[k] == target;
    assert forall i :: 0 <= i < k ==> other[i] == pre[i] && other[i] in pre;
    ReassembleWithTarget(other, block, k);
    assert other[..k] == pre;
    var tail := [target] + post + after;
    assert other[k..] == tail;
    var front := pre + block + ["\n"];
    Associative(front, [target] + post, after);
    Associative(front, [target], post);
    assert front + tail == front + [target] + post + after;
  }
}

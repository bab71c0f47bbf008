/**
 * The chat page's rewriting of Bob's answer (`process_code_blocks` in
 * frontend/app.py): the text is cut at every "```" fence; pieces at even
 * positions are prose and are kept, pieces at odd positions are code
 * blocks, which are put back between fences, except that a block drawing
 * a tree (box-drawing characters) is re-labelled as a `raw` block so that
 * it is shown verbatim.
 */
module CodeBlocks {

  import opened Text

  const Fence := "```"

  /** The box-drawing characters that mark a tree: │ ├ └ ─ ┬ ┤. */
  const TreeChars: seq<char> := ['\U{2502}', '\U{251C}', '\U{2514}', '\U{2500}', '\U{252C}', '\U{2524}']

  /** `any(char in code_content for char in [...])`. */
  predicate HasTreeChar(code: string)
  {
    exists k :: 0 <= k < |TreeChars| && TreeChars[k] in code
  }

  /** `part.strip().split('\n', 1)`: the language line and the code after it, or the whole block as code. */
  function LangAndCode(part: string): (string, string)
  {
    var lines := SplitOnce(Strip(part), '\n');
    if |lines| > 1 then (Strip(lines[0]), lines[1]) else ("", lines[0])
  }

  /** A tree block, shown verbatim. */
  function RawBlock(code: string): string
  {
    Fence + "raw\n" + code + "\n" + Fence
  }

  /** What piece i of the text becomes. */
  function RenderPart(i: nat, part: string): string
  {
    if i % 2 == 0 then part
    else
      var (lang, code) := LangAndCode(part);
      if HasTreeChar(code) then
        if lang != "raw" then RawBlock(code)
        else Fence + lang + "\n" + code + "\n" + Fence
      else Fence + part + Fence
  }

  /** Every piece, rendered at its own position. */
  function Rendered(parts: seq<string>): (r: seq<string>)
    ensures |r| == |parts|
    decreases |parts|
  {
    if |parts| == 0 then []
    else Rendered(parts[..|parts| - 1]) + [RenderPart(|parts| - 1, parts[|parts| - 1])]
  }

  /** Code blocks drawing a tree are always re-labelled `raw`, whatever language they named. */
  lemma TreeBlockIsRaw(i: nat, part: string)
    requires i % 2 == 1 && HasTreeChar(LangAndCode(part).1)
    ensures RenderPart(i, part) == RawBlock(LangAndCode(part).1)
  {
    var (lang, code) := LangAndCode(part);
    if lang == "raw" {
      assert Fence + lang + "\n" == Fence + "raw\n";
    }
  }

  /** `process_code_blocks`: a loop over the pieces between fences, joined without separator. */
  method ProcessCodeBlocks(text: string) returns (out: string)
    ensures out == Join(Rendered(Split(text, Fence)), "")
  {
    var parts := Split(text, Fence);
    var result: seq<string> := [];
    for i := 0 to |parts|
      invariant result == Rendered(parts[..i])
    {
      var part := parts[i];
      var piece: string;
      if i % 2 == 0 {
        piece := part;
      } else {
        var lines := SplitOnce(Strip(part), '\n');
        var lang := if |lines| > 1 then Strip(lines[0]) else "";
        var code := if |lines| > 1 then lines[1] else lines[0];
        if HasTreeChar(code) {
          if lang != "raw" {
            piece := Fence + "raw\n" + code + "\n" + Fence;
          } else {
            piece := Fence + lang + "\n" + code + "\n" + Fence;
          }
        } else {
          piece := Fence + part + Fence;
        }
      }
      assert parts[..i + 1][..i] == parts[..i];
      result := result + [piece];
    }
    assert parts[..|parts|] == parts;
    out := Join(result, "");
  }

  /** No odd piece draws a tree: every code block is put back as it was. */
  predicate NoTrees(parts: seq<string>)
  {
    forall i :: 0 <= i < |parts| && i % 2 == 1 ==> !HasTreeChar(LangAndCode(parts[i]).1)
  }

  /** Prose pieces kept, code pieces put back between separators `f`. */
  function Fenced(parts: seq<string>, f: string): (r: seq<string>)
    ensures |r| == |parts|
    decreases |parts|
  {
    if |parts| == 0 then []
    else
      var i := |parts| - 1;
      Fenced(parts[..i], f) + [if i % 2 == 0 then parts[i] else f + parts[i] + f]
  }

  /**
   * Putting code pieces back between separators gives the joined text,
   * plus a closing separator when the last piece is a code piece (an even
   * number of pieces).
   */
  lemma {:induction false} FencedJoin(parts: seq<string>, f: string)
    requires |parts| > 0
    ensures Join(Fenced(parts, f), "") == Join(parts, f) + (if |parts| % 2 == 0 then f else "")
    decreases |parts|
  {
    var n := |parts| - 1;
    var last := parts[n];
    var r := if n % 2 == 0 then last else f + last + f;
    if n == 0 {
      assert Fenced(parts, f) == [r];
    } else {
      var init := parts[..n];
      FencedJoin(init, f);
      assert parts == init + [last];
      assert Fenced(parts, f) == Fenced(init, f) + [r];
      ConcatSnoc(Fenced(init, f), r);
      JoinSnoc(init, last, f);
      ParityStep(Join(init, f), last, f, n);
    }
  }

  lemma ParityStep(before: string, last: string, f: string, n: nat)
    ensures before + (if n % 2 == 0 then f else "") + (if n % 2 == 0 then last else f + last + f)
      == before + f + last + (if (n + 1) % 2 == 0 then f else "")
  {
    if n % 2 == 1 {
      assert before + "" == before;
    }
  }

  /** Without trees the page's rendering is the plain fencing. */
  lemma {:induction false} RenderedWithoutTrees(parts: seq<string>)
    requires NoTrees(parts)
    ensures Rendered(parts) == Fenced(parts, Fence)
    decreases |parts|
  {
    if |parts| > 0 {
      var n := |parts| - 1;
      var init := parts[..n];
      assert NoTrees(init) by {
        forall i | 0 <= i < |init| && i % 2 == 1
          ensures !HasTreeChar(LangAndCode(init[i]).1)
        {
          assert init[i] == parts[i];
        }
      }
      RenderedWithoutTrees(init);
      PlainPiece(n, parts[n]);
    }
  }

  /** A prose piece is kept and a code block without a tree is put back between its fences. */
  lemma PlainPiece(i: nat, part: string)
    requires i % 2 == 1 ==> !HasTreeChar(LangAndCode(part).1)
    ensures RenderPart(i, part) == if i % 2 == 0 then part else Fence + part + Fence
  {
  }

  /**
   * The page's rewriting changes nothing but a missing closing fence when
   * no block draws a tree: the text comes back as it was, with one "```"
   * appended when it has an odd number of fences.
   */
  lemma UnchangedWithoutTrees(text: string)
    requires NoTrees(Split(text, Fence))
    ensures Join(Rendered(Split(text, Fence)), "")
      == text + (if Occurrences(text, Fence) % 2 == 1 then Fence else "")
  {
    var parts := Split(text, Fence);
    RenderedWithoutTrees(parts);
    FencedJoin(parts, Fence);
    JoinSplit(text, Fence);
    SplitLength(text, Fence);
    var closing := if |parts| % 2 == 0 then Fence else "";
    assert Join(Rendered(parts), "") == text + closing;
    var occurrences := Occurrences(text, Fence);
    OddEven(occurrences, |parts|);
  }

  lemma OddEven(m: nat, n: nat)
    requires n == m + 1
    ensures n % 2 == 0 <==> m % 2 == 1
  {
  }

  /** A text without fences is shown as it is. */
  lemma NoFenceUnchanged(text: string)
    requires !Contains(text, Fence)
    ensures Join(Rendered(Split(text, Fence)), "") == text
  {
    NoOccurrences(text, Fence);
    SplitLength(text, Fence);
    var parts := Split(text, Fence);
    assert NoTrees(parts);
    UnchangedWithoutTrees(text);
  }
}

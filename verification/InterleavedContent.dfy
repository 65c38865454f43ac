/** The parser of marker-interleaved prompts in benchmarks/working_set_workload.py, and its printer. */
module InterleavedContent {

  datatype Block<T> = Text(text: string) | Image(image: T)

  datatype Content<T> = Blocks(blocks: seq<Block<T>>) | EmptyPrompt | NoImages | EmptyMarker | CountMismatch

  // ----- splitting at a marker

  predicate OccursAt(s: string, marker: string, i: nat) { i + |marker| <= |s| && s[i..i + |marker|] == marker }

  ghost predicate Occurs(s: string, marker: string) { exists i: nat :: OccursAt(s, marker, i) }

  /** Position of the leftmost occurrence, or the length if there is none. */
  function Find(s: string, marker: string, from: nat): (i: nat)
    requires from <= |s|
    ensures from <= i <= |s| && (OccursAt(s, marker, i) || i == |s|)
    ensures forall j: nat :: from <= j < i ==> !OccursAt(s, marker, j)
    decreases |s| - from
  {
    if from == |s| || OccursAt(s, marker, from) then from else Find(s, marker, from + 1)
  }

  /** The library's split: the parts between non-overlapping occurrences, leftmost first. */
  function Split(s: string, marker: string): (parts: seq<string>)
    requires marker != ""
    ensures parts != []
    decreases |s|
  {
    var i := Find(s, marker, 0);
    if OccursAt(s, marker, i) then [s[..i]] + Split(s[i + |marker|..], marker) else [s]
  }

  function Join(parts: seq<string>, marker: string): string
    requires parts != []
  {
    if |parts| == 1 then parts[0] else parts[0] + marker + Join(parts[1..], marker)
  }

  lemma {:induction false} JoinSplit(s: string, marker: string)
    requires marker != ""
    ensures Join(Split(s, marker), marker) == s
    decreases |s|
  {
    var i := Find(s, marker, 0);
    if OccursAt(s, marker, i) {
      JoinSplit(s[i + |marker|..], marker);
      assert s == s[..i] + marker + s[i + |marker|..];
    }
  }

  /** Nothing occurs before the first occurrence. */
  lemma BeforeFirst(s: string, marker: string, i: nat)
    requires marker != "" && i <= |s| && forall j: nat :: j < i ==> !OccursAt(s, marker, j)
    ensures !Occurs(s[..i], marker)
  {
    forall j: nat ensures !OccursAt(s[..i], marker, j) {
      if j + |marker| <= i {
        assert s[..i][j..j + |marker|] == s[j..j + |marker|];
        assert !OccursAt(s, marker, j);
      }
    }
  }

  /** No part contains the marker, even one that overlaps itself. */
  lemma {:induction false} PartsAreFree(s: string, marker: string, k: nat)
    requires marker != "" && k < |Split(s, marker)|
    ensures !Occurs(Split(s, marker)[k], marker)
    decreases |s|
  {
    var i := Find(s, marker, 0);
    if OccursAt(s, marker, i) {
      if k > 0 {
        PartsAreFree(s[i + |marker|..], marker, k - 1);
      } else {
        BeforeFirst(s, marker, i);
      }
    } else {
      BeforeFirst(s, marker, |s|);
      assert s[..|s|] == s;
    }
  }

  // ----- the parser

  function TextBlock<T>(part: string): seq<Block<T>> { if part == "" then [] else [Text(part)] }

  /** The blocks before the last part. */
  function WeaveOpen<T>(parts: seq<string>, images: seq<T>, n: nat): seq<Block<T>>
    requires |parts| == |images| + 1 && n <= |images|
  {
    if n == 0 then [] else WeaveOpen(parts, images, n - 1) + TextBlock(parts[n - 1]) + [Image(images[n - 1])]
  }

  method Build<T>(prompt: string, images: seq<T>, marker: string) returns (r: Content<T>)
    ensures prompt == "" ==> r == EmptyPrompt
    ensures prompt != "" && images == [] ==> r == NoImages
    ensures prompt != "" && images != [] && marker == "" ==> r == EmptyMarker
    ensures prompt != "" && images != [] && marker != "" ==>
              (r.Blocks? <==> |Split(prompt, marker)| == |images| + 1) && (!r.Blocks? ==> r == CountMismatch)
    ensures r.Blocks? ==> Parsed(r.blocks, prompt, images, marker)
    ensures r.Blocks? ==> Print(r.blocks, marker) == prompt && Images(r.blocks) == images && Proper(r.blocks, marker)
  {
    if prompt == "" { return EmptyPrompt; }
    if images == [] { return NoImages; }
    if marker == "" { return EmptyMarker; }
    var parts := Split(prompt, marker);
    if |parts| - 1 != |images| { return CountMismatch; }
    var content: seq<Block<T>> := [];
    var k := 0;
    while k < |images|
      invariant k <= |images| && content == WeaveOpen(parts, images, k)
    {
      if parts[k] != "" {
        content := content + [Text(parts[k])];
      }
      content := content + [Image(images[k])];
      k := k + 1;
    }
    if parts[k] != "" {
      content := content + [Text(parts[k])];
    }
    PrintInvertsParse(content, prompt, images, marker);
    ParseIsProper(content, prompt, images, marker);
    return Blocks(content);
  }

  // ----- the printer, and what the parser promises

  function Print<T>(blocks: seq<Block<T>>, marker: string): string {
    if blocks == [] then "" else Print(blocks[..|blocks| - 1], marker) + PrintBlock(blocks[|blocks| - 1], marker)
  }

  function PrintBlock<T>(b: Block<T>, marker: string): string { match b case Text(t) => t case Image(_) => marker }

  function Images<T>(blocks: seq<Block<T>>): seq<T> {
    if blocks == [] then [] else Images(blocks[..|blocks| - 1]) + ImageOf(blocks[|blocks| - 1])
  }

  function ImageOf<T>(b: Block<T>): seq<T> { match b case Text(_) => [] case Image(i) => [i] }

  lemma PrintSnoc<T>(blocks: seq<Block<T>>, b: Block<T>, marker: string)
    ensures Print(blocks + [b], marker) == Print(blocks, marker) + PrintBlock(b, marker)
    ensures Images(blocks + [b]) == Images(blocks) + ImageOf(b)
  {
    assert (blocks + [b])[..|blocks|] == blocks;
  }

  lemma PrintText<T>(blocks: seq<Block<T>>, part: string, marker: string)
    ensures Print(blocks + TextBlock(part), marker) == Print(blocks, marker) + part
    ensures Images(blocks + TextBlock(part)) == Images(blocks)
  {
    if part == "" {
      assert blocks + [] == blocks;
    } else {
      PrintSnoc(blocks, Text(part), marker);
    }
  }

  /** The first n parts, each followed by the marker. */
  function JoinOpen(parts: seq<string>, marker: string, n: nat): string
    requires n <= |parts|
  {
    if n == 0 then "" else JoinOpen(parts, marker, n - 1) + parts[n - 1] + marker
  }

  lemma {:induction false} JoinOpenRest(parts: seq<string>, marker: string, n: nat)
    requires 0 < n <= |parts|
    ensures JoinOpen(parts, marker, n) == parts[0] + marker + JoinOpen(parts[1..], marker, n - 1)
  {
    if n > 1 { JoinOpenRest(parts, marker, n - 1); }
  }

  lemma {:induction false} JoinIsOpen(parts: seq<string>, marker: string)
    requires parts != []
    ensures Join(parts, marker) == JoinOpen(parts, marker, |parts| - 1) + parts[|parts| - 1]
  {
    if |parts| > 1 {
      JoinIsOpen(parts[1..], marker);
      JoinOpenRest(parts, marker, |parts| - 1);
    }
  }

  lemma WeaveNothing<T>(parts: seq<string>, images: seq<T>, marker: string)
    requires |parts| == |images| + 1
    ensures Print(WeaveOpen(parts, images, 0), marker) == "" && Images(WeaveOpen(parts, images, 0)) == []
  {
  }

  lemma WeaveNext<T>(parts: seq<string>, images: seq<T>, marker: string, n: nat)
    requires |parts| == |images| + 1 && 0 < n <= |images|
    ensures Print(WeaveOpen(parts, images, n), marker) == Print(WeaveOpen(parts, images, n - 1), marker) + parts[n - 1]
            + marker
    ensures Images(WeaveOpen(parts, images, n)) == Images(WeaveOpen(parts, images, n - 1)) + [images[n - 1]]
  {
    hide Print, Images, TextBlock;
    var before := WeaveOpen(parts, images, n - 1);
    PrintText(before, parts[n - 1], marker);
    PrintSnoc(before + TextBlock(parts[n - 1]), Image(images[n - 1]), marker);
  }

  lemma {:induction false} PrintWoven<T>(parts: seq<string>, images: seq<T>, marker: string, n: nat)
    requires |parts| == |images| + 1 && n <= |images|
    ensures Print(WeaveOpen(parts, images, n), marker) == JoinOpen(parts, marker, n)
  {
    hide Print, Images, WeaveOpen;
    if n > 0 {
      PrintWoven(parts, images, marker, n - 1);
      WeaveNext(parts, images, marker, n);
    } else {
      WeaveNothing(parts, images, marker);
    }
  }

  lemma {:induction false} ImagesWoven<T>(parts: seq<string>, images: seq<T>, marker: string, n: nat)
    requires |parts| == |images| + 1 && n <= |images|
    ensures Images(WeaveOpen(parts, images, n)) == images[..n]
  {
    hide Print, Images, WeaveOpen;
    if n > 0 {
      ImagesWoven(parts, images, marker, n - 1);
      WeaveNext(parts, images, marker, n);
      assert images[..n] == images[..n - 1] + [images[n - 1]];
    } else {
      WeaveNothing(parts, images, marker);
    }
  }

  /** Blocks that a parse of this prompt returns. */
  ghost predicate Parsed<T>(blocks: seq<Block<T>>, prompt: string, images: seq<T>, marker: string) {
    && marker != "" && |Split(prompt, marker)| == |images| + 1
    && blocks == WeaveOpen(Split(prompt, marker), images, |images|) + TextBlock(Split(prompt, marker)[|images|])
  }

  /** Printing the parsed blocks gives back the prompt, and the images are there in order. */
  lemma PrintInvertsParse<T>(blocks: seq<Block<T>>, prompt: string, images: seq<T>, marker: string)
    requires Parsed(blocks, prompt, images, marker)
    ensures Print(blocks, marker) == prompt && Images(blocks) == images
  {
    var parts := Split(prompt, marker);
    JoinSplit(prompt, marker);
    JoinIsOpen(parts, marker);
    PrintWoven(parts, images, marker, |images|);
    ImagesWoven(parts, images, marker, |images|);
    PrintText(WeaveOpen(parts, images, |images|), parts[|images|], marker);
  }

  /** Text blocks are neither empty nor adjacent nor contain the marker. */
  ghost predicate Proper<T>(blocks: seq<Block<T>>, marker: string) {
    && (forall k :: 0 <= k < |blocks| && blocks[k].Text? ==> blocks[k].text != "" && !Occurs(blocks[k].text, marker))
    && forall k :: 0 < k < |blocks| ==> !(blocks[k - 1].Text? && blocks[k].Text?)
  }

  ghost predicate EndsInImage<T>(blocks: seq<Block<T>>) { blocks == [] || blocks[|blocks| - 1].Image? }

  lemma ProperText<T>(blocks: seq<Block<T>>, part: string, marker: string)
    requires Proper(blocks, marker) && EndsInImage(blocks) && !Occurs(part, marker)
    ensures Proper(blocks + TextBlock(part), marker)
  {
    hide Occurs;
  }

  lemma {:induction false} WovenIsProper<T>(parts: seq<string>, images: seq<T>, marker: string, n: nat)
    requires |parts| == |images| + 1 && n <= |images| && forall k :: 0 <= k < |parts| ==> !Occurs(parts[k], marker)
    ensures Proper(WeaveOpen(parts, images, n), marker) && EndsInImage(WeaveOpen(parts, images, n))
  {
    if n > 0 {
      hide Occurs, TextBlock;
      WovenIsProper(parts, images, marker, n - 1);
      ProperText(WeaveOpen(parts, images, n - 1), parts[n - 1], marker);
    }
  }

  lemma ParseIsProper<T>(blocks: seq<Block<T>>, prompt: string, images: seq<T>, marker: string)
    requires Parsed(blocks, prompt, images, marker)
    ensures Proper(blocks, marker)
  {
    var parts := Split(prompt, marker);
    forall k | 0 <= k < |parts| ensures !Occurs(parts[k], marker) {
      PartsAreFree(prompt, marker, k);
    }
    WovenIsProper(parts, images, marker, |images|);
    ProperText(WeaveOpen(parts, images, |images|), parts[|images|], marker);
  }
}

/**
 * The ground-truth text read as a whole: a run of blocks, each an image
 * line, a count line, its box lines and possibly the sentinel line, and
 * perhaps one last block the input cuts short. What `parse_wider_annots`
 * returns for such a text is a fold over its blocks, and each image's list
 * is the boxes of the last block that names it.
 */
module WiderBlocks {
  import opened Wrappers
  import opened Text
  import opened AnnDicts
  import opened WiderParser
  import opened WiderParserFacts

  // ----- What a block does to the dict ---------------------------------------

  /** The effect of one block: `name` gets the list `boxes` (replacing any
      list it had, keeping its place), and is then removed again when
      `removed` holds. */
  datatype Update = Update(name: string, boxes: seq<Box>, removed: bool)

  /** Reference definition of one update on the dict. */
  function AfterUpdate(d: AnnDict, u: Update): (r: AnnDict)
    ensures !u.removed ==> r.entries == d.entries[u.name := u.boxes]
    ensures u.removed ==> r.entries == d.entries - {u.name} && u.name !in r.order
    ensures Valid(d) ==> Valid(r)
  {
    var a := Assign(d, u.name, u.boxes);
    if u.removed then Pop(a, u.name).value else a
  }

  /** The dict after the updates of `us` from index `i` on, applied in
      order to `d`. */
  function DictFrom(d: AnnDict, us: seq<Update>, i: nat): AnnDict
    requires i <= |us|
    decreases |us| - i
  {
    if i == |us| then d else DictFrom(AfterUpdate(d, us[i]), us, i + 1)
  }

  /** The index of the last of the first `n` updates whose name is `k`. */
  function LastFor(us: seq<Update>, n: nat, k: string): (r: Option<nat>)
    requires n <= |us|
    ensures r.Some? ==> r.value < n && us[r.value].name == k
                        && forall j :: r.value < j < n ==> us[j].name != k
    ensures r.None? ==> forall j :: 0 <= j < n ==> us[j].name != k
  {
    if n == 0 then None
    else if us[n - 1].name == k then Some(n - 1)
    else LastFor(us, n - 1, k)
  }

  /** What key `k` holds after the updates from index `i` on: if one of
      them names `k`, the last such decides, present exactly when it does
      not remove `k` and then with its list; otherwise what `d` held. */
  lemma {:induction false} DictFromKey(d: AnnDict, us: seq<Update>, i: nat, k: string)
    requires i <= |us|
    ensures var r := DictFrom(d, us, i).entries;
            var m := LastFor(us, |us|, k);
            if m.Some? && m.value >= i then
              (k in r <==> !us[m.value].removed) && (k in r ==> r[k] == us[m.value].boxes)
            else
              (k in r <==> k in d.entries) && (k in r ==> r[k] == d.entries[k])
    decreases |us| - i
  {
    if i < |us| {
      var d1 := AfterUpdate(d, us[i]);
      assert DictFrom(d, us, i) == DictFrom(d1, us, i + 1);
      DictFromKey(d1, us, i + 1, k);
    }
  }

  // ----- Blocks ---------------------------------------------------------------

  /** One block as it appears in the input; `sentinel`, when present, is the
      line right after its boxes. */
  datatype Block = Block(img: string, count: string, boxLines: seq<string>, sentinel: Option<string>)

  /** The lines of a block, in input order. */
  function BlockLines(b: Block): seq<string>
  {
    [b.img, b.count] + b.boxLines + (if b.sentinel.Some? then [b.sentinel.value] else [])
  }

  /** The number of box lines a block announces: its count, or none when the
      count is 0 or negative. */
  function Announced(b: Block): nat
    requires ParseInt(Strip(b.count)).Some?
  {
    var n := ParseInt(Strip(b.count)).value;
    if n > 0 then n else 0
  }

  /** A block read to its end without error: a name that is not the
      sentinel, an integer count, exactly as many box lines as it announces,
      every one all numbers, and, if a line follows, the sentinel. */
  predicate Complete(b: Block, toFloat: string -> Option<real>)
  {
    && Strip(b.img) != Sentinel
    && ParseInt(Strip(b.count)).Some?
    && |b.boxLines| == Announced(b)
    && AllBoxLines(b.boxLines, toFloat)
    && (b.sentinel.Some? ==> Strip(b.sentinel.value) == Sentinel)
  }

  /** A block the input ends inside: fewer box lines than the count, all of
      them numbers, and nothing after them. */
  predicate CutShort(b: Block, toFloat: string -> Option<real>)
  {
    && Strip(b.img) != Sentinel
    && ParseInt(Strip(b.count)).Some?
    && |b.boxLines| < ParseInt(Strip(b.count)).value
    && AllBoxLines(b.boxLines, toFloat)
    && b.sentinel.None?
  }

  predicate AllComplete(bs: seq<Block>, toFloat: string -> Option<real>)
  {
    forall i :: 0 <= i < |bs| ==> Complete(bs[i], toFloat)
  }

  /** The input made of the blocks of `bs` from index `i` on. */
  function LinesFrom(bs: seq<Block>, i: nat): seq<string>
    requires i <= |bs|
    decreases |bs| - i
  {
    if i == |bs| then [] else BlockLines(bs[i]) + LinesFrom(bs, i + 1)
  }

  /** What a complete block does: its stripped name gets the boxes of its
      lines, and the sentinel, if it follows, removes the name. */
  function UpdateOf(b: Block, toFloat: string -> Option<real>): Update
    requires Complete(b, toFloat)
  {
    Update(Strip(b.img), BoxesOf(b.boxLines, toFloat), b.sentinel.Some?)
  }

  /** The updates of a run of complete blocks, one per block. */
  function UpdatesOf(bs: seq<Block>, toFloat: string -> Option<real>): (us: seq<Update>)
    requires AllComplete(bs, toFloat)
    ensures |us| == |bs|
  {
    seq(|bs|, i requires 0 <= i < |bs| && AllComplete(bs, toFloat) => UpdateOf(bs[i], toFloat))
  }

  /** The name held after the blocks from index `i` on: the last block's,
      or the one held before them when there are none. */
  function NameFrom(name: string, bs: seq<Block>, i: nat): string
    requires i <= |bs|
  {
    if i == |bs| then name else Strip(bs[|bs| - 1].img)
  }

  /** The index of the last block of `bs` whose stripped name is `k`. */
  function LastNamed(bs: seq<Block>, k: string, toFloat: string -> Option<real>): (r: Option<nat>)
    requires AllComplete(bs, toFloat)
    ensures r.Some? ==> r.value < |bs| && Strip(bs[r.value].img) == k
                        && forall j :: r.value < j < |bs| ==> Strip(bs[j].img) != k
    ensures r.None? ==> forall j :: 0 <= j < |bs| ==> Strip(bs[j].img) != k
  {
    var us := UpdatesOf(bs, toFloat);
    assert forall j :: 0 <= j < |bs| ==> us[j].name == Strip(bs[j].img);
    LastFor(us, |bs|, k)
  }

  // ----- Reading blocks -------------------------------------------------------

  /** The lines of a complete block before any sentinel, read where an
      image name is expected: its name gets exactly the boxes of its lines,
      and an image name is expected next. */
  lemma {:induction false} CompleteBlockBody(s: State, b: Block, tail: seq<string>, toFloat: string -> Option<real>)
    requires s.mode == ExpectImage && Complete(b, toFloat)
    ensures Run(s, [b.img, b.count] + b.boxLines + tail, toFloat)
         == Run(State(ExpectImage, Strip(b.img), Assign(s.dict, Strip(b.img), BoxesOf(b.boxLines, toFloat))), tail, toFloat)
  {
    if |b.boxLines| > 0 {
      BlockWithBoxes(s, b.img, b.count, b.boxLines, tail, toFloat);
    } else {
      assert [b.img, b.count] + b.boxLines + tail == [b.img, b.count] + tail;
      assert BoxesOf(b.boxLines, toFloat) == [];
      BlockWithoutBoxes(s, b.img, b.count, tail, toFloat);
    }
  }

  /** A complete block read where an image name is expected: the dict
      changes as its update says, the block's name is held, and an image
      name is expected next. */
  lemma {:induction false} CompleteBlockRun(s: State, b: Block, rest: seq<string>, toFloat: string -> Option<real>)
    requires s.mode == ExpectImage && Complete(b, toFloat)
    ensures Run(s, BlockLines(b) + rest, toFloat)
         == Run(State(ExpectImage, Strip(b.img), AfterUpdate(s.dict, UpdateOf(b, toFloat))), rest, toFloat)
  {
    var nm := Strip(b.img);
    var a := Assign(s.dict, nm, BoxesOf(b.boxLines, toFloat));
    if b.sentinel.Some? {
      var tail := [b.sentinel.value] + rest;
      assert BlockLines(b) + rest == [b.img, b.count] + b.boxLines + tail;
      CompleteBlockBody(s, b, tail, toFloat);
      assert nm in a.entries;
      assert tail[0] == b.sentinel.value && tail[1..] == rest;
      SentinelLineFirst(State(ExpectImage, nm, a), tail, toFloat);
    } else {
      assert BlockLines(b) + rest == [b.img, b.count] + b.boxLines + rest;
      CompleteBlockBody(s, b, rest, toFloat);
    }
  }

  /** Block `i` of a run of complete blocks, read from where an image name
      is expected: the dict changes as that block's update says. */
  lemma {:induction false} CompleteBlockAt(s: State, bs: seq<Block>, i: nat, rest: seq<string>, toFloat: string -> Option<real>)
    requires s.mode == ExpectImage && i < |bs| && Complete(bs[i], toFloat)
    ensures Run(s, LinesFrom(bs, i) + rest, toFloat)
         == Run(State(ExpectImage, Strip(bs[i].img), AfterUpdate(s.dict, UpdateOf(bs[i], toFloat))),
                LinesFrom(bs, i + 1) + rest, toFloat)
  {
    var b := bs[i];
    var tl := LinesFrom(bs, i + 1) + rest;
    assert LinesFrom(bs, i) == BlockLines(b) + LinesFrom(bs, i + 1);
    assert LinesFrom(bs, i) + rest == BlockLines(b) + tl;
    CompleteBlockRun(s, b, tl, toFloat);
  }

  /** Complete blocks from index `i` on, read from where an image name is
      expected, then more input: no error in the blocks, the dict is the
      fold of their updates, and the rest is read from there. */
  lemma {:induction false} CompleteBlocksRun(s: State, bs: seq<Block>, i: nat, rest: seq<string>, toFloat: string -> Option<real>)
    requires s.mode == ExpectImage && i <= |bs| && AllComplete(bs, toFloat)
    ensures Run(s, LinesFrom(bs, i) + rest, toFloat)
         == Run(State(ExpectImage, NameFrom(s.imgName, bs, i), DictFrom(s.dict, UpdatesOf(bs, toFloat), i)), rest, toFloat)
    decreases |bs| - i
  {
    var us := UpdatesOf(bs, toFloat);
    if i == |bs| {
      assert LinesFrom(bs, i) + rest == rest;
      assert s == State(ExpectImage, NameFrom(s.imgName, bs, i), DictFrom(s.dict, us, i));
    } else {
      assert Complete(bs[i], toFloat) && us[i] == UpdateOf(bs[i], toFloat);
      CompleteBlockAt(s, bs, i, rest, toFloat);
      var s1 := State(ExpectImage, Strip(bs[i].img), AfterUpdate(s.dict, us[i]));
      CompleteBlocksRun(s1, bs, i + 1, rest, toFloat);
      assert DictFrom(s1.dict, us, i + 1) == DictFrom(s.dict, us, i);
      assert NameFrom(s1.imgName, bs, i + 1) == NameFrom(s.imgName, bs, i);
    }
  }

  /** A block the input ends inside, read where an image name is expected:
      no error, the block stays open with as many boxes read as it has box
      lines, and its name holds exactly the boxes of those lines. */
  lemma {:induction false} CutShortBlockRun(s: State, b: Block, toFloat: string -> Option<real>)
    requires s.mode == ExpectImage && CutShort(b, toFloat)
    ensures Run(s, BlockLines(b), toFloat)
         == Ok(State(ExpectBoxes(ParseInt(Strip(b.count)).value, |b.boxLines|), Strip(b.img),
                     Assign(s.dict, Strip(b.img), BoxesOf(b.boxLines, toFloat))))
  {
    var nm := Strip(b.img);
    var n := ParseInt(Strip(b.count)).value;
    var s2 := State(ExpectBoxes(n, 0), nm, Assign(s.dict, nm, []));
    assert BlockLines(b) == [b.img, b.count] + b.boxLines;
    BlockHead(s, b.img, b.count, b.boxLines, toFloat);
    if |b.boxLines| > 0 {
      BoxLinesPartial(s2, b.boxLines, toFloat);
      ExtendAssign(s.dict, nm, BoxesOf(b.boxLines, toFloat));
    } else {
      assert BoxesOf(b.boxLines, toFloat) == [];
    }
  }

  // ----- The whole result -----------------------------------------------------

  /** The text as WIDER FACE writes it, complete blocks possibly followed by
      one the input cuts short, parses without error, and every image's list
      is the boxes of the last block naming it, one per box line, in input
      order: as many as that block's count when the block is complete, fewer
      when it is the block cut short. An image whose last block is followed
      by the sentinel is not a key, and no other name is. */
  lemma {:induction false} ParsedLists(bs: seq<Block>, last: Option<Block>, k: string, toFloat: string -> Option<real>)
    requires AllComplete(bs, toFloat) && (last.Some? ==> CutShort(last.value, toFloat))
    ensures var lines := LinesFrom(bs, 0) + (if last.Some? then BlockLines(last.value) else []);
            && Parse(lines, toFloat).Ok?
            && var d := Parse(lines, toFloat).value;
               if last.Some? && k == Strip(last.value.img) then
                 && k in d.entries
                 && d.entries[k] == BoxesOf(last.value.boxLines, toFloat)
                 && |d.entries[k]| == |last.value.boxLines| < ParseInt(Strip(last.value.count)).value
               else
                 match LastNamed(bs, k, toFloat)
                 case None => k !in d.entries
                 case Some(i) => (k in d.entries <==> bs[i].sentinel.None?)
                                 && (k in d.entries ==> d.entries[k] == BoxesOf(bs[i].boxLines, toFloat)
                                                        && |d.entries[k]| == Announced(bs[i]))
  {
    var us := UpdatesOf(bs, toFloat);
    var tail := if last.Some? then BlockLines(last.value) else [];
    var t := State(ExpectImage, NameFrom("", bs, 0), DictFrom(Empty, us, 0));
    CompleteBlocksRun(Start, bs, 0, tail, toFloat);
    DictFromKey(Empty, us, 0, k);
    assert LastNamed(bs, k, toFloat) == LastFor(us, |bs|, k);
    var m := LastFor(us, |bs|, k);
    if m.Some? {
      assert Complete(bs[m.value], toFloat) && us[m.value] == UpdateOf(bs[m.value], toFloat);
      BoxesOfEach(bs[m.value].boxLines, toFloat);
    }
    if last.Some? {
      CutShortBlockRun(t, last.value, toFloat);
      BoxesOfEach(last.value.boxLines, toFloat);
    } else {
      assert tail == [];
    }
  }
}

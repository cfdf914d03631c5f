/**
 * What the WIDER scanner guarantees: the flag encoding, the invariant every
 * reachable state keeps, how whole blocks are read, what the sentinel line
 * does, where keys come from and when the scan fails.
 */
module WiderParserFacts {
  import opened Wrappers
  import opened Text
  import opened AnnDicts
  import opened WiderParser

  // ----- The flag encoding -------------------------------------------------

  /** The source's flag and counter values for a mode (is_img, isNum_annots,
      start_annots_count, annots_count, num_annots). */
  function FlagsOf(m: Mode): (bool, bool, bool, int, int)
  {
    match m
    case ExpectImage => (true, false, false, 0, -1)
    case ExpectCount => (false, true, false, 0, -1)
    case ExpectBoxes(total, consumed) => (false, false, true, consumed, total)
  }

  /** The three flags and two counters encode exactly the three modes: every
      consistent combination is the encoding of its mode, and every mode with
      its counters in range has a consistent encoding. */
  lemma {:induction false} FlagsEncodeModes(isImg: bool, isNumAnnots: bool, startAnnotsCount: bool, annotsCount: int, numAnnots: int, m: Mode)
    ensures FlagsConsistent(isImg, isNumAnnots, startAnnotsCount, annotsCount, numAnnots)
            ==> FlagsOf(ModeOf(isImg, isNumAnnots, startAnnotsCount, annotsCount, numAnnots))
                == (isImg, isNumAnnots, startAnnotsCount, annotsCount, numAnnots)
    ensures (m.ExpectBoxes? ==> 0 <= m.consumed < m.total) ==>
            var f := FlagsOf(m);
            FlagsConsistent(f.0, f.1, f.2, f.3, f.4) && ModeOf(f.0, f.1, f.2, f.3, f.4) == m
  {
  }

  /** The sentinel test `annots_count == num_annots + 1` holds exactly when
      the scanner is not in the middle of a run of box lines. */
  lemma {:induction false} SentinelTestMeansNoBoxesPending(isImg: bool, isNumAnnots: bool, startAnnotsCount: bool, annotsCount: int, numAnnots: int)
    requires FlagsConsistent(isImg, isNumAnnots, startAnnotsCount, annotsCount, numAnnots)
    ensures annotsCount == numAnnots + 1 <==> !startAnnotsCount
  {
  }

  // ----- Reachable states --------------------------------------------------

  /** What holds of every state the scanner reaches from `Start`: the dict is
      well formed, never has the sentinel as a key and holds boxes of at most
      four numbers; while a count or boxes are expected the current image is
      a key, with an empty list or with as many boxes as have been read. */
  ghost predicate Inv(s: State)
  {
    && Valid(s.dict)
    && Sentinel !in s.dict.entries
    && (forall k, j :: k in s.dict.entries && 0 <= j < |s.dict.entries[k]| ==> |s.dict.entries[k][j]| <= 4)
    && match s.mode
       case ExpectImage => true
       case ExpectCount => s.imgName in s.dict.entries && s.dict.entries[s.imgName] == []
       case ExpectBoxes(total, consumed) =>
         0 <= consumed < total && s.imgName in s.dict.entries && |s.dict.entries[s.imgName]| == consumed
  }

  lemma {:induction false} StartInv()
    ensures Inv(Start)
  {
  }

  lemma {:induction false} StepInv(s: State, raw: string, toFloat: string -> Option<real>)
    requires Inv(s)
    ensures Step(s, raw, toFloat).Ok? ==> Inv(Step(s, raw, toFloat).value)
  {
    var line := Strip(raw);
    if line != Sentinel && s.mode.ExpectBoxes? {
      var annots := ParseFloats(Split(line), toFloat);
      if annots.Some? {
        var d := AppendBox(s.dict, s.imgName, FirstFour(annots.value)).value;
        forall k, j | k in d.entries && 0 <= j < |d.entries[k]|
          ensures |d.entries[k][j]| <= 4
        {
          if k == s.imgName && j == |s.dict.entries[k]| {
            assert d.entries[k][j] == FirstFour(annots.value);
          }
        }
      }
    }
  }

  lemma {:induction false} RunInv(s: State, lines: seq<string>, toFloat: string -> Option<real>)
    requires Inv(s)
    ensures Run(s, lines, toFloat).Ok? ==> Inv(Run(s, lines, toFloat).value)
    decreases |lines|
  {
    if lines != [] {
      StepInv(s, lines[0], toFloat);
      var t := Step(s, lines[0], toFloat);
      if t.Ok? {
        RunInv(t.value, lines[1..], toFloat);
      }
    }
  }

  /** Every state the scanner reaches from the start satisfies `Inv`. */
  lemma {:induction false} ReachableInv(lines: seq<string>, toFloat: string -> Option<real>)
    ensures Run(Start, lines, toFloat).Ok? ==> Inv(Run(Start, lines, toFloat).value)
  {
    StartInv();
    RunInv(Start, lines, toFloat);
  }

  /** The returned dict lists each key once, has no sentinel key and keeps at
      most four numbers per box. */
  lemma {:induction false} ParseResultWellFormed(lines: seq<string>, toFloat: string -> Option<real>)
    ensures Parse(lines, toFloat).Ok? ==>
              var d := Parse(lines, toFloat).value;
              && Valid(d)
              && Sentinel !in d.entries
              && forall k, j :: k in d.entries && 0 <= j < |d.entries[k]| ==> |d.entries[k][j]| <= 4
  {
    ReachableInv(lines, toFloat);
  }

  /** While boxes are pending, the only possible failure is a token that is
      not a number: the list lookup for the current image never raises. */
  lemma {:induction false} NoKeyErrorWhileBoxesPending(s: State, raw: string, toFloat: string -> Option<real>)
    requires Inv(s) && s.mode.ExpectBoxes?
    ensures Step(s, raw, toFloat).Err? ==> Step(s, raw, toFloat).error == BoxNotNumeric(Strip(raw))
  {
  }

  /** If the input ends in the middle of a block there is no error: the
      current image is a key with as many boxes as were read, fewer than its
      count. Which boxes they are is `WiderBlocks.CutShortBlockRun`. */
  lemma {:induction false} EndOfInputMidBlock(lines: seq<string>, toFloat: string -> Option<real>)
    requires Run(Start, lines, toFloat).Ok? && Run(Start, lines, toFloat).value.mode.ExpectBoxes?
    ensures var s := Run(Start, lines, toFloat).value;
            && Parse(lines, toFloat) == Ok(s.dict)
            && s.imgName in s.dict.entries
            && |s.dict.entries[s.imgName]| == s.mode.consumed < s.mode.total
  {
    ReachableInv(lines, toFloat);
  }

  // ----- Running over concatenated input -----------------------------------

  /** Reading `a + b` is reading `a`, then `b` from where `a` left off; an
      error in `a` is the error of the whole. */
  lemma {:induction false} RunAppend(s: State, a: seq<string>, b: seq<string>, toFloat: string -> Option<real>)
    ensures Run(s, a + b, toFloat) ==
            match Run(s, a, toFloat)
            case Err(e) => Err(e)
            case Ok(t) => Run(t, b, toFloat)
    decreases |a|
  {
    if a == [] {
      assert a + b == b;
    } else {
      assert (a + b)[0] == a[0] && (a + b)[1..] == a[1..] + b;
      var t := Step(s, a[0], toFloat);
      if t.Ok? {
        RunAppend(t.value, a[1..], b, toFloat);
      }
    }
  }

  // ----- Blocks ------------------------------------------------------------

  /** A line the scanner reads as a box: not the sentinel, all tokens numbers. */
  predicate IsBoxLine(raw: string, toFloat: string -> Option<real>)
  {
    Strip(raw) != Sentinel && ParseFloats(Split(Strip(raw)), toFloat).Some?
  }

  /** The box kept for a box line: its first four numbers. */
  function BoxOf(raw: string, toFloat: string -> Option<real>): Box
    requires IsBoxLine(raw, toFloat)
  {
    FirstFour(ParseFloats(Split(Strip(raw)), toFloat).value)
  }

  /** Every line of `lines` is a box line. */
  predicate AllBoxLines(lines: seq<string>, toFloat: string -> Option<real>)
  {
    lines == [] || (IsBoxLine(lines[0], toFloat) && AllBoxLines(lines[1..], toFloat))
  }

  /** The boxes of a run of box lines, one per line, in order. */
  function BoxesOf(lines: seq<string>, toFloat: string -> Option<real>): seq<Box>
    requires AllBoxLines(lines, toFloat)
  {
    if lines == [] then [] else [BoxOf(lines[0], toFloat)] + BoxesOf(lines[1..], toFloat)
  }

  lemma {:induction false} BoxesOfCons(lines: seq<string>, toFloat: string -> Option<real>)
    requires |lines| > 0 && AllBoxLines(lines, toFloat)
    ensures IsBoxLine(lines[0], toFloat) && AllBoxLines(lines[1..], toFloat)
    ensures BoxesOf(lines, toFloat) == [BoxOf(lines[0], toFloat)] + BoxesOf(lines[1..], toFloat)
  {
    assert lines != [];
  }

  /** The box of a box line holds the numbers of its first four tokens. */
  lemma {:induction false} BoxOfTokens(raw: string, toFloat: string -> Option<real>)
    requires IsBoxLine(raw, toFloat)
    ensures var words := Split(Strip(raw));
            var b := BoxOf(raw, toFloat);
            && |b| == (if |words| < 4 then |words| else 4)
            && forall i :: 0 <= i < |b| ==> toFloat(words[i]) == Some(b[i])
  {
    ParseFloatsValues(Split(Strip(raw)), toFloat);
  }

  /** `AllBoxLines` says that each line is a box line. */
  lemma {:induction false} AllBoxLinesEach(lines: seq<string>, toFloat: string -> Option<real>)
    ensures AllBoxLines(lines, toFloat) <==> forall i :: 0 <= i < |lines| ==> IsBoxLine(lines[i], toFloat)
  {
    if lines != [] {
      AllBoxLinesEach(lines[1..], toFloat);
      assert forall i :: 1 <= i < |lines| ==> lines[1..][i - 1] == lines[i];
    }
  }

  /** `BoxesOf` has one box per line, in order. */
  lemma {:induction false} BoxesOfEach(lines: seq<string>, toFloat: string -> Option<real>)
    requires AllBoxLines(lines, toFloat)
    ensures |BoxesOf(lines, toFloat)| == |lines|
    ensures forall i :: 0 <= i < |lines| ==> IsBoxLine(lines[i], toFloat) && BoxesOf(lines, toFloat)[i] == BoxOf(lines[i], toFloat)
  {
    if lines != [] {
      BoxesOfEach(lines[1..], toFloat);
      AllBoxLinesEach(lines, toFloat);
      assert forall i :: 1 <= i < |lines| ==> lines[1..][i - 1] == lines[i];
    }
  }

  // ----- One line at a time ----------------------------------------------

  /** The mode after a count line holding `n`. */
  function AfterCount(n: int): Mode
  {
    if n > 0 then ExpectBoxes(n, 0) else ExpectImage
  }

  /** The mode after one more box line of a pending block. */
  function AfterBox(m: Mode): Mode
    requires m.ExpectBoxes?
  {
    if m.consumed + 1 == m.total then ExpectImage else ExpectBoxes(m.total, m.consumed + 1)
  }

  /** An image line: its stripped text becomes the current name and gets an
      empty list (`d[name] = []`); a count is expected next. */
  lemma {:induction false} ImageStep(s: State, raw: string, toFloat: string -> Option<real>)
    requires s.mode == ExpectImage && Strip(raw) != Sentinel
    ensures Step(s, raw, toFloat) == Ok(State(ExpectCount, Strip(raw), Assign(s.dict, Strip(raw), [])))
  {
  }

  /** A line `int()` accepts is never the sentinel, which contains spaces. */
  lemma {:induction false} CountIsNotSentinel(line: string)
    requires ParseInt(line).Some?
    ensures line != Sentinel
  {
    ParseIntNoSpace(line);
    assert IsSpace(Sentinel[1]);
  }

  /** A count line `n`: boxes are expected if `n > 0`, an image name
      otherwise; the name and the dict are unchanged. */
  lemma {:induction false} CountStep(s: State, raw: string, toFloat: string -> Option<real>)
    requires s.mode == ExpectCount && ParseInt(Strip(raw)).Some?
    ensures Step(s, raw, toFloat) == Ok(s.(mode := AfterCount(ParseInt(Strip(raw)).value)))
  {
    CountIsNotSentinel(Strip(raw));
  }

  /** A box line: its first four numbers are appended to the current image's
      list, and the block ends when the count is reached. */
  lemma {:induction false} BoxStep(s: State, raw: string, toFloat: string -> Option<real>)
    requires s.mode.ExpectBoxes? && s.imgName in s.dict.entries && IsBoxLine(raw, toFloat)
    ensures Step(s, raw, toFloat)
         == Ok(State(AfterBox(s.mode), s.imgName, AppendBox(s.dict, s.imgName, BoxOf(raw, toFloat)).value))
  {
  }

  /** The sentinel: skipped while boxes are pending; otherwise the image named
      last is popped and an image name is expected next, and if that name is
      not a key the pop raises KeyError. */
  lemma {:induction false} SentinelStep(s: State, raw: string, toFloat: string -> Option<real>)
    requires Strip(raw) == Sentinel
    ensures s.mode.ExpectBoxes? ==> Step(s, raw, toFloat) == Ok(s)
    ensures !s.mode.ExpectBoxes? && s.imgName !in s.dict.entries ==> Step(s, raw, toFloat) == Err(MissingKey(s.imgName))
    ensures !s.mode.ExpectBoxes? && s.imgName in s.dict.entries ==>
              && Step(s, raw, toFloat) == Ok(State(ExpectImage, s.imgName, Pop(s.dict, s.imgName).value))
              && Step(s, raw, toFloat).value.dict.entries == s.dict.entries - {s.imgName}
              && s.imgName !in Step(s, raw, toFloat).value.dict.order
  {
  }

  /** The sentinel is never stored as a box: after it every key's list is
      the list it had before, and no key is added. */
  lemma {:induction false} SentinelNeverAppended(s: State, raw: string, toFloat: string -> Option<real>)
    requires Strip(raw) == Sentinel && Step(s, raw, toFloat).Ok?
    ensures var t := Step(s, raw, toFloat).value;
            forall k :: k in t.dict.entries ==> k in s.dict.entries && t.dict.entries[k] == s.dict.entries[k]
  {
  }

  /** A count line `int()` rejects raises ValueError. */
  lemma {:induction false} BadCountStep(s: State, raw: string, toFloat: string -> Option<real>)
    requires s.mode == ExpectCount && Strip(raw) != Sentinel && ParseInt(Strip(raw)).None?
    ensures Step(s, raw, toFloat) == Err(CountNotInteger(Strip(raw)))
  {
  }

  /** A box line with a token `float()` rejects raises ValueError. */
  lemma {:induction false} BadBoxStep(s: State, raw: string, toFloat: string -> Option<real>)
    requires s.mode.ExpectBoxes? && Strip(raw) != Sentinel
    requires exists i :: 0 <= i < |Split(Strip(raw))| && toFloat(Split(Strip(raw))[i]).None?
    ensures Step(s, raw, toFloat) == Err(BoxNotNumeric(Strip(raw)))
  {
    ParseFloatsValues(Split(Strip(raw)), toFloat);
  }

  // ----- The first line of the remaining input -------------------------------

  lemma {:induction false} ImageLineFirst(s: State, lines: seq<string>, toFloat: string -> Option<real>)
    requires |lines| > 0 && s.mode == ExpectImage && Strip(lines[0]) != Sentinel
    ensures Run(s, lines, toFloat)
         == Run(State(ExpectCount, Strip(lines[0]), Assign(s.dict, Strip(lines[0]), [])), lines[1..], toFloat)
  {
    ImageStep(s, lines[0], toFloat);
  }

  lemma {:induction false} CountLineFirst(s: State, lines: seq<string>, toFloat: string -> Option<real>)
    requires |lines| > 0 && s.mode == ExpectCount && ParseInt(Strip(lines[0])).Some?
    ensures Run(s, lines, toFloat) == Run(s.(mode := AfterCount(ParseInt(Strip(lines[0])).value)), lines[1..], toFloat)
  {
    CountStep(s, lines[0], toFloat);
  }

  lemma {:induction false} BoxLineFirst(s: State, lines: seq<string>, toFloat: string -> Option<real>)
    requires |lines| > 0 && s.mode.ExpectBoxes? && s.imgName in s.dict.entries && IsBoxLine(lines[0], toFloat)
    ensures Run(s, lines, toFloat)
         == Run(State(AfterBox(s.mode), s.imgName, AppendBox(s.dict, s.imgName, BoxOf(lines[0], toFloat)).value),
                lines[1..], toFloat)
  {
    BoxStep(s, lines[0], toFloat);
  }

  /** While boxes are pending the sentinel is skipped and changes nothing. */
  lemma {:induction false} SentinelSkippedWhileBoxesPending(s: State, lines: seq<string>, toFloat: string -> Option<real>)
    requires |lines| > 0 && s.mode.ExpectBoxes? && Strip(lines[0]) == Sentinel
    ensures Run(s, lines, toFloat) == Run(s, lines[1..], toFloat)
  {
    SentinelStep(s, lines[0], toFloat);
  }

  lemma {:induction false} SentinelLineFirst(s: State, lines: seq<string>, toFloat: string -> Option<real>)
    requires |lines| > 0 && !s.mode.ExpectBoxes? && Strip(lines[0]) == Sentinel && s.imgName in s.dict.entries
    ensures Run(s, lines, toFloat)
         == Run(State(ExpectImage, s.imgName, Pop(s.dict, s.imgName).value), lines[1..], toFloat)
  {
    SentinelStep(s, lines[0], toFloat);
  }

  // ----- Blocks ------------------------------------------------------------

  /** The dict after `bs` is added to the end of `k`'s list. */
  function Extend(d: AnnDict, k: string, bs: seq<Box>): AnnDict
    requires k in d.entries
  {
    AnnDict(d.order, d.entries[k := d.entries[k] + bs])
  }

  lemma {:induction false} ExtendAppendBox(d: AnnDict, k: string, b: Box, bs: seq<Box>)
    requires k in d.entries
    ensures Extend(AppendBox(d, k, b).value, k, bs) == Extend(d, k, [b] + bs)
    ensures Extend(d, k, [b]) == AppendBox(d, k, b).value
  {
    assert d.entries[k] + [b] + bs == d.entries[k] + ([b] + bs);
  }

  lemma {:induction false} ExtendAssign(d: AnnDict, k: string, bs: seq<Box>)
    ensures Extend(Assign(d, k, []), k, bs) == Assign(d, k, bs)
  {
    assert [] + bs == bs;
  }

  /** Box lines completing a pending block: each box is appended to the
      current image's list in order, and right after the last one an image
      name is expected again. */
  lemma {:induction false} BoxLinesRun(s: State, boxLines: seq<string>, toFloat: string -> Option<real>)
    requires s.mode.ExpectBoxes? && s.mode.consumed + |boxLines| == s.mode.total && |boxLines| > 0
    requires s.imgName in s.dict.entries
    requires AllBoxLines(boxLines, toFloat)
    ensures Run(s, boxLines, toFloat)
         == Ok(State(ExpectImage, s.imgName, Extend(s.dict, s.imgName, BoxesOf(boxLines, toFloat))))
    decreases |boxLines|
  {
    BoxesOfCons(boxLines, toFloat);
    var b := BoxOf(boxLines[0], toFloat);
    var s1 := State(AfterBox(s.mode), s.imgName, AppendBox(s.dict, s.imgName, b).value);
    BoxLineFirst(s, boxLines, toFloat);
    ExtendAppendBox(s.dict, s.imgName, b, BoxesOf(boxLines[1..], toFloat));
    if |boxLines| > 1 {
      BoxLinesRun(s1, boxLines[1..], toFloat);
    } else {
      assert boxLines[1..] == [];
      assert BoxesOf(boxLines, toFloat) == [b];
      assert Run(s1, boxLines[1..], toFloat) == Ok(s1);
    }
  }

  /** Box lines that do not complete a pending block: each box is appended to
      the current image's list in order, and the block stays open with the
      lines read added to its tally. */
  lemma {:induction false} BoxLinesPartial(s: State, boxLines: seq<string>, toFloat: string -> Option<real>)
    requires s.mode.ExpectBoxes? && s.mode.consumed + |boxLines| < s.mode.total && |boxLines| > 0
    requires s.imgName in s.dict.entries
    requires AllBoxLines(boxLines, toFloat)
    ensures Run(s, boxLines, toFloat)
         == Ok(State(ExpectBoxes(s.mode.total, s.mode.consumed + |boxLines|), s.imgName,
                     Extend(s.dict, s.imgName, BoxesOf(boxLines, toFloat))))
    decreases |boxLines|
  {
    BoxesOfCons(boxLines, toFloat);
    var b := BoxOf(boxLines[0], toFloat);
    var s1 := State(AfterBox(s.mode), s.imgName, AppendBox(s.dict, s.imgName, b).value);
    BoxLineFirst(s, boxLines, toFloat);
    ExtendAppendBox(s.dict, s.imgName, b, BoxesOf(boxLines[1..], toFloat));
    assert s1.mode == ExpectBoxes(s.mode.total, s.mode.consumed + 1);
    if |boxLines| > 1 {
      BoxLinesPartial(s1, boxLines[1..], toFloat);
      assert s1.mode.consumed + |boxLines[1..]| == s.mode.consumed + |boxLines|;
    } else {
      assert boxLines[1..] == [];
      assert BoxesOf(boxLines, toFloat) == [b];
      assert Run(s1, boxLines[1..], toFloat) == Ok(s1);
    }
  }

  /** A pending block completed by `boxLines`, followed by more input. */
  lemma {:induction false} BoxesThenRest(s: State, boxLines: seq<string>, rest: seq<string>, toFloat: string -> Option<real>)
    requires s.mode.ExpectBoxes? && s.mode.consumed + |boxLines| == s.mode.total && |boxLines| > 0
    requires s.imgName in s.dict.entries
    requires AllBoxLines(boxLines, toFloat)
    ensures Run(s, boxLines + rest, toFloat)
         == Run(State(ExpectImage, s.imgName, Extend(s.dict, s.imgName, BoxesOf(boxLines, toFloat))), rest, toFloat)
  {
    BoxLinesRun(s, boxLines, toFloat);
    RunAppend(s, boxLines, rest, toFloat);
  }

  /** An image line and then a count line: the image gets an empty list,
      and the count decides what is expected next. */
  lemma {:induction false} BlockHead(s: State, img: string, count: string, rest: seq<string>, toFloat: string -> Option<real>)
    requires s.mode == ExpectImage && Strip(img) != Sentinel && ParseInt(Strip(count)).Some?
    ensures Run(s, [img, count] + rest, toFloat)
         == Run(State(AfterCount(ParseInt(Strip(count)).value), Strip(img), Assign(s.dict, Strip(img), [])), rest, toFloat)
  {
    var lines := [img, count] + rest;
    var s1 := State(ExpectCount, Strip(img), Assign(s.dict, Strip(img), []));
    assert lines[0] == img;
    ImageLineFirst(s, lines, toFloat);
    assert lines[1..] == [count] + rest;
    assert ([count] + rest)[0] == count && ([count] + rest)[1..] == rest;
    CountLineFirst(s1, [count] + rest, toFloat);
  }

  /** An image line and a count `n <= 0`: the image is in the dict with an
      empty list, and the next line is read as an image name. */
  lemma {:induction false} BlockWithoutBoxes(s: State, img: string, count: string, rest: seq<string>, toFloat: string -> Option<real>)
    requires s.mode == ExpectImage && Strip(img) != Sentinel
    requires ParseInt(Strip(count)).Some? && ParseInt(Strip(count)).value <= 0
    ensures Run(s, [img, count] + rest, toFloat)
         == Run(State(ExpectImage, Strip(img), Assign(s.dict, Strip(img), [])), rest, toFloat)
  {
    BlockHead(s, img, count, rest, toFloat);
  }

  /** An image line, a count `n > 0` and `n` box lines: the image's list holds
      exactly those boxes in input order (a name seen before gets its list
      replaced and keeps its place), and an image name is expected next. */
  lemma {:induction false} BlockWithBoxes(s: State, img: string, count: string, boxLines: seq<string>, rest: seq<string>,
                       toFloat: string -> Option<real>)
    requires s.mode == ExpectImage && Strip(img) != Sentinel
    requires |boxLines| > 0 && ParseInt(Strip(count)) == Some(|boxLines|)
    requires AllBoxLines(boxLines, toFloat)
    ensures Run(s, [img, count] + boxLines + rest, toFloat)
         == Run(State(ExpectImage, Strip(img), Assign(s.dict, Strip(img), BoxesOf(boxLines, toFloat))), rest, toFloat)
  {
    var nm := Strip(img);
    assert [img, count] + boxLines + rest == [img, count] + (boxLines + rest);
    BlockHead(s, img, count, boxLines + rest, toFloat);
    BoxesThenRest(State(ExpectBoxes(|boxLines|, 0), nm, Assign(s.dict, nm, [])), boxLines, rest, toFloat);
    ExtendAssign(s.dict, nm, BoxesOf(boxLines, toFloat));
  }

  /** An image with a count of 0 followed by the sentinel line (how the
      ground truth lists a picture without faces) leaves no trace of the
      name: it is no longer a key, the other entries are as before, and if
      the name was new the dict is exactly the dict before the block. */
  lemma {:induction false} ZeroCountImageRemoved(s: State, img: string, count: string, sentinel: string, rest: seq<string>,
                              toFloat: string -> Option<real>)
    requires s.mode == ExpectImage && Strip(img) != Sentinel
    requires ParseInt(Strip(count)).Some? && ParseInt(Strip(count)).value <= 0
    requires Strip(sentinel) == Sentinel
    ensures var nm := Strip(img);
            var d := Pop(Assign(s.dict, nm, []), nm).value;
            && d.entries == s.dict.entries - {nm}
            && nm !in d.order
            && (Valid(s.dict) && nm !in s.dict.entries ==> d == s.dict)
            && Run(s, [img, count, sentinel] + rest, toFloat) == Run(State(ExpectImage, nm, d), rest, toFloat)
  {
    var nm := Strip(img);
    var a := Assign(s.dict, nm, []);
    assert nm in a.entries;
    ZeroCountThenSentinel(s, img, count, sentinel, rest, toFloat);
    if Valid(s.dict) && nm !in s.dict.entries {
      PopUndoesNewKey(s.dict, nm, []);
    }
  }

  lemma {:induction false} ZeroCountThenSentinel(s: State, img: string, count: string, sentinel: string, rest: seq<string>,
                              toFloat: string -> Option<real>)
    requires s.mode == ExpectImage && Strip(img) != Sentinel
    requires ParseInt(Strip(count)).Some? && ParseInt(Strip(count)).value <= 0
    requires Strip(sentinel) == Sentinel
    ensures Run(s, [img, count, sentinel] + rest, toFloat)
         == Run(State(ExpectImage, Strip(img), Pop(Assign(s.dict, Strip(img), []), Strip(img)).value), rest, toFloat)
  {
    var nm := Strip(img);
    var s2 := State(ExpectImage, nm, Assign(s.dict, nm, []));
    var tail := [sentinel] + rest;
    assert [img, count, sentinel] + rest == [img, count] + tail;
    BlockWithoutBoxes(s, img, count, tail, toFloat);
    assert tail[0] == sentinel && tail[1..] == rest;
    SentinelLineFirst(s2, tail, toFloat);
  }

  // ----- Failures ----------------------------------------------------------

  /** A sentinel before any image line raises KeyError for the name ''. */
  lemma {:induction false} SentinelFirstFails(lines: seq<string>, toFloat: string -> Option<real>)
    requires |lines| > 0 && Strip(lines[0]) == Sentinel
    ensures Parse(lines, toFloat) == Err(MissingKey(""))
  {
    SentinelStep(Start, lines[0], toFloat);
  }

  /** Two sentinels in a row outside box mode: the second finds its image
      already gone and raises KeyError (the first does if it was never there). */
  lemma {:induction false} DoubleSentinelFails(s: State, lines: seq<string>, toFloat: string -> Option<real>)
    requires |lines| >= 2 && !s.mode.ExpectBoxes? && Strip(lines[0]) == Sentinel && Strip(lines[1]) == Sentinel
    ensures Run(s, lines, toFloat) == Err(MissingKey(s.imgName))
  {
    SentinelStep(s, lines[0], toFloat);
    if s.imgName in s.dict.entries {
      var t := State(ExpectImage, s.imgName, Pop(s.dict, s.imgName).value);
      SentinelLineFirst(s, lines, toFloat);
      assert lines[1..][0] == lines[1];
      SentinelStep(t, lines[1], toFloat);
    }
  }

  /** A count line that is not an integer raises ValueError. */
  lemma {:induction false} BadCountFails(s: State, lines: seq<string>, toFloat: string -> Option<real>)
    requires |lines| >= 2 && s.mode == ExpectImage && Strip(lines[0]) != Sentinel
    requires Strip(lines[1]) != Sentinel && ParseInt(Strip(lines[1])).None?
    ensures Run(s, lines, toFloat) == Err(CountNotInteger(Strip(lines[1])))
  {
    var s1 := State(ExpectCount, Strip(lines[0]), Assign(s.dict, Strip(lines[0]), []));
    ImageLineFirst(s, lines, toFloat);
    assert lines[1..][0] == lines[1];
    BadCountStep(s1, lines[1], toFloat);
  }

  /** A box line with a token `float()` rejects raises ValueError. */
  lemma {:induction false} BadBoxFails(s: State, lines: seq<string>, toFloat: string -> Option<real>)
    requires |lines| > 0 && s.mode.ExpectBoxes? && Strip(lines[0]) != Sentinel
    requires exists i :: 0 <= i < |Split(Strip(lines[0]))| && toFloat(Split(Strip(lines[0]))[i]).None?
    ensures Run(s, lines, toFloat) == Err(BoxNotNumeric(Strip(lines[0])))
  {
    BadBoxStep(s, lines[0], toFloat);
  }

  /** Once the scan has failed, more input does not change the outcome. */
  lemma {:induction false} ErrorIsFinal(s: State, lines: seq<string>, more: seq<string>, toFloat: string -> Option<real>)
    requires Run(s, lines, toFloat).Err?
    ensures Run(s, lines + more, toFloat) == Run(s, lines, toFloat)
  {
    RunAppend(s, lines, more, toFloat);
  }

  // ----- Where the keys come from ------------------------------------------

  /** The stripped lines the scan reads as image names, in order. */
  function ImageNameLines(s: State, lines: seq<string>, toFloat: string -> Option<real>): seq<string>
    decreases |lines|
  {
    if lines == [] then []
    else
      var named := if s.mode == ExpectImage && Strip(lines[0]) != Sentinel then [Strip(lines[0])] else [];
      match Step(s, lines[0], toFloat)
      case Err(_) => named
      case Ok(t) => named + ImageNameLines(t, lines[1..], toFloat)
  }

  lemma {:induction false} RunKeys(s: State, lines: seq<string>, toFloat: string -> Option<real>)
    ensures Run(s, lines, toFloat).Ok? ==>
              forall k :: k in Run(s, lines, toFloat).value.dict.entries ==>
                k in s.dict.entries || k in ImageNameLines(s, lines, toFloat)
    decreases |lines|
  {
    if lines != [] {
      var t := Step(s, lines[0], toFloat);
      if t.Ok? {
        RunKeys(t.value, lines[1..], toFloat);
      }
    }
  }

  /** Every key of the result is a line that the scan read as an image name. */
  lemma {:induction false} KeysAreImageLines(lines: seq<string>, toFloat: string -> Option<real>)
    ensures Parse(lines, toFloat).Ok? ==>
              forall k :: k in Parse(lines, toFloat).value.entries ==> k in ImageNameLines(Start, lines, toFloat)
  {
    RunKeys(Start, lines, toFloat);
  }
}

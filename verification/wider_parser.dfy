/**
 * `parse_wider_annots`: reads the WIDER FACE ground-truth text one line at a
 * time and builds a dict from image name to its `[x, y, w, h]` boxes.
 *
 * A block of the text is an image-name line, a count line and that many box
 * lines of ten numbers. The literal line `0 0 0 0 0 0 0 0 0 0` is special:
 * outside a run of box lines it deletes the image named last.
 *
 * `Step`/`Run`/`Parse` describe the scanner as an explicit three-state machine;
 * `ParseWiderAnnots` is the source's own loop over three boolean flags and two
 * counters, proved to compute `Parse`.
 */
module WiderParser {
  import opened Wrappers
  import opened Text
  import opened AnnDicts

  /** The sentinel line, compared after stripping, character for character. */
  const Sentinel: string := "0 0 0 0 0 0 0 0 0 0"

  /** The exceptions the loop can raise. */
  datatype ParseError =
    | CountNotInteger(line: string)  // ValueError from int() on a count line
    | BoxNotNumeric(line: string)    // ValueError from float() on a box token
    | MissingKey(name: string)       // KeyError from the dict lookup or pop

  /** What the next (non-sentinel) line is read as. */
  datatype Mode =
    | ExpectImage
    | ExpectCount
    | ExpectBoxes(total: int, consumed: int)

  datatype State = State(mode: Mode, imgName: string, dict: AnnDict)

  /** Before the first line: an image name is expected, the name is ''. */
  const Start: State := State(ExpectImage, "", Empty)

  /** `annots[:4]`. */
  function FirstFour(xs: seq<real>): (r: seq<real>)
    ensures |r| <= 4 && |r| <= |xs| && forall i :: 0 <= i < |r| ==> r[i] == xs[i]
    ensures |xs| >= 4 ==> |r| == 4
    ensures |xs| <= 4 ==> r == xs
  {
    if |xs| <= 4 then xs else xs[..4]
  }

  /** `[float(x) for x in words]`; `None` when some token is not a number,
      otherwise one number per token. */
  function ParseFloats(words: seq<string>, toFloat: string -> Option<real>): (r: Option<seq<real>>)
    ensures r.Some? ==> |r.value| == |words|
  {
    if words == [] then Some([])
    else
      match toFloat(words[0])
      case None => None
      case Some(x) =>
        match ParseFloats(words[1..], toFloat)
        case None => None
        case Some(xs) => Some([x] + xs)
  }

  /** `ParseFloats` succeeds exactly when every token is a number, and then
      holds those numbers in token order. */
  lemma {:induction false} ParseFloatsValues(words: seq<string>, toFloat: string -> Option<real>)
    ensures var r := ParseFloats(words, toFloat);
            && (r.Some? <==> forall i :: 0 <= i < |words| ==> toFloat(words[i]).Some?)
            && (r.Some? ==> |r.value| == |words|
                            && forall i :: 0 <= i < |words| ==> toFloat(words[i]) == Some(r.value[i]))
  {
    if words != [] {
      ParseFloatsValues(words[1..], toFloat);
      assert forall i :: 1 <= i < |words| ==> words[1..][i - 1] == words[i];
    }
  }

  /** The effect of one raw input line on the scanner. `int()` can fail
      only on a count line, `float()` only on a box line, and a KeyError
      names the current image; a well formed dict stays well formed. */
  function Step(s: State, raw: string, toFloat: string -> Option<real>): (r: Result<State, ParseError>)
    ensures r.Err? && r.error.CountNotInteger? ==> s.mode.ExpectCount?
    ensures r.Err? && r.error.BoxNotNumeric? ==> s.mode.ExpectBoxes?
    ensures r.Err? && r.error.MissingKey? ==> r.error.name == s.imgName
    ensures r.Ok? && Valid(s.dict) ==> Valid(r.value.dict)
  {
    var line := Strip(raw);
    if line == Sentinel then
      if s.mode.ExpectBoxes? then Ok(s)
      else
        match Pop(s.dict, s.imgName)
        case None => Err(MissingKey(s.imgName))
        case Some(d) => Ok(State(ExpectImage, s.imgName, d))
    else
      match s.mode
      case ExpectImage =>
        Ok(State(ExpectCount, line, Assign(s.dict, line, [])))
      case ExpectCount =>
        (match ParseInt(line)
         case None => Err(CountNotInteger(line))
         case Some(n) => Ok(s.(mode := if n > 0 then ExpectBoxes(n, 0) else ExpectImage)))
      case ExpectBoxes(total, consumed) =>
        match ParseFloats(Split(line), toFloat)
        case None => Err(BoxNotNumeric(line))
        case Some(annots) =>
          match AppendBox(s.dict, s.imgName, FirstFour(annots))
          case None => Err(MissingKey(s.imgName))
          case Some(d) =>
            var mode := if consumed + 1 == total then ExpectImage else ExpectBoxes(total, consumed + 1);
            Ok(State(mode, s.imgName, d))
  }

  /** The scanner run over `lines` from `s`; the first error ends the run. */
  function Run(s: State, lines: seq<string>, toFloat: string -> Option<real>): (r: Result<State, ParseError>)
    ensures r.Err? ==> lines != []
    ensures r.Ok? && Valid(s.dict) ==> Valid(r.value.dict)
    decreases |lines|
  {
    if lines == [] then Ok(s)
    else
      match Step(s, lines[0], toFloat)
      case Err(e) => Err(e)
      case Ok(t) => Run(t, lines[1..], toFloat)
  }

  /** The dict the scanner has built when the input runs out: always well
      formed, and empty for an empty input. */
  function Parse(lines: seq<string>, toFloat: string -> Option<real>): (r: Result<AnnDict, ParseError>)
    ensures r.Ok? ==> Valid(r.value)
    ensures lines == [] ==> r == Ok(Empty)
  {
    match Run(Start, lines, toFloat)
    case Err(e) => Err(e)
    case Ok(s) => Ok(s.dict)
  }

  /** The combinations the source's flags and counters take: exactly one flag
      is set; outside box mode the counters sit at 0 and -1; in box mode
      `0 <= annotsCount < numAnnots`. */
  predicate FlagsConsistent(isImg: bool, isNumAnnots: bool, startAnnotsCount: bool, annotsCount: int, numAnnots: int)
  {
    if startAnnotsCount then !isImg && !isNumAnnots && 0 <= annotsCount < numAnnots
    else isImg != isNumAnnots && annotsCount == 0 && numAnnots == -1
  }

  /** The mode a flag combination stands for. */
  function ModeOf(isImg: bool, isNumAnnots: bool, startAnnotsCount: bool, annotsCount: int, numAnnots: int): Mode
  {
    if startAnnotsCount then ExpectBoxes(numAnnots, annotsCount)
    else if isNumAnnots then ExpectCount
    else ExpectImage
  }

  /** `parse_wider_annots` over the file's lines; `toFloat` is Python's `float()`. */
  method ParseWiderAnnots(lines: seq<string>, toFloat: string -> Option<real>) returns (r: Result<AnnDict, ParseError>)
    ensures r == Parse(lines, toFloat)
  {
    var isImg := true;
    var isNumAnnots := false;
    var startAnnotsCount := false;
    var annotsCount := 0;
    var numAnnots := -1;
    var annDict := Empty;
    var imgName := "";
    for i := 0 to |lines|
      invariant FlagsConsistent(isImg, isNumAnnots, startAnnotsCount, annotsCount, numAnnots)
      invariant Run(Start, lines, toFloat)
             == Run(State(ModeOf(isImg, isNumAnnots, startAnnotsCount, annotsCount, numAnnots), imgName, annDict), lines[i..], toFloat)
    {
      assert lines[i..][0] == lines[i] && lines[i..][1..] == lines[i + 1..];
      var line := Strip(lines[i]);

      if line == Sentinel {
        if annotsCount == numAnnots + 1 {
          startAnnotsCount := false;
          annotsCount := 0;
          isImg := true;
          isNumAnnots := false;
          numAnnots := -1;
          var popped := Pop(annDict, imgName);
          if popped.None? {
            return Err(MissingKey(imgName));
          }
          annDict := popped.value;
        }
        continue;
      }

      if isImg {
        isImg := false;
        isNumAnnots := true;
        imgName := line;
        annDict := Assign(annDict, imgName, []);
        continue;
      }

      if isNumAnnots {
        var count := ParseInt(line);
        if count.None? {
          return Err(CountNotInteger(line));
        }
        numAnnots := count.value;
        isNumAnnots := false;
        if numAnnots > 0 {
          startAnnotsCount := true;
          annotsCount := 0;
        } else {
          isImg := true;
          numAnnots := -1;
        }
        continue;
      }

      if startAnnotsCount {
        var annots := ParseFloats(Split(line), toFloat);
        if annots.None? {
          return Err(BoxNotNumeric(line));
        }
        var appended := AppendBox(annDict, imgName, FirstFour(annots.value));
        if appended.None? {
          return Err(MissingKey(imgName));
        }
        annDict := appended.value;
        annotsCount := annotsCount + 1;
      }

      if annotsCount == numAnnots {
        startAnnotsCount := false;
        annotsCount := 0;
        isImg := true;
        isNumAnnots := false;
        numAnnots := -1;
      }
    }
    r := Ok(annDict);
  }
}

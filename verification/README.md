# WIDER FACE ground truth to COCO, modelled in Dafny

This project models `wider_to_coco.py`, a converter that reads the WIDER FACE
ground-truth text (`wider_face_<split>_bbx_gt.txt`) and writes a COCO-style
JSON document.

The text is a sequence of blocks. Each block has three parts:

- an image-name line;
- a line with the number of faces `n`;
- `n` lines of ten numbers each (`x y w h blur expression illumination invalid occlusion pose`).

The line `0 0 0 0 0 0 0 0 0 0` is special. Outside a run of box lines it
deletes the image named last. The WIDER files put that line after an image
whose count is 0.

The code also fixes three behaviours that the header comment of
`parse_wider_annots` does not mention. The model follows the code:

- Input that ends inside a block is not an error; the partial list is returned.
- A count `n <= 0`, not only 0, goes back to expecting an image name.
- A sentinel line inside a run of boxes is skipped.

The model has two halves, each in the source's own imperative form.

- `parse_wider_annots` is `WiderParser.ParseWiderAnnots`. It is one `for` loop
  over the lines, with the three flags `is_img`, `isNum_annots` and
  `start_annots_count`, the two counters and the mutated dict.
  - Its specification is the explicit three-state machine `Step`/`Run`/`Parse`.
  - The method is proved to compute `Parse`. Its loop invariant says the flags
    and counters take only the combinations that encode the three states.
  - `WiderParserFacts` proves the block-level behaviour: boxes stored in order
    as the first four numbers, the empty-count case and the sentinel rules. It
    also proves the failure cases (`int()` and `float()` ValueError, KeyError
    from `pop`), where the keys come from, and the partial result when the
    input ends inside a block.
- The record-building loop of `wider_to_coco_json` is
  `CocoAssembly.WiderToCoco`. Its inner loop over one image's boxes is
  `CocoAssembly.AddAnnotations`.
  - Both are proved against the reference `Convert`.
  - The lemmas about `Convert` cover: dense image ids in key order, dense
    annotation ids across the split, `image_id` links, one annotation per box,
    and `bbox`/`area`/`category_id`/`iscrowd`/`segmentation`.
  - `WiderToCocoJson.ConvertSplit` chains the two halves for one split.
    `ConvertedDocument` states what the written document holds in terms of the
    input lines.

The Python dict is `AnnDicts.AnnDict`: the key order next to a map. Iteration
order matters to the assembler. Reassigning an existing key keeps its place,
and a popped key that is assigned again moves to the end. `str.strip()`,
`str.split()` and `int()` are modelled in `Text` with Python's whitespace set
and Python's integer syntax (sign, ASCII digits, single underscores between
digits). `float()` and `Image.open(...).width/.height` are parameters:
`toFloat` and `imageSize`.

## Model

`WiderBlocks` reads the whole text as blocks: complete blocks, possibly
followed by one the input cuts short. The per-line lemmas `ImageStep`,
`CountStep`, `BoxStep`, `SentinelStep`, `BadCountStep`, the four `*LineFirst`
lemmas, `SentinelSkippedWhileBoxesPending`, `BlockHead` and
`BlockWithoutBoxes` each state one branch of `Step`. They are unfoldings of
the machine's definition, not independent proofs: they document it and are
the steps the block lemmas are built from.

| member | source | states |
|---|---|---|
| WiderParser.ParseWiderAnnots | wider_to_coco.py:7-79 | The flag loop returns exactly the reference state machine's result, dict or exception. Every iteration keeps the flags and counters in one of the three consistent combinations. |
| WiderParser.FirstFour | wider_to_coco.py:68 | `annots[:4]`: at most four numbers, exactly four when there are at least four, and the leading ones unchanged. |
| WiderParser.ParseFloats | wider_to_coco.py:67 | When every token converts, there is one number per token. |
| WiderParser.Step | wider_to_coco.py:31-77 | One line: the `int()` ValueError comes only on a count line, the `float()` ValueError only on a box line, and a KeyError names the current image. A well-formed dict stays well formed. |
| WiderParser.Run | wider_to_coco.py:31-79 | An exception needs at least one line. A well-formed dict stays well formed over any number of lines. |
| WiderParser.Parse | wider_to_coco.py:28-79 | The returned dict is well formed, and an empty file gives `{}`. |
| WiderParser.ParseFloatsValues | wider_to_coco.py:67 | The list comprehension of `float()` succeeds exactly when every token is a number, and then keeps one number per token in token order. |
| WiderParserFacts.FlagsEncodeModes | wider_to_coco.py:21-25 | Every consistent flag/counter combination is the encoding of its mode, and every mode has a consistent encoding. Consistent means exactly one flag set, counters 0 and -1 outside box mode, and `0 <= annots_count < num_annots` inside it. |
| WiderParserFacts.SentinelTestMeansNoBoxesPending | wider_to_coco.py:35 | Under the flag invariant, `annots_count == num_annots + 1` holds exactly when no boxes are pending. |
| WiderParserFacts.StepInv | wider_to_coco.py:31-77 | One line preserves the reachable-state invariant. The invariant covers: a well-formed dict with no sentinel key and boxes of at most four numbers; the current image present while a count or boxes are pending; its list holding as many boxes as have been read. |
| WiderParserFacts.RunInv | wider_to_coco.py:31-77 | Any number of lines preserves the invariant. |
| WiderParserFacts.ReachableInv | wider_to_coco.py:21-79 | Every state reached from the initial flags satisfies the invariant. |
| WiderParserFacts.ParseResultWellFormed | wider_to_coco.py:28-79 | The returned dict lists each key once, never has the sentinel line as a key, and keeps at most four numbers per box. |
| WiderParserFacts.NoKeyErrorWhileBoxesPending | wider_to_coco.py:65-69 | While boxes are pending the only possible exception is the `float()` ValueError. The list lookup for the current image never fails. |
| WiderParserFacts.EndOfInputMidBlock | wider_to_coco.py:31-79 | Input that ends inside a block raises nothing. The current image is a key with as many boxes as were read, fewer than its count. |
| WiderParserFacts.RunAppend | wider_to_coco.py:31 | Reading `a + b` is reading `a`, then `b` from the state `a` left; an exception in `a` is the result. |
| WiderParserFacts.BoxOfTokens | wider_to_coco.py:67-68 | A stored box holds the numbers of the line's first four tokens, or all of them when there are fewer. |
| WiderParserFacts.BoxesOfEach | wider_to_coco.py:65-69 | A run of box lines gives one box per line, in line order. |
| WiderParserFacts.ImageStep | wider_to_coco.py:44-50 | An image line becomes the current name, gets an empty list, and a count line is expected next. |
| WiderParserFacts.CountIsNotSentinel | wider_to_coco.py:34-54 | A line `int()` accepts is never the sentinel line. |
| WiderParserFacts.CountStep | wider_to_coco.py:52-63 | A count `n` makes the parser expect `n` boxes if `n > 0` and an image name otherwise. The name and the dict do not change. |
| WiderParserFacts.BoxStep | wider_to_coco.py:65-77 | A box line appends its box to the current image's list. The block ends exactly when the count is reached. |
| WiderParserFacts.SentinelStep | wider_to_coco.py:34-42 | While boxes are pending, the sentinel changes nothing. Otherwise it pops the current name and an image name is expected next. It raises KeyError when the name is not a key. |
| WiderParserFacts.SentinelNeverAppended | wider_to_coco.py:34-42 | After a sentinel no key is added and no list grows. |
| WiderParserFacts.BadCountStep | wider_to_coco.py:54 | A count line `int()` rejects raises ValueError carrying that line. |
| WiderParserFacts.BadBoxStep | wider_to_coco.py:67 | A box line with a token `float()` rejects raises ValueError carrying that line. |
| WiderParserFacts.ImageLineFirst | wider_to_coco.py:44-50 | An image line at the head of the input, stated over the rest of the input. |
| WiderParserFacts.CountLineFirst | wider_to_coco.py:52-63 | A count line at the head of the input, stated over the rest of the input. |
| WiderParserFacts.BoxLineFirst | wider_to_coco.py:65-77 | A box line at the head of the input, stated over the rest of the input. |
| WiderParserFacts.SentinelSkippedWhileBoxesPending | wider_to_coco.py:34-42 | A sentinel while boxes are pending is as if the line were absent. |
| WiderParserFacts.SentinelLineFirst | wider_to_coco.py:34-42 | A sentinel outside box mode, when the current name is a key, is a pop followed by the rest of the input. |
| WiderParserFacts.ExtendAssign | wider_to_coco.py:49 | Assigning `[]` and then appending boxes is assigning the boxes at once. |
| WiderParserFacts.ExtendAppendBox | wider_to_coco.py:68 | Appending one box and then more is appending them all, in order. |
| WiderParserFacts.BoxLinesRun | wider_to_coco.py:65-77 | Box lines that complete a pending block are appended in order. An image name is expected right after the last one. |
| WiderParserFacts.BoxLinesPartial | wider_to_coco.py:65-77 | Box lines that do not complete a pending block are appended in order. The block stays open, with the lines read added to its tally. |
| WiderParserFacts.BoxesThenRest | wider_to_coco.py:65-77 | The same, followed by more input read from the resulting state. |
| WiderParserFacts.BlockHead | wider_to_coco.py:44-63 | An image line and a count line: the image gets an empty list, and the count decides the next mode. |
| WiderParserFacts.BlockWithoutBoxes | wider_to_coco.py:56-63 | A count `n <= 0` leaves the image in the dict with an empty list, and the next line is read as an image name. |
| WiderParserFacts.BlockWithBoxes | wider_to_coco.py:44-77 | An image line, a count `n > 0` and `n` box lines leave that image's list holding exactly those boxes in input order. A repeated name keeps its place. An image name is expected next. |
| WiderParserFacts.ZeroCountThenSentinel | wider_to_coco.py:34-63 | An image with count 0 followed by the sentinel is an assignment followed by a pop of that name. |
| WiderParserFacts.ZeroCountImageRemoved | wider_to_coco.py:34-63 | After an image with count 0 and a sentinel, the name is no longer a key and the other entries are unchanged. If the name was new, the dict is exactly as before the block. |
| WiderParserFacts.SentinelFirstFails | wider_to_coco.py:29-41 | A sentinel before any image line raises KeyError for the initial name `''`. |
| WiderParserFacts.DoubleSentinelFails | wider_to_coco.py:34-42 | Two sentinels in a row outside box mode raise KeyError. |
| WiderParserFacts.BadCountFails | wider_to_coco.py:54 | An image line followed by a non-integer count raises ValueError. |
| WiderParserFacts.BadBoxFails | wider_to_coco.py:67 | A pending box line with a non-number token raises ValueError. |
| WiderParserFacts.ErrorIsFinal | wider_to_coco.py:31-79 | Once an exception is raised, later lines do not change the outcome. |
| WiderParserFacts.RunKeys | wider_to_coco.py:48-49 | Every key after a run was a key before it or a line read as an image name during it. |
| WiderParserFacts.KeysAreImageLines | wider_to_coco.py:48-49 | Every key of the result is a stripped input line that the parser read as an image name. |
| WiderBlocks.AfterUpdate | wider_to_coco.py:41-49 | What one block does to the dict: its name gets the block's list, and is removed again when the sentinel follows. Well-formedness is kept. |
| WiderBlocks.DictFromKey | wider_to_coco.py:41-49 | After a run of blocks, a key some block names is decided by the last such block: present exactly when no sentinel follows it, and then holding that block's list. A key no block names keeps what it held. |
| WiderBlocks.CompleteBlockBody | wider_to_coco.py:44-77 | An image line, a count and exactly that many box lines: the name holds exactly the boxes of those lines, and an image name is expected next. |
| WiderBlocks.CompleteBlockRun | wider_to_coco.py:34-77 | A complete block, with or without the sentinel after it, changes the dict as its update says. |
| WiderBlocks.CompleteBlockAt | wider_to_coco.py:31-77 | The same for one block inside a run of blocks. |
| WiderBlocks.CompleteBlocksRun | wider_to_coco.py:31-79 | A run of complete blocks raises nothing, and the dict is the fold of their updates in input order. |
| WiderBlocks.CutShortBlockRun | wider_to_coco.py:44-79 | A block the input ends inside raises nothing. Its name holds exactly the boxes of the lines read, and the block stays open. |
| WiderBlocks.ParsedLists | wider_to_coco.py:31-79 | Complete blocks, possibly followed by one the input cuts short, parse without error. Each key's list is the boxes of the last block naming it, one per line in input order: exactly its count when complete, fewer when cut short. A name whose last block the sentinel follows is not a key, and no other name is. |
| AnnDicts.Assign | wider_to_coco.py:49 | `d[k] = v`: the entry becomes `v`. A new key goes last and an existing key keeps its place. Well-formedness is kept. |
| AnnDicts.Pop | wider_to_coco.py:41 | `d.pop(k)` fails exactly when `k` is missing. Otherwise exactly `k` is gone from the entries and the order, and well-formedness is kept. |
| AnnDicts.Remove | wider_to_coco.py:41 | Removing a key from the key order keeps every other key and their distinctness. |
| AnnDicts.RemoveAt | wider_to_coco.py:41 | In a repeat-free order, removing a key cuts out exactly its position. |
| AnnDicts.RemoveLast | wider_to_coco.py:41-49 | Removing the key appended last gives back the order before it. |
| AnnDicts.PopUndoesNewKey | wider_to_coco.py:41-49 | Popping a key that an assignment just added restores the dict exactly, key order included. |
| AnnDicts.AppendBox | wider_to_coco.py:68 | `d[k].append(b)` fails exactly when `k` is missing. Otherwise only `k`'s list grows, by `b` at its end, and the key order is untouched. |
| Text.TrimStart | wider_to_coco.py:32 | The leading-whitespace cut never grows the string and leaves no leading whitespace. |
| Text.TrimStartSuffix | wider_to_coco.py:32 | It keeps a suffix of the line and drops only whitespace. |
| Text.TrimEnd | wider_to_coco.py:32 | The trailing-whitespace cut never grows the string and leaves no trailing whitespace. |
| Text.TrimEndPrefix | wider_to_coco.py:32 | It keeps a prefix of the line and drops only whitespace. |
| Text.IsSpace | wider_to_coco.py:32 | Python's whitespace set: space, tab, newline and carriage return are whitespace; digits, signs, `.` and `_` are not. |
| Text.Strip | wider_to_coco.py:32 | `strip()` never lengthens the line, and its result neither starts nor ends with whitespace. |
| Text.StripCutsSpace | wider_to_coco.py:32 | `strip()` is the line between a whitespace prefix and a whitespace suffix. |
| Text.StripKeepsMiddle | wider_to_coco.py:32 | The kept middle is the original characters, in place. |
| Text.StripDropsTail | wider_to_coco.py:32 | Everything after the kept middle is whitespace. |
| Text.StripKeepsTrimmed | wider_to_coco.py:32 | `strip()` returns an already stripped line unchanged. |
| Text.WordEnd | wider_to_coco.py:67 | The first token ends at the first whitespace or at the end of the line. |
| Text.WordEndNoSpace | wider_to_coco.py:67 | The first token contains no whitespace. |
| Text.WordEndOfWord | wider_to_coco.py:67 | A whitespace-free word followed by whitespace or nothing is exactly the first token. |
| Text.Split | wider_to_coco.py:67 | `split()` yields only non-empty tokens free of whitespace. |
| Text.SplitLeadingSpace | wider_to_coco.py:67 | `split()` ignores leading whitespace. |
| Text.SplitWordThen | wider_to_coco.py:67 | A word followed by whitespace or nothing splits off as the first token. |
| Text.SplitSingle | wider_to_coco.py:67 | A single word splits into itself. |
| Text.SplitWordSpaceThen | wider_to_coco.py:67 | A word, a space and more text split into the word and the tokens of the rest. |
| Text.SplitJoinSpaced | wider_to_coco.py:67 | `split()` undoes joining non-empty, whitespace-free tokens with single spaces. |
| Text.DigitRestShape | wider_to_coco.py:54 | The digits after the first accepted by `int()` are digits and underscores, each underscore followed by a digit, ending in a digit. |
| Text.DigitBodyShape | wider_to_coco.py:54 | An accepted digit part starts and ends with a digit, and each underscore is followed by a digit. |
| Text.DigitsAreDigitRest | wider_to_coco.py:54 | A plain run of digits is accepted. |
| Text.ParseInt | wider_to_coco.py:54 | A string `int()` accepts is non-empty and ends with a digit, and a negative value needs a leading minus. |
| Text.ParseIntNoSpace | wider_to_coco.py:54 | A string `int()` accepts contains no whitespace. |
| Text.NatToString | wider_to_coco.py:54 | The decimal spelling of a natural number is non-empty and all digits. |
| Text.NatToStringValue | wider_to_coco.py:54 | The digit value of that spelling is the number. |
| Text.ParseIntToString | wider_to_coco.py:54 | `int(str(n)) == n` for every integer: every count written in decimal is read back. |
| CocoAssembly.ImageOf | wider_to_coco.py:118-123 | The image record holds its id, the picture's width and height, and the file name. |
| CocoAssembly.AnnotationOf | wider_to_coco.py:128-136 | One box's record is a face annotation: category 1, not a crowd, no segmentation, `area` equal to `bbox[2] * bbox[3]`. It carries the given ids, the whole box under `boxes`, and `bbox == box[:4]`. |
| CocoAssembly.ShortBoxNone | wider_to_coco.py:127-134 | No box raises IndexError at `bbox[2] * bbox[3]` exactly when every box has at least four numbers. |
| CocoAssembly.ShortBoxFirst | wider_to_coco.py:127-134 | The box that raises is the first short one in list order. |
| CocoAssembly.FirstFailureNone | wider_to_coco.py:112-134 | The first `n` images convert without exception exactly when each picture opens and each of their boxes has four numbers. |
| CocoAssembly.FirstFailureAt | wider_to_coco.py:112-134 | The exception raised is the one of the first image, in key order, that does not convert. |
| CocoAssembly.ImagesUpToEach | wider_to_coco.py:112-124 | One image record per key. Image `i` has id `i`, file name the `i`-th key, and that picture's width and height. |
| CocoAssembly.AnnotationsOfEach | wider_to_coco.py:127-137 | One annotation per box, in box order, numbered consecutively and linked to the image. |
| CocoAssembly.AnnotationsUpToLength | wider_to_coco.py:112-137 | The number of annotations is the sum of the list lengths. |
| CocoAssembly.AnnotationsUpToPrefix | wider_to_coco.py:112-137 | Later images only append annotations; earlier ones are never changed. |
| CocoAssembly.LastImageAnnotations | wider_to_coco.py:127-137 | An image's annotations close the list of the images up to it, in box order. |
| CocoAssembly.AnnotationPlacement | wider_to_coco.py:112-137 | The `k`-th box of image `i` is annotation number `boxes before i + k`. It points at image `i` and holds that box. |
| CocoAssembly.BoxesBeforeGrows | wider_to_coco.py:129 | The running annotation id never decreases from one image to the next. |
| CocoAssembly.AnnotationsUpToEach | wider_to_coco.py:128-136 | Annotation ids are 0, 1, 2, … with no gaps. Every annotation points at an existing image and is a face annotation. |
| CocoAssembly.AnnotationsKeepWholeBoxes | wider_to_coco.py:135-136 | When no stored box has more than four numbers, `bbox` equals `boxes` in every annotation. |
| CocoAssembly.Convert | wider_to_coco.py:93-142 | A produced document has the single face category and one image record per key. |
| CocoAssembly.ConvertDocument | wider_to_coco.py:91-142 | A document is produced exactly when every image converts. It then has the single face category, one image per key and one annotation per box. |
| CocoAssembly.AddAnnotations | wider_to_coco.py:127-137 | The inner loop reports the first short box if there is one. Otherwise it appends exactly the reference annotations of the image and advances the id by the number of boxes. |
| CocoAssembly.WiderToCoco | wider_to_coco.py:99-137 | The nested loops return exactly the reference document or the first exception. |
| WiderToCocoJson.ConvertAnnotations | wider_to_coco.py:110-142 | A parsing exception is reported unchanged and ends the conversion before any record is built. An assembly exception comes only after a successful parse. A document has one image per parsed key. |
| WiderToCocoJson.ConvertSplit | wider_to_coco.py:99-142 | Parsing and then assembling one split gives exactly the reference conversion or the first exception of either half. |
| WiderToCocoJson.ConvertedDocument | wider_to_coco.py:91-142 | A written document has the face category and one image per parsed key, in key order, densely numbered and named by an input line read as an image name. Annotations are densely numbered, point at an existing image, are face annotations, and have `bbox` equal to the stored box. |

## Left out

- Opening and iterating the annotation file (lines 19 and 31), and the JSON write (146-147): input is a sequence of raw lines, output a `CocoDoc` value.
- `Image.open` and its `width`/`height` (120-122) are the parameter `imageSize`. `None` stands for a picture that cannot be opened; the kind of exception is not modelled.
- `float()` (67) is the parameter `toFloat`. Numbers are Dafny `real`s, so `area` is an exact product, not a rounded floating-point one.
- `int()` (54) accepts ASCII digits only. Python also accepts other Unicode decimal digits.
- `os.makedirs`, path joining and the split loop over `train`/`val` (84-97, 109): filesystem plumbing. `ConvertSplit` models one iteration.
- `parse_args` and the `__main__` block (151-167): command-line glue.
- Progress and summary `print`s (95, 113-115, 143-145): console output.
- The dict `ann_dict` that collects the three lists (104, 140-142) is the `CocoDoc` datatype.
- CocoAssembly.AddAnnotations: the inner loop is a separate method, not nested inline in `WiderToCoco`. Its result is the same.
- Error payloads are modelling choices:
  - `BoxNotNumeric` carries the stripped line. Python's `float()` ValueError names the one token it could not convert.
  - `BoxTooShort` carries the file name and the box. Python's IndexError carries only its message.
- `float()` also returns `inf` and `nan` (for tokens such as `inf` or `1e999`). `toFloat` yields a `real` or nothing, so these values, and arithmetic on them in `area`, are not modelled.
- Text.ParseInt: accepts digit strings of any length. Python 3.11 and later raise ValueError when a string has more than 4300 digits (the interpreter's default limit).

# NotaGen generation loop and `rest_unreduce`, modelled in Dafny

NotaGen writes symbolic music in ABC notation, one patch of character
codes at a time, with a neural predictor. This project models the sequential
logic of `gradio/inference.py` around that predictor and proves what that
logic guarantees. The model has three parts:

- **`rest_unreduce`** (modules `Voices`, `Bars`, `Unreduce`). The
  generator emits a compact tune body in which a line lists only the voices
  that play. `rest_unreduce` rewrites it so that every declared voice has a
  bar on every line. The steps:
  - Voices are grouped from the `%%score` header. The first voice of a group
    rests with `z`, the others with `x`.
  - Declared voices are sorted by number.
  - Each tune-body line loses its `[r:...]` tag and is split into `[V:n]bar`
    segments. A later segment of the same voice wins.
  - The bars whose duration parses vote for a reference duration.
  - Each voice is written out in order. An absent voice gets a rest of the
    reference duration followed by the right barline that the last bar left.
- **The patch rules of one generation attempt** (modules `Patches`,
  `Generation`):
  - the start/end sentinel patch and the padded prompt rows
  - the end-of-generation test
  - masking a predicted patch after its first EOS, in place on an array
  - the one-shot forced `[r:0/` re-ask
  - the 102400-character cap
  - the window rebuild, which fixes `cut_index` once and keeps the metadata
    lines plus the last `cut_index` tune-body lines
  - the final assembly: drop empty lines, unreduce, drop `%` comment lines,
    prepend `X:1`
- **The helpers** (module `Text`): the Python string operations the code
  relies on (`split('\n')`, `split()`, `strip()`, `int()`, `in`, `find`,
  `''.join`).

Where the source computes with loops and mutable variables, the model does
too. Examples are the metadata loop, the symbol-list loop, the dictionary
loop, the duration loop, the voice loop, the tune-body loop, the masking
loop and the generation loop. The last is a class `Generation.Attempt`
whose fields are `byte_list`, `input_patches`, `tunebody_flag`,
`cut_index` and a draw counter. Each of those methods is proved equal to a
specification function, and the properties are proved about those
functions.

The predictor, the patch codec (`Patchilizer.decode`, `encode_generate`,
`patchilize_metadata`) and the ABC toolkit's barline split, duration and
`str` of a duration are parameters: fields of `Generation.Env`,
`Generation.Codec` and `Bars.Toolkit`. The predictor is sampled, so it takes
the number of patches drawn so far as well as the context. The patch
geometry and the token ids (`PATCH_SIZE`, `PATCH_LENGTH`, bos, eos,
special) come from a configuration that is not part of this model, so they
are the fields of `Patches.Config`.

Exceptions of the source are values. `Voices.UnreduceError` lists the ways
`rest_unreduce` raises: an unbound `existed_voices`, an empty `%%score`
group, a voice number `int()` rejects, an unbound `ref_dur`,
`right_barline` or `symbol_bartext`. The outcome of an attempt,
`Generation.AttemptResult`, is one of:

- `Returned`: a tune.
- `Retry`: the cap, or a failed unreduction, both of which restart the
  outer loop.
- `Raised`: an exception that escapes the function, such as a ragged prompt
  tensor or a patch too short for the end test.
- `Unfinished`: the iteration bound was reached.

### Where the code and its description differ (the model follows the code)

- When no line contains `[V:`, `tunebody_index` stays `None`. Then both
  `abc_lines[:None]` and `abc_lines[None:]` are the whole list
  (gradio/inference.py:46-53). The model does this and does not exclude the
  case.
- The rebuild also stops when the first tune-body line is the last piece
  of the text, not only when there is no tune-body line
  (gradio/inference.py:214-215).
- The forced `[r:0/` prefix is appended to the context as five bare codes,
  not as a padded patch (gradio/inference.py:171-172).
- In a completion, the opening `start` goes into the context but not into
  `byte_list` (gradio/inference.py:273, 282-284). The returned tune is
  therefore built from the prompt lines and the generated text only.
- On a rebuild of a text that ends in a newline, every tune-body line gets
  a newline back, including the empty piece after the final one. The
  re-encoded slice can therefore end in one more newline than the text.
  `Generation.Reattach` states this.
- A voice missing from both symbol lists would reuse the previous voice's
  `symbol_bartext` (gradio/inference.py:119-124). The model keeps that
  branch. `Unreduce.NeverStale` proves it is never taken, because every
  declared voice lands in some group.

## Model

| member | source | states |
|---|---|---|
| Text.FirstWhere | gradio/inference.py:46-50 | the index found satisfies the test and no earlier element does; `None` only when no element does |
| Text.FindFirst | gradio/inference.py:46-50 | the `for ... break` search returns the first index whose line satisfies the test, or `None` |
| Text.BeforeFirst | gradio/inference.py:113 | `line.split('[V:')[0]` is a prefix of the line, followed in the line by `[V:` when the line contains it, and is the whole line otherwise |
| Text.FindIsFirst | gradio/inference.py:113 | the occurrence of the separator that the search finds is the first one in the line |
| Text.BeforeFirstIsFirst | gradio/inference.py:113 | `line.split('[V:')[0]` contains no start of `[V:`: it stops at the first occurrence |
| Text.AbsentNowhere | gradio/inference.py:113 | a line for which `'[V:' in line` is false has no position where `[V:` starts, so `split` leaves it whole |
| Text.Lines | gradio/inference.py:207 | `split('\n')` gives at least one piece and no piece holds a newline |
| Text.JoinLinesOfLines | gradio/inference.py:207 | joining the pieces of `split('\n')` with newlines gives the text back |
| Text.LinesOfJoinLines | gradio/inference.py:241 | splitting newline-free pieces joined by newlines gives the pieces back |
| Text.FirstWordOfTagged | gradio/inference.py:62-63 | a line starting with `V:` has a first word, and it starts with `V:` |
| Text.ParseDecimal | gradio/inference.py:74 | `int()` reads back every rendered natural number |
| Voices.ParenContentsPieces | gradio/inference.py:59-60 | each run that `\((.*?)\)` captures holds no `)` and no newline, and stands in the line as `(` run `)` |
| Voices.ParenContentsOf | gradio/inference.py:59-60 | a line written as bracketed runs free of `)` and newlines, with bracket-free gaps between them, gives back exactly those runs, in order |
| Voices.ScoreGroupsOf | gradio/inference.py:59-60 | such a `%%score` line gives one group per bracketed run, each the whitespace-split words of its run |
| Voices.GroupLines | gradio/inference.py:57-66 | the metadata loop can only fail by reading `existed_voices` before any `%%score` line |
| Voices.GroupLinesCovered | gradio/inference.py:61-66 | every `V:` voice the loop records lies in some group, listed by `%%score` or added as its own group |
| Voices.UnlistedVoiceGetsGroup | gradio/inference.py:62-66 | a `V:` line whose voice no `%%score` group lists appends a group of that voice alone, and records the symbol as a part |
| Voices.GroupLinesSplit | gradio/inference.py:57-66 | the metadata loop over the lines is the loop over a prefix, continued over the rest |
| Voices.GroupLinesGrow | gradio/inference.py:57-66 | the loop only appends: the groups and parts it starts from stay at the front |
| Voices.GroupVoices | gradio/inference.py:55-66 | the metadata loop computes the groups, the part symbols and `existed_voices`, failing where Python raises |
| Voices.AddScoreGroups | gradio/inference.py:59-60 | the groups of a `%%score` line are appended after the existing ones |
| Voices.SymbolLists | gradio/inference.py:67-72 | the lists fail exactly when some group is empty; the `z` list holds the first voice of each group, in group order |
| Voices.SymbolListsFollowers | gradio/inference.py:71-72 | the `x` list holds exactly the voices after the first of their group |
| Voices.SymbolListsCover | gradio/inference.py:67-72 | every grouped voice rests with `z` or with `x` |
| Voices.AddFollowers | gradio/inference.py:71-72 | the inner loop appends every later group member, tagged `V:`, in order |
| Voices.BuildSymbolLists | gradio/inference.py:67-72 | the loop builds the `z` and `x` lists, raising on an empty group |
| Voices.KeysBy | gradio/inference.py:74 | computing the sort keys can fail only on a symbol whose number does not parse |
| Voices.KeysByPair | gradio/inference.py:74 | when every key exists, each symbol is paired with its own key, in place |
| Voices.KeysByFail | gradio/inference.py:74 | computing the keys fails exactly when some symbol has no key |
| Voices.InsertByKeyCorrect | gradio/inference.py:74 | inserting into a sorted list keeps it sorted and adds exactly the new entry |
| Voices.InsertByKeyBound | gradio/inference.py:74 | a lower bound on the entry and the list stays a lower bound after the insertion |
| Voices.InsertByKeyPerm | gradio/inference.py:74 | insertion adds exactly the new entry |
| Voices.SortByKeyCorrect | gradio/inference.py:74 | the insertion sort yields a sorted permutation of its input |
| Voices.SortByKeyNames | gradio/inference.py:74 | sorting keeps the multiset of names |
| Voices.SortByCorrect | gradio/inference.py:74 | `sort(key=...)` fails exactly when some key is missing; otherwise it gives a permutation of the symbols in ascending key order |
| Voices.KeyedPairs | gradio/inference.py:74 | the keyed list pairs each symbol, in order, with its key |
| Voices.SortedKeys | gradio/inference.py:74 | sorting symbols paired with their keys gives the same symbols in ascending key order |
| Voices.SortVoicesCorrect | gradio/inference.py:74 | the part symbols are sorted into ascending voice-number order, as a permutation; the sort raises exactly when some `int(x[2:])` fails |
| Bars.IndexFrom | gradio/inference.py:81 | the first `]` at or after a position, or none |
| Bars.StripRefTagShape | gradio/inference.py:81 | the `[r:...]` substitution removes only a prefix; it removes nothing unless the line starts with `[r:` and has a later `]`, and then everything up to the first such `]` |
| Bars.StripRefTagOf | gradio/inference.py:81 | a line made of a `]`-free `[r:` tag and a body loses the tag and keeps the body |
| Bars.DigitRun | gradio/inference.py:83 | the longest run of digits at the start of the text |
| Bars.TagAt | gradio/inference.py:83 | a recognised `[V:n]` tag ends within the text, after at least five characters |
| Bars.TagAtSpec | gradio/inference.py:83 | a recognised tag is `[V:`, a non-empty digit run and `]` |
| Bars.SegmentEndSpec | gradio/inference.py:83 | the lazy bar text is the shortest newline-free run followed by `[V:`, the end, or the final newline |
| Bars.VoiceMatchesOfSegments | gradio/inference.py:83-84 | `re.findall` of the segment pattern reads back every line written as `[V:n]bar` segments with numeric voices and plain bars |
| Bars.KeyIndex | gradio/inference.py:86-90 | a key found in the dictionary is at the index returned |
| Bars.KeyIndexFirst | gradio/inference.py:86-90 | the index found is the first with the key, and `None` means no entry has it |
| Bars.PutSpec | gradio/inference.py:90 | `d[k] = v` maps `k` to `v`, leaves other keys, keeps key order (a new key last) and keeps keys distinct |
| Bars.LookupDistinct | gradio/inference.py:118-119 | with distinct keys, a lookup finds an entry's own value |
| Bars.BarDictLookup | gradio/inference.py:86-90 | `line_bar_dict` has one entry per voice, and its entry for a voice is the text of that voice's last segment |
| Bars.LastBarSome | gradio/inference.py:86-90 | a voice has an entry exactly when a segment names it, and the entry is the text of the last such segment |
| Bars.LastBarFound | gradio/inference.py:86-90 | an entry is the text of a segment naming its voice, with no later segment naming it |
| Bars.LastBarAbsent | gradio/inference.py:86-90 | a voice no segment names gets no entry |
| Bars.CollectBars | gradio/inference.py:86-90 | the dictionary loop builds `line_bar_dict` |
| Bars.DropLast | gradio/inference.py:96 | `bartext[:-n]` is a prefix, `n` shorter for `0 < n < len`, and empty for `n == 0` or `n >= len` |
| Bars.DurationsNext | gradio/inference.py:94-101 | one more bar adds its duration to the votes exactly when that duration parses |
| Bars.DurationsVote | gradio/inference.py:94-101 | the votes are the durations of the bars that parse, at most one per bar |
| Bars.BumpSpec | gradio/inference.py:101-105 | counting a duration adds one to its count (a new one counts 1, placed last) and leaves other counts alone |
| Bars.TallySnoc | gradio/inference.py:101-105 | counting one more duration is one more `Bump` |
| Bars.TallyNext | gradio/inference.py:94-105 | after one more bar, `dur_dict` is bumped at the bar's duration if it parses and is otherwise unchanged |
| Bars.TallyCounts | gradio/inference.py:101-105 | `dur_dict` has distinct keys and maps each duration seen to the number of its occurrences, and nothing else |
| Bars.TallyCount | gradio/inference.py:101-105 | `dur_dict` maps a duration to its number of occurrences, or to nothing if it never occurs |
| Bars.TallyDistinct | gradio/inference.py:101-105 | `dur_dict` never holds a key twice |
| Bars.TallyOrder | gradio/inference.py:101-105 | the keys of `dur_dict` stand in the order in which they first occur |
| Bars.TallyOrderStep | gradio/inference.py:101-105 | counting one more duration keeps the keys in first-occurrence order |
| Bars.Position | gradio/inference.py:108 | the first index at which a duration occurs |
| Bars.PositionPrefix | gradio/inference.py:108 | an element's first position in a prefix is its first position in the whole |
| Bars.MaxIndex | gradio/inference.py:108 | `max(dur_dict, key=dur_dict.get)` picks an entry with the largest count, and no earlier entry has that count |
| Bars.RefDurationIsMajority | gradio/inference.py:107-110 | the vote exists exactly when some bar parsed; it is a most frequent duration, the first occurring one among ties |
| Bars.MajorityOver | gradio/inference.py:108 | the duration picked occurs at least as often as any parsed duration, and no later than it on a tie |
| Bars.VoteDurations | gradio/inference.py:93-105 | the duration loop builds `dur_dict` and leaves `right_barline` as the last bar's barline |
| Bars.CountBar | gradio/inference.py:94-105 | one pass of the duration loop counts the bar's duration once more when it parses, and leaves the tally alone otherwise |
| Unreduce.Meta | gradio/inference.py:46-52 | the metadata lines are the lines before the first `[V:` line, all lines when there is none, and none of them holds `[V:` |
| Unreduce.Body | gradio/inference.py:46-53 | the tune body runs from the first `[V:` line, or is every line when there is none |
| Unreduce.SplitAtFirstVoiceLine | gradio/inference.py:46-53 | with a `[V:` line present, metadata and body split the lines there: the metadata has no `[V:` and the body starts with one |
| Unreduce.VoiceTextListed | gradio/inference.py:119-124 | a listed voice's text does not depend on the `symbol_bartext` an earlier voice left |
| Unreduce.UnreduceLine | gradio/inference.py:127 | every rewritten line ends in a newline |
| Unreduce.Fold | gradio/inference.py:76-127 | a loop that completes writes one line per input line |
| Unreduce.FoldSnoc | gradio/inference.py:76-127 | the loop over one more line is the loop so far, then the step on the new line |
| Unreduce.FoldNext | gradio/inference.py:76-127 | after one more iteration, the loop has appended the step's line or raised the step's error |
| Unreduce.FoldStops | gradio/inference.py:76-127 | once a line raises, the whole loop raises with that error |
| Unreduce.FoldLines | gradio/inference.py:78-127 | each output line is the rewrite of the input line at the same index, given the carry of the earlier lines |
| Unreduce.FoldAvoids | gradio/inference.py:76-127 | a step that never raises an error gives a loop that never raises it |
| Unreduce.LayoutOf | gradio/inference.py:55-74 | a layout that is built sends every part to the `z` or the `x` list; building it raises only for an unbound `existed_voices`, an empty group or a bad voice number |
| Unreduce.LayoutCovers | gradio/inference.py:55-74 | the sorted parts of grouped voices all lie in the `z` or `x` list |
| Unreduce.PartsListed | gradio/inference.py:62-74 | every symbol of the sorted part list rests with `z` or with `x` |
| Unreduce.LayoutOrder | gradio/inference.py:67-74 | the layout's parts are the declared `V:` symbols in ascending numeric order, and each group's first voice is its `z` voice |
| Unreduce.UnlistedVoiceRestsWithZ | gradio/inference.py:62-72 | a `V:` voice that no `%%score` line lists becomes the first voice of its own group, so it is a part and rests with `z` |
| Unreduce.UnreduceShape | gradio/inference.py:129-131 | the result is the metadata lines unchanged, then for each tune-body line its rewrite under the carry of the lines before it |
| Unreduce.LineAsRow | gradio/inference.py:117-127 | a rewritten line is `[V:n]cell` for every part in order, newline-terminated, each cell the one the voice loop gives that voice |
| Unreduce.UnreduceRows | gradio/inference.py:117-131 | every output line after the metadata is such a row over all parts |
| Unreduce.UnreduceLinesEnd | gradio/inference.py:127 | one newline-terminated output line per tune-body line |
| Unreduce.MetaThenLines | gradio/inference.py:129 | appending newline-terminated lines after the metadata keeps the metadata in front |
| Unreduce.ExpandedIsRow | gradio/inference.py:117-125 | the voice loop writes `[sym]text` for every part in order, each text the voice's own |
| Unreduce.ExpandedStops | gradio/inference.py:117-125 | once a voice raises, the line raises with that error |
| Unreduce.ExpandedFails | gradio/inference.py:121-124 | a listed voice that raises makes the line raise with that voice's error |
| Unreduce.FirstFailure | gradio/inference.py:117-125 | a line that raises has a voice that raises |
| Unreduce.UnreduceLineCells | gradio/inference.py:86-127 | with every voice given a cell, the line is `[V:n]cell` per part in order, newline-terminated; a present voice keeps its last segment's text verbatim, and an absent one gets its `z`/`x` rest with the first line's prefix |
| Unreduce.UnreduceLineRaises | gradio/inference.py:107-124 | an absent voice with no reference duration or no barline makes the line raise with exactly that error |
| Unreduce.FirstLineNeedsReference | gradio/inference.py:107-122 | a first tune-body line with no parsing bar and an absent voice makes `rest_unreduce` raise for the unbound `ref_dur` |
| Unreduce.ExpandedNotStale | gradio/inference.py:117-124 | with every voice listed, the voice loop never falls through to a stale `symbol_bartext` |
| Unreduce.StepNotStale | gradio/inference.py:117-127 | with every voice listed, no tune-body line raises for an unbound `symbol_bartext` |
| Unreduce.NeverStale | gradio/inference.py:117-124 | `rest_unreduce` never raises for an unbound `symbol_bartext` |
| Unreduce.CarryForward | gradio/inference.py:92-110 | a line where no bar parses keeps the previous `ref_dur`; otherwise `ref_dur` is the most frequent parsed duration, first among ties; `right_barline` is the last bar's |
| Unreduce.ExpandLine | gradio/inference.py:117-127 | the voice loop builds the line and the last `symbol_bartext`, or raises where Python does |
| Unreduce.VoiceCell | gradio/inference.py:118-124 | the text written after `[symbol]` is the voice's own bar, a `z`/`x` rest of the reference duration, or the previous text, and the errors are raised where Python raises them |
| Unreduce.UnreduceOneLine | gradio/inference.py:78-127 | one iteration of the tune-body loop rewrites the line and passes on `ref_dur`, `right_barline` and `symbol_bartext` |
| Unreduce.UnreduceNext | gradio/inference.py:78-127 | one iteration extends the lines written so far by the rewrite of the next line, or makes the whole loop raise |
| Unreduce.UnreduceBody | gradio/inference.py:76-127 | the tune-body loop writes the rewritten lines, stopping at the first line that raises |
| Unreduce.RestUnreduce | gradio/inference.py:44-131 | the whole function: split, group, list, sort, rewrite, concatenate, failing wherever Python raises |
| Patches.Repeat | gradio/inference.py:145 | `[x] * n` has `n` copies of `x`, none for `n <= 0` |
| Patches.CodesInjective | gradio/inference.py:153 | two texts with the same `ord` codes are the same text |
| Patches.CodesAppend | gradio/inference.py:153 | the codes of a concatenation are the codes of its parts, concatenated |
| Patches.Sentinel | gradio/inference.py:145 | the start patch is `PATCH_SIZE - 1` bos codes and then one eos |
| Patches.Pad | gradio/inference.py:153-154 | a patch is kept and filled with the special code up to `PATCH_SIZE`; a longer one is left as it is |
| Patches.SentinelIsEndOnlyAtWidthTwo | gradio/inference.py:178 | the start patch passes the end test only when patches are two codes wide |
| Patches.IndexOf | gradio/inference.py:187-192 | the first position of eos in a patch, or none |
| Patches.MaskFromEnded | gradio/inference.py:189-190 | after an eos, every later code becomes the special code |
| Patches.MaskedShape | gradio/inference.py:187-192 | masking keeps the patch up to and including its first eos, makes every later code special, keeps the length, and leaves a patch without eos unchanged |
| Patches.MaskAfterFirstEos | gradio/inference.py:187-192 | the in-place loop over the patch array performs that masking |
| Patches.FlattenAppend | gradio/inference.py:195 | the flat context of two row lists is their concatenation |
| Patches.FlattenRectangular | gradio/inference.py:157 | a rectangular context holds rows times width codes |
| Patches.FlattenAt | gradio/inference.py:157 | column `j` of row `i` of `w`-wide rows sits at `i * w + j` of the flat context |
| Patches.TensorLayout | gradio/inference.py:157 | an accepted tensor holds rows times width codes, and column `j` of row `i` is its code `i * width + j` |
| Patches.PromptRows | gradio/inference.py:153-155 | the sentinel comes first, then each metadata chunk padded to `PATCH_SIZE`; the rows are rectangular exactly when no chunk is wider than a patch |
| Patches.PaddedChunks | gradio/inference.py:153-155 | the padded rows after the sentinel have the patch width exactly when their chunk fits |
| Patches.RowsOfWidth | gradio/inference.py:157 | rows led by a row of width `w` are rectangular exactly when all later rows have width `w` |
| Generation.PromptLines | gradio/inference.py:136-139 | three `%` comment lines, each newline-terminated |
| Generation.PaddedRectangular | gradio/inference.py:283-284 | the padded opening patches line up with the prompt exactly when none is wider than a patch |
| Generation.StartFits | gradio/inference.py:149-157 | an attempt starts exactly when every metadata chunk, and in a completion every patch of the stripped opening, fits the patch width |
| Generation.StartState | gradio/inference.py:143-162 | a started attempt's context begins with the sentinel and holds whole rows; its text is the prompt; no cut is fixed, nothing is drawn, and `tunebody_flag` is set only in a completion |
| Generation.EndTestSpec | gradio/inference.py:178 | generation ends exactly on a patch whose first two codes are bos and eos; the test raises only on an empty patch or a lone bos |
| Generation.PyTailSpec | gradio/inference.py:230 | `tunebody_lines[-n:]` keeps the last `n` lines, or all lines when `n` is 0 or too large |
| Generation.StepReask | gradio/inference.py:162-177 | the `[r:0/` re-ask fires only while `tunebody_flag` is unset, and then sets it and costs a second draw; the patch it gives starts with `[r:0/` and cannot make the end test raise |
| Generation.StepGrows | gradio/inference.py:178-195 | ending leaves text and context alone; otherwise the text grows by the decoded patch and the context by the patch masked after its first eos |
| Generation.StepCap | gradio/inference.py:197-199 | a fresh iteration fails exactly when the text passes 102400 characters; a completion never fails, because its cap is commented out |
| Generation.StepCut | gradio/inference.py:204-228 | a rebuild happens only on a full context; it fixes `cut_index` on the first rebuild, to at least one line, and never changes it afterwards |
| Generation.WindowCut | gradio/inference.py:227-228 | the cut is the fixed one, or else half (rounded down) of the tune-body lines counted from the first `[r:`/`[V:` piece, which is at least one |
| Generation.WindowExists | gradio/inference.py:209-215 | a rebuild happens exactly when some piece of the text other than the last starts with `[r:` or `[V:` |
| Generation.ReattachJoin | gradio/inference.py:220-223 | newline-terminated pieces followed by the bare last piece join back into the text |
| Generation.ReattachAt | gradio/inference.py:220-225 | re-attaching the newlines to metadata and tune-body pieces gives the pieces rejoined, with one extra newline when the text ends in one |
| Generation.TunePartNewline | gradio/inference.py:224-225 | with a final newline, every tune-body piece gets its newline back |
| Generation.TunePartPlain | gradio/inference.py:221-223 | without one, the last tune-body piece stays bare |
| Generation.Reattach | gradio/inference.py:206-225 | the rebuilt lines concatenate to the text, with one extra newline when the text ends in one |
| Generation.HeadAndTail | gradio/inference.py:230 | the re-encoded slice starts with all metadata lines, and its tail ends the text |
| Generation.WindowKeeps | gradio/inference.py:206-230 | a rebuild keeps every metadata line (none of which starts a tune body), followed by the last `cut_index` tune-body lines of the text |
| Generation.RunReasksAtMostOnce | gradio/inference.py:162-177 | over a whole attempt the re-ask adds at most one draw, and only when the attempt started with `tunebody_flag` unset |
| Generation.RunCut | gradio/inference.py:227-228 | over a whole attempt a fixed cut never changes, and the first one fixed is at least one line |
| Generation.StepEndKeepsText | gradio/inference.py:178-180 | an iteration that draws the end-of-patch patch breaks before appending anything to the text |
| Generation.RunCap | gradio/inference.py:197-199 | a fresh attempt that ends or stops has a text within the cap, unless no patch was appended |
| Generation.StepWithinCap | gradio/inference.py:178-199 | one fresh iteration keeps a running or stopped text within 102400 characters and leaves an ended one unchanged |
| Generation.DropCommentsSpec | gradio/inference.py:250 | the filter keeps exactly the lines that are not single-`%` comments |
| Generation.DropCommentsAppend | gradio/inference.py:250 | the filter works line by line: filtering a concatenation is concatenating the filtered parts |
| Generation.DropCommentsCount | gradio/inference.py:250 | a comment line is never kept, and any other line is kept as often as it occurs |
| Generation.DropCommentsNone | gradio/inference.py:250 | a list without comment lines passes the filter unchanged |
| Generation.DropCommentsIdempotent | gradio/inference.py:250 | filtering twice is filtering once |
| Generation.KeptSpec | gradio/inference.py:242 | `filter(None, ...)` keeps exactly the non-empty pieces, passes a list of non-empty pieces unchanged, and ignores a trailing empty piece |
| Generation.NonEmptyLinesKept | gradio/inference.py:241-243 | the lines handed to `rest_unreduce` are the non-empty pieces, each with its newline back |
| Generation.NonEmptyLinesIdempotent | gradio/inference.py:241-243 | normalising the lines of an already normalised text gives them back |
| Generation.SplitNormalised | gradio/inference.py:241-243 | the assembled text splits back into the kept lines and the empty piece after the last newline |
| Generation.NormaliseKept | gradio/inference.py:241-243 | normalising the kept lines gives the normalised lines again |
| Generation.ConcatWithNewlines | gradio/inference.py:243 | newline-terminated lines concatenate to the lines joined by newlines, with a trailing newline |
| Generation.FinalTextSpec | gradio/inference.py:237-253 | a text is returned exactly when unreduction succeeds; it is `X:1\n` followed by the unreduced lines minus the single-`%` comment lines |
| Generation.AttemptReturns | gradio/inference.py:237-253 | a returned tune comes from an attempt that ended or stopped without failing, starts with `X:1\n`, and in a fresh attempt was assembled from a text within the cap or from the prompt alone |
| Generation.RebuildWindow | gradio/inference.py:206-230 | the rebuild's search and cut compute the slice to re-encode and the cut in force, or stop the loop |
| Generation.Attempt.constructor | gradio/inference.py:159-162 | the loop variables start at the given state |
| Generation.Attempt.DrawPatch | gradio/inference.py:165-177 | the draw asks the predictor, re-asks once after `[r:0/` while `tunebody_flag` is unset, and records the draws |
| Generation.Attempt.AppendText | gradio/inference.py:183-185 | the character loop appends the decoded patch to `byte_list` and changes nothing else |
| Generation.Attempt.AppendMasked | gradio/inference.py:187-195 | the patch is masked in place after its first eos and appended to the context |
| Generation.Attempt.Step | gradio/inference.py:164-235 | one iteration updates the loop variables and reports its exit as `StepSpec` says |
| Generation.Attempt.Run | gradio/inference.py:164-235 | the inner loop, for up to `fuel` iterations, is `RunSpec` |
| Generation.AssembleOutput | gradio/inference.py:237-253 | the assembly returns what `FinalText` specifies |
| Generation.RunAttempt | gradio/inference.py:141-253 | one turn of the outer loop: start, run, assemble, as `AttemptSpec` says |

## Left out

- Model loading, device choice and the parameter count
  (gradio/inference.py:14-41) are torch plumbing.
- The predictor (`model.generate` with top-k, top-p and temperature) is a
  parameter. Its sampling randomness is represented by the draw index it
  receives.
- The wall-clock timeout (gradio/inference.py:147, 200-202) depends on
  `time.time()` and is not modelled.
- All `print` output is left out.
- Only one attempt is modelled. The outer `while True` retry
  (gradio/inference.py:141, 264) would restart the attempt on `Retry`
  forever.
- Generation.Attempt.Run: the inner `while True` is bounded by `fuel`
  iterations. `Unfinished` stands for an attempt that has not finished
  within the bound. What an unbounded run never reaching its end does is
  not modelled.
- The `Patchilizer` codec (`utils`, which is not part of this model) and
  the ABC toolkit's `Barline_regexPattern` split and
  `calculate_bartext_duration` are parameters. An exception of the duration
  is modelled as `None`, as the source's `except` makes it. An exception of
  the codec or the predictor is not modelled.
- Regular expressions are written out as string functions for the three
  patterns used: `\((.*?)\)`, `^\[r:[^\]]*\]` and
  `\[V:(\d+)\](.*?)(?=\[V:|$)`. `\d` is taken as the ASCII digits, and
  `int()` accepts ASCII digits only.
- Voices.SortVoicesCorrect: states a permutation in ascending numeric
  order. It does not state that the sort is stable for equal numbers,
  although the insertion sort modelled is stable as Python's sort is.
- Patches.Sentinel: requires `PATCH_SIZE >= 1`, which is a positive
  configuration constant in the source.
- The rebuild test's `not end_flag` (gradio/inference.py:204) is always
  true where it is evaluated, because the loop breaks as soon as the flag
  is set. It is dropped.
- The `__main__` demo (gradio/inference.py:387-424) is not modelled.

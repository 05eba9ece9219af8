# HTTPDiff calibration and diff engine, in Dafny

HTTPDiff learns what "normal" HTTP responses look like, then reports how a
new response differs from that baseline. This project models its engine and
proves properties of the model. The engine has two parts:

- `httpdiff/blob.py` holds the classification unit and the containers:
  - `Item` learns one position from the samples it is shown.
  - `Blob` splits a payload into tokens and aligns later payloads against
    the first one.
  - `ResponseTimeBlob` checks response times against a numeric band.
- `httpdiff/analyzer.py` holds `Analyzer`. It owns one Blob per response
  facet and feeds and queries them in a fixed order.

The modules follow those files:

| module | file | what it holds |
|---|---|---|
| `Text` | `text.dfy` | the token splitter on `,` `.` `;` and whitespace; `strip`, `isdigit`, `int(...)`, `str(int)` |
| `Alignment` | `alignment.dfy` | the opcode blocks `(tag, l1, l2, r1, r2)` a Blob gets from its edit alignment, and a stand-in alignment with a proved tiling contract |
| `ItemSpec` | `item_spec.dfy` | an Item's state as a value: mode classification, `add_line` as `Add`, `is_diff` as `Check`, the `7 * std_dev` band, the response-time checks |
| `BlobSpec` | `blob_spec.dfy` | what a Blob learns (`Learn`, folded over all payloads by `Replay`) and what it reports (`Compare`, `MissingFor`) |
| `Blobs` | `blobs.dfy` | the classes `Item`, `Blob` and `ResponseTimeBlob`, which update their fields in place; each method is proved against `ItemSpec`/`BlobSpec` |
| `Analyzers` | `analyzer.dfy` | the class `Analyzer`. The lines `add_response` feeds (`FeedFor`) and the Blobs `is_diff` asks (`Queries`) are functions of the response, and the methods are proved to follow them |

The top-level result is `Analyzers.Idempotent`. Calibrate a new Analyzer on
one response, then compare the same response: nothing is reported, provided
the response time is written in digits.

One place where the code's evident intent and its behaviour part:

- The guards at httpdiff/analyzer.py:146-150 and 182-186 compare the
  single calibration sample of a body-length Item with 2000. Their
  `[INFO] Only analyzing ... body length` messages (lines 151-158 and
  187-194) show the intended policy: a body longer than 2000 switches its
  facet to comparing only the body length.
- The guard reads `body_length_item.item.lines`. That `item` is the
  `Item()` a `Blob()` creates, and `Blob.add_line` never feeds it.
- So the guard never holds, and both flags stay `False`.
- The model follows the code. `RedirPolicy` and `BodyPolicy` keep the flags
  off under `TextValid`, and `IsDiff` always compares the full bodies.
  `Queries` still takes both flag values, so the other order is stated
  too.

## Model

| member | source | states |
|---|---|---|
| `Text.SplitRoundTrip` | httpdiff/blob.py:189 | splitting on the delimiter class loses only the delimiters: one more token than delimiters, no token holds a delimiter, and the tokens interleaved with the delimiters give the payload back |
| `Text.Split` | httpdiff/blob.py:212 | a split payload always has at least one token, so `original_lines` is never empty once set |
| `Text.DigitsParse` | httpdiff/blob.py:146-149 | text that passes `strip().isdigit()` parses with `int(...)` to its decimal value |
| `Text.IntToStringRoundTrip` | httpdiff/analyzer.py:78 | `int(str(i)) == i` for every status code or length the Analyzer formats |
| `Alignment.OpcodesTile` | httpdiff/blob.py:214 | the alignment blocks cover both token lists left to right; each block fits its tag (equal blocks hold equal tokens, replace/delete/insert have the right empty and non-empty sides); identical lists align with equal blocks only |
| `Alignment.IdenticalAllEqual` | httpdiff/blob.py:250 | a token list aligned with itself gives only `equal` blocks |
| `Alignment.OpcodesFit` | httpdiff/blob.py:216 | every block's ranges stay inside both token lists |
| `ItemSpec.AddSample` | httpdiff/blob.py:81 | adding to the sample set keeps samples distinct, keeps every old sample in place and adds exactly the new one |
| `ItemSpec.AllOfLengthMeans` | httpdiff/blob.py:94 | the Length guard holds iff every sample has the given length |
| `ItemSpec.NoneEmptyMeans` | httpdiff/blob.py:96 | the Anything guard holds iff no sample is empty |
| `ItemSpec.AllDigitsMeans` | httpdiff/blob.py:98 | the Integer guard holds iff every sample strips to digits |
| `ItemSpec.ClassifyModes` | httpdiff/blob.py:91-101 | Static iff one sample; Length iff more than one sample and all of one length; Anything iff lengths differ and no sample is empty; Integer iff all samples strip to digits; never Range; at most one of Static, Length, Anything |
| `ItemSpec.ParseAll` | httpdiff/blob.py:85 | the parsed list, when there is one, has one value per sample |
| `ItemSpec.ParseAllMeans` | httpdiff/blob.py:146 | the list comprehension of `int(i.strip())` succeeds iff every sample parses, and then holds each sample's value in place |
| `ItemSpec.Min` | httpdiff/blob.py:147 | `min` of the parsed samples is one of them and no larger than any |
| `ItemSpec.Max` | httpdiff/blob.py:148 | `max` of the parsed samples is one of them and no smaller than any |
| `ItemSpec.Variance` | httpdiff/blob.py:86 | the square of `statistics.stdev` is never negative |
| `ItemSpec.Refit` | httpdiff/blob.py:84-88 | a refitted spread, where `stdev` does not fail, is never negative |
| `ItemSpec.AddConsistent` | httpdiff/blob.py:75-102 | `add_line` keeps samples distinct, the spread non-negative and a moded Item non-empty; it stores the new sample and forgets none |
| `ItemSpec.AddReclassifies` | httpdiff/blob.py:91-101 | outside Range mode the modes after `add_line` are the classification of all samples, whatever they were before, and the spread is untouched |
| `ItemSpec.RangeSticky` | httpdiff/blob.py:82-90 | in Range mode `add_line` keeps the modes, only adds the sample, refits the spread when `stdev` succeeds and leaves it unchanged when it fails |
| `ItemSpec.BandMatchesStdDev` | httpdiff/blob.py:147-157 | the squared band tests are exactly `x < min - 7*std_dev` and `x > max + 7*std_dev` for every `std_dev >= 0` |
| `ItemSpec.BandVerdict` | httpdiff/blob.py:155-159 | the band gives the "below" finding iff too low and the "above" finding iff too high; never both; nothing within `[min, max]` |
| `ItemSpec.CheckOwned` | httpdiff/blob.py:125-161 | every finding of an Item names that Item and the candidate; outside Range mode its kind is the opcode asked |
| `ItemSpec.UnclassifiedQuiet` | httpdiff/blob.py:51-53 | an Item without modes, including one only seeded by its constructor, reports nothing |
| `ItemSpec.ClassifiedCheck` | httpdiff/blob.py:134-141 | a classified Item reports exactly its mode's mismatch: Static a different value, Length a different length whatever the content, Anything only the empty candidate; plus one Integer finding for a non-digit candidate; all of kind `op` |
| `ItemSpec.SingleSample` | httpdiff/blob.py:125-141 | calibrated on one value `v`, `v` gives nothing; any other `w` gives one Static finding, plus one Integer finding iff `v` is digits and `w` is not |
| `ItemSpec.RangeVerdict` | httpdiff/blob.py:142-159 | Range mode gives at most one finding; none for a non-digit candidate, an unparsable sample or a candidate within `[min, max]`; kind `op` iff below the band, `op + "2"` iff above |
| `ItemSpec.TimeLearnSpread` | httpdiff/blob.py:309-320 | a time line always joins the sample set; the spread is kept when `stdev` raises (fewer than two samples, or one that does not parse) and is otherwise the spread of all parsed samples |
| `ItemSpec.TimeReplay` | httpdiff/blob.py:309-320 | after any time lines the sample set holds exactly those lines, without repeats, and the spread is non-negative |
| `ItemSpec.TimeVerdict` | httpdiff/blob.py:322-341 | a non-digit time gives exactly the kind-0 finding; with no samples or an unparsable sample a digit time gives nothing; otherwise kind 1 iff below the band, kind 2 iff above, never both |
| `ItemSpec.TimeSingleSampleQuiet` | httpdiff/blob.py:322-341 | one digit calibration time is not a difference from itself |
| `BlobSpec.LearnSteps` | httpdiff/blob.py:216-233 | routing the steps of a block never changes `original_lines` |
| `BlobSpec.LearnBlock` | httpdiff/blob.py:215-233 | routing one block never changes `original_lines` |
| `BlobSpec.LearnBlocks` | httpdiff/blob.py:216-233 | routing all blocks never changes `original_lines` |
| `BlobSpec.ReplayNext` | httpdiff/blob.py:198-234 | each payload is learned on top of the state the earlier payloads left |
| `BlobSpec.OriginalSetOnce` | httpdiff/blob.py:204-210 | `original_lines` is the split of the first payload, never empty, and later payloads leave it alone; the first payload creates no Item |
| `BlobSpec.ReplayInRange` | httpdiff/blob.py:216-233 | whatever the payloads, `items` keys stay in `[0, len(original_lines))` and `appended_items` keys in `[0, len(original_lines)]` |
| `BlobSpec.FeedPositionEffect` | httpdiff/blob.py:225-233 | feeding a position creates `Item(original_lines[q])` when missing, extends only that Item and leaves the anchors alone |
| `BlobSpec.FeedAnchorEffect` | httpdiff/blob.py:219-221 | feeding an anchor creates `Item(value)` when missing, extends only that Item and leaves the positions alone |
| `BlobSpec.PositionRouting` | httpdiff/blob.py:222-233 | a replace block feeds `lines[r]` to `items[l]` for the zipped pairs and a delete block feeds `""` to each deleted position, creating missing Items seeded with the reference token; nothing else changes |
| `BlobSpec.AnchorRouting` | httpdiff/blob.py:216-221 | an insert block feeds every inserted token, in order, to the single Item at anchor `l1`, created seeded with the first inserted token when missing; nothing else changes |
| `BlobSpec.ItemOfConsistent` | httpdiff/blob.py:41-102 | every Item a Blob builds from its fed values is consistent |
| `BlobSpec.ViewOfOk` | httpdiff/blob.py:243-296 | every Item `is_diff` can ask, whatever was learned, has a sample if it has a mode |
| `BlobSpec.EqualQuiet` | httpdiff/blob.py:252-295 | blocks that are all `equal` report nothing and file no placeholder |
| `BlobSpec.BaselineQuiet` | httpdiff/blob.py:249-296 | a candidate that splits into exactly `original_lines` gives no finding and files no placeholder, whatever has been learned |
| `BlobSpec.NovelPositions` | httpdiff/blob.py:253-293 | each deleted or replaced token at a position with no learned Item gives exactly one `delete2`/`replace2` finding against that position's placeholder |
| `BlobSpec.NovelAnchor` | httpdiff/blob.py:267-277 | each inserted token at an anchor with no learned Item gives one `insert2` finding against the single placeholder of that anchor, and all of them are the same difference |
| `BlobSpec.PlaceholderReused` | httpdiff/blob.py:20-24 | findings against a placeholder compare equal under `Diff.__eq__` across calls and candidates, and positions and anchors with the same key share one placeholder |
| `Blobs.Item.constructor` | httpdiff/blob.py:41-52 | `Item()` starts with no sample and no mode |
| `Blobs.Item.Seeded` | httpdiff/blob.py:51-53 | `Item(line)` stores the line without classifying it |
| `Blobs.Item.AddLine` | httpdiff/blob.py:75-102 | the Item's new state is `Add` of its old state (see `AddConsistent`, `AddReclassifies`, `RangeSticky`) |
| `Blobs.Placeholders.constructor` | httpdiff/blob.py:182 | `previous_static_items` starts empty |
| `Blobs.Blob.constructor` | httpdiff/blob.py:172-187 | `Blob()` has learned nothing and filed nothing, and its `item` has no sample |
| `Blobs.Blob.Seeded` | httpdiff/blob.py:172-189 | `Blob(line)` takes the tokens of `line` as its original tokens, files nothing, and has learned exactly what `Blob()` followed by `add_line(line)` learns |
| `Blobs.Blob.BlankValid` | httpdiff/blob.py:179-186 | a Blob that has learned nothing is valid and its learned state is the empty one |
| `Blobs.Blob.ViewIsOk` | httpdiff/blob.py:243-296 | every Item stored in a valid Blob can be asked |
| `Blobs.Blob.ViewIsModel` | httpdiff/blob.py:243-296 | what `is_diff` reads of a valid Blob is fixed by the payloads it has learned |
| `Blobs.Blob.FeedPosition` | httpdiff/blob.py:225-233 | one step of the replace/delete loops, as `BlobSpec.FeedPosition` |
| `Blobs.Blob.FeedAnchor` | httpdiff/blob.py:219-221 | one step of the insert loop, as `BlobSpec.FeedAnchor` |
| `Blobs.Blob.FeedPositions` | httpdiff/blob.py:222-233 | the replace and delete loops leave the Blob in the state `LearnBlock` computes (see `PositionRouting`) |
| `Blobs.Blob.FeedAnchors` | httpdiff/blob.py:216-221 | the insert loop leaves the Blob in the state `LearnBlock` computes (see `AnchorRouting`) |
| `Blobs.Blob.FeedBlock` | httpdiff/blob.py:216-233 | one opcode block is routed as `LearnBlock` says; equal blocks change nothing |
| `Blobs.Blob.Route` | httpdiff/blob.py:212-233 | a later payload is split, aligned with `original_lines` and every block routed, as `Learn` says |
| `Blobs.Blob.AddLine` | httpdiff/blob.py:198-234 | `add_line` leaves the Blob valid in the state `Learn` computes and files no placeholder |
| `Blobs.Blob.AskBlock` | httpdiff/blob.py:252-295 | the findings of one block's loop, and the keys that had no learned Item |
| `Blobs.Blob.Scan` | httpdiff/blob.py:252-295 | the findings of all blocks in order, and every key that had no learned Item |
| `Blobs.Blob.Ask` | httpdiff/blob.py:249-295 | a candidate's findings are `Compare` of what the Blob has learned |
| `Blobs.Blob.Compared` | httpdiff/blob.py:249-296 | the findings, with the missing keys filed under `previous_static_items` |
| `Blobs.Blob.IsDiff` | httpdiff/blob.py:243-296 | `is_diff` reports `Compare` of the learned state and changes only `previous_static_items`, which gains exactly the keys that had no learned Item |
| `Blobs.Blob.SingleCalibrationQuiet` | httpdiff/blob.py:243-296 | a Blob calibrated on one payload finds nothing in that same payload |
| `Blobs.ResponseTimeBlob.constructor` | httpdiff/blob.py:304-307 | a new response-time Blob has no samples and a zero spread |
| `Blobs.ResponseTimeBlob.AddLine` | httpdiff/blob.py:309-320 | the samples and spread stay those `TimeReplay` gives for every time fed so far, this one included |
| `Blobs.ResponseTimeBlob.SingleCalibrationQuiet` | httpdiff/blob.py:322-341 | calibrated on one digit time, the same time gives nothing |
| `Analyzers.QueriesFed` | httpdiff/analyzer.py:123-207 | with both flags off, `is_diff` asks every Blob with exactly the line `add_response` feeds it for the same response; the body itself is asked and its length Blob never is |
| `Analyzers.Answers` | httpdiff/analyzer.py:135-206 | one list of findings per query |
| `Analyzers.NonEmptyKeeps` | httpdiff/analyzer.py:136-206 | `is_diff` yields only non-empty lists, and no more lists than Blobs asked |
| `Analyzers.NonEmptyQuiet` | httpdiff/analyzer.py:136-206 | nothing is yielded iff every Blob asked finds nothing |
| `Analyzers.NoResponseYields` | httpdiff/analyzer.py:135-140 | with no response, at most the error findings and then the response-time findings are yielded |
| `Analyzers.AddedLines` | httpdiff/analyzer.py:73-96 | the facet lines after `add_response` are the earlier ones plus exactly the line `FeedFor` names, or nothing |
| `Analyzers.AnswersAppend` | httpdiff/analyzer.py:141-206 | the findings of the redirect part followed by those of the main part are the findings of all queries in order |
| `Analyzers.ReplayedNext` | httpdiff/analyzer.py:74-96 | feeding one facet one line keeps every facet's learned state equal to a replay of its lines |
| `Analyzers.Analyzer.Learned` | httpdiff/analyzer.py:67-96 | a facet Blob has learned exactly what its fed lines teach a new Blob |
| `Analyzers.Analyzer.Shows` | httpdiff/analyzer.py:123-207 | what a facet Blob reads when asked is fixed by what it has learned |
| `Analyzers.Analyzer.Feed` | httpdiff/analyzer.py:74 | `add_line` on one text facet records exactly that line for that facet and keeps every facet in step |
| `Analyzers.Analyzer.FeedPair` | httpdiff/analyzer.py:78-79 | two facets fed one after the other each get their one line |
| `Analyzers.Analyzer.FeedTime` | httpdiff/analyzer.py:75 | the response-time Blob is fed the time, once |
| `Analyzers.Analyzer.FeedRedirect` | httpdiff/analyzer.py:77-88 | each of the five redirect facets gets exactly one line, the one given |
| `Analyzers.Analyzer.FeedRedirectBodies` | httpdiff/analyzer.py:80-82 | the redirect headers, body and body length each get one line |
| `Analyzers.Analyzer.FeedMessage` | httpdiff/analyzer.py:90-94 | status, reason, headers, body and body length each get exactly one line from the response |
| `Analyzers.Analyzer.FeedBodies` | httpdiff/analyzer.py:92-94 | headers, body and body length each get one line |
| `Analyzers.Analyzer.FeedParts` | httpdiff/analyzer.py:77-94 | the redirect facets get the first redirect's parts, or the sentinels `"-1"`, `""`, `""`, `""`, `"-1"` without one; then the response's own parts |
| `Analyzers.Analyzer.FeedResponse` | httpdiff/analyzer.py:77-96 | with a response every text facet gets the line `FeedFor` names, and the time Blob the time |
| `Analyzers.Analyzer.AddResponse` | httpdiff/analyzer.py:67-96 | every text facet is fed exactly the line `FeedFor` names, or nothing (with no response only the errors facet); the time is fed once |
| `Analyzers.Analyzer.Probe` | httpdiff/analyzer.py:136 | asking one facet Blob gives the findings of what it has learned, and learns nothing |
| `Analyzers.Analyzer.Ask` | httpdiff/analyzer.py:142-145 | one more facet asked after the earlier ones |
| `Analyzers.Analyzer.AskPair` | httpdiff/analyzer.py:142-145 | two more facets asked, in order |
| `Analyzers.Analyzer.RedirPolicy` | httpdiff/analyzer.py:146-158 | the redirect body-length-only flag stays off |
| `Analyzers.Analyzer.BodyPolicy` | httpdiff/analyzer.py:182-194 | the body-length-only flag stays off |
| `Analyzers.Analyzer.AskFirst` | httpdiff/analyzer.py:141-166 | with a redirect: its status, reason, body and headers are asked, in that order |
| `Analyzers.Analyzer.AskRedirectRest` | httpdiff/analyzer.py:146-166 | after the policy, the full redirect body and then its headers are asked |
| `Analyzers.Analyzer.AskSentinels` | httpdiff/analyzer.py:167-177 | without a redirect the five redirect facets are asked with the sentinels, in order status, reason, body, length, headers |
| `Analyzers.Analyzer.AskSentinelBodies` | httpdiff/analyzer.py:172-177 | the sentinel body, length and headers, in that order |
| `Analyzers.Analyzer.AskRedirects` | httpdiff/analyzer.py:141-177 | the redirect part of `is_diff` asks what `RedirectQueries` names, and learns nothing |
| `Analyzers.Analyzer.AskParts` | httpdiff/analyzer.py:178-202 | status, reason, full body and headers of the response, in that order |
| `Analyzers.Analyzer.AskRest` | httpdiff/analyzer.py:182-202 | after the policy, the full body and then the headers |
| `Analyzers.Analyzer.AskMain` | httpdiff/analyzer.py:178-206 | the main part of `is_diff` asks what `MainQueries` names: then the response time and the error, and learns nothing |
| `Analyzers.Analyzer.IsDiff` | httpdiff/analyzer.py:123-207 | `is_diff` yields the non-empty findings of the Blobs `Queries` names, in that order, with both flags off; no Blob learns anything, the response-time samples are unchanged, and every `previous_static_items` keeps the keys it had |
| `Analyzers.Analyzer.CalibratedQuiet` | httpdiff/analyzer.py:123-207 | an Analyzer calibrated on one response finds nothing in that same response when its time is digits |
| `Analyzers.Analyzer.FreshValid` | httpdiff/analyzer.py:12-33 | a new Analyzer is valid, and every facet Blob has been fed nothing and learned nothing |
| `Analyzers.Analyzer.constructor` | httpdiff/analyzer.py:12-33 | twelve new blank Blobs, each tagged with its facet, and both flags off |
| `Analyzers.Idempotent` | httpdiff/analyzer.py:67-207 | `add_response(r, t, e)` on a new Analyzer followed by `is_diff(r, t, e)` yields nothing, for every response and error and every digit time `t` |

## Left out

- Locks. The `Lock` calls in `blob.py` serialise concurrent callers. The
  model is sequential.
- `statistics.stdev`. A square root of a real cannot be computed exactly
  here. The model keeps the square of `std_dev`, the sample variance. Its
  band tests are proved equal to `x < min - 7*std_dev` and
  `x > max + 7*std_dev` (`BandMatchesStdDev`). Floating-point rounding is
  not modelled.
- `rapidfuzz.distance.Levenshtein.opcodes` is a foreign library.
  `Alignment.Opcodes` stands in for it. It aligns a common prefix, one
  middle edit (a replace of the shorter side, then a delete or an insert)
  and a common suffix. It is proved to meet the contract the Blob relies on
  (`OpcodesTile`), but it is not a minimal Levenshtein alignment. Which
  tokens land in which Item therefore differs from rapidfuzz on inputs with
  several separate edits.
- Regular expressions and bytes. The splitter is the fixed delimiter class
  over one character type. Byte payloads (`b""`) and the pattern's switch
  to bytes are treated as text. `Text.IsSpace` is the whitespace of bytes
  (space and 9-13), which is right for the two body facets. For the `str`
  facets (time, status, reason, headers, error, redirect target) Python's
  `str.strip()`, `int(...)` and `\s` also count 0x1C-0x1F and the Unicode
  spaces as whitespace. So a time written `"5\x1f"` is not digits in the
  model, and `"a\x1fb"` is one token in the model but two in the source.
  `str.isdigit` and `int(...)` also accept non-ASCII digits, and `int(...)`
  accepts `_` between digits; the model takes ASCII digits only.
- Header collections. The model passes the headers to the splitter as
  their text.
- The extension hooks `custom_add`, `custom_is_diff` and the Analyzer's
  `custom_add_response` and `custom_is_diff` are no-ops. The default
  `custom_is_diff` of the Analyzer returns `None`, so `yield from` raises
  `TypeError`, which is caught; it contributes nothing, and the built-in
  checks run as modelled. Custom hooks that add modes (such as Range) are
  not modelled. Range mode is still modelled for every Item state.
- `set_response` is an empty stub. Diff messages, `__repr__`, `__len__` and
  the verbose prints are text for people.
- Generator laziness. `Analyzer.IsDiff` returns the full sequence of
  yielded lists.
- Item identity inside a Blob. `items` and `appended_items` hold Item
  states by key, and a finding names its Item as a Blob and a place
  (`ItemSpec.Unit`). A Blob never replaces a stored Item, so this is the
  identity `Diff.__eq__` compares. Placeholder Items hold nothing and are
  kept as keys (`Blobs.Placeholders`).
- Set order. `Item.lines` is a Python set; the model keeps the distinct
  samples in the order first seen. `next(iter(lines))` is read as the
  first sample. The findings do not depend on which sample it is: Static
  mode has one sample, and Length mode has one length.
- ItemSpec.Check: requires an Item with a mode to have a sample. Every
  Item a Blob builds satisfies this (`ItemOfConsistent`). The source's
  "None" finding for an Item with modes and no samples (blob.py lines
  132-133) is therefore never reached and is not modelled.
- The `> 2000` comparison of the body-length guard. It compares a string
  with a number, but it sits after the never-true sample-count test. The
  model parses the sample instead.
- The response time is taken as the text `str(response_time)` gives. The
  defaults of `add_response` and `is_diff` are not modelled.
- Analyzers.Idempotent: requires the time to be written in digits. A
  non-digit time always gives the kind-0 response-time finding
  (`TimeVerdict`), so the property does not hold without it.
- Blobs.Blob.Seeded: the source creates no `item` on the `Blob(line)`
  path; the model still gives the Blob an unfed `item`, which nothing on
  this path reads. The Analyzer only ever builds `Blob()`.
- Analyzers.Analyzer.IsDiff: states that each `previous_static_items`
  only gains keys; exactly which keys each Blob gains is stated per Blob
  by `Blobs.Blob.IsDiff`, not summed over the queries at this level.
- Blobs.ResponseTimeBlob.IsDiff: a function without its own contract;
  `ItemSpec.TimeVerdict` states its behaviour.
- `analyze_all` and `verbose` are plain fields that nothing in the core
  sets. `analyze_all` is read only by the policy guard, which fails
  earlier.

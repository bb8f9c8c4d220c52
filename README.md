# Text-to-image demo: the deterministic core, in Dafny

The text-to-image demo repository is mostly user interface, drawing and
calls into diffusion, speech and Hugging Face libraries. Under that sits a
thin layer of deterministic string, list and integer logic, which several
scripts repeat with different constants. This project models that layer and
proves what it promises.

- **Prompt text layer** (`src/tokenizer.py`, module `Tokenizer`): the
  style suffix of `enhance_prompt`, the negative-prompt table, whitespace
  normalisation in `preprocess_text`, prompt variations and keyword
  extraction.
- **Generator bookkeeping** (`src/generator.py`, module `Generator`): the
  model-name default, device priority, the pipeline keyword arguments, the
  safe file-name stem and the saved paths.
- **Dataset tables** (`src/dataset.py`, module `Dataset`):
  - `DatasetCreator` is a class over two maps, CSV path to rows and image
    path to image.
  - `create_sample_dataset`, `create_placeholder_images` and
    `add_custom_data` change those maps in place.
  - `load_data` reads them back the way `csv.DictReader` does.
- **Batch and gallery** (`batch_realistic_generator.py`, `gallery_viewer.py`,
  modules `Batch` and `Gallery`): the batch loop and file names, the colour
  tables and darkening, the car shape choice, the summary grid, label
  shortening, the gallery's file-name parser, sorting, and the per-category
  tally.
- **Front ends** (modules `MultimediaSimplified`, `MultimediaInterface`,
  `SimpleWorking`, `SimpleDemo`, `EnhancedDemo`, `Demo`). Each script has:
  - a blank-prompt guard;
  - a style-scheme fallback;
  - a first-match keyword classifier;
  - a greedy word wrap with its own width test and line cap;
  - its image and file loops;
  - the status lines it reports.

Shared vocabulary:
- `Text`: Python's `split()`, `strip()`, `join`, `lower()`, `title()`, `in`,
  `split(c)` and `str(n)`, on ASCII.
- `Wrap`: one greedy wrap specification, `Groups`. It is parameterised by the
  width test `scale * len < bound` and proved to be the unique wrap that keeps
  every word in order and breaks a line only when the next word does not fit.
  Two loop shapes prove equal to it:
  - `WrapPadded` tests `cur + " " + word`;
  - `WrapJoined` also tests the candidate line but joins without a leading space.
- `Classifier`: first-match classification over ordered keyword groups.
- `Colors`: RGB triples and the clamped darkening.
- `Files`: `os.path.join` and the `%Y%m%d_%H%M%S` time stamp.
- `Frontend`: the pieces the front ends share (scheme fallback, enhancer
  fallback, row layout, numbered file names, the drawing loops).

Environment outcomes become parameters:
- whether the tokenizer module imported, and whether `enhance_prompt` raised (`Enhancer`);
- the clock reading (`Clock`);
- whether a real generation succeeded (`realOk`);
- an exception raised while drawing or saving (`imageError`);
- what the speech helpers returned (`Speech`);
- device availability, and which files exist or fail to open.

## Model

| member | source | states |
|---|---|---|
| Text.Words | src/tokenizer.py:53 | `split()` yields non-empty words free of whitespace |
| Text.WordsOfJoinSpace | src/tokenizer.py:53 | splitting `" ".join(ws)` gives back `ws` for any list of words |
| Text.JoinSpaceWordsOfNormalized | src/tokenizer.py:53 | joining the words of normalised text with single spaces recovers the text |
| Text.WordsOfStrip | src/tokenizer.py:50-53 | stripping before splitting does not change the words |
| Text.WordsEmptyIffBlank | src/tokenizer.py:55-57 | a string has no words exactly when it is blank (`not s.strip()`) |
| Text.RStrip | src/generator.py:158 | `rstrip()` keeps a prefix, ends in a non-space, and drops only whitespace |
| Text.Lower | src/tokenizer.py:179 | `lower()` keeps the length and lower-cases each character |
| Text.TitleAfter | gallery_viewer.py:42 | `title()` keeps the length, keeps every non-letter, and maps letters to letters |
| Text.SplitOn | gallery_viewer.py:37 | `split(c)` has at least one part, and no part contains `c` |
| Text.JoinSplitOn | gallery_viewer.py:37 | joining the parts of `split(c)` with `c` gives back the string |
| Text.SplitOnAppend | gallery_viewer.py:37 | splitting at an occurrence of `c` splits both sides independently |
| Text.SplitOnReplace | batch_realistic_generator.py:38 | replacing `a` by a fresh `c` and splitting on `c` equals splitting on `a` |
| Text.RemoveAllSuffix | gallery_viewer.py:37 | `replace(".png", "")` removes exactly a trailing `.png` when `.` occurs nowhere else |
| Text.NatToString | batch_realistic_generator.py:38 | `str(n)` is a non-empty string of digits |
| Text.ParseNatOfNatToString | gallery_viewer.py:40 | reading back `str(n)` gives `n` |
| Text.NatToStringInjective | src/dataset.py:235 | distinct numbers print differently |
| Classifier.Classify | enhanced_generator.py:105-147 | the chosen branch matches, every earlier branch does not, and the fallback index means none matched |
| Classifier.ClassifyUnique | enhanced_generator.py:105-147 | any index with those properties is the one `Classify` returns |
| Classifier.ClassifyFallback | enhanced_generator.py:145-147 | the fallback is taken exactly when no group matches |
| Classifier.ClassifyPrefix | enhanced_generator.py:105-147 | groups after a matching one never change the result |
| Classifier.MatchesSingle | simple_interface.py:171 | a one-keyword group matches exactly when its keyword is a substring |
| Classifier.MatchesPair | simple_interface.py:179 | a two-keyword group matches exactly when either keyword is a substring |
| Colors.ShadeDown | batch_realistic_generator.py:148 | `max(0, c - d)` lies in `[0, c]`: exactly `c - d` when that is non-negative, else 0 |
| Colors.Darker | batch_realistic_generator.py:148 | darkening a valid colour gives a valid colour, no component lighter |
| Colors.DarkerCompose | batch_realistic_generator.py:148 | darkening by `d`, then by `e`, is darkening by `d + e` |
| Colors.DarkerMonotone | batch_realistic_generator.py:368 | a larger step never gives a lighter component |
| Files.PathJoinEndsWithName | src/generator.py:167 | `os.path.join(dir, name)` ends with `name` |
| Files.PathJoinInjective | src/generator.py:167 | within one directory, distinct relative names give distinct paths |
| Tokenizer.Enhancement | src/tokenizer.py:223 | the suffix is the table's value for a known style, and always one of the table's values |
| Tokenizer.EnhancePrompt | src/tokenizer.py:205-224 | the result is the prompt verbatim, then `", "`, then the style's suffix |
| Tokenizer.EnhanceUnknownStyle | src/tokenizer.py:223 | an unknown style enhances exactly like "realistic" |
| Tokenizer.EnhancePromptInjective | src/tokenizer.py:224 | the prompt can be read back from its enhancement |
| Tokenizer.NegativePrompt | src/tokenizer.py:185-202 | the table's entry for a known category, and always one of the table's values |
| Tokenizer.NegativeUnknownCategory | src/tokenizer.py:202 | an unknown category gets the "general" string verbatim |
| Tokenizer.Preprocess | src/tokenizer.py:39-59 | the result is non-empty and normalised, is "a simple image" for blank input, and keeps the words of any other input |
| Tokenizer.PreprocessFacts | src/tokenizer.py:50-53 | strip-then-split equals split, and joining the words is empty exactly for blank input and round-trips |
| Tokenizer.PreprocessJoinsWords | src/tokenizer.py:53 | non-blank input becomes its words joined by single spaces |
| Tokenizer.PreprocessIdempotent | src/tokenizer.py:39-59 | preprocessing twice equals preprocessing once |
| Tokenizer.PreprocessInput | src/tokenizer.py:72-75 | one prompt stays one prompt, a list keeps its length, and element `i` is the preprocessed input element `i`, non-empty and normalised |
| Tokenizer.PreprocessInputIdempotent | src/tokenizer.py:72-75 | preprocessing the input again changes nothing |
| Tokenizer.PromptVariations | src/tokenizer.py:156-161 | the result has length `1 + |vs|`: the base first, then the base + ", " + each modifier in order |
| Tokenizer.DefaultPromptVariations | src/tokenizer.py:146-153 | with no modifiers, the base prompt and then the base followed by `", "` and each of the five default modifiers, in order; with modifiers given, the same with those |
| Tokenizer.ExtractKeywords | src/tokenizer.py:163-182 | every keyword is a lower-cased word of the text, longer than two characters and not a stop word |
| Tokenizer.ExtractKeywordsComplete | src/tokenizer.py:179-182 | every qualifying word of the text is a keyword |
| Tokenizer.ExtractKeywordsCaseInsensitive | src/tokenizer.py:179 | lower-casing the text first changes nothing |
| Generator.ResolveModelName | src/generator.py:29 | `model_name or DEFAULT_MODEL`: the given name when non-empty, the default otherwise |
| Generator.BestDevice | src/generator.py:39-46 | cuda when available, else mps when available, else cpu, each case exactly |
| Generator.NewGenerator | src/generator.py:21-31 | the resolved name and device; a `KeyError` exactly when the name is not a configured model |
| Generator.DefaultGeneratorStarts | src/generator.py:29-31 | with no model name the constructor always succeeds, with 10 inference steps |
| Generator.KwargKeys | src/generator.py:112-125 | `guidance_scale` is passed iff the configured guidance is positive; `negative_prompt` iff it is non-empty and guidance is passed |
| Generator.GenerationKwargs | src/generator.py:112-125 | the dictionary built step by step has exactly those keys, with the prompt, count, steps, size, guidance and negative values |
| Generator.FluxGetsNoNegative | src/generator.py:120-125 | the guidance-free FLUX model never receives guidance or a negative prompt |
| Generator.StableDiffusionGetsNegative | src/generator.py:124-125 | the Stable Diffusion models forward any non-empty negative prompt |
| Generator.KeepSafe | src/generator.py:158 | the filter keeps only alphanumerics, space, `-` and `_`, and leaves an all-safe prompt unchanged |
| Generator.SafePrompt | src/generator.py:158-159 | the stem is at most 50 safe characters, the filtered, right-stripped prompt when that is at most 50 characters, otherwise its first 50 characters |
| Generator.SafePromptTrailingSpace | src/generator.py:158-159 | cutting after stripping can leave a trailing space |
| Generator.ImageFileName | src/generator.py:166 | the name starts with the stem and `_` |
| Generator.SaveImages | src/generator.py:163-173 | one path per image, in image order, path `i` numbered `i + 1` |
| Generator.SavedPathsDistinct | src/generator.py:166-167 | two images of one call never share a path |
| Generator.ImageFileNameInjective | src/generator.py:166 | distinct image numbers give distinct names |
| Dataset.NonBlank | src/dataset.py:57-58 | the rows the reader yields are a subsequence with no empty row |
| Dataset.DataRows | src/dataset.py:57-58 | the data rows follow the header row |
| Dataset.LastIndexOf | src/dataset.py:57-62 | a duplicated header key takes its last column |
| Dataset.FieldOf | src/dataset.py:60-62 | `row[key]` is present exactly when the row reaches that column |
| Dataset.RecordsOf | src/dataset.py:58-63 | one record per data row, in file order |
| Dataset.LoadRows | src/dataset.py:55-64 | no data rows give no records; otherwise a `KeyError` when the header lacks a column, or record `k` read from data row `k` against the header |
| Dataset.Load | src/dataset.py:51-56 | a missing file gives no records |
| Dataset.LoadData | src/dataset.py:51-67 | reading the file returns what `Load` describes; `__len__` is its length |
| Dataset.ReadRows | src/dataset.py:57-63 | the `csv.DictReader` loop returns what `LoadRows` describes, a `KeyError` included |
| Dataset.SampleTable | src/dataset.py:143-162 | the header, then the first `n` sample rows naming `sample_1.jpg` and onwards |
| Dataset.WritePlaceholders | src/dataset.py:185-214 | writing the placeholders adds exactly their paths to the image map |
| Dataset.DatasetCreator.constructor | src/dataset.py:99-112 | train and validation directories under the base directory |
| Dataset.DatasetCreator.WriteSampleCsv | src/dataset.py:144-162 | one CSV becomes the header plus `n` sample rows, and nothing else changes |
| Dataset.DatasetCreator.CreateSampleDataset | src/dataset.py:114-171 | train gets four samples, validation the first two, then the placeholder images |
| Dataset.DatasetCreator.CreatePlaceholderImages | src/dataset.py:173-214 | the image map gains the placeholder files; the CSVs are untouched |
| Dataset.DatasetCreator.AddCustomData | src/dataset.py:216-251 | the split chooses the CSV; the image is `custom_{k+1}.jpg` for `k` data rows; a missing source fails before any write; otherwise one row is appended |
| Dataset.AppendCustom | src/dataset.py:244-248 | earlier rows are kept, the custom row is last, and a header is added iff there were no data rows |
| Dataset.LoadAfterAppendFixed | src/dataset.py:244-248 | with the corrected header rule, loading after an append gives the old records plus the new one |
| Dataset.HeaderOnlyFileGainsBogusRecord | src/dataset.py:246-247 | as written, a header-only file reads back a second header as a data record |
| Dataset.AppendAgreesWithFixed | src/dataset.py:246-247 | the two rules agree whenever the file already holds data rows |
| Dataset.LoadSampleTable | src/dataset.py:143-162 | the sample train file loads as four records naming `sample_1.jpg` to `sample_4.jpg` |
| Dataset.ValidationIsTrainPrefix | src/dataset.py:158-162 | the validation file is the train file cut after its second sample |
| Dataset.PlaceholderPaths | src/dataset.py:185-214 | the placeholders produce six files: four in train, the first two in validation |
| Dataset.SampleImagesExist | src/dataset.py:209-214 | every sample row of either CSV names an image that exists |
| Dataset.TrainValDisjoint | src/dataset.py:107-108 | the train and validation directories share no path |
| Dataset.ValidationGetsOnlyFirstTwo | src/dataset.py:213 | `sample_3.jpg` and `sample_4.jpg` are not written to validation |
| Gallery.ParseInfo | gallery_viewer.py:35-44 | with fewer than four `_`-parts the caption is the filename itself |
| Gallery.ParseInfoRoundTrip | gallery_viewer.py:36-42 | a `{name}_{n}_{variation}_{stamp}.png` name parses to the title-cased name, `#n`, and the title-cased variation |
| Gallery.PartsOfBatchName | gallery_viewer.py:37 | the stem splits into the name, the number, the variation's words, the date and the time |
| Gallery.BatchNameRoundTrip | gallery_viewer.py:36-42 | every batch file's caption names its object, its number from 1 and its variation |
| Gallery.BatchCaption | gallery_viewer.py:36-42 | so does the caption of every file of the shipped batch |
| Gallery.SummarySheetCaption | gallery_viewer.py:36-42 | the summary sheet file is captioned "Summary #all: Images" |
| Gallery.ShortNameIsOwnCaption | gallery_viewer.py:43-44 | a name without `_` is its own caption |
| Gallery.LexLessTotal | gallery_viewer.py:23 | Python's string order is total |
| Gallery.LexLessTransitive | gallery_viewer.py:23 | Python's string order is transitive |
| Gallery.SortStrings | gallery_viewer.py:23 | `sort()` returns a sorted permutation of its input |
| Gallery.Globbed | gallery_viewer.py:17 | the glob gives at most one path per folder entry |
| Gallery.GlobbedMembers | gallery_viewer.py:17 | a path is globbed exactly when it names a PNG entry of the folder |
| Gallery.Readable | gallery_viewer.py:28-49 | the loop keeps at most one image per listed file |
| Gallery.ReadableMembers | gallery_viewer.py:28-49 | a file that fails to load is dropped; every other listed file is kept |
| Gallery.Captions | gallery_viewer.py:35-46 | one caption per loaded image, parsed from its base name |
| Gallery.LoadBatch | gallery_viewer.py:10-51 | a missing folder or no PNGs give no images and a message; otherwise images and captions stay parallel |
| Gallery.LoadBatchImages | gallery_viewer.py:10-51 | the loading loop returns what `LoadBatch` describes |
| Gallery.LoadBatchContents | gallery_viewer.py:17-49 | the images are exactly the readable PNGs, sorted |
| Gallery.PathOrderIsNameOrder | gallery_viewer.py:23 | within the folder, path order is file-name order |
| Gallery.CategoryKey | gallery_viewer.py:101 | the category key is no longer than the caption |
| Gallery.CategoryOfCaption | gallery_viewer.py:101 | the category of a parsed batch caption is the title-cased object name |
| Gallery.Bump | gallery_viewer.py:102 | `categories[key] = get(key, 0) + 1` keeps every key and appends a new key with count 1 |
| Gallery.BumpCount | gallery_viewer.py:102 | a bump adds one to that key's count and leaves the other counts alone |
| Gallery.TallyCorrect | gallery_viewer.py:99-103 | keys are distinct, each count is the number of occurrences, and the counts sum to the number of captions |
| Gallery.CategoryStats | gallery_viewer.py:99-103 | the statistics loop gives that tally, whose counts sum to the number of captions |
| Batch.BatchFileName | batch_realistic_generator.py:38 | the name starts with the object name and `_` and ends with `.png` |
| Batch.JobsOf | batch_realistic_generator.py:32 | one job per variation, in list order, numbered from 0 |
| Batch.JobsAt | batch_realistic_generator.py:31-32 | the job of object `o`, variation `i` comes after all earlier objects' jobs |
| Batch.JobsCount | batch_realistic_generator.py:31-32 | `m` variations per object give `m * |objects|` jobs |
| Batch.BatchHasTwenty | batch_realistic_generator.py:12-32 | the shipped batch has 20 images: dog first, the "SUV" fourteenth, laptop last |
| Batch.CreateBatch | batch_realistic_generator.py:31-44 | the nested loops produce every job in order, with file names parallel to the images |
| Batch.Get | batch_realistic_generator.py:147 | `d.get(key, default)` gives the table entry or the default |
| Batch.CarDimensions | batch_realistic_generator.py:371-379 | the SUV shape when the variation contains "suv" (case-sensitive), else the sports shape when it contains "sports car", else the default shape |
| Batch.Illustrate | batch_realistic_generator.py:102-111 | an unknown category draws nothing |
| Batch.IllustrationColorsValid | batch_realistic_generator.py:147-148 | every colour drawn, outline shades included, is a valid colour |
| Batch.UnknownVariationDefaults | batch_realistic_generator.py:147 | unknown variations fall back to each category's fixed default colour |
| Batch.SuvGetsDefaults | batch_realistic_generator.py:360-379 | as written, "SUV" gets the default red body and the default shape |
| Batch.OutlineSteps | batch_realistic_generator.py:148 | the dog, cat and car outlines darken by 40, 50 and 60 |
| Batch.CarIllustrationFixed | batch_realistic_generator.py:360-379 | with the lookup lower-cased, the car is always drawn |
| Batch.CarFixedSuv | batch_realistic_generator.py:360-379 | with the correction, "SUV" is navy with the SUV body |
| Batch.CarFixedAgreesOnLowerCase | batch_realistic_generator.py:360-379 | the correction draws what the source draws for lower-case variations |
| Batch.GridRows | batch_realistic_generator.py:549-550 | `ceil(n / 4)` rows: enough for `n` thumbnails, and no more than needed |
| Batch.SummaryHeight | batch_realistic_generator.py:561-564 | the canvas height is `145 * rows + 150` |
| Batch.ThumbInside | batch_realistic_generator.py:593-608 | every thumbnail and its label row lie inside the canvas, below the title band |
| Batch.ThumbsDisjoint | batch_realistic_generator.py:593-598 | no two thumbnails overlap |
| Batch.BatchSheetSize | batch_realistic_generator.py:549-564 | twenty thumbnails need five rows on an 810 x 875 sheet |
| Batch.ShortenLabel | batch_realistic_generator.py:604 | the label is unchanged up to 20 characters; otherwise it is the first 20 plus "...", so never longer than 23 |
| Batch.ShortenLabelMarked | batch_realistic_generator.py:604 | a shortened label ends in "..." |
| Batch.SummaryLayout | batch_realistic_generator.py:593-610 | the placement loop gives one placement per image |
| Batch.BatchSheetLabelled | batch_realistic_generator.py:603-610 | every image of the batch gets a label of at most 23 characters, inside the sheet |
| Wrap.Render | unified_multimedia_simplified.py:273-286 | each drawn line is its word group joined by single spaces |
| Wrap.GreedyCorrect | unified_multimedia_simplified.py:273-286 | the greedy walk keeps the words in order and every line passes the width test |
| Wrap.GroupsCorrect | unified_multimedia_simplified.py:273-286 | the wrapped lines partition the prompt's words in order, and every multi-word line fits |
| Wrap.GroupsUnique | unified_multimedia_simplified.py:278-283 | any wrap that partitions the words, fits, and breaks only when the next word does not fit is the greedy one |
| Wrap.LinesOfPrompt | unified_multimedia_simplified.py:273-286 | the lines spell the prompt's words; each line is non-empty and each multi-word line fits |
| Wrap.FitsMonotone | unified_multimedia_simplified.py:278 | a shorter candidate fits whenever a longer one does |
| Wrap.WrapPadded | unified_multimedia_simplified.py:273-286 | the `cur + " " + word` loop computes the greedy lines |
| Wrap.WrapJoined | simple_interface.py:121-136 | the loop that joins without a leading space computes the same greedy lines |
| Wrap.Take | unified_multimedia_simplified.py:288 | `lines[:k]` is the first `min(k, n)` lines |
| Frontend.SchemeFor | unified_multimedia_simplified.py:104 | a known style gets its scheme; any other style gets the realistic one |
| Frontend.QualityFallback | unified_multimedia_interface.py:229 | the fallback starts with the prompt verbatim |
| Frontend.EnhancedOrKept | unified_multimedia_interface.py:224-229 | the prompt when processing is unavailable, the enhancement when it works, the fallback when it raises |
| Frontend.EnhancedDiffers | unified_multimedia_interface.py:242-243 | the enhanced prompt differs from the original exactly when processing is available |
| Frontend.Pick | unified_multimedia_interface.py:88-144 | the subject of the first matching branch, or "creative" exactly when none matches |
| Frontend.Rows | unified_multimedia_interface.py:168-169 | line `i` is drawn at `top + i * step` |
| Frontend.DrawnLinesFacts | unified_multimedia_interface.py:153-169 | at most `cap` lines are drawn, each a non-empty prefix line of the wrap, each multi-word line fits; all words when nothing is cut |
| Frontend.DrawLines | simple_interface.py:137-139 | the drawing loop advances `y_pos` by one step per line |
| Frontend.DrawBlock | simple_interface.py:121-139 | wrapping, capping and drawing a block gives its rows and the next `y_pos` |
| Frontend.DrawWhileWrapping | enhanced_generator.py:157-171 | drawing inside the wrap loop gives every wrapped line, 18 apart |
| Frontend.Feed | enhanced_generator.py:160-169 | one word of that loop advances the greedy wrap and closes a line only when the word does not fit |
| Frontend.CloseRow | enhanced_generator.py:166-167 | closing a line draws it one step below the lines already closed |
| Frontend.RowsSnoc | simple_interface.py:137-139 | drawing one more line puts it one step below the last |
| Frontend.NumberedName | simple_interface.py:208 | the name is the stem, `_`, a number, and `.png` |
| Frontend.NumberedPaths | simple_interface.py:208-211 | path `i` is `{dir}/{stem}_{i+1}.png`, one per image |
| Frontend.NumberedNamesDistinct | simple_interface.py:208-209 | no two images of one run share a file |
| MultimediaSimplified.Quoted | unified_multimedia_simplified.py:289 | each drawn line is the wrapped line in double quotes |
| MultimediaSimplified.Tie | unified_multimedia_simplified.py:221 | the tie is drawn exactly for a person whose prompt mentions business or professional |
| MultimediaSimplified.CreateDemoImage | unified_multimedia_simplified.py:93-295 | the scheme with fallback, the five-branch subject, the tie, and the quoted prompt lines |
| MultimediaSimplified.PicturePrompt | unified_multimedia_simplified.py:273-289 | at most three lines from y = 420, 20 apart, in wrap order, each multi-word line shorter than 45 |
| MultimediaSimplified.UnknownStyleLooksRealistic | unified_multimedia_simplified.py:104 | an unknown style draws with the realistic scheme |
| MultimediaSimplified.NarrationDescribesPicture | unified_multimedia_simplified.py:346-363 | the narration describes exactly the subject the picture shows |
| MultimediaSimplified.NarrationKeywords | unified_multimedia_simplified.py:350-361 | the narration's keyword chain is the picture's, branch for branch |
| MultimediaSimplified.EnhancementReport | unified_multimedia_simplified.py:315-321 | an enhancement line appears exactly when processing is available |
| MultimediaSimplified.ImageReport | unified_multimedia_simplified.py:331-337 | three lines on success, one on failure |
| MultimediaSimplified.AudioReport | unified_multimedia_simplified.py:341-384 | the skipped line when audio is off; otherwise the helper's status, plus a ready line exactly when it made a file |
| MultimediaSimplified.NumberedAppend | unified_multimedia_simplified.py:393-394 | numbering a list numbers its halves, the second continuing the count |
| MultimediaSimplified.NumberedItem | unified_multimedia_simplified.py:393-394 | result `i` is announced with number `i + 1` |
| MultimediaSimplified.NumberResults | unified_multimedia_simplified.py:393-394 | the loop numbers the results consecutively from 1 |
| MultimediaSimplified.GenerateMultimediaContent | unified_multimedia_simplified.py:297-419 | a blank prompt is refused first; otherwise the picture unless drawing raised, the audio file, and the numbered details |
| MultimediaSimplified.DetailsReport | unified_multimedia_simplified.py:317-384 | the details open with the enhanced prompt when it works, and end with the skipped line when audio is off |
| MultimediaInterface.CreateDemoImage | unified_multimedia_interface.py:45-171 | the scheme with fallback, the four-branch subject, and the capped prompt rows |
| MultimediaInterface.PicturePrompt | unified_multimedia_interface.py:153-169 | at most three lines from y = 440, 18 apart, in wrap order, each multi-word line shorter than 50 |
| MultimediaInterface.CreativeFallback | unified_multimedia_interface.py:137-144 | a prompt naming no keyword is drawn as the creative fallback |
| MultimediaInterface.NarrationDescribesPicture | unified_multimedia_interface.py:254-269 | the narration describes exactly the subject the picture shows |
| MultimediaInterface.AudioReport | unified_multimedia_interface.py:289-290 | the skipped line when audio is off |
| MultimediaInterface.EnhancedReported | unified_multimedia_interface.py:239-243 | "Enhanced prompt" is reported iff processing is available, with the enhancement or the fallback |
| MultimediaInterface.BulletedAppend | unified_multimedia_interface.py:297-298 | bulleting a list bullets its halves in turn |
| MultimediaInterface.BulletResults | unified_multimedia_interface.py:297-298 | the loop bullets every result in order |
| MultimediaInterface.GenerateMultimediaContent | unified_multimedia_interface.py:208-300 | a blank prompt is refused first; otherwise the picture unless drawing raised, the audio file, and the bulleted details |
| SimpleWorking.CreateDemoImage | simple_working_interface.py:24-154 | the scheme with fallback, the four-branch subject, and the capped prompt rows |
| SimpleWorking.PicturePrompt | simple_working_interface.py:136-152 | at most three lines from y = 440, 18 apart, in wrap order, each multi-word line shorter than 50 |
| SimpleWorking.EnhancedLine | simple_working_interface.py:164-188 | the "Enhanced prompt" line appears exactly when processing is available, showing the enhanced prompt |
| SimpleWorking.GenerateImage | simple_working_interface.py:156-191 | a blank prompt is refused; otherwise exactly `num_images` pictures, picture `i` saved as `demo_{style}_{stamp}_{i+1}.png` |
| SimpleWorking.SavedPathsDistinct | simple_working_interface.py:179-180 | the files of one call are pairwise distinct |
| SimpleDemo.BaseColorsValid | simple_interface.py:61-66 | every base colour is a valid colour |
| SimpleDemo.GradientFacts | simple_interface.py:75-83 | every gradient row is a valid colour, starts at the base, and grows by at most 63 down the image |
| SimpleDemo.EnhancedText | simple_interface.py:99-110 | the enhancement when it works, otherwise the quality fallback; always the prompt plus more |
| SimpleDemo.NegativeText | simple_interface.py:99-110 | the general negative prompt when it works, "low quality, blurry" otherwise |
| SimpleDemo.IconChoice | simple_interface.py:168-199 | icon: "dog", else "human" or "person", else "car", else "landscape", else none |
| SimpleDemo.DrawPicture | simple_interface.py:71-205 | one picture: base colour, number, the two wrapped blocks with their heading, the icon, the negative prompt |
| SimpleDemo.OriginalRows | simple_interface.py:119-139 | at most three original lines, between y = 145 and the heading, each multi-word line within `10 * len < 472` |
| SimpleDemo.EnhancedRows | simple_interface.py:145-165 | at most four enhanced lines below the heading and above y = 480, each multi-word line within `8 * len < 472` |
| SimpleDemo.DrawTexts | simple_interface.py:113-165 | `y_pos` puts the original lines 30 apart from 145, the heading 20 below them, and the enhanced lines 22 apart 25 below the heading |
| SimpleDemo.OriginalLayout | simple_interface.py:113-143 | at most three original rows, all between the top band and the heading, each multi-word line within `10 * len < 472` |
| SimpleDemo.EnhancedLayout | simple_interface.py:142-165 | at most four enhanced rows, all between the heading and the footer line, each multi-word line within `8 * len < 472` |
| SimpleDemo.PictureLayout | simple_interface.py:113-165 | the text blocks never collide: original rows above the heading, enhanced rows below it |
| SimpleDemo.Pictures | simple_interface.py:71-205 | picture `i` of the first `n`, numbered `i + 1` |
| SimpleDemo.GenerateDemoImage | simple_interface.py:51-222 | a blank prompt is refused; otherwise exactly `num_images` pictures, each saved once as `demo_{style}_{stamp}_{i+1}.png` |
| SimpleDemo.SavedPathsDistinct | simple_interface.py:208-209 | the files of one call are pairwise distinct |
| EnhancedDemo.DrawGeneric | enhanced_generator.py:360-380 | the shape loop draws the four generic shapes |
| EnhancedDemo.GenericShapesFacts | enhanced_generator.py:363-380 | shape `i` is a rectangle iff `i` is even, filled with colour `i mod 4`, outlined in the accent colour |
| EnhancedDemo.CreateRealisticDemoImage | enhanced_generator.py:51-173 | the scheme with fallback, the ten-branch subject, every wrapped line, and the shapes for the creative fallback |
| EnhancedDemo.PicturePrompt | enhanced_generator.py:154-171 | every wrapped line is drawn from y = 440, 18 apart, with no cap; each multi-word line is shorter than 60 |
| EnhancedDemo.EarlierBranchesWin | enhanced_generator.py:105-147 | a keyword of branch `k` yields one of the first `k + 1` subjects |
| EnhancedDemo.DrawDemos | enhanced_generator.py:405-424 | the demo loop draws `n` identical pictures, saves each once, and adds one enhancement message each when processing works |
| EnhancedDemo.GenerateEnhancedImages | enhanced_generator.py:382-434 | a blank prompt is refused; otherwise the real image first when it succeeded, then the demo images, files and messages |
| EnhancedDemo.TryReal | enhanced_generator.py:393-402 | on success the real image, its file and its message come first and one demo image fewer is drawn |
| EnhancedDemo.OutcomeImages | enhanced_generator.py:394-418 | one image per request when at least one is requested: the real image first, the demo picture after |
| EnhancedDemo.OutcomeFiles | enhanced_generator.py:397-424 | `real_ai_{stamp}.png` first when the real generation succeeded, then demo file `i` numbered `i + 1` |
| EnhancedDemo.TotalIsRequested | enhanced_generator.py:394-405 | for one or more requested images, real plus demo images is the number requested |
| EnhancedDemo.SavedPathsDistinct | enhanced_generator.py:397-422 | the real file and the demo files all differ |
| Demo.ChunksAt | demo.py:121-124 | `ceil(n / 3)` lines; line `k` holds words `3k` to `3k + 2` |
| Demo.ChunksCover | demo.py:121-124 | the lines put back together are the words in order |
| Demo.ChunkSizes | demo.py:121-124 | each line has one to three words; all but the last have three |
| Demo.DrawWords | demo.py:117-131 | the chunk loop draws each three-word line from y = 200, 40 apart |
| Demo.PromptLayout | demo.py:117-131 | line `k` is at y = 200 + 40k and shows words `3k` to `3k + 2` |
| Demo.BackgroundValid | demo.py:108 | the background `(100 + 50i, 150, 200)` is a valid colour exactly for `i < 4` |
| Demo.Pictures | demo.py:105-135 | picture `i` of the first `n` |
| Demo.PicturesDiffer | demo.py:108-134 | distinct images differ in background and caption and show the same prompt lines |
| Demo.StatusAsWrittenOneLine | demo.py:149 | as written, the status is one line holding a literal backslash and `n` |
| Demo.StatusLines | demo.py:149 | the corrected status is exactly two lines: the count, then the files |
| Demo.DemoGenerate | demo.py:97-150 | a blank prompt is refused; otherwise `num_images` pictures, each saved once as `demo_{stamp}_{i+1}.png`, and the status listing them, with the escaped `\\n` as written |
| Demo.SavedPathsDistinct | demo.py:144-145 | the files of one call are pairwise distinct |

## Left out

- User interface: Gradio pages, CSS, HTML and `launch` are not modelled.
- Pixel drawing: pixels, fonts, `textbbox` measurements, horizontal centring, `resize` and `paste` are not modelled. Pictures are modelled as the decisions they encode: colours, subject, text rows with their heights, shapes.
- Float gradients: the floating-point gradients of most scripts are left out. The gradient in `simple_interface.py` is kept, because its arithmetic is exact.
- Illustration geometry: the per-subject drawing coordinates and the random fur and keyboard details are left out.
- Speech: text-to-speech (`generate_audio_simple`, `generate_audio_fallback`, the AI converter), polling and file-size checks are left out. Their outcome is the `Speech` parameter.
- Real image generation: Hugging Face and MCP calls (`try_real_generation`, `generate_real_image_with_api`) are left out. Their outcome is the `realOk` parameter.
- Diffusion pipeline: loading and calling `DiffusionPipeline` are foreign library calls, so they are left out. The model configuration table is data.
- Clock: `datetime.now()` is the `Clock` parameter.
- Absolute paths: `os.path.abspath` is external, so it is not modelled.
- Status and header text: the human-readable status headers ("Original Prompt", "Generated at", "Files:" with base names) are external text, so they are not modelled. The models keep only the report lines, the files and the counts each script's logic decides.
- Enhancer outcomes: the `Raising` enhancer outcome stands for any exception from `enhance_prompt`. The shipped `enhance_prompt` is total, so that outcome never arises from the modelled code.
- CSV encoding: quoting and escaping in the `csv` module are not modelled. A CSV file is a sequence of rows, each a list of fields, and every field is taken to read back as written.
- Loading failures: which gallery files fail to open is the folder's `unreadable` set. The exception text is not modelled.
- Out of the core: `src/fine_tuner.py`, `src/app.py`, `main.py`, `setup.py`, the test scripts and `create_dataset_simple.py` are not part of this model. `src/config.py` is used only for its constants.
- Foreign libraries in the core files: the CLIP tokenizer, encode/decode and embeddings in `src/tokenizer.py` are not modelled. The image transforms, data loader and black-image fallback in `src/dataset.py` are not modelled either.
- Text: characters outside ASCII are left out. Letters are ASCII for `lower()` and `title()`. Whitespace is the `str.isspace` set.
- Generator.SafePrompt: `isalnum()` is read as ASCII letters and digits. Non-ASCII letters, which Python keeps, are dropped in the model.
- SimpleWorking.CreateDemoImage: the creative branch's coloured ellipses are not recorded in the picture. Only the subject is.
- Gallery.LoadBatch: the images are file paths. Opening and decoding them is not modelled.

## Findings

| source | as written | input that shows it | evidently intended | confidence | as-written member | corrected member |
|---|---|---|---|---|---|---|
| src/dataset.py:246-247 | a header is written when the file has no data rows, so a file holding only its header gains a second header | a validation CSV holding just `text,image_path,category`, then `add_custom_data(..., split="validation")` | write the header only when the file is new or empty, as the comment says | not executed | Dataset.HeaderOnlyFileGainsBogusRecord | Dataset.LoadAfterAppendFixed |
| batch_realistic_generator.py:360-379 | the colour table and the shape test use lower-case keys, but the batch passes "SUV" | variation "SUV" | the SUV drawn navy with the SUV body | not executed | Batch.SuvGetsDefaults | Batch.CarFixedSuv |
| demo.py:149 | the status holds an escaped `\\n`, which shows a backslash and `n` instead of breaking the line | any non-blank prompt | the count and the file list on two lines | not executed | Demo.StatusAsWrittenOneLine | Demo.StatusLines |

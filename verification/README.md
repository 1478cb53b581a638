# Palm-line reading: a Dafny model

This project models the logic of a palmistry service. The service does three things:

- An offline conversion script reads COCO polyline annotations of palm lines (life, heart, head, fate). For every annotation of a palm line it computes a crop box, a normalised length, an average slope, an average curvature and a break count. It writes one CSV row per annotation whose image file exists.
- A web handler receives a photo and the line type the user asks about. It checks the request, decodes the five classifier heads by argmax and hands the decoded attributes to the rule engine.
- The rule engine turns a line type and four categorical attributes into an ordered list of Vietnamese statements, with no duplicates.

Modules:

- `Wrappers`: `Option` and `Result`.
- `RuleEngine` and `RuleEngineFacts` model `interpret` in scripts/rule_engine.py. The ten rules are a datatype with a guard over the attribute strings, exactly as written. `Interpret` collects the statements of the rules that fire, in table order, and then removes later duplicates.
- `Geometry` and `GeometryFacts` model `bbox_from_points`, `poly_length`, `avg_slope_deg` and `avg_curvature_deg`.
  - Coordinates are reals.
  - `sqrt`, `atan2` in degrees and `acos` in degrees are parameters (`RealFns`). `Sound` lists the facts about them that the proofs use.
  - `int()` truncates toward zero.
- `CropsAttrs` and `CropsAttrsFacts` model the two passes of `process_split`:
  - the first pass counts annotations per (image, class);
  - the second pass extracts points, computes metrics and breaks, and skips images whose file is absent. Which files exist is the parameter `present`.
  - The modelled failures become `Err` values: the `KeyError` of an unlisted category or image, and the `ZeroDivisionError` of an image of size 0. The other exceptions the pass can raise are listed under "Left out".
- `Text` provides ASCII `strip()` and `lower()`.
- `App` and `AppFacts` model `LABELS`, `argmax_and_name` and `api_predict`:
  - The model output `preds` and the attribute config are parameters.
  - A 400 reply is `Ok(BadRequest(..))`.
  - An exception (HTTP 500) is `Err(Fault)`.

## Model

| member | source | states |
|---|---|---|
| RuleEngine.FiredRulesMember | scripts/rule_engine.py:10-50 | a rule is collected exactly when it lies in the scanned prefix of the table and its guard fires |
| RuleEngine.Dedup | scripts/rule_engine.py:53-56 | the result has no duplicates and holds exactly the strings of the input |
| RuleEngine.DedupKeepsFirstOccurrences | scripts/rule_engine.py:53-56 | the kept strings stay in the order of their first occurrences in the input |
| RuleEngineFacts.TextInjective | scripts/rule_engine.py:11-50 | the ten rules append ten different statements |
| RuleEngineFacts.FiresIffGuard | scripts/rule_engine.py:10-50 | reading the strings as words and testing the words agrees with the source's string comparisons, rule by rule |
| RuleEngineFacts.DedupIdentity | scripts/rule_engine.py:53-56 | the dedup loop leaves a list unchanged if and only if it has no duplicates |
| RuleEngineFacts.DedupIdempotent | scripts/rule_engine.py:53-56 | deduplicating twice gives the same list as once |
| RuleEngineFacts.StatementsDistinct | scripts/rule_engine.py:6-50 | the collected list never holds a statement twice |
| RuleEngineFacts.InterpretIsStatements | scripts/rule_engine.py:53-56 | so the dedup step never removes anything |
| RuleEngineFacts.InterpretMember | scripts/rule_engine.py:10-50 | a rule's statement is in the output if and only if that rule's guard holds |
| RuleEngineFacts.InterpretOnlyRuleStatements | scripts/rule_engine.py:6-56 | every output string is the statement of a rule whose guard holds |
| RuleEngineFacts.InterpretOrder | scripts/rule_engine.py:6-56 | when two rules fire, the earlier rule's statement comes first in the output |
| RuleEngineFacts.InterpretReadsOnlyAttributeKeys | scripts/rule_engine.py:10-49 | only `length_cls`, `slope_cls`, `curv_cls` and `breaks_cls` affect the output; other keys are ignored |
| RuleEngineFacts.UnknownLineTypeYieldsNothing | scripts/rule_engine.py:10-50 | a line type other than life, heart, head or fate gives the empty list |
| RuleEngineFacts.HeadYieldsOne | scripts/rule_engine.py:23-33 | for "head" the output is exactly one statement: rule 4's or else rule 6's |
| RuleEngineFacts.FateYieldsTwo | scripts/rule_engine.py:18-50 | for "fate" the output is exactly two statements, one from rules 3/10 and one from rules 5/9, chosen by `breaks_cls` |
| RuleEngineFacts.LongUnbrokenLife | scripts/rule_engine.py:10-46 | a long life line with no breaks gives exactly statements 1, 3 and 9, in that order |
| RuleEngineFacts.MissingAttributes | scripts/rule_engine.py:10-49 | with every key missing, only the `!=` tests pass: heart gives rule 8, head gives rule 6, fate gives rules 3 and 5, and life gives nothing |
| RuleEngineFacts.HeartStatements | scripts/rule_engine.py:14-41 | the heart line's output is rules 2, 7 and 8, each under its own guard |
| RuleEngineFacts.LifeStatements | scripts/rule_engine.py:10-46 | the life line's output is rules 1, 3, 5 and 9, each under its own guard |
| Geometry.MinOf | scripts/polylines_to_crops_attrs.py:15 | `min` of a non-empty list is one of its elements and at most every element |
| Geometry.MaxOf | scripts/polylines_to_crops_attrs.py:15 | `max` of a non-empty list is one of its elements and at least every element |
| Geometry.Trunc | scripts/polylines_to_crops_attrs.py:19 | `int()` truncates toward zero: within 1 below a non-negative value, within 1 above a negative one |
| Geometry.PaddedRange | scripts/polylines_to_crops_attrs.py:14-16 | with a non-negative pad, the padded interval contains the points' full extent on that axis |
| Geometry.BboxFromPoints | scripts/polylines_to_crops_attrs.py:13-19 | the crop box never leaves the image: x1, y1 >= 0, x2 <= W and y2 <= H |
| Geometry.BboxCoversFromTopLeft | scripts/polylines_to_crops_attrs.py:14-19 | for a non-negative pad and non-negative points, the top-left corner is at or before every point |
| Geometry.BboxOrdered | scripts/polylines_to_crops_attrs.py:14-19 | for a non-negative pad and points inside the image, x1 <= x2 and y1 <= y2 |
| GeometryFacts.BboxInvertedLeftOfImage | scripts/polylines_to_crops_attrs.py:13-19 | points left of the image, x in [-10, -5], give the inverted box x1 = 0, x2 = -4 |
| Geometry.PolyLength | scripts/polylines_to_crops_attrs.py:21-26 | the length is non-negative, and 0 for fewer than two points |
| Geometry.LengthNorm | scripts/polylines_to_crops_attrs.py:99 | the normalised length times the image's longer side is the polyline length; it is non-negative on a real image |
| Geometry.MeanWithin | scripts/polylines_to_crops_attrs.py:35 | the average of values that all lie in [lo, hi] also lies in [lo, hi] |
| Geometry.SlopeAngles | scripts/polylines_to_crops_attrs.py:28-34 | at most one angle per segment, none for fewer than two points, each in [-180, 180] |
| Geometry.AvgSlopeRange | scripts/polylines_to_crops_attrs.py:28-35 | the average slope lies in [-180, 180] |
| Geometry.Clamp | scripts/polylines_to_crops_attrs.py:46 | the clamped cosine lies in [-1, 1], and a value already in range is unchanged |
| Geometry.Turn | scripts/polylines_to_crops_attrs.py:41-47 | an interior point contributes at most one angle, in [0, 180] |
| Geometry.TurnAngles | scripts/polylines_to_crops_attrs.py:37-47 | at most one angle per interior point, none for fewer than three points, each in [0, 180] |
| Geometry.AvgCurvatureRange | scripts/polylines_to_crops_attrs.py:37-48 | the average curvature lies in [0, 180] |
| GeometryFacts.PolyLengthConcat | scripts/polylines_to_crops_attrs.py:21-26 | the length of two joined paths is the sum of their lengths plus the joining segment |
| GeometryFacts.SegLenSymmetric | scripts/polylines_to_crops_attrs.py:24-25 | a segment has the same length in both directions |
| GeometryFacts.PolyLengthReverse | scripts/polylines_to_crops_attrs.py:21-26 | reversing the points does not change the length |
| GeometryFacts.HorizontalLength | scripts/polylines_to_crops_attrs.py:21-26 | a horizontal path traced left to right is as long as its x extent |
| GeometryFacts.LengthNormExample | scripts/polylines_to_crops_attrs.py:98-99 | a 40-unit segment on a 100 x 100 image has normalised length 0.4 |
| GeometryFacts.SlopeAnglesEmptyIff | scripts/polylines_to_crops_attrs.py:31-33 | no angle is collected if and only if every consecutive pair of points coincides |
| GeometryFacts.StationarySlope | scripts/polylines_to_crops_attrs.py:28-35 | when every consecutive pair coincides, the average slope is 0 |
| GeometryFacts.SlopeAnglesStutter | scripts/polylines_to_crops_attrs.py:31-34 | a repeated point adds no angle: zero-displacement pairs are left out of the list |
| GeometryFacts.AvgSlopeStutter | scripts/polylines_to_crops_attrs.py:28-35 | so a repeated point changes neither the sum nor the count of the average slope |
| GeometryFacts.HorizontalSlope | scripts/polylines_to_crops_attrs.py:28-35 | a horizontal path traced left to right has average slope 0 |
| GeometryFacts.TurnSkippedIff | scripts/polylines_to_crops_attrs.py:42-44 | an interior point is skipped if and only if it coincides with a neighbour |
| GeometryFacts.TurnAnglesCount | scripts/polylines_to_crops_attrs.py:40-47 | with no two consecutive points equal, every interior point contributes an angle |
| GeometryFacts.StraightTurn | scripts/polylines_to_crops_attrs.py:41-47 | three collinear points traced left to right turn by 0 degrees |
| GeometryFacts.StraightCurvature | scripts/polylines_to_crops_attrs.py:37-48 | a horizontal path with increasing x has average curvature 0 |
| GeometryFacts.RightTurn | scripts/polylines_to_crops_attrs.py:41-47 | two unit segments at a right angle turn by 90 degrees |
| GeometryFacts.RightAngleCurvature | scripts/polylines_to_crops_attrs.py:37-48 | three sides of the unit square have average curvature 90 |
| Text.Strip | app.py:39 | the result is a slice of the input with only whitespace cut away, and it neither starts nor ends with whitespace |
| Text.StripIdempotent | app.py:39 | stripping twice is stripping once |
| Text.StripBlank | app.py:14 | a line strips to the empty string if and only if it is all whitespace |
| Text.Lower | app.py:39 | lowering keeps the length, maps A-Z to a-z and leaves every other character alone |
| Text.LowerIdempotent | app.py:39 | lowering twice is lowering once |
| Text.StripLowerCommute | app.py:39 | stripping and lowering can be done in either order |
| Text.NormalizeIdempotent | app.py:39 | normalising an already normalised line type changes nothing |
| CropsAttrs.IndexBy | scripts/polylines_to_crops_attrs.py:62-63 | the id table has exactly the ids that occur, and each entry is filed under its own id |
| CropsAttrs.IndexByLastWins | scripts/polylines_to_crops_attrs.py:62-63 | on a repeated id, the dict comprehension keeps the last record |
| CropsAttrs.CategoryNames | scripts/polylines_to_crops_attrs.py:64 | the category table has exactly the listed category ids |
| CropsAttrsFacts.CategoryNameIsLastLowered | scripts/polylines_to_crops_attrs.py:64 | an id maps to the lower-cased name of the last category carrying it |
| CropsAttrs.Pairs | scripts/polylines_to_crops_attrs.py:89 | zipping even and odd coordinates gives half as many points, point i being (c[2i], c[2i+1]) |
| CropsAttrsFacts.PairsOfFlatten | scripts/polylines_to_crops_attrs.py:89 | pairing a flattened point list gives the points back |
| CropsAttrsFacts.FlattenOfPairs | scripts/polylines_to_crops_attrs.py:89 | flattening the pairs gives the coordinates back, less an odd trailing one |
| CropsAttrsFacts.OddCoordinateDropped | scripts/polylines_to_crops_attrs.py:89 | an odd trailing coordinate is dropped |
| CropsAttrsFacts.OnlyFirstPolygon | scripts/polylines_to_crops_attrs.py:86-88 | a nested segmentation contributes only its first polygon |
| CropsAttrsFacts.PointsSource | scripts/polylines_to_crops_attrs.py:86-91 | the points are the pairs of the first polygon or flat list; when there are none, the bbox corners (x, y) and (x+w, y+h) |
| CropsAttrs.ExtractPoints | scripts/polylines_to_crops_attrs.py:86-91 | the extracted point list is never empty |
| CropsAttrs.FirstUnknownCategory | scripts/polylines_to_crops_attrs.py:68-69 | it reports nothing if and only if every annotation's category is listed; otherwise it reports the unlisted category of the first annotation that has one |
| CropsAttrs.ClassOf | scripts/polylines_to_crops_attrs.py:69-70 | an annotation has a class if and only if its category is listed and the category's lower-cased name is one of the four classes |
| CropsAttrs.ClassedKeys | scripts/polylines_to_crops_attrs.py:68-71 | one (image, class) key per classed annotation, and no other keys; each key occurs exactly as often as annotations with that image and class |
| CropsAttrs.CountWhereSnoc | scripts/polylines_to_crops_attrs.py:68-72 | counting over a list is counting over all but its last element, plus one if the last element qualifies |
| CropsAttrs.KeyCountSnoc | scripts/polylines_to_crops_attrs.py:68-72 | one more annotation adds one to its own key's count and nothing to any other key's |
| CropsAttrs.Counts | scripts/polylines_to_crops_attrs.py:67-72 | the counter holds exactly the keys seen, each with its number of occurrences |
| CropsAttrs.MetricsOf | scripts/polylines_to_crops_attrs.py:92-101 | the crop box stays in the image and the normalised length is non-negative |
| CropsAttrs.RowFor | scripts/polylines_to_crops_attrs.py:79-102 | a row carries the annotation's class, image id and id, and the break count of its (image, class) key |
| CropsAttrs.FirstFailure | scripts/polylines_to_crops_attrs.py:79-99 | no failure if and only if no annotation hits a modelled failure; otherwise the error of the first annotation that does |
| CropsAttrs.WrittenAnnotations | scripts/polylines_to_crops_attrs.py:79-84 | exactly the classed annotations whose image is listed and whose file is present |
| CropsAttrs.WrittenIndices | scripts/polylines_to_crops_attrs.py:79-84 | the positions of the annotations that pass the three skips, each once and in increasing order, and no others |
| CropsAttrs.WrittenAnnotationsAtIndices | scripts/polylines_to_crops_attrs.py:79-84 | the written annotations are the annotations at those positions, one for one and in the same order |
| CropsAttrs.WriteRows | scripts/polylines_to_crops_attrs.py:79-111 | the pass fails if and only if some annotation hits a modelled failure; otherwise row j is the row of the j-th annotation that passes the skips, so there is one row per written annotation, in annotation order |
| CropsAttrs.WrittenNeverFails | scripts/polylines_to_crops_attrs.py:79-84 | every annotation that reaches the writing step has a listed image of non-zero size |
| CropsAttrs.RowsOnlyWritten | scripts/polylines_to_crops_attrs.py:79-84 | every row is the row of an annotation that was written |
| CropsAttrs.RowsAllWritten | scripts/polylines_to_crops_attrs.py:79-84 | every annotation that was written has its row |
| CropsAttrs.RowsInAnnotationOrder | scripts/polylines_to_crops_attrs.py:79-111 | of two written annotations, the earlier one's row is written first |
| CropsAttrsFacts.ClassedKeyCounted | scripts/polylines_to_crops_attrs.py:66-72 | every classed annotation's key is counted |
| CropsAttrsFacts.RowBreaks | scripts/polylines_to_crops_attrs.py:102 | a row's breaks is the number of annotations with its image and class (`KeyCount`), minus one |
| CropsAttrsFacts.BreaksCountOthers | scripts/polylines_to_crops_attrs.py:66-102 | every written row has breaks >= 0, equal to the number of annotations with the same image and class (`KeyCount`) minus its own; the default 1 is never used |
| CropsAttrsFacts.ProcessSplitFails | scripts/polylines_to_crops_attrs.py:61-99 | the split fails if and only if a category is not listed or some annotation hits a modelled failure; a category that is not listed is the error reported first |
| CropsAttrsFacts.BreaksOneMore | scripts/polylines_to_crops_attrs.py:72 | counting one more key raises that key's breaks by one and leaves the others alone |
| CropsAttrsFacts.MissingImageStillCounted | scripts/polylines_to_crops_attrs.py:67-84 | an extra annotation whose image file is absent writes no row but adds one break to every row with its key |
| App.NonBlank | app.py:14 | keeps exactly the non-empty lines |
| App.LoadLabels | app.py:14 | the labels are exactly the non-empty stripped lines; each is non-empty and already stripped |
| App.FirstArgmax | app.py:25 | the chosen index holds a largest score, and every earlier score is strictly smaller |
| App.ArgmaxAndName | app.py:24-25 | succeeds if and only if the vector is non-empty and the winning index names a class, returning that name and its maximal score |
| App.HeadKeysDistinct | app.py:46-52 | the five heads fill five different keys |
| App.DecodeHead | app.py:46-52 | a head decodes if and only if its output exists, its key is configured and argmax succeeds; the name is one of the configured classes |
| App.DecodeHeads | app.py:46-52 | the first n heads decode, in order, if and only if each does; otherwise the error is that of the first failing head |
| App.DecodeHeadsKeys | app.py:46-52 | the decoded dict has exactly the keys of the decoded heads |
| App.ApiPredict | app.py:37-55 | missing fields give the 400 reply; an accepted line type is normalised and listed, and the interpretation is the rule engine's on that line type |
| AppFacts.FirstArgmaxIsFirstMax | app.py:25 | the chosen index is exactly the first position of a maximum |
| AppFacts.ArgmaxTieTakesFirst | app.py:25 | on a tie the lower index wins |
| AppFacts.ArgmaxPastNames | app.py:25 | a winning index past the class names is an error |
| AppFacts.DecodedAttributes | app.py:46-52 | a decoded dict has the five keys, each with one of its configured class names |
| AppFacts.TruncatedOutputFails | app.py:46-52 | a model output with fewer than five heads fails at the first missing head |
| AppFacts.ConfigWithoutLineTypeFails | app.py:47 | a config without a "line_type" entry makes every accepted request fail |
| AppFacts.MessagesDiffer | app.py:38-41 | the two 400 messages are different |
| AppFacts.ApiPredictOutcomes | app.py:37-55 | gives all four outcomes (missing fields, invalid line type, model fault, prediction), each with a condition that is both necessary and sufficient |
| AppFacts.RejectionIgnoresModel | app.py:37-44 | the 400 replies do not depend on the model output or the config, because both checks come before prediction |
| AppFacts.LineTypeNormalizedFirst | app.py:39-41 | sending the normalised line type gives the same reply as sending the raw one |
| AppFacts.UserLineTypeDrivesInterpretation | app.py:46-54 | the interpretation does not depend on the decoded "line_type" head; it uses the user's line type |

## Left out

- File and directory handling, JSON parsing, PIL crop/resize/save and CSV writing in scripts/polylines_to_crops_attrs.py are left out. Which image files exist is the parameter `present`, and the crop box is computed but no image is cut. `ImgSize` is kept as a constant only.
- Rows written to the CSV before an exception stay in the file in Python. On a failure the model returns only the error.
- The `round(..., 4)` and `round(..., 2)` of the CSV columns and the crop path string are left out: they are output formatting.
- Floating point is left out: coordinates and metrics are reals. There is no rounding error, no NaN and no negative zero.
- Geometry.PolyLength, Geometry.SlopeAngles and Geometry.TurnAngles: `sqrt`, `atan2` and `acos` are parameters constrained by `Sound`, not real implementations. Their contracts state ranges and the exact values the listed facts allow, not numerical values. The slope range is the closed [-180, 180], because Python's `atan2` returns -180 for a negative-zero `dy`.
- CropsAttrs.RowFor: the contract states the class, ids and breaks. It does not restate the metric values, which are `MetricsOf` applied to the extracted points and the image size.
- CropsAttrs.ProcessSplit: its contract is stated by the lemmas in `CropsAttrsFacts`, not on the function itself.
- Splits whose annotation file is missing are left out, and the loop over splits too: the model takes one parsed annotation file.
- RLE (`dict`) segmentations are left out: the model has only polygon lists and flat lists.
- CropsAttrs.WriteRows: only the unlisted image and the image of size 0 are modelled failures. These exceptions of the second pass are not:
  - a non-empty RLE `dict` segmentation on an annotation of a line class with a present image: the slice `seg[0::2]` at line 89 raises, so the split aborts;
  - an annotation without `bbox` whose segmentation gives no points (line 91);
  - an image file that PIL cannot open (line 93);
  - a crop box with x2 < x1 or y2 < y1, which `im.crop` rejects (line 94). Points left of the image give one: x in [-10, -5] with the default pad 0.15 gives x1 = 0 and x2 = -4 (`GeometryFacts.BboxInvertedLeftOfImage`). The model writes a row there.
- Text.Strip and Text.Lower: whitespace and case are ASCII only, plus the separator characters 0x1C to 0x1F that Python's `str.strip` also removes. Unicode whitespace and case mapping are left out.
- `splitlines()` is left out: `LoadLabels` takes the list of lines.
- Flask routing, the static file routes, image decoding, `preprocess` and `model.predict` are left out. The model output is the parameter `preds`, and a photo that cannot be decoded is not modelled.
- App.FirstArgmax: NaN scores are left out (`np.argmax` returns the first NaN).
- Negative indices into `preds` or the class names do not occur: `np.argmax` never returns one.
- web/app.js, scripts/train.py and scripts/preprocess_data.py are not part of this model. The attribute config written by scripts/train.py has no "line_type" key. With that config the handler fails on every accepted request, as `AppFacts.ConfigWithoutLineTypeFails` states.
- The mapping from metrics to attribute classes is not in the modelled files. Attribute values stay plain strings.
- `interpret` raises nothing for an unknown line type: it returns the empty list (`UnknownLineTypeYieldsNothing`).
- `argmax_and_name` never compares the score vector's length with the class names. It fails only when the winning index is past them (`ArgmaxAndName`).

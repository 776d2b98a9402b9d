# Streaming-quality preset resolver

A Dafny model of `src/components/qualityOptions.js`, the part of the media
player's settings menu that lists the streaming-quality presets and marks the
one that matches the current bitrate cap.

- `getVideoQualityOptions` corrects the source width for pillarboxing. A
  source narrower than 16:9 is read at width height * 16 / 9. The function
  then builds a descending list of video tiers. Each tier is gated by a width
  threshold (3800, 2500, 1900, 1260, 620), and the 360p tier is always there.
  An "Auto" entry may be prepended. Given a cap, the function picks the first
  tier whose bitrate is positive and at most the cap, or else the last entry.
  With automatic bitrate off, the pick gets `selected = true`. With it on, the
  Auto entry's `autoText` gets the pick's name.
- `getAudioQualityOptions` does the same Auto prepend and selection over nine
  fixed audio tiers.

Files:

- `wrappers.dfy`: the `Option` datatype. It stands for JavaScript properties
  that may be `undefined`.
- `quality_options.dfy` (module `QualityOptions`): the data model and the
  specification functions, plus the two exported functions as methods. The
  methods work like the source. They build a local `seq` push by push, scan it
  with a loop that breaks at the first match, and then update one record.
  Each method is proved equal to its specification function.
- `quality_properties.dfy` (module `QualityProperties`): lemmas about the
  specification functions.

Modelling decisions:

- Widths are exact. A pillarboxed width is kept as `Pillarboxed(h)` and means
  16h/9. A threshold test `maxAllowedWidth >= T` becomes `16*h >= 9*T`, and
  the aspect test becomes `9*w < 16*h`. `CrossMultiplication` and
  `AtLeastIsWidthComparison` prove these agree with the real-number
  comparisons the JavaScript expresses. For every threshold T, 9T is not a
  multiple of 16, so no integer height lands exactly on a threshold.
- JavaScript edge cases are kept. A missing width, a missing height, or a
  zero height makes the quotient NaN or +Infinity, so the comparison is false.
  `videoWidth || 4096` maps an absent or zero width to 4096. A cap that is
  absent or 0 is falsy, and then no selection happens. A negative cap is
  truthy, matches no tier, and so falls back to the last entry.
- Shared object. The source pushes the `autoQualityOption` object itself at
  index 0, so a later `autoText` assignment shows in the list. The model
  writes the updated Auto record back to index 0 when Auto is enabled. When
  Auto is not enabled, the assignment has no visible effect.
- Audio selection takes the first tier in the list that fits. A cap of
  200000 selects `192 kbps`: 192000 <= 200000, and that tier is the first in
  the scan to fit (`AudioCapExamples`).

## Model

| member | source | states |
|---|---|---|
| `QualityOptions.GetVideoQualityOptions` | src/components/qualityOptions.js:5-79 | The list built by successive pushes, gated blocks and the selection step equals `VideoQualityOptions`: optional Auto entry, filtered tier table, then cap-based selection |
| `QualityOptions.GetAudioQualityOptions` | src/components/qualityOptions.js:81-127 | The list built by the nine pushes and the selection step equals `AudioQualityOptions` |
| `QualityOptions.PushGated` | src/components/qualityOptions.js:34-54 | A gated block appends both of its tiers when the width meets the threshold, and nothing otherwise |
| `QualityOptions.FindSelectedIndex` | src/components/qualityOptions.js:59-67 | The `for` loop with `break` returns the least index whose bitrate is positive and at most the cap, or `length - 1` when none exists |
| `QualityOptions.ApplyMaxBitrate` | src/components/qualityOptions.js:58-76 | The selection block, including the write through the shared Auto object, produces `Resolve` of the built list |
| `QualityOptions.NarrowerThanWidescreen` | src/components/qualityOptions.js:12 | The aspect test holds only when width and height are both present, and then the pillarboxed width `height * 16 / 9` exceeds the width |
| `QualityOptions.EffectiveWidth` | src/components/qualityOptions.js:12-14 | The corrected width is absent exactly when the width is absent. It is never below the original width, and it equals the original width whenever the aspect test fails |
| `QualityOptions.MaxAllowedWidth` | src/components/qualityOptions.js:19 | The width after the fallback to 4096 is always positive. It keeps a present non-zero width and gives 4096 for an absent or zero width |
| `QualityOptions.Admitted` | src/components/qualityOptions.js:33-56 | The tiers taken from the threshold table are fresh records: none is marked `selected` and none carries `autoText` |
| `QualityOptions.Listing` | src/components/qualityOptions.js:21-31 | The built list has one entry per tier, plus one when Auto is enabled. With Auto enabled, entry 0 is the Auto record with the label and `selected` equal to the automatic-bitrate flag. The list ends with the last tier. The audio list is built the same way at lines 84-94 |
| `QualityOptions.Resolve` | src/components/qualityOptions.js:58-76 | The selection step keeps the length and every entry's name, bitrate and maxHeight. With an absent or zero cap it returns the list unchanged |
| `QualityOptions.VideoQualityOptions` | src/components/qualityOptions.js:5-79 | The video list has at least one tier after any Auto entry, and its last entry is `360p - 420 kbps` with bitrate 420000 |
| `QualityOptions.AudioQualityOptions` | src/components/qualityOptions.js:81-127 | The audio list is the optional Auto entry plus nine tiers, and its last entry is `64 kbps` with bitrate 64000 |
| `QualityOptions.AtLeast` | src/components/qualityOptions.js:34-51 | The threshold test `maxAllowedWidth >= T` of lines 34, 38, 43, 47 and 51, decided on integers. A pixel width compares directly. A pillarboxed width 16h/9 meets T exactly when `16h >= 9T` |
| `QualityOptions.AutoOption` | src/components/qualityOptions.js:23-27 | The Auto object literal (also lines 86-90): the translated label, bitrate 0, no maxHeight, `selected` equal to the automatic-bitrate flag, and no `autoText` yet |
| `QualityOptions.VideoLadder` | src/components/qualityOptions.js:34-56 | The video tier table in push order: each tier's name, maxHeight and bitrate, with the width threshold that gates it (3800, 2500, 1900, 1260, 620 for two tiers each). Threshold 0 marks the 360p floor, which is pushed unconditionally |
| `QualityOptions.AudioTiers` | src/components/qualityOptions.js:96-104 | The nine audio tiers in push order, from `2 Mbps` (2000000) down to `64 kbps` (64000), with no maxHeight |
| `QualityOptions.CapIsSet` | src/components/qualityOptions.js:58 | The JavaScript truthiness of `maxStreamingBitrate` (also line 106): an absent or zero cap is falsy. Any other integer, negative ones included, is truthy |
| `QualityOptions.Fits` | src/components/qualityOptions.js:63 | The scan condition (also line 111): the entry's bitrate is positive and at most the cap |
| `QualityOptions.FirstFit` | src/components/qualityOptions.js:60-67 | Returns the least index of an entry with `0 < bitrate <= cap`, or None exactly when no entry fits |
| `QualityOptions.ChosenIndex` | src/components/qualityOptions.js:58-69 | The chosen index is in range. It is the least fitting index when one exists, and `length - 1` otherwise |
| `QualityOptions.VideoTiers` | src/components/qualityOptions.js:33-56 | The video tier list is never empty and always ends with the 360p floor |
| `QualityOptions.VideoTiersByBlocks` | src/components/qualityOptions.js:33-56 | Filtering the threshold table gives the same list as the source's five gated push-pairs followed by the floor |
| `QualityProperties.CrossMultiplication` | src/components/qualityOptions.js:12 | For a positive height, `w / h < 16 / 9` over the reals holds exactly when `9w < 16h` |
| `QualityProperties.AtLeastIsWidthComparison` | src/components/qualityOptions.js:34-51 | The integer threshold test holds exactly when the real width is at least the threshold |
| `QualityProperties.AspectWidening` | src/components/qualityOptions.js:10-19 | A source narrower than 16:9 is read at `height * 16 / 9`. Any other positive width is kept. An absent or zero width gives 4096. The result is always positive |
| `QualityProperties.PillarboxedFourByThree` | src/components/qualityOptions.js:10-14 | 1440x1080 is treated as width 1920 and offers the same tiers as a 1920-wide source |
| `QualityProperties.AdmittedPositions` | src/components/qualityOptions.js:33-56 | On a table with non-increasing thresholds, the rungs a width meets are exactly the last ones, as many as `Admitted` returns |
| `QualityProperties.AdmittedIsSuffix` | src/components/qualityOptions.js:33-56 | On such a table, the admitted tiers are the table's presets from the first met rung to the end, in order (tiers are cumulative) |
| `QualityProperties.VideoTiersAreSuffix` | src/components/qualityOptions.js:33-56 | The video tiers are the table from some rung to the end. Rung i is included exactly when the width meets its threshold |
| `QualityProperties.VideoTierPresence` | src/components/qualityOptions.js:33-56 | A video tier appears in the list exactly when `maxAllowedWidth` meets its threshold |
| `QualityProperties.VideoTiersMonotone` | src/components/qualityOptions.js:33-56 | A wider source offers a superset of tiers, and the narrower list is a suffix of the wider one |
| `QualityProperties.VideoTiersDescending` | src/components/qualityOptions.js:33-56 | Video tier bitrates are positive and strictly descending, so they are pairwise distinct |
| `QualityProperties.VideoTiersAtWidth1000` | src/components/qualityOptions.js:51-56 | Width 1000 yields exactly the two 480p tiers and the 360p floor |
| `QualityProperties.VideoTiersAt4000` | src/components/qualityOptions.js:34-56 | A width of at least 4000 yields the whole table in order: both 4K tiers and every lower tier |
| `QualityProperties.AudioTiersOrdered` | src/components/qualityOptions.js:96-104 | There are nine audio tiers, with positive and strictly descending bitrates |
| `QualityProperties.ChosenIsNeverAuto` | src/components/qualityOptions.js:58-69 | The scan never settles on the Auto entry. The chosen entry is always a tier |
| `QualityProperties.ChosenIndexIs` | src/components/qualityOptions.js:59-67 | The scan's result is fixed by two facts: nothing before it fits, and it fits or is the last entry |
| `QualityProperties.ChosenInDescendingTiers` | src/components/qualityOptions.js:59-67 | On descending tiers the scan picks tier t when the tier before t is above the cap and t is within it, or t is the last tier |
| `QualityProperties.SelectionChangesOneField` | src/components/qualityOptions.js:69-75 | Length, order, names, bitrates and heights are unchanged. With automatic bitrate off, only the chosen entry gains `selected = true`. With it on, only the listed Auto entry gains `autoText` = the chosen name |
| `QualityProperties.NoCapNoSelection` | src/components/qualityOptions.js:58 | With an absent or zero cap, the built list is returned unchanged |
| `QualityProperties.AutoEntryIffEnabled` | src/components/qualityOptions.js:23-31 | For any list of positive-bitrate tiers (the audio list builds it the same way at lines 86-94): an entry with bitrate 0 exists exactly when Auto is enabled. It is then entry 0, carries the label, and has `selected` equal to the automatic-bitrate flag. Every later entry has a positive bitrate |
| `QualityProperties.VideoAutoEntryIffEnabled` | src/components/qualityOptions.js:23-31 | In the returned video list, an entry with bitrate 0 exists exactly when Auto is enabled. It is then entry 0, carries the label, and has `selected` equal to the automatic-bitrate flag. Every later entry has a positive bitrate |
| `QualityProperties.AudioAutoEntryIffEnabled` | src/components/qualityOptions.js:86-94 | The same holds for the returned audio list |
| `QualityProperties.AutoTextNamesChosenTier` | src/components/qualityOptions.js:71-75 | With automatic bitrate on and Auto listed, entry 0 shows the chosen tier's name and every other entry is unchanged |
| `QualityProperties.VideoOptionsEndWithFloor` | src/components/qualityOptions.js:56-59 | The returned video list is non-empty and ends with `360p - 420 kbps`, maxHeight 360, bitrate 420000 |
| `QualityProperties.VideoOptionsLayout` | src/components/qualityOptions.js:33-56 | After the optional Auto entry, the returned video list has exactly the names, bitrates and maxHeights of the tiers offered at `maxAllowedWidth`, in order |
| `QualityProperties.VideoOptionsDescending` | src/components/qualityOptions.js:33-56 | After any Auto entry, the returned video bitrates are strictly descending |
| `QualityProperties.VideoCapOneMbps` | src/components/qualityOptions.js:58-72 | A cap of 1000000 on a source of unknown width, with automatic bitrate off, selects `720p - 1 Mbps` and no other entry |
| `QualityProperties.VideoCapBelowFloor` | src/components/qualityOptions.js:59-72 | A cap below 420000 falls back to the 360p floor and marks it selected |
| `QualityProperties.AudioOptionsLayout` | src/components/qualityOptions.js:96-104 | After the optional Auto entry, the audio list is exactly the nine tiers in order |
| `QualityProperties.AudioCapExamples` | src/components/qualityOptions.js:106-120 | Cap 200000 selects `192 kbps`. Cap 50000 falls back to `64 kbps` |

Both functions are deterministic, so identical inputs give value-equal lists.
Every operation is total.

## Left out

- `globalize.translate('Auto')` (lines 24, 87) is a call into the
  localisation layer. The translated label is a parameter, `autoLabel`.
- `appSettings.maxVideoWidth()` and `appHost.screen()?.maxAllowedWidth`
  (lines 16, 18) read host settings. They feed only `hostScreenWidth`, which
  the source computes and never uses. The model drops `maxVideoWidth` and does
  not clamp `maxAllowedWidth` by it.
- IEEE-754 doubles: the aspect test and the widened width are computed
  exactly, over integers and reals. Rounding could differ only for dimensions
  far beyond any real video.
- Non-integer or non-numeric widths, heights and caps (strings, NaN) are not
  modelled, and neither are negative widths and heights. Widths and heights
  are `nat`. The cap is `int`, so negative caps are modelled.
- `isAutomaticBitrateEnabled` and `enableAuto` are booleans, so the model has
  no `selected: undefined` from a missing flag.
- The default export (lines 129-132) only groups the two functions.
- JavaScript `null` for `videoWidth` or `videoHeight` is not modelled. `None`
  stands for an absent (`undefined`) property. A `null` width converts to 0 in
  `null / 1080`, so at line 12 a `null` width with a positive height would be
  widened. An absent width is not widened in the model.
- Object identity: records are values. The one aliased update the source
  relies on is modelled by writing the Auto record back to index 0.

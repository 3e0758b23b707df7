# iEEG retrieval and channel-label cleaning, modelled in Dafny

This project models the data-retrieval core of the CNT research tools:
`get_iEEG_data` pulls a stretch of intracranial EEG from the remote iEEG
service, and a family of small functions cleans and classifies channel labels.
`python/tools/process_iEEG_data.py` and `python/tools/iEEG_pipeline.py` are the
same file line for line, so every citation below into the first one holds for
the second too.

What is modelled, module by module:

- `Retry`: the two retry loops (`_pull_iEEG` and the connection loop), which
  make up to `MAX_RETRIES` = 50 calls and stop at the first success. A remote
  call is a function of its attempt number, so any pattern of failures can be
  described.
- `Planner`: how a retrieval is cut into requests.
  - A short clip over fewer than 100 channels is one request.
  - A clip longer than 120 s becomes 60 s clips over all channels.
  - Anything else becomes groups of 20 channels over the whole clip.
- `Assembly`: `np.concatenate` of the pulled arrays along the axis the code
  picks, including its errors: an empty list, a `None` entry, a shape mismatch.
- `Sampling`: a well-behaved service. It samples one signal on one time grid,
  and the answer to a request is that signal's rows in the request's time span
  and channels. This module proves that cutting a retrieval into requests and
  joining the answers gives back the uncut retrieval, both for time clips and
  for channel groups.
- `Selection`: `get_channel_ids` and channel naming.
  - The select list wins over the ignore list.
  - Label lists are checked against the dataset.
  - A select list of positions is taken as it is; an ignore list of positions
    chooses every other position, in order.
  - Names are looked up with Python indexing, where a negative index counts
    from the end.
- `PyStr`, `LeadContact`: the Python string operations the cleaners use.
  - `strip`, `find`, `split`, `join`, `replace(p, "")`, `int(...)` and
    `{:02d}`.
  - The anchored regexes `(\D+)(\d+)` and `(\D+)`.
- `Labels`: the label code itself.
  - `clean_labels` of process_iEEG_data.py: substring removal, the cut at the
    first delimiter, then "lead + two-digit contact".
  - `find_non_ieeg`.
  - `clean_labels` of clean_labels.py: "EEG" removed from the lead, and contact
    0 when the label has no number.
  - `clean_channels`: the cleaned labels plus a keep-mask.
- `LabelExamples`: worked labels for each cleaner.
- `Pipeline`: `get_iEEG_data` end to end.
  - The service is a parameter: connection attempts, numbered `get_data`
    calls, and the sample rate of a channel.
  - The result is an error, a returned frame, a frame written to `output_file`,
    or `None` because a cut retrieval lost a request.

The service, the password file, the session, logging, the sleeps between
retries and the pickle file are not modelled as I/O. They enter only as the
parameters above.

## Model

| member | source | states |
|---|---|---|
| Retry.FirstSuccess | python/tools/process_iEEG_data.py:57-66 | a retry loop makes at most `limit` calls; a value comes from its last call and every earlier call failed; no value means all `limit` calls failed |
| Retry.FirstSuccessIsFirst | python/tools/process_iEEG_data.py:140-150 | the loop gives up exactly when every allowed attempt fails, and any attempt that would succeed bounds the number of calls made |
| Retry.Pull | python/tools/process_iEEG_data.py:57-66 | the `for _ in range(MAX_RETRIES)` loop with an early return ends exactly as the first-success specification with 50 tries |
| Retry.PullAtMost | python/tools/process_iEEG_data.py:57-66 | the same loop for any number of tries agrees with the first-success specification |
| Planner.TimeChunks | python/tools/process_iEEG_data.py:188-193 | clip `k` starts `k * CLIP_SIZE` after the start, every clip but the last is `CLIP_SIZE` long, none is empty, and the last one ends at the stop time |
| Planner.TimeChunksContiguous | python/tools/process_iEEG_data.py:189-192 | each clip starts where the previous one ends |
| Planner.TimeChunksTotal | python/tools/process_iEEG_data.py:189-192 | the clip durations add up to the whole duration |
| Planner.TimeChunksCount | python/tools/process_iEEG_data.py:189-191 | the number of clips is the duration divided by `CLIP_SIZE`, rounded up |
| Planner.ChannelChunks | python/tools/process_iEEG_data.py:195-198 | every group spans the whole clip and is non-empty with at most `CHANNEL_SIZE` ids; every group but the last is full; there are no groups only when there are no ids |
| Planner.ChannelChunksCover | python/tools/process_iEEG_data.py:195-198 | the groups read in order are exactly the chosen ids |
| Planner.SplitFor | python/tools/process_iEEG_data.py:184-188 | one request iff duration < 120 s and fewer than 100 channels; time clips iff duration > 120 s; channel groups otherwise |
| Planner.PlanRequests | python/tools/process_iEEG_data.py:183-198 | the branch taken is the one `SplitFor` picks for `stop - start` and the channel count, and it sends the whole clip, the 60 s clips or the channel groups accordingly |
| Planner.PlanRequestBounds | python/tools/process_iEEG_data.py:183-198 | for any start and stop, no request asks for more than 120 s; a channel-group request has at most 20 channels; a time clip carries every chosen channel |
| Planner.LimitDurationSplitsByChannel | python/tools/process_iEEG_data.py:184-198 | a clip of exactly 120 s is never sent whole, whatever the number of channels, even one or none |
| Planner.NoChannelsLongClipPlansNothing | python/tools/process_iEEG_data.py:184-198 | with no channel and a 120 s clip no request is made at all |
| Assembly.VStack | python/tools/process_iEEG_data.py:206 | stacking keeps the width and yields a rectangular array from rectangular parts of one width |
| Assembly.HStack | python/tools/process_iEEG_data.py:206 | side by side keeps the height and yields a rectangular array from rectangular parts |
| Assembly.Concatenate | python/tools/process_iEEG_data.py:206 | an empty list, a `None` entry or a shape mismatch is an error; on success every part was present and agrees with the result in width (axis 0) or height (axis 1) |
| Assembly.ConcatenateSingle | python/tools/process_iEEG_data.py:183-206 | joining the single part of an uncut retrieval gives it back unchanged on either axis |
| Assembly.VStackAppend | python/tools/process_iEEG_data.py:206 | stacking two runs of parts is stacking the two results |
| Sampling.SampleTimesSplit | python/tools/process_iEEG_data.py:189-193 | the grid times of two consecutive spans are those of the joined span |
| Sampling.TimeChunksStack | python/tools/process_iEEG_data.py:188-206 | the stacked answers to consecutive clips have exactly the rows of the answer to the whole clip |
| Sampling.ChannelChunksJoin | python/tools/process_iEEG_data.py:194-206 | the answers to channel groups all have the same height, and side by side they are the answer for all channels |
| Sampling.ConcatenateTimeChunks | python/tools/process_iEEG_data.py:188-206 | `np.concatenate(axis=0)` of the clip answers is the answer for `[start, stop)` |
| Sampling.ConcatenateChannelChunks | python/tools/process_iEEG_data.py:194-206 | `np.concatenate(axis=1)` of the group answers is the answer for all channels |
| Selection.Positions | python/tools/process_iEEG_data.py:89-98 | the comprehension yields strictly increasing in-range positions, each accepted by the test |
| Selection.PositionsComplete | python/tools/process_iEEG_data.py:89-98 | every accepted position below `n` is listed |
| Selection.GetChannelIds | python/tools/process_iEEG_data.py:69-102 | an empty list is an IndexError; a non-empty list succeeds exactly when it holds positions or every label it lists is in the dataset, and otherwise raises the missing-label `ValueError`; positions under select are returned unchanged; otherwise the chosen positions ascend and a position is chosen iff its label is listed (select) or not listed (ignore), or iff it is not among the ignored positions |
| Selection.SelectIgnorePartition | python/tools/process_iEEG_data.py:91-98 | select and ignore on the same labels split the channels: disjoint, covering, counts adding to the channel count |
| Selection.PositionsComplement | python/tools/process_iEEG_data.py:89-98 | the positions a test accepts and those it rejects are disjoint, cover everything and add up to `n` |
| Selection.ChooseChannelIds | python/tools/process_iEEG_data.py:168-178 | a non-empty select list wins, then a non-empty ignore list, otherwise `range(len(labels))`; the only error it can raise is the missing-label `ValueError`, since a chosen list is never empty |
| Selection.ChannelNames | python/tools/process_iEEG_data.py:180 | names exist iff every id is a valid Python index (negatives count from the end), each name being the label at that index; otherwise IndexError |
| Selection.ChosenByNameHaveNames | python/tools/process_iEEG_data.py:180 | ids chosen by label always have names, listed under select and unlisted under ignore |
| PyStr.StripIsTrimmedInfix | python/tools/process_iEEG_data.py:257 | `strip()` leaves the infix that neither starts nor ends with whitespace, having cut only whitespace |
| PyStr.StripIdempotent | python/tools/process_iEEG_data.py:257 | stripping twice is stripping once |
| PyStr.FindFrom | python/tools/process_iEEG_data.py:251 | the first occurrence at or after `from`, or none at all |
| PyStr.SplitPiecesAvoidDelimiter | python/tools/process_iEEG_data.py:251 | no piece of `split(d)` contains `d` |
| PyStr.JoinSplit | python/tools/process_iEEG_data.py:251-252 | joining the pieces of `split(d)` with `d` gives back the label |
| PyStr.AfterFirstDropsThroughDelimiter | python/tools/process_iEEG_data.py:250-252 | `d.join(label.split(d)[1:])` is the text after the first `d`, or "" when there is none |
| PyStr.RemoveAllIsJoinOfSplit | python/tools/process_iEEG_data.py:247-248 | the left-to-right `replace(p, "")` equals `"".join(label.split(p))` |
| PyStr.Decimal | python/tools/process_iEEG_data.py:259 | `str(n)` is a digit run reading back as `n`, with no leading zero |
| PyStr.Pad2 | python/tools/process_iEEG_data.py:259 | `{n:02d}` is at least two digits reading back as `n`, with a leading zero only when exactly two |
| LeadContact.NonDigitRun | python/tools/process_iEEG_data.py:254 | the longest digit-free prefix, followed by a digit or the end |
| LeadContact.DigitRun | python/tools/process_iEEG_data.py:254 | the longest all-digit prefix, followed by a non-digit or the end |
| LeadContact.MatchLeadContact | python/tools/process_iEEG_data.py:254 | a match is a non-empty digit-free lead followed by a non-empty digit run at the start of the label |
| LeadContact.MatchIsGreedy | python/tools/process_iEEG_data.py:254 | a match exists iff some decomposition does, its lead is the only possible lead, and its digit run is the longest |
| LeadContact.MatchLeadContactAt | python/tools/process_iEEG_data.py:254 | where the lead ends at `k` and the digits end at `k + n`, the match is those two pieces |
| LeadContact.MatchLead | python/tools/clean_labels.py:19-20 | `(\D+)` matches iff the label is non-empty and starts with a non-digit, giving the whole leading non-digit run |
| Labels.MatchChannelName | python/tools/process_iEEG_data.py:254-259 | a formatted name is read back by the regex as the same lead and contact |
| Labels.NormalizeLabelFormat | python/tools/process_iEEG_data.py:254-262 | a non-matching label is kept; a matching one becomes the stripped, digit-free lead followed by at least two digits spelling the contact, and the rest is dropped |
| Labels.NormalizeLabelIdempotent | python/tools/process_iEEG_data.py:254-262 | normalising a normalised label changes nothing |
| Labels.CleanLabels | python/tools/process_iEEG_data.py:244-264 | one cleaned label per input label, in order |
| Labels.CleanLabelsIdempotent | python/tools/process_iEEG_data.py:244-264 | without options, cleaning a cleaned list changes nothing |
| Labels.CleanLabelRemovesSubstring | python/tools/process_iEEG_data.py:247-248 | with `remove_substr`, cleaning sees the pieces around the substring glued together, none of them containing it |
| Labels.CleanLabelCutsAtDelimiter | python/tools/process_iEEG_data.py:250-252 | with `delimiter`, everything through its first occurrence is dropped, and a label without it is cleaned as "" |
| Labels.IsNonIeegIff | python/tools/process_iEEG_data.py:278-292 | a label is non-iEEG iff it spells one of "EKG", "O", "C", "ECG" immediately followed by a digit |
| Labels.FindNonIeeg | python/tools/find_non_ieeg.py:8-34 | one flag per label, true exactly for the non-iEEG labels |
| Labels.CleanLabelWithFallback | python/tools/clean_labels.py:14-27 | a label is cleaned iff it is non-empty and does not start with a digit; otherwise `.group` fails |
| Labels.CleanLabelsWithFallback | python/tools/clean_labels.py:7-29 | succeeds iff every label can be cleaned, giving one cleaned label per input in order |
| Labels.CleanLabelWithFallbackEndsInDigits | python/tools/clean_labels.py:27 | every produced label ends in at least two digits |
| Labels.CleanLabelWithFallbackWithContact | python/tools/clean_labels.py:16-27 | a label matching `(\D+)(\d+)` is cleaned to its cleaned lead followed by its contact number in at least two digits, with no leading zero beyond two |
| Labels.CleanLabelWithFallbackNoContact | python/tools/clean_labels.py:19-27 | a label with no digit becomes its cleaned lead followed by "00" |
| Labels.CleanChannel | python/tools/clean_channels.py:15-21 | a label is cleaned iff the regex matches; otherwise `.group` fails |
| Labels.CleanChannels | python/tools/clean_channels.py:4-24 | succeeds iff every label matches, giving one name and one keep flag per label, in order |
| Labels.CleanChannelKeepsIeeg | python/tools/clean_channels.py:15-21 | a channel is dropped iff its cleaned lead is a non-iEEG name, and its name is that lead plus the contact in two or more digits |
| LabelExamples.NormalizeLabelPadsContact | python/tools/process_iEEG_data.py:254-259 | "LA1" becomes "LA01" |
| LabelExamples.NormalizeLabelDropsTrailingText | python/tools/process_iEEG_data.py:254-259 | "LA 12x" becomes "LA12" |
| LabelExamples.NonIeegC3 | python/tools/find_non_ieeg.py:23-32 | "C3" is flagged |
| LabelExamples.NonIeegCz1 | python/tools/find_non_ieeg.py:23-32 | "Cz1" is not flagged: its lead only starts with a non-iEEG name |
| LabelExamples.NonIeegEcgx1 | python/tools/find_non_ieeg.py:23-32 | "ECGX1" is not flagged |
| LabelExamples.NonIeegEkgBlank1 | python/tools/find_non_ieeg.py:23-32 | "EKG 1" is not flagged: the blank belongs to the unstripped lead |
| LabelExamples.NonIeegNeedsMatch | python/tools/find_non_ieeg.py:23-26 | "EKG" and "1A" are not flagged: the regex does not match |
| LabelExamples.CleanLabelWithFallbackEkg | python/tools/clean_labels.py:19-27 | "EKG" becomes "EKG00" |
| LabelExamples.CleanLabelWithFallbackEegFz | python/tools/clean_labels.py:19-27 | "EEG Fz" becomes "Fz00": "EEG" is removed from the lead and the blank it leaves is stripped |
| LabelExamples.CleanChannelEegC3 | python/tools/clean_channels.py:15-21 | "EEG C3" becomes "C03" and is dropped |
| LabelExamples.FindNonIeegKeepsEegC3 | python/tools/find_non_ieeg.py:23-32 | `find_non_ieeg` does not flag "EEG C3", because its lead is "EEG C" |
| Pipeline.OpenDataset | python/tools/process_iEEG_data.py:140-150 | "Failed to open dataset" iff all 50 attempts fail; otherwise the labels come from the first attempt that succeeded |
| Pipeline.CleanElectrodes | python/tools/process_iEEG_data.py:156-163 | cleaning fails exactly when a non-empty list of positions is given; an absent or empty list is left as it is; a given list of labels becomes `clean_labels` of it |
| Pipeline.SelectChannels | python/tools/process_iEEG_data.py:153-180 | the call succeeds exactly when both lists prepare (no position list is cleaned), the select/ignore dispatch succeeds and every chosen id indexes a label; cleaning with a position list raises; the labels are the cleaned or raw ones; the chosen ids are the select/ignore dispatch applied to those labels and to the lists as prepared (cleaned when asked); every chosen id is a valid index naming its channel; with neither list every channel is chosen under its label |
| Pipeline.SelectChannelsByName | python/tools/process_iEEG_data.py:153-180 | a select list of labels chooses exactly the channels whose (cleaned) label is one of the (cleaned) listed labels, each of which names a channel |
| Pipeline.IgnoreChannelsByName | python/tools/process_iEEG_data.py:153-180 | without a select list, an ignore list of labels chooses exactly the channels whose (cleaned) label is not listed |
| Pipeline.PullIeeg | python/tools/process_iEEG_data.py:57-66 | one pull makes between 1 and `MAX_RETRIES` calls, every call but the last having failed; it returns its last call's answer, or gives up after exactly `MAX_RETRIES` failed calls, since a pull that stops earlier has answered |
| Pipeline.FetchAll | python/tools/process_iEEG_data.py:183-198 | one pulled part per request, with the first pull starting at call `base` |
| Pipeline.FetchAllPull | python/tools/process_iEEG_data.py:183-198 | pull `k` is `_pull_iEEG` of request `k`, and the next pull's calls follow right after its own |
| Pipeline.FetchAllParts | python/tools/process_iEEG_data.py:183-198 | every pulled part is an answer some call gave to its request, or its request had `MAX_RETRIES` failed calls in a row |
| Pipeline.FetchAllCalls | python/tools/process_iEEG_data.py:183-198 | requests are pulled one after another, each with between 1 and `MAX_RETRIES` calls; so pull `k` starts after between `k` and `k * MAX_RETRIES` earlier calls |
| Pipeline.FetchAllReliable | python/tools/process_iEEG_data.py:183-198 | when every call answers, each request takes exactly one call, in order |
| Pipeline.AxisFor | python/tools/process_iEEG_data.py:206 | axis 1 iff duration <= 120 s |
| Pipeline.Collect | python/tools/process_iEEG_data.py:200-225 | `None` iff a cut retrieval lost a part; on a frame, every part was present and joins into the data, the columns are the chosen names, the rate is that of the first channel, and the frame is saved iff `output_file` is non-empty |
| Pipeline.GetIeegData | python/tools/process_iEEG_data.py:137-225 | "Failed to open dataset" iff every connection attempt fails; any other outcome follows a successful open and channel choice |
| Pipeline.PartsAreAnswers | python/tools/process_iEEG_data.py:183-198 | from a service that answers faithfully, every pulled part is the recording of its own request |
| Pipeline.JoinedPlanIsRecording | python/tools/process_iEEG_data.py:183-206 | joining the answers to the requests of any plan along the code's axis gives the recording of the whole retrieval, and fails only when there is no request |
| Pipeline.CollectIsRecording | python/tools/process_iEEG_data.py:200-208 | when `Collect` gives a frame from faithful parts, its data is the recording of `[start, stop)` over the chosen channels |
| Pipeline.RetrievalIsFaithful | python/tools/process_iEEG_data.py:137-225 | whatever the failures, a frame from a faithful service holds the recording of `[start, stop)` over the chosen channels, named by them, at the first channel's rate, saved iff `output_file` is set |
| Pipeline.ReliableRetrievalSucceeds | python/tools/process_iEEG_data.py:137-225 | a faithful service that always answers yields a frame once the dataset has a channel, the choice is valid and some request is made |
| Pipeline.ReliablePartsAreAnswers | python/tools/process_iEEG_data.py:183-198 | from a faithful service that always answers, the parts are the answers to the requests, none missing |
| Pipeline.CollectSucceeds | python/tools/process_iEEG_data.py:200-225 | `Collect` of the answers to a plan with some request, with one name per channel and a non-empty dataset, gives a frame |
| Pipeline.MissingMeansGaveUp | python/tools/process_iEEG_data.py:183-203 | the call ends in `None` without saving iff the retrieval was cut and some part is missing, and then some request had `MAX_RETRIES` failed calls in a row |

## Left out

- Logging, the sleeps between retries, the password file, the `Session` object and the pickle write are left out; they are I/O. Writing a frame to `output_file` and failing to write it both end in `None` (lines 217-223), so one outcome, `Saved`, stands for both.
- Times are whole microseconds (`int`), not floats. Python's float `duration` and `min(CLIP_SIZE, stop - clip_start)` are modelled for integral times only.
- The sample rate is a function of a channel label supplied by the service. The dataset's `ch_labels` are taken to be the labels `get_channel_labels()` returns.
- Sampling.Recording: the service's answer is idealised as one row per grid time in the request's span. The real service's array shapes are not known, so the join theorems hold only for a service that answers this way.
- A pandas `DataFrame` is modelled by its column names and data only. The model checks the one constraint the code relies on, that the column count matches the number of names.
- Electrode lists are modelled as all labels or all positions. The code looks only at the first element's type. Mixed lists, non-int/str lists (the `TypeError` at line 100) and `bool` being an `int` are left out.
- `\d` and `int()` are modelled for ASCII digits only. Python also accepts other Unicode decimal digits.
- In the code, the uncut branch (line 185) never checks for `None`. A single request that fails 50 times reaches `np.concatenate([None], ...)`, which raises; the model treats that as the `ConcatenateNone` error and not as the `None` return the docstring promises for "any error".
- Where the documented behaviour and the code disagree, the model follows the code:
  - The single-request test is strict (`< CLIP_DURATION_LIMIT`).
  - A clip of exactly 120 s is cut into channel groups, and with no channels no request is made, so `np.concatenate` fails.
  - Every clip or group is fetched even after one has failed.
  - Nothing checks that the sample rates agree.
- Cleaning: the comment at line 261 of process_iEEG_data.py says the original label is kept. The code keeps the label after substring removal and the delimiter cut, and so does the model. Cleaning a list of positions raises (modelled as `NotALabel`): an `int` has no `.replace` or `.split`, and `re.match` needs a string.
- The keep-mask that clean_labels.py builds and never returns is left out.

# epviz core, modelled in Dafny

epviz is a Qt viewer for EEG recordings stored as EDF files. It can overlay
machine-learning predictions on the signals. Most of its code wires up
widgets. The code beneath the widgets does a good deal of integer, string and
list work. This project models that code. Each Dafny module mirrors one Python
module:

| Dafny module (file) | Python module |
|---|---|
| `PredictionStore` (prediction_store.dfy) | visualization/predictions/prediction_info.py |
| `PlotUtils` (plot_utils.dfy) | visualization/plot_utils.py |
| `Session` (session.dfy) | visualization/plot.py (the navigation, annotation, filter-annotation and argument handlers) |
| `LabelLookup`, `Channels` (label_lookup.dfy, channel_info.dfy) | visualization/signal_loading/channel_info.py |
| `Montages` (montages.dfy) | visualization/montages.py |
| `EdfLoading` (edf_loader.dfy) | visualization/preprocessing/edf_loader.py and eeg_info.py |
| `ChannelOptions` (channel_options.dfy) | visualization/signal_loading/channel_options.py |
| `OrganizeChannels` (organize_channels.dfy) | visualization/signal_loading/organize_channels.py |
| `SaveEdf` (save_edf_info.dfy) | visualization/edf_saving/saveEdf_info.py |
| `Anonymizing` (anonymizer.dfy) | visualization/edf_saving/anonymizer.py |
| `SignalStats` (signal_stats.dfy) | visualization/signal_stats/signalStats_info.py and signalStats_options.py |
| `FilterSettings`, `FilterOptions` (filter_info.dfy, filter_options.dfy) | visualization/filtering/filter_info.py and filter_options.py |
| `Spectrogram` (spec_options.dfy) | visualization/spectrogram_window/spec_info.py and spec_options.py |
| `Topoplot` (topoplot.dfy) | visualization/image_saving/saveTopoplot_options.py |
| `Numbers` (numbers.dfy) | Python's `str()` and `float()` on the filter cutoffs, which may be ints or floats |
| `Common` (common.dfy) | the Python string operations the code relies on: `upper`, `find`, `split`, `join`, `replace`, `int`, `str` |

The model takes the form of the source:

- A Python object whose methods update its fields becomes a Dafny `class`. Its
  methods carry field-granular `modifies` clauses. Examples are
  `PredictionInfo`, `ChannelInfo`, `EdfMontage`, `Viewer`, `OrganizeWindow`,
  `Anonymizer`, `SaveEdfInfo`, `FilterInfo`, `SpecOptions` and
  `SignalStatsOptions`.
- A loop in the source becomes a `while` loop with its invariants. Each such
  method is proved against a specification function, and the properties the
  code promises are lemmas about those functions.
- Pure helpers become functions.
- numpy arrays become `seq`s, or `array`/`array2` where the code fills them
  in place.
- The filter cutoffs keep Python's int or float type as a `Num`: an int, or a
  float written as a decimal mantissa with a number of decimals. Their text is
  Python's `str()` ("30" for an int, "30.0" for a float) and they are read back
  with `float()`. Other floating-point values become `real`; the code only
  compares them, adds them and takes their argmax.

## Where the code and its tests disagree

The model follows the code in each case below. A lemma exhibits each
disagreement.

- `convert_txt_chn_names` builds a hyphenated name only from the electrodes it
  renames (channel_info.py:88-106). "T7-T1" therefore becomes "T3-", "T1-P7"
  becomes "T5" and "CZ-PZ" becomes "". The tests expect "T3-T1" and similar.
  See `Channels.ConvertTxtDropsUnrenamed`. `Channels.FallbackSecondRenamed`
  shows the related `_check_label` retry: "F7-T7" is retried as "F7T3", without
  the hyphen.
- The loader's `_check_label` returns `False` on a miss (edf_loader.py:7-17),
  where the tests expect "". The model returns `None`. See
  `EdfLoading.CheckLabelMissesShort`.
- `_valid_date` (anonymizer.py:522-532) checks only the lengths of the day and
  year parts. It accepts "AB-JAN-2001" and "01-JAN-200C"
  (`Anonymizing.CheckDateAcceptsLetters`). An unknown month raises instead of
  returning -1 (`Anonymizing.CheckDateRaisesOnUnknownMonth`).
- The two-digit start year maps to 19yy above 20 in anonymizer.py:376-380 and
  above 30 in saveEdf_info.py:57-61. The two disagree exactly on the years 21
  to 30 (`Anonymizing.StartYearCutoffsDiffer`).
- A band-pass with a negative lower edge is saved as "BP: -5.0-2Hz", and
  `init_graph` then reads an empty text and raises `ValueError` when the file
  is opened again (plot.py:568-589, `Session.NegativeBandExample`).
- `load_file` replaces a date subfield of "X" with 01-JAN-2001 before showing
  it (`Anonymizing.ShownDatesAreNeverX`).
- The upper bound meant for the font size in `check_args` tests the line
  thickness, so a font size of 100 is accepted (`Session.LargeFontAccepted`).
- In multi-class per-channel mode with fewer stored channels than requested,
  `compute_starts_ends_chns` writes to the undefined name `preds_mutli_chn`
  (prediction_info.py:243), which raises a NameError. The model returns a
  `Failure` on that path (`PredictionStore.PredictionInfo.ComputeStartsEndsChns`).
- `FilterInfo.fs` starts at 0 (filter_info.py:22-32), and the main window never
  sets it. `FilterOptions.Change` therefore takes the sampling rate as a
  parameter. With a rate of 0 it accepts no low-pass, high-pass or notch value.

## Model

| member | source | states |
|---|---|---|
| Common.ToUpper | visualization/preprocessing/edf_loader.py:12-16 | `str.upper()` on ASCII text: keeps the length, upper-cases each ASCII letter and leaves every other character as it is |
| Common.UpperIsIdempotent | visualization/preprocessing/edf_loader.py:13-16 | an upper-cased text is upper case, and upper-casing it again changes nothing |
| Common.ReplaceChar | visualization/edf_saving/anonymizer.py:415-417 | `str.replace` of one character keeps the length and swaps exactly that character |
| Common.Find | visualization/signal_loading/channel_options.py:396 | `str.find` gives the first position of the text, and -1 exactly when it does not occur |
| Common.FindChar | visualization/signal_loading/channel_options.py:396-398 | finding one character gives -1 exactly when it is absent |
| Common.Split | visualization/edf_saving/saveEdf_info.py:31-32 | `str.split` gives at least one part |
| Common.SplitPartsFree | visualization/edf_saving/saveEdf_info.py:31-32 | no part of a split holds the separator |
| Common.SplitJoin | visualization/edf_saving/anonymizer.py:415-417 | splitting a join gives back the parts when none holds the separator |
| Common.JoinLength | visualization/edf_saving/anonymizer.py:415-424 | a join is the parts' length plus one separator between each two |
| Common.Reverse | visualization/signal_loading/organize_channels.py:79-82 | the elements last to first |
| Common.NatToString | visualization/montages.py:168 | `str(n)` of a natural number is a non-empty run of digits |
| Common.NatToStringInjective | visualization/montages.py:168 | different numbers give different keys |
| Common.ParseNat | visualization/edf_saving/saveEdf_info.py:57-67 | `int()` on ASCII digit text: succeeds exactly on a non-empty run of the digits 0-9 |
| Common.ParseNatToString | visualization/edf_saving/saveEdf_info.py:57-67 | `int(str(n)) == n` |
| Common.TwoDigitsParse | visualization/edf_saving/anonymizer.py:396-397 | a zero-padded pair of digits reads back as its number |
| Common.FourDigitsParse | visualization/edf_saving/anonymizer.py:408 | a zero-padded four-digit year reads back as its number |
| PredictionStore.PredictionInfo.constructor | visualization/predictions/prediction_info.py:7-31 | a new store has every flag cleared, width 0, the three arrays empty and the three file names empty |
| PredictionStore.PredictionInfo.WriteData | visualization/predictions/prediction_info.py:33-51 | every copied field equals the other store's value, and `multi_class` and `predicted` keep their own values |
| PredictionStore.PredictionInfo.CheckPredsShape | visualization/predictions/prediction_info.py:133-195 | returns 0, -1 or raises exactly as the classification `CheckShape` says; both flags hold only after an acceptance, so a rejection never keeps an earlier load's flags; on acceptance `pred_width * bins == fs * max_time` and the tensor goes to `model_preds`, or to `preds` with `preds_loaded` set; otherwise neither array is touched |
| PredictionStore.PredictionInfo.Keep | visualization/predictions/prediction_info.py:188-194 | the success branch: the flags and the width are recorded, and the tensor lands in the array `model_or_preds` selects while the other array is untouched |
| PredictionStore.CheckShapeDivisibility | visualization/predictions/prediction_info.py:167-169 | a one-dimensional binary tensor, or a multi-class tensor of rank other than 3, is accepted if and only if its bin count divides `fs*max_time`; a multi-class count that does not divide is answered -1 |
| PredictionStore.BinaryTwoColumnCollapses | visualization/predictions/prediction_info.py:170-178 | a (bins, 2) binary tensor keeps only its index-1 column; a (bins, nchns) one with nchns > 2 becomes per-channel; any other width above 2 is rejected |
| PredictionStore.MultiClassChannelMismatch | visualization/predictions/prediction_info.py:180-183 | a rank-3 multi-class tensor whose channel axis is not `nchns` is rejected with -1 |
| PredictionStore.BinaryReduced | visualization/predictions/prediction_info.py:156-165 | the binary reduction yields a well-formed tensor with no axis of length 1 |
| PredictionStore.SqueezeShape | visualization/predictions/prediction_info.py:165 | squeezing keeps the element count and leaves no axis of length 1 |
| PredictionStore.TakeLastAxis | visualization/predictions/prediction_info.py:159-160 | `preds[:,:,1]` of an (n, m, 2) tensor is a well-formed (n, m) tensor |
| PredictionStore.TakeMiddleAxis | visualization/predictions/prediction_info.py:161-162 | `preds[:,1,:]` of an (n, 2, p) tensor is a well-formed (n, p) tensor |
| PredictionStore.TakeFirstAxis | visualization/predictions/prediction_info.py:163-164 | `preds[1,:,:]` of a (2, m, p) tensor is a well-formed (m, p) tensor |
| PredictionStore.TakeSecondColumn | visualization/predictions/prediction_info.py:174-175 | `preds[:,1]` of an (n, 2) tensor is a well-formed tensor of n values |
| PredictionStore.MaxOf | visualization/predictions/prediction_info.py:259 | `np.max` of a bin is one of its values and no value exceeds it |
| PredictionStore.ArgMax | visualization/predictions/prediction_info.py:253 | `np.argmax` is an index holding a maximum, and every earlier value is strictly smaller (the first maximum) |
| PredictionStore.ChannelArgMax | visualization/predictions/prediction_info.py:256 | `np.argmax(..., axis=1)` gives one class per channel |
| PredictionStore.RemapFlags | visualization/predictions/prediction_info.py:222-231 | display channel `nchns-1-c` is flagged exactly when stored channel c exceeds the threshold; display channels with no stored counterpart (the zero padding) are never flagged under a non-negative threshold |
| PredictionStore.FlipChannels | visualization/predictions/prediction_info.py:223-225 | `preds_flipped[b, c]` is stored channel `nst-1-c` of bin b |
| PredictionStore.FlipColumn | visualization/predictions/prediction_info.py:224-225 | one pass of the flip loop adds stored channel `nst-1-i` into column i and leaves every other column unchanged |
| PredictionStore.RightAlign | visualization/predictions/prediction_info.py:227-231 | the last `nchns` flipped columns are kept when there are enough of them, otherwise the flipped columns sit on the right with zeros on the left |
| PredictionStore.AlignChannels | visualization/predictions/prediction_info.py:222-231 | `preds_mutli_chn` holds, for every bin and display channel, the reversed and right-aligned stored value |
| PredictionStore.PredictionInfo.ComputeStartsEndsChns | visualization/predictions/prediction_info.py:197-302 | fails where the source reaches the undefined name at line 243 (multi-class per-channel with fewer stored channels than `nchns`); otherwise returns the overlay of exactly the drawn bins of the window (`WindowOverlay`), whose properties follow |
| PredictionStore.SearchFrom | visualization/predictions/prediction_info.py:246-247 | a search loop stops at the first bin boundary at or past t, or stays where it starts when that is already beyond it |
| PredictionStore.ScanStart | visualization/predictions/prediction_info.py:245-267 | after the two searches and the partial first bin, i is the first bin boundary at or past `count*fs`, and the drawn bins before i are exactly those listed |
| PredictionStore.LeadingBin | visualization/predictions/prediction_info.py:249-264 | a bin straddling `count*fs` is drawn from `count*fs` to its own boundary, when it is drawn at all |
| PredictionStore.ScanBin | visualization/predictions/prediction_info.py:269-301 | one pass of the main loop keeps the loop invariant (the listed bins are the drawn bins below the next boundary); when the pass returns, the overlay is complete |
| PredictionStore.ScanRest | visualization/predictions/prediction_info.py:268-302 | the main loop ends with the overlay of every drawn bin of the window |
| PredictionStore.AppendBin | visualization/predictions/prediction_info.py:250-264 | appending a bin adds its start, end, channel row and class value, as one step of the specification does |
| PredictionStore.ScanNext | visualization/predictions/prediction_info.py:287-301 | taking bin i into the overlay when it is active keeps the loop's invariant at i+1 |
| PredictionStore.ScanDone | visualization/predictions/prediction_info.py:269-286 | once bin i reaches past the window's end, the overlay built so far is the whole answer |
| PredictionStore.ExitAtHi | visualization/predictions/prediction_info.py:268 | the loop leaves at the first boundary at or past the window's end |
| PredictionStore.IntervalsOrdered | visualization/predictions/prediction_info.py:214-302 | every emitted interval is non-empty and starts inside the window; starts strictly increase and the intervals do not overlap |
| PredictionStore.BinaryIntervalsInsideWindow | visualization/predictions/prediction_info.py:279-286 | when a bin is no wider than the window, every binary interval lies inside `[count*fs, (count+ws)*fs)` (the trailing bin is cut at the window end) |
| PredictionStore.MultiClassTiles | visualization/predictions/prediction_info.py:250-254 | multi-class windows are tiled: every bin from the one holding `count*fs` to the one holding the window's end is listed with its argmax class; each end is the next start; the first interval starts at `count*fs`; the trailing bin is not cut |
| PredictionStore.MultiClassAllActive | visualization/predictions/prediction_info.py:270-294 | in multi-class mode every bin of the window is emitted, consecutively |
| PredictionStore.ConsecutiveTiles | visualization/predictions/prediction_info.py:287-294 | the overlay of consecutive multi-class bins tiles its span and carries each bin's class |
| PredictionStore.MultiClassBin | visualization/predictions/prediction_info.py:250-252 | a multi-class bin ends at its own boundary, and only the first bin can start at `count*fs` instead of its boundary |
| PredictionStore.ThresholdMonotone | visualization/predictions/prediction_info.py:259-295 | raising the threshold can only drop binary intervals: each interval drawn at the higher threshold is drawn at the lower one |
| PredictionStore.MaskThreshold | visualization/predictions/prediction_info.py:259-295 | a bin drawn at the higher threshold is drawn at the lower one |
| PredictionStore.IntervalKept | visualization/predictions/prediction_info.py:295-297 | a bin listed at both thresholds has the same interval at each |
| PredictionStore.BinInsideWindow | visualization/predictions/prediction_info.py:260-297 | the stretch of a bin that the window touches is non-empty and starts inside the window |
| PredictionStore.BinsInOrder | visualization/predictions/prediction_info.py:268-301 | a later bin starts after an earlier one ends |
| PredictionStore.OverlayOfAt | visualization/predictions/prediction_info.py:296-300 | entry i of the overlay describes bin i of the list: its start, end, class and channel row |
| PredictionStore.OverlayNext | visualization/predictions/prediction_info.py:287-301 | the overlay below bin k+1 is the one below k, with bin k appended when it is drawn |
| PredictionStore.ActiveBins | visualization/predictions/prediction_info.py:268-301 | the drawn bins are listed in increasing order, all in range and all active |
| PredictionStore.IndicesComplete | visualization/predictions/prediction_info.py:268-301 | the listed bins are every active bin of the range, in strictly increasing order |
| PredictionStore.CheckShape | visualization/predictions/prediction_info.py:155-186 | an accepted tensor has a bin count dividing `fs*max_time` and the layout its flags announce: binary per-channel is (bins, nchns) with nchns > 2; multi-class per-channel is (bins, nchns, classes); binary single-channel has one value per bin. The multi-class flag is set exactly when multi-class was requested |
| PredictionStore.Squeeze | visualization/predictions/prediction_info.py:165 | `squeeze()` keeps the data and the element count, never adds an axis and leaves no axis of length 1 |
| PredictionStore.GetColor | visualization/predictions/prediction_info.py:53-70 | a palette colour exactly for classes 0..5, never the seventh palette entry; class 0 is transparent and the others have alpha 50 |
| PredictionStore.GetColorDistinct | visualization/predictions/prediction_info.py:53-61 | distinct classes below 6 get distinct colours |
| PlotUtils.CheckAnnotations | visualization/plot_utils.py:8-53 | returns the annotations the scan keeps and the smoothed marks of the seconds they fall in |
| PlotUtils.ScanFrom | visualization/plot_utils.py:28-38 | every annotation the scan keeps has its whole second inside `[t_start, t_start+ws-1]` |
| PlotUtils.ScanFromSorted | visualization/plot_utils.py:30-38 | on annotations sorted by onset, stopping at the first onset past the window loses nothing: the scan keeps exactly the in-window annotations from i on |
| PlotUtils.WindowAnnotationsSorted | visualization/plot_utils.py:22-40 | with annotations sorted by onset, `check_annotations` returns exactly those whose `int(onset)` lies in the window, in stored order (none when there are no annotations) |
| PlotUtils.NoneInWindow | visualization/plot_utils.py:37-38 | a list whose every onset is past the window has no annotation in it |
| PlotUtils.Marked | visualization/plot_utils.py:26-33 | the bitmap has one entry per second of the window |
| PlotUtils.MarkedSnoc | visualization/plot_utils.py:33 | keeping an annotation sets exactly the bit of its second |
| PlotUtils.SmoothInPlace | visualization/plot_utils.py:42-51 | the in-place pass leaves exactly the smoothed bitmap of the original marks, so a bit cleared earlier never changes a later decision |
| PlotUtils.SmoothedProperties | visualization/plot_utils.py:42-51 | smoothing only clears bits; for `ws > 1` a bit survives exactly when it was set and an in-window neighbour was set; smoothing twice changes nothing |
| PlotUtils.AdjacentMarksExample | visualization/plot_utils.py:8-53 | annotations at seconds 2, 3 and 9 of the window 0..9 are all returned, and only bits 2 and 3 survive smoothing |
| PlotUtils.SanitizedStages | visualization/plot_utils.py:68-81 | a stage runs exactly when its toggle is on and its cutoff lies in (0, fs/2], with the configured value; the band-pass also needs bp2 > bp1 |
| PlotUtils.UpperBandEdgeUnchecked | visualization/plot_utils.py:77 | bp2 is never compared with fs/2, so a band reaching past fs/2 is kept |
| PlotUtils.StageOrder | visualization/plot_utils.py:91-127 | a channel's pass runs notch, then low-pass, then high-pass, then band-pass; with every cutoff 0 the channel is unchanged |
| PlotUtils.FilterData | visualization/plot_utils.py:55-129 | the result is the input with the stages run up to the cancel point (all of them without a cancel); the input is not modified (values); `filter_canceled` is set exactly when a cancel is reported inside the pass |
| PlotUtils.FilterChannel | visualization/plot_utils.py:92-127 | one channel's four stages, stopping at a cancel that falls within them and reporting it |
| PlotUtils.ApplyStage | visualization/plot_utils.py:93-100 | one stage of one channel advances the pass by exactly one step |
| PlotUtils.AfterStepsNext | visualization/plot_utils.py:91-127 | the next step changes only the current channel, by running its next stage |
| PlotUtils.FullPass | visualization/plot_utils.py:91-127 | without a cancel every channel gets its full four-stage pass |
| PlotUtils.ConvertFromCount | visualization/plot_utils.py:131-151 | `3600h + 60m + s` is the count, with m and s below 60 |
| PlotUtils.ConvertFromCountUnique | visualization/plot_utils.py:131-151 | the split is the only one with minutes and seconds below 60 |
| PlotUtils.GetTimeRoundTrip | visualization/plot_utils.py:153-173 | the text reads back as the count: three colon-separated numbers, the last two of exactly two digits |
| PlotUtils.GetTime | visualization/plot_utils.py:153-173 | the text is the hours, then minutes and seconds each as exactly two digits, separated by colons |
| PlotUtils.GetTimeExamples | visualization/plot_utils.py:153-173 | 72 s is "0:01:12" and 3624 s is "1:00:24" |
| Session.Viewer.constructor | visualization/plot.py:489-496 | a freshly loaded recording is shown from second 0 with the amplitude scale [150, 100] and a fresh, unchecked filter |
| Session.Viewer.MovePlot | visualization/plot.py:1302-1306 | count moves left only when it stays at or above 0 and right only when `count+num_move+ws <= nsamples/fs`, and is unchanged otherwise; the slider follows count; a window inside the recording stays inside it |
| Session.Viewer.CallMovePlot | visualization/plot.py:1275-1282 | nothing moves before a recording is shown; afterwards it is `move_plot` with the same guarantees |
| Session.Viewer.SliderChange | visualization/plot.py:1064-1072 | a slider value in `[0, max_time-ws]` puts the window exactly there, since the one-second step back undoes the `+1`; a larger value is clamped to `max_time-ws` and then stepped back one second |
| Session.Viewer.ChgWindowSize | visualization/plot.py:1242-1253 | the text `"<n>s"` sets the width to n and the slider maximum to `max_time-n`; a window now past the end is pulled back to `max_time-n`; unparsable text raises and changes nothing |
| Session.Viewer.GetCount | visualization/plot.py:1255-1266 | the accepted value becomes count, clamped to at most `max_time-ws`; a dismissed dialog changes nothing |
| Session.Viewer.AnnClicked | visualization/plot.py:729-736 | the window jumps to the annotation's whole second, clamped so that count never exceeds `max_time-ws` |
| Session.Viewer.IncAmp | visualization/plot.py:1226-1232 | steps the scale by (-15, -10) only while `ylim[0] > 50`; keeps `2*ylim[0] == 3*ylim[1]` and `45 <= ylim[0] <= 255` |
| Session.Viewer.DecAmp | visualization/plot.py:1234-1240 | steps the scale by (+15, +10) only while `ylim[0] < 250`; keeps the same ratio and bounds |
| Session.Viewer.AnnEditorCreate | visualization/plot.py:840-862 | empty text changes nothing; otherwise the new annotation is inserted before the first one whose whole second is after `loc` |
| Session.InsertAnnotation | visualization/plot.py:846-859 | the list grows by exactly one entry |
| Session.InsertAt | visualization/plot.py:846-850 | the position where the editor's loop stops is where the new annotation goes |
| Session.InsertIsPermutation | visualization/plot.py:854-859 | inserting adds the new annotation and loses none of the others |
| Session.InsertKeepsSorted | visualization/plot.py:846-859 | a list sorted by whole seconds stays sorted |
| Session.Viewer.InitFilter | visualization/plot.py:553-602 | a file whose first annotation is "filtered" turns the filter checkbox on and takes `LoadFilter`'s settings and error (the `ValueError` or `IndexError` the source raises); any other file takes the command-line settings, the checkbox on exactly when `FilterFromArgs` holds |
| Session.FromArgs | visualization/plot.py:590-598 | each stage is on exactly when its command-line value is non-zero (the band needs both edges), and the values are kept with their int or float type |
| Session.FilterFromArgs | visualization/plot.py:599-601 | the checkbox starts on exactly when `filter[0]` is 1 and some stage is on |
| Session.DefaultArgsExample | visualization/plot.py:590-601 | the default command-line filter `[0, 30, 2, 0, 0, 0]` leaves the checkbox off and only the notch off |
| Session.WrittenText | visualization/plot.py:1186-1193 | `str(do_x * x)` is made of digits, a sign and a point, and starts with '-' exactly when the written product is negative (a switched-off float writes "0.0" or "-0.0") |
| Session.ParseWritten | visualization/plot.py:570-1193 | `float(str(do_x * x))` parses and equals `do_x * x` |
| Session.ParseZeros | visualization/plot.py:570-589 | "0", "0.0" and "-0.0" read back as zero |
| Session.BeforeHz | visualization/plot.py:565-567 | `split("Hz")[0]` of a text ending in "Hz" with no other 'z' is the text before it |
| Session.ReadHzText | visualization/plot.py:565-567 | `split("Hz")[0][k:]` of a written low-pass, high-pass or notch text is the value's text |
| Session.ReadBandText | visualization/plot.py:568-569 | a band text with two unsigned values splits at '-' into the two values' texts |
| Session.ReadBandSignedSecond | visualization/plot.py:568-569 | a negative upper band edge makes the second piece empty |
| Session.ReadBandSignedFirst | visualization/plot.py:568 | a negative lower band edge makes the first piece empty |
| Session.HeaderAnnotations | visualization/plot.py:1180-1195 | five entries at onset 0.0 with duration -1.0, the first "filtered" |
| Session.HeaderFields | visualization/plot.py:565-1190 | the low-pass, high-pass and notch fields read back as the written values' texts |
| Session.BandField | visualization/plot.py:568-1193 | the band field reads back as both written texts when neither is negative, and as an empty piece where one is |
| Session.ReadStages | visualization/plot.py:570-589 | each stage takes its parsed value and is on exactly when that is positive, the band needing both edges; the first text that does not parse raises `ValueError` with the stages before it set and the rest left at their defaults |
| Session.LoadFilter | visualization/plot.py:562-589 | a "filtered" list shorter than five entries, or a band text without '-', raises `IndexError` with the defaults kept |
| Session.LoadHeader | visualization/plot.py:562-1195 | reading the saved header with non-negative band edges is reading the five written texts |
| Session.ReadWrittenStages | visualization/plot.py:570-589 | the written texts restore every stage that was on with a positive cutoff; a negative band edge raises `ValueError` with the band off |
| Session.SaveLoadRoundTrip | visualization/plot.py:562-1195 | saving with the filter on and loading the saved file restores every stage that was on with a positive cutoff, by value, and switches off the rest, whatever the file's annotations were; a negative band edge makes the load raise `ValueError` with the band off |
| Session.IntsLoadAsFloats | visualization/plot.py:570-1190 | int cutoffs saved as "30" come back as the floats 30.0 |
| Session.HeaderTextExample | visualization/plot.py:1186 | the int low-pass 30 is written "LP: 30Hz", the float 30.0 "LP: 30.0Hz" |
| Session.NegativeBandExample | visualization/plot.py:568-1193 | a band from -5.0 to 2 is saved but its file fails to load with `ValueError` |
| Session.ReadThreeStages | visualization/plot.py:570-589 | positive low-pass, high-pass and notch texts with a zero band restore those three stages with the band off |
| Session.CheckArgs | visualization/plot.py:2090-2133 | no message exactly when both the recording and the montage file are given or neither, and the recording when `show` is 0; the given files exist, the montage ends in ".txt" and the predictions in ".pt"; the threshold is in [0, 1], the line thickness in [0.1, 3], and a given font size is at least 5 with a line thickness given |
| Session.MissingName | visualization/plot.py:2092-2106 | no message exactly when the recording and montage names are given together and the recording is given when `show` is 0 |
| Session.FileProblem | visualization/plot.py:2108-2122 | no message exactly when every given file exists and has its required suffix |
| Session.RangeProblem | visualization/plot.py:2124-2133 | no message exactly when the threshold, line thickness and font size are in range |
| Session.SuffixTest | visualization/plot.py:2115-2121 | the `[len-k:]` slice test is the suffix test |
| Session.SaveAnnotations | visualization/plot.py:1177-1195 | raising happens exactly when a "filtered" list has fewer than the five entries to drop |
| Session.SaveTwiceKeepsOneHeader | visualization/plot.py:1177-1180 | saving a saved file again replaces its "filtered" annotations instead of adding a second set |
| Session.BeforeSub | visualization/plot.py:565-567 | the part before the first "Hz" is no longer than the text |
| Session.CheckTopoChns | visualization/plot.py:1687-1707 | returns 1 exactly when every non-"Notes" label is a 10-20 bipolar label or every one is a 10-20 average-reference label, and 0 otherwise |
| Session.LargeFontAccepted | visualization/plot.py:2128-2130 | the upper font-size bound tests the line thickness, so a font size of 100 is accepted |
| LabelLookup.Put | visualization/signal_loading/channel_info.py:18-27 | `d[k] = v` stores (k, v) and keeps every other entry of d |
| LabelLookup.Get | visualization/signal_loading/channel_info.py:67-70 | `_check_label_helper` returns -1 or a value stored under the key, and the stored value whenever the key is present |
| LabelLookup.GetPut | visualization/signal_loading/channel_info.py:18-70 | reading after `d[k] = v` gives v at k and the old value elsewhere |
| LabelLookup.GetRekey | visualization/signal_loading/channel_info.py:9-29 | after a dict is re-keyed, a lookup finds the value of the last original key that maps to the new key |
| LabelLookup.LastWithFound | visualization/signal_loading/channel_info.py:9-30 | with no negative values, a re-keyed lookup succeeds exactly when some key maps to the name, and then returns that key's value |
| LabelLookup.RekeyValues | visualization/signal_loading/channel_info.py:9-29 | re-keying never invents a value |
| LabelLookup.StagedGetValue | visualization/signal_loading/channel_info.py:9-30 | the three staged lookups (upper case, then without "EEG ", then without "-REF") return -1 or a channel index of the recording |
| LabelLookup.StagedGetUpper | visualization/signal_loading/channel_info.py:9-11 | a label that equals a key up to case is found by the first stage, as the last such key's value |
| Channels.CheckLabel | visualization/signal_loading/channel_info.py:5-65 | `_check_label` returns -1 or the index of a channel of the recording |
| Channels.CheckLabelExact | visualization/signal_loading/channel_info.py:9-11 | a label that equals a key up to case names that key's channel |
| Channels.CheckLabelExamples | visualization/signal_loading/channel_info.py:5-65 | with keys "t1-REF", "EEG T2", "T3": T1, T2 and T3 are found at 0, 1 and 2; "T7" is found as T3; "T8" is not found |
| Channels.FallbackSecondRenamed | visualization/signal_loading/channel_info.py:42-49 | a renamed second electrode overwrites the first rename and drops the hyphen: "F7-T7" is retried as "F7T3" |
| Channels.FallbackFirstRenamed | visualization/signal_loading/channel_info.py:34-41 | a renamed first electrode keeps the hyphen: "T7-O1" is retried as "T3-O1" |
| Channels.RemoveFirst | visualization/signal_loading/channel_info.py:82-87 | removing the first occurrence of a substring shortens the text by its length, or leaves it when absent |
| Channels.ConvertSingle | visualization/signal_loading/channel_info.py:81-115 | a cleaned name without a hyphen converts to its 10-20 name (T7, P7, T8, P8 to T3, T5, T4, T6), or stays |
| Channels.ConvertTxtSingleExamples | visualization/signal_loading/channel_info.py:81-116 | "t1" gives "T1", "EEG t7" gives "T3", "t1-REF" gives "T1" |
| Channels.ConvertPair | visualization/signal_loading/channel_info.py:88-106 | a hyphenated name converts to the renamed first electrode with a hyphen (or nothing) followed by the renamed second electrode (or nothing) |
| Channels.ConvertTxtBothRenamed | visualization/signal_loading/channel_info.py:88-106 | "T7-T7" gives "T3-T3" and "P7-T7" gives "T5-T3" |
| Channels.ConvertTxtDropsUnrenamed | visualization/signal_loading/channel_info.py:88-106 | an electrode that is not renamed disappears: "T7-T1" gives "T3-", "T1-P7" gives "T5", "CZ-PZ" gives "" |
| Channels.MontageLabels | visualization/signal_loading/channel_info.py:264-271 | the montage list chosen by (bip_ar, 1010) is never empty |
| Channels.LastTo | visualization/signal_loading/channel_info.py:230-233 | the last list label sent to channel i, and None exactly when no label is sent there |
| Channels.FirstTo | visualization/signal_loading/channel_info.py:235-245 | the first list label sent to channel i, and None exactly when no label is sent there |
| Channels.FillFirst | visualization/signal_loading/channel_info.py:235-245 | a filled slot is never overwritten; an empty one takes a label that `_check_label` sends to the channel |
| Channels.FillFirstIsFirst | visualization/signal_loading/channel_info.py:235-245 | an empty slot takes the first label sent to the channel |
| Channels.ResolvedMeaning | visualization/signal_loading/channel_info.py:226-253 | each channel is named by a montage label `_check_label` sends to it or else by its own label; the last bipolar 10-20 label sent to it always wins; otherwise the first average-reference 10-20 label wins |
| Channels.ChannelInfo.constructor | visualization/signal_loading/channel_info.py:121-175 | a new record has no channels, no converted names, no text files and nothing to plot |
| Channels.ChannelInfo.ConvertChnNames | visualization/signal_loading/channel_info.py:226-253 | one converted name per channel, each the resolved name above |
| Channels.ConvertNames | visualization/signal_loading/channel_info.py:231-253 | the four passes give every channel its resolved name |
| Channels.WriteAll | visualization/signal_loading/channel_info.py:230-233 | the bipolar pass writes the last bipolar label sent to each channel, unconditionally |
| Channels.FillEmpty | visualization/signal_loading/channel_info.py:235-245 | the average-reference and other-label passes fill only empty slots, in list order |
| Channels.FillOwn | visualization/signal_loading/channel_info.py:251-253 | an empty slot takes the channel's raw label and the others are kept |
| Channels.ChannelInfo.CanDoBipAr | visualization/signal_loading/channel_info.py:255-278 | returns 1 exactly when every label of the chosen montage is among the converted names, else 0 |
| Channels.ChannelInfo.CanDoBipArIdx | visualization/signal_loading/channel_info.py:280-307 | returns 1 exactly when every label of the chosen montage is the converted name of one of the given indices, else 0 |
| Channels.ChannelInfo.GetChns | visualization/signal_loading/channel_info.py:309-331 | the flags equal `Selection` of the converted names |
| Channels.SelectionCoversOnce | visualization/signal_loading/channel_info.py:316-331 | a selected channel's name is one of the labels; each label naming some channel selects a channel of that name; no two selected channels share a name |
| Channels.ConvertTxtChnName | visualization/signal_loading/channel_info.py:72-116 | a converted name is upper case whatever the case of the text file, and a single electrode (no hyphen after stripping "EEG " and "-REF") stays hyphen-free |
| LabelLookup.StagedGet | visualization/signal_loading/channel_info.py:9-30 | the upper-case lookup wins when it finds the label, then the lookup without "EEG ", and otherwise the lookup without "-REF"; the result is always one of the three |
| LabelLookup.TemporalRename | visualization/signal_loading/channel_info.py:32-58 | exactly T7, P7, T8 and P8 are renamed, to T3, T5, T4 and T6 |
| Montages.CheckLabel | visualization/montages.py:5-51 | the montage lookup returns -1 or the index of a channel of the recording |
| Montages.CheckLabelAgrees | visualization/montages.py:31-46 | on labels without a hyphen it agrees with the channel module's lookup; the two differ only in the bipolar fallback |
| Montages.CheckMontage | visualization/montages.py:53-63 | returns 0 exactly when some bipolar label occurs in the upper-cased label, else 1 |
| Montages.MontageRows | visualization/montages.py:95-117 | n rows, each the file's signal for its label or all zeros; rows past the label list are zeros; all rows are as wide as the data |
| Montages.MontageRowOfKey | visualization/montages.py:97-101 | the row of a montage label that a file label upper-cases to is the signal of the last such file label |
| Montages.EdfMontage.constructor | visualization/montages.py:69-77 | a new montage takes the record's label map and channel count, with no data |
| Montages.EdfMontage.ReorderData | visualization/montages.py:80-102 | a file whose first label is bipolar gives the 18 bipolar rows, any other the 19 average-reference rows; labels not found give zero rows; an empty label map raises and changes nothing |
| Montages.EdfMontage.Ar | visualization/montages.py:104-118 | the average-reference rows, `nchns` of them |
| Montages.EdfMontage.FillRows | visualization/montages.py:112-117 | the copy loop leaves exactly `MontageRows` |
| Montages.EdfMontage.GetBipolarFromAr | visualization/montages.py:120-137 | bipolar row k is the difference of the two average-reference rows picked by name for the k-th bipolar pair |
| Montages.PairDifferences | visualization/montages.py:133-136 | one row per pair, the first row minus the second |
| Montages.Difference | visualization/montages.py:136 | element-wise difference of two rows |
| Montages.PickedLabelContains | visualization/montages.py:129-130 | the row picked for an electrode contains its name whenever some average-reference label does, and is row 0 when none does |
| Montages.BipolarLabelSplits | visualization/montages.py:127-128 | every bipolar label splits at its hyphen into at least two parts |
| Montages.BipolarPairs | visualization/montages.py:126-132 | the first loop records each bipolar label's pair of rows |
| Montages.FindEach | visualization/montages.py:129-130 | `np.char.find` gives each label's position of the name, or -1 |
| Montages.ArgMaxInt | visualization/montages.py:129-130 | `np.argmax` is the first index holding the largest value |
| Montages.IndexForFs | visualization/montages.py:139-145 | returns the value of the last (name, key) pair in scanning order whose key contains the name, and 0 when no key contains any name |
| Montages.LastKeyContaining | visualization/montages.py:142-144 | the inner loop gives the value of the last key containing the name, or keeps the old value |
| Montages.EdfMontage.GetPredictions | visualization/montages.py:147-179 | a "PREDICTIONS" signal is stored as single-channel predictions; otherwise "PREDICTIONS_0", "PREDICTIONS_1", … are stored transposed with `pred_by_chn` set; in both cases the width fits `fs*max_time` and the result is 1; a length-0 signal raises; with neither, the result is 0 and nothing changes |
| Montages.StorePreds | visualization/montages.py:157-163 | the predictions, their plotted copy and the loaded flag are set, then the width, which raises for an empty signal |
| Montages.QuotientFits | visualization/montages.py:163 | the width times the length is `fs*max_time` when the length divides it |
| Montages.ReadPredRows | visualization/montages.py:166-171 | the loop reads the consecutive per-channel prediction signals in channel order |
| Montages.PredRows | visualization/montages.py:166-171 | one signal of the recording per consecutive prediction key |
| Montages.PredCountIs | visualization/montages.py:168 | the loop stops at the first missing `PREDICTIONS_<i>` |
| Montages.PredCount | visualization/montages.py:165-172 | every `PREDICTIONS_<i>` below the count is present and `PREDICTIONS_<count>` is not |
| Montages.CountFromEnd | visualization/montages.py:168-171 | the loop started at i stops at a missing key |
| Montages.CountFromStops | visualization/montages.py:168-171 | keys present from i up to a missing n make the loop run n - i times |
| Montages.CountFromKeys | visualization/montages.py:168-171 | every key the loop passes is present |
| Montages.PredKeyBound | visualization/montages.py:168 | a key present in the map bounds the count, so the loop stops |
| Montages.Transposed | visualization/montages.py:172-173 | `np.array(rows).T` is a (length, channels) tensor |
| Montages.TransposedEntry | visualization/montages.py:172-173 | entry (t, c) of the transposed predictions is sample t of channel c |
| EdfLoading.CheckLabel | visualization/preprocessing/edf_loader.py:7-17 | the upper-cased label when the list holds it, else the upper-cased first electrode after the fourth character when the list holds that, else no label; a label returned is always in the list |
| EdfLoading.Retry | visualization/preprocessing/edf_loader.py:12-13 | the retried label is upper case and holds no hyphen |
| EdfLoading.RetryElectrode | visualization/preprocessing/edf_loader.py:12-13 | after a four-character prefix, the retry is the upper-cased first electrode, whether or not a second one follows |
| EdfLoading.CheckLabelMissesShort | visualization/preprocessing/edf_loader.py:7-17 | "abc" and "fp1" find nothing in a list of bipolar labels starting with FP1 |
| EdfLoading.CheckLabelFinds | visualization/preprocessing/edf_loader.py:7-17 | "fp2" is found as "FP2" and "F7-T7" as it is |
| EdfLoading.CheckLabelMissesFp2F4 | visualization/preprocessing/edf_loader.py:7-17 | "fp2-f4" finds nothing, because its retry is "F4" |
| EdfLoading.Checked | visualization/preprocessing/edf_loader.py:64-113 | a file signal is loaded only under a checked label that is not empty (an empty string is falsy) |
| EdfLoading.LastIndex | visualization/preprocessing/edf_loader.py:59-61 | the last position of a label in the list, or -1 exactly when it is absent |
| EdfLoading.GetLabelIndex | visualization/preprocessing/edf_loader.py:59-61 | the labels2chns dictionary built by the loop maps each label to its last position in the list |
| EdfLoading.IndexInvertsList | visualization/preprocessing/edf_loader.py:59-61 | for a list without repeats, labels2chns and chns2labels are inverse to each other |
| EdfLoading.UpperAll | visualization/preprocessing/edf_loader.py:79-83 | every file label upper-cased, in file order |
| EdfLoading.LastSource | visualization/preprocessing/edf_loader.py:63-69 | the last file signal placed in a channel, among the first n |
| EdfLoading.LastSourceMeaning | visualization/preprocessing/edf_loader.py:63-69 | -1 exactly when no file signal goes to the channel; otherwise one that does, with no later one doing so |
| EdfLoading.LastSourceStep | visualization/preprocessing/edf_loader.py:63-69 | each file signal placed in a channel replaces the earlier one |
| EdfLoading.Placed | visualization/preprocessing/edf_loader.py:63-115 | m channels, each holding the value of the last file signal placed in it, or the default |
| EdfLoading.Keys | visualization/preprocessing/edf_loader.py:64-113 | one checked label per file signal |
| EdfLoading.Destinations | visualization/preprocessing/edf_loader.py:67-114 | the channel each checked label maps to, -1 for a signal without one |
| EdfLoading.ListKeysPlaceable | visualization/preprocessing/edf_loader.py:64-67 | against the index of the list itself, every checked label is in the dictionary and names the channel of that label |
| EdfLoading.CollapseRates | visualization/preprocessing/edf_loader.py:88-89 | the rates become one number exactly when there is at least one and all are equal |
| EdfLoading.BaseName | visualization/preprocessing/edf_loader.py:39 | the recording name holds no '/' and no '.' |
| EdfLoading.SplitPrefix | visualization/preprocessing/edf_loader.py:39 | the first part of a split is a prefix of the text |
| EdfLoading.BaseNameOfPath | visualization/preprocessing/edf_loader.py:39 | `dir/stem.ext` names the recording `stem` |
| EdfLoading.EegInfo.constructor | visualization/preprocessing/eeg_info.py:4-22 | a new recording information has empty fields |
| EdfLoading.EdfLoader.constructor | visualization/preprocessing/edf_loader.py:23-24 | the loader keeps the label list |
| EdfLoading.EdfLoader.LoadMetadata | visualization/preprocessing/edf_loader.py:26-91 | the information names the file, its stem and duration; with a label list the channels are the list's, each with the count and rate of the last file signal checking to it, 0 otherwise; without one, every file signal under its upper-cased label; equal rates collapse |
| EdfLoading.ChannelLayout | visualization/preprocessing/edf_loader.py:52-89 | the channel set-up of load_metadata, both branches |
| EdfLoading.SetChannels | visualization/preprocessing/edf_loader.py:52-89 | the recording information's channel fields hold that set-up |
| EdfLoading.IndexLabels | visualization/preprocessing/edf_loader.py:57-61 | the loop builds the index of the list and lists the labels by position |
| EdfLoading.IndexUpperLabels | visualization/preprocessing/edf_loader.py:75-83 | the loop builds the upper-cased labels, their index and their list by position |
| EdfLoading.PlaceListCounts | visualization/preprocessing/edf_loader.py:63-69 | the counts and rates of a label list's channels |
| EdfLoading.PlaceCounts | visualization/preprocessing/edf_loader.py:63-69 | the loop gives each channel the count and rate of the last file signal naming it, and 0 otherwise |
| EdfLoading.EdfLoader.LoadBuffers | visualization/preprocessing/edf_loader.py:93-116 | each file signal whose label checks goes into its channel, a later one replacing an earlier one; fails exactly when a checked label is missing from the dictionary or maps past the buffers |
| EdfLoading.PlaceBuffers | visualization/preprocessing/edf_loader.py:103-115 | the loop fails exactly when some key is unplaceable, and otherwise places every signal |
| EdfLoading.Present | visualization/preprocessing/edf_loader.py:115 | the read signals as loaded buffers |
| EdfLoading.LastSourceIdentity | visualization/preprocessing/edf_loader.py:79-83 | when signal e goes to channel e, channel c is reached last by signal c |
| EdfLoading.UpperKeys | visualization/preprocessing/edf_loader.py:79-113 | checked against its own upper-cased labels, each file label comes back upper-cased unless empty |
| EdfLoading.NoListBuffersInFileOrder | visualization/preprocessing/edf_loader.py:71-116 | without a label list, loading the buffers never fails, and with distinct non-empty labels channel c holds file signal c |
| EdfLoading.ListBuffersPlaced | visualization/preprocessing/edf_loader.py:52-116 | with a label list, loading the buffers never fails, and channel c holds the last file signal checking to the c-th label, or nothing when none does |
| ChannelOptions.CutLine | visualization/signal_loading/channel_options.py:396-398 | a line cut at its line end holds no line end and is no longer than the line |
| ChannelOptions.CutLinePrefix | visualization/signal_loading/channel_options.py:396-398 | the cut is exactly the prefix before the first line end, or the whole line |
| ChannelOptions.TxtLines | visualization/signal_loading/channel_options.py:393-402 | the kept lines are non-empty, hold no line end, and are no more than the file's lines |
| ChannelOptions.TxtLinesMembers | visualization/signal_loading/channel_options.py:393-402 | a string is kept exactly when it is the non-empty cut of some line |
| ChannelOptions.TxtLinesOfCleanText | visualization/signal_loading/channel_options.py:393-402 | a file whose lines are already cut and non-empty is kept unchanged |
| ChannelOptions.CleanLines | visualization/signal_loading/channel_options.py:393-402 | the while loop that cuts lines in place and pops the empty ones leaves exactly the kept lines |
| ChannelOptions.ReadStep | visualization/signal_loading/channel_options.py:394-402 | one pass of that loop either pops an empty cut or keeps a non-empty one and moves on |
| ChannelOptions.TxtLinesStep | visualization/signal_loading/channel_options.py:394-402 | reading one more line adds its cut when it is not empty |
| ChannelOptions.Middle | visualization/signal_loading/channel_options.py:398-400 | replacing or popping the element after a prefix |
| ChannelOptions.CutAtLineEnd | visualization/signal_loading/channel_options.py:396-398 | `find` and the slice give the cut line |
| ChannelOptions.Canonical | visualization/signal_loading/channel_options.py:410-412 | a converted channel name is kept, any other line converted |
| ChannelOptions.StoredLabels | visualization/signal_loading/channel_options.py:408-413 | the stored labels are the lines last to first, each made canonical |
| ChannelOptions.StoredNamesReversed | visualization/signal_loading/channel_options.py:408-413 | a file of converted names only is stored reversed, and reversing the stored labels gives back the lines |
| ChannelOptions.ShortName | visualization/signal_loading/channel_options.py:364-366 | the part of the path after the last '/', cut to 15 characters plus "..." when longer; at most 18 characters |
| ChannelOptions.ShortNamesCollide | visualization/signal_loading/channel_options.py:364-370 | two file names sharing their first 15 characters get the same short name, so the second is refused |
| ChannelOptions.NumSelected | visualization/signal_loading/channel_options.py:478-483 | the number of selected items is at most the number of items |
| ChannelOptions.SelectedChannels | visualization/signal_loading/channel_options.py:478-481 | one channel per selected item |
| ChannelOptions.SelectedPositions | visualization/signal_loading/channel_options.py:478-481 | the positions of the selected items, each in range and selected |
| ChannelOptions.SelectedAreSelectedPositions | visualization/signal_loading/channel_options.py:478-481 | for distinct labels indexed by position, the channels collected are the selected positions |
| ChannelOptions.ChannelOptions.constructor | visualization/signal_loading/channel_options.py:18-39 | a new window over the recording, nothing selected and no box checked |
| ChannelOptions.ChannelOptions.CheckChns | visualization/signal_loading/channel_options.py:378-414 | 1 exactly when every kept line is a converted name or a label key; then the stored labels go under the short name, else nothing changes |
| ChannelOptions.ChannelOptions.LoadTxtFile | visualization/signal_loading/channel_options.py:339-376 | an empty name does nothing; a short name already loaded is refused; a mismatch changes nothing; a matching file is stored, every other file box is unchecked, the new box is added checked, the loaded file is in use and the selection is exactly the file's channels |
| ChannelOptions.ChannelOptions.TxtFileChecked | visualization/signal_loading/channel_options.py:293-319 | checking a file box selects exactly its channels, unchecks the montage boxes the checked 10-20 boxes exclude and every other file box; unchecking deselects its channels and leaves the boxes; either way "use loaded file" follows the box and channels past the converted ones are untouched |
| ChannelOptions.ChannelOptions.UncheckOtherFiles | visualization/signal_loading/channel_options.py:310-317 | every other checked file box is unchecked, the named one keeps its state, and channels past the converted ones are untouched |
| ChannelOptions.ChannelOptions.SelectChns | visualization/signal_loading/channel_options.py:321-337 | with deselect-only, the flagged items are deselected and the others keep their state; otherwise each covered item is selected exactly when flagged |
| ChannelOptions.ChannelOptions.Check | visualization/signal_loading/channel_options.py:472-490 | collects the channels of the selected items; -1 exactly when none or more than the maximum are selected, 0 otherwise; changes nothing |
| ChannelOptions.ChannelOptions.GetMontType | visualization/signal_loading/channel_options.py:507-535 | average reference 10-20 (0) before bipolar (1) before average reference 10-10 (2) before a text file (4, the last checked box), else 5 |
| ChannelOptions.ChannelOptions.StoreLines | visualization/signal_loading/channel_options.py:408-413 | the loop stores the lines reversed and canonical |
| ChannelOptions.CheckMultiChnPreds | visualization/signal_loading/channel_options.py:416-424 | the predicted flag is cleared exactly when per-channel predictions have a different channel count from the plotted channels; it is never set |
| OrganizeChannels.ZeroRow | visualization/signal_loading/organize_channels.py:90 | a row of zeros as long as the signal row |
| OrganizeChannels.OrganizeWindow.constructor | visualization/signal_loading/organize_channels.py:73-74 | a new window over the recording with no items listed |
| OrganizeChannels.OrganizeWindow.PopulateChnList | visualization/signal_loading/organize_channels.py:70-83 | marks the channels organized; the flipped labels are the plotted labels after "Notes", and the list items are those labels bottom row first |
| OrganizeChannels.OrganizeWindow.UpdateChnOrder | visualization/signal_loading/organize_channels.py:85-103 | the plotted labels, colours and signal rows are reordered as the list rows say; when the list shows the plotted labels bottom row first, every channel moves to its new plot row together with its colour and signal row |
| OrganizeChannels.Reorder | visualization/signal_loading/organize_channels.py:88-100 | both loops of the reorder, with the same two guarantees |
| OrganizeChannels.CopyRows | visualization/signal_loading/organize_channels.py:88-94 | "Notes" and every coloured channel in place, zero signal rows past the colours |
| OrganizeChannels.MoveItems | visualization/signal_loading/organize_channels.py:96-100 | item k writes its text as the label of plot row n-rows[k]-1 and brings the colour and signal row of plot row n-k-1 there; rows past the items are untouched |
| OrganizeChannels.Destination | visualization/signal_loading/organize_channels.py:96-100 | the plot row a channel lands on is one of the first n |
| OrganizeChannels.ChannelsFollowItems | visualization/signal_loading/organize_channels.py:79-100 | with items listed bottom row first, each channel's label, colour and signal row arrive together at its destination |
| OrganizeChannels.RowsOnto | visualization/signal_loading/organize_channels.py:96-97 | n distinct list rows below n take every row |
| OrganizeChannels.DestinationIsPermutation | visualization/signal_loading/organize_channels.py:96-100 | distinct channels go to distinct plot rows and every plot row receives one: the labels, colours and data rows are permuted jointly |
| OrganizeChannels.UnmovedStays | visualization/signal_loading/organize_channels.py:96-100 | when no item is moved every channel stays in its row |
| SaveEdf.DaysInMonth | visualization/edf_saving/saveEdf_info.py:40-67 | the calendar bound `datetime` checks: 28 to 31 days |
| SaveEdf.MonthNumber | visualization/edf_saving/saveEdf_info.py:37-39 | a month number exactly for the twelve abbreviations, and the abbreviation at that number is the name |
| SaveEdf.ParseBirthdate | visualization/edf_saving/saveEdf_info.py:36-40 | a birthdate exactly when "dd-MMM-yyyy" has three parts, a known month, numeric day and year, and is a calendar date; the result is always valid |
| SaveEdf.StartYear | visualization/edf_saving/saveEdf_info.py:57-61 | a two-digit year maps into 1931-2030 and keeps its last two digits |
| SaveEdf.StartYearOfTwoDigits | visualization/edf_saving/saveEdf_info.py:57-61 | every year from 1931 to 2030 survives being written with two digits |
| SaveEdf.ParseStart | visualization/edf_saving/saveEdf_info.py:57-67 | a valid start date and time read pair by pair from "dd.mm.yy" and "hh.mm.ss", with the century chosen as above |
| SaveEdf.HeaderOf | visualization/edf_saving/saveEdf_info.py:22-67 | succeeds exactly when there are at least four patient and five recording subfields, the birthdate is "X" or valid, and the start parses; then each header entry is the subfield it comes from, with the extra subfields joined without separators |
| SaveEdf.Spaces | visualization/edf_saving/saveEdf_info.py:11-12 | k spaces |
| SaveEdf.Empties | visualization/edf_saving/saveEdf_info.py:31-32 | k empty subfields |
| SaveEdf.JoinAppend | visualization/edf_saving/saveEdf_info.py:11-12 | joining one more subfield adds a separator and the subfield |
| SaveEdf.JoinPad | visualization/edf_saving/saveEdf_info.py:11-32 | trailing spaces after space-joined subfields read back as empty subfields |
| SaveEdf.ConcatEmpties | visualization/edf_saving/saveEdf_info.py:45-53 | empty subfields add nothing when the extra subfields are joined |
| SaveEdf.ConcatAllEmpty | visualization/edf_saving/saveEdf_info.py:45-53 | empty subfields alone join to nothing |
| SaveEdf.SplitPadded | visualization/edf_saving/saveEdf_info.py:31-32 | space-free subfields joined and padded split back into the subfields and one empty subfield per space |
| SaveEdf.SaveEdfInfo.constructor | visualization/edf_saving/saveEdf_info.py:8-20 | the anonymous defaults: "X" subfields padded to 80 characters, start "01.01.01" "01.01.01", and the initial header |
| SaveEdf.SaveEdfInfo.ConvertToHeader | visualization/edf_saving/saveEdf_info.py:22-67 | succeeds exactly when the conversion of the four text fields does, and then the header is that conversion; where it raises, the keys written before the failing step keep their new values and the rest keep the old ones |
| SaveEdf.ConvertedOnSuccess | visualization/edf_saving/saveEdf_info.py:32-67 | the step-by-step write ends in the converted header when nothing raises |
| SaveEdf.ConvertedOnFailure | visualization/edf_saving/saveEdf_info.py:32-67 | a failed conversion has written the patient code, never the start date, the sex exactly when present, and nothing past a missing or unreadable birthdate |
| SaveEdf.ConvertedShortPatient | visualization/edf_saving/saveEdf_info.py:32-40 | a patient field without spaces raises after writing only the patient code |
| SaveEdf.DefaultStart | visualization/edf_saving/saveEdf_info.py:13-67 | the default start reads as 2001-01-01 01:01:01, the header's initial start |
| SaveEdf.DefaultFieldsSplit | visualization/edf_saving/saveEdf_info.py:11-32 | the default fields split into their "X" subfields and empty ones |
| SaveEdf.DefaultsConvert | visualization/edf_saving/saveEdf_info.py:8-67 | the defaults convert to "X" in every subfield, no birthdate, nothing additional, and the default start |
| Anonymizing.CheckDate | visualization/edf_saving/anonymizer.py:522-532 | -1 exactly for a text without three dash parts, a two-character day and a four-character year; otherwise 0 for a known month, and an error (None) for an unknown one, because `index` raises |
| Anonymizing.CheckDateOfParts | visualization/edf_saving/anonymizer.py:522-532 | the value for three dash-free parts, case by case |
| Anonymizing.CheckDateAcceptsLetters | visualization/edf_saving/anonymizer.py:522-532 | "AB-JAN-2001" and "01-JAN-200C" are accepted |
| Anonymizing.CheckDateRaisesOnUnknownMonth | visualization/edf_saving/anonymizer.py:530 | "01-ABC-2001" raises |
| Anonymizing.CheckDateRejectsShortYear | visualization/edf_saving/anonymizer.py:526-527 | "01-JAN-01" is rejected |
| Anonymizing.DefaultDateChecks | visualization/edf_saving/anonymizer.py:295-315 | the date load_file substitutes passes `_valid_date` |
| Anonymizing.MonthsDistinct | visualization/edf_saving/anonymizer.py:351-365 | the twelve month abbreviations differ, so `index` finds the right month |
| Anonymizing.FormatDate | visualization/edf_saving/anonymizer.py:408-429 | the editor's "dd-MMM-yyyy" holds no space, so it stays one subfield |
| Anonymizing.FormatDateSplit | visualization/edf_saving/anonymizer.py:408-429 | it splits into day, month name and year |
| Anonymizing.FormatDateRoundTrip | visualization/edf_saving/anonymizer.py:408-532 | every date written passes `_valid_date` and converts back to the same birthdate |
| Anonymizing.StartYearLeap | visualization/edf_saving/anonymizer.py:396 | a leap year read back from two digits is a leap year, so 29 February survives |
| Anonymizing.StartYearKeepsValid | visualization/edf_saving/anonymizer.py:396 | a valid start stays valid with its year read back from two digits |
| Anonymizing.StartRoundTrip | visualization/edf_saving/anonymizer.py:396-397 | the saved start converts back to the start entered with its year read from two digits, and to exactly the start entered for 1931 to 2030 |
| Anonymizing.Underscored | visualization/edf_saving/anonymizer.py:415-441 | spaces become underscores, length kept |
| Anonymizing.DateField | visualization/edf_saving/anonymizer.py:405-429 | "X" or the formatted date, without spaces |
| Anonymizing.PtIdTextIsJoin | visualization/edf_saving/anonymizer.py:415-417 | the patient field is its five subfields joined by single spaces |
| Anonymizing.Join6 | visualization/edf_saving/anonymizer.py:437-441 | six parts joined, one at a time |
| Anonymizing.RecInfoTextIsJoin | visualization/edf_saving/anonymizer.py:437-441 | the recording field is "Startdate" and five subfields joined by single spaces |
| Anonymizing.Pad80 | visualization/edf_saving/anonymizer.py:419-443 | a field padded with spaces to exactly 80 characters, its text first |
| Anonymizing.PtIdShown | visualization/edf_saving/anonymizer.py:287-353 | the patient subfields shown: at least four, the sex one of X, F, M and the birthdate passing `_valid_date`; none where the month is unknown |
| Anonymizing.RecInfoShown | visualization/edf_saving/anonymizer.py:288-367 | the recording subfields shown: at least five and the date passing `_valid_date`; none where the month is unknown |
| Anonymizing.FixPtIdFields | visualization/edf_saving/anonymizer.py:290-311 | the in-place error checking gives the shown patient subfields |
| Anonymizing.CheckPtIdSexAndDate | visualization/edf_saving/anonymizer.py:290-295 | raises exactly for an unknown birth month; otherwise fixes the sex and a malformed date, other subfields kept |
| Anonymizing.CompletePtId | visualization/edf_saving/anonymizer.py:296-311 | fills up to four subfields with "X" or 01-JAN-2001 and replaces a blank code or name |
| Anonymizing.FixRecInfoFields | visualization/edf_saving/anonymizer.py:313-338 | the in-place error checking gives the shown recording subfields |
| Anonymizing.CheckRecInfoDate | visualization/edf_saving/anonymizer.py:313-315 | raises exactly for an unknown month; otherwise fixes a malformed date |
| Anonymizing.CompleteRecInfo | visualization/edf_saving/anonymizer.py:316-338 | fills up to five subfields and replaces blank admin code, technician and equipment |
| Anonymizing.ShownDatesAreNeverX | visualization/edf_saving/anonymizer.py:294-360 | the date check runs before the "X" test, so a date of "X" is always shown as 01-JAN-2001 |
| Anonymizing.ShownDate | visualization/edf_saving/anonymizer.py:346-367 | the date shown has a month from 1 to 12 |
| Anonymizing.OldStartYear | visualization/edf_saving/anonymizer.py:376-380 | a two-digit year maps into 1921-2020, keeping its last two digits |
| Anonymizing.StartYearCutoffsDiffer | visualization/edf_saving/anonymizer.py:376-380 | the window and the header conversion disagree on the century of exactly the years 21 to 30 |
| Anonymizing.OldStart | visualization/edf_saving/anonymizer.py:376-387 | the original start read digit pair by digit pair, with the window's century |
| Anonymizing.Anonymizer.constructor | visualization/edf_saving/anonymizer.py:501-520 | the window starts with the defaults chosen, valid editors and no file read |
| Anonymizing.Anonymizer.LoadFile | visualization/edf_saving/anonymizer.py:263-387 | succeeds exactly when the subfields are shown, their dates read and the start parses; the original column then holds the shown subfields; on failure it is unchanged |
| Anonymizing.Anonymizer.AnonFile | visualization/edf_saving/anonymizer.py:389-455 | blank code and name become "X"; a patient field over 80 characters saves nothing; then blank recording subfields become "X" and an over-long recording field saves nothing; otherwise both fields are padded to 80 and stored with the start |
| Anonymizing.PtIdSplit | visualization/edf_saving/anonymizer.py:415-420 | the saved patient field splits into its five subfields and one empty subfield per padding space |
| Anonymizing.RecInfoSplit | visualization/edf_saving/anonymizer.py:437-443 | the saved recording field splits likewise |
| Anonymizing.PtIdRead | visualization/edf_saving/anonymizer.py:415-420 | the subfields the header conversion reads from the saved patient field are the ones written |
| Anonymizing.RecInfoRead | visualization/edf_saving/anonymizer.py:437-443 | the subfields read from the saved recording field are the ones written |
| Anonymizing.DateFieldRead | visualization/edf_saving/anonymizer.py:405-408 | a date subfield is "X" exactly when chosen, and otherwise reads back as the date entered |
| Anonymizing.SavedFieldsConvert | visualization/edf_saving/anonymizer.py:389-453 | what the window saves converts into a header carrying exactly the values entered, spaces as underscores, the start year read from two digits |
| Anonymizing.FilledNotBlank | visualization/edf_saving/anonymizer.py:410-413 | a filled code or name is never blank |
| Anonymizing.PtIdShownOf | visualization/edf_saving/anonymizer.py:290-311 | four or more subfields with a checked date are shown with the sex and date fixed and blanks replaced |
| Anonymizing.RecInfoShownOf | visualization/edf_saving/anonymizer.py:313-338 | five or more subfields with a checked date are shown likewise |
| Anonymizing.SavedPatientReload | visualization/edf_saving/anonymizer.py:263-420 | what is saved, loaded again, shows the same patient subfields, a birthdate of "X" shown as 01-JAN-2001 |
| Anonymizing.SavedRecordingReload | visualization/edf_saving/anonymizer.py:263-443 | what is saved, loaded again, shows the same recording subfields, a start date of "X" shown as 01-JAN-2001 |
| Anonymizing.FormatStartDate | visualization/edf_saving/anonymizer.py:396 | `toString("dd.MM.yy")`: eight characters splitting at '.' into the day, month and two-digit year |
| Anonymizing.FormatStartTime | visualization/edf_saving/anonymizer.py:397 | `toString("hh.mm.ss")`: eight characters splitting at '.' into hours, minutes and seconds |
| Anonymizing.PtIdSubfield | visualization/edf_saving/anonymizer.py:289-310 | after error checking the sex is F, M or X (kept when valid), the birthdate passes `_valid_date` (kept when it did), code and name are never blank once there are four subfields, and later subfields are kept |
| Anonymizing.RecInfoSubfield | visualization/edf_saving/anonymizer.py:312-338 | after error checking the date passes `_valid_date` (kept when it did), admin code, technician and equipment are never blank once there are five subfields, and later subfields are kept |
| Anonymizing.ShownOrInitial | visualization/edf_saving/anonymizer.py:122-367 | the original date editor shows the header's date when Qt accepts it, else its initial 1 January 2001, and always a valid date |
| Anonymizing.ShownStart | visualization/edf_saving/anonymizer.py:204-387 | the original start editors show the header's date and time where Qt accepts them, else 1 January 2001 and 01:01:01 |
| Anonymizing.CopiedEntries | visualization/edf_saving/anonymizer.py:467-499 | the copied column has the original code, sex, name, other subfields, admin code, technician and equipment, "X" dates exactly where the original had them, and only valid dates and times |
| Anonymizing.Anonymizer.CopyOriginal | visualization/edf_saving/anonymizer.py:467-499 | the new column becomes the copy of the original column; before any header was read it is left as it is |
| Anonymizing.CopiedDatesReadBack | visualization/edf_saving/anonymizer.py:405-499 | after copying, the date subfields anon_file writes are "X" exactly where the original ones were and otherwise read back as the original dates |
| SignalStats.ClipBand | visualization/signal_stats/signalStats_info.py:22-56 | with no cutoffs the band is used unchanged; any band whose power is taken lies inside the configured band |
| SignalStats.ClipIsIntersection | visualization/signal_stats/signalStats_info.py:36-56 | for non-negative bands and cutoffs, the power is taken over the band intersected with the filters' pass band, and is 0 exactly when that intersection is empty or a single frequency |
| SignalStats.TestSuiteCutoffs | visualization/signal_stats/signalStats_info.py:38-56 | the cutoffs 31, 30, a lower 6, and 4 with 10 narrow, keep or zero the default bands and a 2-5 Hz band as the test suite expects |
| SignalStats.SignalStatsInfo.constructor | visualization/signal_stats/signalStats_info.py:8-20 | channel 0 and the five default bands delta 1-4, theta 4-8, alpha 8-14, beta 14-30 and gamma 30-45 |
| SignalStats.SignalStatsInfo.GetPower | visualization/signal_stats/signalStats_info.py:71-89 | one entry per configured band, each the band clipped against the cutoffs |
| SignalStats.SignalStatsOptions.constructor | visualization/signal_stats/signalStats_options.py:15-33 | the count of added bands starts at the number of bands beyond the five defaults, with empty editors |
| SignalStats.SignalStatsOptions.CheckValid | visualization/signal_stats/signalStats_options.py:114-132 | accepts exactly a name of 1 to 10 characters not yet in the table with a first frequency below the second |
| SignalStats.SignalStatsOptions.AddFsBand | visualization/signal_stats/signalStats_options.py:93-112 | adds exactly when fewer than five bands were added and the entry is valid; the band goes into the table under its name, the count goes up and the editors are cleared; otherwise nothing changes; the table stays well formed |
| SignalStats.SignalStatsOptions.Check | visualization/signal_stats/signalStats_options.py:134-151 | the side panel gains a label for each band of the table it did not yet label, in table order |
| SignalStats.UnlabelledAppend | visualization/signal_stats/signalStats_options.py:140-151 | one more band adds a label exactly when it was not labelled |
| SignalStats.UnlabelledCovers | visualization/signal_stats/signalStats_options.py:140-151 | after `check` every band is labelled, and only bands of the table unlabelled before are added |
| FilterSettings.FilterInfo.constructor | visualization/filtering/filter_info.py:5-32 | low-pass 30 Hz and high-pass 2 Hz on, notch 60 Hz and band-pass off, every cutoff a Python int, not cancelled; band-pass is exclusive of the others |
| FilterSettings.FilterInfo.Assign | visualization/filtering/filter_info.py:22-31 | every cutoff and toggle takes the given values |
| FilterOptions.LowPassToggled | visualization/filtering/filter_options.py:116-124 | the low-pass toggle follows the box, and checking it switches band-pass off; exclusivity is kept |
| FilterOptions.HighPassToggled | visualization/filtering/filter_options.py:126-134 | the same for high-pass |
| FilterOptions.NotchToggled | visualization/filtering/filter_options.py:136-143 | the notch toggle follows the box |
| FilterOptions.BandPassToggled | visualization/filtering/filter_options.py:145-154 | the band-pass toggle follows the box, and checking it switches low-pass and high-pass off; exclusivity is kept |
| FilterOptions.Change | visualization/filtering/filter_options.py:156-181 | low-pass and high-pass are taken only when both lie in (0, fs/2) with low-pass above high-pass, each only when its toggle is on; the band is taken when 0 < bp1 < bp2 and band-pass is on, and band-pass is switched off otherwise; the notch is taken when in (0, fs/2) and on, and switched off otherwise; no toggle is switched on and exclusivity is kept |
| FilterOptions.OutOfRangeLowPassIgnored | visualization/filtering/filter_options.py:156-181 | at 256 Hz a low-pass of 200 Hz is ignored and every cutoff stays at its default |
| FilterOptions.BandPassAndNotchTaken | visualization/filtering/filter_options.py:145-181 | with band-pass and notch checked, 1-30 Hz and 20 Hz are taken and the other cutoffs kept |
| Spectrogram.SpecInfo.constructor | visualization/spectrogram_window/spec_info.py:5-11 | no spectrogram, no channel (-1), no name, axis range 1 to 30 Hz |
| Spectrogram.SpecOptions.constructor | visualization/spectrogram_window/spec_options.py:14-25 | a new open window with only "<select channel>" listed and chosen, its range editors showing the current range |
| Spectrogram.SpecOptions.PopulateChnList | visualization/spectrogram_window/spec_options.py:81-96 | with no plotted labels the window closes; otherwise the flipped labels are the plotted labels after "Notes", listed bottom row first under "<select channel>", and the row of the channel shown is chosen |
| Spectrogram.SpecOptions.ClearSpec | visualization/spectrogram_window/spec_options.py:98-102 | "<select channel>" is chosen and no channel is shown |
| Spectrogram.SpecOptions.Check | visualization/spectrogram_window/spec_options.py:104-132 | a chosen row r becomes plotted channel nchns - r, labelled by the label listed at r, with the spectrogram on; "<select channel>" turns a shown spectrogram off; the range is taken when the maximum exceeds the minimum, and the window closes then or when no spectrogram is shown; with no row chosen the label lookup raises after the channel was recorded |
| Spectrogram.RowOf | visualization/spectrogram_window/spec_options.py:93-96 | none chosen is row 0; a plotted channel c is row n - c - 1 |
| Spectrogram.ListedLabel | visualization/spectrogram_window/spec_options.py:90-111 | the label listed at row r is the one check records for it |
| Spectrogram.ChosenRowRoundTrip | visualization/spectrogram_window/spec_options.py:90-111 | the channel recorded for row r carries the label listed there, and filling the list again chooses row r |
| Topoplot.FloorSqrt | visualization/image_saving/saveTopoplot_options.py:23 | the whole square root: its square is at most n and the next square exceeds n |
| Topoplot.FloorSqrtFrom | visualization/image_saving/saveTopoplot_options.py:23 | the upward search ends at the whole square root |
| Topoplot.SquareMonotonic | visualization/image_saving/saveTopoplot_options.py:23 | squares grow with their base |
| Topoplot.FloorSqrtUnique | visualization/image_saving/saveTopoplot_options.py:23 | only one number is the whole square root of n |
| Topoplot.GetDim | visualization/image_saving/saveTopoplot_options.py:15-25 | a grid exactly for at least one plot; none plots divide by zero |
| Topoplot.GetDimFits | visualization/image_saving/saveTopoplot_options.py:15-25 | the grid has the whole square root of n rows and just enough columns to hold n plots, and is at least as wide as tall |
| Topoplot.GetDimExamples | visualization/image_saving/saveTopoplot_options.py:15-25 | 45 plots on 6 by 8, 10 on 3 by 4, 1 on 1 by 1 |
| Topoplot.CeilDiv | visualization/image_saving/saveTopoplot_options.py:207-215 | the index of the first multiple of the width at or above the bound |
| Topoplot.CeilDivUnique | visualization/image_saving/saveTopoplot_options.py:207-215 | only one multiple of the width lies in a stretch of width numbers |
| Topoplot.MulMonotone | visualization/image_saving/saveTopoplot_options.py:207-215 | multiplying by a positive width keeps order |
| Topoplot.MultipleMod | visualization/image_saving/saveTopoplot_options.py:208 | a multiple of the width leaves no remainder |
| Topoplot.FirstMultiple | visualization/image_saving/saveTopoplot_options.py:207-215 | the loop that breaks at the first multiple of the width finds the first one in range, and finds none exactly when the first multiple lies past the range |
| Topoplot.FirstMultipleFound | visualization/image_saving/saveTopoplot_options.py:207-210 | the first multiple found is the one the ceiling gives |
| Topoplot.NoMultipleBelow | visualization/image_saving/saveTopoplot_options.py:207-210 | a range holding no multiple ends at or below the first multiple |
| Topoplot.SubplotsOf | visualization/image_saving/saveTopoplot_options.py:192-218 | the predictions whose first sample lies in the window: the first one is the first such, and their number reaches the last one starting before the window ends |
| Topoplot.SubplotsDefined | visualization/image_saving/saveTopoplot_options.py:192-218 | a window at least one prediction wide always has at least one plot |
| Topoplot.SubplotsExamples | visualization/image_saving/saveTopoplot_options.py:192-218 | at 256 Hz with 2 s predictions, a 10 s window at 0 s gives 5 plots from 0, at 27 s 5 plots from 14, and a 30 s window at 27 s 15 plots from 14 |
| Topoplot.GetTime | visualization/image_saving/saveTopoplot_options.py:220-231 | the second at which prediction start + i begins |
| Topoplot.PredSampleFromTime | visualization/image_saving/saveTopoplot_options.py:138-148 | for a non-negative time, the prediction bin the time falls in |
| Topoplot.TimeRoundTrip | visualization/image_saving/saveTopoplot_options.py:138-148 | the time a prediction begins converts back to that prediction |
| Topoplot.PredSampleOfWhole | visualization/image_saving/saveTopoplot_options.py:146-147 | a time on a bin boundary gives that bin |
| Topoplot.PredSampleExamples | visualization/image_saving/saveTopoplot_options.py:138-148 | with 2 s predictions at 256 Hz, 0.1 s is bin 0 and 27.2 s bin 13 |
| Topoplot.SaveTopoplotOptions.constructor | visualization/image_saving/saveTopoplot_options.py:29-68 | the window plots the whole window, with the single time at the bin of the topoplot line |
| Topoplot.SaveTopoplotOptions.TogglePlotSingleTime | visualization/image_saving/saveTopoplot_options.py:123-131 | follows the check box and takes the bin of the spin box's time |
| Topoplot.SaveTopoplotOptions.GetNumSubplots | visualization/image_saving/saveTopoplot_options.py:192-218 | one plot at the chosen bin in single-time mode, otherwise the plots of the window |
| Channels.SplitPair | visualization/signal_loading/channel_info.py:88-105 | two hyphen-free electrode names joined by a hyphen are found to contain a hyphen and split back into exactly the two names |
| Channels.PutNew | visualization/signal_loading/channel_info.py:9-29 | storing a key that is not yet in the ordered dict appends the entry at the end, as Python dict insertion does |
| Channels.RekeyThree | visualization/signal_loading/channel_info.py:9-29 | re-keying a three-entry dict with distinct new keys keeps the three values in their insertion order |
| Channels.SampleT1 | visualization/signal_loading/channel_info.py:5-65 | "T1" is found directly in the sample label dict and resolves to channel 0 |
| Channels.SampleT2 | visualization/signal_loading/channel_info.py:5-65 | "T2" is found after "EEG " is stripped from the dict keys and resolves to channel 1 |
| Channels.SampleT3 | visualization/signal_loading/channel_info.py:5-65 | "T3" is found after "-REF" is stripped from the dict keys and resolves to channel 2 |
| Channels.SampleT7 | visualization/signal_loading/channel_info.py:5-65 | "T7", missing from every stage, is retried under its 10-20 name T3 and resolves to channel 2 |
| Channels.SampleT8 | visualization/signal_loading/channel_info.py:5-65 | "T8", retried as T4, is in no stage and yields -1 |
| Channels.SampleRenamed | visualization/signal_loading/channel_info.py:50-64 | a hyphen-free name missing from all three stages resolves to whatever its 10-20 rename resolves to |
| Channels.SampleFound | visualization/signal_loading/channel_info.py:9-30 | a name found by one of the three staged lookups is what check_label returns |
| Channels.RemoveFirstUpper | visualization/signal_loading/channel_info.py:81-87 | removing a substring from an upper-case name leaves it upper case |
| Channels.ConvertOneT1 | visualization/signal_loading/channel_info.py:81-116 | "t1" from a text file converts to "T1" |
| Channels.ConvertEegT7 | visualization/signal_loading/channel_info.py:81-116 | "EEG t7" loses its prefix, is upper-cased and takes its 10-20 name "T3" |
| Channels.ConvertT1Ref | visualization/signal_loading/channel_info.py:81-116 | "t1-REF" loses its reference suffix and converts to "T1" |
| Channels.CleanedT1Ref | visualization/signal_loading/channel_info.py:81-87 | upper-casing and stripping "t1-REF" leaves "T1" |
| Channels.RemoveRefT1 | visualization/signal_loading/channel_info.py:85-87 | removing the first "-REF" from "T1-REF" leaves "T1" |
| Channels.CleanedPair | visualization/signal_loading/channel_info.py:81-88 | an upper-case hyphenated pair with no "EEG " or "-REF" is unchanged by cleaning and splits into its two electrodes |
| Channels.ConvertPairIs | visualization/signal_loading/channel_info.py:88-106 | a hyphenated pair converts to the renamed first electrode with a hyphen (or nothing) followed by the renamed second electrode (or nothing) |
| Channels.ConvertT7T7 | visualization/signal_loading/channel_info.py:88-106 | "T7-T7" converts to "T3-T3" |
| Channels.ConvertP7T7 | visualization/signal_loading/channel_info.py:88-106 | "P7-T7" converts to "T5-T3" |
| Channels.ConvertT7T1 | visualization/signal_loading/channel_info.py:88-106 | "T7-T1" converts to "T3-": the un-renamed T1 is dropped |
| Channels.ConvertT1P7 | visualization/signal_loading/channel_info.py:88-106 | "T1-P7" converts to "T5": the un-renamed T1 and the hyphen are dropped |
| Channels.ConvertCzPz | visualization/signal_loading/channel_info.py:88-106 | "CZ-PZ" converts to the empty name |
| Channels.Selection | visualization/signal_loading/channel_info.py:309-331 | get_chns yields one flag per converted channel name |
| Channels.FirstIndex | visualization/signal_loading/channel_info.py:322-330 | the first channel carrying a name: it carries the name and no earlier channel does |
| PredictionStore.PredictionInfo.CopyLoadFlags | visualization/predictions/prediction_info.py:36-47 | the ready and loaded flags become those of the other prediction info, and nothing else changes |
| PredictionStore.PredictionInfo.CopyPlotSettings | visualization/predictions/prediction_info.py:48-51 | the plot flags, prediction width and by-channel flag become those of the other prediction info, and nothing else changes |
| PredictionStore.PredictionInfo.CopyArrays | visualization/predictions/prediction_info.py:39-41 | the model predictions, loaded predictions and predictions to plot become those of the other prediction info, and nothing else changes |
| PredictionStore.PredictionInfo.CopyFileNames | visualization/predictions/prediction_info.py:42-44 | the model, data and prediction file names become those of the other prediction info, and nothing else changes |
| PredictionStore.ActiveMask | visualization/predictions/prediction_info.py:197-260 | one drawn-or-not flag per prediction bin |
| PredictionStore.OverlayOf | visualization/predictions/prediction_info.py:197-260 | the overlay of a list of bins has one interval per bin, a channel entry per bin exactly when predictions are by channel, and a class value per bin exactly in multi-class mode |
| Numbers.WholeVal | visualization/plot.py:1186-1193 | a float with no decimals has the value of its integer |
| Numbers.FloatSign | visualization/plot.py:570-589 | a float is negative or positive exactly as its digits are |
| Numbers.Shortest | visualization/plot.py:1186-1193 | dropping trailing zero decimals keeps the value and leaves either no decimals or a last decimal that is not 0 |
| Numbers.ShiftPoint | visualization/plot.py:1186-1193 | a trailing zero decimal does not change the value |
| Numbers.Padded | visualization/plot.py:1186-1193 | the zero-padded digits of the decimals have exactly the requested length |
| Numbers.PaddedValue | visualization/plot.py:570-589 | zero-padded digits read back as their number |
| Numbers.IntText | visualization/plot.py:1186-1193 | `str()` of an int is never empty |
| Numbers.IntTextShape | visualization/plot.py:1186-1193 | `str()` of an int is digits with a leading '-' exactly when negative |
| Numbers.FloatTextShape | visualization/plot.py:1186-1193 | `str()` of a float is digits with one point and a leading '-' exactly when negative |
| Numbers.Text | visualization/plot.py:1186-1193 | `str()` of a cutoff is made of digits, a sign and a point; it starts with '-' exactly when the value is negative, and a float always shows a point |
| Numbers.ParseFloat | visualization/plot.py:570-589 | `float()` of a decimal text gives a float, and never from empty text |
| Numbers.ParseText | visualization/plot.py:570-1193 | `float(str(x))` parses and has the value of x |
| Numbers.ParseIntText | visualization/plot.py:570-1193 | `float(str(i))` of an int i is the float i.0 |
| Numbers.ParseFloatText | visualization/plot.py:570-1193 | `float(str(x))` of a float x has the value of x |
| Numbers.ReadFloatDigits | visualization/plot.py:570-589 | the digits written for a float read back as its mantissa and decimals (one decimal for a whole float) |
| Numbers.MantissaOfParts | visualization/plot.py:570-589 | digits, a point and digits read as the whole part shifted past the decimals plus the decimals |
| Numbers.NegVal | visualization/plot.py:570-589 | negating the mantissa negates the value |
| Numbers.WholeTextExamples | visualization/plot.py:1186 | `str(30)` is "30" while `str(30.0)` and `str(30.00)` are "30.0" |
| Numbers.NegativeTextExample | visualization/plot.py:1192 | `str(-5.0)` is "-5.0" |
| Numbers.FractionTextExample | visualization/plot.py:1186 | `str(31.25)` is "31.25" |
| Numbers.ParseSignExample | visualization/plot.py:570 | `float("-5.0")` is -5.0 |
| Numbers.ParseExponentExample | visualization/plot.py:570 | `float("1e2")` is 100.0 |
| Numbers.ParseRejectsExamples | visualization/plot.py:570 | `float("")` and `float(".")` raise |

## Left out

- Qt widgets: widget construction, signal and slot wiring, docks, dialogs, `throw_alert` and the window open and close flags. These are presentation glue. The model keeps only the values the handlers compute. Where checking a text-file box re-enters `txt_file_checked`, the model calls it explicitly (`ChannelOptions.ChannelOptions.TxtFileChecked`).
- Rendering: the pyqtgraph and matplotlib drawing in `move_plot` and `update_zoom_plot`, `saveImg_options.make_plot` and the mne topomaps. They produce pixels, not values.
- Floating-point numerics: the amplitude clipping by standard deviation, `get_stats`, the FFT band powers and the welch spectra. Values are modelled as exact `real`s, so rounding is not captured.
- PlotUtils.FilterData: the scipy filters of visualization/preprocessing/dsp.py become an uninterpreted `Dsp` parameter. The progress dialog's cancel button becomes the `cancelAt` parameter.
- File and library I/O: `torch.load`, every pyedflib read and write, and the 200-byte header reads. The model takes the arrays and header strings they produce as parameters.
- Session.CheckArgs: `path.exists` is the `pathExists` parameter. The `mandatory_args` test on `dir(args)` is not modelled, because the `Args` record always has the three fields.
- PredictionStore.GetColor: a class index of 6 or more draws a random colour. The model returns `None` there, because randomness is outside the model.
- PredictionStore.PredictionInfo.ComputeStartsEndsChns: the flipped multi-class array is computed but never used, so the model does not compute it. Scores are `real`s, and the per-channel class values are their argmax.
- `populate_chn_list` of channel_options.py: it reads the EDF file through pyedflib and pops from the list it is indexing. It is not part of this model.
- `prepare_to_plot` of channel_info.py: it is entangled with pyedflib signal reads, and it calls `range` on a list. It is not part of this model.
- Anonymizing.Anonymizer.CopyOriginal: the checkbox states themselves are not modelled, so unchecking the copy box (which does nothing in the source) has no counterpart. A second `load_file` whose date is "X" keeps the previous file's date in the original editor; the model shows 1 January 2001 there. Dates before 14 September 1752, which a Qt date editor clamps, are kept as read.
- ChannelOptions.ChannelOptions: `ar_checked`, `bip_checked`, `ar_checked1010` and `uncheck_txt_files`, which Qt runs when `txt_file_checked` unchecks their boxes, are not modelled. Their own selections are overwritten by the final `_select_chns` of `txt_file_checked`, except channels outside the converted list. The re-entries during window setup are not modelled either.
- saveEdf_options.py is not part of this model. Its 730-space patient-ID padding therefore does not appear; the model uses the 73 spaces of saveEdf_info.py.
- visualization/signal_loading/color_options.py, the sklearn model wrappers, `setup.py` and the record-only saveImg_info.py are not part of this model.
- Montages.StorePreds: the source computes the prediction width as a float quotient. The model uses the integer quotient and proves `WidthFits`. The quotient is exact when the bin count divides the sample count.
- Montages.EdfMontage.GetPredictions: it inherits the integer width of `StorePreds`.
- OrganizeChannels.OrganizeWindow.UpdateChnOrder: the IndexError cases of the source are preconditions. The method requires that there are no more list items than colours, and fewer colours than labels.
- Topoplot.SubplotsOf: requires a prediction width of at least 1. With a width of 0, the source's `%` raises.
- Topoplot.SaveTopoplotOptions.GetNumSubplots: requires a prediction width of at least 1, as `SubplotsOf` does.
- FilterOptions.Change: takes the sampling rate as a parameter, because `FilterInfo.fs` is never set by the viewer. A band-pass upper bound is never compared with half the sampling rate, by the code as much as by the model.
- Common.ToUpper: models `str.upper()` on ASCII letters only. Python also maps other letters, for example 'ß' to "SS", which changes the length.
- Common.ParseNat: models `int()` on ASCII digits only. Python also accepts surrounding whitespace, a sign, underscores between digits and other Unicode digits, as in " 5", "+5", "-5" and "1_0".
- Numbers.ParseFloat: `float()` on decimal text with an optional sign, point and exponent. Surrounding whitespace, underscores, "inf" and "nan" are not modelled, and the value is exact: the rounding of texts with more than 17 significant digits is not captured.
- Numbers.Text: `str()` of a float is the shortest decimal of its exact value. Exponent notation (for values from 1e16 or below 1e-4) is not produced, and a negative zero appears only as the written product "-0.0".
- Session.LoadFilter: the float values are exact decimals, so the binary rounding of a cutoff such as 0.1 is not captured.

# Eco-Guardian acoustic detector — a Dafny model

Eco-Guardian listens to a forest microphone and flags chainsaws and gunshots.
This project models its Python core in Dafny and proves properties of it:

- **Streaming processor** (`AudioProcessor`). Captured blocks go into a queue.
  Each processing step takes the oldest block and applies the gain. It then
  slides a 32000-sample rolling window by one 8000-sample step. The window
  becomes a 64 x 63 decibel mel-spectrogram, and when a model is loaded the
  step reports the argmax class, its confidence and the window's RMS level.
- **Decision rules.** The console demo sorts each result into a tier:
  uncertain unless the confidence is strictly above 0.6, otherwise danger
  for `gunshot`/`chainsaw` (alert and beep) and safe for anything else. The
  GUI applies the same threshold to choose its display and colour, and keeps
  its buttons, status line and stream in step.
- **Offline pipeline**:
  - the ESC-50 download selection (the folder map and the 40-per-class cap)
    and skip-if-exists fetching;
  - feature extraction with augmentation and the X/y bookkeeping;
  - synthetic mixing at a signal-to-noise ratio, with peak normalisation and
    numbered output names;
  - the C-array export of the quantised model, and the calibration sample
    generator.

External numeric code becomes a function-typed parameter:

- librosa's mel-spectrogram and `power_to_db`;
- the Keras/TFLite model;
- `np.sqrt` and `10 ** x`;
- the pitch shifter;
- audio loading;
- directory listings;
- random draws.

The model then states what the Python code does around those calls. Samples
are unbounded reals. Bytes are a `byte` newtype over 0..255.

Modules, in dependency order:

| module | file | models |
|---|---|---|
| `Base` | base.dfy | `Option`, `Abs`, Python's `int()` truncation |
| `Config` | config.dfy | the shared constants |
| `Signal` | signal.dfy | pad/truncate, power, peak, peak normalisation |
| `Features` | features.dfy | mel transform and width normalisation |
| `Classify` | classify.dfy | `np.argmax` and the top class |
| `Decision` | decision.dfy | the console demo's tiers and alerts |
| `Processor` | processor.dfy | `AudioProcessor` |
| `Gui` | gui.dfy | `EcoGuardianGUI` |
| `Download` | download.dfy | `0_download_data.py` |
| `Preprocess` | preprocess.dfy | `1_preprocess.py` |
| `Decimal` | decimal.dfy | decimal and zero-padded integer text |
| `Synthetic` | synthetic.dfy | `4_generate_synthetic_data.py` |
| `Convert` | convert.dfy | `3_convert.py` |

Three facts about the code shape the model:

- `np.pad` pads the spectrogram to 63 frames with the constant 0, not with a
  floor value.
- Each `process_next_chunk` call consumes exactly one queued block; it does
  not drain the queue.
- Neither the demo nor the GUI debounces alerts: every danger cycle alerts.

## Model

| member | source | states |
|---|---|---|
| Base.Trunc | src/1_preprocess.py:95 | `int()` of a float truncates toward zero: the result is the floor for non-negative inputs and the ceiling for negative ones, and is never larger in magnitude |
| Config.SizesFromRate | src/audio_processor.py:11-15 | BLOCK_SIZE is int(16000 × 2.0) = 32000 and STEP_SIZE is int(16000 × 0.5) = 8000, so one window is exactly four steps |
| Signal.FixLength | src/1_preprocess.py:94-99 | the result has the target length; sample i is the input's sample i when it exists and 0 otherwise |
| Signal.FixLengthPadsShort | src/1_preprocess.py:96-97 | a short clip is kept as a prefix and followed only by zeros |
| Signal.FixLengthTruncatesLong | src/1_preprocess.py:98-99 | a long clip is cut to its first n samples |
| Signal.FixLengthIdempotent | src/4_generate_synthetic_data.py:108-113 | fixing the length of an already fixed clip changes nothing |
| Signal.SumSquares | src/4_generate_synthetic_data.py:35-36 | the energy is non-negative and zero exactly when every sample is zero |
| Signal.MeanSquare | src/4_generate_synthetic_data.py:35-38 | `np.mean(x ** 2)` is non-negative and zero exactly for an all-zero clip, which is the `bg_power == 0` branch |
| Signal.Peak | src/4_generate_synthetic_data.py:49 | `np.max(np.abs(x))` bounds every sample's magnitude and is attained by some sample |
| Signal.PeakUnique | src/4_generate_synthetic_data.py:49 | any attained upper bound of the magnitudes is the peak |
| Signal.PeakOfDivide | src/4_generate_synthetic_data.py:51 | dividing by a positive number divides the peak by it |
| Signal.PeakNormalize | src/4_generate_synthetic_data.py:49-51 | a clip whose peak exceeds 1 becomes the clip divided by its peak (`mixed / max_val`); any other clip is returned as it is |
| Signal.PeakNormalizeBounds | src/4_generate_synthetic_data.py:49-53 | after normalisation the peak is at most 1; a louder clip is divided by its peak and ends at peak exactly 1; a clip within [-1, 1] is returned unchanged |
| Features.NormalizeWidth | src/audio_processor.py:70-76 | every row gets exactly 63 frames: frames below 63 are kept, missing frames become 0, extra frames are dropped |
| Features.NormalizeWidthKeepsExact | src/audio_processor.py:73-76 | a spectrogram already 63 frames wide is left unchanged |
| Features.NormalizeWidthIdempotent | src/audio_processor.py:70-78 | normalising twice is normalising once |
| Features.Extract | src/audio_processor.py:57-78 | `preprocess_audio` yields a 64 × 63 tensor whose cells are the mel transform's cells, zero-padded on the right |
| Classify.ArgMax | src/audio_processor.py:95 | the index is in range, holds a maximal probability, and no earlier index holds that maximum (numpy's first-maximum rule) |
| Classify.ArgMaxUnique | src/audio_processor.py:95 | an index with those properties is the argmax, so the tie rule decides it |
| Classify.Top | src/audio_processor.py:95-97 | the label is a class name, the confidence is the largest probability, and both come from the same index |
| Decision.TierOf | src/demo_laptop_mic.py:83-93 | uncertain iff the confidence is at most 0.6; danger iff it is above 0.6 and the label is gunshot or chainsaw; safe iff above 0.6 and any other label |
| Decision.DetectCycle | src/demo_laptop_mic.py:71-93 | one loop iteration reports the argmax label and confidence of the block's features, alerts with "Illegal Activity: " + label and beeps exactly in the danger tier |
| Decision.Detect | src/demo_laptop_mic.py:68-98 | every captured block yields its own report, in order |
| Decision.EveryDangerCycleAlerts | src/demo_laptop_mic.py:83-88 | with no debounce, the number of alerts equals the number of danger cycles |
| Decision.TierScenarios | src/demo_laptop_mic.py:83-93 | a confident background result is safe, a confident chainsaw is danger, and a confidence of exactly 0.6 is uncertain |
| Processor.Init | src/audio_processor.py:18-24 | a new processor has an empty queue, a silent 32000-sample window and no open stream |
| Processor.Capture | src/audio_processor.py:36-40 | the callback appends the block to the queue and changes nothing else |
| Processor.StartStream | src/audio_processor.py:42-47 | starting opens the stream and sets running; with a stream already open it does nothing |
| Processor.StopStream | src/audio_processor.py:49-54 | stopping closes the stream and clears running; with no stream it does nothing |
| Processor.StreamFlags | src/audio_processor.py:42-54 | start and stop keep `running` equal to "a stream is open"; each is idempotent; start followed by stop leaves nothing running |
| Processor.UpdateBuffer | src/audio_processor.py:88-90 | after the roll and overwrite, the window is its last 24000 samples followed by the new block |
| Processor.ProcessNextChunk | src/audio_processor.py:80-102 | an empty queue changes nothing and returns None; otherwise exactly the oldest block is consumed and slid in after the gain; a result exists iff a model is loaded; it is the argmax read-out of the new window with rms = sqrt(mean square) |
| Processor.StepsConsumeOldestFirst | src/audio_processor.py:85-90 | n steps consume the first n queued blocks in FIFO order and feed exactly those into the window |
| Processor.HistoryAppend | src/audio_processor.py:86-90 | the gained signal of two block runs is the concatenation of their gained signals |
| Processor.FeedKeepsNewest | src/audio_processor.py:88-90 | after any number of steps, the window holds the newest 32000 samples of the old window followed by everything fed |
| Processor.FourBlocksFillWindow | src/audio_processor.py:13-15 | after four or more blocks the window is exactly the last four blocks, gained, and no sample of the original window survives |
| Processor.FourPushes | src/audio_processor.py:88-90 | pushing blocks a, b, c, d leaves the window a ‖ b ‖ c ‖ d, each scaled by the gain |
| Gui.Init | src/gui_demo.py:14-20 | the GUI starts idle: Start enabled, Stop disabled, "Ready", waiting display in gray, fresh processor |
| Gui.Render | src/gui_demo.py:79-91 | above 0.6 the label and confidence are shown, red for chainsaw/gunshot and green otherwise; at or below 0.6 the volume is shown in gray (each as an iff) |
| Gui.RenderAgreesWithTier | src/gui_demo.py:83-91 | the GUI's colour is the demo's tier: red for danger, green for safe, gray for uncertain |
| Gui.UpdateLoop | src/gui_demo.py:72-94 | a stopped GUI does nothing; a running one consumes one block, keeps the display when there is no result, and otherwise renders it; buttons and status never change |
| Gui.StartMonitoring | src/gui_demo.py:57-63 | Start disables itself, enables Stop, shows "Monitoring..." and opens the stream, then runs the first update at once: the oldest queued block is consumed and its result shown, and with nothing queued (or no model) the text and colour stay as they were |
| Gui.StopMonitoring | src/gui_demo.py:65-70 | Stop re-enables Start, disables itself, shows "Stopped" and closes the stream without touching the display; the processor's queue and window are kept |
| Gui.StopThenStartResumesQueue | src/gui_demo.py:57-70 | blocks pending at a Stop survive it: the next Start first consumes the oldest of them and slides it into the window left by the Stop |
| Gui.StepKeepsConsistent | src/gui_demo.py:57-94 | any start, stop, captured block or tick keeps the buttons, status and stream in agreement |
| Gui.CaptureThenTickShowsResult | src/gui_demo.py:57-94 | from the initial window, Start, one captured block and one tick with a model loaded consume that block and replace the waiting text by a result |
| Gui.RunKeepsConsistent | src/gui_demo.py:57-94 | over any sequence of events the state stays consistent, so Start and Stop are never both enabled |
| Gui.InitConsistent | src/gui_demo.py:8-55 | the initial GUI is consistent |
| Download.SelectIsCappedMatching | src/0_download_data.py:35-47 | each folder's list is the first min(40, n) filenames, in CSV order, of the rows whose category maps to that folder |
| Download.SelectionSound | src/0_download_data.py:44-47 | no folder gets more than 40 files, and every selected file comes from a row of a mapped category |
| Download.UnmappedRowIgnored | src/0_download_data.py:44-45 | a row whose category is in no mapping changes nothing |
| Download.CategoriesDisjoint | src/0_download_data.py:9-13 | no category maps to two folders |
| Download.SavePathsMembers | src/0_download_data.py:51-58 | the save paths are exactly data/{folder}/{filename} for the files selected for each folder |
| Download.DownloadPlanFetchesMissingSelected | src/0_download_data.py:49-63 | the script fetches a file exactly when it was selected for some folder and its save path does not exist yet, and never twice |
| Download.FetchesExactlyMissing | src/0_download_data.py:56-63 | a path is fetched iff it is listed and did not exist yet, and no path is fetched twice |
| Preprocess.TargetLengthFromRate | src/1_preprocess.py:95 | the target length is int(16000 × 2.0) = 32000 |
| Preprocess.Augment | src/1_preprocess.py:40-74 | the original comes first, then the copy with 0.005 × noise; a −2 semitone shift follows iff it succeeded; a +2 shift follows iff both succeeded; 2 to 4 versions |
| Preprocess.WavFiles | src/1_preprocess.py:86 | exactly the listed names that end in ".wav" |
| Preprocess.WavFilesSingle | src/1_preprocess.py:86 | one listed name is kept iff it ends in ".wav" |
| Preprocess.WavFilesAppend | src/1_preprocess.py:86-87 | the filter keeps listing order: filtering a concatenation concatenates the filtered parts, which fixes the row order of X |
| Preprocess.FileFeaturesCount | src/1_preprocess.py:90-113 | a file that fails to load adds no rows; a loaded file adds 2 to 4, the first from the clip itself forced to 32000 samples |
| Preprocess.LabelsSorted | src/1_preprocess.py:80-111 | y only holds indices of the classes visited so far, in ascending order |
| Preprocess.LabelPresentIffRows | src/1_preprocess.py:80-84 | a class index appears in y iff its folder produced rows, so a missing folder's index never appears |
| Preprocess.MissingFolderAbsent | src/1_preprocess.py:82-84 | a missing folder's class index never appears in y |
| Preprocess.RowsBelongToTheirClass | src/1_preprocess.py:105-111 | row i of X came from the class folder that y[i] names |
| Preprocess.BuildDataset | src/1_preprocess.py:76-116 | the loop builds X and y as the reference definition: |X| = |y|, y is sorted, every row belongs to its label's folder, and a label occurs iff its folder produced rows |
| Preprocess.AppendClass | src/1_preprocess.py:80-87 | a missing folder adds nothing; otherwise the folder's rows are appended with its index |
| Preprocess.AppendFiles | src/1_preprocess.py:87-113 | each file's rows are appended in listing order, all labelled with the class index |
| Preprocess.AppendFile | src/1_preprocess.py:105-111 | one row per surviving version, each with the class index |
| Decimal.Show | src/4_generate_synthetic_data.py:119 | the decimal text is non-empty, all digits, and has no leading zero |
| Decimal.ParseShow | src/4_generate_synthetic_data.py:119 | reading the decimal text gives the number back |
| Decimal.ShowParse | src/4_generate_synthetic_data.py:119 | a canonical digit string is the text of its own value |
| Decimal.Show4 | src/4_generate_synthetic_data.py:119 | `{i:04d}` is all digits and exactly four characters for i below 10000 |
| Decimal.ParseShow4 | src/4_generate_synthetic_data.py:119 | the zero-padded text still reads back as i |
| Decimal.ParseShowInt | src/4_generate_synthetic_data.py:119 | the signed text of `int(snr)` reads back as that integer |
| Synthetic.TargetClasses | src/4_generate_synthetic_data.py:13 | the target classes are exactly the classes other than background |
| Synthetic.TargetClassesValue | src/4_generate_synthetic_data.py:13 | in order they are chainsaw, gunshot |
| Synthetic.LoadClips | src/4_generate_synthetic_data.py:17-30 | one clip per ".wav" file, in listing order, each forced to 32000 samples |
| Synthetic.MixAudio | src/4_generate_synthetic_data.py:32-53 | a silent background returns the foreground unchanged; otherwise the result is the peak-normalised mixture, whose peak is at most 1 |
| Synthetic.MixAudioNormalises | src/4_generate_synthetic_data.py:45-53 | a mixture within [-1, 1] is returned as mixed; a louder one is divided by its peak and so has peak exactly 1 |
| Synthetic.Mixture | src/4_generate_synthetic_data.py:41-46 | each sample is the foreground plus the background times sqrt(fg_power / 10^(snr/10) / bg_power) |
| Synthetic.SynthSample | src/4_generate_synthetic_data.py:101-116 | the sample is 32000 long; it is the mix of the original foreground, or of the augmented foreground re-fixed to 32000 samples when augmentation happened; with a non-silent background its peak is at most 1, and with a silent one it is that foreground unnormalised |
| Synthetic.OutNameIndex | src/4_generate_synthetic_data.py:119 | the four characters after "synth_{label}_" read back as the sample index |
| Synthetic.OutNameExample | src/4_generate_synthetic_data.py:119-136 | sample 7 of chainsaw at −3.7 dB is named `synth_chainsaw_0007_snr-3.wav` (the SNR is truncated toward zero, not floored), and background sample 42 is `synth_bg_0042.wav` |
| Synthetic.OutNamesDistinct | src/4_generate_synthetic_data.py:90-120 | two samples of one class with different indices never share a file name |
| Synthetic.BackgroundNamesDistinct | src/4_generate_synthetic_data.py:128-137 | two background samples never share a file name |
| Synthetic.ClassOutputsDistinct | src/4_generate_synthetic_data.py:80-120 | the files written for one class all have distinct names |
| Synthetic.ClassOutputs | src/4_generate_synthetic_data.py:85-90 | a class without clips yields nothing, otherwise 1000 files |
| Synthetic.TargetSample | src/4_generate_synthetic_data.py:90-120 | iteration i writes into synthetic_train/{label}, under `synth_{label}_{i:04d}_snr{int(snr)}.wav`, the 32000-sample mix of the drawn foreground and background clips |
| Synthetic.BackgroundSample | src/4_generate_synthetic_data.py:128-137 | iteration i writes into synthetic_train/background, under `synth_bg_{i:04d}.wav`, the drawn background clip, scaled by the gain when one was drawn |
| Synthetic.LoadTargets | src/4_generate_synthetic_data.py:17-20 | the target clips load only when every target folder exists (`os.listdir` raises otherwise), and then class c's clips are that folder's `.wav` files fixed to 32000 samples |
| Synthetic.Main | src/4_generate_synthetic_data.py:66-76 | a missing source folder ends the run before any file is written; otherwise the run generates from the loaded background and target clips |
| Synthetic.MainWrites | src/4_generate_synthetic_data.py:66-137 | files are written only when every source folder exists and the background folder has a `.wav` file, and then 1000 per target class with clips plus 1000 background files |
| Synthetic.GenerateShape | src/4_generate_synthetic_data.py:66-137 | without background clips nothing is written; otherwise 1000 files per target class that has clips plus 1000 background files, each 32000 samples long |
| Convert.HexByte | src/3_convert.py:26 | `0x{val:02x}` is "0x" and two lower-case hex digits whose value is the byte |
| Convert.HexCharRoundTrip | src/3_convert.py:26 | a hex digit reads back as its value |
| Convert.HexArray | src/3_convert.py:26 | the joined array is empty for no bytes and 6n − 2 characters for n ≥ 1 bytes |
| Convert.ParseHexArray | src/3_convert.py:26 | reading the joined array back gives exactly the bytes, and the rest of the text is untouched |
| Convert.HexArrayOfParsed | src/3_convert.py:26 | any text that reads as an array is exactly the join of the bytes it read |
| Convert.SplitDigitsShow | src/3_convert.py:32 | the decimal length written in the file is read back as one digit run |
| Convert.CSourceReadsBack | src/3_convert.py:24-38 | the generated C source declares "Length: n bytes", holds the n bytes in order and sets g_model_len = n |
| Convert.RepresentativeDataset | src/3_convert.py:12-22 | the generator yields the first min(100, len(X)) samples in order, and nothing when X.npy is missing |

## Left out

- I/O, presentation and concurrency:
  - reading and writing files (the CSV, WAVs, `.npy`, `.tflite` and `.cc` files);
  - HTTP downloads and SSL;
  - sounddevice streams and winsound beeps;
  - tkinter widgets and `root.after` scheduling;
  - tqdm and every `print`.

  Each is a side effect or presentation. The model keeps only the state
  and the values these calls produce or consume.
- The signal processing itself: librosa's mel-spectrogram and
  `power_to_db`, resampling and pitch/time stretching, plus `np.sqrt` and
  `10 ** x`. These are external floating-point code and enter as
  parameters. Samples are exact reals, not float32.
- Randomness: `np.random.randn`, `random.choice`, `random.uniform` and
  `random.random`. The draws are parameters, and clip choices are taken
  modulo the number of clips.
- The Keras model, its training (`2_train.py`) and the TFLite conversion.
  They are external. The classifier is a function from a tensor to a
  3-probability vector.
- `extract_features` in `src/1_preprocess.py` (lines 18-38): `main` does
  not call it. Its pad/truncate is the same `Signal.FixLength`.
- Exceptions:
  - `melspectrogram` raising part-way through a file, which in the source
    would leave that file's earlier versions in X;
  - `librosa.load` raising in the synthetic script, which ends the script
    (a missing source folder, which also ends it, is modelled);
  - failed downloads, since `download_file` reports failure but the main
    loop ignores it;
  - `KeyboardInterrupt` and other errors in the demo loop.

  The model treats the mel transform and the synthetic loader as total, and
  treats downloads as succeeding.
- `utils.py`'s `ensure_dir` is imported by `0_download_data.py` but is not
  defined in `src/utils.py`. Creating the directories is not modelled.
  `verify_setup.py` and `debug_categories.py` are diagnostics.
- Formatting:
  - `label.upper()`;
  - `{confidence:.2f}` and `{rms:.3f}`;
  - the ANSI colour codes.

  The model carries the label, the confidence and the RMS as values.
- Processor.Capture: requires each captured block to hold exactly STEP_SIZE
  samples, which is what the stream opened with `blocksize=STEP_SIZE`
  delivers. The model does not cover other lengths. numpy would broadcast a
  one-sample block over the whole 8000-sample tail, and any other length
  would make the slice assignment raise.
- Decision.DetectCycle: models one iteration on a block already taken from
  the queue. The demo's blocking `get()` and its `BLOCK_SIZE` stream are
  the surrounding I/O.
- Synthetic.MixAudio: requires the foreground and background to have the
  same non-zero length. Both come from `load_audio_files` or from the
  re-fixed augmentation, which makes them 32000 samples.

# IkaLog core, modelled in Dafny

IkaLog watches a Splatoon video capture, recognises scenes in the frames
(the timer icon of a running game, the start screen with map and rule, the
result scoreboard) and reports game events to output plugins. This project
models four parts of it and proves properties about them:

- `engine.dfy` (module `FrameEngine`) is the main loop `core()` of
  `IkaLog.py`, written as a class `Engine` whose methods update the
  loop's state step by step. A frame is acquired every twelfth read. The
  timer-icon matcher runs on it, and the tower matcher runs only in game
  (`IkaLog.py:73`). A start screen is handled
  at most once per 10 seconds of clock: the tracker is reset, start
  frames are drained three reads at a time, and onGameStart is
  dispatched. A result screen is handled at most once per 60 seconds:
  the loop waits 10 reads for the picture to settle, analyses it,
  dispatches the three result hooks and clears the game record. Then
  onFrameNext and onKeyPress are dispatched. The capture device and the
  clock are classes of their own. The plugins are values that say which
  hooks they define and what each call returns. A ghost trace records
  every hook call in order.
- `ikautils.dfy` (module `IkaUtils`) holds the helpers of
  `ikalog/utils/ikautils.py`:
  - the local player's entry and the fes title;
  - the language fallback list;
  - the table lookups `map2text`, `rule2text`, `gear_ability2text`,
    `weapon2text`, `death_reason2text` and `lobby2text`;
  - game-time offsets and the event log of the context;
  - output file names with `__INPUT_FILE__` and the game index;
  - the context copy.
- `anonymizer.dfy` (module `Anonymizer`) models `anonymize` of
  `ikalog/utils/anonymizer.py`. It finds the local player among the eight
  scoreboard entries, chooses the entries to hide from the seven flags,
  and overwrites their name rectangles in a copy of the image (an
  `array2` of pixels).
- `mastodon.dfy` (module `MastodonOutput`) models the Mastodon output
  plugin `ikalog/outputs/mastodon.py`:
  - the text of the toot and how each setting changes it;
  - the saved settings;
  - the plugin object's states: enabled, the screenshot kept, the post
    at the end of a session.
- `wrappers.dfy` (module `Wrappers`) is the `Option` type.

The key given to onKeyPress is the value returned by the last plugin
whose onFrameNext returns normally, even when that value is None
(`IkaLog.py:160-167`).

## Model

| member | source | states |
|---|---|---|
| IkaUtils.FirstMe | ikalog/utils/ikautils.py:79-82 | None exactly when no entry has `me` set; otherwise the result is the first entry that has it |
| IkaUtils.MyEntry | ikalog/utils/ikautils.py:76-82 | None when the game has no players or no entry is marked `me`; otherwise the first entry marked `me` |
| IkaUtils.RemoveChar | ikalog/utils/ikautils.py:96 | the result holds no 'の', keeps every other character with its count, and is no longer than the input |
| IkaUtils.RemoveCharAppend | ikalog/utils/ikautils.py:96 | removal distributes over concatenation, so the remaining characters keep their order |
| IkaUtils.RemoveCharAbsent | ikalog/utils/ikautils.py:96 | a string without 'の' is left unchanged |
| IkaUtils.PlayerTitle | ikalog/utils/ikautils.py:89-97 | a title exists exactly when the entry exists with both gender and prefix; it is the prefix with every 'の' removed (RemoveChar), followed by the gender |
| IkaUtils.WinLoseText | ikalog/utils/ikautils.py:204-207 | unknown text for None, the win text for True, the lose text for False |
| IkaUtils.ExtendedLanguages | ikalog/utils/ikautils.py:100-109 | the requested languages (a single one wrapped as a list, the defaults when None) followed by exactly 'en' and 'ja' |
| IkaUtils.ExtendLanguageList | ikalog/utils/ikautils.py:100-109 | the caller's list is extended in place with 'en', 'ja' and returned as the same object |
| IkaUtils.FirstText | ikalog/utils/ikautils.py:119-122 | None exactly when no listed language has a text; otherwise the text of the first language that has one |
| IkaUtils.FirstTextAppend | ikalog/utils/ikautils.py:100-109 | a lookup over a concatenated language list finds the first part's text if there is one, else the second part's |
| IkaUtils.ReextendingKeepsText | ikalog/utils/ikautils.py:108 | extending an already extended list again (the in-place mutation of a reused list) never changes the text found |
| IkaUtils.IdToText | ikalog/utils/ikautils.py:112-125 | unknown for a missing or unknown id; the first available extended language's text for a known one; the id itself when no language matches |
| IkaUtils.FallbackToEnglishThenJapanese | ikalog/utils/ikautils.py:107-122 | when none of the requested languages has a text, English is used when present and Japanese otherwise |
| IkaUtils.GearAbilityToTextAsWritten | ikalog/utils/ikautils.py:144-157 | as written: raises NameError exactly when the ability is known but has no text in any extended language; otherwise agrees with the shared lookup |
| IkaUtils.GearAbilityToText | ikalog/utils/ikautils.py:144-157 | unknown for a missing or unknown ability; the ability id when no language matches; otherwise the same text as the code as written |
| IkaUtils.GearAbilityFallbackRaises | ikalog/utils/ikautils.py:156-157 | for an ability known only in French, looked up in German, the code as written raises while the corrected one returns the id |
| IkaUtils.EntryText | ikalog/utils/ikautils.py:160-169 | for weapon2text and lobby2text: unknown when the id is absent or no language matches, else the first available extended language's text |
| IkaUtils.TextOrUnknown | ikalog/utils/ikautils.py:165-169 | unknown when no language has a text, else the first available language's text |
| IkaUtils.DeathReasonTexts | ikalog/utils/ikautils.py:172-183 | the later checks override the earlier ones: hurtable objects, then out-of-bounds reasons, special weapons, sub weapons, weapons, else the empty table |
| IkaUtils.DeathReasonToText | ikalog/utils/ikautils.py:172-189 | unknown when no extended language has a text in the chosen table, else the first available language's text |
| IkaUtils.GameOffsetMsec | ikalog/utils/ikautils.py:239-245 | defined exactly when both msec and the start offset are truthy (present and non-zero), and then it is their difference |
| IkaUtils.WithEvent | ikalog/utils/ikautils.py:248-258 | other keys are unchanged; the key's list gains `[time, value]` unless its last event has the same time, in which case only that value is replaced |
| IkaUtils.Context.AddEvent | ikalog/utils/ikautils.py:248-258 | the context's game events become WithEvent at the current game offset; the engine part is unchanged |
| IkaUtils.Context.CopyContext | ikalog/utils/ikautils.py:278-286 | a fresh context with the same game, and the engine with its engine handle cleared and its service table emptied |
| IkaUtils.LastIndex | ikalog/utils/ikautils.py:274 | -1 or the index of the last occurrence of the character; no later position holds it |
| IkaUtils.SplitExt | ikalog/utils/ikautils.py:274 | base and extension concatenate back to the path; the extension is empty or one dot followed by no dot or separator |
| IkaUtils.SplitExtAfterSuffix | ikalog/utils/ikautils.py:274-275 | inserting a suffix without dots or separators between base and extension gives back the longer base and the same extension when split again |
| IkaUtils.ReplaceWithItself | ikalog/utils/ikautils.py:267-268 | replacing `__INPUT_FILE__` by itself (no source file) leaves the name unchanged |
| IkaUtils.DigitsRoundTrip | ikalog/utils/ikautils.py:275 | the decimal digits written for a game index denote that index |
| IkaUtils.Digits | ikalog/utils/ikautils.py:275 | a non-empty string of decimal digits that starts with '0' only for zero |
| IkaUtils.DecimalString | ikalog/utils/ikautils.py:275 | '%d' of an index is non-empty and made of digits and a minus sign |
| IkaUtils.DecimalStringValue | ikalog/utils/ikautils.py:275 | '%d' of an index denotes it: for a non-negative index, digits with its value; for a negative one, '-' followed by digits with the value of its magnitude |
| IkaUtils.IndexSuffixIsPlain | ikalog/utils/ikautils.py:275 | the '-<index>' suffix is non-empty and holds no dot and no separator |
| IkaUtils.IndexedName | ikalog/utils/ikautils.py:274-275 | splitting the indexed name gives the original base followed by '-<index>', and the original extension |
| IkaUtils.FileName | ikalog/utils/ikautils.py:261-275 | an empty or missing name is returned as is; index 0 returns the name with the macro substituted (unchanged without a source file); another index keeps the extension and appends '-<index>' to the base |
| Anonymizer.LastMe | ikalog/utils/anonymizer.py:71-82 | 0 exactly when no entry is the local player; otherwise the position of the last entry recognised, since each match overwrites the previous one |
| Anonymizer.FindMe | ikalog/utils/anonymizer.py:71-82 | the loop finds LastMe; the team is 0 without a local player, 1 for entries 1-4 and 2 for entries 5-8 |
| Anonymizer.RedactedEntries | ikalog/utils/anonymizer.py:89-98 | entry k is hidden exactly when the seven-way flag condition holds for it; all entries with anonAll; none without flags |
| Anonymizer.WithoutLocalPlayer | ikalog/utils/anonymizer.py:91-98 | with no local player the my-team flag hides nothing, and the counter-team flag hides every entry |
| Anonymizer.SingleFlags | ikalog/utils/anonymizer.py:91-98 | each flag alone: win team = entries 1-4, lose team = 5-8, me = the local entry, others = all but it; my team and counter team together cover all entries |
| Anonymizer.NameRect | ikalog/utils/anonymizer.py:100-107 | the name rectangle spans 45 rows from the entry's top and 180 columns from x 770 for the local player, 809 otherwise |
| Anonymizer.BandsDisjoint | ikalog/utils/anonymizer.py:56-65 | the eight 45-row entry bands follow one another without overlap |
| Anonymizer.NameRectsDisjoint | ikalog/utils/anonymizer.py:100-107 | two entries' name rectangles share no pixel, so the order of the writes does not matter |
| Anonymizer.EntryAtRow | ikalog/utils/anonymizer.py:65 | a row lies in at most one entry band, and the result names it (0 when none) |
| Anonymizer.RegionsAgree | ikalog/utils/anonymizer.py:109 | the pixelated region depends only on the pixels inside the rectangle |
| Anonymizer.Anonymize | ikalog/utils/anonymizer.py:39-114 | a fresh image of the same size in which each pixel of a hidden entry's name rectangle is the pixelation of the original region and every other pixel is the original's |
| Anonymizer.RedactEntry | ikalog/utils/anonymizer.py:100-112 | one loop pass: the output goes from the image after k-1 entries to the image after k entries |
| Anonymizer.WriteRegion | ikalog/utils/anonymizer.py:109-112 | the rectangle receives the mosaic of its former contents; pixels outside it are unchanged |
| Anonymizer.RegionValue | ikalog/utils/anonymizer.py:109 | the slice `anonymized[top:bottom, left:right]` read as rows |
| MastodonOutput.Lead | ikalog/outputs/mastodon.py:84-115 | with use_reply the text opens with '@_ikalog_ ', otherwise it is the headline 'Just <result> <rule> at <stage>' |
| MastodonOutput.IndividualResultText | ikalog/outputs/mastodon.py:83-117 | None exactly when there is no local player, where the code raises; the text ends with '(time) footer #IkaLogResult', preceded by ' <title>' when the fes title is non-empty and by nothing when it is empty, and starts with the reply prefix or the headline |
| MastodonOutput.ScoreSegmentOnlyWithScore | ikalog/outputs/mastodon.py:99-100 | the score flag changes nothing without a score; with one it inserts ' <score>p' right after the opening and changes nothing else |
| MastodonOutput.KdSegmentNeedsBothCounts | ikalog/outputs/mastodon.py:102-103 | when kills or deaths is missing, the kills/deaths flag leaves the text unchanged |
| MastodonOutput.KdSegmentInserted | ikalog/outputs/mastodon.py:102-103 | with both counts present, setting the kills/deaths flag inserts ' <k>k/<d>d' right after the score part and changes nothing else |
| MastodonOutput.RankSegmentNeedsRank | ikalog/outputs/mastodon.py:105-106 | without udemae_pre, the rank flag leaves the text unchanged |
| MastodonOutput.RankSegmentInserted | ikalog/outputs/mastodon.py:105-106 | with udemae_pre present, setting the rank flag inserts the rank text right after the kills/deaths part and changes nothing else |
| MastodonOutput.ReplyPrefixIffUseReply | ikalog/outputs/mastodon.py:114-115 | with the English texts, the toot starts with '@_ikalog_ ' if and only if use_reply is set |
| MastodonOutput.TootAsWrittenNeverPosts | ikalog/outputs/mastodon.py:70-75 | as written, toot calls itself through the shadowed class name and ends in RecursionError from any depth, never posting |
| MastodonOutput.Toot | ikalog/outputs/mastodon.py:70-75 | corrected: the text is posted with the plugin's client id and access token, unlike the code as written |
| MastodonOutput.Mastodon.constructor | ikalog/outputs/mastodon.py:155-167 | enabled exactly when both credentials are given; the consumer key type is 'own'; every setting is stored; no screenshot is kept |
| MastodonOutput.Mastodon.ConfigReset | ikalog/outputs/mastodon.py:41-50 | disabled, every flag off except use_reply, empty credentials and footer; the screenshot is untouched |
| MastodonOutput.Mastodon.TwitterSection | ikalog/outputs/mastodon.py:53-63 | exactly the nine keys; reading the toot settings back gives the plugin's settings |
| MastodonOutput.Mastodon.OnConfigSaveToContext | ikalog/outputs/mastodon.py:52-63 | config['twitter'] is replaced by the nine settings, and the other sections are kept |
| MastodonOutput.Mastodon.OnResultDetailStill | ikalog/outputs/mastodon.py:124-125 | the scoreboard image (possibly None) is stored; nothing else changes |
| MastodonOutput.Mastodon.OnGameSessionEnd | ikalog/outputs/mastodon.py:127-141 | returns False and changes nothing when disabled or without a screenshot; raises without a local player; otherwise, with the corrected Toot, posts the individual-result text with the plugin's credentials and drops the screenshot; only the screenshot can change |
| FrameEngine.NextFrame | IkaLog.py:59-61 | the first position at or after k that holds a frame, with none before it; None when the stream holds no further frame |
| FrameEngine.LastFrame | IkaLog.py:125-128 | the last position in the next n reads that held a frame, none after it; None when all n reads were empty |
| FrameEngine.Capture.Read | IkaLog.py:57 | each read returns the stream's next element (None past the end) and advances by one |
| FrameEngine.Clock.Now | IkaLog.py:90 | each time.time() call returns the next reading and advances the clock by one call |
| FrameEngine.CallsSpec | IkaLog.py:66-71 | a broadcast calls exactly the plugins that define the hook, each with that hook and key, in plugin order |
| FrameEngine.CalledExactlyOnce | IkaLog.py:66-71 | every plugin that defines the hook is called exactly once per broadcast |
| FrameEngine.LastKeySpec | IkaLog.py:160-167 | the key is the value from the last plugin whose onFrameNext returns normally; None when none does |
| FrameEngine.FirstRaiserSpec | IkaLog.py:111-113 | the uncaught onGameStart dispatch stops at the first plugin that raises; no plugin before it raises, and without one every plugin returns |
| FrameEngine.GatesAppend | IkaLog.py:116-122 | a capture or start stamped after a check more than the gap past the previous stamp keeps the record of gates valid |
| FrameEngine.GatesSpaced | IkaLog.py:116-122 | with a clock that never runs backwards, the i-th and j-th stamps are more than gap*(j-i) apart |
| FrameEngine.ResultsAndStartsSpaced | IkaLog.py:89-122 | in any reachable state, any two result captures are more than 60*(j-i) seconds apart, and any two game starts more than 10*(j-i) |
| FrameEngine.Engine.constructor | IkaLog.py:33-47 | empty game record, no frame, both stamps 100 seconds before their own clock reading, no trace |
| FrameEngine.Engine.Acquire | IkaLog.py:56-64 | twelve reads, then further reads until a frame arrives; the frame is the first one at or after the twelfth read, and inGame is the timer-icon verdict on it; Stalled when the stream has no further frame |
| FrameEngine.Tracked | IkaLog.py:73-85 | only the two tracks change, each by at most one sample appended; a tower sample is added only with a lives sample; nothing changes out of game |
| FrameEngine.Engine.Track | IkaLog.py:73-85 | the game becomes Tracked when the loop continues; a raising tower matcher crashes the loop and leaves the game unchanged |
| FrameEngine.Engine.Broadcast | IkaLog.py:66-71 | the trace grows by one call per plugin that defines the hook, in order |
| FrameEngine.Engine.BroadcastStart | IkaLog.py:111-113 | the onGameStart calls reach the first raising plugin and no further; the loop continues only when none raises |
| FrameEngine.Engine.DrainStart | IkaLog.py:102-107 | three reads per round until the matcher fails; each matching round writes its map and rule; Stalled when the stream is over and a missing frame still matches |
| FrameEngine.Engine.StampStart | IkaLog.py:109 | last_gamestart becomes the next clock reading and the start is recorded |
| FrameEngine.Engine.StartDue | IkaLog.py:89-91 | the start matcher is asked exactly when not in game and more than 10 seconds have passed since the last start; the clock is read only then |
| FrameEngine.Engine.BeginGame | IkaLog.py:93-113 | tracker reset, drain, stamp and onGameStart dispatch, with the game record fresh apart from the drained map and rule |
| FrameEngine.Engine.StartPhase | IkaLog.py:89-113 | a game starts exactly when not in game, the clock is more than 10 seconds past the last start and the matcher fires; then the stamp is the next reading, one start gate is recorded, the frame no longer matches and the game is fresh with the drained map and rule; without a start nothing changes |
| FrameEngine.Engine.Stabilise | IkaLog.py:125-128 | n reads; the frame is the last non-None one read, or the previous frame |
| FrameEngine.Engine.Report | IkaLog.py:131-158 | the settled frame is analysed, the three result hooks are dispatched in order, and map, rule, won and players are cleared |
| FrameEngine.Engine.ResultDue | IkaLog.py:116-118 | the result matcher is asked exactly when not in game and more than 60 seconds have passed since the last capture |
| FrameEngine.Engine.StampResult | IkaLog.py:121-122 | last_capture becomes the next clock reading and the capture is recorded |
| FrameEngine.Engine.RecordResult | IkaLog.py:120-158 | the second clock check decides; if it passes, stamp, settle, analyse, dispatch and clear; otherwise nothing but the clock read changes |
| FrameEngine.Engine.CaptureResult | IkaLog.py:115-158 | a result is captured exactly when not in game, both clock checks pass and the scoreboard matches; then the stamp is the third reading, the frame is the settled one ten reads later, the analysed game is reported and map, rule, won and players are cleared; only then are the result hooks dispatched; otherwise nothing changes |
| FrameEngine.Engine.DispatchKeys | IkaLog.py:160-174 | the key is LastKey; every onFrameNext plugin and then every onKeyPress plugin (given the key) is called |
| FrameEngine.Engine.Observe | IkaLog.py:56-85 | the frame is the first one at or after the twelfth read and inGame its timer-icon verdict; onFrameRead is dispatched; the loop crashes exactly when in game and the tower matcher raises, and otherwise the game becomes Tracked |
| FrameEngine.Engine.Finish | IkaLog.py:115-174 | the result phase decides as in CaptureResult, then onFrameNext and onKeyPress are dispatched and the iteration is counted |
| FrameEngine.Engine.Respond | IkaLog.py:89-174 | the start phase decides on the observed state, then the result phase on the state it leaves, reading the clock after the start phase's reads |
| FrameEngine.Engine.Step | IkaLog.py:54-174 | one loop pass keeps the invariant and counts the iteration; the frame seen is the next acquired one; a start is decided on the tracked game and a capture on the state after it, each exactly by its gate conditions; the trace grows by onFrameRead, onGameStart if a game started, the result hooks if one was captured, then onFrameNext and onKeyPress |
| FrameEngine.Engine.Run | IkaLog.py:54-174 | the loop run for a bounded number of passes keeps the invariant; it stops early only on a stall or a crash |

## Left out

- The camera and video file become a finite sequence of optional
  frames. A read past its end gives None. Where the source would wait
  for ever (`IkaLog.py:59-61`, or a drain that keeps matching) the model
  reports Stalled.
- FrameEngine.Engine.Run: the `while True` loop is bounded by a fuel
  argument. Each pass is modelled exactly; no pass count is claimed
  beyond the fuel.
- `time.time()` becomes a function from the number of clock calls made so
  far to a reading. The spacing lemmas assume a clock that never runs
  backwards.
- The scene matchers (timer icon, lives, tower tracker, game start,
  result detail, analysis) are image recognition. They are left out and
  become functions of the current frame.
  - The start matcher's result carries the map and rule it writes.
  - The analysis result carries won and players.
  - Tower resets are counted (`towerResets`) but not modelled further.
- The plugins' own code is left out. Each plugin is modelled by the
  hooks it defines and, per hook and loop pass, whether it returns a
  value or raises. Changes a plugin makes to the shared context are not
  modelled.
- `cv2.waitKey`, `cv2.destroyAllWindows` and the configuration loading
  of `IkaConfig` are left out. They are I/O or code not part of this
  model.
- Anonymizer.Anonymize:
  - `is_entry_me` (`anonymizer.py:25-36`) is image thresholding; its eight
    verdicts are a parameter.
  - The colour conversion and threshold (lines 48-49) only feed it.
  - The OpenCV down-and-up resize is a `Mosaic` parameter applied to the
    region's former pixels.
- MastodonOutput.IndividualResultText: the code tests each entry key with
  `in`, so a key that is present but holds None still adds its segment
  (`'score': None` gives ' Nonep'; `'kills': None` raises TypeError at
  '%d'). The model has no such entries: an optional field is either a
  value or absent.
- MastodonOutput.IndividualResultText:
  - gettext is replaced by a `Phrases` value (the English message ids
    in `EnglishPhrases`).
  - The strftime end time is a string parameter.
  - The absence of a local player is a None result where Python raises
    TypeError.
- The `dprint` debug output and the network post performed by the
  mastodon library are left out.
- The `attach_image` setting is stored, reset and saved with the other
  settings. The code never reads it when posting, although its
  documentation (`mastodon.py:148`) says it posts screenshots. The
  stored screenshot is likewise never read when building the text.
- The `__main__` demonstration block of `mastodon.py` is left out.
- `isWindows`, `isOSX`, `dprint`, `get_path`, `writeScreenshot`,
  `getTime` and `get_end_time` of `ikautils.py` are left out. They read
  the operating system, the file system or the clock.
- `Localization.get_languages()` becomes a `defaults` parameter.
- IkaUtils.SplitExt follows the POSIX rules of `os.path.splitext`. Windows
  drive letters and backslashes are not modelled.
- IkaUtils.Context.CopyContext: the deep copy is modelled as sharing
  immutable values.
- IkaUtils.PlayerTitle: the code tests `'gender' in` and `'prefix' in`
  the entry, so a prefix that is present but None raises TypeError in
  `re.sub`, and a gender that is None gives the text 'None'. The model
  has no present-but-None field; such entries are not modelled.
- Anonymizer.Anonymize requires the image to be at least 672 rows by 989
  columns, so that every name rectangle lies inside it. The code does not
  check this. On a smaller image the call raises as soon as a selected
  name rectangle does not fit: a ValueError from the slice assignment,
  or a cv2 error on an empty slice. With no entry selected, any size
  works.

## Findings

| source | as written | input that shows it | evidently intended | confidence | as-written member | corrected member |
|---|---|---|---|---|---|---|
| ikalog/utils/ikautils.py:157 | the fallback returns `gear_ability_id`, a name defined nowhere, so it raises NameError | an ability present in the table only with a 'fr' text, looked up with languages 'de' (extended to de, en, ja) | return the ability id `gear_ability`, as `map2text` and `rule2text` do | high, not executed | IkaUtils.GearAbilityFallbackRaises | IkaUtils.GearAbilityToText |
| ikalog/outputs/mastodon.py:71-75 | the class definition at line 37 rebinds `Mastodon`, imported from the mastodon library at line 28, so `toot` builds another plugin and calls its `toot`, recursing until RecursionError; nothing is posted | any enabled plugin with a stored screenshot and a local player at session end | build the library's client with the credentials and post the text | high, not executed | MastodonOutput.TootAsWrittenNeverPosts | MastodonOutput.Toot |

# java-generative-manim, modelled in Dafny

This project models the core of java-generative-manim. The service asks a
large language model for a Manim (Python) animation script and runs the script
on a remote executor. When the script fails, it sends the error back to the
model and asks for a fix. The model also covers a Telegram bot front end and the
generated scripts themselves: a content-addressed TTS cache
(`custom_voiceover_tts`), copied with seven different failure policies, and the
scene code that times animations against the narration's duration.

The model has these parts:

- **Java text.** `java_text.dfy` (`JavaText`) holds the `java.lang.String` and
  hutool `StrUtil` operations the services rely on: `indexOf`, `lastIndexOf`,
  `substring`, `trim`, `isBlank`, and rendering `null` in concatenation. A
  reference that may be null is an `Option`. An uncaught exception is
  `Completion.Throws`. A Dafny string is a sequence of Unicode scalar values,
  while Java's `indexOf`, `lastIndexOf`, `substring` and the `> 9` test count
  UTF-16 code units. `Utf16` gives a text's code units and `JIndex` the
  code-unit index of a character position, and the extraction and slice
  functions do their index arithmetic in those units.
- **Code extraction.** `code_extraction.dfy` (`CodeExtraction`) covers the
  branches of `LinuxService.genManaimCode`: the "```python" fence, the bare-JSON
  fallback and the `lastIndexOf > 9` test. It also covers the "```json" slice
  used by `MainimService`.
- **Fix loop.** `linux_retry.dfy` (`LinuxRetry`) covers
  `LinuxService.fixCodeAndRerun`, the fix-and-rerun loop of at most ten
  attempts. It is a method with a `for` loop over a shared message list (the
  class `ChatRequest`). It is proved against a recursive specification
  `FixFrom`/`FixAt`. Lemmas give the number of runs, the exact transcript
  appended to the conversation, the result returned and the rows saved.
- **Nested cascade.** `mainim_cascade.dfy` (`MainimCascade`) covers
  `MainimService.index`, eleven nested run/fix levels with the avoid-prompt
  request after a clean third run. It is a loop proved against the recursive
  `CascadeFrom`.
- **Telegram bot.** `telegram_bot.dfy` (`TelegramBot`) covers the routing of
  `MyAmazingBot`. `bot_translate.dfy` (`BotTranslate`) covers
  `BotTranslateService`: the `containsChinese` regex, decided by a scan that is
  proved equal to the regex, the translation direction, and the reply.
- **TTS cache.** `tts_store.dfy` (`TtsStore`) describes each copy of the TTS
  cache as a function. Each function maps the file store before a call to the
  outcome (raised, or the yielded tracker), the file store after the call, and
  the URLs requested. `tts_cache.dfy` (`TtsCache`) implements the same
  policies as methods of a `Workspace` class whose file map and request log
  they update. `tts_properties.dfy` (`TtsProperties`) states what each policy
  promises: hits, misses, partial files, purges and fallbacks.
- **Sound playback.** `narration_sound.dfy` (`NarrationSound`) covers the
  scenes' "add the sound or not" checks on a tracker, and links them to the
  cache policies.
- **Scene timing.** `scene_timing.dfy` (`SceneTiming`) covers the scenes'
  duration arithmetic, per script.
- **Scene state.** `scene_state.dfy` (`SceneState`) covers the star updater,
  `clear_and_reset` and the `set_font_size` patch as classes with mutable
  fields.
- **Cube grid.** `cube_grid.dfy` (`CubeGrid`) covers the nested loops that lay
  out the 70-cube blocks of 12.py, and the class-level blocks the final scene
  shows.
- **Fonts.** `fonts.dfy` (`Fonts`) covers the CJK font search at the top of
  the scripts.

The outside world is passed in as parameters:

- the model replies;
- the executor;
- the JSON parser;
- the stored code row;
- the TTS server;
- the MD5 digest;
- percent-encoding;
- the audio decoder;
- the sine function;
- the installed-font list.

The seven TTS policies are:

| policy | scripts | on failure |
|---|---|---|
| Raising | custom_voiceover.py, 05.py, 06.py, intro_majoy_2.py | every error raises |
| Estimating | cofficient.py | request errors raise; a bad duration is estimated from the text length |
| Validating | avoid_flood2.py | checks the content type and the file; a bad file is deleted, then the call raises |
| NeverRaise | 15.py | yields no audio on any error |
| Poisoning | sled.py | a non-200 status leaves an empty file that answers every later call with duration 0 |
| RequestOnly | 12.py, fx_xx.py | only request errors are caught |
| DefaultFive | avoid_flood.py | no audio on request errors; 5 s for a bad file |

## Model

| member | source | states |
|---|---|---|
| JavaText.ConcatConflatesNull | src/main/java/com/litongjava/manim/services/BotTranslateService.java:45 | `"Exception: " + m` is the same text for two messages exactly when they are equal or one is null and the other the text "null" |
| JavaText.Encode | src/main/java/com/litongjava/manim/services/LinuxService.java:213-236 | a character in the Basic Multilingual Plane is one UTF-16 code unit, any other a high surrogate followed by a low surrogate |
| JavaText.Utf16Append | src/main/java/com/litongjava/manim/services/LinuxService.java:213-236 | the UTF-16 form of a concatenation is the concatenation of the UTF-16 forms |
| JavaText.BmpUtf16 | src/main/java/com/litongjava/manim/services/LinuxService.java:213-236 | a text without characters above U+FFFF has one code unit per character, equal to the character |
| JavaText.JIndexStep | src/main/java/com/litongjava/manim/services/LinuxService.java:213-236 | Java's index of the next character is this one's plus the code units of this character |
| JavaText.JIndexGrows | src/main/java/com/litongjava/manim/services/LinuxService.java:213-236 | Java's index grows at least as fast as the character index |
| JavaText.JIndexOverBmp | src/main/java/com/litongjava/manim/services/LinuxService.java:213-236 | over a stretch without characters above U+FFFF, Java's index grows exactly as the character index |
| JavaText.IndexFromIsFirst | src/main/java/com/litongjava/manim/services/LinuxService.java:213 | `indexOf(pat, from)` is -1 exactly when no occurrence starts at or after `from`, and otherwise the first such occurrence |
| JavaText.IndexOfIsFirst | src/main/java/com/litongjava/manim/services/LinuxService.java:213 | `indexOf` is -1 exactly when the pattern occurs nowhere, and otherwise is the first occurrence |
| JavaText.LastIndexUpToIsLast | src/main/java/com/litongjava/manim/services/LinuxService.java:232 | the last occurrence starting at or before the bound, or -1 exactly when there is none |
| JavaText.LastIndexOfIsLast | src/main/java/com/litongjava/manim/services/LinuxService.java:232 | `lastIndexOf` is -1 exactly when the pattern occurs nowhere, and otherwise is the last occurrence |
| JavaText.SubstringJoin | src/main/java/com/litongjava/manim/services/LinuxService.java:236-243 | two adjacent substrings that exist join into the substring over both ranges |
| JavaText.TrimStart | src/main/java/com/litongjava/manim/services/LinuxService.java:221 | drops exactly the leading run of characters at or below U+0020: the result is a suffix that starts with a kept character |
| JavaText.TrimEnd | src/main/java/com/litongjava/manim/services/LinuxService.java:221 | drops exactly the trailing run of characters at or below U+0020: the result is a prefix that ends with a kept character |
| JavaText.TrimKeepsBracedText | src/main/java/com/litongjava/manim/services/LinuxService.java:216-221 | a text that starts with "{" and ends with "}" is unchanged by `trim()` |
| JavaText.AllBlankMeansEveryChar | src/main/java/com/litongjava/manim/services/LinuxService.java:151 | `isBlank` of a non-null text holds exactly when every character is one of the blank characters |
| CodeExtraction.ExtractPython | src/main/java/com/litongjava/manim/services/LinuxService.java:213-258 | an exception escapes only without a "```python" fence, when the trimmed JSON parses to a null ToolVo; with a fence the call returns; code found after a fence is a stretch of the text starting just after that fence |
| CodeExtraction.LastFencePosition | src/main/java/com/litongjava/manim/services/LinuxService.java:213-234 | with a "```python" fence at i, the last "```" is that fence itself or starts at or after i+9 |
| CodeExtraction.FenceCutAgrees | src/main/java/com/litongjava/manim/services/LinuxService.java:232-247 | Java cuts in code units where the model cuts in characters: after the fence Java's index is 9 units on, the code-unit bounds are in order exactly when the character bounds are, and the rest after the fence always exists |
| CodeExtraction.PythonFenceCases | src/main/java/com/litongjava/manim/services/LinuxService.java:231-248 | with the fence at character i and the last "```" at l: the code is text[i+9, l) when Java's code-unit index of l is above 9 and l is a later fence, text[i+9, end) when that index is 9 or less, and null when the only fence is the opening one beyond code unit 9; without characters above U+FFFF the code-unit index is l |
| CodeExtraction.UnclosedFenceIsNull | src/main/java/com/litongjava/manim/services/LinuxService.java:234-240 | an unclosed "```python" fence beyond code unit 9 yields null, because `substring(i+9, i)` throws and the exception is caught; "😀abcdefgh```python" is such a text though its fence is at character 9 |
| CodeExtraction.SupplementaryCharBeforeFence | src/main/java/com/litongjava/manim/services/LinuxService.java:213-240 | for "😀abcdefgh```python\nprint(1)" the fence is found at character 9, which Java reports as code unit 10, and the extraction gives null |
| CodeExtraction.ClosingFenceAtNineIsKept | src/main/java/com/litongjava/manim/services/LinuxService.java:232-243 | a reply "```python```" followed by text without a fence keeps the closing fence in the code, because the `> 9` test fails for the fence at code unit 9 and the rest of the text is taken |
| CodeExtraction.JsonFallback | src/main/java/com/litongjava/manim/services/LinuxService.java:215-230 | without a python fence only a "{...}" text is parsed: a ToolVo gives its code, a parse failure null, a null ToolVo a NullPointerException; any other text gives null |
| CodeExtraction.GenManaimCode | src/main/java/com/litongjava/manim/services/LinuxService.java:189-258 | a stored row for the md5 is returned as it is; otherwise a failed request gives null (the `try` at 202-208), a reply without a candidate or with a null text throws (line 210 and the `indexOf` at 213 are outside it), and a reply text goes through `ExtractPython` |
| CodeExtraction.SliceJson | src/main/java/com/litongjava/manim/services/MainimService.java:56-61 | there is no slice exactly when the text has no "```json"; a slice is at least three code units shorter than the text |
| CodeExtraction.SliceJsonAt | src/main/java/com/litongjava/manim/services/MainimService.java:56-61 | with the first fence at character i, Java's index 7 characters on is 7 units on; the slice throws exactly when that index plus 10 passes the length; the slice followed by the last three units is the UTF-16 form of the text after the fence |
| CodeExtraction.FenceUnits | src/main/java/com/litongjava/manim/services/MainimService.java:61 | the code units after a "```json" at character i are the UTF-16 form of the characters after it |
| CodeExtraction.SliceJsonBmp | src/main/java/com/litongjava/manim/services/MainimService.java:56-61 | without characters above U+FFFF the slice throws exactly when the fence starts within 10 characters of the end, and is otherwise the characters from after the fence to three before the end |
| CodeExtraction.SliceJsonCases | src/main/java/com/litongjava/manim/services/MainimService.java:56-61 | no "```json" gives no slice; the slice throws exactly when the fence starts within 10 code units of the end; otherwise it is the code units from after the fence up to the last three, which together make up the UTF-16 form of the text after the fence |
| CodeExtraction.FencedJsonBody | src/main/java/com/litongjava/manim/services/MainimService.java:266-272 | a reply "```json" + body + "```" with no earlier json fence yields exactly the UTF-16 code units of the body |
| LinuxRetry.AvoidPrompt | src/main/java/com/litongjava/manim/services/LinuxService.java:171-187 | `genAvoidPromptCode` throws exactly when the reply has no candidate (line 185 is outside the `try`); a failed request gives null; otherwise the reply text |
| LinuxRetry.ChatRequest.constructor | src/main/java/com/litongjava/manim/services/LinuxService.java:55 | the request holds the caller's message list |
| LinuxRetry.FixCodeAndRerun | src/main/java/com/litongjava/manim/services/LinuxService.java:55-169 | the loop, as a method with a `for` loop over the shared message list: its outcome, the code it ran, the rows it saved and the messages it appended are those of the specification `FixCodeAndRerunSpec` |
| LinuxRetry.Attempt | src/main/java/com/litongjava/manim/services/LinuxService.java:69-166 | one iteration: it ends the call as the specification does (a failed fix request, a null fix, an executor exception, an avoid request without a candidate, or non-blank output), or appends what the specification appends and continues at the next attempt |
| LinuxRetry.Iterate | src/main/java/com/litongjava/manim/services/LinuxService.java:69-166 | one pass of the `for` loop as its invariant sees it: either the call ends with what the specification gives for the whole loop, or the messages and results so far extend to the specification from the next attempt |
| LinuxRetry.FixStep | src/main/java/com/litongjava/manim/services/LinuxService.java:69-160 | one iteration in full: a fix request that throws or gives null ends the call after the two-message request; an executor exception ends it with Throws; an avoid request without a candidate ends it with Throws after the code-fix report; otherwise the round is complete and non-blank output returns the run |
| LinuxRetry.TranscriptCons | src/main/java/com/litongjava/manim/services/LinuxService.java:69-149 | the messages of one more round are the five messages of that round followed by the rest |
| LinuxRetry.FixRunsBounded | src/main/java/com/litongjava/manim/services/LinuxService.java:64-168 | from attempt a at most 11 - a scripts run; one avoid-prompt row is saved per run except a last run whose round threw, and then the call threw; one fix request is made per saved row, plus one for a round that gave up |
| LinuxRetry.FixTranscript | src/main/java/com/litongjava/manim/services/LinuxService.java:69-149 | the appended messages are exactly: per saved row, the model's old code, the fix request with the error, the new code, the code-fix prompt and the avoid prompt; then the two-message fix request of a round that gave up, followed by the code-fix report when that round's script ran but its avoid request threw |
| LinuxRetry.FixEarlierRunsBlank | src/main/java/com/litongjava/manim/services/LinuxService.java:78-167 | every run but the last returned a result, and its output was blank |
| LinuxRetry.FixReturnsLastRun | src/main/java/com/litongjava/manim/services/LinuxService.java:151-168 | a call that did not give up returns the result of its last run, which returned, and had non-blank output or used the tenth attempt |
| LinuxRetry.ConstantCodeIsRerun | src/main/java/com/litongjava/manim/services/LinuxService.java:80-100 | when every fix request gives the same code, every run executes that code and no round returns null; when that code runs and every avoid request returns, the call does not throw either |
| LinuxRetry.TranscriptLength | src/main/java/com/litongjava/manim/services/LinuxService.java:69-149 | each run appends exactly five messages |
| LinuxRetry.FixCodeAndRerunResult | src/main/java/com/litongjava/manim/services/LinuxService.java:55-168 | at most 10 runs and a saved row for each but a last one that threw; all but the last returned with blank output; unless the call gave up, the result is the last run's, and that run had non-blank output or was the tenth |
| LinuxRetry.FixCodeAndRerunMessages | src/main/java/com/litongjava/manim/services/LinuxService.java:69-149 | the message list grows by 5 per saved row; a last run without a row adds 2, and 2 more when its script ran; a call that gave up before running adds 2 |
| LinuxRetry.StoredCodeIsRerun | src/main/java/com/litongjava/manim/services/LinuxService.java:189-194 | with a stored row for the md5 every attempt reruns the stored code and no round returns null; when that code runs and every reply has a candidate, the call never gives up and one model call per run is made (for the avoid prompt) |
| MainimCascade.GenSence | src/main/java/com/litongjava/manim/services/MainimService.java:288-306 | the scene model is asked once, with a single user message made of the text (null reads "null") and the language suffix; the call throws exactly when that request fails or its reply has no candidate, and otherwise returns the reply text |
| MainimCascade.GenManimCode | src/main/java/com/litongjava/manim/services/MainimService.java:259-274 | a failed request, a reply without a candidate or a null reply text throws; a reply text without "```json" gives null |
| MainimCascade.Index | src/main/java/com/litongjava/manim/services/MainimService.java:29-257 | the method: nothing happens when `genSence` throws; otherwise the outcome, the code run by each execution, the conversation and whether the avoid prompt was asked are those of `IndexSpec` |
| MainimCascade.FirstCode | src/main/java/com/litongjava/manim/services/MainimService.java:54-65 | the first generation and json slice: it either stops as `IndexAfterScene` does, or starts the cascade at run 1 with the sliced code |
| MainimCascade.RunCascade | src/main/java/com/litongjava/manim/services/MainimService.java:65-247 | the nested runs as a loop: its results are those of `CascadeFrom(1, ...)` |
| MainimCascade.Execute | src/main/java/com/litongjava/manim/services/MainimService.java:65-253 | one execution level: an executor exception or a clean run ends the cascade as the specification does (after the avoid request when it is the third run), and a failing run before the eleventh appends the fix pair and continues at the next level |
| MainimCascade.CascadeBounded | src/main/java/com/litongjava/manim/services/MainimService.java:65-247 | from level n the cascade runs between 1 and 12 - n programs |
| MainimCascade.RegenerateBounded | src/main/java/com/litongjava/manim/services/MainimService.java:68-247 | after a failing run at level n the cascade runs between 1 and 12 - n programs, that run included |
| MainimCascade.CascadeEarlierFailed | src/main/java/com/litongjava/manim/services/MainimService.java:65-100 | every run but the last returned and left a non-blank stderr |
| MainimCascade.CascadeLastRun | src/main/java/com/litongjava/manim/services/MainimService.java:65-253 | the last run decides the end: a run that threw ends with Throws and no avoid request; a clean run ends CleanRun, or Throws after the avoid request; StillFailing means the eleventh run failed; NoFix means a failing run whose regeneration gave null |
| MainimCascade.LastRunCons | src/main/java/com/litongjava/manim/services/MainimService.java:68-100 | a failing run in front of the runs after it keeps how the last run decides the end |
| MainimCascade.CascadeAvoidAsked | src/main/java/com/litongjava/manim/services/MainimService.java:247-253 | the avoid prompt is requested exactly when run number 3 is the last run and it is clean |
| MainimCascade.FixPairsLength | src/main/java/com/litongjava/manim/services/MainimService.java:70-71 | each failed run contributes two messages |
| MainimCascade.FixPairsCons | src/main/java/com/litongjava/manim/services/MainimService.java:70-71 | the fix pairs of one more failed run are its pair followed by the rest |
| MainimCascade.LayoutCons | src/main/java/com/litongjava/manim/services/MainimService.java:69-75 | prefixing a failed run and its fix pair keeps the conversation layout |
| MainimCascade.CascadeMessages | src/main/java/com/litongjava/manim/services/MainimService.java:65-253 | the appended conversation is the fix pair of every run but the last, then the closing pair (a fix pair before a regeneration, or the avoid request) |
| MainimCascade.GenManimCodeFenced | src/main/java/com/litongjava/manim/services/MainimService.java:266-273 | a fenced reply yields the parsed body: code, null for a null ToolVo, an exception for a parse error |
| MainimCascade.IndexNoJson | src/main/java/com/litongjava/manim/services/MainimService.java:54-61 | the call ends NoJson exactly when the first reply text exists and has no "```json"; then nothing runs and nothing is appended; a call in which nothing runs ended NoJson or threw |
| MainimCascade.IndexCascades | src/main/java/com/litongjava/manim/services/MainimService.java:54-65 | when a first code exists the rest of the call is the cascade from run 1 on that code |
| MainimCascade.IndexRuns | src/main/java/com/litongjava/manim/services/MainimService.java:65-247 | at most 11 runs, all but the last returning with a non-blank stderr; StillFailing means 11 runs; CleanRun means the last run was clean |
| MainimCascade.IndexAvoidAsked | src/main/java/com/litongjava/manim/services/MainimService.java:247-253 | the avoid prompt is asked exactly when there were three runs, the first two failing and the third clean |
| MainimCascade.IndexMessageCount | src/main/java/com/litongjava/manim/services/MainimService.java:65-253 | two messages per run before the last, plus two when the call asked for the avoid prompt or ended on a regeneration that gave null or threw |
| TelegramBot.Consume | src/main/java/com/litongjava/manim/bots/MyAmazingBot.java:19-38 | an update reaches a handler exactly when it has a message whose text is non-null and non-empty and that text is one of the three commands or comes from a private chat |
| TelegramBot.NoTextNoAction | src/main/java/com/litongjava/manim/bots/MyAmazingBot.java:20 | an update without a message, or whose text is null or empty, reaches no handler |
| TelegramBot.CommandsRoute | src/main/java/com/litongjava/manim/bots/MyAmazingBot.java:25-30 | exactly the texts "/get_chat_id", "/start" and "/about" reach their handlers, in any chat |
| TelegramBot.OtherTextOnlyInPrivate | src/main/java/com/litongjava/manim/bots/MyAmazingBot.java:31-35 | any other non-empty text reaches the dispatcher exactly when the chat is private |
| TelegramBot.ConsumeGroup | src/main/java/com/litongjava/manim/bots/MyAmazingBot.java:41-45 | one handling per update of the batch |
| TelegramBot.ConsumeGroupIsConsume | src/main/java/com/litongjava/manim/bots/MyAmazingBot.java:41-45 | the i-th handling of a batch is `consume` of the i-th update |
| TelegramBot.ConsumeGroupAppend | src/main/java/com/litongjava/manim/bots/MyAmazingBot.java:41-45 | handling two batches in turn is handling their concatenation |
| BotTranslate.ContainsChinese | src/main/java/com/litongjava/manim/services/BotTranslateService.java:59-65 | for null `containsChinese` is false; for a text it holds exactly when no character is a line terminator and some character is in U+4E00..U+9FA5 |
| BotTranslate.NoTerminatorIsAllDot | src/main/java/com/litongjava/manim/services/BotTranslateService.java:64 | the scan for line terminators agrees with `.` matching every character |
| BotTranslate.HasHanIsSome | src/main/java/com/litongjava/manim/services/BotTranslateService.java:64 | the scan finds a character in U+4E00..U+9FA5 exactly when one exists |
| BotTranslate.ContainsChineseIsRegex | src/main/java/com/litongjava/manim/services/BotTranslateService.java:59-65 | for a non-null text, `containsChinese` holds exactly when the whole text matches ".*[\u4e00-\u9fa5]+.*" |
| BotTranslate.EmptyIsNotChinese | src/main/java/com/litongjava/manim/services/BotTranslateService.java:60-62 | null and the empty text contain no Chinese |
| BotTranslate.LineTerminatorDefeatsMatch | src/main/java/com/litongjava/manim/services/BotTranslateService.java:64 | a text holding a line terminator never matches, whatever else it holds |
| BotTranslate.TranslateRequest | src/main/java/com/litongjava/manim/services/BotTranslateService.java:22-37 | the text is passed unchanged; the source language is Chinese exactly when the text contains Chinese, the target Chinese exactly when it does not, and the two differ |
| BotTranslate.TranslateReply | src/main/java/com/litongjava/manim/services/BotTranslateService.java:39-50 | the reply goes to the chat the message came from; it carries the translation, or "Exception: " followed by the message of a failed translation |
| BotTranslate.LongToString | src/main/java/com/litongjava/manim/services/BotTranslateService.java:42 | `Long.toString` is non-empty, starts with "-" exactly for negatives, and is otherwise decimal digits |
| TtsStore.CacheFile | src/main/resources/scripts/custom_voiceover.py:20-22 | the cache path is the directory, a "/", the digest and ".mp3", and nothing else |
| TtsStore.Estimate | src/main/resources/scripts/cofficient.py:103-108 | the estimate is at least 1 s and at least len(text)/5, and is one of the two |
| TtsStore.Validate | src/main/resources/scripts/avoid_flood2.py:116-135 | a cached file is kept and yielded exactly when it is non-empty and decodes to a positive duration, which the tracker carries with its path; otherwise the file is deleted and the call raises |
| TtsStore.RaisingCall | src/main/resources/scripts/custom_voiceover.py:26-54 | one request, with the URL for the text, exactly on a miss; only the cache file can change, and not on a hit (also 05.py, 06.py, intro_majoy_2.py) |
| TtsStore.EstimatingCall | src/main/resources/scripts/cofficient.py:64-117 | one request exactly on a miss; only the cache file can change, and not on a hit; a yielded tracker has a positive duration |
| TtsStore.ValidatingCall | src/main/resources/scripts/avoid_flood2.py:72-144 | one request exactly on a miss; only the cache file can change; a yielded tracker's file is cached and its duration positive |
| TtsStore.NeverRaiseCall | src/main/resources/scripts/15.py:51-103 | one request exactly on a miss; only the cache file can change; the call never raises |
| TtsStore.PoisoningCall | src/main/resources/scripts/sled.py:39-81 | one request exactly on a miss; only the cache file can change; a yielded tracker's file is cached |
| TtsStore.RequestOnlyCall | src/main/resources/scripts/12.py:65-120 | one request exactly on a miss; only the cache file can change; a hit changes nothing and always yields (also fx_xx.py) |
| TtsStore.DefaultFiveCall | src/main/resources/scripts/avoid_flood.py:39-92 | one request exactly on a miss; only the cache file can change, and not on a hit; the call always yields |
| TtsProperties.JoinedIsFlatten | src/main/resources/scripts/custom_voiceover.py:39-42 | skipping empty chunks writes the same bytes as writing every chunk: the cache file holds the whole body in order |
| TtsProperties.CacheFilenameShape | src/main/resources/scripts/custom_voiceover.py:20-22 | the cache file is "<dir>/<digest>.mp3", and two texts share a file exactly when their MD5 digests are equal |
| TtsProperties.EstimatedDurationCases | src/main/resources/scripts/cofficient.py:97-109 | the duration is always positive: a positive decoded duration is kept, and a failed, None or non-positive one becomes max(len(text)/5, 1) |
| TtsProperties.RaisingHit | src/main/resources/scripts/custom_voiceover.py:29-30 | a cache hit makes no request, keeps the files, raises exactly when the file does not decode, and otherwise yields the decoded duration |
| TtsProperties.RaisingMiss | src/main/resources/scripts/custom_voiceover.py:32-37 | a miss requests exactly the URL "<base>?token=<token>&input=<quoted text>"; no response or a status other than 200 raises and writes nothing |
| TtsProperties.RaisingStoresBody | src/main/resources/scripts/custom_voiceover.py:39-42 | after a 200 response the cache file holds the body and no other file changes; a broken stream raises and leaves the partial file |
| TtsProperties.RaisingTracker | src/main/resources/scripts/custom_voiceover.py:44-50 | a yielded tracker names the cache file, which exists and decodes to the tracker's duration |
| TtsProperties.RaisingNeverDeletes | src/main/resources/scripts/custom_voiceover.py:29-54 | no cached file is ever removed or changed |
| TtsProperties.EstimatingRequestFailure | src/main/resources/scripts/cofficient.py:68-87 | a request exception or a 4xx/5xx status raises, writes nothing and made exactly one request |
| TtsProperties.EstimatingPartialFileIsHit | src/main/resources/scripts/cofficient.py:77-90 | a stream that breaks raises but leaves the partial file, which the next call takes as a hit without any request |
| TtsProperties.EstimatingYield | src/main/resources/scripts/cofficient.py:97-111 | a yielded tracker names the cache file and carries a positive duration, the decoded or the estimated one |
| TtsProperties.ValidatingPath | src/main/resources/scripts/avoid_flood2.py:63-68 | the cache lives under "tts_cache/audio_files/" |
| TtsProperties.ValidatingRejectsResponse | src/main/resources/scripts/avoid_flood2.py:82-95 | a request exception, a 4xx/5xx status or a non-audio Content-Type raises and writes nothing |
| TtsProperties.ValidatingWriteFailure | src/main/resources/scripts/avoid_flood2.py:97-111 | a failed download raises and removes the partial file, so the file store is as before the call |
| TtsProperties.ValidatingYieldsValid | src/main/resources/scripts/avoid_flood2.py:115-140 | a yielded tracker names a non-empty cached file that decodes to a positive duration, which the tracker carries |
| TtsProperties.ValidatingPurges | src/main/resources/scripts/avoid_flood2.py:115-135 | only the cache file can change, and a call that raises leaves no cache file behind |
| TtsProperties.NeverRaiseYields | src/main/resources/scripts/15.py:50-101 | the call always yields; a tracker without a path has duration 0, and one with a path names a cached file that decodes to its duration |
| TtsProperties.NeverRaiseRequestFailure | src/main/resources/scripts/15.py:61-75 | a request exception or a 4xx/5xx status yields the silent tracker and writes nothing |
| TtsProperties.NeverRaiseWriteFailure | src/main/resources/scripts/15.py:76-81 | a failed write yields the silent tracker and removes the partial file |
| TtsProperties.NeverRaiseStreamBroken | src/main/resources/scripts/15.py:66-75 | a stream that breaks yields the silent tracker but keeps the partial file, which the next call takes as a hit |
| TtsProperties.NeverRaiseDecodeFailure | src/main/resources/scripts/15.py:85-94 | a cached file that does not decode yields the silent tracker, with no request and no file change |
| TtsProperties.PoisoningBadStatus | src/main/resources/scripts/sled.py:51-55 | a status other than 200 leaves an empty cache file and yields that path with duration 0 |
| TtsProperties.PoisonedFileAnswers | src/main/resources/scripts/sled.py:45-46 | an empty cached file answers every later call with duration 0 and no request |
| TtsProperties.PoisoningTracker | src/main/resources/scripts/sled.py:62-78 | a yielded tracker always names the cache file; an empty or undecodable file gives duration 0, otherwise the decoded duration |
| TtsProperties.PoisoningRequestFailure | src/main/resources/scripts/sled.py:44-81 | a request exception is not caught: the call raises and writes nothing |
| TtsProperties.RequestOnlyFailures | src/main/resources/scripts/12.py:77-97 | a request exception, a 4xx/5xx status or a broken stream yields the silent tracker (the broken stream keeps its partial file); a write error raises |
| TtsProperties.RequestOnlyTracker | src/main/resources/scripts/12.py:99-114 | a cached file that does not decode, or has no duration, yields the silent tracker; a tracker with a path names the cache file and has the decoded duration, never None |
| TtsProperties.DefaultFiveYields | src/main/resources/scripts/avoid_flood.py:44-89 | the call always yields; without a path the duration is 0, with one the path is the cached file |
| TtsProperties.DefaultFiveBadStatus | src/main/resources/scripts/avoid_flood.py:51-57 | no response or a status other than 200 yields the silent tracker after one request, writing nothing |
| TtsProperties.DefaultFiveFallback | src/main/resources/scripts/avoid_flood.py:65-77 | a cached file that is empty or does not decode gives the default duration of 5 s |
| TtsProperties.DefaultFiveKeepsFiles | src/main/resources/scripts/avoid_flood.py:44-92 | no cached file is removed, and an empty cached file answers with 5 s and no request |
| TtsCache.Workspace.constructor | src/main/resources/scripts/custom_voiceover.py:10-11 | a workspace over the given files, with no requests yet |
| TtsCache.Workspace.Get | src/main/resources/scripts/custom_voiceover.py:35 | `requests.get`: the server's response, one more request logged, files unchanged |
| TtsCache.Workspace.WriteChunks | src/main/resources/scripts/custom_voiceover.py:39-42 | the loop over the chunks leaves exactly the non-empty chunks, in order, in the file |
| TtsCache.Workspace.RaisingTts | src/main/resources/scripts/custom_voiceover.py:26-54 | the call as a method on the workspace: outcome, files and requests are those of `RaisingCall` (also 05.py, 06.py, intro_majoy_2.py) |
| TtsCache.Workspace.EstimatingTts | src/main/resources/scripts/cofficient.py:64-117 | outcome, files and requests are those of `EstimatingCall` |
| TtsCache.Workspace.ValidateFile | src/main/resources/scripts/avoid_flood2.py:116-135 | the validation on the workspace: outcome and files are those of `Validate` |
| TtsCache.Workspace.ValidatingTts | src/main/resources/scripts/avoid_flood2.py:72-144 | outcome, files and requests are those of `ValidatingCall` |
| TtsCache.Workspace.NeverRaiseTts | src/main/resources/scripts/15.py:51-103 | outcome, files and requests are those of `NeverRaiseCall` |
| TtsCache.Workspace.PoisoningTts | src/main/resources/scripts/sled.py:39-81 | outcome, files and requests are those of `PoisoningCall` |
| TtsCache.Workspace.RequestOnlyTts | src/main/resources/scripts/12.py:65-120 | outcome, files and requests are those of `RequestOnlyCall` (also fx_xx.py) |
| TtsCache.Workspace.DefaultFiveTts | src/main/resources/scripts/avoid_flood.py:39-92 | outcome, files and requests are those of `DefaultFiveCall` |
| NarrationSound.CheckedSound | src/main/resources/scripts/15.py:262-265 | `tracker.audio_path and tracker.duration > 0` is true exactly for a path with a positive duration, and raises exactly for a path with a None duration |
| NarrationSound.CubesSoundIsChecked | src/main/resources/scripts/12.py:384-387 | going through `audio_duration` decides exactly as the direct check, and sound plays exactly when that duration is positive |
| NarrationSound.SilentIsSilent | src/main/resources/scripts/15.py:262-265 | the silent tracker adds no sound under any of the checks |
| NarrationSound.NeverRaiseSoundIsCached | src/main/resources/scripts/15.py:262-265 | whenever 15.py adds sound, the path is the cache file and it exists |
| NarrationSound.RequestOnlySoundIsCached | src/main/resources/scripts/12.py:528-530 | the sound checks of 12.py and fx_xx.py never raise on their trackers, and a sound added is the existing cache file |
| NarrationSound.SledSoundNeedsAudio | src/main/resources/scripts/sled.py:62-76 | sound plays only from a non-empty cached file; an empty (poisoned) file adds none and scene 1 then lasts 15.1 s |
| NarrationSound.DefaultFiveSoundIsCached | src/main/resources/scripts/avoid_flood.py:229-231 | whenever avoid_flood.py adds sound, the path is the existing cache file |
| SceneTiming.TimedBlockLength | src/main/resources/scripts/cofficient.py:276-312 | a block that waits only a positive remainder lasts max(d + played - planned, played + fade), never less than its own animations |
| SceneTiming.GuardedBlockLength | src/main/resources/scripts/sled.py:258-275 | with narration the block is that maximum; without narration it is the animations, the fixed wait and the fade |
| SceneTiming.CofficientScene1 | src/main/resources/scripts/cofficient.py:276-312 | scene 1 plans 7.9 s and lasts max(d, 8.9) |
| SceneTiming.CofficientPart3NeverWaits | src/main/resources/scripts/cofficient.py:547-560 | the part-3 remainder is -1 for every narration, so that wait never happens |
| SceneTiming.CofficientItemRunTimeBounds | src/main/resources/scripts/cofficient.py:961-977 | each summary item writes for at least 0.1 s and at most max((d - 2)/3, 1.5) |
| SceneTiming.SymmetryAxis | src/main/resources/scripts/cofficient.py:793-799 | the axis line exists exactly when a is not 0 |
| SceneTiming.SymmetryAxisIsAxis | src/main/resources/scripts/cofficient.py:793-799 | the parabola takes equal values at equal distances on both sides of x = -b/(2a) |
| SceneTiming.RevealTime | src/main/resources/scripts/avoid_flood2.py:536-540 | the reveal time is at least 5 s and at least d - 6 |
| SceneTiming.RevealSteps | src/main/resources/scripts/avoid_flood2.py:536-575 | the loop over the nine steps: the delay per item is RevealTime/9, the run time per item is min(0.5, 0.8 delay), and the total is RevealTime |
| SceneTiming.SameRatioScaling | src/main/resources/scripts/avoid_flood2.py:660-680 | the scaled typical flood reaches the design peak at the typical peak time and keeps every ratio between two times |
| SceneTiming.WaitAfterEndingCases | src/main/resources/scripts/avoid_flood2.py:842-875 | the final wait is 1.5 s for narrations of 8.5 s or more, and d - 7 (negative below 7 s) otherwise |
| SceneTiming.HighlightTime | src/main/resources/scripts/15.py:727-731 | the scene-4 highlight time is never negative |
| SceneTiming.UnitCircleWait | src/main/resources/scripts/15.py:279-282 | the wait is 0 or d - planned - 0.5, whichever is larger |
| SceneTiming.UnitCircleBlock | src/main/resources/scripts/15.py:279-801 | each of the five scenes lasts max(d, plan + 0.5), with plans of 6.5, 8, 8.5, at least 3, and 6 s |
| SceneTiming.SledScene1 | src/main/resources/scripts/sled.py:258-275 | scene 1 plans 12.1 s; it lasts max(d, 13.1) with narration and 15.1 s without |
| SceneTiming.CubesBlocksOverrun | src/main/resources/scripts/12.py:392-588 | scenes 2 and 3 outlast the narration by 1.5 s and 2 s (the camera moves are not planned); without narration they last 9 and 9.5 s |
| SceneTiming.CubesScene1 | src/main/resources/scripts/12.py:275-306 | scene 1 lasts max(d, 4) with narration and 6 s without |
| SceneTiming.FloodListTotal | src/main/resources/scripts/avoid_flood.py:553 | the list animation lasts at least 5 s |
| SceneTiming.FloodListTiming | src/main/resources/scripts/avoid_flood.py:553-554 | the list lasts max(5, d - 7) and is shared equally over the nine steps, at least 5/9 s each |
| SceneTiming.FloodWaitsClamped | src/main/resources/scripts/avoid_flood.py:457-834 | every clamped wait is non-negative; scene 2 waits 2 s for narrations of 12 s or more and max(0, d - 10) below; scene 3 waits max(0, d - 16.5); the summary max(0, d - 10) |
| SceneTiming.FloodScaleReachesQp | src/main/resources/scripts/avoid_flood.py:658-736 | the scale factor is 1.25 and takes the typical peak of 8 to the design peak of 10 |
| SceneTiming.TangentScenes | src/main/resources/modal/scripts/fx_xx.py:199-418 | scene 1 lasts max(d, 4.5) or 5.5 s without narration; scene 3 lasts max(d + 0.5, 16.5) |
| SceneTiming.MajorsScenes | src/main/resources/scripts/intro_majoy_2.py:233-779 | the ten scenes account 3.5, 4, 2, 4, 2, 4, 2, 4, 2.5 and 3.5 s of animation; the first two scenes last max(d, 4.5) and max(d, 5) |
| SceneTiming.SubtitleSpanIsMax | src/main/resources/scripts/05.py:124-139 | `play_voiceover` shows a subtitle for max(d, 1) s |
| SceneTiming.TangentLessonScenes | src/main/resources/scripts/05.py:198-450 | the scenes last max(d, 4.5), max(d, 6.5) and max(d + 12, 13.5): the last one plans 0.5 s but plays 12.5 s |
| SceneState.Clip | src/main/resources/modal/scripts/fx_xx.py:148 | `np.clip` lands in [lo, hi], is the identity inside it and the nearer bound outside |
| SceneState.TargetOpacity | src/main/resources/modal/scripts/fx_xx.py:142-149 | the target opacity stays within [0.1, 0.9] whatever the attributes, time and sine |
| SceneState.Star.constructor | src/main/resources/modal/scripts/fx_xx.py:142-145 | a star with its attributes and opacity |
| SceneState.Mob.constructor | src/main/resources/modal/scripts/fx_xx.py:128-130 | a mobject with its updaters |
| SceneState.Present | src/main/resources/modal/scripts/fx_xx.py:131-133 | the non-None mobjects; empty exactly when every entry is None |
| SceneState.StarScene.constructor | src/main/resources/modal/scripts/fx_xx.py:142-150 | a scene at time 0 with no mobjects; whether the updater advances time (fx_xx.py) or not (05.py, 06.py) |
| SceneState.StarScene.StarUpdater | src/main/resources/modal/scripts/fx_xx.py:142-150 | the star takes the target opacity for the time before the frame, and the scene time grows by dt when the updater advances it |
| SceneState.StarScene.RunFrames | src/main/resources/modal/scripts/fx_xx.py:142-150 | after a run of frames the scene time has grown by their total (or not at all in 05.py/06.py), and the star's opacity is that of the last frame, within [0.1, 0.9] |
| SceneState.StarScene.ClearUpdaters | src/main/resources/modal/scripts/fx_xx.py:128-130 | every present mobject has no updaters left |
| SceneState.StarScene.ClearAndReset | src/main/resources/modal/scripts/fx_xx.py:126-140 | updaters cleared, no mobjects, scene time 0, and the time used grows by 0.5 s when something was on screen plus the final wait (0.1 s in fx_xx.py, none in 05.py and 06.py) |
| SceneState.UnitCircleScene.constructor | src/main/resources/scripts/15.py:147-176 | a scene with the camera at the origin and the configured frame size |
| SceneState.UnitCircleScene.ClearUpdaters | src/main/resources/scripts/15.py:147-176 | every present mobject has no updaters left |
| SceneState.UnitCircleScene.ClearAndReset | src/main/resources/scripts/15.py:147-176 | angle 0, both element groups empty, camera reset, no mobjects, and 0.5 s more when something was on screen plus the 0.1 s wait |
| SceneState.MathTexBox.constructor | src/main/resources/modal/scripts/fx_xx.py:11-16 | a formula with its font size and height |
| SceneState.MathTexBox.SetFontSize | src/main/resources/modal/scripts/fx_xx.py:11-16 | raises (ZeroDivisionError) exactly when the old font size is 0 and then changes nothing; otherwise sets the size and scales the height by new/old |
| SceneState.ResizeKeepsRatio | src/main/resources/modal/scripts/fx_xx.py:11-16 | resizing keeps the ratio of height to font size |
| CubeGrid.Scene2Centre | src/main/resources/scripts/12.py:361-375 | cube (i, j, k) of scene 2 sits where the loop puts it: i and j cube widths from the offsets -(7-1)/2 and -(5-1)/2 widths, layer k shifted out by k widths |
| CubeGrid.Scene3Centre | src/main/resources/scripts/12.py:497-523 | cube (i, j, k) of scene 3 sits where the slice loop puts cube (j, k), moved right by i widths as the i-th copy's shift does |
| CubeGrid.ShiftAll | src/main/resources/scripts/12.py:517-523 | shifting a layer shifts every cube by the same offset, keeping the count |
| CubeGrid.SameGridTranslated | src/main/resources/scripts/12.py:361-523 | the scene-3 grid is the scene-2 grid moved by (0.25, 0.25, 0) |
| CubeGrid.CentresAreDistinct | src/main/resources/scripts/12.py:361-523 | two grid positions have the same centre exactly when they are the same position |
| CubeGrid.BuildBaseLayer | src/main/resources/scripts/12.py:361-375 | the 7-by-5 base layer has 35 cubes, cube n at row n/5, column n%5, height 0 |
| CubeGrid.BuildSlice | src/main/resources/scripts/12.py:497-510 | the scene-3 slice has 10 cubes, cube n at column n/2, height n%2 |
| CubeGrid.BuildFullBlock | src/main/resources/scripts/12.py:512-523 | seven copies of the slice, the i-th shifted by i cube widths along x |
| CubeGrid.BuildScene2Cubes | src/main/resources/scripts/12.py:361-378 | two layers of 35, 70 cubes, cube (i, j) of layer k at `Scene2Centre(i, j, k)` |
| CubeGrid.BuildScene3Cubes | src/main/resources/scripts/12.py:497-523 | seven slices of 10, 70 cubes, cube (j, k) of slice i at `Scene3Centre(i, j, k)` |
| CubeGrid.CountTens | src/main/resources/scripts/12.py:497-523 | groups of ten cubes hold ten cubes per group |
| CubeGrid.CubeScenes.constructor | src/main/resources/scripts/12.py:139-143 | both shared blocks start as None |
| CubeGrid.CubeScenes.PlayScene2 | src/main/resources/scripts/12.py:445 | scene 2 stores its block, laid out as `Scene2Layout` with 70 cubes, and leaves the scene-3 block alone |
| CubeGrid.CubeScenes.PlayScene3 | src/main/resources/scripts/12.py:593 | scene 3 stores its block, laid out as `Scene3Layout` with 70 cubes, and leaves the scene-2 block alone |
| CubeGrid.CubeScenes.FinalCubes | src/main/resources/scripts/12.py:613-621 | the final scene shows `FinalDisplay` of the two stored blocks |
| CubeGrid.PlayAll | src/main/resources/scripts/12.py:139-621 | after scenes 2 and 3 the final scene shows the scene-3 block: `Scene3Layout`, 70 cubes |
| Fonts.FirstInstalled | src/main/resources/scripts/sled.py:93-99 | the font found is both a candidate and installed; none is found exactly when no candidate is installed |
| Fonts.FirstInstalledIsFirst | src/main/resources/scripts/sled.py:93-99 | no candidate before the chosen one is installed |
| Fonts.ChosenFont | src/main/resources/scripts/cofficient.py:29-48 | the chosen font is installed and is the preferred font or a fallback; it is the preferred font whenever that is installed; there is none exactly when neither it nor any fallback is installed |
| Fonts.ChooseFont | src/main/resources/scripts/sled.py:84-102 | the search loop with its `found_fallback` flag ends with `ChosenFont` |
| Fonts.FontSettings.constructor | src/main/resources/scripts/intro_majoy_2.py:73 | `DEFAULT_FONT` starts as the preferred font and the Text default is unset |
| Fonts.FontSettings.Rebind | src/main/resources/scripts/intro_majoy_2.py:76-91 | rebinding `DEFAULT_FONT` leaves it at `ChosenFont` of the installed fonts |
| Fonts.FontSettings.Setup | src/main/resources/scripts/intro_majoy_2.py:101-105 | `setup` sets the Text default only when there is a font |
| Fonts.StartScene | src/main/resources/scripts/intro_majoy_2.py:73-105 | at start-up the Text default becomes the chosen font (or stays unset when there is none) |

## Left out

- Oracles (the Gemini models, `JsonUtils.parse`, the executor, the database lookup in `genManaimCode` and `GeminiClient`) are parameters. The prompt templates (`code_fix_prompt.txt`, `gen_video_sence_en.txt`, `gen_video_code_en.txt`) are represented by their rendered text.
- Logging, `System.out.println`, the SSE progress packets sent through `Tio.bSend`, and the file that `genManaimCode` writes under `script/` are not modelled, because they do not affect any result. The database save in `fixCodeAndRerun` is modelled only as the list of rows saved.
- A generation oracle answers with a failed request, a reply without a candidate, or a reply text. `getCandidates().get(0)` on an empty candidate list throws; in `genAvoidPromptCode` (LinuxService.java:185), `genManaimCode` (LinuxService.java:210) and `MainimService` (lines 284 and 304) that call is outside any `try`, so the exception escapes. A null reply text is modelled as the NullPointerException it causes.
- The executor is a function of the code it runs: the same script always gives the same result or the same exception. Time-dependent or flaky executions are not modelled.
- MainimCascade.IndexNoJson: does not promise that a call without a run ended NoJson or threw before running, because an executor exception on the first run ends the call with one run recorded.
- LinuxRetry.StoredCodeIsRerun: `ModelCalls` counts only the avoid-prompt rows that completed; a last avoid request that threw is not counted.
- `BotMessageDispatherService`, `GetChatIdService`, `StartService` and `TranslatorService` are not part of this model. The bot routing records only which handler an update reaches, and the translator is a parameter.
- HTTP (`requests.get`, timeouts, status codes), `hashlib.md5`, `requests.utils.quote` and moviepy's `AudioFileClip` are parameters. `raise_for_status` is modelled as raising for statuses 400 to 599.
- `os.remove` failing with an OSError during a purge in avoid_flood2.py is not modelled: the removal is assumed to succeed.
- `open(cache_file, "wb")` failing before creating the file is treated like a failed write, which leaves the file.
- `str.lower()` is modelled for ASCII letters only (`LowerAscii`). The Content-Type test only looks for the ASCII word "audio", so this does not change its result.
- The "file missing after download" branches (cofficient.py 93-94, 15.py 95-97, 12.py 111-114, fx_xx.py 84-86) cannot be reached in the model, because a completed download always leaves the file. sled.py's `if not audio_file` branch (73-76) is unreachable for the same reason.
- A context manager that has an exception thrown into it at its `yield` is not modelled. In avoid_flood.py the `yield` sits inside its own `try`, so such an exception would be caught there. Only what happens before the `yield` is modelled.
- Manim rendering is not modelled: the animation semantics, the camera, `add_sound` and what is drawn. Only the scalar timing (how long each block plays and waits) and the state named in `SceneState` and `CubeGrid` are modelled.
- The camera frame's configured width and height are constructor parameters.
- In `CubeGrid`, cube centres are relative to the axes' origin. Colours, opacities and the `VGroup` nesting of the blocks are not modelled: a block is a sequence of layers of centres.
- `np.sin`, `np.exp` and the Pearson-III curves of the flood scenes are not modelled. `SameRatioScaling` takes the typical curve as a parameter, and the star updater takes the sine as a parameter. Floating-point rounding is not modelled: durations are exact reals.
- SceneTiming.TangentLessonScenes: does not model 05.py's `original_scene_02_animation`; it is taken to last exactly the `run_time` of 5 s that scene 2 passes to it.
- In avoid_flood.py a None duration from the decoder makes `tracker.duration - ...` raise a TypeError in the scene. That raise is not modelled: `DefaultFiveCall` only records the None duration.
- The Java tests and the context files (the controllers, `ManimService`, the configuration) are not modelled.

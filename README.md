# super_gmae core, modelled in Dafny

super_gmae shows a webcam or HDMI-capture feed in a GLFW window, drawn through
an OpenGL shader on a full-screen quad. Keys on the keyboard turn a handful
of visual effects up or down. This project models the control and state
skeleton of that program and proves what it promises:

- `processor_utils.dfy` (module `ProcessorUtils`) covers `gmae/processor_utils.py`:
  - the `Key` enum with its GLFW codes and the static `effect_keymap`;
  - `EffectFlash` timers and their `current_value` window;
  - `LoopState`, `Rect`;
  - the `EffectsState` class, whose `strength` and `next_flash` dictionaries
    are map fields that `change`, `randomize_amounts`, `handle_input` and
    `choose_next_flash` update in place.
- `processor.dfy` (module `Processing`) covers `gmae/processor.py`:
  - the quad's vertex and index constants;
  - the three-stage `_create_program` cascade;
  - the guarded steps of `process`;
  - the `run` loop, as a `Processor` class whose capture device is the
    sequence of reads it will return.
- `utils.dfy` (module `Utils`) covers `gmae/utils.py`: the `TitleInfo` class
  (`full_title`, `update`), `UniformLocations` and `env_means_true`.
- `find_video_captures.dfy` (module `VideoCaptures`) covers
  `gmae/find_video_captures.py`: `take_preferred_index` (as written and as
  evidently intended), the empty-list guard and the name trimming of
  `find_capture_device_name_with_index`.
- `loop_state.dfy` (module `KeyState`) covers `gmae/loop_state.py`:
  `key_pressed` and the two-flag `LoopState`.
- `wrappers.dfy` holds the `Option` and `Result` datatypes.

Collaborators that cannot be seen become parameters:

- `clamp` is imported from `gmae.utils` but is not defined in that file. It is
  a function parameter, and the one assumption made about it is
  `ProcessorUtils.ClampsToUnit`: every result lies in [0, 1].
- `random()` and `uniform()` draws are maps from effect id to the drawn
  value. Their range preconditions are `RandomDraws` ([0, 1)) and
  `DrawInRange` ([20, 90] and [3, 50]).
- The shader compiler is a pair of functions from stage to outcome.
- The window is a function of the loop iteration saying whether it asks to
  close.
- The GPU is a function of the iteration naming the drawing step, if any,
  that raises.
- Keyboard state is the set of pressed keys, or the GLFW state code of a key.

## Model

| member | source | states |
|---|---|---|
| Utils.CaseFold | gmae/utils.py:78 | `casefold` keeps the length and folds every character on its own |
| Utils.CaseFoldIdempotent | gmae/utils.py:78 | folding a folded string changes nothing |
| Utils.FoldedUnchanged | gmae/find_video_captures.py:16 | a string without capitals, such as a search string, folds to itself |
| Utils.EnvMeansTrue | gmae/utils.py:77-78 | true iff the variable is set and its folded value is one of "true", "1", "on"; an unset variable (default "") gives false |
| Utils.EnvMeansTrueIgnoresCase | gmae/utils.py:77-78 | a value and its folded form give the same answer |
| Utils.EnvMeansTrueExamples | gmae/utils.py:77-78 | "TRUE", "On", "1" are accepted; "yes", "0", "" and an unset variable are not |
| Utils.NewUniformLocations | gmae/utils.py:50-54 | `sampler` and `resolution` are stored and `time` defaults to None |
| Utils.TitleInfo.constructor | gmae/utils.py:57-60 | a new record holds the name and the compiling flag, which defaults to false |
| Utils.TitleInfo.FullTitle | gmae/utils.py:62-67 | the name is always a prefix; the title is the name when not compiling, and the name followed by " (Compiling...)" when compiling |
| Utils.TitleInfo.Update | gmae/utils.py:69-74 | a None argument leaves its field unchanged, any other is stored, and the window's title becomes the new full title |
| KeyState.KeyPressed | gmae/loop_state.py:11-12 | pressed iff the key state equals PRESS (RELEASE and REPEAT do not count) |
| KeyState.DefaultLoopState | gmae/loop_state.py:15-18 | the default snapshot has `f5_pressed` and `compiling` false |
| KeyState.Read | gmae/loop_state.py:20-25 | `f5_pressed` is whether F5 is in the PRESS state; `compiling` copies `info.is_compiling` |
| ProcessorUtils.KeyCodesDistinct | gmae/processor_utils.py:16-35 | the seventeen keys have seventeen distinct GLFW codes |
| ProcessorUtils.EveryEffect | gmae/processor_utils.py:57-62 | the set of all `EffectId` members contains every id |
| ProcessorUtils.KeymapBindsEachEffectTwice | gmae/processor_utils.py:65-76 | every effect id is bound to exactly two keys, one with +1 and one with -1 |
| ProcessorUtils.KeysForEffect | gmae/processor_utils.py:65-76 | the keys bound to an effect are exactly its INCREASE and DECREASE keys |
| ProcessorUtils.KeymapStepsByOne | gmae/processor_utils.py:65-76 | every binding's increment is +1 or -1 |
| ProcessorUtils.CommandKeysAreUnbound | gmae/processor_utils.py:65-76 | ABORT, UPDATE_SHADER, FULLSCREEN, MUTE, SHOW_ORIGINAL, PRINT_DEBUG and RANDOMIZE_ALL_EFFECTS are not keys of the map |
| ProcessorUtils.DefaultLoopState | gmae/processor_utils.py:38-44 | the default snapshot has all five flags false |
| ProcessorUtils.ReadLoopState | gmae/processor_utils.py:46-54 | each flag is whether F5, F8, F11 or F12 is pressed, and `compiling` copies `info.is_compiling` |
| ProcessorUtils.Unpack | gmae/processor_utils.py:171-172 | the tuple is in field order, so rebuilding a `Rect` from it gives the same value |
| ProcessorUtils.NewFlash | gmae/processor_utils.py:84-98 | a new timer has `remaining_sec` in [20, 90] and `duration_sec` in [3, 50]; it is neither over nor in the zero window |
| ProcessorUtils.IsOver | gmae/processor_utils.py:107-109 | an over timer lies outside the zero window and, with a non-negative duration, is past zero |
| ProcessorUtils.CurrentValue | gmae/processor_utils.py:100-105 | zero exactly when `-duration_sec <= remaining_sec <= 0`; otherwise the exponential of `x` with `x * 2 * duration_sec == -remaining_sec` |
| ProcessorUtils.OverFlashIsNotQuiet | gmae/processor_utils.py:100-109 | a timer that is over, or not yet due, takes the nonzero branch |
| ProcessorUtils.NewFlashIsPending | gmae/processor_utils.py:89-109 | a fresh timer is not over and takes the nonzero branch with a negative `x` |
| ProcessorUtils.Changed | gmae/processor_utils.py:146-153 | an absent id is set to 1 whatever the sign; a present id becomes `clamp(old + inc*0.1)`; the value lies in [0, 1]; the key set gains only `id`; other entries are unchanged |
| ProcessorUtils.Randomized | gmae/processor_utils.py:124-126 | the key set is kept and every key gets its own draw |
| ProcessorUtils.RandomizedInUnit | gmae/processor_utils.py:124-126 | after randomizing, every strength lies in [0, 1) |
| ProcessorUtils.KeyStep | gmae/processor_utils.py:139-144 | one turn of `for key in Key`: a key that is unbound or not pressed changes nothing; a pressed step key adds only its effect to the key set and leaves the other entries alone; strengths stay in [0, 1] |
| ProcessorUtils.ApplyKeys | gmae/processor_utils.py:138-144 | the key loop never removes an effect, and changes nothing when no visited key is a pressed step key |
| ProcessorUtils.ApplyKeysOneMore | gmae/processor_utils.py:138-144 | one more turn of the key loop applies that key's `change` to the strengths so far |
| ProcessorUtils.TouchedEffectsOfLastKey | gmae/processor_utils.py:138-144 | the effects a key sequence touches are those of its front plus its last key's |
| ProcessorUtils.ApplyKeysFacts | gmae/processor_utils.py:138-144 | the key loop keeps every strength in [0, 1], adds exactly the touched effects to the key set, and leaves untouched effects as they were |
| ProcessorUtils.EffectsState.constructor | gmae/processor_utils.py:112-115 | both dictionaries start empty |
| ProcessorUtils.EffectsState.Random | gmae/processor_utils.py:117-122 | `strength` has exactly every effect id as keys, each holding its draw; `next_flash` is empty |
| ProcessorUtils.EffectsState.RandomizeAmounts | gmae/processor_utils.py:124-126 | `strength` becomes the randomized map over the same keys; `next_flash` is unchanged |
| ProcessorUtils.EffectsState.Change | gmae/processor_utils.py:146-153 | `strength` becomes the changed map and `next_flash` is unchanged; strengths stay in [0, 1] |
| ProcessorUtils.EffectsState.HandleInput | gmae/processor_utils.py:133-144 | with RANDOMIZE_ALL_EFFECTS pressed, only the randomization happens; otherwise every pressed step key applies its change in key order; `next_flash` is unchanged |
| ProcessorUtils.EffectsState.ChooseNextFlash | gmae/processor_utils.py:156-161 | with an id, only that entry is replaced by a new timer; with None, every effect id gets a new timer; `strength` is untouched |
| Processing.QuadVerticesLayout | gmae/processor.py:24-33 | four vertices of three components in BL, BR, TR, TL order, x and y in {-1, +1}, z = 0 |
| Processing.QuadIndicesFormSquare | gmae/processor.py:34-38 | six indices below 4 forming (0,1,2) and (0,2,3), which share the diagonal 0-2, are both counter-clockwise and cover the square |
| Processing.CreateProgram | gmae/processor.py:74-91 | an exception other than a compilation error from either shader stage escapes (Err with its message); the link stage catches every exception; when the build returns, it has a program and no error iff vertex compile, fragment compile and link all succeed, and otherwise no program and an error; a vertex failure skips the fragment compile and the link, and a fragment failure skips the link |
| Processing.ErrorIsSet | gmae/processor.py:192 | the `if self.error:` test: an exception is always true, a compiler message only when it is not empty |
| Processing.BuildDecidesGiveUp | gmae/processor.py:76-91 | for a build that returns: a built program never makes `run` give up and a failed link always does; a vertex failure with an empty message leaves no program yet does not stop the loop |
| Processing.StepIndex | gmae/processor.py:149-189 | the position of each step in the order `process` runs them |
| Processing.StepsRun | gmae/processor.py:149-189 | the steps run are a prefix of texture load, clear, use program, uniforms, draw, swap; all of them without a fault, otherwise ending at the failing step, which appears nowhere earlier |
| Processing.RunLoopCounts | gmae/processor.py:196-201 | the `while` loop: it never gives up, and it takes one read per frame shown, plus one more for the failed read or the raising frame unless the window closed |
| Processing.RunLoopShowsReads | gmae/processor.py:196-201 | every frame the loop shows is the read at its position from the cursor, and a capture end follows a failed read |
| Processing.LeadingFrames | gmae/processor.py:196-201 | the frames of the reads before the first failed read, in order |
| Processing.RunShowsLeadingFrames | gmae/processor.py:196-201 | with the window open and no step raising, `run` shows exactly the leading frames in order and ends at the first failed read |
| Processing.RunShowsPrefixOfLeadingFrames | gmae/processor.py:196-201 | whatever the window and the GPU do, what `run` shows is a prefix of the leading frames |
| Processing.Processor.constructor | gmae/processor.py:40 | when `_create_program` returns, `program` and `error` are its result; nothing has been read or shown |
| Processing.Processor.ReadFrame | gmae/processor.py:197 | the next read of the device, and the read count advances by one |
| Processing.Processor.Process | gmae/processor.py:149-189 | the steps run are those of `StepsRun`, the failing step is re-raised, and a frame counts as shown only when its swap-and-poll step completed |
| Processing.Processor.ReadAndProcess | gmae/processor.py:197-201 | one loop pass stops at a failed read or a raising step, and otherwise adds the frame to the screen |
| Processing.Processor.Run | gmae/processor.py:191-201 | with an error set, returns without reading; otherwise the reads, the frames shown and the way the loop ends are those of `RunLoop` |
| VideoCaptures.ContainsMeansOccurs | gmae/find_video_captures.py:20-21 | Python's `in` on strings: true iff the needle occurs at some position of the haystack |
| VideoCaptures.ContainsShift | gmae/find_video_captures.py:20-21 | when the needle is not a prefix, it occurs in the haystack iff it occurs in the haystack without its first character |
| VideoCaptures.MatchesMeansOccurs | gmae/find_video_captures.py:20-21 | true iff the folded search string occurs in the folded name, negated when `exclude` is set |
| VideoCaptures.NameFind | gmae/find_video_captures.py:15-22 | the result is a matching name from the list, and None exactly when no name matches |
| VideoCaptures.IndexOf | gmae/find_video_captures.py:26 | `names.index`: the first position holding the name |
| VideoCaptures.IndexOfFoundIsFirstMatch | gmae/find_video_captures.py:24-29 | the index of the found name is the first matching position |
| VideoCaptures.TakePreferredIndexAsWritten | gmae/find_video_captures.py:11-30 | IndexError iff the list is empty; any index is valid; a name result is the last name of a list of at least two |
| VideoCaptures.TakePreferredIndex | gmae/find_video_captures.py:11-30 | the intended function always gives a valid index |
| VideoCaptures.SingleDeviceIsChosen | gmae/find_video_captures.py:12-13 | a single-element list yields 0 whatever its content |
| VideoCaptures.AdapterIsPreferred | gmae/find_video_captures.py:15-26 | when some name contains "ugreen" in any case, the chosen index is the first such name |
| VideoCaptures.NonIntegratedIsPreferred | gmae/find_video_captures.py:27-29 | otherwise, when some name lacks "integrated" in any case, the chosen index is the first such name |
| VideoCaptures.AsWrittenDiffersOnlyInFallback | gmae/find_video_captures.py:24-30 | both versions agree wherever the written one returns an index; it returns the last name exactly when no name is an adapter and all mention "integrated" |
| VideoCaptures.AfterLastColon | gmae/find_video_captures.py:44 | `split(':')[-1]`: a colon-free suffix that follows a colon unless it is the whole string |
| VideoCaptures.LeadingSpaces | gmae/find_video_captures.py:44 | `lstrip()` drops exactly the leading run of whitespace: everything before the count is whitespace, the character at it is not |
| VideoCaptures.TrailingSpaces | gmae/find_video_captures.py:44 | `rstrip()` drops exactly the trailing run of whitespace: everything after the kept part is whitespace, its last character is not |
| VideoCaptures.StripIsPieceBetweenSpaces | gmae/find_video_captures.py:44 | `strip()` keeps a piece of the input, starting after the leading whitespace, with only whitespace before and after it and neither starting nor ending with whitespace |
| VideoCaptures.StripIsPiece | gmae/find_video_captures.py:44 | what `strip()` keeps is the slice of the input that starts after the leading whitespace |
| VideoCaptures.StripDropsTrailingSpaces | gmae/find_video_captures.py:44 | everything `strip()` drops after the kept slice is whitespace |
| VideoCaptures.StripEndsAreNotSpaces | gmae/find_video_captures.py:44 | what `strip()` keeps neither starts nor ends with whitespace |
| VideoCaptures.StripKeepsCharacters | gmae/find_video_captures.py:44 | stripping adds no character |
| VideoCaptures.ActualName | gmae/find_video_captures.py:44 | the trimmed name contains no ':' and has no surrounding whitespace |
| VideoCaptures.PlainNameIsKept | gmae/find_video_captures.py:44 | a name without a colon or surrounding whitespace is kept whole |
| VideoCaptures.AfterLastColonOf | gmae/find_video_captures.py:44 | `split(':')[-1]` of `prefix + ":" + tail`, with no colon in `tail`, is `tail` |
| VideoCaptures.ActualNameDropsPrefix | gmae/find_video_captures.py:44 | whatever precedes the last colon is dropped: the name is the stripped text after it |
| VideoCaptures.FindCaptureDeviceAsWritten | gmae/find_video_captures.py:33-45 | the caller as written: an empty list raises EnvironmentError before any choice, so IndexError never arises; TypeError iff there are at least two names, none an adapter and all "integrated"; otherwise a valid index and the trimmed name of that entry |
| VideoCaptures.FindCaptureDevice | gmae/find_video_captures.py:33-45 | the caller with the intended fallback (see `FindCaptureDeviceAsWritten` for the code as written): an empty list raises before any choice; otherwise a valid index and the trimmed name of that entry, with no ':' |
| VideoCaptures.OnlyIntegratedFailsAsWritten | gmae/find_video_captures.py:30 | with several names, none an adapter and all "integrated", the written code returns the last name and indexing the list by it raises TypeError |
| VideoCaptures.OnlyIntegratedPicksLast | gmae/find_video_captures.py:30 | for the same lists the intended code picks the last device |
| VideoCaptures.TwoBuiltInCamerasFail | gmae/find_video_captures.py:27-30 | two names starting "Integrated" with no letter u: the written code raises, the intended one picks index 1 |
| VideoCaptures.LaptopCameraNames | gmae/find_video_captures.py:27-30 | "Integrated Camera" and "Integrated IR Camera" meet those conditions |
| VideoCaptures.BuiltInCameraName | gmae/find_video_captures.py:15-22 | a name starting "Integrated" with no letter u matches neither search |
| VideoCaptures.SearchStringsFolded | gmae/find_video_captures.py:16 | both search strings fold to themselves and "Integrated" folds to "integrated" |
| VideoCaptures.CapitalIntegratedFolds | gmae/find_video_captures.py:20 | "Integrated" folds to "integrated" |
| VideoCaptures.NoUgreenIn | gmae/find_video_captures.py:20 | a string without the letter u does not contain "ugreen" |

## Left out

- OpenGL, GLFW and cv2 calls (window creation, buffers, textures, drawing, swap and poll, `normalize_frame`, `__exit__`) are opaque steps. A raising step is chosen by a parameter, and the GL error check is folded into the step it guards.
- The uniform-location lookups, `_create_objects` and `glGenTextures` in `Processor.__init__` are not part of this model. Only `program` and `error` are set from the build.
- The window-creation failures of `_init_window` are not part of this model.
- ProcessorUtils.CurrentValue: the value `exp(-x*x)` is not computed; the result records `x` symbolically.
- ProcessorUtils.CurrentValue: requires a positive duration. Every timer is created with at least 3 seconds; with a zero duration outside the window the source divides by zero.
- Strengths and timers are `real`, so floating-point rounding of `old + inc*0.1` is not modelled.
- ProcessorUtils.ClampsToUnit: `clamp` is assumed, not defined. Its body is not in `gmae/utils.py`, and only its range [0, 1] is used.
- Random draws are given per effect id, so the order in which Python iterates a dict does not affect the model.
- Utils.CaseFold: folds ASCII capitals only. Python's full Unicode `casefold` (for example "ß" to "ss") is not modelled.
- `print`, `log`, `timestamp` and `EffectsState.print_debug` only write output and are left out.
- `CaptureDeviceInfo.read_from` and `Rect.read_window` read cv2 and GLFW state and are left out. So is the device scan in `find_capture_device_name_with_index`: its list of names is a parameter.
- Key reads are a snapshot: the set of keys `key_pressed` reports, or the state code `glfw.get_key` reports for F5. The GLFW key codes appear as constants.
- `gmae/AudioStream.py`, `gmae/find_devices.py`, `gmae/__main__.py`, `gmae/shaders/basic.py` and `unused/` are not part of this model.
- Processing.CreateProgram: an exception escaping `_create_program` is an Err carrying its message; its type and traceback are not modelled.
- Processing.Processor.constructor: requires the build to return; when `_create_program` raises, `__init__` raises too and no processor exists.
- Processing.BuildDecidesGiveUp: after a failed build, `__init__` passes `self.program = None` to `glGetUniformLocation` and then checks for GL errors (gmae/processor.py:43-46), so it probably raises before `run` is reached; those calls are not modelled. PyOpenGL's compile messages are not known to be empty, so the empty-message case records what `if self.error:` would do, not an observed failure.
- Processing.NthRead: every read past the end of the given script fails, so the modelled `run` always ends. A live capture that never fails, with a window that never closes, loops forever in the source; that non-termination is not modelled.
- Processing.Processor.Process: `glfw.swap_buffers` and `glfw.poll_events` are one step, so a frame whose swap succeeded but whose poll raised is not counted as shown.
- Both `LoopState.read`s call `processor.key_pressed` and `processor.info` (gmae/processor_utils.py:49-53, gmae/loop_state.py:22-24), which the `Processor` class in gmae/processor.py does not define. The model takes `info` to be a `TitleInfo`.
- Processing.Processor.Run: an exception from `process` ends the model's loop with `Raised(step)`. Python propagates it to the caller, which is not modelled.

## Findings

| source | as written | input that shows it | evidently intended | confidence | as-written member | corrected member |
|---|---|---|---|---|---|---|
| gmae/find_video_captures.py:30 | the last fallback of `take_preferred_index` returns `names[-1]`, the last NAME; the caller then evaluates `device_names[name]`, which raises TypeError | `["Integrated Camera", "Integrated IR Camera"]` (no "ugreen", every name mentions "integrated") | return the index of the last name, `len(names) - 1` | high, not executed | VideoCaptures.OnlyIntegratedFailsAsWritten | VideoCaptures.OnlyIntegratedPicksLast |

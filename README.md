# Russian Fishing 4 bot: cooldown timer and startup decisions

This project is a Dafny model of two sequential pieces of the Russian Fishing 4 automation script.

- **The cooldown and cast-history timer** (`Timer` in `rf4s/controller/timer.py`), in `timers.dfy`.
  It keeps one last-fired timestamp for each of five gates: tea, alcohol, lure change, spod-rod recast and pause.
  Each `is_*` check opens its gate exactly when more than the configured delay has passed since the gate last fired.
  An open gate is rearmed at the current time. The alcohol gate also rearms tea.
  The timer also keeps a pending (real hour, in-game hour) pair of the latest cast and two index-aligned histories of recorded pairs.
  The clock is a parameter: `now` is a real number of seconds since the epoch.
  `minute` and `second` are the wall-clock fields `update_cast_time` reads.
  The delays are fixed when the timer is built.
- **The startup decisions of the command-line entry point** (`Rf4sApp` in `tools/main.py`), in `app.dfy`.
  - Argument bounds and profile-id parsing.
  - The interactive profile prompt, run over a scripted sequence of typed lines.
  - Profile resolution: a name beats an id, and an id beats the prompt.
  - The profile's key set checked against its mode template's key set.
  - The `KEY.BOTTOM_RODS` list override.
  - The SMTP and image-set checks.
  - The feature downgrades for an unsupported window and for electric mode outside the pirk and elevator modes.

  The configuration tree is a record. `PROFILE` is an ordered sequence of named entries, and mode templates such as `SPIN` are entries of it too.
  The typed input, the directory listings, the SMTP handshake result and the window's "supported" flag are parameters.
- `pystr.dfy` models the Python `str` operations the startup code relies on.
  These are `isdigit`, `int(...)`, `str(int)`, `split(",")`, `strip()` and `upper()`.
  It proves that `split` and join are inverse to each other.
- `wrappers.dfy` holds `Option` and `Result`.

Points of the code's behaviour worth stating on their own:

- `_get_pid` calls `sys.exit()` on `q`, so the exit status is 0 (`App.Rf4sApp.GetPid`, `App.Rf4sApp.SetupUserProfile`).
- `setup_user_profile` tests PNAME first, so a name wins over an id when both are given (`App.Resolve`).
- A gate's own stamp grows when it opens with a non-negative delay (`Timers.CheckGate`).
  The alcohol gate also rewrites the tea stamp, which can move it back if the clock reading is earlier than that stamp.
  Under a clock that never runs backwards, no stamp ever moves back (`Timers.RunChecksMonotonic`).

`PyStr.IsDigitString` (`isdigit`) and `PyStr.DecimalValue` (`int`) are the definitions that the contracts of `App.IsPidValid` and `PyStr.IntToStr` are stated in.
`App.PromptSession` is the prompt loop of `_get_pid` as a function; `App.PromptDecides` characterises it.
`App.RodList` is the list comprehension of the BOTTOM_RODS split; `App.RodListPieces` characterises it.
`App.DistinctNames` states that PROFILE, a dictionary, has no two entries with the same name.

## Model

| member | source | states |
|---|---|---|
| `Timers.CheckGate` | rf4s/controller/timer.py:111-170 | A gate is open iff `now - last > delay`. On open, the gate's own stamp (and tea's, for alcohol) becomes `now`. Every other stamp is unchanged. A closed check changes nothing. With a non-negative delay, an opened gate's stamp grows and a second check at the same instant is closed. |
| `Timers.Timer.constructor` | rf4s/controller/timer.py:43-56 | Tea and alcohol last-fired are 0. Lure, spod-rod and pause last-fired equal the start time. The pending pair is unset and both histories are empty. |
| `Timers.Timer.IsTeaDrinkable` | rf4s/controller/timer.py:111-121 | Outcome and new stamps are the tea step of `CheckGate`. Only `lastTeaDrink` may change. |
| `Timers.Timer.IsAlcoholDrinkable` | rf4s/controller/timer.py:123-134 | Outcome and new stamps are the alcohol step of `CheckGate`. Only `lastAlcoholDrink` and `lastTeaDrink` may change, and both get the same `now`. |
| `Timers.Timer.IsLureChangeable` | rf4s/controller/timer.py:136-146 | Outcome and new stamps are the lure-change step of `CheckGate`. Only `lastLureChange` may change. |
| `Timers.Timer.IsSpodRodCastable` | rf4s/controller/timer.py:148-158 | Outcome and new stamps are the spod-rod step of `CheckGate`. Only `lastSpodRodRecast` may change. |
| `Timers.Timer.IsScriptPausable` | rf4s/controller/timer.py:160-170 | Outcome and new stamps are the pause step of `CheckGate`. Only `lastPause` may change. |
| `Timers.CheckGateMonotonic` | rf4s/controller/timer.py:111-170 | A check at a clock reading no earlier than every stamp moves no stamp back, for any delay, and leaves every stamp at or before that reading. |
| `Timers.RunChecksMonotonic` | rf4s/controller/timer.py:111-170 | For any run of checks whose clock readings never decrease and start no earlier than every stamp, no stamp moves back and every stamp ends at or before the last reading. |
| `Timers.RunningSeconds` | rf4s/controller/timer.py:64-66 | `int(elapsed)` truncates toward zero. A non-negative elapsed time is never rounded up: `r <= elapsed < r + 1`. |
| `Timers.Timer.GetRunningTime` | rf4s/controller/timer.py:58-66 | Returns the running time since the start, cut to whole seconds by `RunningSeconds`. |
| `Timers.CastRealHour` | rf4s/controller/timer.py:95 | `elapsed // 3600` is the whole number of hours elapsed: `3600*h <= elapsed < 3600*(h+1)`, and it is non-negative after the start. |
| `Timers.GameHour` | rf4s/controller/timer.py:94-96 | The in-game hour always lies in [0, 24). Within a real hour each in-game hour lasts 150 real seconds. |
| `Timers.Timer.UpdateCastTime` | rf4s/controller/timer.py:92-96 | Sets the pending pair to (`CastRealHour`, `GameHour`). Only the two pending fields may change, so the histories do not. |
| `Timers.Timer.AddCastTime` | rf4s/controller/timer.py:98-101 | Appends the pending pair, one half to each list. Each list grows by exactly one, so they stay equal in length. |
| `Timers.Timer.GetCastTimeList` | rf4s/controller/timer.py:103-109 | Returns the two histories, which have equal length. |
| `App.IsArgsValid` | tools/main.py:231-254 | True iff three things hold. The keepnet count lies in [0, capacity). A given profile id, checked through its decimal rendering, lies in [0, number of profiles). A given profile name names an entry of PROFILE. |
| `App.InitGate` | tools/main.py:113-115 | Startup goes on iff `_is_args_valid` holds, and otherwise exits with status 1. |
| `App.IsPidValid` | tools/main.py:256-264 | True iff the string is non-empty, all digits, and its value is below the number of profiles. A valid id is never `q`, `h` or negative. |
| `PyStr.IntToStr` | tools/main.py:245 | `str(pid)` is all digits iff `pid >= 0`, and its digits read back as `pid`. |
| `App.IsSmtpValid` | tools/main.py:266-298 | True whenever e-mail or SMTP verification is off. Otherwise it is true iff the handshake logged in. An authentication rejection and an unreachable server are both failures. |
| `App.CheckImages` | tools/main.py:300-341 | OK iff verification is off, the language is `en`, or the language's file-name set contains the `en` set. The language is invalid iff its directory is missing. A failure lists exactly the non-empty difference `en - language`. |
| `App.IndexOf` | tools/main.py:351-361 | Finds the PROFILE entry with the given name. It returns none iff no entry has that name. |
| `PyStr.Upper` | tools/main.py:356 | `mode.upper()` keeps the length, leaves no lower-case letter, and changes exactly the lower-case letters. Each lower-case letter becomes its upper-case counterpart, so `spin` becomes `SPIN`. |
| `App.CheckProfile` | tools/main.py:343-372 | Fails for an unknown profile or an unknown `MODE.upper()` template. Otherwise it passes iff the profile's key set equals the template's. A mismatch reports every key of `actual - expected` and every key of `expected - actual`. |
| `App.PromptDecides` | tools/main.py:397-409 | For the prompt loop `PromptSession`, the first valid id or `q` decides. Every earlier input gets the help text (`h`) or an invalid-id message, and there is no retry limit. A chosen id is the value of the deciding input and lies below the profile count. Input that runs out is consumed entirely. |
| `App.Rf4sApp.GetPid` | tools/main.py:389-409 | The loop's outcome is `PromptSession` of the inputs, the loop `PromptDecides` characterises. ARGS.PID is written iff a valid id was typed, and then it is that id. Nothing else changes. |
| `App.PyIndex` | tools/main.py:423 | `list(PROFILE)[PID]` succeeds iff `-len <= PID < len`. A non-negative PID picks that position, and a negative one counts from the end. |
| `App.FirstIndex` | tools/main.py:436 | `opts.index(key)` is the first position holding the key. |
| `PyStr.Split` | tools/main.py:438 | `split(",")` gives at least one piece, no piece holds a comma, and joining the pieces with commas gives the string back. |
| `PyStr.SplitJoin` | tools/main.py:438 | Splitting the comma-join of comma-free pieces gives the pieces back. |
| `PyStr.Strip` | tools/main.py:438 | The result is a substring of the input with only whitespace outside it. It neither starts nor ends with whitespace. |
| `App.RodListPieces` | tools/main.py:437-439 | The rod list has one entry per comma-separated piece of the value. Each entry is that piece stripped, holds no comma, and neither starts nor ends with whitespace. |
| `App.SplitBottomRods` | tools/main.py:435-439 | Without the key, `opts` is unchanged. With the key, the element after its first occurrence becomes the list of stripped pieces, and every element not right after a key stays the same. A key in last position raises IndexError. |
| `App.Resolve` | tools/main.py:417-423 | A given name is the resolved name. Otherwise, a given id resolves to the name of the entry `list(PROFILE)[PID]` picks, or raises IndexError when that index fails. With neither given, a prompt choice `p` resolves to the name of entry `p`, `q` exits 0, and exhausted input raises EOFError. A prompt choice never raises IndexError. |
| `App.Rf4sApp.ResolveName` | tools/main.py:417-423 | The outcome is `Resolve` of the configuration and the inputs. ARGS.PID changes only when the prompt chose an id, and nothing else changes. With distinct names, a name picked by id leads back, through the lookup by name, to the entry at that id. |
| `App.Rf4sApp.SetupUserProfile` | tools/main.py:411-444 | A name beats an id, and the prompt runs only when both are unset; ARGS.PID becomes the prompt's choice. If `Resolve` stops early, that is the outcome, and neither the selection nor `opts` changes. Otherwise it goes on iff the profile check, the BOTTOM_RODS split, the SMTP check and the image check all pass. It exits 1 iff the profile check fails, or the split succeeds and the SMTP or image check fails. It raises iff the profile check passes and the split fails. When the profile is valid and the split succeeds, `opts` holds the split result, even if a later check exits. With distinct names, a profile chosen by id is the entry at that id. |
| `App.Rf4sApp.SelectProfile` | tools/main.py:425-444 | The same outcome rule for a settled name. A valid profile becomes the selection, and nothing else in the configuration changes. `opts` becomes the split result exactly when the profile is valid and the split succeeds, even when a later check exits. |
| `App.Rf4sApp.SetupWindow` | tools/main.py:446-479 | A supported window changes nothing. An unsupported one sets exactly ARGS.FRICTION_BRAKE, SCRIPT.SNAG_DETECTION and SCRIPT.SPOOLING_DETECTION to false. It exits 1 iff the window is unsupported and the mode is telescopic or bolognese. |
| `App.Rf4sApp.PrintHints` | tools/main.py:488-505 | ARGS.ELECTRO becomes false iff it was true and the mode is neither pirk nor elevator. Nothing else changes. |
| `App.Rf4sApp.constructor` | tools/main.py:117-119 | The application holds the merged configuration and the command line's override list. |

## Left out

- Timers.Timer.AddCastTime: requires a pending pair. Called before `update_cast_time`, the source would append `None` to both lists. The model treats that call as a caller error instead of storing an undefined value.
- Timers.CheckGate compares `now - last > delay` in exact real arithmetic. The source compares floats, so rounding right at a gate's boundary is not modelled.
- Timers.GameHour: the source computes the in-game hour with floats. The model uses exact integer arithmetic, `(60*minute + second) / 150 % 24`, which equals the float formula without rounding. Float rounding at hour boundaries is not modelled.
- Timers.Timer.GetRunningTime: returns the whole seconds. The `timedelta` string rendering (`H:MM:SS`, `N days, ...`) is not modelled.
- Clock sources and display formats are not modelled: `time.time`, `datetime.now`, `strftime`, `start_datetime`, `get_cur_timestamp`, `get_start_datetime`, `get_cur_datetime`. The clock is a parameter.
- The timer reads its delays from the configuration on every call. The model fixes them at construction, since the configuration is frozen before the timer is used.
- Of `Rf4sApp.__init__`, only the argument guard (`App.InitGate`) and the stored state (`App.Rf4sApp.constructor`) are modelled. Loading the configuration file, argparse parsing with its `choices` and the yacs merge of ARGS are not. The application is built from the already merged configuration.
- `merge_from_list(opts)` and `set_new_allowed` are yacs library behaviour and are not modelled. The selected profile is stored as the PROFILE entry itself.
- App.Rf4sApp.SetupUserProfile: the SMTP and image checks read the configuration as it was before the command-line overrides. An override of those settings in `opts` is not reflected.
- `cfg.freeze()`, `start`, `setup_player`, the keyboard listener, `_on_release`, `os.kill` and the `KeyboardInterrupt` handling are not modelled. They are signal-driven cancellation and calls into the player, which is not part of this model.
- The SMTP handshake is network I/O. Its result is a parameter of `App.IsSmtpValid`.
- App.CheckImages takes the `en` file-name set as given. The code lists `static/en` outside its `try` block, so a missing `en` directory raises FileNotFoundError, which nothing catches. The model does not express that crash.
- App.Handshake covers only login success and the two caught failures. `SMTP_SSL` and `login` can also raise exceptions the code does not catch, such as a refused connection or an SSL error. Those crash startup, and the model does not express them.
- Directory listings (`iterdir`, `is_file`) are filesystem I/O. The file-name sets are parameters of `App.CheckImages`, and a missing language directory is `None`.
- `Window` and `Player` are not part of this model. The window contributes only its "supported" flag, and the title-bar message is not modelled.
- Logging, rich tables, the logo, `_display_available_profiles` and the help text are output only. The prompt model records only which reply (help or invalid id) each rejected input gets.
- App.IsPidValid: digits are the ASCII ones. Python's `isdigit` also accepts other Unicode digits, such as superscripts, which `int()` may then reject.
- `PyStr.Upper` changes only ASCII letters. Python's `upper` also maps other Unicode letters.
- App.Rf4sApp.SetupUserProfile requires `App.DistinctNames` of PROFILE. PROFILE is a dictionary, so the code cannot see duplicate names.
- App.Rf4sApp.SetupWindow and App.Rf4sApp.PrintHints require a selected profile. `start` calls them only after `setup_user_profile` has selected one.
- A PROFILE entry without a MODE key would raise AttributeError in the source. Every modelled entry has a mode.

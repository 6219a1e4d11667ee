# nvidia-fan-controller: the PID controller and the measurement parser

This project models the core of `nvidia_fan_controller.py`, a small daemon
that keeps each NVIDIA GPU near a target temperature by setting its fan
speed. The core has two parts.

- **`PIDController`** (module `Pid`, `pid.dfy`). A controller has fixed
  configuration: the bounds `u_min`/`u_max`, the start value `u_start`, the
  `reverse` flag, the gains `Kp`, `Ki`, `Kd` and the discount `gamma`. It
  also has a target `x_target`, whose assignment resets the state. Its
  state is the stored output `_u`, the discounted error sum `_e_total` and
  the previous error `_e_prev`. One call does four things:
  - it computes the error `x_obs - x_target`, negated when `reverse` is set;
  - it forms the proportional term `e`, the integral term
    `e + gamma * _e_total` and the derivative term `e - _e_prev`;
  - it clips `Kp*p + Ki*i + Kd*d` to the bounds, as `max(u_min, min(u_max, ·))`;
  - it commits the new state only when the clipped value differs from `_u`.
    This is the anti-windup freeze.

  The controller is an immutable record. The constructor, the target
  setter, `reset_state` and the call are pure functions (`New`,
  `SetTarget`, `ResetState`, `Update`). Numbers are exact `real`s.
- **`get_measurements` line parsing** (module `Measurements`,
  `measurements.dfy`). The GPU query tool prints one line per GPU:
  `<index>, <temperature>, <fan speed> %`. The program extracts the three
  decimal integers from each such line. The search pattern cannot match a
  newline, so the model splits the output into lines. It accepts a line
  exactly when the line has the canonical form.

`options.dfy` holds the `Option` type that both modules share.

Three facts about the code shape the model:

- The controller has no error-smoothing factor, no clamp on the error, no
  clamp on the error sum and no check of the bounds at construction.
- The control law is positional, not incremental: each output is computed
  afresh from the error terms, not added to the previous output. With
  target 60, bounds [10, 100], start 50, gains 0.5/1/1 and gamma 0.9, a
  first observation of 70 returns 25 (`Pid.FirstUpdateAboveTarget`).
- Until the first update, the stored output can lie outside the bounds:
  `main` passes the measured fan speed as `u_start`
  (nvidia_fan_controller.py:207), and that value may lie outside [10, 100].
  `Pid.RunOutputsInRange` states what does hold: every returned value lies
  in the bounds, and so does the stored output after at least one update.

## Model

| member | source | states |
|---|---|---|
| Pid.Clamp | nvidia_fan_controller.py:111 | the clip lies in `[lo, hi]` when `lo <= hi`; it is `v` inside the range, `lo` below it and `hi` above it; when `hi < lo` it is `lo` whatever `v` is |
| Pid.StartValue | nvidia_fan_controller.py:67 | a given start value is kept; an omitted one is equidistant from both bounds, and so lies between them when `u_min <= u_max` |
| Pid.New | nvidia_fan_controller.py:53-74 | construction stores every configuration argument and the target, and starts from output `u_start` with both error memories zero |
| Pid.NewWithDefaults | nvidia_fan_controller.py:58-74 | the default arguments: target and bounds stored, `u_start` (the value every reset returns to) the midpoint of the bounds, not reversed, Kp 0.5, Ki 0.45, Kd 0.6, gamma 0.95, state (midpoint, 0, 0) |
| Pid.ResetState | nvidia_fan_controller.py:85-88 | a reset sets the output to `u_start` and both error memories to zero, keeping configuration and target |
| Pid.SetTarget | nvidia_fan_controller.py:80-83 | assigning the target stores it, resets the state to `(u_start, 0, 0)` and leaves every configuration field unchanged |
| Pid.SetTargetForgetsHistory | nvidia_fan_controller.py:80-88 | after any sequence of updates, assigning a target gives the same controller as assigning it before them: history is discarded |
| Pid.SetTargetAfterNew | nvidia_fan_controller.py:67-88 | constructing with one target and then assigning another equals constructing with the second target |
| Pid.Error | nvidia_fan_controller.py:101-103 | the error is zero exactly on target and has the size of the deviation from the target; it is positive exactly when the observation is above the target, or below it when reversed (see also `Pid.ReverseNegatesError`) |
| Pid.Law | nvidia_fan_controller.py:105-119 | for a given error the returned value is the clipped candidate and is what is stored; the controller is unchanged exactly when the candidate equals the stored output; otherwise the state becomes (candidate, integral term, error) |
| Pid.Update | nvidia_fan_controller.py:101-119 | one call returns the freshly clipped candidate whether or not state is committed; it lies in the bounds when `u_min <= u_max`; nothing changes exactly when it equals the stored output; on a commit the error sum becomes `e + gamma * old sum` and the previous error becomes `e`; configuration and target never change |
| Pid.Run | nvidia_fan_controller.py:90-119 | successive calls return one value per observation and never change configuration or target |
| Pid.ReverseNegatesError | nvidia_fan_controller.py:101-103 | a reversed controller uses error `x_target - x_obs`, and computes exactly what the unreversed controller computes when fed that negated error |
| Pid.UpdateMirror | nvidia_fan_controller.py:101-119 | flipping `reverse` and reflecting the observation about the target gives the same returned value and the same new state |
| Pid.RunMirror | nvidia_fan_controller.py:101-119 | over any sequence of observations, the flipped controller fed the reflected observations returns the same values and ends in the same state |
| Pid.RunOutputsInRange | nvidia_fan_controller.py:111-119 | from any prior state, including a start value outside the bounds, every returned value lies in `[u_min, u_max]`; after at least one call the stored output does too and equals the last returned value |
| Pid.FrozenIsFixedPoint | nvidia_fan_controller.py:113-119 | once an observation leaves the controller frozen, repeating it any number of times returns the stored output every time and changes nothing |
| Pid.SaturatedHighFreezes | nvidia_fan_controller.py:111-117 | a controller stored at `u_max` and pushed further up keeps its error sum and previous error: no windup |
| Pid.SaturatedLowFreezes | nvidia_fan_controller.py:111-117 | a controller stored at `u_min` and pushed further down keeps its error sum and previous error |
| Pid.FirstUpdateAboveTarget | nvidia_fan_controller.py:101-119 | target 60, bounds [10, 100], start 50, gains 0.5/1/1, gamma 0.9: observing 70 returns 25 and commits state (25, 10, 10) |
| Pid.FirstUpdateWithDefaults | nvidia_fan_controller.py:60-63 | with the default gains, bounds [10, 100], start 40 and target 60, observing 70 returns 15.5 |
| Measurements.DigitSpan | nvidia_fan_controller.py:155 | the digit run at the front of a line is all digits and stops at the first non-digit |
| Measurements.Show | nvidia_fan_controller.py:156 | the decimal rendering of a number is a non-empty digit string |
| Measurements.Value | nvidia_fan_controller.py:156 | a string of `n` digits denotes a natural below `10^n`; `Measurements.ValueOfShow` proves it inverts the decimal rendering |
| Measurements.ValueOfShow | nvidia_fan_controller.py:156 | reading a number's decimal rendering back as an integer gives the number |
| Measurements.FieldOfJoin | nvidia_fan_controller.py:155 | a non-empty digit run followed by a non-empty separator whose first character is not a digit is read as its value, leaving exactly the text after the separator |
| Measurements.ParseLine | nvidia_fan_controller.py:155-156 | the per-line match: its properties are stated by `Measurements.ParseJoin` (every canonical line parses to its values) and `Measurements.ParsedLineShape` (every line that parses is canonical) |
| Measurements.ParseJoin | nvidia_fan_controller.py:155-156 | any line `<a>, <b>, <c> %` with non-empty digit runs parses to their values, leading zeros included |
| Measurements.ParsedLineShape | nvidia_fan_controller.py:155-156 | every line that parses is `<a>, <b>, <c> %` for non-empty digit runs, and the reading holds their values |
| Measurements.ParsedLineEndsWithPercent | nvidia_fan_controller.py:155 | a line that yields a reading ends in `" %"`, so a line lacking that suffix yields none |
| Measurements.ParsedLineHasSeparator | nvidia_fan_controller.py:155 | a line that yields a reading has `", "` right after its first digit run, so a line lacking it yields none |
| Measurements.ParseFormat | nvidia_fan_controller.py:155-157 | the line printed for a reading parses back to that reading |
| Measurements.SplitLines | nvidia_fan_controller.py:155 | the output splits into at least one line, none containing a newline |
| Measurements.JoinSplit | nvidia_fan_controller.py:155 | rejoining the split lines with newlines gives back the output |
| Measurements.SplitJoin | nvidia_fan_controller.py:155 | splitting newline-joined lines that contain no newline gives back the lines |
| Measurements.Collect | nvidia_fan_controller.py:155-157 | no more readings than lines; every reading comes from some line that parses to it, and every line that parses contributes its reading |
| Measurements.CollectAppend | nvidia_fan_controller.py:155-157 | the readings of two blocks of lines are the readings of the first block followed by those of the second, so readings keep the order of their lines |
| Measurements.CollectSingle | nvidia_fan_controller.py:155-156 | a single line contributes exactly its reading when it parses and nothing when it does not |
| Measurements.ParseOutput | nvidia_fan_controller.py:153-157 | `get_measurements` on the tool's output text: its round trip is stated by `Measurements.ParseRender`, and its per-line behaviour by `Measurements.CollectAppend` and `Measurements.CollectSingle` |
| Measurements.ParseRenderCons | nvidia_fan_controller.py:153-157 | in the tool's output the first printed line yields the first reading, ahead of the readings of the remaining lines |
| Measurements.ParseRender | nvidia_fan_controller.py:153-157 | the output printed for any list of readings, one line each, parses back to exactly that list in the same order |

## Left out

- `run_cmd`, `get_fan_speed`, `set_fan_speed` and `ManualFanControl` run
  external vendor tools. They are pure I/O, so the model has no gateway.
  The parser takes the query tool's output text as its input.
- `create_service_file` and the unit-file template write a file filled in
  from environment variables. This is I/O.
- `main` is left out: argument parsing, logging, the endless loop with
  `sleep`, one controller per GPU index and the write-if-different check.
  All of it is driven by live tool output and a clock. An index missing
  from the first reading raises `KeyError`; the model does not treat that
  as "silently skipped".
- IEEE-754 behaviour is left out, including NaN passing through `max`/`min`
  and rounding error. Numbers are exact reals, and the commit test is exact
  equality on them.
- Python's round-half-to-even `round` of the returned value is left out. It
  belongs to `main`.
- Measurements.Value reads a digit run of any length. Python's `int` raises
  `ValueError` on a decimal string longer than 4300 digits (its default
  limit on integer string conversion), so a field that long makes
  `get_measurements` fail, while the model returns a reading. The round
  trips `Measurements.ParseFormat` and `Measurements.ParseRender` therefore
  match the program only for readings whose fields render in at most 4300
  digits. The query tool prints a few digits per field.
- Measurements.IsDigit accepts only the ASCII digits `0`-`9`. Python's `\d`
  and `int` also accept every other Unicode decimal digit, so a line such as
  `"٣, ٤٥, ٣٠ %"` yields `(3, 45, 30)` in the program and no reading here.
  The query tool prints ASCII digits only.
- Measurements.ParseOutput: exact `re.findall` semantics are not modelled.
  The model accepts only a whole line of the canonical form. A line with
  extra text before the first digit run or after `" %"` yields no reading
  here. The regular expression would still find a match in such a line,
  possibly starting in the middle of a number.

# Penguin-lang in Dafny

A model of the core of Penguin-lang, a small language for plotting parametric curves.

A user types or scripts statements. Some set a viewing transform: origin, rotation, scale, axis ranges, dot size and colour. `for` statements queue curves given by expressions in a parameter `t`. `show` samples every queued curve, transforms and clips its points, and draws one picture named `graph/<n>.png`.

The model has four modules:

- `Expression` (`expression.dfy`) models the evaluator of `src/tree_node.rs`.
  - The expression tree is a datatype of string-tagged nodes.
  - `Eval` follows `eval` branch by branch.
  - A typed syntax `Expr` with its meaning `Denote` is an independent reference, and `EvalToTree` connects the two.
- `Runtime` (`runtime.dfy`) models `src/rt_util.rs`.
  - The `RunTime` struct is a class with the same fields, and `Value()` collects them into a `Session` value.
  - Each method is proved against a pure function of the old state: `Step` for one command, `Perform` for `run`, `Render` for the drawing loop of `show`.
  - Lemmas over those functions state what the interpreter promises. Style is snapshotted when a curve is queued. Style commands never change the queue. `show` draws every queued curve against the live ranges, empties the queue and advances the picture counter.
  - The scale, rotate, translate pipeline `process_data` is a function, with lemmas about it.
- `Frontend` (`frontend.dfy`) models `src/main.rs`.
  - Mode selection by the `.pg` suffix regular expression.
  - Comment cutting and statement splitting for script files (`file`).
  - The line-buffering loop of the interactive shell (`shell`).
  - Both loops are methods that call `RunTime.Run` once per statement. They are proved against `ExecAll`, a function that runs statements in order until one ends the process.
- `Text` (`text.dfy`) holds the Rust string operations these use: `trim`, `find`, `split`, `starts_with`, `to_lowercase`, and `{}` formatting of integers. `Wrappers` holds `Option`.

The float library is a parameter: a `Numerics` record holding `parse::<f64>`, `sin`, `cos`, `tan`, `ln`, `exp`, `sqrt`, `powf` and the IEEE result of dividing by zero. Numbers are `real`. Each lemma states what it assumes of the library, for example that `"t"` does not parse as a number or that `cos(0) = 1`. The constants `PI`, `E` and `f64::MIN` are the exact binary64 values.

The lexer and parser are also a parameter, as is plotters' stepping of an `f32` range. Both live in the `Env` record. Statements are strings, and script and shell input arrive as text and as a sequence of lines.

The shell and file modes treat an empty statement differently, as the code does:

- **File mode.** Pieces between `;` are trimmed, and empty pieces are skipped (`FileSkipsBlankPiece`).
- **Shell mode.** The loop `break`s at the first empty piece, so a buffer `a;;b;` runs only `a;` (`ShellStopsAtEmptyPiece`). Pieces are not trimmed.

Rotation in `process_data` puts the rotated `x` in `temp`, so the new `y` at `src/rt_util.rs:204` is still computed from the scaled `x`; both rotated coordinates come from the unrotated values. That is an ordinary rotation, which keeps distances (`RotationPreservesLength`) and can be undone by the opposite rotation (`ProcessDataInverse`); for example, a quarter turn sends (1, 0) to (0, -1) (`QuarterTurn`).

## Model

| member | source | states |
|---|---|---|
| Expression.Divide | src/tree_node.rs:41 | a non-zero divisor gives the quotient, which times the divisor is the dividend; a zero divisor gives the library's IEEE result |
| Expression.EvalNumber | src/tree_node.rs:12-14 | a node whose text parses as a number evaluates to that number, whatever its children and the parameter |
| Expression.EvalSymbols | src/tree_node.rs:29-31 | `t` is the parameter value, and `pi` and `e` are the f64 constants; children are ignored |
| Expression.MissingChildIsZero | src/tree_node.rs:17-25 | a missing left or right child evaluates exactly like a literal `0` child |
| Expression.ChildlessSumIsZero | src/tree_node.rs:17-38 | a `+` node without children evaluates to 0 |
| Expression.UnaryIgnoresRight | src/tree_node.rs:32-37 | the six unary functions read only the left child; the right child may be changed or removed |
| Expression.UnknownTagIsSentinel | src/tree_node.rs:43 | a text that is neither a number nor one of the 14 tags evaluates to `f64::MIN` |
| Expression.ValueWithoutParam | src/tree_node.rs:8-45 | a tree without a `t` node has the same value for every parameter value |
| Expression.EvalUnaryNode | src/tree_node.rs:32-37 | a unary node applies its function to the value of its left child |
| Expression.EvalBinaryNode | src/tree_node.rs:38-42 | a binary node applies its operator to its two children; division by zero gives the library's IEEE result |
| Expression.EvalToTree | src/tree_node.rs:8-45 | for every typed expression whose literals parse, evaluating its string-tagged tree gives its meaning |
| Expression.TestEval | src/tree_node.rs:47-98 | the unit test's tree `(t*2 + t) - exp(t)` evaluates to `3v - exp(v)` |
| Runtime.PaintOf | src/rt_util.rs:173-182 | the paint is transparent exactly when the colour name is not one of the seven known names |
| Runtime.ProcessDataInverse | src/rt_util.rs:194-212 | whenever cos² + sin² = 1, moving the result back by the origin and rotating it by the opposite angle gives the scaled point |
| Runtime.ProcessDataUnrotated | src/rt_util.rs:194-212 | with rotation 0, a point is only scaled per axis and moved by the origin |
| Runtime.RotationPreservesLength | src/rt_util.rs:203-205 | with origin (0, 0), the rotated point is as far from the origin as the scaled point |
| Runtime.QuarterTurn | src/rt_util.rs:203-205 | rotating (1, 0) by an angle whose cosine the library gives as 0 and whose sine as 1 gives (0, -1) |
| Runtime.ClipKeeps | src/rt_util.rs:166-171 | the kept points are exactly the input points inside both ranges, with their multiplicities, and no more than the input |
| Runtime.ClipAppend | src/rt_util.rs:166-171 | clipping keeps the input order: the points kept from `a + b` are those kept from `a`, then those kept from `b` |
| Runtime.ClipOne | src/rt_util.rs:166-171 | a single point is kept exactly when it lies inside both ranges |
| Runtime.Images | src/rt_util.rs:160-165 | one plot point per parameter value, in order, each the transformed value of both expressions |
| Runtime.CurveBatchPoints | src/rt_util.rs:153-182 | a curve's batch has at most one point per sample; a point is drawn exactly when it lies in the live window and is the transformed image of a sampled parameter value; bounds are clamped to the x range and sampled up to `to + step`; dot size and paint come from the snapshot |
| Runtime.Render | src/rt_util.rs:139-188 | `show` draws one batch per queued curve, in queue order, each under its own snapshot and the live ranges |
| Runtime.RenderQueue | src/rt_util.rs:139-188 | the drawing loop produces exactly what `Render` describes |
| Runtime.NextPicNumWraps | src/rt_util.rs:191 | the next counter value is the old one plus one, modulo 2^32 |
| Runtime.PictureNameReadsBack | src/rt_util.rs:123 | the name is `graph/`, decimal digits and `.png`, and the digits read back as the counter |
| Runtime.PictureNamesDistinct | src/rt_util.rs:123 | two different counter values never give the same picture name |
| Runtime.StepEffect | src/rt_util.rs:81-120 | only `show` empties the queue and advances the counter; `for` appends one curve with a snapshot of the current style; every other command keeps the queue, and style commands keep both ranges |
| Runtime.PerformEffect | src/rt_util.rs:214-245 | only a parsed command other than `exit` changes the state; the process ends exactly on `exit`; a picture is drawn exactly on `show`, from the old queue and counter; unparsable and illegal statements give their messages |
| Runtime.QueueOnlyGrows | src/rt_util.rs:109-120 | until the next `show`, queued curves and their snapshots stay as they were and the counter does not move |
| Runtime.StyleCommandsKeepQueue | src/rt_util.rs:81-107 | style commands change neither the queue nor the ranges |
| Runtime.StyleCommandsKeepPicture | src/rt_util.rs:81-120 | style commands issued after curves were queued do not change the next picture |
| Runtime.QueuedCurveRendering | src/rt_util.rs:109-188 | a curve queued by `for_draw` is drawn by the next `show` with the style current when it was queued, and with the ranges current at `show` |
| Runtime.ShowEffect | src/rt_util.rs:122-192 | `show` names the picture after the counter, draws every queued curve inside the live window, empties the queue, and advances the counter by one, wrapping at 2^32 |
| Runtime.SineCurveOnGraph | src/rt_util.rs:153-171 | under the identity style, every drawn point of `x = t, y = sin(t)` is in the window and lies on the sine graph |
| Runtime.SineImage | src/rt_util.rs:161-164 | under the identity style, the image of `t` for that curve is `(t, sin t)` |
| Runtime.RunTime.constructor | src/rt_util.rs:52-64 | the initial state: origin (0, 0), rotation 0, scale (1, 1), empty queue, ranges [0, 10] and [-4, 4], size 2, colour blue, counter 0 |
| Runtime.RunTime.SetOrigin | src/rt_util.rs:81-83 | only the origin changes |
| Runtime.RunTime.SetRot | src/rt_util.rs:85-87 | only the rotation changes |
| Runtime.RunTime.SetScale | src/rt_util.rs:89-91 | only the scale changes |
| Runtime.RunTime.SetXRange | src/rt_util.rs:93-95 | only the x range changes |
| Runtime.RunTime.SetYRange | src/rt_util.rs:97-99 | only the y range changes |
| Runtime.RunTime.SetSize | src/rt_util.rs:101-103 | only the dot size changes |
| Runtime.RunTime.SetColor | src/rt_util.rs:105-107 | only the colour changes |
| Runtime.RunTime.ForDraw | src/rt_util.rs:109-120 | the curve is queued last, with a snapshot of the current origin, rotation, scale, size and colour; nothing else changes |
| Runtime.RunTime.Show | src/rt_util.rs:122-192 | returns the picture name and the batches `Render` describes for the old queue; the queue is emptied and the counter advanced |
| Runtime.RunTime.Run | src/rt_util.rs:214-245 | the new state and visible effect are those of `Perform` on the parser's outcome: unparsable and illegal statements change nothing, `exit` ends the process, every other command is dispatched to its setter |
| Text.TrimStart | src/main.rs:123 | `trim_start` drops exactly the leading whitespace: the result is a suffix, everything dropped is whitespace, and the result does not start with whitespace |
| Text.TrimEnd | src/main.rs:123 | `trim_end` drops exactly the trailing whitespace |
| Text.TrimSlice | src/main.rs:123 | the result is a slice of the text with no whitespace at either end |
| Text.TrimEmpty | src/main.rs:152 | a trimmed line is empty exactly when every character is Unicode whitespace |
| Text.TrimSubset | src/main.rs:123 | trimming only removes characters |
| Text.FindFrom | src/main.rs:100-103 | `find` gives the first occurrence of the pattern, or none when it does not occur |
| Text.CutAt | src/main.rs:99-110 | the result is the text before the first occurrence of the pattern: a prefix at none of whose positions the pattern starts, followed in the text by the pattern, or the whole text when the pattern does not occur |
| Text.Split | src/main.rs:121 | splitting gives at least one piece, and no piece holds the separator |
| Text.JoinSplit | src/main.rs:121 | joining the pieces of a split with the separator gives the text back |
| Text.SplitJoin | src/main.rs:121 | separator-free pieces are recovered by splitting their join |
| Text.LowerLetters | src/main.rs:80 | every ASCII capital becomes its small letter, nothing else changes, and no capital is left |
| Text.LowerIdempotent | src/main.rs:80 | lower-casing text that is already lower-cased changes nothing |
| Text.DecimalDigits | src/rt_util.rs:123 | the digits of a number: never empty, only `0`-`9`, and no leading zero |
| Text.DecimalRoundTrip | src/rt_util.rs:123 | the decimal text of a number reads back as that number |
| Frontend.PgSuffixMeaning | src/main.rs:28 | `^.*\.pg$` matches exactly the names that end in `.pg` with no newline before that suffix |
| Frontend.SelectMode | src/main.rs:61-84 | fewer than two arguments start the shell; otherwise the second argument is run as a script exactly when it matches the suffix, and is rejected otherwise |
| Frontend.StripComments | src/main.rs:99-110 | a line keeps the text before its first comment marker: no `//` or `--` starts inside what is kept, and unless the whole line is kept a marker starts right after it |
| Frontend.CodeLines | src/main.rs:96-111 | at most one entry per line, none of them holding a comment marker |
| Frontend.CodeTextAppend | src/main.rs:96-111 | the script text is the kept lines glued together in order |
| Frontend.CodeTextLine | src/main.rs:98-110 | a line contributes its text before the first comment marker, or nothing when the filter drops it |
| Frontend.Terminate | src/main.rs:131-134 | an exit word reaches `run` unchanged; any other statement gets `;` appended, so it is no exit word |
| Frontend.TerminateInjective | src/main.rs:131-134 | different statements reach `run` as different texts |
| Frontend.PieceStatement | src/main.rs:122-134 | a piece gives at most one statement, and none exactly when it trims to nothing |
| Frontend.PieceStatementForm | src/main.rs:122-134 | a `;`-free piece gives at most one statement, which is an exit word or a trimmed non-empty text followed by `;`; the statement, with that `;` removed, is the trimmed piece itself |
| Frontend.FileTerminateSingle | src/main.rs:121-134 | one piece gives no statement when it trims to nothing, and otherwise exactly its trimmed text, terminated |
| Frontend.FileTerminateForm | src/main.rs:121-134 | every statement made from `;`-free pieces has that form |
| Frontend.FileTerminate | src/main.rs:121-134 | no more statements than pieces |
| Frontend.FileTerminateAppend | src/main.rs:121-134 | the statements of pieces `a + b` are those of `a` followed by those of `b` |
| Frontend.FileSkipsBlankPiece | src/main.rs:123-124 | a blank piece, such as the one between `;;`, adds no statement |
| Frontend.FileTerminateEmpty | src/main.rs:122-123 | no statement comes out exactly when every piece is blank |
| Frontend.FileStatementsForm | src/main.rs:96-134 | every statement of a script reaches `run` as an exit word or as a trimmed non-empty text and `;` |
| Frontend.UntilEmpty | src/main.rs:183-186 | the shell runs the prefix of pieces before the first empty one |
| Frontend.FlushStopsAtEmpty | src/main.rs:183-200 | the shell runs the pieces between `;` in order, untrimmed and terminated, and stops at the first empty piece |
| Frontend.ShellStopsAtEmptyPiece | src/main.rs:183-186 | for the buffer `a;;b;`, the shell runs only `a;` |
| Frontend.ShellLineStep | src/main.rs:152-176 | skipped lines change nothing; any other line either extends the buffer or flushes it and resets the state |
| Frontend.ShellLinesWaiting | src/main.rs:171-176 | between lines, the buffer never ends with `;`, is never an exit word, and is empty unless a statement is unfinished |
| Frontend.ShellLinesPrefix | src/main.rs:143-208 | reading more lines only adds statements behind those already run |
| Frontend.ExecAllAppend | src/main.rs:124-135 | running `a + b` is running `a`, then `b` unless `a` ended the process |
| Frontend.ExecAllStopsAtExit | src/rt_util.rs:237 | each statement has one visible effect, and the run ends at the first statement that terminates the process, and only there |
| Frontend.HaltedRunIsFinal | src/main.rs:199 | once a statement ends the process, later input changes nothing |
| Frontend.RunStatements | src/main.rs:124-135 | calling `run` on each statement in turn gives the state and effects of `ExecAll` |
| Frontend.File | src/main.rs:87-137 | script mode runs the statements of `FileStatements` in order |
| Frontend.RunScript | src/main.rs:79-80 | the file contents are lower-cased before `file` runs them |
| Frontend.ReadLine | src/main.rs:152-176 | one line's handling of the buffer agrees with `ShellLine` |
| Frontend.Shell | src/main.rs:139-209 | the shell runs exactly the statements `ShellLines` gathers from its input lines, in order, until one ends the process |

## Left out

- Input and output are not modelled: reading the script file and standard input, the prompts, the banner, the `graph` directory, the chart drawing, and the printing of parser errors and debug output. A missing or unreadable script panics in the code; the model receives the script's text.
- Floating point is only partially modelled. Numbers are `real`, so NaN, infinities, the rounding of each f64 operation and the `f32` casts in `process_data` and `show` are not modelled. The float functions are parameters.
- The lexer and parser are not part of this model. They are a parameter from a statement to `Unparsed`, `Illegal` or `Parsed(command)`.
- The sampling of plotters' `(from..to + step).step(step).values()` over `f32` is a parameter. The model fixes only its three arguments. The sample list is always finite, because a `seq<real>` cannot be endless; what the library does with a zero or negative `step` (`src/rt_util.rs:157-159`) is not modelled.
- Text.LowerLetters: `to_lowercase`, as `Text.Lower` models it, lower-cases ASCII letters only; other Unicode letters are unchanged.
- Runtime.NextPicNumWraps: `NextPicNum` models the counter's wrap-around from 2^32 - 1 to 0, as a release build does. A debug build panics at that point instead.
- `exit(0)` in `run` is modelled as the effect `Terminated`. The loops of `file` and `shell` stop there.
- The unused `PIC_NUM` static and `info`/`VERSION` are not modelled.
- The concrete numbers of `test_eval` are not modelled. `TestEval` states its value symbolically, because `exp` is a parameter.
- The snapshot made by `RunTime::from` keeps only the fields that are read later. Its empty queue, (0, 0) ranges and zero counter are never read.
- Reading an input line can fail (`Some(Err(_))`, which ends the shell loop). Such a failure is modelled as the end of the input.

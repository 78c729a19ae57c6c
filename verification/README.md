# reborn_protocol, modelled and verified

`reborn_protocol` speaks the wire protocol of a game server and runs the two script
languages it carries. This project models its five connected cores and proves what they are
for.

**GS1 scripts.** `gs1_ast` and `gs1_runtime` hold the syntax tree and the context;
`gs1_exec` is the direct recursive interpreter, whose definition is its own termination
proof: (100 - call depth, syntax node, iterations left) decreases for every program, function
table and host. `gs1_machine` is the generator with its continuation made explicit (block
rest, loop with its counter, `with`, call and switch frames); `gs1_simulation` and
`gs1_slicing` relate the two, `gs1_resumable`, `gs1_traces` and `gs1_driven` add suspension,
cancellation and other events on the same context, and `gs1_coroutine` holds the objects a
host sees; `gs1_schedule` is what a suspension tells the scheduler. `gs1_params` and
`gs1_binding` are what a call restores and what it binds. `gs1_laws`, `gs1_flow` and `gs1_host`
are what the constructs of the language mean to its users: operators, assignments, loops,
lists, name lookup and the order in which things happen.

**GS1 text.** `gs1_modes` and `gs1_lexer` are the lexer: a mode machine over four parallel
stacks. `gs1_scan` specifies every scan of it as a function, and `gs1_progress` proves that
scanning advances and that the terminators it adds stand where they belong. `gs1_spelling`,
`gs1_reading` and `gs1_lexed` are a spelling of tokens that lexing undoes, `gs1_texts` the round
trip from program to text and back, and `gs1_arguments` the gaps between tokens and the other
kinds of argument. `gs1_grammar` and `gs1_statements` are the grammar as functions from positions
to outcomes, and `gs1_parser` the parser object, every statement and expression of it, with its
moving and rewinding cursor. `gs1_printer`, `gs1_round_trip` and `gs1_programs` are a printer
of expressions and programs that parsing undoes, `gs1_ladder` the precedences. `gs1_recovery` is
what panic recovery keeps; `gs1_mended`, `gs1_mending`, `gs1_labels` and `gs1_hangs` are when the
parser does not end.
`gs1_front` composes lexer and parser. `csv` and `gs1_string_lists` are the string-list
dialect and the commands built on it.

**GS2 scripts.** `gs2_container` and `gs2_disasm` are the loader, `gs2_records` its bytes,
`gs2_vm` the instruction handlers, `gs2_machine` the core loop with nested frames and the
instruction budget, `gs2_jumps` the jumps and the compiled shapes of `if`, `while`, and and or,
`gs2_laws` the other instructions over whole steps, `gs2_calls` the call protocol, and
`gs2_interpreter` the frame and the loop as objects.

**Wire.** `bytes` and `numerals` are the saturating 7-bit-lane numbers, `gtypes` the packet
builder and reader, `props`, `prop_numerals` and `prop_stream` the property codecs and the
stream walker, `prop_losses` what each form keeps of a value, `cipher` the stateful cipher,
`keystream` the numbers it draws, and `session` framing, compression policies,
codecs and whole conversations.

Hosts, compressors, floating-point arithmetic, regular expressions and Unicode tables are
parameters: the theorems hold for every choice of them.

Where code and documentation part ways, the model follows the code:

- `_synchronize` and the recovery loops always advance, but the parser as a whole does not
  always end: in a case label an array literal whose next element would start at the label's
  colon repeats its loop for ever (`switch (e) { case {:`). The model gives such a parse the
  outcome `Hung`. `LabelHangsIff` says exactly which labels: those whose tokens, with a closing
  brace written just before the colon and perhaps more after it, would be an expression.
  `HangsOnlyInOpenLabel` says that nothing else hangs a program and that such a label leaves a
  brace open at its first bare colon; so `EndsWhenLabelsClose`: every text whose labels close
  their braces is read to its end. `SwitchHangsWithLabel` shows a program hang for each such
  label.
- Parameters are restored first to last, so two names of one variable (`client.a` and
  `clientr.a`) leave the first argument behind; `ParameterRestoredIff` is the exact condition.
- A plain join loses one final empty string; `JoinIsLosslessIff` says when.
- An operand record at the front of a bytecode stream reaches back to the instruction before
  it. `DecodeOfConcat` says what decoding two streams in a row gives, and `ConcatIsBothIff`
  when that is decoding each: no such record, no instruction before it, or the last such record
  repeating the operand already there.

## Model

| member | source | states |
|---|---|---|
| Gs1Exec.Exec | reborn_protocol/gs1/interp.py:212-327 | Every statement terminates without the step limit; call depth, loop depth and `this_obj` are back however it exits, the cancellation flag rises exactly with plain timer assignments, and slices no longer than the step limit never starve |
| Gs1Exec.CallUser | reborn_protocol/gs1/interp.py:329-358 | A user call keeps all that at any recursion depth up to 100; `return` ends it, `break` and `continue` pass through; what it binds is Gs1Binding, what it restores Gs1Params |
| Gs1Exec.Eval | reborn_protocol/gs1/interp.py:611-933 | The same for every expression, user functions called in value position included |
| Gs1Exec.RunEvent | reborn_protocol/gs1/interp.py:138-163 | A whole event keeps depth, loop depth and `this_obj` |
| Gs1Binding.BodyStartsWithArguments | reborn_protocol/gs1/interp.py:338-347 | For all parameters, arguments and stores: in the store a body starts in, a variable that parameters name holds the argument of the last of them, 0 where the arguments run out, and every other variable is as the caller left it |
| Gs1Binding.ParameterIsItsReference | reborn_protocol/gs1/interp.py:361-365 | A parameter and the reference a body writes for it mean one variable |
| Gs1Binding.CalleeSeesArgument | reborn_protocol/gs1/interp.py:329-358 | Observed from outside: a body that copies parameter i into a variable of its own leaves argument i there, through binding, evaluation, assignment and restoring |
| Gs1Laws.TernaryChooses | reborn_protocol/gs1/interp.py:776-777 | A condition is evaluated once, and only the chosen side runs |
| Gs1Laws.IfChooses | reborn_protocol/gs1/interp.py:220-224 | So with `if`, whose else part may be missing |
| Gs1Laws.LogicIsConditional | reborn_protocol/gs1/interp.py:810-815 | The logical and and or are conditionals, side effects included |
| Gs1Laws.NumbersCompare | reborn_protocol/gs1/interp.py:845-856 | The comparisons of two numbers, equality within a ten-thousandth |
| Gs1Laws.NumbersCalculate | reborn_protocol/gs1/interp.py:829-844 | Arithmetic is that of doubles, a division by nothing giving nothing |
| Gs1Laws.RemainderIsWhole | reborn_protocol/gs1/interp.py:859-870 | A remainder is of the whole parts, cut towards nothing |
| Gs1Laws.SignsOfNumbers | reborn_protocol/gs1/interp.py:755-768 | `!` is true of exactly the numbers closer to nothing than the epsilon of doubles |
| Gs1Laws.TextInOperators | reborn_protocol/gs1/values.py:126-142 | `@` joins texts; as a number a text counts as nothing |
| Gs1Laws.TruthInOperators | reborn_protocol/gs1/values.py:71-83 | A truth counts as one, its absence as nothing, as a number and as text |
| Gs1Laws.RangeIsBetween | reborn_protocol/gs1/interp.py:779-808 | Every value of an `in` lies between the bounds whichever comes first, open ends leaving their bound out |
| Gs1Laws.CompoundIsSpelledOut | reborn_protocol/gs1/interp.py:889-908 | `x += n` is `x = x + n`, and so for the other five, for every variable but the bare timer |
| Gs1Laws.PostfixIsCompound | reborn_protocol/gs1/interp.py:770-774 | `x++` stores what `x += 1` stores and gives the number before |
| Gs1Laws.ChainedIsAssignThenRead | reborn_protocol/gs1/interp.py:617-623 | An assignment used as a value is the assignment and then the variable |
| Gs1Laws.ReadBack | reborn_protocol/gs1/interp.py:1082-1124 | What is assigned is what is read back, as text where the expression or the object says so and else as a number, and no other variable changes |
| Gs1Flow.FlowCutsBlock | reborn_protocol/gs1/interp.py:208-210 | Nothing behind `break`, `continue` or `return` in a block runs |
| Gs1Flow.WhileUnrolls | reborn_protocol/gs1/interp.py:245-259 | A `while` goes on from the head of any round as a test, a body and the rest of the loop, for each way a body can end |
| Gs1Flow.ForUnrolls | reborn_protocol/gs1/interp.py:260-279 | So a `for`, whose post statement also runs after continued rounds |
| Gs1Flow.ForIsWhile | reborn_protocol/gs1/interp.py:245-279 | A `for` with a test alone is the `while`, and without one an endless loop, for every run |
| Gs1Flow.EndlessLoopEnds | reborn_protocol/gs1/interp.py:245-259 | A loop that nothing ends reaches the host with its command ten thousand times, and then the script goes on |
| Gs1Flow.CommandRuns | reborn_protocol/gs1/interp.py:532-533 | A command hands the host its arguments in order |
| Gs1Flow.SleepAsks | reborn_protocol/gs1/interp.py:315-322 | `sleep` in a coroutine asks for its delay if positive; elsewhere it ends the loop around it or does nothing |
| Gs1Flow.SetTimerIsTimeout | reborn_protocol/gs1/interp.py:910-920 | `settimer(n)` is `timeout = n` |
| Gs1Flow.CellsHold | reborn_protocol/gs1/runtime.py:165-215 | What is written into a cell of a list is read there under every name of the list, and nowhere else |
| Gs1Flow.NoCells | reborn_protocol/gs1/runtime.py:165-215 | Indexing what is no list reads and writes nothing |
| Gs1Flow.SavedNumbers | reborn_protocol/gs1/interp.py:1106-1115 | The saved numbers are ten, each kept between 0 and 220 |
| Gs1Flow.DefinitionFound | reborn_protocol/gs1/interp.py:424-426 | A definition replaces the function of its name and no other |
| Gs1Flow.ProgramFunctionsDefined | reborn_protocol/gs1/interp.py:402-405 | Before the first statement of an event each function of the program is defined, the last of its name |
| Gs1Flow.CallsEnd | reborn_protocol/gs1/interp.py:329-335 | A name that is no function does nothing, and the hundred-and-first nested call raises |
| Gs1Host.BareNames | reborn_protocol/gs1/interp.py:1082-1104 | A bare name is first a constant, then the running event, then what the host supplies, then a variable |
| Gs1Host.BareWrites | reborn_protocol/gs1/interp.py:1116-1124 | A constant is not assigned; any other bare name is offered to the host first |
| Gs1Host.LeftToRight | reborn_protocol/gs1/interp.py:910-931 | Arguments are evaluated left to right, each in the state the one before it left |
| Gs1Host.LeftBeforeRight | reborn_protocol/gs1/interp.py:816-817 | So are the sides of an operator |
| Gs1Host.LibraryAnswers | reborn_protocol/gs1/interp.py:920-931 | A call of no user function is answered by the pure table, else the host, else by 0 |
| Gs1Host.UserFunctionIsZero | reborn_protocol/gs1/interp.py:1011-1018 | A user function in an expression is worth 0 and cannot suspend the event |
| Gs1Host.PiecesJoin | reborn_protocol/gs1/interp.py:634-642 | The pieces of a text are joined in order and the whole is trimmed |
| Gs1Host.NameStandsForText | reborn_protocol/gs1/interp.py:651-671 | `scope.name=` stands for the text of a variable that exists |
| Gs1Host.WithChangesObject | reborn_protocol/gs1/interp.py:280-304 | `with` runs its body for the object named and goes back; any other value skips it |
| Gs1Host.LabelMatches | reborn_protocol/gs1/interp.py:882-887 | A label matches text whatever the case of its letters, and numbers within a ten-thousandth |
| Gs1Host.SwitchRuns | reborn_protocol/gs1/interp.py:227-244 | A `switch` falls through from its first matching case unless a body breaks, which leaves the switch alone |
| Gs1Host.EventBegins | reborn_protocol/gs1/interp.py:398-405 | Before the first statement the event is known, the word count forgotten and the functions defined, and nothing else has changed |
| Gs1Host.HandlerIsFirst | reborn_protocol/gs1/interp.py:377-384 | The handler of an event is the first function of its name, in any case of letters |
| Gs1Host.HandlerArguments | reborn_protocol/gs1/interp.py:385-393 | It is called with the texts of the event's parameters in order |
| Gs1Host.EventEndsInHandler | reborn_protocol/gs1/interp.py:395-418 | Behind the program, unless it raised, the event's handler is called, if the event has a name and a handler |
| Gs1Slicing.SliceEvent | reborn_protocol/gs1/interp.py:182-196 | An event run in slices of any size gives the outcome, store, host history, functions and sleeps of the same event run whole |
| Gs1Simulation.SimExec | reborn_protocol/gs1/interp.py:212-327 | The continuation machine runs any statement under any continuation to the recursive interpreter's outcome and state |
| Gs1Simulation.MachineRunsEvent | reborn_protocol/gs1/interp.py:395-418 | Driving an event's generator to its end reaches exactly what the recursive interpreter returns |
| Gs1Simulation.SlicingIsInvisible | reborn_protocol/gs1/interp.py:182-196 | For every program and statement budget, the machine resumed to completion ends with the outcome and context of the direct interpreter with slicing off, when that run stays within the step limit |
| Gs1Simulation.ShortSlicesNeverStarve | reborn_protocol/gs1/interp.py:182-196 | With slices no longer than the limit the limit is never reached at all |
| Gs1Ends.EveryExecutionEnds | reborn_protocol/gs1/interp.py:245-279 | Any configuration of the machine halts, whatever other events did to the context meanwhile |
| Gs1Driven.ResumedToTheEnd | reborn_protocol/gs1/interp.py:1177-1219 | Resuming a suspended event until its generator is exhausted, nothing else touching the context, gives the direct interpreter's outcome and context |
| Gs1Driven.ResumeProgress | reborn_protocol/gs1/interp.py:1184-1219 | Each resume of an unfinished execution leaves strictly fewer steps |
| Gs1Driven.DrivingEnds | reborn_protocol/gs1/interp.py:1204-1219 | Some number of resumes exhausts the generator |
| Gs1Traces.CancelledIffTimerAssigned | reborn_protocol/gs1/interp.py:1184-1219 | Over every history of other events, `resume` closes the pending execution without running anything exactly when a plain `timeout =` happened since it last suspended |
| Gs1Traces.TimerCountsPlainBareWrites | reborn_protocol/gs1/interp.py:434-477 | Only a plain assignment to the bare name counts: compound, scoped and indexed ones do not |
| Gs1Traces.DoneRestoresContext | reborn_protocol/gs1/interp.py:245-304 | Once done, by its end or by cancellation in any nesting, call depth, loop depth and `this_obj` are those it started with |
| Gs1Traces.DoneIsAbsorbing | reborn_protocol/gs1/interp.py:1204-1212 | A finished execution stays finished and runs nothing more, over every history |
| Gs1Traces.PlayTracked | reborn_protocol/gs1/interp.py:1184-1219 | The invariant of all histories: flag, mark and unwinding base stay in step |
| Gs1Coroutine.ResumableExecution.constructor | reborn_protocol/gs1/interp.py:1146-1182 | A new execution is advanced to its first suspension |
| Gs1Coroutine.ResumableExecution.Advance | reborn_protocol/gs1/interp.py:1184-1202 | The loop runs to the next suspension or the end, clears the flag only on suspension, and lets an exception leave the attributes alone; what it then reports is Gs1Schedule.PauseSaysWhy |
| Gs1Coroutine.ResumableExecution.Resume | reborn_protocol/gs1/interp.py:1204-1219 | No-op when done, close when cancelled, advance otherwise |
| Gs1Schedule.PauseSaysWhy | reborn_protocol/gs1/interp.py:1184-1202 | A pause is `Preempted` exactly when the advance ended in a preemption, and else the seconds of the sleep it ended in |
| Gs1Schedule.SleepsHandedInOrder | reborn_protocol/gs1/interp.py:1177-1202 | Over a whole event resumed to its end, the seconds handed out are, in order, those of the sleeps the direct interpreter records for that event |
| Gs1Coroutine.Context.RunEvent | reborn_protocol/gs1/interp.py:138-163 | Running an event leaves the shared context where the event's generator, pumped to its end, would leave it: no call or loop left open, `this_obj` the one before, the cancellation flag risen exactly with plain timer assignments, and the step-limit error never raised when slices are no longer than the limit |
| Gs1Params.RestoreGivesHeld | reborn_protocol/gs1/interp.py:338-358 | Whatever the body did, restoring gives each parameter slot what it held before its last binding, and touches nothing else |
| Gs1Params.ParameterRestoredIff | reborn_protocol/gs1/interp.py:329-358 | A call leaves a parameter's variable as it found it exactly when that slot still held the caller's value when last bound |
| Gs1Params.DistinctParametersRestored | reborn_protocol/gs1/interp.py:329-358 | A parameter that shares its variable with no other is always restored, bound or unset |
| Gs1Params.AliasedParametersLeak | reborn_protocol/gs1/interp.py:353-358 | `client.a` and `clientr.a` as parameters of one function leave the first argument behind |
| Gs1Modes.EveryContextIsWellModed | reborn_protocol/gs1/lexer.py:196-253 | In every reachable context the mode is the default one exactly when nothing is open, at every saved depth too |
| Gs1Modes.ClosingRestores | reborn_protocol/gs1/lexer.py:228-239 | Whatever happens while a state is open, closing it restores mode, open parentheses, open array literals and all outer states |
| Gs1Modes.PushAndPopCancel | reborn_protocol/gs1/lexer.py:196-239 | Opening a state, any operations that leave it open, and its closing cancel out |
| Gs1Modes.NothingToRead | reborn_protocol/gs1/lexer.py:196-217 | A state without arguments is gone as soon as it is pushed |
| Gs1Lexer.Lexer.ModeTellsDepth | reborn_protocol/gs1/lexer.py:145-175 | The four stacks always have equal length, and are empty exactly in the default mode |
| Gs1Lexer.Lexer.PopNextMode | reborn_protocol/gs1/lexer.py:228-253 | The four stacks popped in parallel are one stack of saved contexts, and the next argument's empty token is queued |
| Gs1Lexer.Lexer.PushState | reborn_protocol/gs1/lexer.py:196-226 | Pushing on all four stacks saves mode, parentheses and literals and enters the first argument |
| Gs1Lexer.Lexer.CheckIfNextModeOptional | reborn_protocol/gs1/lexer.py:255-269 | Looking ahead for the optional last argument moves no position and keeps the invariant |
| Gs1Lexer.Lexer.DefaultMode | reborn_protocol/gs1/lexer.py:418-472 | A scan at statement level, the moving cursor and the queues included, is exactly the specified one |
| Gs1Lexer.Lexer.DefaultWord | reborn_protocol/gs1/lexer.py:474-547 | So is a word: member, variable, command, function, keyword or name |
| Gs1Lexer.Lexer.ExprMode | reborn_protocol/gs1/lexer.py:607-696 | So is a scan in an expression argument, closing or opening states as its character says |
| Gs1Lexer.Lexer.VariableMode | reborn_protocol/gs1/lexer.py:698-771 | So is a scan in a variable argument |
| Gs1Lexer.Lexer.StringMode | reborn_protocol/gs1/lexer.py:782-837 | So is a scan in a string argument |
| Gs1Lexer.Lexer.StringRun | reborn_protocol/gs1/lexer.py:839-876 | So is a run of plain text, parentheses counted on the way |
| Gs1Lexer.Lexer.ListMode | reborn_protocol/gs1/lexer.py:878-954 | So is a scan in a string list |
| Gs1Lexer.Lexer.SpecialMode | reborn_protocol/gs1/lexer.py:959-993 | So is a scan in a literal argument |
| Gs1Lexer.Lexer.BodyMode | reborn_protocol/gs1/lexer.py:1029-1065 | So is a scan in a braced body |
| Gs1Lexer.Lexer.ScanOne | reborn_protocol/gs1/lexer.py:296-299 | In every mode the scan is the specified one; it raises, consumes something, or has reached the end of the text with nothing queued |
| Gs1Lexer.Lexer.Tokenize | reborn_protocol/gs1/lexer.py:283-294 | Lexing ends on every text. The tokens are those of the specification (`Lexed`): scan by scan those queued before, the scanned one, those queued after; every terminator without a character of its own stands directly in front of the `}` that brought it; and one end of file comes last |
| Gs1Progress.ScanMoves | reborn_protocol/gs1/lexer.py:296-299 | Whatever the mode and the tables, a scan moves forwards, raises or ends, and leaves the queues as the next one needs them |
| Gs1Progress.TerminatorsInPlace | reborn_protocol/gs1/lexer.py:283-294 | In the tokens of every accepted text a terminator without a character of its own is followed at once by a `}` |
| Gs1Progress.ClosingBraceAdds | reborn_protocol/gs1/lexer.py:808-812 | A `}` that closes a command gets such a terminator, whatever kind of argument is open, and leads back to where the command was opened |
| Gs1Lexed.LexingUndoesSpelling | reborn_protocol/gs1/lexer.py:283-294 | A legible token list, spelled as text, lexes to those tokens in that order and the end of file |
| Gs1Texts.ReadingUndoesWriting | reborn_protocol/gs1/parser.py:805-807 | From program to text and back: the text of a program lexes and parses to that program, no error recorded, whether or not `}` ends its last commands |
| Gs1Texts.BranchesRead | reborn_protocol/gs1/lexer.py:808-812 | `if ( a ) { message hi} else { message lo}` is two blocks with a whole command in each |
| Gs1Arguments.GapsAreSkipped | reborn_protocol/gs1/lexer.py:302-318 | White space and comments of both kinds, in any number and order, are passed over to the character behind them |
| Gs1Arguments.OpenComments | reborn_protocol/gs1/lexer.py:302-318 | A comment nothing closes reaches to the end of the text |
| Gs1Arguments.SectionSignBreaksLines | reborn_protocol/gs1/lexer.py:140-146 | A section sign is a line break, and nothing else is changed |
| Gs1Arguments.PendingMeans | reborn_protocol/gs1/lexer.py:408-416 | A conditional is pending exactly when a `?` stands behind the last terminator and brace |
| Gs1Arguments.OperatorsOfBoth | reborn_protocol/gs1/lexer.py:489-497 | The operators behind which a command's word is a name are those of the parser |
| Gs1Arguments.QuotingReadsBack | reborn_protocol/gs1/lexer.py:374-406 | A string in quotes, its own quotes doubled, comes back as one piece |
| Gs1Arguments.WordArgument | reborn_protocol/gs1/lexer.py:959-1008 | Baddies, items, colours, genders, carried things and directions are each one token of their kind, and the terminator closes the command |
| Gs1Arguments.HeaderRead | reborn_protocol/gs1/lexer.py:1080-1103 | A function header is read as its name and its parameters, and the lexer is then where it was |
| Gs1Arguments.BodyArgument | reborn_protocol/gs1/lexer.py:1029-1065 | A braced body is captured letter for letter up to the brace that closes it, however it is nested |
| Gs1Arguments.ListArgument | reborn_protocol/gs1/lexer.py:878-954 | A list is read item by item, an empty string in front of each but the first |
| Gs1Arguments.RawArgument | reborn_protocol/gs1/lexer.py:779-837 | Raw text is one piece, commas and single number signs included |
| Gs1Arguments.CallRead | reborn_protocol/gs1/lexer.py:474-547 | `cmd("text")` is the command with that text: its parentheses are no tokens, and behind them the lexer is where it was |
| Gs1Grammar.Parse | reborn_protocol/gs1/parser.py:449-645 | At every level the cursor only moves forwards and never over the end of file, an expression without a token is read only at a case label's colon, and a hang is at such a colon |
| Gs1RoundTrip.Back | reborn_protocol/gs1/parser.py:449-645 | At every level of the ladder, the printed operand parses back to the same tree and stops at a token that ends that level |
| Gs1RoundTrip.ChainBack | reborn_protocol/gs1/parser.py:458-516 | A left-grouping chain printed in front of its own operator is exactly what the level's loop has in hand there |
| Gs1RoundTrip.ParsingUndoesPrinting | reborn_protocol/gs1/parser.py:449-645 | Every tree over ternary, all binary levels with `%` tighter than `* /`, `in` with lists and ranges, unary, postfix, calls, indices, arrays and strings parses back from a print with only the parentheses the ladder needs; in a case label too, up to its colon, when it has no bare colon of its own |
| Gs1RoundTrip.InBack | reborn_protocol/gs1/parser.py:518-568 | A comma list in front of `in` is taken whole, with open and closed ranges |
| Gs1RoundTrip.ItemBack | reborn_protocol/gs1/parser.py:518-549 | In a list a bracket closes, the comma speculation is given back and the item read alone |
| Gs1RoundTrip.ItemsNoIn | reborn_protocol/gs1/parser.py:518-549 | The items behind a comma, in parentheses only if they begin with an `in`, never make an `in` of the item before it |
| Gs1RoundTrip.FrontBack | reborn_protocol/gs1/parser.py:518-549 | What the speculation reads of such an item: all of it, or its first operand with an operator behind it |
| Gs1RoundTrip.CallBack | reborn_protocol/gs1/parser.py:613-644 | A name with an argument list is read as the call |
| Gs1RoundTrip.ArrayBack | reborn_protocol/gs1/parser.py:715-726 | An array literal comes back element by element |
| Gs1Ladder.Precedence | reborn_protocol/gs1/parser.py:458-516 | Of two operators in a row the tighter takes the number between them, of two alike the first, by a table of ranks of its own |
| Gs1Ladder.ComparisonsEnd | reborn_protocol/gs1/parser.py:472-484 | Comparisons of one rank do not chain: the expression ends at the second |
| Gs1Ladder.SignsBindTightest | reborn_protocol/gs1/parser.py:570-588 | A sign binds tighter than any operator between two values |
| Gs1Programs.ProgramsReadBack | reborn_protocol/gs1/parser.py:105-190 | A program printed with braces around its bodies parses back to itself, every token read and no error recorded, with recovery on or off |
| Gs1Programs.StatementBack | reborn_protocol/gs1/parser.py:154-255 | Each printed statement parses back whole wherever no `else` follows it |
| Gs1Programs.BodyBack | reborn_protocol/gs1/parser.py:131-150 | A printed body comes back statement by statement up to its brace |
| Gs1Programs.ElseBack | reborn_protocol/gs1/parser.py:202-227 | An else branch is taken when it is there, and stray terminators are left alone when it is not |
| Gs1Programs.HeaderBack | reborn_protocol/gs1/parser.py:229-241 | A `for` header comes back with each of its parts present or absent as printed |
| Gs1Programs.AssignBack | reborn_protocol/gs1/parser.py:375-405 | An assignment comes back with its target, further targets of a chain, operator and value, in a header or on its own |
| Gs1Programs.UserCallBack | reborn_protocol/gs1/parser.py:406-432 | A call that is the whole statement comes back as one |
| Gs1Programs.FunctionBack | reborn_protocol/gs1/parser.py:329-350 | A function declaration comes back with its parameters |
| Gs1Programs.SwitchBack | reborn_protocol/gs1/parser.py:257-291 | A switch comes back with its labels, bodies and default |
| Gs1Programs.LabelBack | reborn_protocol/gs1/parser.py:269-275 | A label is read up to its colon, which the lexer hands over as a name |
| Gs1Programs.CaseBodyBack | reborn_protocol/gs1/parser.py:312-319 | A case body comes back up to the next label or the brace |
| Gs1Programs.CommandBack | reborn_protocol/gs1/parser.py:352-373 | A command comes back with its arguments, those left out and the enumerated words included |
| Gs1Ladder.SevenAssign | reborn_protocol/gs1/parser.py:375-405 | Each of the seven assigning operators makes an assignment of its own |
| Gs1Ladder.StatementsEnd | reborn_protocol/gs1/parser.py:192-196 | A statement ends at its terminator, which it takes, or where a block or the text does, and nowhere else |
| Gs1Ladder.SixWordKinds | reborn_protocol/gs1/parser.py:362-373 | The words of six kinds are arguments of a command as they stand |
| Gs1Ladder.LabelsEndInColons | reborn_protocol/gs1/parser.py:303-310 | A label ends in either colon and in nothing else |
| Gs1Ladder.TextPieces | reborn_protocol/gs1/parser.py:647-658 | A text's pieces are its strings and message codes; the mark in front of an argument that is one is none |
| Gs1Statements.Statement | reborn_protocol/gs1/parser.py:154-190 | Every statement consumes at least one token, stays inside the list, and records its errors in order between where it began and where it ended |
| Gs1Statements.Round | reborn_protocol/gs1/parser.py:118-127 | In recovery mode a round of the statement loop never fails and always advances |
| Gs1Parser.Parser.Synchronize | reborn_protocol/gs1/parser.py:51-78 | The loop leaves the cursor where the specification of panic recovery says |
| Gs1Parser.Parser.DiscardSwitchBody | reborn_protocol/gs1/parser.py:293-301 | Likewise for the rest of a malformed switch |
| Gs1Parser.Parser.ParseProgram | reborn_protocol/gs1/parser.py:105-128 | The loop builds the program and the error list of the grammar |
| Gs1Parser.Parser.ParseBlockRest | reborn_protocol/gs1/parser.py:131-150 | Likewise for a block |
| Gs1Parser.Parser.ParseStatement | reborn_protocol/gs1/parser.py:154-190 | Every kind of statement moves the cursor, records errors and builds the tree as the grammar says |
| Gs1Parser.Parser.ParseElse | reborn_protocol/gs1/parser.py:214-227 | Terminators before an else are passed over and given back when none follows |
| Gs1Parser.Parser.ParseSwitch | reborn_protocol/gs1/parser.py:257-291 | An error anywhere in the arms is recorded and the body thrown away; the label flag is down again |
| Gs1Parser.Parser.ParseArms | reborn_protocol/gs1/parser.py:265-286 | The loop over the arms builds what the grammar says and records errors in order |
| Gs1Parser.Parser.ParseSimple | reborn_protocol/gs1/parser.py:375-443 | Assignment and call are tried in turn from the same place, the cursor going back each time |
| Gs1Parser.Parser.ParseTargets | reborn_protocol/gs1/parser.py:384-394 | The targets of a chained assignment; what is no target is given back |
| Gs1Parser.Parser.ParseExpression | reborn_protocol/gs1/parser.py:449-456 | The ternary loop moves the cursor to the grammar's outcome |
| Gs1Parser.Parser.ParseChain | reborn_protocol/gs1/parser.py:458-516 | So do the loops of the left-grouping levels |
| Gs1Parser.Parser.ParseOneOp | reborn_protocol/gs1/parser.py:472-484 | So do equality and comparison, which take one operator at most |
| Gs1Parser.Parser.ParseIn | reborn_protocol/gs1/parser.py:518-549 | So does the comma speculation, which rewinds the cursor when no `in` follows |
| Gs1Parser.Parser.ParseRange | reborn_protocol/gs1/parser.py:551-568 | So does a range, bounds below the comparison level |
| Gs1Parser.Parser.ParsePrimary | reborn_protocol/gs1/parser.py:590-645 | So does every primary |
| Gs1Parser.Parser.ParseParenthesis | reborn_protocol/gs1/parser.py:593-600 | So does a parenthesis, of whose comma list the last is kept |
| Gs1Parser.Parser.ParseName | reborn_protocol/gs1/parser.py:613-644 | So does a name: the call it may be is given back when its arguments cannot be read |
| Gs1Parser.Parser.ParseMethodChain | reborn_protocol/gs1/parser.py:660-682 | So does a chain of method calls, its last link given back when it cannot be read |
| Gs1Parser.Parser.ParseArgs | reborn_protocol/gs1/parser.py:629-633 | So does an argument list |
| Gs1Parser.Parser.ParseElements | reborn_protocol/gs1/parser.py:715-726 | So does an array literal; a round that leaves the cursor where it was is the hang |
| Gs1Parser.Parser.ParsePath | reborn_protocol/gs1/parser.py:729-745 | So does a dotted path |
| Gs1Parser.Parser.ParsePart | reborn_protocol/gs1/parser.py:755-785 | So does one segment, which stops at a label's colon |
| Gs1Recovery.SynchronizeStops | reborn_protocol/gs1/parser.py:51-78 | Recovery stops at the first end of file, `}` that closes nothing opened since, `;` outside any block, or end of a block it opened; short of the end of file what it consumed is brace-balanced |
| Gs1Recovery.DiscardStops | reborn_protocol/gs1/parser.py:293-301 | Throwing a switch body away stops just after the brace that closes it, the first to close more than was opened, or at the end of file |
| Gs1Recovery.RecoveryReadsEverything | reborn_protocol/gs1/parser.py:105-128 | On every list ending in its only end of file the program is never refused: unless the parser hangs every token is read, and the errors lie in the text in order |
| Gs1Recovery.ConsumesNothingIff | reborn_protocol/gs1/parser.py:755-768 | An expression is read without a token exactly at a case label's colon |
| Gs1Recovery.ArrayHangsAtColon | reborn_protocol/gs1/parser.py:715-726 | There the array-literal loop never ends |
| Gs1Hangs.LabelHangsIff | reborn_protocol/gs1/parser.py:269-275 | Reading a label hangs at its bare colon exactly when a closing brace could stand there: with an empty name, a brace and some more tokens put in, the label is an expression up to the colon |
| Gs1Mending.MendParse | reborn_protocol/gs1/parser.py:449-645 | Whatever a hanging label is in the middle of, closing the literal and then each construct around it makes an expression of every level |
| Gs1Mended.SameParse | reborn_protocol/gs1/parser.py:449-645 | A label that does not hang is read alike whether its colon or an empty name and a brace comes next, speculation and backtracking included |
| Gs1Labels.TidyParse | reborn_protocol/gs1/parser.py:449-645 | An expression of a label read whole has balanced braces and no bare colon; one that hangs has left a brace open |
| Gs1Hangs.HangsOnlyInOpenLabel | reborn_protocol/gs1/parser.py:105-291 | Whatever the tokens, a program hangs only in a case label, at the first bare colon behind its word, with more braces opened than closed in between |
| Gs1Hangs.EndsWhenLabelsClose | reborn_protocol/gs1/parser.py:105-128 | So a text whose labels close their braces before their colon is read to its end |
| Gs1Hangs.SwitchHangsWithLabel | reborn_protocol/gs1/parser.py:257-275 | A switch at the front of a program hangs when its first label does, whatever is switched on and whatever follows |
| Gs1Hangs.SwitchHangs | reborn_protocol/gs1/parser.py:257-275 | `switch (e) { case {:` hangs the parser for every printable `e` |
| Gs1Front.ParseText | reborn_protocol/gs1/parser.py:805-807 | What the lexer guarantees is what the parser needs: a text that lexes is never refused, and its outcome is that of the grammar on the specified tokens |
| Csv.Join | reborn_protocol/gs1/csv.py:8-18 | The loop writes the fields, quoted and escaped where they must be, joined by commas |
| Csv.Split | reborn_protocol/gs1/csv.py:21-75 | The scanning loop yields the fields of the specification for every text |
| Csv.SplitOfJoin | reborn_protocol/gs1/csv.py:8-75 | The exact law for all strings, quoting and blank skipping: which fields come back, and how |
| Csv.JoinReadsBack | reborn_protocol/gs1/csv.py:8-75 | Splitting a join gives the list less one final empty string; forced quotes give it back exactly |
| Csv.JoinIsLosslessIff | reborn_protocol/gs1/csv.py:8-75 | A plain join loses nothing exactly when the last string is not empty |
| Csv.JoinOfBoth | reborn_protocol/gs1/csv.py:8-18 | Joining two lists in a row is joining each, with a comma between |
| Csv.LeadingBlanks | reborn_protocol/gs1/csv.py:21-40 | Spaces and tabs before a bare field are skipped only by a reader told to |
| Gs1StringLists.StringVariable.Exec | reborn_protocol/gs1/interp.py:564-596 | Each string-list command leaves the variable's text as its list edit encodes it, or untouched where the code stores nothing |
| Gs1StringLists.CommandRefinesEdit | reborn_protocol/gs1/interp.py:564-596 | On any stored value the list in the text changes as the command's name says, up to one dropped final empty string |
| Gs1StringLists.CommandIsEditIff | reborn_protocol/gs1/interp.py:564-596 | When it is exactly the edit |
| Gs1StringLists.RunRefinesEdits | reborn_protocol/gs1/interp.py:564-596 | Over any run of commands the text follows the list machine |
| Gs1StringLists.RunIsEdits | reborn_protocol/gs1/interp.py:564-596 | Lists that start and stay without empty strings go through any run exactly as plain lists |
| Gs1StringLists.InsertThenDelete | reborn_protocol/gs1/interp.py:564-596 | An insertion puts its string where asked, in bounds, moves the rest up, and deleting there undoes it |
| Gs1StringLists.ReplaceIsDeleteThenInsert | reborn_protocol/gs1/interp.py:564-596 | Replacing is deleting and inserting in place, and adding behind the end |
| Gs1StringLists.RemoveTakesAll | reborn_protocol/gs1/interp.py:564-596 | Removing takes every copy and leaves the others in order |
| Gs2Container.ParseContainer | reborn_protocol/gs2/container.py:83-140 | The nested loops fill the container, or fail, as the segments specify |
| Gs2Container.LoadFollowsSegments | reborn_protocol/gs2/container.py:95-138 | A blob of segments in any order and of any ids does what the segments do one after another |
| Gs2Container.AcceptedIsSegments | reborn_protocol/gs2/container.py:95-138 | Every accepted blob is its segments, byte for byte, with at most a newline after them |
| Gs2Container.AcceptsExactly | reborn_protocol/gs2/container.py:83-140 | A blob is accepted exactly when it is such segments and each can be applied |
| Gs2Container.LoadingUndoesEmitting | reborn_protocol/gs2/container.py:3-24 | An emitted container of NUL-free names loads to itself |
| Gs2Disasm.DecodeAll | reborn_protocol/gs2/disasm.py:158-213 | The loop, overwriting the last operand in place, yields the specified instructions or error |
| Gs2Disasm.DecodedForm | reborn_protocol/gs2/disasm.py:158-213 | Every accepted stream gives instructions with their own numbers, the opcode byte at their offset, no markers, an operand where one is due, and offsets that grow by at least each length |
| Gs2Disasm.DecodeOfConcat | reborn_protocol/gs2/disasm.py:158-213 | Decoding any two streams in a row is decoding each, moved, but for the records in front of the second, the last of which becomes the operand of the first one's last instruction |
| Gs2Disasm.ConcatIsBothIff | reborn_protocol/gs2/disasm.py:185-195 | It is exactly decoding each when no record stands in front of the second, no instruction before it, or the last such record repeats the operand already there |
| Gs2Disasm.RecordsReachBack | reborn_protocol/gs2/disasm.py:185-195 | An example where it is not |
| Gs2Disasm.DecodingUndoesEmitting | reborn_protocol/gs2/disasm.py:158-213 | Instructions with at most one record each decode to themselves at the offsets they were written at |
| Gs2Disasm.EmittedLengthsTile | reborn_protocol/gs2/disasm.py:102-107 | The lengths of such instructions tile the code exactly |
| Gs2Disasm.LoadingUndoesCompiling | reborn_protocol/gs2/container.py:83-140 | Container and code together: what the compiler wrote is what the loader returns |
| Gs2Records.ByteAlone | reborn_protocol/gs2/disasm.py:158-213 | Every byte alone: an instruction, with an operand of its kind where one is due, or one of the seven markers, which is refused |
| Gs2Records.PlainNumbers | reborn_protocol/gs2/disasm.py:121-137 | The unsigned records, byte by byte, highest first, of each opcode's kind |
| Gs2Records.SignedNumbers | reborn_protocol/gs2/disasm.py:138-149 | The signed ones, the first bit being the sign |
| Gs2Records.FloatText | reborn_protocol/gs2/disasm.py:150-156 | The textual one, up to its zero byte |
| Gs2Records.RecordIsWritten | reborn_protocol/gs2/disasm.py:121-156 | Emitting undoes decoding: every record read is one the compiler can write, and written gives the same bytes |
| Gs2Records.WhatNoSegmentSays | reborn_protocol/gs2/container.py:83-140 | What no segment fills in is empty, and unknown segments are kept |
| Gs2Vm.ReversePushedArgs | reborn_protocol/gs2/vm.py:640-651 | Values pushed in reverse above a marker pop in source order and leave what was below |
| Gs2Vm.ParametersBindInOrder | reborn_protocol/gs2/vm.py:1027-1058 | In either prologue style distinct parameters get the argument in their place or nothing, and nothing else changes |
| Gs2Machine.HandleKeeps | reborn_protocol/gs2/vm.py:670-1058 | A handler changes neither whose frame it is, nor its scope, nor its arguments; what it does to stack, store and position is Gs2Jumps and Gs2Laws |
| Gs2Jumps.SetIndexGoes | reborn_protocol/gs2/vm.py:673-674 | The plain jump goes to its target and leaves stack and store |
| Gs2Jumps.TextTargetIsCut | reborn_protocol/gs2/vm.py:673-674 | So does one whose target is text, cut to its whole part |
| Gs2Jumps.ConditionDecides | reborn_protocol/gs2/vm.py:676-703 | The four tests take their value away and jump when it holds or when it does not; AND and OR push the truth that decided; the store stays |
| Gs2Jumps.IfRunsThenPart | reborn_protocol/gs2/vm.py:682-686 | Over whole runs: condition, IF, then part, join runs the then part exactly when the condition holds |
| Gs2Jumps.WhileGoesBack | reborn_protocol/gs2/vm.py:673-686 | A loop comes back to its condition with the stack as it was, and leaves when the condition fails |
| Gs2Jumps.OneValueWhereWaysMeet | reborn_protocol/gs2/vm.py:688-703 | Logical and and or: where the ways meet there is exactly one value, the one that decided |
| Gs2Laws.Pushes | reborn_protocol/gs2/vm.py:746-793 | The instructions that push one value, and which |
| Gs2Laws.PushesOperand | reborn_protocol/gs2/vm.py:732-741 | A number, or a string of the table, by its operand |
| Gs2Laws.TextIsNoIndex | reborn_protocol/gs2/vm.py:735-741 | An index written as text raises within the table and gives the empty string outside it |
| Gs2Laws.StackMoves | reborn_protocol/gs2/vm.py:797-813 | Copy, exchange and drop |
| Gs2Laws.UnaryCombines | reborn_protocol/gs2/vm.py:1135-1145 | One operand off, one value on |
| Gs2Laws.BinaryCombines | reborn_protocol/gs2/vm.py:1082-1174 | Two off, the lower one being the left, and one on |
| Gs2Laws.ArrayCollects | reborn_protocol/gs2/vm.py:962-964 | Values pushed in reverse become one array in source order |
| Gs2Laws.MemberRefers | reborn_protocol/gs2/vm.py:924-960 | A member access refers to the member |
| Gs2Laws.MemberOfReference | reborn_protocol/gs2/vm.py:924-960 | The object accessed may itself be a reference, which is read first |
| Gs2Laws.ThisIsInnermost | reborn_protocol/gs2/vm.py:760-775 | `this` is the innermost `with` target that is not the player, else the script's own object |
| Gs2Laws.NameReadsBack | reborn_protocol/gs2/vm.py:567-629 | A name written is the name read, in whichever scope it lives |
| Gs2Laws.OtherNamesStay | reborn_protocol/gs2/vm.py:610-629 | No other name reads differently |
| Gs2Laws.AssignmentReadsBack | reborn_protocol/gs2/vm.py:1022-1025 | After `target = value` the target reads as the value |
| Gs2Laws.CountsByOne | reborn_protocol/gs2/vm.py:1060-1080 | `++` and `--` leave the variable one more or less |
| Gs2Laws.RegisterGivesBack | reborn_protocol/gs2/vm.py:823-837 | A register gives back what was last stored in it |
| Gs2Laws.WithEnters | reborn_protocol/gs2/vm.py:1620-1631 | `with` opens its object's scope, or skips the block |
| Gs2Laws.InnermostWithFirst | reborn_protocol/gs2/vm.py:567-575 | Of nested scopes the innermost that has the name |
| Gs2Laws.ScopesInOrder | reborn_protocol/gs2/vm.py:575-592 | Temporaries, own object, globals, parameter array, host, in this order |
| Gs2Laws.ForeachVisits | reborn_protocol/gs2/vm.py:1633-1661 | A round of `foreach` binds the item at the index, counted from behind when negative, and the loop is left behind the last |
| Gs2Laws.ReturnHandsValue | reborn_protocol/gs2/vm.py:711-713 | `return v` hands the caller what `v` reads as |
| Gs2Laws.LastReturnFinishes | reborn_protocol/gs2/vm.py:492-505 | The outermost return ends the execution with its value; running off the end returns nothing |
| Gs2Laws.SleepSuspends | reborn_protocol/gs2/vm.py:523-529 | A positive `sleep` suspends a coroutine and gives it its whole budget again |
| Gs2Laws.HostAnswers | reborn_protocol/gs2/vm.py:530-539 | A call of no script function goes to the host in source order, and its answer is pushed at once or when it is resumed |
| Gs2Laws.ErrorsAreCounted | reborn_protocol/gs2/vm.py:544-552 | A raising handler costs an error; one too many ends the frame |
| Gs2Laws.ErrorsRunOut | reborn_protocol/gs2/vm.py:544-552 | A script goes on after each of its allowed errors, counted from none, and not after the next |
| Gs2Laws.EventsStartUnerring | reborn_protocol/gs2/vm.py:414-417 | An event starts with no error counted, whatever happened before |
| Gs2Laws.OwnFunctionFirst | reborn_protocol/gs2/vm.py:1691-1701 | A script's own function comes before those it joins |
| Gs2Laws.OwnMethodsAreFunctions | reborn_protocol/gs2/vm.py:1669-1681 | A script function is called by name or as a method of the own object, in any case of letters; a method of anything else is the host's |
| Gs2Laws.FirstJoinedClass | reborn_protocol/gs2/vm.py:1691-1701 | Of the joined classes the first that has it |
| Gs2Machine.StepCounts | reborn_protocol/gs2/vm.py:492-555 | Every step keeps the linked frames, counts exactly the instructions run, through calls into joined scripts and back, and lowers the termination measure |
| Gs2Machine.SliceStaysInBudget | reborn_protocol/gs2/vm.py:492-555 | From any point, whatever the bytecode, the instructions before the next sleep over all frames and joined scripts fit the budget left |
| Gs2Machine.SliceEnds | reborn_protocol/gs2/vm.py:499-505 | The budget left is a termination measure for the whole call tree |
| Gs2Machine.EventStaysInBudget | reborn_protocol/gs2/vm.py:414-417 | An event runs at most `max_ops` instructions to its first sleep or end, in at most twice that and one steps |
| Gs2Machine.WokenStaysInBudget | reborn_protocol/gs2/vm.py:525-529 | So does every stretch between two sleeps |
| Gs2Calls.CallEnters | reborn_protocol/gs2/vm.py:530-539 | A script call takes its reverse-pushed arguments in source order, keeps the caller's stack below the marker, and hands the count on |
| Gs2Calls.PrologueBinds | reborn_protocol/gs2/vm.py:1027-1058 | A prologue of reverse-pushed references, bare, scoped or mixed, binds every parameter and leaves the stack as it was |
| Gs2Calls.CallBindsArguments | reborn_protocol/gs2/vm.py:1669-1701 | From the call to the end of the prologue: parameter j holds source argument j or nothing, and no other frame or object has changed |
| Gs2Calls.CallersStand | reborn_protocol/gs2/vm.py:492-555 | A frame that has called something is not touched until it is on top again, through any nesting, sleep or wait |
| Gs2Calls.CallReturnsOneValue | reborn_protocol/gs2/vm.py:530-539 | When the callee is gone the caller is as it was with exactly one value more |
| Gs2Interpreter.CallFrame.PopArgs | reborn_protocol/gs2/vm.py:640-651 | The popping loop takes what is above the marker and leaves what is below |
| Gs2Interpreter.CallFrame.FuncParamsEnd | reborn_protocol/gs2/vm.py:1027-1058 | The binding loop updates the store as specified |
| Gs2Interpreter.Execution.RunSlice | reborn_protocol/gs2/vm.py:492-555 | The loop ends at the next stop, having run no more instructions than the budget left |
| Cipher.RebornEncryption.Encrypt | reborn_protocol/encryption.py:88-132 | The in-place loop applies the keystream of the current state and advances it by the data's length; the keystream is that of Keystream.KeystreamIsOrbit |
| Cipher.RebornEncryption.ArmLimit | reborn_protocol/encryption.py:74-86 | The limit is armed from the compression type |
| Cipher.CryptTwice | reborn_protocol/encryption.py:88-132 | Two ciphers in the same state undo each other |
| Keystream.PackedBytesSpell | reborn_protocol/encryption.py:126-130 | The four bytes of a group spell the iterator, the lowest first |
| Keystream.KeystreamIsOrbit | reborn_protocol/encryption.py:88-132 | 4n zero bytes through a fresh cipher, read as little-endian words, are the orbit of x -> (134775813 x + key) mod 2^32 from 0x4A80B38 |
| Keystream.XorBitsAt | reborn_protocol/encryption.py:126-132 | Each bit of the ciphertext is the exclusive or of two bits |
| Keystream.TypeDecidesReach | reborn_protocol/encryption.py:74-86 | 48 bytes of a plain packet and 16 of a compressed one are encrypted; the rest passes unchanged |
| Keystream.StreamContinues | reborn_protocol/encryption.py:88-132 | The next packet goes on at the next whole group of four |
| Keystream.FirstLetter | reborn_protocol/encryption.py:88-132 | The first byte of all: A under key 0 is 0x59 |
| Session.Gen5Codec.SendPacket | reborn_protocol/codec.py:439-464 | Sending produces the specified wire bytes and cipher state, or nothing for an oversize payload |
| Session.Gen5Codec.RecvPacket | reborn_protocol/codec.py:466-505 | Receiving produces the specified payload and cipher state |
| Session.WireForm | reborn_protocol/codec.py:439-464 | What goes on the wire for any message: length, type byte, compression by size, and the cipher over it |
| Session.RefusedPackets | reborn_protocol/codec.py:466-505 | Empty packets and unknown types are refused and do not touch the cipher |
| Session.ServerCodec.DecodePacket | reborn_protocol/codec.py:568-608 | The server's first packet and its steady state |
| Session.PacketBuffer.GetPackets | reborn_protocol/codec.py:379-400 | The draining loop returns every complete packet in order and keeps the rest |
| Session.CuttingIsInvisible | reborn_protocol/codec.py:365-400 | However a stream is cut into chunks the same packets come out |
| Session.OneMessage | reborn_protocol/codec.py:439-505 | A message that is not dropped is one frame that decodes to it and leaves the ciphers in step |
| Session.DroppedLeavesNoTrace | reborn_protocol/codec.py:439-464 | A dropped payload sends nothing and does not advance the cipher, and only such payloads do |
| Session.EndToEnd | reborn_protocol/codec.py:379-464 | For any payloads below 8 MiB and any cutting the receiver gets exactly those not dropped, in order, with the ciphers in step again |
| Session.SteadyServer | reborn_protocol/codec.py:568-608 | A steady-state server codec is the plain receiver |
| Session.WholeClientSession | reborn_protocol/codec.py:510-608 | A login in bare zlib and everything after it through the cipher reach a new server codec with the client's key |
| Numerals.GBytesFold | reborn_protocol/props.py:448-462 | Written lanes fold back to the value clamped to what the width holds, at every width |
| Numerals.LanesSaturate | reborn_protocol/props.py:448-462 | Beyond its top a width writes its top |
| GTypes.PacketBuilder.WriteGInt5 | reborn_protocol/codec.py:287-309 | The five-lane writer appends the lanes of the value cut to 32 bits |
| GTypes.PacketBuilder.WriteGInt4 | reborn_protocol/codec.py:267-285 | The four-lane writer emits the bytes of the generic one on all integers |
| GTypes.PacketBuilder.WriteGString | reborn_protocol/codec.py:316-322 | A string is cut to 223 bytes behind its length |
| GTypes.ItemRoundTrip | reborn_protocol/codec.py:78-169 | Any one value written anywhere in a buffer reads back clamped and ends where it ends |
| GTypes.SequenceRoundTrip | reborn_protocol/codec.py:78-330 | So does any sequence of G-type writes, ending exactly at the end of the buffer |
| GTypes.LatinTextSurvives | reborn_protocol/codec.py:161-164 | Short Latin-1 text survives as it is |
| GTypes.TextComesBack | reborn_protocol/codec.py:311-330 | Of any text its first 223 letters, or 28767 of the longer form, letters outside Latin-1 becoming question marks |
| GTypes.FiveLanesAgreeIff | reborn_protocol/props.py:448-462 | The generic five-lane writer agrees with `write_gint5` exactly up to 0xFFFFFFFF |
| PropNumerals.GByte | reborn_protocol/props.py:448-462 | The lane loop writes the saturating lanes of any integer |
| PropNumerals.ReadGByte | reborn_protocol/props.py:237-253 | The folding loop adds lanes, wraps at width 5 only, and reports truncation |
| Props.DecodeMovesOn | reborn_protocol/props.py:282-414 | The reader never moves backwards, whatever the bytes |
| Props.SkipperIsReader | reborn_protocol/props.py:419-435 | A payload the skipper says fits is exactly what the reader takes, for every descriptor and position |
| Props.ValueReadsBack | reborn_protocol/props.py:484-541 | Every wire form reads back its canonical value and stops where its payload ends, for all values in its domain |
| Props.PixelsExactIff | reborn_protocol/props.py:470-473 | Pixels survive exactly up to magnitude 14383 |
| Props.HalfTilesExactIff | reborn_protocol/props.py:502-506 | Half-tiles survive exactly from -40 to 215, -33 excepted |
| PropLosses.PixelsKept | reborn_protocol/props.py:470-473 | A position keeps its whole pixels, cut towards the origin |
| PropLosses.PixelBytes | reborn_protocol/props.py:470-473 | A position is written as twice its pixels, and one more for a negative one |
| PropLosses.HalfTilesKept | reborn_protocol/props.py:499-505 | Likewise half-tiles, in both forms, one saturating |
| PropLosses.ColorsKept | reborn_protocol/props.py:510-520 | Colours are cut, filled up with zeros and clamped |
| PropLosses.RawKept | reborn_protocol/props.py:484-498 | Raw bytes are cut or filled up with spaces |
| PropLosses.NothingLeft | reborn_protocol/props.py:419-435 | At the end of the data only a payload of no length fits |
| PropStream.ParsePropStream | reborn_protocol/props.py:596-642 | The walker ends on any bytes and hands the handlers what the specification says |
| PropStream.CleanWalkTiles | reborn_protocol/props.py:596-642 | A clean walk under the alignment check tiles what it consumed, known properties at their declared widths, no gap and no overlap |
| PropStream.StreamRoundTrip | reborn_protocol/props.py:596-642 | Any writable list of properties comes back as the canonical values in order, clean, with the position at the end and every check on |
| PropLosses.CallsAreWanted | reborn_protocol/props.py:596-642 | On any bytes a handler is called only for its id, with a value or where none is allowed |
| PropLosses.WantedAreCalled | reborn_protocol/props.py:596-642 | And of a written stream every wanted property is called for |

## Left out

- Floating point: numbers are reals and rounding, `fmt_num`, numeric prefixes of strings and trigonometry are parameters.
- Hosts: builtins, named objects, commands and message codes of the host are a function of the call and the calls before it; `trigger` and calls into other scripts' objects, which start a budget of their own, belong to it.
- GS1 executor: the message codes built into the interpreter (`#e`, `#I`, `#K`, `#t`, `#R`, `#E`, `#W`, `#P`, `#s`, `#v`, `#T`, `#U`), the variable commands other than the string lists inside a running script, method calls, computed path names, player-property targets and Python's own recursion limit.
- GS1 arrays are restored by reference; the model keeps lists on a heap and says nothing of their contents after a call.
- GS1 literals keep their token text; turning it into a number (`_literal`) is not modelled.
- Gs1RoundTrip.ParsingUndoesPrinting: computed and message-code path segments, method calls and arguments left out of a call are not printed.
- Gs1Programs.ProgramsReadBack: every body is printed in braces, and assigned values and expression statements in parentheses, because `a = (b = c)` and `(a = b);` would otherwise be assignments; a lone argument left out, which no text can say, is not printed, nor a case body statement that begins with the word `case` or `default`, nor a label with a bare colon of its own.
- Gs1Hangs.LabelHangsIff: the colon is not one written as the name of a method (`.:(`), which the parser may read over.
- Gs1Hangs.HangsOnlyInOpenLabel: one direction; that the parser comes to read a given label depends on everything before it, and is shown for a switch at the front by SwitchHangsWithLabel.
- Lexer tables and patterns are parameters; which command takes which arguments is not stated, and which characters words and numbers have only where text is spelled, in ASCII.
- Gs1Texts.ReadingUndoesWriting: the text has one space before each token, and commands whose arguments are expressions or plain text; the other kinds of argument are read one at a time in Gs1Arguments. Functions, message codes and commands written as calls are not spelled.
- GS2: the opcodes for strings, arrays, objects and ranges are one parameter that may change a frame's stack and the store; lists are values, so writing into a shared list is not seen; functions read as members, holders created by a first member write, and dotted names are not modelled.
- GS2 float operands keep their text; `strtofloat` is a parameter.
- Gs2Machine.SliceStaysInBudget: assumes the same `max_ops` in all joined scripts and no cycle among them; with a cycle the original's own search for a function does not end.
- Session.EndToEnd: payloads of exactly 8 MiB, which zlib may hand back with input left unread and the receiver then rejects.
- zlib and bz2 are an abstract lossless library with a limit on the result; the codecs of generations 1 to 4 and `position2` are left out as easy members.
- Base64, hashes, random numbers, formatting, coverage counters and logging.

# The NOLOL compiler, the YOLOL machine and its optimizers

YOLOL is a small language whose programs have at most 20 lines; control only moves from line to line, and a line that
fails is given up in the middle. NOLOL adds structure to it: labels, `if` blocks, `while` loops, `break` and `continue`.
The repository holds a compiler from NOLOL to YOLOL, a virtual machine, a coordinator that lets several machines take
turns on shared variables, optimizers that shorten programs, and a printer, a lexer and a parser. This project models
them and proves what they promise:

* **The compiler.** `Lowering` turns blocks into labelled lines with gotos, `Gotos` redirects chains of gotos, clears
  labels and deletes gotos, `Merging` packs lines, `Numbering` replaces labels by line numbers. The source language has
  its own semantics on the nested program (`Nolol`), the intermediate lines have one (`Machine.Flat`), and so has the
  numbered program (`Machine.Vm`). `Compiler.CompilerCorrect` connects the first with the last; `Conversion` adds the
  short names and the line counter, and `Converting` runs all of it.
* **The machines.** `Semantics` says what expressions, statements and lines do, `Machines` holds the objects that do it,
  and `Coordination` is the protocol between the coordinator and its machines as a transition system.
* **The optimizers.** `Folding`, `Inversion` (and `Nodes`, its rewriting of linked nodes in place), `Naming`, `Renaming`,
  and all of them one after another in `Optimizing`.
* **Printer, lexer and parser** of expressions: `Printing`, `Lexing`, `Parsing`, `RoundTrip`, with the grammar in
  `Grammar`, the characters of tokens in `Reading` and the tokens of statements in `Spelling`; the length of printed
  lines is in `Widths`, `Grouping` and `Lengths`.
* **What the parts compute** is said once more without their own functions: laws of operators, variables and statements
  in `Laws`, of NOLOL's blocks in `Structure`, what each pass leaves behind in `Passes`, and the turns of coordinated
  machines as steps of single ones in `Scheduling`.

What is observed of a run (`Behaviour`) is the sequence of all variables written so far and, once it ends, the final
variables. Two behaviours are equivalent if each of them shows everything the other one shows, for finite and for
infinite runs. Where a theorem compares runs with runtime errors, it says so.

The algorithms that change things in place are methods: of the classes `Converter`, `Program`, `VM`, `Coordinator`,
`Node`, `Script`, `VariableNameOptimizer`, `Printer`, `Tokenizer` and `Parser`, or methods over these objects. Each is
tied by its `ensures` to a function, and the theorems are about these functions. `dafny verify dfyconfig.toml` checks
everything.

Numbers are real numbers. What the decimal library computes is a record of functions (`Operations.Decimals`), and every
theorem holds for all of them, or for all lawful ones: `ShowsExactly` says that printing a number that can be written
down and reading it gives the same number, `ReadsNaturals` that a line number in digits is read as that number. Whole
numbers are such an instance (`WholeNumbers.WholeIsLawful`).

## Model

| member | source | states |
|---|---|---|
| Compiler.CompilerCorrect | pkg/nolol/converter.go:91-169 | For every accepted program without gotos to line numbers, the YOLOL code run by the machine makes the same writes in the same order as the structured program, on every finite or infinite run without errors, and it can fail exactly if the program can. The labels of the lowered lines are distinct and no goto names a label of the compiler; no goto leads behind the last of 20 lines (`EndReachable`); and the blocks and conditions are none of those under Findings (empty or lost blocks, numbers that are negated twice) |
| Compiler.CompilerCorrectResuming | pkg/vm/vm.go:437-453 | If the program never fails, the same holds on a machine that would go on after errors |
| Conversion.ConverterCorrect | pkg/nolol/converter.go:91-169 | The same for the whole converter: the variables, whose names are identifiers, have short names and every line may count itself; the writes are the same up to those names, without those of the counter |
| Conversion.ConvertedTime | pkg/nolol/converter_builtins.go:50-62 | In every run of a converted program that may read `time()`, the counter is the number of executed lines: no pass adds a write to it |
| Converting.ConvertProgram | pkg/nolol/converter.go:91-169 | One object for names goes through all of it: the counter's name is reserved, the program is visited, the passes run, and the lines get their counters; the outcome is the one of the theorems |
| Compiler.Convert | pkg/nolol/converter.go:91-169 | The passes that change one program in place, in their order, yield the outcome that the theorems are about, with each of the five ways to fail |
| Compiler.RangeIffEndReachable | pkg/vm/vm.go:591-597 | All gotos of an accepted program go to one of the lines 1 to 20, which the machine has, if and only if fewer than 20 lines are left when the empty ones are dropped, or at or behind every label that a goto names there is a line that is left |
| Overrun.Label21Miscompiled | pkg/vm/vm.go:591-597 | A program with a label behind its 20 lines is accepted, in every layout, and its code writes a variable that the program skips |
| Placing.LoweringEquivalent | pkg/nolol/converter_ifs.go:14-153 | Blocks, lowered to one line or to several, and loops with `break`, `continue` and gotos into and out of them, make the same writes as the structured program on error-free runs, and fail in the same cases |
| Placing.ListStands | pkg/nolol/converter_loops.go:18-123 | The code of a list of elements at any place of the lines has the shape from which the simulation follows: each construct's labels lead where the structured program goes |
| Simulation.StandingEquivalent | pkg/nolol/converter_ifs.go:14-153 | Any lines in which the code of a program stands that way behave like the program, step by step of either side |
| LabelCounting.CleanIsLowerable | pkg/nolol/converter_ifs.go:99-101 | Labels and gotos that do not look like the compiler's own cannot clash with them: distinct labels of the user then are enough |
| Outcomes.ClashReported | pkg/nolol/converter_gotos.go:115-143 | A label that is set twice is reported if and only if some goto still names it once the chains are resolved |
| Outcomes.Accepted | pkg/nolol/converter.go:91-169 | Short programs are accepted: fewer than 20 lowered lines that each fit, with every named label standing exactly once |
| Lowering.Converter.ConvertBlock | pkg/nolol/converter.go:178-250 | Visiting a block with the counters and the stack of loops yields the lowered lines and the new counters, or fails exactly if a `break` or `continue` stands outside loops |
| Lowering.Converter.ConvertIf | pkg/nolol/converter_ifs.go:14-48 | The lines built branch by branch are the lowered `if`, inline where that is possible |
| Lowering.Converter.ConvertConditionInline | pkg/nolol/converter_ifs.go:50-95 | The attempt yields the single line or is rejected; either way, gotos behind gotos are deleted in the blocks nested in the statements it shares with the block |
| Tidying.TidyRun | pkg/nolol/converter_ifs.go:86-91 | A line that any number of rejected attempts have left behind has the same label and does what it did |
| Lowering.Converter.ConvertWhileLoop | pkg/nolol/converter_loops.go:18-92 | The first line's statements are overwritten with the test unless the condition is a constant that is not 0; the result is the lowered loop |
| Passes.LoweredComputed | pkg/nolol/converter.go:225-233 | No binary operator on constants that does not fail is left in the statements |
| Passes.EndlessLoopUntested | pkg/nolol/converter_loops.go:33-46 | A loop whose condition is a constant other than 0, or computes to one, has no test |
| Passes.InlinedIffPossible | pkg/nolol/converter_ifs.go:50-95 | A branch becomes one line if and only if its block merges to one line without a label and the result is short enough |
| Passes.StrayJumpReported | pkg/nolol/converter_loops.go:94-123 | A `break` or `continue` in a line outside of all loops is reported, and inside of a loop it may stand anywhere |
| Labels.LabelTexts | pkg/nolol/converter_loops.go:18-21 | The labels of the compiler are `while1`, `endwhile12`, `endif0`, `iflbl3-0` and so on |
| Structure.WhileLaw | docs/nolol.md:103-109 | In the structured program, a loop runs its block as often as its condition holds, and then goes on behind itself |
| Structure.BreakLaw | docs/nolol.md:111-111 | `break` leaves the loop at once |
| Structure.ContinueLaw | docs/nolol.md:111-111 | `continue` goes to the condition |
| Structure.InnerBreakLaw | docs/nolol.md:111-111 | `break` in an inner loop leaves that one only |
| Structure.IfLaw | pkg/nolol/converter_ifs.go:14-48 | The first condition that holds decides, otherwise the else block runs, if there is one |
| Structure.GotoIntoLoop | pkg/nolol/converter_gotos.go:115-143 | A goto leads to the line with its label, also into a loop, which goes on there |
| Gotos.ResolveChainsEquivalent | pkg/nolol/converter_gotos.go:78-112 | Redirecting gotos that lead to gotos, line after line and in place, with cyclic chains, leaves all behaviour unchanged |
| Gotos.ResolveGotoChains | pkg/nolol/converter_gotos.go:78-112 | The pass over the changing program computes that redirection |
| Gotos.ClearUnusedEquivalent | pkg/nolol/converter_gotos.go:53-75 | Clearing labels that no goto names leaves all behaviour unchanged |
| Gotos.RemoveUnusedLabels | pkg/nolol/converter_gotos.go:53-75 | Clears exactly the labels that no goto of the program names |
| Gotos.DedupEquivalent | pkg/nolol/converter_gotos.go:27-49 | Deleting a goto that directly follows a goto leaves all behaviour unchanged, although the flag survives the ends of lines and blocks |
| Gotos.RemoveDuplicateGotos | pkg/nolol/converter_gotos.go:27-49 | The visitor with its flag deletes those gotos and nothing else |
| Passes.DedupLeavesNoDoubles | pkg/nolol/converter_gotos.go:27-49 | Afterwards no goto comes directly behind a goto, neither in a line or block nor across lines |
| Passes.DedupKeepsOthers | pkg/nolol/converter_gotos.go:27-49 | Nothing but gotos is deleted |
| Passes.TargetIsMet | pkg/nolol/converter_gotos.go:79-99 | The goto that another goto meets is the one behind the first line with its label, past empty lines that may be extended |
| Passes.ChainsRedirected | pkg/nolol/converter_gotos.go:101-111 | Every goto is redirected once, to the target of the goto that it meets in the program as it is when its turn comes |
| Passes.LabelsCountLines | pkg/nolol/converter_gotos.go:115-143 | The lines that are left are those with statements or a `$`, and a label has the number of the first one at or behind it |
| Passes.CompiledHasNoDoubles | pkg/nolol/converter.go:124-127 | In the compiled program no goto comes directly behind a goto |
| Passes.CompiledIsMinimal | pkg/nolol/converter.go:117-122 | The compiled program has no more lines than any allowed way to divide the lines of its passes |
| Merging.MergeEquivalent | pkg/nolol/converter.go:298-347 | Packing lines leaves all behaviour unchanged, also when a line fails or jumps in the middle |
| Merging.MergeStatementElements | pkg/nolol/converter.go:298-347 | The two nested loops compute the greedy grouping, or report a line that is too long |
| Packing.MergeIsMinimal | pkg/nolol/converter.go:298-347 | If every single line fits, packing succeeds; and whenever it succeeds, no grouping that keeps the order and obeys the same constraints has fewer lines |
| Numbering.NumberingEquivalent | pkg/nolol/converter_gotos.go:115-169 | Dropping empty lines and replacing labels by numbers leaves all behaviour unchanged on the machine, if all numbers are at most 20 |
| Numbering.FindLabelsTable | pkg/nolol/converter_gotos.go:115-143 | Each label gets the number of the first surviving line at or after it, and the surviving lines are kept in order |
| Numbering.FindJumpLabels | pkg/nolol/converter_gotos.go:115-143 | The visitor builds that table while it deletes lines, or fails at a label that stands twice |
| Numbering.ReplaceGotoLabels | pkg/nolol/converter_gotos.go:146-169 | Every goto gets its line's number, or the pass fails exactly if some label does not exist |
| Labels.TextInjective | pkg/nolol/converter_loops.go:18-21 | No two labels that the compiler generates are the same text |
| Widths.AssembledLineFits | pkg/nolol/converter.go:171-176 | A line whose length is looked at while it is packed, in particular every one made of several, has fewer than 70 characters with its final line numbers and the counter |
| Lengths.CompiledLinesFit | pkg/nolol/converter.go:171-176 | Some line of the compiled program has 70 characters or more if and only if one of the lines that nobody looks at has, with its final line numbers and the counter: the last line, and lines that end in `$` |
| Lengths.LongWasTooLong | pkg/nolol/converter.go:314-329 | Such a line was too long before packing |
| Lengths.TooLongStaysLong | pkg/nolol/converter.go:314-329 | A line without gotos at one of these places that was too long before packing is too long in the end; with the counter, a space in front of its first statement can be saved |
| Lengths.LongLineConverted | pkg/nolol/converter.go:314-329 | A program whose only line sets a shared variable with a name of 70 characters is accepted, with a line of more than 70 characters |
| Grouping.GroupWithLine | pkg/nolol/converter.go:298-347 | Every line gets into a group that becomes one merged line, and a goto comes right before that line if and only if one comes right before the group |
| Grouping.MergedLine | pkg/nolol/converter.go:303-336 | A merged line has the label and the end mark of the first line of its group, and the statements of all its lines in their order |
| Lengths.ConvertedLinesFit | pkg/nolol/converter.go:91-169 | The same equivalence for the converted program with its counter |
| Widths.StandardIsSensible | pkg/nolol/converter.go:350-366 | The length of printed lines is what packing relies on: joining saves a character, and leaving statements out adds none |
| Widths.GetLengthOfLine | pkg/nolol/converter.go:350-366 | Printing a line and counting gives the length that the theorems speak of |
| LineCounter.TimeIsExecutedLines | pkg/nolol/converter_builtins.go:100-114 | After any number of steps of any renamed code with the counter, its value is the number of executed lines, across gotos, failing lines and new passes: no variable is renamed to it |
| LineCounter.CounterDoesNotDisturb | pkg/nolol/converter_builtins.go:100-114 | After any number of steps the counted program is where the other one is, with the same variables and writes apart from the counter's |
| LineCounter.InsertLineCounter | pkg/nolol/converter_builtins.go:100-114 | Puts the counting statement in front of every line and changes nothing else |
| NamesInBlocks.NamesExact | pkg/nolol/converter_definitions.go:31-75 | After any number of steps, a structured program with short names has the same variables and writes up to the names |
| NamesInBlocks.NamesInOrder | pkg/nolol/converter.go:181-184 | New names are given in the order of the visit: the compiler names the value of an assignment first, the optimizer the variable |
| Machines.VM.RunNext | pkg/vm/vm.go:414-464 | One round of the machine's loop is one step of the machine that the theorems speak of, with jumps, errors, the end of the program and the number of executed lines |
| Machines.VM.RunStatement | pkg/vm/vm.go:553-607 | Runs a statement: ends like its semantics says, with the line register set by a goto that is limited to 1 to 20 |
| Machines.VM.RunExpr | pkg/vm/vm.go:632-651 | Evaluates with its side effects, in order, also those before a failure |
| Machines.VM.RunDeref | pkg/vm/vm.go:653-699 | Reads a variable, and increments or decrements it before or after |
| Machines.VM.SetVariable | pkg/vm/vm.go:332-339 | Writes to the shared variables exactly for names that start with a colon, ignoring case |
| Machines.Coordinator.RegisterVM | pkg/vm/coordinator.go:89-97 | A new machine stands last in all three lists |
| Machines.Coordinator.Remove | pkg/vm/coordinator.go:100-105 | Removes one position from all three lists, closes that machine's channel and no other |
| Coordination.StepInv | pkg/vm/coordinator.go:107-131 | Every move of the coordinator or a machine keeps the protocol's invariant: the lists agree, at most one turn is given, and it is the one the coordinator waits for |
| Coordination.MutualExclusion | pkg/vm/coordinator.go:107-131 | At most one machine is in a line |
| Coordination.DoneBeforeClose | pkg/vm/vm.go:523-530 | A machine that was given a turn reports its end before it closes its channel: the coordinator never finds the channel closed there |
| Coordination.NeverStuck | pkg/vm/coordinator.go:107-131 | As long as the coordinator has not ended, somebody can move |
| Coordination.TurnComes | pkg/vm/coordinator.go:107-131 | Unless a program without lines repeats for ever, in every run the moves between two turns are bounded by a number that can be read off the state |
| Coordination.RunIsRoundRobin | pkg/vm/coordinator.go:107-131 | Every interleaving is a run of one sequential interpreter that runs whole lines in turn; its counts are the turns that were granted, so those of two machines differ by at most one plus the number of machines removed |
| Coordination.Deterministic | pkg/vm/coordinator.go:107-131 | All complete runs of the same programs end with the same shared and local variables |
| Scheduling.RunIsSteps | pkg/vm/vm.go:438-464 | Whatever a run of the coordinated machines does, a schedule of single steps of the virtual machine does, each on the machine's own program with its own variables and the shared ones; every machine stands in it as often as it was granted a turn, and between two lines its variables, the shared ones and its next line are where the schedule leads |
| Scheduling.OneMachine | pkg/vm/vm.go:414-464 | A single coordinated machine between two lines is where the virtual machine is after some number of steps |
| Scheduling.TurnIsStep | pkg/vm/coordinator.go:107-131 | Each turn of the sequential interpreter is one step of the virtual machine for the machine whose turn it is, and changes no other one |
| Coordination.RemovalSkips | pkg/vm/coordinator.go:108-121 | When a machine is removed, the one behind it in the list gets no turn for the rest of the round |
| Coordination.EmptyProgramBlocks | pkg/vm/vm.go:421-428 | If machine `e` has a program without lines that repeats for ever, the coordinator never ends, and in no run, however long, is a machine before it granted more than `e + 1` turns, one behind it more than `e`, or itself any: it is only passed when a machine before it is removed |
| Coordination.EmptyProgramSpins | pkg/vm/vm.go:421-428 | If it is the first machine, no machine ever gets a turn |
| RoundRobin.TurnsBalanced | pkg/vm/coordinator.go:107-131 | In the sequential interpreter the turns of live machines stay balanced, although a removal skips the next one |
| Optimizing.CompoundCorrect | pkg/optimizers/optimizer.go:36-50 | The optimized program has as many lines; after any number of lines it is where the original is, with the same shared variables, the same local ones under their short names and the same writes, and it fails in the same cases |
| Optimizing.Optimize | pkg/optimizers/optimizer.go:36-50 | The four passes over one program, which they change in place, compute that program |
| Optimizing.FoldsFirst | pkg/optimizers/optimizer.go:36-50 | Constants are folded before negations are rewritten: `y = not not 5` becomes an assignment of 1 |
| Folding.FoldEval | pkg/optimizers/static_expressions.go:46-110 | An expression with its constant parts evaluated has the same value, effects and failures |
| Folding.FoldsToConstant | pkg/optimizers/static_expressions.go:32-71 | An expression without variables becomes a constant, unless it fails |
| Folding.FoldLeavesNothing | pkg/optimizers/static_expressions.go:32-71 | No operator on constants that does not fail is left |
| Folding.FoldBinaryLeavesNothing | pkg/nolol/converter.go:225-233 | The compiler leaves no such binary operator |
| Inversion.InvertCondition | pkg/optimizers/expression_inversion.go:37-105 | Where only the truth value matters, rewriting keeps it, the failures, and the effects in their order |
| Inversion.InvertValue | pkg/optimizers/expression_inversion.go:37-105 | Where the value matters, rewriting keeps it if what is negated twice is 0 or 1 |
| Inversion.DoubleNegationValue | pkg/optimizers/expression_inversion.go:60-63 | `not not y` may be replaced by `y` where the value matters if and only if `y` is always 0 or 1 |
| Inversion.SafeIsFine | pkg/optimizers/expression_inversion.go:60-63 | It is enough that what is negated twice is a comparison, a negation, a conjunction or a disjunction |
| Inversion.DoubleNegationChangesNumber | pkg/optimizers/expression_inversion.go:60-63 | `not not 5` is 1 but the pass makes it 5 |
| Optimizing.DoubleNegationOptimized | pkg/optimizers/optimizer.go:36-50 | With all optimizers, where the constant would be folded first, `x = 5 y = not not x` sets `y` to 1 but is optimized to code that sets it to 5 |
| Inversion.PushDownLighter | pkg/optimizers/expression_inversion.go:37-68 | Every step of pushing a negation down lowers a weight, although it may add nodes: the rewriting ends |
| Inversion.InvertNormal | pkg/optimizers/expression_inversion.go:91-105 | Afterwards no comparison and no negation is negated, and no conjunction or disjunction has two negated operands |
| Inversion.InvertLeaves | pkg/optimizers/expression_inversion.go:91-105 | Variables and constants stay, in their order |
| Nodes.AcceptChild | pkg/parser/ast/visitor.go:232-248 | The visitor that replaces nodes of a linked tree and visits them again until nothing changes ends, keeps the tree well-formed, and yields the rewritten expression |
| Nodes.PushDownNots | pkg/optimizers/expression_inversion.go:37-68 | The change to the nodes in place is one step of pushing down |
| Nodes.BubbleUpNots | pkg/optimizers/expression_inversion.go:70-89 | The change in place pulls a negation out of both operands |
| Rewriting.ExactRun | pkg/parser/ast/visitor.go:170-213 | A rewriting of expressions that keeps values and conditions keeps what statements do |
| Naming.NumberOfName | pkg/optimizers/variable_names.go:73-91 | Decoding the name of a number gives the number: no name is given twice |
| Naming.NameOfNumber | pkg/optimizers/variable_names.go:73-91 | Every word of letters is the name of its number: no name is left out |
| Naming.NamesOrdered | pkg/optimizers/variable_names.go:73-91 | Names come by length, then by alphabet |
| Naming.VariableNameOptimizer.GetNextVarName | pkg/optimizers/variable_names.go:73-91 | The loop with its remainders computes the next name |
| Naming.VariableNameOptimizer.OptimizeVarName | pkg/optimizers/variable_names.go:35-48 | One call answers and changes both tables like the specification |
| Naming.RenamingSound | pkg/optimizers/variable_names.go:35-52 | Over any sequence of calls two local names get the same short name if and only if they are equal ignoring case, shared names stay and are no short names, and the reversal table leads back |
| Naming.GeneratedIsId | pkg/parser/ast/tokenizer.go:71-73 | A generated name can stand in a program if and only if it is no keyword |
| Naming.FirstNamesAreIds | pkg/optimizers/variable_names.go:73-91 | The first 239 names are identifiers |
| Naming.FewNamesAreIds | pkg/optimizers/variable_names.go:35-48 | With fewer than 240 local variables all short names are identifiers |
| Naming.KeywordGenerated | pkg/optimizers/variable_names.go:73-91 | Name number 240 is the keyword `if` |
| Renaming.RenamingExact | pkg/optimizers/variable_names.go:56-70 | After any number of lines the renamed program is where the original is, with the same variables under their short names, the same writes and the same failures |
| RoundTrip.PrintThenParse | pkg/parser/printer.go:211-257 | Printing an expression, lexing and parsing the text gives the expression back, up to the reading of negative numbers, if and only if no comparison is the left operand of a comparison |
| RoundTrip.PrintThenParseSame | pkg/parser/parser.go:417-597 | It gives exactly the same tree if and only if, besides, no number is negative |
| RoundTrip.PrintAndParse | pkg/parser/parser.go:417-634 | The printer, tokenizer and parser objects, one after another, do that |
| RoundTrip.LexPrinted | pkg/parser/printer.go:55-90 | Lexing the text of a printed expression gives exactly the intended tokens: where the printer leaves out a space, neighbours do not fuse |
| Printing.Printer.PrintExpression | pkg/parser/printer.go:211-257 | The printer with its memory of the last space appends the pieces of the expression, in either mode |
| Printing.Printer.PrintStatements | pkg/parser/printer.go:92-200 | The same for the statements of a line |
| Spelling.LexStatements | pkg/parser/printer.go:92-200 | Lexing the text of a printed line of statements gives exactly the tokens that were meant, with keywords, operators and blocks in their order |
| Spelling.PrintAndLex | pkg/parser/printer.go:92-200 | The printer and the tokenizer objects, one after the other, do that |
| Spelling.AssignIsOperator | pkg/parser/printer.go:128-135 | An assignment operator is printed as the operator the machine computes with, and an equals sign |
| Spelling.CompactIsSparing | pkg/parser/printer.go:69-74 | In the compact mode, spaces stand only next to words, increments and signs |
| Spelling.OperatorText | pkg/parser/printer.go:226-241 | The readable mode puts spaces around every operator between two variables, the compact one around words only |
| Parsing.Parser.ParseLogicExpression | pkg/parser/parser.go:423-447 | The parser's loops over its current token compute the grammar's parse function, and stop at the same token |
| Parsing.Parser.ParseSingleExpression | pkg/parser/parser.go:560-597 | The same for operands with their increments |
| Grammar.ParserIsGrammar | pkg/parser/parser.go:417-634 | The parser accepts exactly the token lists of the grammar, which is written down by itself with its four levels of operators, and yields its tree |
| Grammar.ParserStops | pkg/parser/parser.go:417-634 | In front of other tokens it stops where no expression can go on |
| Grammar.GrammarIsUnambiguous | pkg/parser/parser.go:417-634 | No list of tokens is two expressions |
| Brackets.LeftBracketsNeeded | pkg/parser/printer.go:211-257 | The left operand of an operation on variables is printed without brackets if and only if it is read back without them, apart from comparisons of comparisons |
| Brackets.RightBracketsNeeded | pkg/parser/printer.go:211-257 | The same for the right operand |
| Lexing.Tokenizer.Next | pkg/parser/ast/tokenizer.go:152-203 | Takes one token from the front of the remaining text, in the order of the attempts |
| Lexing.Tokenizer.GetStringConstant | pkg/parser/ast/tokenizer.go:274-309 | The loop over the characters reads a quoted string with its escapes, or reports that it does not end |
| Lexing.StringRoundTrip | pkg/parser/printer.go:204-209 | Escaping a string by three replacements and reading it in quotes gives the string back if and only if it has no backslash |
| Reading.ReadDecimal | pkg/parser/ast/tokenizer.go:311-318 | Digits, a dot and digits are one number token, whatever follows the last digit |
| Reading.ReadInteger | pkg/parser/ast/tokenizer.go:311-318 | Digits without decimals are one number token |
| Reading.NumbersAreDecimal | pkg/parser/ast/tokenizer.go:75-75 | A text is a whole number token if and only if it is digits, or digits, a dot and digits |
| Reading.NamesAreWords | pkg/parser/ast/tokenizer.go:71-73 | A text is a name if and only if it is a word of letters, digits and underscores that starts with a letter and is no keyword in any case, or a colon and such a word |
| Reading.ReadReserved | pkg/parser/ast/tokenizer.go:251-261 | A keyword is recognized in any mixture of cases, if the word ends there |
| Reading.ReadName | pkg/parser/ast/tokenizer.go:263-272 | A name that ends there is one identifier token |
| Reading.ReadComment | pkg/parser/ast/tokenizer.go:242-249 | Two slashes start a comment up to the end of the line |
| Reading.ReadBlanks | pkg/parser/ast/tokenizer.go:210-229 | Blanks are one token however many there are, a newline is one of its own |
| Reading.ReadPair | pkg/parser/ast/tokenizer.go:231-240 | Two characters that are a symbol together are never read as two |
| Reading.ReadSign | pkg/parser/ast/tokenizer.go:231-240 | A single character that is a symbol, and starts no pair and no comment, is read alone |
| Reading.ReadUnknown | pkg/parser/ast/tokenizer.go:152-203 | A character that can start no token is passed on alone |
| Reading.ReadOpenQuote | pkg/parser/ast/tokenizer.go:274-309 | So is a quote that is never closed |
| Reading.StringSteps | pkg/parser/ast/tokenizer.go:274-309 | What each character of a string constant contributes, with and without a backslash before it |
| Operations.LastIndex | pkg/vm/operations.go:62-198 | String subtraction removes the last occurrence: it occurs there, and nowhere later |
| Laws.AddLaws | pkg/vm/operations.go:83-88 | Adding is commutative and associative with unit 0, and subtracting undoes it |
| Laws.MulLaws | pkg/vm/operations.go:89-91 | Multiplying is commutative with unit 1 and distributes over adding |
| Laws.DivLaws | pkg/vm/operations.go:92-97 | Dividing fails exactly for 0, and undoes multiplying if the library's quotients do |
| Laws.RemainderLaws | pkg/vm/operations.go:98-103 | The operands of remainders and powers keep their order |
| Laws.RootLaws | pkg/vm/operations.go:32-56 | Taking a root is undone by squaring if the library's roots are |
| Laws.CompareLaws | pkg/vm/operations.go:104-145 | Comparisons yield 1 or 0; exactly one of less, equal and greater holds, the others are the negations, and x is less than x + 1 |
| Laws.LessIsTransitive | pkg/vm/operations.go:139-145 | Less is transitive |
| Laws.LogicLaws | pkg/vm/operations.go:146-159 | `and` and `or` count everything but 0 as true, and `not` is 1 exactly for 0 |
| Laws.SignLaws | pkg/vm/operations.go:18-31 | A number and its negation add up to 0, and the absolute value is one of them and not negative |
| Laws.StringLaws | pkg/vm/operations.go:164-198 | Adding strings joins them, subtracting takes the end off again, comparisons compare them, all other operators fail, and a number next to a string counts as its text |
| Laws.SubtractLast | pkg/vm/operations.go:169-176 | Subtracting takes out the last occurrence, and nothing if there is none |
| Laws.VariableLaws | pkg/vm/vm.go:320-339 | A variable keeps what was written to it last under any spelling of its name, other variables do not change, and unset ones are 0 |
| Laws.IncrementLaws | pkg/vm/vm.go:653-699 | `++x` and `--x` yield the new value, `x++` and `x--` the old one, and all of them write the new one |
| Laws.StringIncrementLaws | pkg/vm/vm.go:679-694 | Incrementing a string appends a space, decrementing takes its last character off, and fails for the empty one |
| Laws.OrderLaws | pkg/vm/vm.go:701-715 | The left operand is evaluated before the right one, and both are, whatever the operator |
| Laws.AssignLaws | pkg/vm/vm.go:609-630 | An assignment operator computes with the old value on the left |
| Laws.IfLaws | pkg/vm/vm.go:559-584 | The condition selects the block, strings fail, and negating it exchanges the blocks |
| Laws.GotoLaws | pkg/vm/vm.go:585-600 | A goto to a number goes to that line or the nearest of the 20, and nothing behind it is run |
| Laws.ResumedRun | pkg/vm/vm.go:437-453 | A machine that goes on after errors runs a program without gotos line by line to its end, each failing line up to its failure |
| Laws.StoppedRun | pkg/vm/vm.go:446-449 | Any other machine stops at the first error for good, with what was written before it |
| Laws.EndLaws | pkg/vm/vm.go:421-436 | Behind its last line, a program starts again or is over |
| WholeNumbers.WholeIsLawful | pkg/vm/operations.go:12-198 | Arithmetic on whole numbers meets the laws that theorems ask of the decimal library |
| Limits.InlineLeadsToEnd | pkg/nolol/converter_ifs.go:50-95 | The single line of a branch goes to the end of the `if` if and only if the block is not empty and packing it did not fail |
| Limits.LongBlockVanishes | pkg/nolol/converter_ifs.go:51-51 | A block whose first line is too long becomes an `if` that does nothing |
| Limits.EmptyBlockMiscompiled | pkg/nolol/converter_ifs.go:58-72 | A program with an empty block is accepted and compiled to code that behaves differently |
| Limits.LongBlockMiscompiled | pkg/nolol/converter_ifs.go:51-51 | A program with a block whose first line is too long is accepted and compiled to code that behaves differently |
| Limits.ClashMiscompiled | pkg/nolol/converter_gotos.go:78-112 | A program whose label is one of the compiler's is accepted and compiled to code that behaves differently |

## Findings

Where the code does not do what its purpose suggests, the model follows the code. Each of these has a concrete input and
the exact condition under which the promise holds.

* **Empty blocks.** An `if` block without elements gets no goto to the end of the `if`, so the `else` block runs as well
  (`pkg/nolol/converter_ifs.go:58-72`). `Limits.EmptyBlockMiscompiled` gives the program, `Limits.InlineLeadsToEnd` the
  condition.
* **Blocks that disappear.** `convertConditionInline` ignores the error of merging the block
  (`pkg/nolol/converter_ifs.go:51`). A block of several lines whose first one is too long is replaced by nothing, and no
  error is reported: `Limits.LongBlockVanishes`, `Limits.LongBlockMiscompiled`.
* **Labels like the compiler's.** A label `while1` of the user is also the label of the first loop. It is only reported if
  a goto still names it after chains are resolved (`pkg/nolol/converter_gotos.go:123-133`), as `Outcomes.ClashReported`
  says exactly. If the goto under it was redirected before, the loop silently jumps to the user's place:
  `Limits.ClashMiscompiled`.
* **A label behind line 20.** It gets number 21, and the machine goes to line 20 instead (`pkg/vm/vm.go:591-597`):
  `Overrun.Label21Miscompiled` gives the program, `Compiler.RangeIffEndReachable` the condition.
* **Keywords as names.** The generator of short names does not know the keywords
  (`pkg/optimizers/variable_names.go:73-91`); name 240 is `if`: `Naming.KeywordGenerated`, `Naming.GeneratedIsId`.
* **Comparisons of comparisons.** `(a<b)<c` is printed without brackets, and the parser does not accept that
  (`pkg/parser/printer.go:218`, `pkg/parser/parser.go:457-469`): `RoundTrip.PrintThenParse`.
* **Double negation** changes numbers other than 0 and 1 (`pkg/optimizers/expression_inversion.go:60-63`):
  `Inversion.DoubleNegationChangesNumber`, `Optimizing.DoubleNegationOptimized`, `Inversion.DoubleNegationValue`.
* **Strings with backslashes** are not escaped and come back differently (`pkg/parser/printer.go:204-209`):
  `Lexing.StringRoundTrip`.
* **Empty programs** that repeat for ever never ask for a turn, and the coordinator waits for them
  (`pkg/vm/vm.go:421-428`): `Coordination.EmptyProgramBlocks`; without them, `Coordination.TurnComes`.
* **Lines that are not checked.** The last line and lines that end in `$` may be longer than 70 characters
  (`pkg/nolol/converter.go:314-329`): `Lengths.LongLineConverted` gives a program, and `Lengths.CompiledLinesFit` shows
  that the length of these lines decides.

## Left out

- Compiler.CompilerCorrect: compares complete traces only on runs without errors, because the compiler moves statements
  to other lines and an error gives up the rest of a line; with errors, it states that both can fail or none can.
- Conversion.ConverterCorrect: programs that read the counter by `time()` are covered by Conversion.ConvertedTime alone,
  because the structured program has no lines to count.
- Coordination.TurnComes: for programs that have lines; the empty ones are the subject of Coordination.EmptyProgramSpins.
- Coordination.Deterministic: for runs in which nobody terminates a machine from outside; such a termination is a move
  of the protocol and keeps its invariant (Coordination.StepInv).
- RoundTrip.PrintThenParse: for expressions; statements are only read back as tokens (Spelling.LexStatements): a prefix increment after an identifier is ambiguous
  there (`pkg/parser/parser.go:622`), and an else block of several statements is built from the if block
  (`pkg/parser/parser.go:407`).
- Definitions, macros, includes, `wait`, and calls of functions other than the operators.
- The decimal library: quotients, remainders, powers, roots and angles, and how numbers are written.
- Pausing, stepping, breakpoints and handlers of the machine; repeat counts above one and limits on executed lines.
- The coordinator's goroutine is a transition system together with the machines; channels and locks are not objects of
  their own beyond being open or closed.
- Positions in the source, comments and debug output.
- The parser object reads its tokens from a list; the repository's parser pulls them from the tokenizer one at a time.
- Text is ASCII; lower case is that of ASCII letters.
- Labels are compared exactly, because the parser of NOLOL turns them into lower case (`pkg/nolol/parser.go:218`).
- Whether a program uses `time()` is a parameter.
- Command line, language server, debug adapter and editor extension.

# COBOL language server: copybook position tracking and compiler-directive lines

This project is a Dafny model of two parts of the COBOL parser of the COBOL language server, with proofs about them.

- **The semantic visitor** (`CobolVisitor`) walks the parse tree of a document and its copybooks.
  - It keeps a *document hierarchy*: a stack of levels, one per copybook scope that is open. Each level holds a queue of the original source positions not yet consumed in that scope.
  - Entering a copybook pushes a level seeded from the *token mapping* (scope name to its ordered positions). Leaving a copybook pops the level.
  - `retrievePosition` maps a node to its original position. It first searches the top queue forward for the node's start token, and on a hit drops the queue up to the match. On a miss it reverses, in place, the part of the mapping entry already consumed, and searches that.
  - On this machinery the visitor checks qualified data names (`X OF Q1 OF ... Qn`). It registers one usage per name and adds an info diagnostic for an undefined name and for every broken containment link.
  - It also adds a warning when a token looks like a misspelled keyword.
- **The compiler-directive line transformer** (`CobolCompilerDirectives`) walks the source lines from the top.
  - Every line of the leading run that matches the CBL/PROCESS statement pattern is rewritten in place. Its content area becomes the line without its comment area, rewritten. When that text holds a reachable keyword, the rewrite is `       CBL` followed by the text after the last such keyword. Otherwise the text is kept as it is.
  - The error previously registered for each rewritten line is withdrawn.
  - The walk stops at the first line that does not match.

Module layout:

- `wrappers.dfy`: `Option` and `Result`.
- `compiler_directives.dfy` (module `CompilerDirectives`):
  - the directive pattern written out as predicates;
  - the greedy keyword replacement;
  - `Normalize`, the function that specifies the loop;
  - the classes `PreprocessorListener` and `CobolCompilerDirectives`, whose method rewrites an `array` in place and is proved to produce `Normalize` of the old contents.
- `document_hierarchy.dfy` (module `DocumentHierarchy`): the hierarchy as values (`Tracker`) and each step as a function: `Initial`, `Enter`, `Exit` and `Retrieve`. It also holds the lemmas about those steps.
- `cobol_visitor.dfy` (module `Visitor`):
  - the class `CobolVisitor`, whose fields the methods update as the Java visitor does, each method proved to follow the step functions;
  - the qualified-name walk specified recursively (`Iterate`, `CheckForVariableSpec`), with its lemmas.

Behaviour of the code worth knowing, which the model keeps:

- **Repeated misses flip the search order.** The fallback search reverses the consumed prefix of the mapping entry itself, through `Collections.reverse` on a `subList` view. A first miss therefore searches the consumed positions newest first (`ReversedSearchFindsLast`). A miss directly after a miss in the same scope, with no hit in between, reverses them back: the mapping is restored, and that search runs oldest first (`RepeatedMissFlipsOrder`). A hit in between moves the queue, so a later miss reverses a prefix of a different length.
- **A miss in an unmapped copybook throws.** A copybook without a mapping entry gets an empty level. Every lookup in that level misses, and the fallback path then dereferences the missing entry: a `NullPointerException`. This is the only way a well-formed state fails (`RetrieveWellFormed`). The model returns it as `Err(NullPointerException)`. When the visitor is in a mapped scope (`Resolvable`), no lookup fails (`RetrieveResolvable`, `IterateCompletes`).
- **A keyword only in the comment area.** A line is matched on its whole text, comment area included. Its rewrite looks only at the text without the comment area. If that text holds no keyword, the rewrite leaves it as it is. The content area then receives the sequence, indicator and content areas. When that text is blank, each further rewrite of the line prepends the sequence and indicator areas once more (`CommentAreaDirective`, `BlankTextGrows`). Whether a further pass of the transformation reaches the line depends on whether the grown line still matches. For example, `000100` followed by a blank indicator and `CBL X` in the comment area no longer matches after one rewrite, because too many characters then follow the digit before the spaces. Lines whose keyword lies before the comment area are rewritten once and for all (`RewriteLineIdempotent`, `NormalizeIdempotent`).
- **Column limits of the directive are not checked.** The doc comment of `CobolCompilerDirectives.java` (lines 27-34) gives column limits for the statement: a sequence number in columns 1-6, the keyword from column 8, and an end by column 72. The pattern (line 42) checks none of them: a sequence number may run to seven characters, and the line length is not limited. The model follows the pattern.

## Model

| member | source | states |
|---|---|---|
| CompilerDirectives.IsDirectiveLineIff | com.ca.lsp.cobol/lsp-core-cobol-parser/src/main/java/com/ca/lsp/core/cobol/preprocessor/sub/line/transformer/CobolCompilerDirectives.java:41-42 | A line matches `(?i)(\d.{0,6} +|\s*)(CBL|PROCESS) .+` in full exactly when some split of it reads as a sequence-number or whitespace prefix, a keyword in any case, one space, and at least one more character with no line terminator. |
| CompilerDirectives.SequencedDirectiveExample | com.ca.lsp.cobol/lsp-core-cobol-parser/src/main/java/com/ca/lsp/core/cobol/preprocessor/sub/line/transformer/CobolCompilerDirectives.java:41-42 | `000100 CBL LIB` matches: a sequence number, then spaces, then the keyword. |
| CompilerDirectives.LowerCaseDirectiveExample | com.ca.lsp.cobol/lsp-core-cobol-parser/src/main/java/com/ca/lsp/core/cobol/preprocessor/sub/line/transformer/CobolCompilerDirectives.java:41-42 | `       process xref` matches: the keyword is compared without regard to case. |
| CompilerDirectives.StatementExample | com.ca.lsp.cobol/lsp-core-cobol-parser/src/main/java/com/ca/lsp/core/cobol/preprocessor/sub/line/transformer/CobolCompilerDirectives.java:41-42 | An ordinary statement (`       MOVE A TO B.`) does not match. |
| CompilerDirectives.BareKeywordExample | com.ca.lsp.cobol/lsp-core-cobol-parser/src/main/java/com/ca/lsp/core/cobol/preprocessor/sub/line/transformer/CobolCompilerDirectives.java:41-42 | A keyword with nothing after it (`       CBL`) does not match, because the pattern needs a space and one more character. |
| CompilerDirectives.LastKeyword | com.ca.lsp.cobol/lsp-core-cobol-parser/src/main/java/com/ca/lsp/core/cobol/preprocessor/sub/line/transformer/CobolCompilerDirectives.java:61 | The greedy `^.*(CBL|PROCESS)` match ends at the last keyword that starts before the first line terminator. No keyword after it is reachable, and None means no keyword is reachable at all. |
| CompilerDirectives.RewriteContentCanonical | com.ca.lsp.cobol/lsp-core-cobol-parser/src/main/java/com/ca/lsp/core/cobol/preprocessor/sub/line/transformer/CobolCompilerDirectives.java:60-61 | The rewritten content is seven spaces, `CBL`, then the text after the last reachable keyword. In it, the only reachable keyword is that `CBL` in column 8. |
| CompilerDirectives.RewriteContentIdempotent | com.ca.lsp.cobol/lsp-core-cobol-parser/src/main/java/com/ca/lsp/core/cobol/preprocessor/sub/line/transformer/CobolCompilerDirectives.java:60-61 | Rewriting rewritten content changes nothing. |
| CompilerDirectives.RewriteLineIdempotent | com.ca.lsp.cobol/lsp-core-cobol-parser/src/main/java/com/ca/lsp/core/cobol/preprocessor/sub/line/transformer/CobolCompilerDirectives.java:60-62 | For a line whose last reachable keyword lies before the comment area (and whose sequence and indicator areas hold no line terminator), rewriting the rewritten line changes nothing. |
| CompilerDirectives.RewriteContentAfterAreas | com.ca.lsp.cobol/lsp-core-cobol-parser/src/main/java/com/ca/lsp/core/cobol/preprocessor/sub/line/transformer/CobolCompilerDirectives.java:60-62 | Rewriting a text that has areas without line terminators in front of an already rewritten text gives the rewritten text back. |
| CompilerDirectives.BlankTextGrows | com.ca.lsp.cobol/lsp-core-cobol-parser/src/main/java/com/ca/lsp/core/cobol/preprocessor/sub/line/transformer/CobolCompilerDirectives.java:60-62 | A line whose text without the comment area is blank, with non-empty sequence and indicator areas, gets that text as its content area. A second rewrite makes the content area longer by those areas, so the line never reaches a fixed point. |
| CompilerDirectives.CommentAreaDirective | com.ca.lsp.cobol/lsp-core-cobol-parser/src/main/java/com/ca/lsp/core/cobol/preprocessor/sub/line/transformer/CobolCompilerDirectives.java:41-42 | A line with blank sequence, indicator and content areas and `CBL X` in its comment area matches the pattern. |
| CompilerDirectives.SequencedRewriteExample | com.ca.lsp.cobol/lsp-core-cobol-parser/src/main/java/com/ca/lsp/core/cobol/preprocessor/sub/line/transformer/CobolCompilerDirectives.java:61 | `000100 CBL LIB` becomes `       CBL LIB`. |
| CompilerDirectives.ProcessRewriteExample | com.ca.lsp.cobol/lsp-core-cobol-parser/src/main/java/com/ca/lsp/core/cobol/preprocessor/sub/line/transformer/CobolCompilerDirectives.java:61 | `       process xref` becomes `       CBL xref`. |
| CompilerDirectives.RunLength | com.ca.lsp.cobol/lsp-core-cobol-parser/src/main/java/com/ca/lsp/core/cobol/preprocessor/sub/line/transformer/CobolCompilerDirectives.java:56-66 | The length of the leading run. Every line before it matches, and the line at it (if any) does not. |
| CompilerDirectives.NormalizeSpec | com.ca.lsp.cobol/lsp-core-cobol-parser/src/main/java/com/ca/lsp/core/cobol/preprocessor/sub/line/transformer/CobolCompilerDirectives.java:56-66 | The loop rewrites every line of the leading run. It leaves every later line untouched, even one that matches. Only content areas change: the sequence, indicator and comment areas of every line are kept. |
| CompilerDirectives.NormalizeIdempotent | com.ca.lsp.cobol/lsp-core-cobol-parser/src/main/java/com/ca/lsp/core/cobol/preprocessor/sub/line/transformer/CobolCompilerDirectives.java:56-66 | When every line of the leading run has its keyword before the comment area, running the transformation on its own output changes nothing. |
| CompilerDirectives.LineNumbers | com.ca.lsp.cobol/lsp-core-cobol-parser/src/main/java/com/ca/lsp/core/cobol/preprocessor/sub/line/transformer/CobolCompilerDirectives.java:64 | The withdrawn line numbers are 1 to k, in increasing order. |
| CompilerDirectives.ExampleRunLength | com.ca.lsp.cobol/lsp-core-cobol-parser/src/main/java/com/ca/lsp/core/cobol/preprocessor/sub/line/transformer/CobolCompilerDirectives.java:56-66 | For the lines [directive, directive, MOVE, directive], the run stops at the third line. |
| CompilerDirectives.LeadingRunExample | com.ca.lsp.cobol/lsp-core-cobol-parser/src/main/java/com/ca/lsp/core/cobol/preprocessor/sub/line/transformer/CobolCompilerDirectives.java:56-66 | For the same lines, only the first two are rewritten, and their sequence and indicator areas are kept. The fourth is left as it is although it matches. |
| CompilerDirectives.WithdrawnErrorsExample | com.ca.lsp.cobol/lsp-core-cobol-parser/src/main/java/com/ca/lsp/core/cobol/preprocessor/sub/line/transformer/CobolCompilerDirectives.java:64 | For the same lines, the errors of lines 1 and 2 are withdrawn, and no others. |
| CompilerDirectives.PreprocessorListener.UnregisterError | com.ca.lsp.cobol/lsp-core-cobol-parser/src/main/java/com/ca/lsp/core/cobol/preprocessor/sub/line/transformer/CobolCompilerDirectives.java:64 | Each withdrawal appends the line number to the log. |
| CompilerDirectives.CobolCompilerDirectives.constructor | com.ca.lsp.cobol/lsp-core-cobol-parser/src/main/java/com/ca/lsp/core/cobol/preprocessor/sub/line/transformer/CobolCompilerDirectives.java:46-48 | The transformer keeps the listener it is given. |
| CompilerDirectives.CobolCompilerDirectives.TransformLines | com.ca.lsp.cobol/lsp-core-cobol-parser/src/main/java/com/ca/lsp/core/cobol/preprocessor/sub/line/transformer/CobolCompilerDirectives.java:50-53 | Returns the same array, normalised in place, and withdraws the errors of the leading run. |
| CompilerDirectives.CobolCompilerDirectives.RemoveLinesWithCompilerDirectives | com.ca.lsp.cobol/lsp-core-cobol-parser/src/main/java/com/ca/lsp/core/cobol/preprocessor/sub/line/transformer/CobolCompilerDirectives.java:55-68 | Returns the same array, with the same length. Its contents become `Normalize` of the old contents. The listener log gains exactly 1..RunLength, in order. |
| CompilerDirectives.RewriteAt | com.ca.lsp.cobol/lsp-core-cobol-parser/src/main/java/com/ca/lsp/core/cobol/preprocessor/sub/line/transformer/CobolCompilerDirectives.java:60-62 | Replaces only line i. The new line is the original with its content area set to the rewrite of the text without the comment area. |
| DocumentHierarchy.FirstMatch | com.ca.lsp.cobol/lsp-core-cobol-parser/src/main/java/com/ca/lsp/core/cobol/visitor/CobolVisitor.java:114-118 | The index found holds the token, and no earlier index does. None means no index holds it. |
| DocumentHierarchy.Reverse | com.ca.lsp.cobol/lsp-core-cobol-parser/src/main/java/com/ca/lsp/core/cobol/visitor/CobolVisitor.java:127 | Same length, with element i taken from position |s|-1-i. |
| DocumentHierarchy.ReverseReverse | com.ca.lsp.cobol/lsp-core-cobol-parser/src/main/java/com/ca/lsp/core/cobol/visitor/CobolVisitor.java:127 | Reversing twice gives the list back. |
| DocumentHierarchy.Exit | com.ca.lsp.cobol/lsp-core-cobol-parser/src/main/java/com/ca/lsp/core/cobol/visitor/CobolVisitor.java:103-105 | Pop fails with NoSuchElementException exactly on an empty stack. Otherwise it removes exactly one level and leaves the mapping alone. |
| DocumentHierarchy.InitialWellFormed | com.ca.lsp.cobol/lsp-core-cobol-parser/src/main/java/com/ca/lsp/core/cobol/visitor/CobolVisitor.java:54-61 | After construction the stack holds exactly one level (the document, seeded with its mapping entry), and the invariant holds. |
| DocumentHierarchy.EnterWellFormed | com.ca.lsp.cobol/lsp-core-cobol-parser/src/main/java/com/ca/lsp/core/cobol/visitor/CobolVisitor.java:64-89 | Pushing a copybook level, seeded with its entry or with nothing when unmapped, keeps the invariant. |
| DocumentHierarchy.ExitWellFormed | com.ca.lsp.cobol/lsp-core-cobol-parser/src/main/java/com/ca/lsp/core/cobol/visitor/CobolVisitor.java:103-105 | Popping a non-empty stack succeeds and keeps the invariant. |
| DocumentHierarchy.ExitAfterEnter | com.ca.lsp.cobol/lsp-core-cobol-parser/src/main/java/com/ca/lsp/core/cobol/visitor/CobolVisitor.java:78-105 | Exit undoes Enter exactly. |
| DocumentHierarchy.RetrieveWellFormed | com.ca.lsp.cobol/lsp-core-cobol-parser/src/main/java/com/ca/lsp/core/cobol/visitor/CobolVisitor.java:107-140 | In a well-formed state, retrieval fails only in an unmapped scope, and then with a NullPointerException. Otherwise it keeps the invariant and the mapping's keys and entry lengths. |
| DocumentHierarchy.RetrieveEmptyStack | com.ca.lsp.cobol/lsp-core-cobol-parser/src/main/java/com/ca/lsp/core/cobol/visitor/CobolVisitor.java:107-111 | With no level, the result is null and nothing changes. |
| DocumentHierarchy.RetrieveHit | com.ca.lsp.cobol/lsp-core-cobol-parser/src/main/java/com/ca/lsp/core/cobol/visitor/CobolVisitor.java:113-138 | A forward hit returns the first queued position with the token. The queue becomes exactly the entries after it, so it strictly shrinks. The mapping and the other levels do not change. |
| DocumentHierarchy.RetrieveMiss | com.ca.lsp.cobol/lsp-core-cobol-parser/src/main/java/com/ca/lsp/core/cobol/visitor/CobolVisitor.java:121-134 | A miss leaves the stack unchanged. It reverses, in place, the consumed prefix `mapping[name][..|mapping[name]|-|queue|]` and returns the first match in that reversed prefix. |
| DocumentHierarchy.ReversedSearchFindsLast | com.ca.lsp.cobol/lsp-core-cobol-parser/src/main/java/com/ca/lsp/core/cobol/visitor/CobolVisitor.java:123-133 | Searching the reversed prefix finds the last match of the prefix in consumption order, and finds one exactly when the prefix holds one. |
| DocumentHierarchy.RetrieveKeepsSuffix | com.ca.lsp.cobol/lsp-core-cobol-parser/src/main/java/com/ca/lsp/core/cobol/visitor/CobolVisitor.java:107-140 | If the top queue is a suffix of its mapping entry, it still is after a retrieval. |
| DocumentHierarchy.RepeatedMissFlipsOrder | com.ca.lsp.cobol/lsp-core-cobol-parser/src/main/java/com/ca/lsp/core/cobol/visitor/CobolVisitor.java:121-134 | A miss directly after a miss on the same scope, with no hit in between, reverses the prefix back, restoring the state before the first miss. That second search therefore runs over the prefix oldest first. |
| DocumentHierarchy.RetrieveLeavesLowerLevels | com.ca.lsp.cobol/lsp-core-cobol-parser/src/main/java/com/ca/lsp/core/cobol/visitor/CobolVisitor.java:107-140 | Retrieval keeps the stack height, the levels below the top, and the top level's name. |
| DocumentHierarchy.RetrieveEach | com.ca.lsp.cobol/lsp-core-cobol-parser/src/main/java/com/ca/lsp/core/cobol/visitor/CobolVisitor.java:107-140 | Any number of successful retrievals keep the stack height and every level below the top. |
| DocumentHierarchy.BalancedScopeResumes | com.ca.lsp.cobol/lsp-core-cobol-parser/src/main/java/com/ca/lsp/core/cobol/visitor/CobolVisitor.java:78-140 | Enter a copybook, retrieve any tokens, then exit: the enclosing stack is exactly as it was, so the outer scope resumes where it stopped. |
| DocumentHierarchy.ForwardResolutionExample | com.ca.lsp.cobol/lsp-core-cobol-parser/src/main/java/com/ca/lsp/core/cobol/visitor/CobolVisitor.java:113-138 | For the queue [A(1,5), B(1,10), A(2,3)], two lookups of A return (1,5) and then (2,3). |
| Visitor.UpperIdempotent | com.ca.lsp.cobol/lsp-core-cobol-parser/src/main/java/com/ca/lsp/core/cobol/visitor/CobolVisitor.java:294-296 | Upper-casing an upper-cased name again changes nothing. So the usage name is the checked name. |
| Visitor.Warning | com.ca.lsp.cobol/lsp-core-cobol-parser/src/main/java/com/ca/lsp/core/cobol/visitor/CobolVisitor.java:307-328 | A warning exists exactly when the distance computation proposes a word for the upper-cased token. It has severity 2, names that word, and is located in the visited document (not the copybook) at the token's line and columns. |
| Visitor.IndexOf | com.ca.lsp.cobol/lsp-core-cobol-parser/src/main/java/com/ca/lsp/core/cobol/visitor/CobolVisitor.java:120 | Returns the first index of an equal element, or -1 for null or for an element that is absent. |
| Visitor.IndexOfFirstMatch | com.ca.lsp.cobol/lsp-core-cobol-parser/src/main/java/com/ca/lsp/core/cobol/visitor/CobolVisitor.java:114-120 | `indexOf` of the position `findFirst` returned is the index where the search stopped, and -1 on a miss. |
| Visitor.RetrieveResolvable | com.ca.lsp.cobol/lsp-core-cobol-parser/src/main/java/com/ca/lsp/core/cobol/visitor/CobolVisitor.java:107-140 | With no level or a mapped top scope, retrieval never throws, and the state stays that way. |
| Visitor.IterateUsages | com.ca.lsp.cobol/lsp-core-cobol-parser/src/main/java/com/ca/lsp/core/cobol/visitor/CobolVisitor.java:269-280 | A chain walked without an exception registers one usage per qualifier, named after the qualifier, in chain order. |
| Visitor.IterateDiagnosticsAtName | com.ca.lsp.cobol/lsp-core-cobol-parser/src/main/java/com/ca/lsp/core/cobol/visitor/CobolVisitor.java:269-292 | The error list only grows. Every diagnostic the chain adds has info severity and the position of the referenced name, never a qualifier's. |
| Visitor.IterateDiagnostics | com.ca.lsp.cobol/lsp-core-cobol-parser/src/main/java/com/ca/lsp/core/cobol/visitor/CobolVisitor.java:269-292 | A chain walked to its end adds one diagnostic per link whose parent does not contain the name before it, naming that name. |
| Visitor.IterateCompletes | com.ca.lsp.cobol/lsp-core-cobol-parser/src/main/java/com/ca/lsp/core/cobol/visitor/CobolVisitor.java:269-280 | With no level or a mapped top scope, the loop never stops early. |
| Visitor.CheckForVariableSummary | com.ca.lsp.cobol/lsp-core-cobol-parser/src/main/java/com/ca/lsp/core/cobol/visitor/CobolVisitor.java:257-280 | For `X OF Q1 ... OF Qn` with no level or a mapped top scope: no exception, usages X, Q1, ..., Qn in order, and diagnostics for an undefined X plus one per broken link, all at X's position. |
| Visitor.QualifiedReferenceExample | com.ca.lsp.cobol/lsp-core-cobol-parser/src/main/java/com/ca/lsp/core/cobol/visitor/CobolVisitor.java:250-292 | For `X OF Y OF Z` with X undefined, Y not containing X and Z containing Y: usages X, Y, Z, and two diagnostics, both at X. |
| Visitor.CobolVisitor.constructor | com.ca.lsp.cobol/lsp-core-cobol-parser/src/main/java/com/ca/lsp/core/cobol/visitor/CobolVisitor.java:54-61 | One level, named after the document and seeded with a copy of its mapping entry. No diagnostics, no usages. |
| Visitor.CobolVisitor.EnterCpy | com.ca.lsp.cobol/lsp-core-cobol-parser/src/main/java/com/ca/lsp/core/cobol/visitor/CobolVisitor.java:64-89 | Pushes exactly one level, seeded from the mapping or empty when unmapped. Nothing else changes. |
| Visitor.CobolVisitor.MoveToPreviousLevel | com.ca.lsp.cobol/lsp-core-cobol-parser/src/main/java/com/ca/lsp/core/cobol/visitor/CobolVisitor.java:92-105 | Pops exactly one level, or throws NoSuchElementException on an empty stack and changes nothing. |
| Visitor.CobolVisitor.RetrievePosition | com.ca.lsp.cobol/lsp-core-cobol-parser/src/main/java/com/ca/lsp/core/cobol/visitor/CobolVisitor.java:107-140 | The result and the new stack and mapping are those of `Retrieve`. A throw changes nothing. |
| Visitor.CobolVisitor.ReportVariableNotDefined | com.ca.lsp.cobol/lsp-core-cobol-parser/src/main/java/com/ca/lsp/core/cobol/visitor/CobolVisitor.java:298-305 | Appends one info-level "Invalid definition for" diagnostic at the given position. |
| Visitor.CobolVisitor.AddUsage | com.ca.lsp.cobol/lsp-core-cobol-parser/src/main/java/com/ca/lsp/core/cobol/visitor/CobolVisitor.java:294-296 | Appends one usage under the upper-cased name. |
| Visitor.CobolVisitor.CheckVariableStructure | com.ca.lsp.cobol/lsp-core-cobol-parser/src/main/java/com/ca/lsp/core/cobol/visitor/CobolVisitor.java:288-292 | Reports the child exactly when the parent does not contain it. |
| Visitor.CobolVisitor.IterateOverQualifiedDataNames | com.ca.lsp.cobol/lsp-core-cobol-parser/src/main/java/com/ca/lsp/core/cobol/visitor/CobolVisitor.java:269-280 | The loop's final state and exception are those of `Iterate`. |
| Visitor.CobolVisitor.CheckForVariable | com.ca.lsp.cobol/lsp-core-cobol-parser/src/main/java/com/ca/lsp/core/cobol/visitor/CobolVisitor.java:257-267 | The final state and exception are those of `CheckForVariableSpec`. |
| Visitor.CobolVisitor.VisitQualifiedDataNameFormat1 | com.ca.lsp.cobol/lsp-core-cobol-parser/src/main/java/com/ca/lsp/core/cobol/visitor/CobolVisitor.java:250-255 | Checks the upper-cased data name when there is one. Otherwise nothing changes. |
| Visitor.CobolVisitor.GetSemanticError | com.ca.lsp.cobol/lsp-core-cobol-parser/src/main/java/com/ca/lsp/core/cobol/visitor/CobolVisitor.java:314-328 | Appends the misspelled-keyword warning for the given word. |
| Visitor.CobolVisitor.ThrowWarning | com.ca.lsp.cobol/lsp-core-cobol-parser/src/main/java/com/ca/lsp/core/cobol/visitor/CobolVisitor.java:307-312 | Appends exactly the warning `Warning` gives: one, or none. |
| Visitor.CobolVisitor.VisitMisspellingCandidate | com.ca.lsp.cobol/lsp-core-cobol-parser/src/main/java/com/ca/lsp/core/cobol/visitor/CobolVisitor.java:142-196 | Each of the eight misspelling visits checks the start token of its node, and changes nothing but the error list. |

## Left out

- The test harness (`UseCaseUtils`) is left out: it is dependency injection, a mock copybook service and asynchronous polling.
- The `CobolLineReWriter` interface is left out: it has no behaviour. Its promise that lines are neither added, removed nor reordered appears here as the length and index-wise contracts of `Normalize` and `RemoveLinesWithCompilerDirectives`.
- The semantic context (`SemanticContext`, its variables and copybooks) is not part of this model.
  - "Is this name defined" and "does this parent contain this child" are parameters (`defined`, `contains`).
  - Registered usages are a list of `Usage` records.
  - The copybook merge in the constructor is not modelled.
- The keyword distance computation (`MisspelledKeywordDistance`) is not part of this model. It is a parameter from the upper-cased token to an optional keyword.
- The ANTLR machinery is left out: visitor dispatch, `visitChildren`, and the contexts and tokens. Nodes are records holding their text and start token, and the copybook name read from `IDENTIFIER` or the second child is an input.
- The paragraph-name, paragraph-name-usage and data-description-entry (formats 1 to 3, with `defineVariable`) visits (`CobolVisitor.java` lines 198-247) are not part of this model. They call `retrievePosition`, which is modelled, and then `define` or `addUsage` on the semantic context.
- `Visitor.Upper`: `toUpperCase` is modelled on US-ASCII letters only, without locale or Unicode case mapping.
- `DocumentHierarchy.Matches`: a queued position whose token is null would make the Java filter throw a `NullPointerException`. The model treats it as a non-match.
- `Visitor.IndexOf`: `Position` equality is taken to be structural, so `indexOf` finds the first equal element.
- `Visitor.VisitQualifiedDataNameFormat1`: the null check on the qualifier list is not modelled, because a sequence is never null.
- `CompilerDirectives.CobolLine`: the class `CobolLine` is not part of this model. A line is its four areas as strings: sequence, indicator, content and comment. `toString` is their concatenation, and `serializeWithoutCommentArea` is the first three. Column positions and widths of the areas are not modelled.
- `CompilerDirectives.CopyWithContentArea`: `copyCobolLineWithContentArea` is not part of this model. It is taken to replace the content area with the given string and to keep the sequence, indicator and comment areas, as its name says. `RewriteLineIdempotent` and `NormalizeIdempotent` depend on this reading.
- `CompilerDirectives.PreprocessorListener`: the listener is reduced to the list of line numbers whose errors were withdrawn.
- `CompilerDirectives.IsDirectiveLine`: only the one directive pattern and the one greedy replacement are written out, not a regular-expression engine. Case folding under `(?i)` is US-ASCII, as in Java without `UNICODE_CASE`.
- `Visitor.CobolVisitor.constructor`: requires the document's URI to be in the token mapping. The Java constructor throws a `NullPointerException` when it is not, and that path is not modelled.
- `Visitor.GetWrongTokenStopPosition`: the model does not capture Java `int` overflow of the column arithmetic; integers are unbounded here. The length of a token is its number of Unicode scalar values, where Java's `String.length()` counts UTF-16 code units. So for a token with a character outside the Basic Multilingual Plane, the modelled end column is smaller than Java's. The same holds for the span clause of `Visitor.Warning`.
- `DocumentHierarchy.Retrieve`: with a queue longer than its mapping entry, `subList(0, negative)` fails. The model returns `Err(IllegalArgumentException)`, which the ArrayList implementation throws. No well-formed state reaches this case.


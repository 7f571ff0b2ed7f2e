# ConvertJsStubsToTs in Dafny

A model of `ConvertJsStubsToTs.py`. The script reads the JavaScript stub files
of the Bitwig Studio controller API and writes one TypeScript declaration file,
`BitwigControllerApi.d.ts`. Each stub file describes one API class:
- documentation blocks `/** … */` with `@param {T} name` and `@return {T} …` annotations;
- a constructor function `function Name(…)`;
- member declarations `Name.prototype.member = function (a, b) {`;
- optionally an inheritance line `Name.prototype = new Parent();`.

The script writes a fixed header and then, for every file that named a class,
an `interface Name extends Parent { … }` block with one signature per member.
The types in these signatures are coerced from Java-style names to TypeScript
ones (`int` → `number`, `function` → `() => void`, …). Two override tables can
hide a parameter, replace a parameter's text, or replace a member's whole
parameter list.

The model follows the script's structure, one module per concept:

- `Common`: `Option`, `Result` and Python truthiness of an optional string.
- `Tokenize`: the string primitives the script relies on:
  - `str.strip`, over Python's exact whitespace set;
  - `str.startswith`;
  - `re.split` on a character alternation, keeping empty pieces, plus the
    "drop blank pieces" filter;
  - `re.split(r'\W+', …)`;
  - `re.sub('[\{\}]', '', …)`;
  - the comma-separated writing loops.
- `Types`: the fixed type coercion. It is one table, and both hand-written
  copies in the source (`Parameter.type`, `Comment.get_return_type`) are
  proved equal to it.
- `Settings`: the two output switches and the two override tables, as the
  parameter `Config`.
- `Files`: the result file, as the text written to it so far (a class with
  `Write`).
- `Comments`: the `Comment` accumulator. It is a class with the source's
  three fields, plus its value `CommentValue`.
- `Methods`: `Parameter` and `Method` as classes. Their specification is
  functions on values: `MethodSpec` is what `Method.__init__` builds, and
  `RenderMethod` is what `Method.render` writes.
- `Scanner`: the loop of `ClassParser.__init__`, written as a fold `ScanLines`
  of a step function `Step` over the lines. `Step` is the source's two `if`
  chains, `CommentStep` and `DeclarationStep`. Where the source dereferences a
  `current_comment` that is still `None`, the fold yields `Err(NoComment)`.
  The scan does not depend on the settings: it records each member as the
  declaration it is built from, and the settings apply only when `Members`
  builds the member values.
  The lemmas cover:
  - the invariant the loop keeps;
  - what each line shape does: documentation blocks, annotations, `function`
    lines, member lines, inheritance lines;
  - failure being final.
- `ClassParsers`: the imperative `ClassParser`. `Parse` runs the loop over
  real `Comment`, `Parameter` and `Method` objects and is proved to agree with
  `ScanLines`. `Render` writes an interface and is proved to write
  `RenderClass`.
- `Convert`: the `head` constant and the whole run. `Run` parses every stub
  file and then writes the header and every class. It is proved to produce
  `ConvertFiles`, and to leave the result file empty when a file fails.

Quirks of the script that the model keeps, and proves where a lemma names them:

- A line opening a block, even a one-line block `/** … */`, leaves the scanner
  inside the block until a later line starts with `*/` (`OpenStep`).
- `* @return {T}` with nothing after the type has only two tokens, so it is
  ignored (`BareReturnIgnored`).
- Member and inheritance lines are matched on the unstripped line, so
  indented declarations are not seen (`IndentedDeclarationIgnored`).
- A class whose name begins with `var` or `function` has its member lines
  taken for those keywords (`MemberLineDeclares` excludes such names).
- A second `function` line renames the class (`FunctionLineNamesClass`).
- The constructor declaration is built and then dropped, so it never becomes
  a member (`NoConstructorMember`).

## Model

| member | source | states |
|---|---|---|
| `Types.Coerce` | ConvertJsStubsToTs.py:209-217 | reference definition: `function` becomes `() => void`, `byte[]` becomes `number[]`, `int`, `double`, `long` and `byte` become `number`; every other type, and a missing one, is unchanged (the chain at 289-296 is the same table) |
| `Types.CoerceIdempotent` | ConvertJsStubsToTs.py:209-217 | coercing a coerced type changes nothing: no coerced type is itself rewritten |
| `Types.CoerceKeepsTruthiness` | ConvertJsStubsToTs.py:266 | coercion keeps a type absent, present, empty or non-empty exactly as it was, so whether a parameter renders with `: type` does not depend on coercion |
| `Tokenize.Strip` | ConvertJsStubsToTs.py:327 | reference definition of `str.strip()`: the leading and then the trailing characters of Python's whitespace set are dropped |
| `Tokenize.SplitOn` | ConvertJsStubsToTs.py:337 | reference definition of `re.split` on a one-character alternation: the text is cut at every separator and empty pieces are kept, so the result always has one piece more than there are separators |
| `Tokenize.NonBlank` | ConvertJsStubsToTs.py:337 | reference definition of the filter `if len(s.strip()) > 0`: the non-blank pieces, in order |
| `Tokenize.Tokens` | ConvertJsStubsToTs.py:357 | reference definition of both list comprehensions over a split: the separator split followed by the blank filter |
| `Tokenize.WordRuns` | ConvertJsStubsToTs.py:349 | reference definition of `re.split('\W+', sline)` with ASCII word characters: the pieces between maximal runs of non-word characters, with an empty first or last piece when the text starts or ends with such a run |
| `Tokenize.RemoveBraces` | ConvertJsStubsToTs.py:287 | reference definition of `re.sub('[\{\}]', '', t)`: every character but `{` and `}`, in order |
| `Tokenize.Join` | ConvertJsStubsToTs.py:265-271 | reference definition of the text a writing loop produces: the items with the separator between neighbours and none at either end |
| `Tokenize.StripLeftSuffix` | ConvertJsStubsToTs.py:327 | left stripping keeps the suffix of the line from its first non-whitespace character and drops only whitespace |
| `Tokenize.StripRightPrefix` | ConvertJsStubsToTs.py:327 | right stripping keeps the prefix up to the last non-whitespace character and drops only whitespace |
| `Tokenize.StripEnds` | ConvertJsStubsToTs.py:327 | a stripped line is no longer than the line and neither starts nor ends with whitespace |
| `Tokenize.StripEmpty` | ConvertJsStubsToTs.py:337 | a piece strips to the empty string exactly when it is all whitespace, so `len(s.strip()) > 0` keeps exactly the non-blank pieces |
| `Tokenize.StripTrimmed` | ConvertJsStubsToTs.py:327 | a string without whitespace at either end is left unchanged by strip |
| `Tokenize.StripIdempotent` | ConvertJsStubsToTs.py:327 | stripping twice is stripping once |
| `Tokenize.StripLineBreak` | ConvertJsStubsToTs.py:401 | a line as `readlines` returns it strips to its text when the text has no whitespace at either end |
| `Tokenize.SplitOnPieces` | ConvertJsStubsToTs.py:337 | no piece of the separator split contains a separator |
| `Tokenize.SplitOnSeparator` | ConvertJsStubsToTs.py:357 | a separator occurrence cuts the split in two: the pieces of the left part followed by those of the right part |
| `Tokenize.SplitOnNoSeparator` | ConvertJsStubsToTs.py:357 | text without separators is a single piece |
| `Tokenize.SplitOnLosesOnlySeparators` | ConvertJsStubsToTs.py:337 | the pieces, concatenated, are the text with only the separators removed |
| `Tokenize.RemoveDrops` | ConvertJsStubsToTs.py:287 | brace removal leaves no brace |
| `Tokenize.RemoveNothing` | ConvertJsStubsToTs.py:299 | brace removal leaves a brace-free type unchanged |
| `Tokenize.NonBlankKeeps` | ConvertJsStubsToTs.py:357 | the blank filter keeps only pieces of the input, and none of them blank |
| `Tokenize.NonBlankAppend` | ConvertJsStubsToTs.py:357 | the blank filter distributes over concatenation, so it keeps order |
| `Tokenize.TokensShape` | ConvertJsStubsToTs.py:357 | every token of a line is non-blank and free of separators |
| `Tokenize.TokensSeparator` | ConvertJsStubsToTs.py:357 | the tokens of `a`, a separator, then `b` are the tokens of `a` followed by those of `b` |
| `Tokenize.TokensWord` | ConvertJsStubsToTs.py:357 | separator-free text is one token, or none when it is blank |
| `Tokenize.TokensJoin` | ConvertJsStubsToTs.py:357 | an argument list written with `, ` splits back into exactly its arguments |
| `Tokenize.WordRunsShape` | ConvertJsStubsToTs.py:349 | every piece of the `\W+` split is a run of word characters, and there is more than one piece exactly when the line holds a non-word character |
| `Tokenize.WordRunsAfterWord` | ConvertJsStubsToTs.py:349 | a leading word followed by a non-word run is the first piece, and the split continues after that run |
| `Tokenize.JoinPrefixComplete` | ConvertJsStubsToTs.py:265-271 | writing each item followed by the separator unless it is the last produces the items joined by the separator |
| `Comments.WithLine` | ConvertJsStubsToTs.py:306-307 | reference definition of `add_line` on the block value: the line appended, the types unchanged |
| `Comments.WithReturnType` | ConvertJsStubsToTs.py:286-287 | reference definition of `set_return_type` on the block value: the brace-free type becomes the return type, the rest unchanged |
| `Comments.WithParamType` | ConvertJsStubsToTs.py:298-299 | reference definition of `register_type` on the block value: the brace-free type is stored under the parameter name, replacing an earlier entry, the rest unchanged |
| `Comments.LookupType` | ConvertJsStubsToTs.py:301-304 | `get_type` is `None` exactly when the name was never registered, else the registered type |
| `Comments.RegisterThenLookup` | ConvertJsStubsToTs.py:298-304 | after `register_type`, the name maps to the brace-free type; a later registration replaces an earlier one; other names are unaffected |
| `Comments.BraceFreeKept` | ConvertJsStubsToTs.py:286-307 | adding lines and setting types keep every stored type free of braces |
| `Comments.Comment.constructor` | ConvertJsStubsToTs.py:281-284 | a new block has no return type, no parameter types and no lines |
| `Comments.Comment.SetReturnType` | ConvertJsStubsToTs.py:286-287 | `set_return_type` stores the type with its braces removed and changes nothing else |
| `Comments.Comment.GetReturnType` | ConvertJsStubsToTs.py:289-296 | the comparison chain of `get_return_type` is the coercion table applied to the stored return type |
| `Comments.Comment.RegisterType` | ConvertJsStubsToTs.py:298-299 | `register_type` stores the brace-free type under the parameter's name and changes nothing else |
| `Comments.Comment.GetType` | ConvertJsStubsToTs.py:301-304 | `get_type` is the lookup of the block's value |
| `Comments.Comment.AddLine` | ConvertJsStubsToTs.py:306-307 | `add_line` appends one line and keeps the types |
| `Comments.Comment.GetComments` | ConvertJsStubsToTs.py:309-310 | a plain read of the lines field: `get_comments` yields the block's lines, which `AddLine` keeps in the order they were added |
| `Files.OutputFile.constructor` | ConvertJsStubsToTs.py:187 | opening the result file for writing leaves it empty |
| `Files.OutputFile.Write` | ConvertJsStubsToTs.py:408 | a write appends its text to the file |
| `Methods.Documented` | ConvertJsStubsToTs.py:193-195 | reference definition of `Parameter(name, comment)`: the name with the type the block registered for it, or none |
| `Methods.ParamFor` | ConvertJsStubsToTs.py:234-242 | reference definition of one round of the ordinary loop: with types on and a `parameterPaths` entry, nothing for `-1` or the literal alone, untyped; otherwise the documented parameter |
| `Methods.MethodParams` | ConvertJsStubsToTs.py:232-242 | reference definition of the ordinary loop: `ParamFor` of each argument, in order, concatenated |
| `Methods.ConstructorParams` | ConvertJsStubsToTs.py:228-231 | reference definition of the constructor loop: one documented parameter per argument, in order; its contract states that there are as many parameters as arguments |
| `Methods.MethodSpec` | ConvertJsStubsToTs.py:221-242 | reference definition of `Method.__init__`: named by token 2, with the block's coerced return type and lines; `ConstructorParams` of tokens 3 onwards when the name is `constructor`, else `MethodParams` of tokens 4 onwards |
| `Methods.ConstructorArgument` | ConvertJsStubsToTs.py:249-252 | reference definition of `constr_param` on a member value: the first parameter's name of a constructor with parameters, else `None` |
| `Methods.ConstructorParamsAt` | ConvertJsStubsToTs.py:230-231 | the k-th constructor parameter is the k-th argument with the type its block documents |
| `Methods.MethodParamsSnoc` | ConvertJsStubsToTs.py:233-242 | unfolding of `MethodParams` at its last argument, used by `Methods.OrdinaryParameters`: one more argument adds `ParamFor` of it |
| `Methods.MethodParamsAppend` | ConvertJsStubsToTs.py:233-242 | the parameter list of concatenated argument lists is the concatenation of their lists |
| `Methods.MethodParamsPlain` | ConvertJsStubsToTs.py:236-242 | with types off, or with no argument in the table, an ordinary member keeps every argument with its documented type, as a constructor does |
| `Methods.SuppressedArgumentOmitted` | ConvertJsStubsToTs.py:236-240 | an argument the table maps to `-1` vanishes: the list equals the list built without that argument |
| `Methods.LiteralArgumentRendered` | ConvertJsStubsToTs.py:236-240 | an argument the table replaces stands in its place as the literal alone, untyped, and renders as exactly that literal |
| `Methods.ConstructorArgumentIsToken3` | ConvertJsStubsToTs.py:249-252 | `constr_param` is token 3 of a constructor declaration that has one, and `None` otherwise |
| `Methods.UntypedSignature` | ConvertJsStubsToTs.py:254-278 | with types off a member renders as its comment, the bare names joined by `, ` and `)`, whatever the types and tables say |
| `Methods.FunctionPathReplacesList` | ConvertJsStubsToTs.py:261-263 | a `functionPaths` entry (types on) replaces the whole parameter list, so the parameters no longer affect the output |
| `Methods.DocumentedIntParameter` | ConvertJsStubsToTs.py:221-278 | with types on and comments off, no `parameterPaths` entry for `x` and no `functionPaths` entry for `m`, and a block value in which `x` looks up to `int` and that has no return type, the member built from the tokens `C prototype m function x` renders as `m(x : number) : void` (that an `* @param {int} x` line registers `int` for `x` is `Scanner.ParamAnnotation`) |
| `Methods.Parameter.constructor` | ConvertJsStubsToTs.py:193-195 | a new parameter takes the type its block registered for its name, or none |
| `Methods.Parameter.Overwrite` | ConvertJsStubsToTs.py:197-199 | `overwrite` makes the literal the name and drops the type |
| `Methods.Parameter.Type` | ConvertJsStubsToTs.py:209-217 | the comparison chain of `Parameter.type` is the coercion table applied to the stored type |
| `Methods.ConstructorParameters` | ConvertJsStubsToTs.py:228-231 | the constructor loop builds exactly the documented parameters of tokens 3 onwards, in order |
| `Methods.AppendParameter` | ConvertJsStubsToTs.py:234-242 | one round of the ordinary loop appends what the override table says for that argument |
| `Methods.OrdinaryParameters` | ConvertJsStubsToTs.py:232-242 | the ordinary loop builds exactly the override-filtered parameters of tokens 4 onwards, in order |
| `Methods.RenderParam` | ConvertJsStubsToTs.py:266-269 | reference definition of one parameter's text: `name : type` when types are on and the coerced type is non-empty, the bare name otherwise |
| `Methods.ParamList` | ConvertJsStubsToTs.py:261-271 | reference definition of the text inside the parentheses: the `functionPaths` entry when types are on and the member has one, else the rendered parameters joined by `, ` |
| `Methods.ReturnSuffix` | ConvertJsStubsToTs.py:272-278 | reference definition of the closing text: `) : T` for a non-empty return type, `) : void` otherwise, and `)` with types off |
| `Methods.CommentText` | ConvertJsStubsToTs.py:256-258 | reference definition of the comment loop's text: each line after the indent and followed by a line break |
| `Methods.Signature` | ConvertJsStubsToTs.py:260-278 | reference definition of the signature: five spaces, the name, `(`, `ParamList` and `ReturnSuffix` |
| `Methods.RenderMethod` | ConvertJsStubsToTs.py:254-278 | reference definition of `Method.render`: nothing for a constructor; else the comment lines indented by four spaces (comments on) and the signature |
| `Methods.WriteLines` | ConvertJsStubsToTs.py:256-258 | the comment loop writes each line after the indent, one per line |
| `Methods.WriteParameter` | ConvertJsStubsToTs.py:266-269 | a parameter is written as `name : type` exactly when types are on and its coerced type is non-empty, else as its name |
| `Methods.WriteParameters` | ConvertJsStubsToTs.py:265-271 | the parameter loop writes the rendered parameters separated by `, `, none after the last |
| `Methods.WriteParamList` | ConvertJsStubsToTs.py:261-271 | the text inside the parentheses is the `functionPaths` entry (types on) or the parameter list |
| `Methods.WriteReturnSuffix` | ConvertJsStubsToTs.py:272-278 | the signature closes with `) : T`, with `) : void` when there is no return type, or with `)` when types are off |
| `Methods.WriteSignature` | ConvertJsStubsToTs.py:260-278 | the signature is five spaces, the name, `(`, the list and the closing suffix |
| `Methods.Method.constructor` | ConvertJsStubsToTs.py:221-244 | the member built from a declaration's tokens and the current block is `MethodSpec`: named by token 2, with the block's lines and coerced return type, parameters from token 3 for a constructor and from token 4, through the override table, otherwise |
| `Methods.Method.ConstrParam` | ConvertJsStubsToTs.py:249-252 | `constr_param` is the first parameter's name of a constructor with parameters, else `None` |
| `Methods.Method.Render` | ConvertJsStubsToTs.py:254-278 | `Method.render` writes nothing for a constructor; otherwise it writes the indented comment lines (comments on) and then the signature |
| `Scanner.Prototype` | ConvertJsStubsToTs.py:352-353 | reference definition of `constrdef`: the class name followed by `.prototype`; `funcdef` is this and a dot |
| `Scanner.Step` | ConvertJsStubsToTs.py:326-367 | reference definition of one round: `str.strip`, the comment chain on the stripped line, then the declaration chain on the unstripped and the stripped line; `Err(NoComment)` where the source dereferences a `current_comment` that is `None` |
| `Scanner.ScanLines` | ConvertJsStubsToTs.py:314-367 | reference definition of the loop of `ClassParser.__init__`: `Step` folded over the lines from the empty state (no block, class, superclass, class comment or members); the first failing line ends the scan |
| `Scanner.Members` | ConvertJsStubsToTs.py:358-361 | reference definition of the kept members: `MethodSpec` of each stored declaration, in order; its contract states that there is one member per declaration |
| `Scanner.Annotate` | ConvertJsStubsToTs.py:337-343 | reading the annotations of a line never changes the block's lines |
| `Scanner.CommentStep` | ConvertJsStubsToTs.py:328-343 | the comment chain leaves the class name, superclass, class comment and members untouched |
| `Scanner.DeclarationStep` | ConvertJsStubsToTs.py:344-367 | the declaration chain leaves the block state untouched and only ever extends the member list |
| `Scanner.ScanLinesSnoc` | ConvertJsStubsToTs.py:326 | unfolding of `ScanLines` at its last line, used by `Scanner.FailureIsFinal`, `Scanner.MembersOnlyGrow`, `Scanner.InteriorLinesCollected`, `Scanner.BlockCollected` and `ClassParsers.Parse`: one more line is one more `Step` after a successful scan, and nothing after a failed one |
| `Scanner.AnnotateBraceFree` | ConvertJsStubsToTs.py:337-343 | annotations keep the block's types brace-free |
| `Scanner.CommentStepKeepsInv` | ConvertJsStubsToTs.py:328-343 | the comment chain keeps the loop invariant |
| `Scanner.DeclarationStepKeepsInv` | ConvertJsStubsToTs.py:344-367 | the declaration chain keeps the loop invariant, including that no constructor is ever listed |
| `Scanner.StepKeepsInv` | ConvertJsStubsToTs.py:326-367 | one round of the loop keeps the invariant |
| `Scanner.ScanKeepsInv` | ConvertJsStubsToTs.py:326-367 | every successful scan ends in a state where the scanner is inside a block only if a block exists, stored types are brace-free, no constructor is listed, and members and a superclass exist only once a class is named |
| `Scanner.FailureIsFinal` | ConvertJsStubsToTs.py:326-367 | once a line fails, no later line changes the outcome |
| `Scanner.StepKeepsMembers` | ConvertJsStubsToTs.py:356-361 | a round keeps the members found so far as a prefix |
| `Scanner.MembersOnlyGrow` | ConvertJsStubsToTs.py:356-361 | a scan that succeeds on a whole file succeeds on every prefix, and each prefix's members are a prefix of the final members |
| `Scanner.StepAddsAtMostOne` | ConvertJsStubsToTs.py:356-361 | a round adds no member, or exactly the one built from this line's tokens, the current class name and the current block |
| `Scanner.PlainLine` | ConvertJsStubsToTs.py:328-336 | outside a block, a line that neither opens nor closes one leaves the block state alone |
| `Scanner.FunctionIsNoMark` | ConvertJsStubsToTs.py:344-347 | a `function` line is neither a block mark nor a `var` line |
| `Scanner.FunctionLineNamesClass` | ConvertJsStubsToTs.py:347-354 | a `function` line with a second word names the class after it, replacing any earlier name, and takes the block's lines as the class comment |
| `Scanner.MemberLineAppends` | ConvertJsStubsToTs.py:356-361 | an unstripped line starting with `Class.prototype.` with more than three tokens appends its member, unless it is the constructor |
| `Scanner.ShortMemberLineSkipped` | ConvertJsStubsToTs.py:358-363 | a member line with three tokens or fewer changes nothing |
| `Scanner.IndentedDeclarationIgnored` | ConvertJsStubsToTs.py:356-367 | outside a block, a line starting with whitespace (class name not starting with whitespace) that is no block mark, `var` or `function` line changes nothing: indented member and inheritance lines are not seen |
| `Scanner.PrototypeLineNamesSuper` | ConvertJsStubsToTs.py:364-367 | a `Class.prototype` line (not `Class.prototype.`) with more than three tokens names token 3 as the superclass |
| `Scanner.MissingBlockFails` | ConvertJsStubsToTs.py:332-354 | before any block, a closing mark or a `function` line naming a class fails |
| `Scanner.AnnotationTokens` | ConvertJsStubsToTs.py:337 | `* @tag a b` followed by text starting with a separator splits into the tag, the two words and the tokens of that text |
| `Scanner.ParamAnnotation` | ConvertJsStubsToTs.py:342-343 | `* @param {T} name`, with or without a description after the name, registers `T`, without braces, as the type of `name` |
| `Scanner.ReturnAnnotation` | ConvertJsStubsToTs.py:340-341 | `* @return {T} text …`, with a description of any length, sets `T`, without braces, as the return type |
| `Scanner.BareReturnIgnored` | ConvertJsStubsToTs.py:338 | `* @return {T}` with nothing after the type leaves the block unchanged |
| `Scanner.FunctionLineName` | ConvertJsStubsToTs.py:349-351 | in `function Name(…` the second word run is `Name` |
| `Scanner.ClassLineNamesClass` | ConvertJsStubsToTs.py:347-354 | the line `function Name(…` after a block names the class `Name` and takes the block's lines as the class comment |
| `Scanner.MemberLineTokens` | ConvertJsStubsToTs.py:357 | `C.prototype.m = function (a, b) {` splits into `C`, `prototype`, `m`, `function` and the arguments |
| `Scanner.MemberLineText` | ConvertJsStubsToTs.py:356-358 | a member declaration line strips to its text, starts with `C.prototype.` and is no block mark |
| `Scanner.MemberLineDeclares` | ConvertJsStubsToTs.py:356-361 | the member declaration line of the current class appends the declaration of member `m` with its arguments and the current block, unless `m` is the constructor |
| `Scanner.DeclaredMember` | ConvertJsStubsToTs.py:221-242 | the member a declaration line builds is named `m`, and its declared arguments are the arguments of the line |
| `Scanner.SuperLineTokens` | ConvertJsStubsToTs.py:365 | `C.prototype = new P();` splits into `C`, `prototype`, `new`, `P` |
| `Scanner.SuperLineText` | ConvertJsStubsToTs.py:364-365 | an inheritance line strips to its text, starts with `C.prototype` but not with `C.prototype.`, and is no block mark |
| `Scanner.SuperLineNamesSuper` | ConvertJsStubsToTs.py:364-367 | `C.prototype = new P();` for the current class names `P` as the superclass |
| `Scanner.DeclarationNeedsComment` | ConvertJsStubsToTs.py:344-367 | the declaration chain can fail only when there is no current block |
| `Scanner.StepByComment` | ConvertJsStubsToTs.py:326-367 | a round whose comment chain leaves a current block succeeds and keeps that chain's block state |
| `Scanner.InteriorStep` | ConvertJsStubsToTs.py:335-336 | an interior line inside a block is appended to it, stripped, and the block stays open |
| `Scanner.InteriorLinesCollected` | ConvertJsStubsToTs.py:335-343 | interior lines inside an open block are appended to it, stripped and in order, and the scan cannot fail there |
| `Scanner.OpenStep` | ConvertJsStubsToTs.py:328-331 | a line starting with `/**` starts a new block holding that line alone, and the scanner is inside a block afterwards |
| `Scanner.CloseStep` | ConvertJsStubsToTs.py:332-334 | a line starting with `*/` joins the current block, stripped, and closes it |
| `Scanner.BlockCollected` | ConvertJsStubsToTs.py:328-336 | a whole block `/** … */` makes the current block exactly its lines, stripped, in order, and closed |
| `ClassParsers.Parsed` | ConvertJsStubsToTs.py:314-319 | reference definition of the parser a successful scan leaves: the file name and the scan's class name, superclass, class comment and members |
| `ClassParsers.InterfaceHeader` | ConvertJsStubsToTs.py:384-387 | reference definition of the header: `interface Name`, ` extends Parent` for a non-empty superclass, ` {` and a line break |
| `ClassParsers.RenderClass` | ConvertJsStubsToTs.py:377-395 | reference definition of `ClassParser.render`: nothing without a non-empty class name; else the class comment lines (comments on), the header, the members joined by `,` and a line break, a line break (comments on) and `}` with a blank line |
| `ClassParsers.NoConstructorMember` | ConvertJsStubsToTs.py:359-361 | no member of a parsed file is a constructor |
| `ClassParsers.NamelessClassSilent` | ConvertJsStubsToTs.py:377-379 | a file without a (non-empty) class name renders as nothing |
| `ClassParsers.UncommentedClass` | ConvertJsStubsToTs.py:380-395 | with comments off a class renders as its header, members and closing brace, whatever its comment |
| `ClassParsers.RenderClassParts` | ConvertJsStubsToTs.py:380-395 | unfolding of `RenderClass` for a named class, used by `ClassParsers.ClassParser.Render` and `ClassParsers.NamedClassFrame`: its comment, its header, its members, the blank line and the closing brace |
| `ClassParsers.NamedClassFrame` | ConvertJsStubsToTs.py:380-395 | a named class's text starts with its comment and `interface` header and ends with `}` and a blank line |
| `ClassParsers.ClassParser.constructor` | ConvertJsStubsToTs.py:314-319 | the parser holds the file name and the class name, superclass, class comment and members the scanning loop produced |
| `ClassParsers.ClassParser.Name` | ConvertJsStubsToTs.py:369-371 | a plain field read: `name` is the class name the scan found; `Render` reads it for its test and its header, as `render` reads `self.name` (line 378) and `p.name` (line 384) |
| `ClassParsers.ClassParser.FileName` | ConvertJsStubsToTs.py:373-375 | a plain field read: `filename` is the name of the file read; the script defines this property but never reads it |
| `ClassParsers.ClassParser.Render` | ConvertJsStubsToTs.py:377-395 | `ClassParser.render` tests `Name()`, and appends exactly `RenderClass` of the parser's value |
| `ClassParsers.WriteClass` | ConvertJsStubsToTs.py:380-395 | the body of `render` for a named class appends the class comment (comments on), the header, the members and the closing brace, which is the text `RenderClassParts` gives |
| `ClassParsers.WriteOpening` | ConvertJsStubsToTs.py:380-387 | the class comment lines (comments on) and then the `interface` header are appended |
| `ClassParsers.WriteBody` | ConvertJsStubsToTs.py:388-395 | the member loop, the blank line (comments on) and the closing brace are written in that order |
| `ClassParsers.WriteHeader` | ConvertJsStubsToTs.py:384-387 | the header is `interface Name`, then ` extends Parent` for a non-empty superclass, then ` {` and a line break |
| `ClassParsers.WriteMember` | ConvertJsStubsToTs.py:389-391 | one round writes member `idx`, then `,` and a line break unless it is the last |
| `ClassParsers.WriteMembers` | ConvertJsStubsToTs.py:388-391 | the member loop writes the rendered members separated by `,` and a line break |
| `ClassParsers.ReadAnnotation` | ConvertJsStubsToTs.py:337-343 | reading an interior line's annotations updates the block object as `Annotate` says |
| `ClassParsers.ReadComment` | ConvertJsStubsToTs.py:328-343 | the comment chain on objects succeeds exactly when `CommentStep` does and then yields its block state |
| `ClassParsers.ReadDeclaration` | ConvertJsStubsToTs.py:344-367 | the declaration chain on objects succeeds exactly when `DeclarationStep` does and then mirrors its result |
| `ClassParsers.AddMember` | ConvertJsStubsToTs.py:358-361 | the member object is built and kept unless it is the constructor, mirroring the appended declaration |
| `ClassParsers.ScanLine` | ConvertJsStubsToTs.py:326-367 | one round on objects succeeds exactly when `Step` does and then mirrors its result |
| `ClassParsers.Parse` | ConvertJsStubsToTs.py:314-367 | `ClassParser(lines, filename)` completes exactly when `ScanLines` succeeds, and the parser's value is then the parsed file of the scan |
| `ClassParsers.NewParser` | ConvertJsStubsToTs.py:314-319 | the parser object built from the loop's results has the value of the scan |
| `Convert.ParseAll` | ConvertJsStubsToTs.py:398-406 | reference definition of the parsing loop: each stub file scanned and parsed, in order, the first failure ending the run; its contract states that a successful run has one parsed file per stub file |
| `Convert.RenderAll` | ConvertJsStubsToTs.py:409-410 | reference definition of the rendering loop: the class texts of the parsed files, one after the other |
| `Convert.ConvertFiles` | ConvertJsStubsToTs.py:405-410 | reference definition of the whole run: the first failure, or the `head` text (the constant `Convert.Head`, lines 25-33) followed by `RenderAll` of the parsed files |
| `Convert.ParseAllOkIff` | ConvertJsStubsToTs.py:405-406 | parsing all files succeeds exactly when every file scans |
| `Convert.ParseAllAt` | ConvertJsStubsToTs.py:398-406 | the k-th parsed file is the scan of the k-th stub file |
| `Convert.RenderAllAppend` | ConvertJsStubsToTs.py:409-410 | rendering two runs of parsers in turn is rendering each |
| `Convert.NamelessFileIgnored` | ConvertJsStubsToTs.py:409-410 | a file that names no class leaves the output as if it were absent |
| `Convert.OutputStartsWithHead` | ConvertJsStubsToTs.py:408 | a successful run's output starts with the fixed header |
| `Convert.ConvertFailsIffSomeFileFails` | ConvertJsStubsToTs.py:405-406 | the run fails exactly when some stub file fails to scan |
| `Convert.ParseFiles` | ConvertJsStubsToTs.py:405-406 | the parsing loop yields one parser per stub file, in order, exactly when every file scans |
| `Convert.RenderOne` | ConvertJsStubsToTs.py:410 | rendering one parser appends its class text and changes no parser |
| `Convert.RenderParsers` | ConvertJsStubsToTs.py:409-410 | the rendering loop appends every parser's class text in order |
| `Convert.WriteOutput` | ConvertJsStubsToTs.py:408-410 | the output is the header followed by every class text |
| `Convert.Run` | ConvertJsStubsToTs.py:187-412 | the script's result file holds `ConvertFiles` of the stub files when every file parses, and stays empty when one fails |

## Left out

- The stubs directory depends on the platform (lines 16-19). Listing it
  (line 185) and reading each file with `readlines` (lines 398-402) are not
  modelled. The stub files arrive as `StubFile` values (name and lines), in
  the order the listing yields them.
- The console messages are not modelled: the hint for function-typed
  parameters (line 244), the `FAIL` line for short member lines (line 363) and
  the final message (line 413). They do not affect the result file.
- The contents of `parameterPaths` and `functionPaths` (lines 35-183) and the
  switches `with_comments` and `with_types` (lines 22-23) are the parameter
  `Config`, so every lemma holds for any table. The `-1` sentinel is the
  `Suppress` constructor.
- Closing the result file (line 412) and the output file name (line 21) are
  not modelled. The result file is the text written to it.
- `re.split(r'\W+', …)` is modelled with ASCII word characters. Python 3
  treats every Unicode letter and digit as a word character, so a
  `function` line naming a class with non-ASCII letters splits differently in
  the model.
- The only exception modelled is the dereference of a missing
  documentation block, as `Err(NoComment)`. I/O and decoding errors are not
  modelled. The script stops at the first such exception, after the result
  file was opened (line 187) and before anything was written to it, and `Run`
  models exactly that.
- `ClassParser.__init__` keeps the class name, superclass, class comment and
  members in the object's fields while the loop runs. The model keeps them in
  local values (`Declarations`) and builds the object after the loop.
  Nothing reads the object before its constructor returns.
- `ClassParser.render` writes the name of the global `p` (line 384), not
  `self`. Its only caller is the loop `for p in parsers: p.render(...)`
  (lines 409-410), where the two coincide, so the model writes the
  receiver's own name.
- The scanner stores each kept member as the `Declaration` it is built from
  (class name, tokens and block). `Members` turns these into values with
  `MethodSpec`, and `ClassParsers.Parse` proves that the `Method` objects the
  loop creates have exactly those values.
- `Methods.Method.IsConstructor` and the `name` and `type_str` properties of
  `Parameter` are plain field reads and carry no contract.
- `Convert.ParseAll`: its contract states only the number of parsed files.
  Their contents are stated by `Convert.ParseAllAt`.

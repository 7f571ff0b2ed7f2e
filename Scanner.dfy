/** The line scanner of `ClassParser.__init__` as a fold over the lines of a
    stub file: what each line does to the documentation block in progress, to
    the class name, the superclass and the list of members. */
module Scanner {
  import opened Common
  import opened Tokenize
  import opened Settings
  import opened Comments
  import opened Methods
  import opened Types

  /** The tokens of a member line: a member is only ever built from a line
      with more than three tokens. */
  type DeclarationTokens = s: seq<string> | |s| > 3 witness ["", "", "", ""]

  /** What `Method(className, lineArray, current_comment)` receives for one
      member line: the class name then current, the line's tokens and the
      current block. The member it builds is `MethodSpec` of these. */
  datatype Declaration = Declaration(className: string, tokens: DeclarationTokens, comment: CommentValue)

  /** The members a list of declarations builds, in order. */
  function Members(ds: seq<Declaration>, cfg: Config): (r: seq<MethodValue>)
    ensures |r| == |ds|
  {
    seq(|ds|, k requires 0 <= k < |ds| => MethodSpec(ds[k].className, ds[k].tokens, ds[k].comment, cfg))
  }

  lemma MembersSnoc(ds: seq<Declaration>, d: Declaration, cfg: Config)
    ensures Members(ds + [d], cfg) == Members(ds, cfg) + [MethodSpec(d.className, d.tokens, d.comment, cfg)]
  {
  }

  /** Everything the scanning loop keeps between two lines. The local
      `funcdef` and `constrdef` are not stored: whenever they are set they are
      `Prototype(className)` and `Prototype(className) + "."`. A kept member is
      stored as the declaration it is built from. */
  datatype ScanState = ScanState(
    inComment: bool,
    comment: Option<CommentValue>,
    className: Option<string>,
    superName: Option<string>,
    classComment: seq<string>,
    members: seq<Declaration>)

  /** Before the first line: no block, no class, no members. */
  const Initial := ScanState(false, None, None, None, [], [])

  /** `constrdef`; `funcdef` is this followed by a dot. */
  function Prototype(className: string): string {
    className + ".prototype"
  }

  /** What an interior line of a documentation block declares: `@return T`
      sets the return type and `@param T name` registers a parameter type,
      provided the line has more than two tokens. */
  function Annotate(c: CommentValue, sline: string): (r: CommentValue)
    ensures r.lines == c.lines
  {
    var toks := Tokens(sline, CommentSeparators);
    if |toks| > 2 then
      if StartsWith(toks[0], "@return") then WithReturnType(c, toks[1])
      else if StartsWith(toks[0], "@param") then WithParamType(c, toks[1], toks[2])
      else c
    else c
  }

  /** The first `if` chain of the loop, on the stripped line: `/**` opens a
      new block, `*/` closes the current one, any other line inside a block is
      added to it and read for annotations. A line that needs the current
      block while there is none fails. */
  function CommentStep(st: ScanState, sline: string): (r: Result<ScanState>)
    ensures r.Ok? ==> (r.value.className == st.className && r.value.superName == st.superName
                       && r.value.classComment == st.classComment && r.value.members == st.members)
  {
    if StartsWith(sline, "/**") then
      Ok(st.(inComment := true, comment := Some(WithLine(EmptyComment, sline))))
    else if StartsWith(sline, "*/") then
      if st.comment.None? then Err(NoComment)
      else Ok(st.(comment := Some(WithLine(st.comment.value, sline)), inComment := false))
    else if st.inComment then
      if st.comment.None? then Err(NoComment)
      else Ok(st.(comment := Some(Annotate(WithLine(st.comment.value, sline), sline))))
    else Ok(st)
  }

  /** The second `if` chain of the loop: `var` lines are skipped; a
      `function` line with a second word names the class and takes the
      current block as the class comment; a line starting with `funcdef`
      (unstripped) with more than three tokens declares a member, kept unless
      it is the constructor; a line starting with `constrdef` with more than
      three tokens names the superclass. */
  function DeclarationStep(st: ScanState, line: string, sline: string): (r: Result<ScanState>)
    ensures r.Ok? ==> r.value.inComment == st.inComment && r.value.comment == st.comment
    ensures r.Ok? ==> st.members <= r.value.members
  {
    if StartsWith(sline, "var") then Ok(st)
    else if StartsWith(sline, "function") then
      var m := WordRuns(sline);
      if |m| > 1 then
        if st.comment.None? then Err(NoComment)
        else Ok(st.(className := Some(m[1]), classComment := st.comment.value.lines))
      else Ok(st)
    else if Truthy(st.className) && StartsWith(line, Prototype(st.className.value) + ".") then
      var toks := Tokens(sline, DeclarationSeparators);
      if |toks| > 3 then
        if st.comment.None? then Err(NoComment)
        else
          if toks[2] == "constructor" then Ok(st)
          else Ok(st.(members := st.members + [Declaration(st.className.value, toks, st.comment.value)]))
      else Ok(st)
    else if st.className.Some? && StartsWith(line, Prototype(st.className.value)) then
      var toks := Tokens(sline, DeclarationSeparators);
      if |toks| > 3 then Ok(st.(superName := Some(toks[3]))) else Ok(st)
    else Ok(st)
  }

  /** One round of the loop. */
  function Step(st: ScanState, line: string): Result<ScanState> {
    var sline := Strip(line);
    match CommentStep(st, sline)
    case Err(e) => Err(e)
    case Ok(st') => DeclarationStep(st', line, sline)
  }

  /** The whole loop over `lines`; a failing line ends the scan. */
  function ScanLines(lines: seq<string>): Result<ScanState> {
    if lines == [] then Ok(Initial)
    else
      match ScanLines(lines[..|lines| - 1])
      case Err(e) => Err(e)
      case Ok(st) => Step(st, lines[|lines| - 1])
  }

  lemma ScanLinesSnoc(lines: seq<string>, line: string)
    ensures ScanLines(lines).Err? ==> ScanLines(lines + [line]) == ScanLines(lines)
    ensures ScanLines(lines).Ok?
            ==> ScanLines(lines + [line]) == Step(ScanLines(lines).value, line)
  {
    assert (lines + [line])[..|lines|] == lines;
  }

  // ---------------------------------------------------------------- invariants

  /** What holds between any two lines: a block is open only if there is one;
      stored types are brace-free; no constructor is ever listed; members and
      a superclass exist only once a class name does. */
  ghost predicate Inv(st: ScanState) {
    (st.inComment ==> st.comment.Some?)
    && (st.comment.Some? ==> BraceFree(st.comment.value))
    && (forall k :: 0 <= k < |st.members| ==> st.members[k].tokens[2] != "constructor")
    && (st.className.None? ==> st.members == [] && st.superName.None?)
  }

  lemma AnnotateBraceFree(c: CommentValue, sline: string)
    requires BraceFree(c)
    ensures BraceFree(Annotate(c, sline))
  {
    var toks := Tokens(sline, CommentSeparators);
    if |toks| > 2 {
      BraceFreeKept(c, toks[1], toks[2], sline);
    }
  }

  lemma CommentStepKeepsInv(st: ScanState, sline: string)
    requires Inv(st) && CommentStep(st, sline).Ok?
    ensures Inv(CommentStep(st, sline).value)
  {
    if st.comment.Some? {
      BraceFreeKept(st.comment.value, "", "", sline);
      AnnotateBraceFree(WithLine(st.comment.value, sline), sline);
    }
    BraceFreeKept(EmptyComment, "", "", sline);
  }

  lemma DeclarationStepKeepsInv(st: ScanState, line: string, sline: string)
    requires Inv(st) && DeclarationStep(st, line, sline).Ok?
    ensures Inv(DeclarationStep(st, line, sline).value)
  {
  }

  lemma StepKeepsInv(st: ScanState, line: string)
    requires Inv(st)
    ensures Step(st, line).Ok? ==> Inv(Step(st, line).value)
  {
    var sline := Strip(line);
    if CommentStep(st, sline).Ok? {
      CommentStepKeepsInv(st, sline);
      if DeclarationStep(CommentStep(st, sline).value, line, sline).Ok? {
        DeclarationStepKeepsInv(CommentStep(st, sline).value, line, sline);
      }
    }
  }

  /** Every successful scan ends in a state satisfying `Inv`; in particular
      the constructor never appears among the members. */
  lemma {:induction false} ScanKeepsInv(lines: seq<string>)
    ensures ScanLines(lines).Ok? ==> Inv(ScanLines(lines).value)
  {
    if lines != [] {
      var init := lines[..|lines| - 1];
      ScanKeepsInv(init);
      if ScanLines(init).Ok? {
        StepKeepsInv(ScanLines(init).value, lines[|lines| - 1]);
      }
    }
  }

  /** A failure is final: no later line can recover from it. */
  lemma {:induction false} FailureIsFinal(lines: seq<string>, more: seq<string>)
    requires ScanLines(lines).Err?
    ensures ScanLines(lines + more) == ScanLines(lines)
    decreases |more|
  {
    if more != [] {
      var init := more[..|more| - 1];
      assert lines + more == (lines + init) + [more[|more| - 1]];
      FailureIsFinal(lines, init);
      ScanLinesSnoc(lines + init, more[|more| - 1]);
    } else {
      assert lines + more == lines;
    }
  }

  lemma StepKeepsMembers(st: ScanState, line: string)
    requires Step(st, line).Ok?
    ensures st.members <= Step(st, line).value.members
  {
    var sline := Strip(line);
    var st1 := CommentStep(st, sline);
    assert st1.Ok? && Step(st, line) == DeclarationStep(st1.value, line, sline);
  }

  /** Members are only ever added at the end: the member list after a prefix
      of the file is a prefix of the final one. */
  lemma {:induction false} MembersOnlyGrow(lines: seq<string>, more: seq<string>)
    requires ScanLines(lines + more).Ok?
    ensures ScanLines(lines).Ok?
    ensures ScanLines(lines).value.members <= ScanLines(lines + more).value.members
    decreases |more|
  {
    if ScanLines(lines).Err? {
      FailureIsFinal(lines, more);
    } else if more != [] {
      var init := more[..|more| - 1];
      assert lines + more == (lines + init) + [more[|more| - 1]];
      ScanLinesSnoc(lines + init, more[|more| - 1]);
      MembersOnlyGrow(lines, init);
      StepKeepsMembers(ScanLines(lines + init).value, more[|more| - 1]);
    } else {
      assert lines + more == lines;
    }
  }

  /** One line adds at most one member: the one its tokens declare, with
      the class name and documentation block then current. */
  lemma StepAddsAtMostOne(st: ScanState, line: string)
    requires Step(st, line).Ok?
    ensures Step(st, line).value.members == st.members
         || (Step(st, line).value.className.Some? && Step(st, line).value.comment.Some?
             && |Tokens(Strip(line), DeclarationSeparators)| > 3
             && Step(st, line).value.members
                == st.members + [Declaration(Step(st, line).value.className.value,
                                             Tokens(Strip(line), DeclarationSeparators),
                                             Step(st, line).value.comment.value)])
  {
  }

  // ---------------------------------------------------------------- single lines

  /** Outside a block, a line that neither opens nor closes one leaves the
      block state alone. */
  lemma PlainLine(st: ScanState, sline: string)
    requires !st.inComment && !StartsWith(sline, "/**") && !StartsWith(sline, "*/")
    ensures CommentStep(st, sline) == Ok(st)
  {
  }

  lemma FunctionIsNoMark(s: string)
    requires StartsWith(s, "function")
    ensures !StartsWith(s, "/**") && !StartsWith(s, "*/") && !StartsWith(s, "var")
  {
    assert s[0] == 'f';
  }

  /** A `function` line names the class after its first word, whatever name
      an earlier `function` line gave, and takes the current block's lines as
      the class comment. */
  lemma FunctionLineNamesClass(st: ScanState, line: string)
    requires st.comment.Some? && !st.inComment
    requires StartsWith(Strip(line), "function") && |WordRuns(Strip(line))| > 1
    ensures Step(st, line)
         == Ok(st.(className := Some(WordRuns(Strip(line))[1]), classComment := st.comment.value.lines))
  {
    var sline := Strip(line);
    FunctionIsNoMark(sline);
    PlainLine(st, sline);
    assert Step(st, line) == DeclarationStep(st, line, sline);
  }

  /** A member line (no block open) with more than three tokens appends the
      member the tokens declare, unless it is the constructor, which leaves
      the member list as it was. */
  lemma MemberLineAppends(st: ScanState, line: string)
    requires st.comment.Some? && !st.inComment && Truthy(st.className)
    requires StartsWith(line, Prototype(st.className.value) + ".")
    requires var s := Strip(line); !StartsWith(s, "/**") && !StartsWith(s, "*/")
                                   && !StartsWith(s, "var") && !StartsWith(s, "function")
    requires |Tokens(Strip(line), DeclarationSeparators)| > 3
    ensures var toks := Tokens(Strip(line), DeclarationSeparators);
            Step(st, line)
            == Ok(if toks[2] == "constructor" then st
                  else st.(members := st.members + [Declaration(st.className.value, toks, st.comment.value)]))
  {
  }

  /** Declarations are matched on the unstripped line: a line indented by
      whitespace is neither a member line nor an inheritance line (for a class
      name that does not itself start with whitespace), so outside a block it
      changes nothing unless its stripped text is a `var` or `function` line. */
  lemma IndentedDeclarationIgnored(st: ScanState, line: string)
    requires !st.inComment && line != [] && IsSpace(line[0])
    requires st.className.Some? ==> st.className.value == [] || !IsSpace(st.className.value[0])
    requires var s := Strip(line); !StartsWith(s, "/**") && !StartsWith(s, "*/")
                                   && !StartsWith(s, "var") && !StartsWith(s, "function")
    ensures Step(st, line) == Ok(st)
  {
    if st.className.Some? {
      var pre := Prototype(st.className.value);
      assert pre[0] != line[0];
      assert !StartsWith(line, pre);
      assert !StartsWith(line, pre + ".");
    }
  }

  /** A member line with three tokens or fewer is reported and skipped: the
      state is unchanged. */
  lemma ShortMemberLineSkipped(st: ScanState, line: string)
    requires !st.inComment && Truthy(st.className)
    requires StartsWith(line, Prototype(st.className.value) + ".")
    requires var s := Strip(line); !StartsWith(s, "/**") && !StartsWith(s, "*/")
                                   && !StartsWith(s, "var") && !StartsWith(s, "function")
    requires |Tokens(Strip(line), DeclarationSeparators)| <= 3
    ensures Step(st, line) == Ok(st)
  {
  }

  /** `X.prototype = new Y();` names `Y` as the superclass (token 3); the
      prototype line itself declares no member. */
  lemma PrototypeLineNamesSuper(st: ScanState, line: string)
    requires !st.inComment && st.className.Some?
    requires StartsWith(line, Prototype(st.className.value))
    requires !StartsWith(line, Prototype(st.className.value) + ".")
    requires var s := Strip(line); !StartsWith(s, "/**") && !StartsWith(s, "*/")
                                   && !StartsWith(s, "var") && !StartsWith(s, "function")
    requires |Tokens(Strip(line), DeclarationSeparators)| > 3
    ensures Step(st, line)
         == Ok(st.(superName := Some(Tokens(Strip(line), DeclarationSeparators)[3])))
  {
  }

  /** A line that needs the current block before any block was opened fails:
      a line closing a block, or a `function` line naming a class. */
  lemma MissingBlockFails(st: ScanState, line: string)
    requires st.comment.None? && !st.inComment
    requires var s := Strip(line);
      !StartsWith(s, "/**")
      && (StartsWith(s, "*/")
          || (!StartsWith(s, "var") && StartsWith(s, "function") && |WordRuns(s)| > 1))
    ensures Step(st, line) == Err(NoComment)
  {
  }

  // ---------------------------------------------------------------- stub lines

  lemma PrototypeThen(c: char, rest: string)
    requires c in DeclarationSeparators
    ensures Tokens("prototype" + [c] + rest, DeclarationSeparators) == ["prototype"] + Tokens(rest, DeclarationSeparators)
  {
    assert !IsSpace("prototype"[0]);
    TokensCons("prototype", c, rest, DeclarationSeparators);
  }

  /** `C.prototype.rest`: `C`, `prototype`, then the tokens of `rest`. */
  lemma ClassPrototypeThen(c: string, rest: string)
    requires IsToken(c)
    ensures Tokens(c + ".prototype." + rest, DeclarationSeparators)
         == [c, "prototype"] + Tokens(rest, DeclarationSeparators)
  {
    assert c + ".prototype." + rest == c + ['.'] + ("prototype" + ['.'] + rest);
    PrototypeThen('.', rest);
    TokensCons(c, '.', "prototype" + ['.'] + rest, DeclarationSeparators);
  }

  /** `w = rest`: the token `w`, then the tokens of `rest`. */
  lemma AssignThen(w: string, rest: string)
    requires IsToken(w)
    ensures Tokens(w + [' '] + (['='] + ([' '] + rest)), DeclarationSeparators)
         == [w] + Tokens(rest, DeclarationSeparators)
  {
    TokensCons(w, ' ', ['='] + ([' '] + rest), DeclarationSeparators);
    TokensSkip('=', [' '] + rest, DeclarationSeparators);
    TokensSkip(' ', rest, DeclarationSeparators);
  }

  lemma FunctionThen(rest: string)
    ensures Tokens("function" + [' '] + (['('] + rest), DeclarationSeparators)
         == ["function"] + Tokens(rest, DeclarationSeparators)
  {
    assert !IsSpace("function"[0]);
    TokensCons("function", ' ', ['('] + rest, DeclarationSeparators);
    TokensSkip('(', rest, DeclarationSeparators);
  }

  /** `a, b) {`: the arguments alone. */
  lemma ArgumentsTail(args: seq<string>)
    requires AllTokens(args)
    ensures Tokens(Join(args, ", ") + [')'] + ([' '] + ['{']), DeclarationSeparators) == args
  {
    var seps := DeclarationSeparators;
    TokensSeparator(Join(args, ", "), ')', [' '] + ['{'], seps);
    TokensJoin(args);
    TokensSkip(' ', ['{'], seps);
    TokensSkip('{', "", seps);
    assert Tokens("", seps) == [];
  }

  lemma AssignmentShape(m: string, j: string)
    ensures m + " = function (" + j + ") {"
         == m + [' '] + (['='] + ([' '] + ("function" + [' '] + (['('] + (j + [')'] + ([' '] + ['{']))))))
  {
  }

  /** `m = function (a, b) {`: `m`, `function`, then the arguments. */
  lemma MemberAssignment(m: string, args: seq<string>)
    requires IsToken(m) && AllTokens(args)
    ensures Tokens(m + " = function (" + Join(args, ", ") + ") {", DeclarationSeparators)
         == [m, "function"] + args
  {
    var r7 := Join(args, ", ") + [')'] + ([' '] + ['{']);
    AssignmentShape(m, Join(args, ", "));
    ArgumentsTail(args);
    FunctionThen(r7);
    AssignThen(m, "function" + [' '] + (['('] + r7));
  }

  /** The text of a member declaration, `C.prototype.m = function (a, b) {`. */
  function MemberLine(c: string, m: string, args: seq<string>): string {
    c + ".prototype." + m + " = function (" + Join(args, ", ") + ") {"
  }

  /** A member declaration splits into `C`, `prototype`, `m`, `function` and
      the arguments: token 2 is the member's name and the arguments start at
      token 4. */
  lemma MemberLineTokens(c: string, m: string, args: seq<string>)
    requires IsToken(c) && IsToken(m) && AllTokens(args)
    ensures Tokens(MemberLine(c, m, args), DeclarationSeparators) == [c, "prototype", m, "function"] + args
  {
    var rest := m + " = function (" + Join(args, ", ") + ") {";
    assert MemberLine(c, m, args) == c + ".prototype." + rest;
    ClassPrototypeThen(c, rest);
    MemberAssignment(m, args);
  }

  /** `new P();`: `new` and `P`. */
  lemma NewCall(p: string)
    requires IsToken(p)
    ensures Tokens("new" + [' '] + (p + ['('] + ([')'] + [';'])), DeclarationSeparators) == ["new", p]
  {
    var seps := DeclarationSeparators;
    assert !IsSpace("new"[0]);
    TokensCons("new", ' ', p + ['('] + ([')'] + [';']), seps);
    TokensCons(p, '(', [')'] + [';'], seps);
    TokensSkip(')', [';'], seps);
    TokensSkip(';', "", seps);
    assert Tokens("", seps) == [];
  }

  /** The text of an inheritance line, `C.prototype = new P();`. */
  function SuperLine(c: string, p: string): string {
    c + ".prototype = new " + p + "();"
  }

  /** An inheritance line splits into `C`, `prototype`, `new`, `P`: token 3 is
      the superclass. */
  lemma SuperLineTokens(c: string, p: string)
    requires IsToken(c) && IsToken(p)
    ensures Tokens(SuperLine(c, p), DeclarationSeparators) == [c, "prototype", "new", p]
  {
    var r2 := "new" + [' '] + (p + ['('] + ([')'] + [';']));
    var r1 := "prototype" + [' '] + (['='] + ([' '] + r2));
    assert SuperLine(c, p) == c + ['.'] + r1;
    NewCall(p);
    assert Tokens(r1, DeclarationSeparators) == ["prototype", "new", p] by {
      PrototypeThen(' ', ['='] + ([' '] + r2));
      TokensSkip('=', [' '] + r2, DeclarationSeparators);
      TokensSkip(' ', r2, DeclarationSeparators);
    }
    TokensCons(c, '.', r1, DeclarationSeparators);
  }

  /** `function Name(…`: the second word run is `Name`. */
  lemma FunctionLineName(name: string, rest: string)
    requires IsIdentifier(name) && rest != [] && !IsWordChar(rest[0])
    ensures |WordRuns("function " + name + rest)| > 1
    ensures WordRuns("function " + name + rest)[1] == name
  {
    var t := name + rest;
    assert "function " + name + rest == "function" + [' '] + t;
    assert AllWord("function");
    WordRunsAfterWord("function", ' ', t);
    assert SkipNonWord([' '] + t) == t;
    assert t == name + [rest[0]] + rest[1..];
    WordRunsAfterWord(name, rest[0], rest[1..]);
  }

  /** A token of a documentation line: non-blank, with no separator in it. */
  predicate IsCommentToken(s: string) {
    NoneOf(s, CommentSeparators) && !AllSpace(s)
  }

  /** `* @tag a b` and what follows: the tag, the two words, then the
      tokens of the rest of the line. */
  lemma AnnotationTokens(tag: string, a: string, b: string, rest: string)
    requires IsCommentToken(tag) && IsCommentToken(a) && IsCommentToken(b)
    requires rest == [] || rest[0] in CommentSeparators
    ensures Tokens("* " + tag + " " + a + " " + b + rest, CommentSeparators)
         == [tag, a, b] + Tokens(rest, CommentSeparators)
  {
    var seps := CommentSeparators;
    assert "* " + tag + " " + a + " " + b + rest == ['*'] + ([' '] + (tag + [' '] + (a + [' '] + (b + rest))));
    TokensSkip('*', [' '] + (tag + [' '] + (a + [' '] + (b + rest))), seps);
    TokensSkip(' ', tag + [' '] + (a + [' '] + (b + rest)), seps);
    TokensCons(tag, ' ', a + [' '] + (b + rest), seps);
    TokensCons(a, ' ', b + rest, seps);
    TokensLead(b, rest, seps);
  }

  /** `* @tag a`: the tag and one word. */
  lemma ShortAnnotationTokens(tag: string, a: string)
    requires IsCommentToken(tag) && IsCommentToken(a)
    ensures Tokens("* " + tag + " " + a, CommentSeparators) == [tag, a]
  {
    var seps := CommentSeparators;
    assert "* " + tag + " " + a == ['*'] + ([' '] + (tag + [' '] + a));
    TokensSkip('*', [' '] + (tag + [' '] + a), seps);
    TokensSkip(' ', tag + [' '] + a, seps);
    TokensCons(tag, ' ', a, seps);
    TokensOfWord(a, seps);
  }

  /** `* @param {T} name`, with or without a description after the name,
      registers `T`, without braces, as the type of `name`. */
  lemma ParamAnnotation(c: CommentValue, t: string, name: string, rest: string)
    requires IsCommentToken(t) && IsCommentToken(name)
    requires rest == [] || rest[0] in CommentSeparators
    ensures Annotate(c, "* @param " + t + " " + name + rest) == WithParamType(c, t, name)
  {
    assert "* @param " + t + " " + name + rest == "* " + "@param" + " " + t + " " + name + rest;
    assert !IsSpace("@param"[0]);
    AnnotationTokens("@param", t, name, rest);
    assert !StartsWith("@param", "@return");
  }

  /** `* @return {T} description` sets `T`, without braces, as the return
      type, however long the description. */
  lemma ReturnAnnotation(c: CommentValue, t: string, word: string, rest: string)
    requires IsCommentToken(t) && IsCommentToken(word)
    requires rest == [] || rest[0] in CommentSeparators
    ensures Annotate(c, "* @return " + t + " " + word + rest) == WithReturnType(c, t)
  {
    assert "* @return " + t + " " + word + rest == "* " + "@return" + " " + t + " " + word + rest;
    assert !IsSpace("@return"[0]);
    AnnotationTokens("@return", t, word, rest);
  }

  /** `* @return {T}` with nothing after the type has only two tokens and is
      ignored: the return type stays as it was. */
  lemma BareReturnIgnored(c: CommentValue, t: string)
    requires IsCommentToken(t)
    ensures Annotate(c, "* @return " + t) == c
  {
    assert "* @return " + t == "* " + "@return" + " " + t;
    assert !IsSpace("@return"[0]);
    ShortAnnotationTokens("@return", t);
  }

  /** `function Name(…) {…}` followed by a documentation block names the
      class `Name` and takes the block's lines as the class comment. */
  lemma ClassLineNamesClass(st: ScanState, name: string, rest: string)
    requires st.comment.Some? && !st.inComment
    requires IsIdentifier(name) && rest != [] && !IsWordChar(rest[0]) && !IsSpace(rest[|rest| - 1])
    ensures Step(st, "function " + name + rest + "\n")
         == Ok(st.(className := Some(name), classComment := st.comment.value.lines))
  {
    var text := "function " + name + rest;
    assert text[0] == 'f' && text[|text| - 1] == rest[|rest| - 1];
    StripLineBreak(text);
    FunctionLineName(name, rest);
    FunctionLineNamesClass(st, text + "\n");
  }

  /** A member declaration line of the current class appends the member it
      declares, built from the tokens `C`, `prototype`, `m`, `function` and
      the arguments and from the current block, unless `m` is the
      constructor. A class whose name starts with `var` or `function` never
      gets here: its lines are taken for those keywords. */
  lemma MemberLineDeclares(st: ScanState, c: string, m: string, args: seq<string>)
    requires st.comment.Some? && !st.inComment && st.className == Some(c)
    requires IsIdentifier(c) && IsIdentifier(m) && AllIdentifiers(args)
    requires !StartsWith(MemberLine(c, m, args), "var") && !StartsWith(MemberLine(c, m, args), "function")
    ensures Step(st, MemberLine(c, m, args) + "\n")
         == Ok(if m == "constructor" then st
               else st.(members := st.members + [Declaration(c, [c, "prototype", m, "function"] + args, st.comment.value)]))
  {
    MemberLineText(c, m, args);
    MemberLineAppends(st, MemberLine(c, m, args) + "\n");
  }

  /** What the scanner sees of a member declaration line. */
  lemma MemberLineText(c: string, m: string, args: seq<string>)
    requires IsIdentifier(c) && IsIdentifier(m) && AllIdentifiers(args)
    ensures var text := MemberLine(c, m, args);
      Strip(text + "\n") == text
      && Tokens(text, DeclarationSeparators) == [c, "prototype", m, "function"] + args
      && StartsWith(text + "\n", Prototype(c) + ".")
      && !StartsWith(text, "/**") && !StartsWith(text, "*/")
  {
    var text := MemberLine(c, m, args);
    IdentifierIsToken(c);
    IdentifierIsToken(m);
    IdentifiersAreTokens(args);
    assert text[0] == c[0] && text[|text| - 1] == '{';
    StripLineBreak(text);
    MemberLineTokens(c, m, args);
    MemberLinePrefix(c, m + " = function (" + Join(args, ", ") + ") {");
  }

  lemma MemberLinePrefix(c: string, tail: string)
    ensures StartsWith(c + ".prototype." + tail + "\n", Prototype(c) + ".")
  {
    assert c + ".prototype." + tail + "\n" == (Prototype(c) + ".") + (tail + "\n");
    PrefixStartsWith(Prototype(c) + ".", tail + "\n");
  }

  lemma PrefixStartsWith(a: string, b: string)
    ensures StartsWith(a + b, a)
  {
    assert (a + b)[..|a|] == a;
  }

  /** The member a declaration line builds: named by token 2, with the
      arguments from token 4 on as its declared arguments. */
  lemma DeclaredMember(c: string, m: string, args: seq<string>, comment: CommentValue, cfg: Config)
    requires m != "constructor"
    ensures MethodSpec(c, [c, "prototype", m, "function"] + args, comment, cfg)
         == MethodValue(m, MethodParams(c, m, args, comment, cfg), Coerce(comment.returnType), comment.lines, false)
  {
    assert Drop([c, "prototype", m, "function"] + args, 4) == args;
  }

  /** `C.prototype = new P();` for the current class names `P` as the
      superclass, with or without a documentation block. */
  lemma SuperLineNamesSuper(st: ScanState, c: string, p: string)
    requires !st.inComment && st.className == Some(c)
    requires IsIdentifier(c) && IsIdentifier(p)
    requires !StartsWith(SuperLine(c, p), "var") && !StartsWith(SuperLine(c, p), "function")
    ensures Step(st, SuperLine(c, p) + "\n") == Ok(st.(superName := Some(p)))
  {
    SuperLineText(c, p);
    PrototypeLineNamesSuper(st, SuperLine(c, p) + "\n");
  }

  /** What the scanner sees of an inheritance line. */
  lemma SuperLineText(c: string, p: string)
    requires IsIdentifier(c) && IsIdentifier(p)
    ensures var text := SuperLine(c, p);
      Strip(text + "\n") == text
      && Tokens(text, DeclarationSeparators) == [c, "prototype", "new", p]
      && StartsWith(text + "\n", Prototype(c)) && !StartsWith(text + "\n", Prototype(c) + ".")
      && !StartsWith(text, "/**") && !StartsWith(text, "*/")
  {
    var text := SuperLine(c, p);
    IdentifierIsToken(c);
    IdentifierIsToken(p);
    assert text[0] == c[0] && text[|text| - 1] == ';';
    StripLineBreak(text);
    SuperLineTokens(c, p);
    assert text + "\n" == Prototype(c) + " = new " + p + "();\n";
    assert (text + "\n")[|Prototype(c)|] == ' ';
  }

  // ---------------------------------------------------------------- blocks

  /** Strip each line. */
  function StripAll(lines: seq<string>): (r: seq<string>)
    ensures |r| == |lines|
  {
    if lines == [] then [] else StripAll(lines[..|lines| - 1]) + [Strip(lines[|lines| - 1])]
  }

  lemma {:induction false} StripAllAt(lines: seq<string>, k: nat)
    requires k < |lines|
    ensures StripAll(lines)[k] == Strip(lines[k])
  {
    if k < |lines| - 1 {
      StripAllAt(lines[..|lines| - 1], k);
    }
  }

  /** An interior line of a block: neither opens nor closes one. */
  predicate Interior(line: string) {
    !StartsWith(Strip(line), "/**") && !StartsWith(Strip(line), "*/")
  }

  /** Every line of `body` is interior, stated line by line from the end. */
  predicate AllInterior(body: seq<string>) {
    body == [] || (AllInterior(body[..|body| - 1]) && Interior(body[|body| - 1]))
  }

  lemma {:induction false} AllInteriorLines(body: seq<string>)
    requires forall k :: 0 <= k < |body| ==> Interior(body[k])
    ensures AllInterior(body)
  {
    if body != [] {
      var init := body[..|body| - 1];
      assert forall k :: 0 <= k < |init| ==> init[k] == body[k];
      AllInteriorLines(init);
    }
  }

  lemma SplitLast(pre: seq<string>, body: seq<string>)
    requires body != []
    ensures pre + body == (pre + body[..|body| - 1]) + [body[|body| - 1]]
  {
  }


  /** The declaration chain fails only for want of a current block. */
  lemma DeclarationNeedsComment(st: ScanState, line: string, sline: string)
    requires st.comment.Some?
    ensures DeclarationStep(st, line, sline).Ok?
  {
  }

  /** A round whose comment chain leaves a current block succeeds and keeps
      the block state that chain produced. */
  lemma StepByComment(st: ScanState, line: string)
    requires CommentStep(st, Strip(line)).Ok? && CommentStep(st, Strip(line)).value.comment.Some?
    ensures Step(st, line).Ok?
    ensures Step(st, line).value.inComment == CommentStep(st, Strip(line)).value.inComment
    ensures Step(st, line).value.comment == CommentStep(st, Strip(line)).value.comment
  {
    DeclarationNeedsComment(CommentStep(st, Strip(line)).value, line, Strip(line));
  }

  /** One interior line inside an open block joins it, stripped. */
  lemma InteriorStep(st: ScanState, line: string)
    requires st.inComment && st.comment.Some? && Interior(line)
    ensures Step(st, line).Ok?
    ensures Step(st, line).value.inComment
    ensures Step(st, line).value.comment.Some?
    ensures Step(st, line).value.comment.value.lines == st.comment.value.lines + [Strip(line)]
  {
    var sline := Strip(line);
    var st1 := CommentStep(st, sline).value;
    assert st1.comment.value.lines == st.comment.value.lines + [sline];
    StepByComment(st, line);
  }

  /** Inside an open block, interior lines are appended to it, stripped and
      in order, and the block stays open; the scan cannot fail there. */
  lemma {:induction false} InteriorLinesCollected(pre: seq<string>, body: seq<string>)
    requires ScanLines(pre).Ok? && ScanLines(pre).value.inComment
    requires ScanLines(pre).value.comment.Some?
    requires AllInterior(body)
    ensures ScanLines(pre + body).Ok?
    ensures var st := ScanLines(pre + body).value;
      st.inComment && st.comment.Some?
      && st.comment.value.lines == ScanLines(pre).value.comment.value.lines + StripAll(body)
    decreases |body|
  {
    if body == [] {
      assert pre + body == pre;
    } else {
      var init := body[..|body| - 1];
      var last := body[|body| - 1];
      SplitLast(pre, body);
      InteriorLinesCollected(pre, init);
      ScanLinesSnoc(pre + init, last);
      InteriorStep(ScanLines(pre + init).value, last);
    }
  }

  /** A line opening a block starts a new block holding that line alone. */
  lemma OpenStep(st: ScanState, line: string)
    requires StartsWith(Strip(line), "/**")
    ensures Step(st, line).Ok?
    ensures Step(st, line).value.inComment
    ensures Step(st, line).value.comment == Some(WithLine(EmptyComment, Strip(line)))
  {
    var sline := Strip(line);
    assert CommentStep(st, sline) == Ok(st.(inComment := true, comment := Some(WithLine(EmptyComment, sline))));
    StepByComment(st, line);
  }

  /** A line closing a block joins the current block, stripped, and closes it. */
  lemma CloseStep(st: ScanState, line: string)
    requires st.comment.Some? && !StartsWith(Strip(line), "/**") && StartsWith(Strip(line), "*/")
    ensures Step(st, line).Ok?
    ensures !Step(st, line).value.inComment
    ensures Step(st, line).value.comment == Some(WithLine(st.comment.value, Strip(line)))
  {
    var sline := Strip(line);
    assert CommentStep(st, sline) == Ok(st.(comment := Some(WithLine(st.comment.value, sline)), inComment := false));
    StepByComment(st, line);
  }

  /** A whole block `/** … */`, opened with no block open: the current block
      then holds exactly its lines, stripped, in order, and is closed. */
  lemma BlockCollected(pre: seq<string>, open: string, body: seq<string>, close: string)
    requires ScanLines(pre).Ok?
    requires StartsWith(Strip(open), "/**")
    requires forall k :: 0 <= k < |body| ==> Interior(body[k])
    requires !StartsWith(Strip(close), "/**") && StartsWith(Strip(close), "*/")
    ensures ScanLines(pre + [open] + body + [close]).Ok?
    ensures var st := ScanLines(pre + [open] + body + [close]).value;
      !st.inComment && st.comment.Some?
      && st.comment.value.lines == [Strip(open)] + StripAll(body) + [Strip(close)]
  {
    ScanLinesSnoc(pre, open);
    OpenStep(ScanLines(pre).value, open);
    var afterOpen := ScanLines(pre + [open]).value;
    assert afterOpen.comment.value.lines == [Strip(open)];
    AllInteriorLines(body);
    InteriorLinesCollected(pre + [open], body);
    var inside := ScanLines(pre + [open] + body).value;
    ScanLinesSnoc(pre + [open] + body, close);
    CloseStep(inside, close);
    var closed := ScanLines(pre + [open] + body + [close]).value;
    assert closed.comment.value.lines == inside.comment.value.lines + [Strip(close)];
  }
}

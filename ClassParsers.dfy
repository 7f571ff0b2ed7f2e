/** `ClassParser`: one stub file read line by line into a class name, a
    superclass, a class comment and a list of members, and that class written
    as a TypeScript interface. */
module ClassParsers {
  import opened Common
  import opened Tokenize
  import opened Settings
  import opened Comments
  import opened Methods
  import opened Files
  import opened Scanner

  /** What a parser holds once its file is read. */
  datatype ParsedFile = ParsedFile(
    fileName: string,
    className: Option<string>,
    superName: Option<string>,
    classComment: seq<string>,
    methods: seq<MethodValue>)

  /** The parser a successful scan leaves behind. */
  function Parsed(fileName: string, st: ScanState, cfg: Config): ParsedFile {
    ParsedFile(fileName, st.className, st.superName, st.classComment, Members(st.members, cfg))
  }

  /** The constructor is never among a parsed file's members: the source
      builds it and drops it. */
  lemma NoConstructorMember(fileName: string, lines: seq<string>, cfg: Config)
    requires ScanLines(lines).Ok?
    ensures var pf := Parsed(fileName, ScanLines(lines).value, cfg);
            forall k :: 0 <= k < |pf.methods| ==> !pf.methods[k].isConstructor
  {
    ScanKeepsInv(lines);
  }

  // ---------------------------------------------------------------- rendering

  function RenderMethods(ms: seq<MethodValue>, className: string, cfg: Config): (r: seq<string>)
    ensures |r| == |ms|
  {
    seq(|ms|, k requires 0 <= k < |ms| => RenderMethod(ms[k], className, cfg))
  }

  /** The `extends` clause, present only for a non-empty superclass. */
  function ExtendsClause(superName: Option<string>): string {
    if Truthy(superName) then " extends " + superName.value else ""
  }

  /** `ClassParser.render`: nothing for a file that named no class (or an
      empty one); otherwise the class comment lines (with comments on), the
      `interface` header, the members separated by `,` and a line break, a
      blank line with comments on, and the closing brace. */
  function RenderClass(pf: ParsedFile, cfg: Config): string {
    if !Truthy(pf.className) then ""
    else
      (if cfg.withComments then CommentText(pf.classComment, "") else "")
      + InterfaceHeader(pf.className.value, pf.superName)
      + Join(RenderMethods(pf.methods, pf.className.value, cfg), ",\n")
      + (if cfg.withComments then "\n" else "")
      + "}\n\n"
  }

  /** `interface Name extends Super {` and a line break. */
  function InterfaceHeader(className: string, superName: Option<string>): string {
    "interface " + className + ExtendsClause(superName) + " {\n"
  }

  /** A file without a class contributes nothing to the declaration file. */
  lemma NamelessClassSilent(pf: ParsedFile, cfg: Config)
    requires !Truthy(pf.className)
    ensures RenderClass(pf, cfg) == ""
  {
  }

  /** With comments off a named class renders as its header, its members and
      the closing brace, and the class comment plays no part. */
  lemma UncommentedClass(pf: ParsedFile, comment: seq<string>, cfg: Config)
    requires Truthy(pf.className) && !cfg.withComments
    ensures RenderClass(pf, cfg)
         == InterfaceHeader(pf.className.value, pf.superName)
            + Join(RenderMethods(pf.methods, pf.className.value, cfg), ",\n") + "}\n\n"
    ensures RenderClass(pf.(classComment := comment), cfg) == RenderClass(pf, cfg)
  {
  }

  /** The text of a named class, piece by piece. */
  lemma RenderClassParts(pf: ParsedFile, cfg: Config, comment: string, blank: string)
    requires Truthy(pf.className)
    requires comment == if cfg.withComments then CommentText(pf.classComment, "") else ""
    requires blank == if cfg.withComments then "\n" else ""
    ensures RenderClass(pf, cfg)
         == comment + InterfaceHeader(pf.className.value, pf.superName)
            + (Join(RenderMethods(pf.methods, pf.className.value, cfg), ",\n") + blank + "}\n\n")
  {
  }

  /** A named class always renders its comment and header first, and ends
      with the closing brace and a blank line. */
  lemma NamedClassFrame(pf: ParsedFile, cfg: Config)
    requires Truthy(pf.className)
    ensures var pre := (if cfg.withComments then CommentText(pf.classComment, "") else "")
                       + InterfaceHeader(pf.className.value, pf.superName);
            StartsWith(RenderClass(pf, cfg), pre)
    ensures |RenderClass(pf, cfg)| >= 3
            && RenderClass(pf, cfg)[|RenderClass(pf, cfg)| - 3..] == "}\n\n"
  {
    var comment := if cfg.withComments then CommentText(pf.classComment, "") else "";
    var blank := if cfg.withComments then "\n" else "";
    var pre := comment + InterfaceHeader(pf.className.value, pf.superName);
    var rest := Join(RenderMethods(pf.methods, pf.className.value, cfg), ",\n") + blank + "}\n\n";
    RenderClassParts(pf, cfg, comment, blank);
    assert RenderClass(pf, cfg) == pre + rest;
    assert (pre + rest)[..|pre|] == pre;
  }

  // ---------------------------------------------------------------- objects

  /** The parameter objects of one member. */
  ghost function ParamSet(m: Method): set<Parameter> {
    set i | 0 <= i < |m.parameters| :: m.parameters[i]
  }

  /** The parameter objects of a list of members. */
  ghost function Params(ms: seq<Method>): set<Parameter> {
    if ms == [] then {} else Params(ms[..|ms| - 1]) + ParamSet(ms[|ms| - 1])
  }

  lemma {:induction false} ParamsAllocated(ms: seq<Method>)
    ensures forall p :: p in Params(ms) ==> allocated(p)
  {
    if ms != [] {
      ParamsAllocated(ms[..|ms| - 1]);
      var m := ms[|ms| - 1];
      assert forall i :: 0 <= i < |m.parameters| ==> allocated(m.parameters[i]);
    }
  }

  /** The values of a list of member objects. */
  ghost function MethodValues(ms: seq<Method>): (r: seq<MethodValue>)
    reads Params(ms)
    ensures |r| == |ms|
  {
    if ms == [] then [] else MethodValues(ms[..|ms| - 1]) + [ms[|ms| - 1].Value()]
  }

  lemma MethodValuesSnoc(ms: seq<Method>, m: Method)
    ensures Params(ms + [m]) == Params(ms) + ParamSet(m)
    ensures MethodValues(ms + [m]) == MethodValues(ms) + [m.Value()]
  {
    assert (ms + [m])[..|ms|] == ms;
  }

  lemma {:induction false} MethodValuesAt(ms: seq<Method>, k: nat)
    requires k < |ms|
    ensures MethodValues(ms)[k] == ms[k].Value()
    ensures ParamSet(ms[k]) <= Params(ms)
  {
    if k < |ms| - 1 {
      MethodValuesAt(ms[..|ms| - 1], k);
    }
  }

  class ClassParser {
    const fileName: string
    const className: Option<string>
    const superName: Option<string>
    const classComment: seq<string>
    const methods: seq<Method>

    ghost function Value(): ParsedFile
      reads Params(methods)
    {
      ParsedFile(fileName, className, superName, classComment, MethodValues(methods))
    }

    /** The parser a finished scan of `fileName` leaves: its fields are the
        loop's results, which `Parse` computes. */
    constructor (fileName: string, className: Option<string>, superName: Option<string>,
                 classComment: seq<string>, methods: seq<Method>)
      ensures this.fileName == fileName && this.className == className && this.superName == superName
      ensures this.classComment == classComment && this.methods == methods
    {
      this.fileName := fileName;
      this.className := className;
      this.superName := superName;
      this.classComment := classComment;
      this.methods := methods;
    }

    /** `name`. */
    function Name(): (r: Option<string>)
      ensures r == className
    {
      className
    }

    /** `filename`. */
    function FileName(): (r: string)
      ensures r == fileName
    {
      fileName
    }

    /** `ClassParser.render`, writing step by step to `file`. */
    method Render(file: OutputFile, cfg: Config)
      modifies file
      ensures file.text == old(file.text) + RenderClass(Value(), cfg)
    {
      var name := Name();
      if !Truthy(name) {
        assert RenderClass(Value(), cfg) == "";
        assert file.text == old(file.text) + "";
        return;
      }
      ParamsAllocated(methods);
      ghost var v := Value();
      WriteClass(file, classComment, name.value, superName, methods, cfg);
      assert Value() == v;
      RenderClassParts(v, cfg, if cfg.withComments then CommentText(classComment, "") else "",
                       if cfg.withComments then "\n" else "");
    }
  }

  /** The text of a named class, written piece by piece: the class comment
      (comments on), the header, then the members and the closing brace. */
  method WriteClass(file: OutputFile, classComment: seq<string>, name: string, superName: Option<string>,
                    methods: seq<Method>, cfg: Config)
    modifies file
    ensures file.text == old(file.text)
                         + ((if cfg.withComments then CommentText(classComment, "") else "")
                            + InterfaceHeader(name, superName)
                            + (Join(RenderMethods(MethodValues(methods), name, cfg), ",\n")
                               + (if cfg.withComments then "\n" else "") + "}\n\n"))
  {
    ghost var start := file.text;
    WriteOpening(file, classComment, name, superName, cfg);
    ghost var headed := file.text;
    WriteBody(file, methods, name, cfg);
    ClassTextAssoc(start, headed, file.text,
                   if cfg.withComments then CommentText(classComment, "") else "",
                   InterfaceHeader(name, superName),
                   Join(RenderMethods(MethodValues(methods), name, cfg), ",\n")
                   + (if cfg.withComments then "\n" else "") + "}\n\n");
  }

  /** The class comment (comments on) and the `interface` line. */
  method WriteOpening(file: OutputFile, classComment: seq<string>, name: string, superName: Option<string>,
                      cfg: Config)
    modifies file
    ensures file.text == old(file.text)
                         + ((if cfg.withComments then CommentText(classComment, "") else "")
                            + InterfaceHeader(name, superName))
  {
    if cfg.withComments {
      WriteLines(file, classComment, "");
    }
    WriteHeader(file, name, superName);
  }

  /** Text written as an opening and then a body is the class text. */
  lemma ClassTextAssoc(start: string, headed: string, written: string, comment: string, header: string, body: string)
    requires headed == start + (comment + header)
    requires written == headed + body
    ensures written == start + (comment + header + body)
  {
  }

  /** The members and the closing brace of `ClassParser.render`. */
  method WriteBody(file: OutputFile, methods: seq<Method>, className: string, cfg: Config)
    modifies file
    ensures file.text == old(file.text) + (Join(RenderMethods(MethodValues(methods), className, cfg), ",\n")
                         + (if cfg.withComments then "\n" else "") + "}\n\n")
  {
    ParamsAllocated(methods);
    ghost var members := Join(RenderMethods(MethodValues(methods), className, cfg), ",\n");
    WriteMembers(file, methods, className, cfg);
    if cfg.withComments {
      file.Write("\n");
    }
    file.Write("}\n\n");
    assert file.text == old(file.text) + members + (if cfg.withComments then "\n" else "") + "}\n\n";
    assert MethodValues(methods) == old(MethodValues(methods));
    Concat3(old(file.text), members, if cfg.withComments then "\n" else "", "}\n\n");
  }

  /** The `interface` line of `ClassParser.render`. */
  method WriteHeader(file: OutputFile, className: string, superName: Option<string>)
    modifies file
    ensures file.text == old(file.text) + InterfaceHeader(className, superName)
  {
    file.Write("interface " + className);
    if Truthy(superName) {
      file.Write(" extends " + superName.value);
    }
    file.Write(" {\n");
  }

  /** One round of the member loop: member `idx`, then a comma and a line
      break unless it is the last. */
  method WriteMember(file: OutputFile, methods: seq<Method>, idx: nat, className: string, cfg: Config)
    requires idx < |methods|
    modifies file
    ensures file.text == old(file.text)
              + (RenderMethod(MethodValues(methods)[idx], className, cfg) + (if idx + 1 < |methods| then ",\n" else ""))
  {
    ParamsAllocated(methods);
    MethodValuesAt(methods, idx);
    methods[idx].Render(file, className, cfg);
    if idx < |methods| - 1 {
      file.Write(",\n");
    }
  }

  /** The member loop of `ClassParser.render`: each member rendered, with a
      comma and a line break after every one but the last. */
  method WriteMembers(file: OutputFile, methods: seq<Method>, className: string, cfg: Config)
    modifies file
    ensures file.text == old(file.text) + Join(RenderMethods(MethodValues(methods), className, cfg), ",\n")
  {
    ghost var items := RenderMethods(MethodValues(methods), className, cfg);
    ParamsAllocated(methods);
    for idx := 0 to |methods|
      invariant file.text == old(file.text) + JoinPrefix(items, ",\n", idx)
    {
      WriteMember(file, methods, idx, className, cfg);
      ghost var sep := if idx + 1 < |items| then ",\n" else "";
      assert JoinPrefix(items, ",\n", idx + 1) == JoinPrefix(items, ",\n", idx) + items[idx] + sep;
      Concat3(old(file.text), JoinPrefix(items, ",\n", idx), items[idx], sep);
    }
    JoinPrefixComplete(items, ",\n");
  }

  // ---------------------------------------------------------------- parsing

  /** The current block as a value: `None` while no block was ever opened. */
  ghost function CommentOf(c: Comment?): Option<CommentValue>
    reads c
  {
    if c == null then None else Some(c.Value())
  }

  /** The annotation part of reading an interior block line: `@return` sets
      the block's return type, `@param` registers a parameter's type. */
  method ReadAnnotation(comment: Comment, sline: string)
    modifies comment
    ensures comment.Value() == Annotate(old(comment.Value()), sline)
  {
    var lineArray := Tokens(sline, CommentSeparators);
    if |lineArray| > 2 {
      var annotation := lineArray[0];
      if StartsWith(annotation, "@return") {
        comment.SetReturnType(lineArray[1]);
      } else if StartsWith(annotation, "@param") {
        comment.RegisterType(lineArray[1], lineArray[2]);
      }
    }
  }

  /** The first `if` chain of the scanning loop, on the block state
      (`in_comment_mode`, `current_comment`); `ok` is false where the source
      dereferences a missing block. */
  method ReadComment(sline: string, inComment: bool, current: Comment?, ghost st: ScanState)
    returns (ok: bool, inComment': bool, current': Comment?)
    requires st.inComment == inComment && st.comment == CommentOf(current)
    modifies current
    ensures ok <==> CommentStep(st, sline).Ok?
    ensures ok ==> inComment' == CommentStep(st, sline).value.inComment
                   && CommentOf(current') == CommentStep(st, sline).value.comment
    ensures current' != null ==> current' == current || fresh(current')
  {
    ok, inComment', current' := true, inComment, current;
    if StartsWith(sline, "/**") {
      inComment' := true;
      current' := new Comment();
      current'.AddLine(sline);
    } else if StartsWith(sline, "*/") {
      if current == null {
        ok := false;
        return;
      }
      current.AddLine(sline);
      inComment' := false;
    } else if inComment {
      if current == null {
        ok := false;
        return;
      }
      current.AddLine(sline);
      ReadAnnotation(current, sline);
    }
  }

  /** What the second `if` chain of the scanning loop updates: the class
      name, superclass, class comment and member objects found so far. */
  datatype Declarations = Declarations(
    className: Option<string>,
    superName: Option<string>,
    classComment: seq<string>,
    methods: seq<Method>)

  ghost predicate Mirrors(st: ScanState, d: Declarations, cfg: Config)
    reads Params(d.methods)
  {
    st.className == d.className && st.superName == d.superName
    && st.classComment == d.classComment && MethodValues(d.methods) == Members(st.members, cfg)
  }

  /** The second `if` chain of the scanning loop; `ok` is false where the
      source dereferences a missing block. */
  method ReadDeclaration(line: string, sline: string, current: Comment?, d: Declarations, cfg: Config,
                         ghost st: ScanState)
    returns (ok: bool, d': Declarations)
    requires st.comment == CommentOf(current) && Mirrors(st, d, cfg)
    ensures ok <==> DeclarationStep(st, line, sline).Ok?
    ensures ok ==> Mirrors(DeclarationStep(st, line, sline).value, d', cfg)
  {
    ok, d' := true, d;
    if StartsWith(sline, "var") {
    } else if StartsWith(sline, "function") {
      var m := WordRuns(sline);
      if |m| > 1 {
        if current == null {
          ok := false;
          return;
        }
        d' := d.(className := Some(m[1]), classComment := current.GetComments());
      }
    } else if Truthy(d.className) && StartsWith(line, Prototype(d.className.value) + ".") {
      var lineArray := Tokens(sline, DeclarationSeparators);
      if |lineArray| > 3 {
        if current == null {
          ok := false;
          return;
        }
        d' := AddMember(d, lineArray, current, cfg, st);
      }
    } else if d.className.Some? && StartsWith(line, Prototype(d.className.value)) {
      var lineArray := Tokens(sline, DeclarationSeparators);
      if |lineArray| > 3 {
        d' := d.(superName := Some(lineArray[3]));
      }
    }
  }

  /** A member declaration: the member is built from the tokens and the
      current block, and kept unless it is the constructor. */
  method AddMember(d: Declarations, lineArray: seq<string>, current: Comment, cfg: Config, ghost st: ScanState)
    returns (d': Declarations)
    requires Truthy(d.className) && |lineArray| > 3 && Mirrors(st, d, cfg)
    ensures Mirrors(if lineArray[2] == "constructor" then st
                    else st.(members := st.members + [Declaration(d.className.value, lineArray, current.Value())]),
                    d', cfg)
  {
    ghost var before := MethodValues(d.methods);
    ParamsAllocated(d.methods);
    var method_ := new Method(d.className.value, lineArray, current, cfg);
    assert MethodValues(d.methods) == before;
    if !method_.IsConstructor() {
      MethodValuesSnoc(d.methods, method_);
      MembersSnoc(st.members, Declaration(d.className.value, lineArray, current.Value()), cfg);
      d' := d.(methods := d.methods + [method_]);
    } else {
      d' := d;
    }
  }

  /** One round of the scanning loop: both `if` chains on one line. */
  method ScanLine(line: string, inComment: bool, current: Comment?, d: Declarations, cfg: Config,
                  ghost st: ScanState)
    returns (ok: bool, inComment': bool, current': Comment?, d': Declarations)
    requires st.inComment == inComment && st.comment == CommentOf(current) && Mirrors(st, d, cfg)
    modifies current
    ensures ok <==> Step(st, line).Ok?
    ensures ok ==> Step(st, line).value.inComment == inComment'
                   && Step(st, line).value.comment == CommentOf(current')
                   && Mirrors(Step(st, line).value, d', cfg)
    ensures current' != null ==> current' == current || fresh(current')
  {
    var sline := Strip(line);
    ParamsAllocated(d.methods);
    ok, inComment', current' := ReadComment(sline, inComment, current, st);
    d' := d;
    if !ok {
      StepFailsEarly(st, line);
      return;
    }
    ghost var st1 := CommentStep(st, sline).value;
    assert Mirrors(st1, d, cfg);
    ok, d' := ReadDeclaration(line, sline, current', d, cfg, st1);
    StepThroughDeclaration(st, line);
  }

  lemma StepFailsEarly(st: ScanState, line: string)
    requires CommentStep(st, Strip(line)).Err?
    ensures Step(st, line).Err?
  {
  }

  lemma StepThroughDeclaration(st: ScanState, line: string)
    requires CommentStep(st, Strip(line)).Ok?
    ensures Step(st, line) == DeclarationStep(CommentStep(st, Strip(line)).value, line, Strip(line))
  {
  }

  /** `ClassParser(lines, filename)`: the scanning loop over the lines of one
      stub file. `Err` stands for the exception the source raises where a
      line dereferences a missing documentation block. */
  method Parse(lines: seq<string>, fileName: string, cfg: Config) returns (r: Result<ClassParser>)
    ensures r.Ok? <==> ScanLines(lines).Ok?
    ensures r.Ok? ==> r.value.Value() == Parsed(fileName, ScanLines(lines).value, cfg)
  {
    var d := Declarations(None, None, [], []);
    var inComment := false;
    var current: Comment? := null;
    ghost var st := Initial;
    for i := 0 to |lines|
      invariant ScanLines(lines[..i]) == Ok(st)
      invariant st.inComment == inComment && st.comment == CommentOf(current) && Mirrors(st, d, cfg)
      invariant current != null ==> fresh(current)
    {
      var ok;
      ok, inComment, current, d := ScanLine(lines[i], inComment, current, d, cfg, st);
      if !ok {
        ScanFailsAt(lines, i, st);
        return Err(NoComment);
      }
      ScanLinesNext(lines, i, st);
      st := Step(st, lines[i]).value;
    }
    assert lines[..|lines|] == lines;
    var parser := NewParser(fileName, d, st, cfg);
    r := Ok(parser);
  }

  lemma ScanLinesNext(lines: seq<string>, i: nat, st: ScanState)
    requires i < |lines| && ScanLines(lines[..i]) == Ok(st)
    ensures ScanLines(lines[..i + 1]) == Step(st, lines[i])
  {
    assert lines[..i + 1] == lines[..i] + [lines[i]];
    ScanLinesSnoc(lines[..i], lines[i]);
  }

  lemma ScanFailsAt(lines: seq<string>, i: nat, st: ScanState)
    requires i < |lines| && ScanLines(lines[..i]) == Ok(st) && Step(st, lines[i]).Err?
    ensures ScanLines(lines).Err?
  {
    ScanLinesNext(lines, i, st);
    SplitAt(lines, i + 1);
    FailureIsFinal(lines[..i + 1], lines[i + 1..]);
  }

  lemma SplitAt(lines: seq<string>, k: nat)
    requires k <= |lines|
    ensures lines == lines[..k] + lines[k..]
  {
  }

  /** The parser object built from the loop's results. */
  method NewParser(fileName: string, d: Declarations, ghost st: ScanState, cfg: Config) returns (parser: ClassParser)
    requires Mirrors(st, d, cfg)
    ensures parser.Value() == Parsed(fileName, st, cfg)
  {
    ParamsAllocated(d.methods);
    ghost var values := MethodValues(d.methods);
    parser := new ClassParser(fileName, d.className, d.superName, d.classComment, d.methods);
    assert MethodValues(d.methods) == values;
  }
}

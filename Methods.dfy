/** Parameters and methods of one API class (`Parameter`, `Method`): how a
    declaration line's tokens and the preceding documentation block become a
    member, and how that member is written to the declaration file. */
module Methods {
  import opened Common
  import opened Tokenize
  import opened Types
  import opened Settings
  import opened Comments
  import opened Files

  datatype ParamValue = ParamValue(name: string, typeStr: Option<string>)

  datatype MethodValue = MethodValue(
    name: string,
    params: seq<ParamValue>,
    returnType: Option<string>,
    lines: seq<string>,
    isConstructor: bool)

  /** `s[n:]` in Python: empty when `s` is too short. */
  function Drop(s: seq<string>, n: nat): seq<string> {
    if |s| <= n then [] else s[n..]
  }

  /** A parameter as `Parameter(name, comment)` creates it: the name, and the
      type the documentation block registered for it, if any. */
  function Documented(arg: string, c: CommentValue): ParamValue {
    ParamValue(arg, LookupType(c, arg))
  }

  /** What one declared argument of an ordinary method contributes to its
      parameter list: nothing when the override table suppresses it, the
      override literal (with no type) when the table replaces it, the
      documented parameter otherwise. The table applies only with types on. */
  function ParamFor(className: string, methodName: string, arg: string, c: CommentValue, cfg: Config): seq<ParamValue> {
    var q := ParameterPath(className, methodName, arg);
    if q in cfg.parameterPaths && cfg.withTypes then
      match cfg.parameterPaths[q]
      case Suppress => []
      case Literal(text) => [ParamValue(text, None)]
    else [Documented(arg, c)]
  }

  /** The parameter list the loop over an ordinary method's arguments builds. */
  function MethodParams(className: string, methodName: string, args: seq<string>, c: CommentValue, cfg: Config): seq<ParamValue> {
    if args == [] then []
    else MethodParams(className, methodName, args[..|args| - 1], c, cfg)
         + ParamFor(className, methodName, args[|args| - 1], c, cfg)
  }

  /** A constructor keeps every argument, with its documented type, in order. */
  function ConstructorParams(args: seq<string>, c: CommentValue): (r: seq<ParamValue>)
    ensures |r| == |args|
  {
    if args == [] then []
    else ConstructorParams(args[..|args| - 1], c) + [Documented(args[|args| - 1], c)]
  }

  /** Each constructor argument becomes the documented parameter of that name. */
  lemma {:induction false} ConstructorParamsAt(args: seq<string>, c: CommentValue, k: nat)
    requires k < |args|
    ensures ConstructorParams(args, c)[k] == Documented(args[k], c)
  {
    if k < |args| - 1 {
      ConstructorParamsAt(args[..|args| - 1], c, k);
    }
  }

  /** The member `Method(className, deflist, comment)` builds from the tokens of
      a declaration line: token 2 names it; a constructor takes its parameters
      from token 3 on, any other method from token 4 on. */
  function MethodSpec(className: string, deflist: seq<string>, c: CommentValue, cfg: Config): MethodValue
    requires |deflist| > 2
  {
    var name := deflist[2];
    var isConstructor := name == "constructor";
    MethodValue(
      name,
      if isConstructor then ConstructorParams(deflist[3..], c)
      else MethodParams(className, name, Drop(deflist, 4), c, cfg),
      Coerce(c.returnType),
      c.lines,
      isConstructor)
  }

  /** `constr_param` on a member value. */
  function ConstructorArgument(m: MethodValue): Option<string> {
    if m.isConstructor && |m.params| > 0 then Some(m.params[0].name) else None
  }

  lemma MethodParamsSnoc(className: string, methodName: string, args: seq<string>, arg: string, c: CommentValue, cfg: Config)
    ensures MethodParams(className, methodName, args + [arg], c, cfg)
         == MethodParams(className, methodName, args, c, cfg) + ParamFor(className, methodName, arg, c, cfg)
  {
    assert (args + [arg])[..|args|] == args;
  }

  /** Argument lists concatenate. */
  lemma {:induction false} MethodParamsAppend(className: string, methodName: string, a: seq<string>, b: seq<string>, c: CommentValue, cfg: Config)
    ensures MethodParams(className, methodName, a + b, c, cfg)
         == MethodParams(className, methodName, a, c, cfg) + MethodParams(className, methodName, b, c, cfg)
    decreases |b|
  {
    if b == [] {
      assert a + b == a;
    } else {
      var b' := b[..|b| - 1];
      assert (a + b)[..|a + b| - 1] == a + b';
      MethodParamsAppend(className, methodName, a, b', c, cfg);
    }
  }

  /** Where no override applies (types off, or no argument's path in the
      table), every argument is kept with its documented type, in order. */
  lemma {:induction false} MethodParamsPlain(className: string, methodName: string, args: seq<string>, c: CommentValue, cfg: Config)
    requires !cfg.withTypes || forall a :: a in args ==> ParameterPath(className, methodName, a) !in cfg.parameterPaths
    ensures MethodParams(className, methodName, args, c, cfg) == ConstructorParams(args, c)
  {
    if args != [] {
      var init := args[..|args| - 1];
      assert forall a :: a in init ==> a in args;
      MethodParamsPlain(className, methodName, init, c, cfg);
    }
  }

  /** A suppressed argument leaves no trace: the list is the one built from
      the other arguments. */
  lemma SuppressedArgumentOmitted(className: string, methodName: string, args: seq<string>, j: nat, c: CommentValue, cfg: Config)
    requires j < |args| && cfg.withTypes
    requires ParameterPath(className, methodName, args[j]) in cfg.parameterPaths
    requires cfg.parameterPaths[ParameterPath(className, methodName, args[j])] == Suppress
    ensures MethodParams(className, methodName, args, c, cfg)
         == MethodParams(className, methodName, args[..j] + args[j + 1..], c, cfg)
  {
    var pre, post := args[..j], args[j + 1..];
    assert args == pre + [args[j]] + post;
    assert [args[j]][..0] == [];
    assert MethodParams(className, methodName, [args[j]], c, cfg) == [];
    MethodParamsAppend(className, methodName, pre + [args[j]], post, c, cfg);
    MethodParamsAppend(className, methodName, pre, [args[j]], c, cfg);
    MethodParamsAppend(className, methodName, pre, post, c, cfg);
  }

  /** A replaced argument stands in its place as the literal alone, and renders
      as exactly that literal. */
  lemma LiteralArgumentRendered(className: string, methodName: string, args: seq<string>, j: nat, text: string, c: CommentValue, cfg: Config)
    requires j < |args| && cfg.withTypes
    requires ParameterPath(className, methodName, args[j]) in cfg.parameterPaths
    requires cfg.parameterPaths[ParameterPath(className, methodName, args[j])] == Literal(text)
    ensures MethodParams(className, methodName, args, c, cfg)
         == MethodParams(className, methodName, args[..j], c, cfg) + [ParamValue(text, None)]
            + MethodParams(className, methodName, args[j + 1..], c, cfg)
    ensures RenderParam(ParamValue(text, None), cfg.withTypes) == text
  {
    assert args == args[..j] + [args[j]] + args[j + 1..];
    MethodParamsAppend(className, methodName, args[..j] + [args[j]], args[j + 1..], c, cfg);
    MethodParamsAppend(className, methodName, args[..j], [args[j]], c, cfg);
    assert MethodParams(className, methodName, [args[j]], c, cfg) == [ParamValue(text, None)];
  }

  /** `constr_param` yields token 3 of a constructor declaration (its first
      argument), and nothing for a constructor without arguments or for any
      other method. */
  lemma ConstructorArgumentIsToken3(className: string, deflist: seq<string>, c: CommentValue, cfg: Config)
    requires |deflist| > 2
    ensures ConstructorArgument(MethodSpec(className, deflist, c, cfg))
         == if deflist[2] == "constructor" && |deflist| > 3 then Some(deflist[3]) else None
  {
    if deflist[2] == "constructor" && |deflist| > 3 {
      ConstructorParamsAt(deflist[3..], c, 0);
    }
  }

  // ---------------------------------------------------------------- rendering

  /** One parameter: `name : type` when types are on and its coerced type is
      non-empty, the bare name otherwise. */
  function RenderParam(p: ParamValue, withTypes: bool): string {
    var t := Coerce(p.typeStr);
    if Truthy(t) && withTypes then p.name + " : " + t.value else p.name
  }

  function RenderParams(ps: seq<ParamValue>, withTypes: bool): (r: seq<string>)
    ensures |r| == |ps|
  {
    seq(|ps|, k requires 0 <= k < |ps| => RenderParam(ps[k], withTypes))
  }

  function Names(ps: seq<ParamValue>): (r: seq<string>)
    ensures |r| == |ps|
  {
    seq(|ps|, k requires 0 <= k < |ps| => ps[k].name)
  }

  /** The text between the parentheses: the `functionPaths` entry when types
      are on and the method has one, the rendered parameters joined by `, `
      otherwise. */
  function ParamList(name: string, ps: seq<ParamValue>, className: string, cfg: Config): string {
    var q := MethodPath(className, name);
    if q in cfg.functionPaths && cfg.withTypes then cfg.functionPaths[q]
    else Join(RenderParams(ps, cfg.withTypes), ", ")
  }

  /** `) : T`, `) : void` without a (non-empty) return type, `)` with types off. */
  function ReturnSuffix(returnType: Option<string>, withTypes: bool): string {
    if withTypes then (if Truthy(returnType) then ") : " + returnType.value else ") : void")
    else ")"
  }

  /** Each line on a line of its own after `indent`. */
  function CommentText(lines: seq<string>, indent: string): string {
    if lines == [] then ""
    else CommentText(lines[..|lines| - 1], indent) + indent + lines[|lines| - 1] + "\n"
  }

  /** `Method.render`: nothing for a constructor; otherwise the comment lines
      indented by four spaces (with comments on), then five spaces, the name,
      `(`, the parameter list and the return suffix. */
  function RenderMethod(m: MethodValue, className: string, cfg: Config): string {
    if m.isConstructor then ""
    else
      (if cfg.withComments then CommentText(m.lines, "    ") else "")
      + Signature(m.name, m.params, m.returnType, className, cfg)
  }

  /** The signature line of a member, without its line break. */
  function Signature(name: string, ps: seq<ParamValue>, returnType: Option<string>, className: string, cfg: Config): string {
    "     " + name + "(" + ParamList(name, ps, className, cfg) + ReturnSuffix(returnType, cfg.withTypes)
  }

  /** With types off the signature is the bare names joined by `, ` and a
      closing parenthesis, whatever the types and the override tables say. */
  lemma UntypedSignature(m: MethodValue, className: string, cfg: Config)
    requires !cfg.withTypes && !m.isConstructor
    ensures RenderMethod(m, className, cfg)
         == (if cfg.withComments then CommentText(m.lines, "    ") else "")
            + "     " + m.name + "(" + Join(Names(m.params), ", ") + ")"
  {
    assert RenderParams(m.params, false) == Names(m.params);
  }

  /** A `functionPaths` entry replaces the whole list: the parameters then do
      not matter. */
  lemma FunctionPathReplacesList(m: MethodValue, ps: seq<ParamValue>, className: string, cfg: Config)
    requires cfg.withTypes && MethodPath(className, m.name) in cfg.functionPaths
    ensures RenderMethod(m, className, cfg) == RenderMethod(m.(params := ps), className, cfg)
    ensures ParamList(m.name, m.params, className, cfg) == cfg.functionPaths[MethodPath(className, m.name)]
  {
  }

  /** A member `m(x)` whose block says `@param {int} x`, with no override
      and no return type, renders as `m(x : number) : void`. */
  lemma DocumentedIntParameter(c: string, m: string, x: string, comment: CommentValue, cfg: Config)
    requires cfg.withTypes && !cfg.withComments && m != "constructor"
    requires ParameterPath(c, m, x) !in cfg.parameterPaths && MethodPath(c, m) !in cfg.functionPaths
    requires LookupType(comment, x) == Some("int") && comment.returnType.None?
    ensures RenderMethod(MethodSpec(c, [c, "prototype", m, "function", x], comment, cfg), c, cfg)
         == "     " + m + "(" + x + " : number) : void"
  {
    var member := MethodSpec(c, [c, "prototype", m, "function", x], comment, cfg);
    assert Drop([c, "prototype", m, "function", x], 4) == [x];
    assert MethodParams(c, m, [x], comment, cfg) == [ParamValue(x, Some("int"))];
    assert member.params == [ParamValue(x, Some("int"))];
    assert Coerce(Some("int")) == Some("number");
    assert RenderParam(member.params[0], true) == x + " : number";
    assert RenderParams(member.params, true) == [x + " : number"];
  }

  // ---------------------------------------------------------------- objects

  class Parameter {
    var name: string
    var typeStr: Option<string>

    function Value(): ParamValue
      reads this
    {
      ParamValue(name, typeStr)
    }

    /** `Parameter(name, comment)`: the type is whatever `comment` registered. */
    constructor (name: string, comment: Comment)
      ensures Value() == Documented(name, comment.Value())
    {
      this.name := name;
      typeStr := comment.GetType(name);
    }

    /** `overwrite`: the literal becomes the name, and the type is dropped. */
    method Overwrite(display: string)
      modifies this
      ensures Value() == ParamValue(display, None)
    {
      name := display;
      typeStr := None;
    }

    /** `Parameter.type`: the declared type coerced by the fixed mapping. */
    function Type(): (r: Option<string>)
      reads this
      ensures r == Coerce(typeStr)
    {
      if typeStr == Some("function") then Some("() => void")
      else if typeStr == Some("byte[]") then Some("number[]")
      else if typeStr == Some("int") || typeStr == Some("double")
           || typeStr == Some("long") || typeStr == Some("byte") then Some("number")
      else typeStr
    }
  }

  /** The values of a list of parameter objects. */
  function ParamValues(ps: seq<Parameter>): (r: seq<ParamValue>)
    reads ps
    ensures |r| == |ps|
  {
    if ps == [] then [] else ParamValues(ps[..|ps| - 1]) + [ps[|ps| - 1].Value()]
  }

  lemma {:induction false} ParamValuesAt(ps: seq<Parameter>, k: nat)
    requires k < |ps|
    ensures ParamValues(ps)[k] == ps[k].Value()
  {
    if k < |ps| - 1 {
      ParamValuesAt(ps[..|ps| - 1], k);
    }
  }

  lemma ParamValuesSnoc(ps: seq<Parameter>, p: Parameter)
    ensures ParamValues(ps + [p]) == ParamValues(ps) + [p.Value()]
  {
    assert (ps + [p])[..|ps|] == ps;
  }

  /** The constructor branch of `Method.__init__`: one parameter per token from
      index 3 on. */
  method ConstructorParameters(deflist: seq<string>, comment: Comment) returns (ps: seq<Parameter>)
    requires |deflist| > 2
    ensures ParamValues(ps) == ConstructorParams(deflist[3..], comment.Value())
  {
    ps := [];
    var idx := 3;
    while idx < |deflist|
      invariant 3 <= idx <= |deflist|
      invariant ParamValues(ps) == ConstructorParams(deflist[3..idx], comment.Value())
    {
      var p := new Parameter(deflist[idx], comment);
      assert deflist[3..idx + 1] == deflist[3..idx] + [deflist[idx]];
      ParamValuesSnoc(ps, p);
      ps := ps + [p];
      idx := idx + 1;
    }
    assert deflist[3..idx] == deflist[3..];
  }

  /** One round of the ordinary branch of `Method.__init__`: the parameter for
      `arg`, appended unless `parameterPaths` suppresses it, and overwritten
      with the table's literal when it replaces it (types on). */
  method AppendParameter(className: string, name: string, arg: string, comment: Comment, cfg: Config, ps: seq<Parameter>)
    returns (ps': seq<Parameter>)
    ensures ParamValues(ps') == ParamValues(ps) + ParamFor(className, name, arg, comment.Value(), cfg)
  {
    var p := new Parameter(arg, comment);
    var qpath := ParameterPath(className, name, p.name);
    if qpath in cfg.parameterPaths && cfg.withTypes {
      var ref := cfg.parameterPaths[qpath];
      if ref != Suppress {
        p.Overwrite(ref.text);
        ParamValuesSnoc(ps, p);
        ps' := ps + [p];
      } else {
        ps' := ps;
      }
    } else {
      ParamValuesSnoc(ps, p);
      ps' := ps + [p];
    }
  }

  /** The ordinary branch of `Method.__init__`: one parameter per token from
      index 4 on, dropped or overwritten as `parameterPaths` says when types
      are on. */
  method OrdinaryParameters(className: string, deflist: seq<string>, comment: Comment, cfg: Config)
    returns (ps: seq<Parameter>)
    requires |deflist| > 2
    ensures ParamValues(ps) == MethodParams(className, deflist[2], Drop(deflist, 4), comment.Value(), cfg)
  {
    var name := deflist[2];
    ghost var args := Drop(deflist, 4);
    ps := [];
    var idx := 4;
    while idx < |deflist|
      invariant 4 <= idx && idx - 4 <= |args|
      invariant ParamValues(ps) == MethodParams(className, name, args[..idx - 4], comment.Value(), cfg)
    {
      assert args[..idx + 1 - 4] == args[..idx - 4] + [deflist[idx]];
      MethodParamsSnoc(className, name, args[..idx - 4], deflist[idx], comment.Value(), cfg);
      ps := AppendParameter(className, name, deflist[idx], comment, cfg, ps);
      idx := idx + 1;
    }
    assert args[..idx - 4] == args;
  }

  lemma Concat3(t: string, a: string, b: string, c: string)
    ensures t + a + (b + c) == t + (a + b + c)
    ensures t + a + b + c == t + (a + b + c)
  {
  }

  /** The comment loops of both `render` methods: each line after `indent`,
      on a line of its own. */
  method WriteLines(file: OutputFile, lines: seq<string>, indent: string)
    modifies file
    ensures file.text == old(file.text) + CommentText(lines, indent)
  {
    for i := 0 to |lines|
      invariant file.text == old(file.text) + CommentText(lines[..i], indent)
    {
      assert lines[..i + 1][..i] == lines[..i];
      file.Write(indent + lines[i] + "\n");
    }
    assert lines[..|lines|] == lines;
  }

  /** One parameter as `Method.render` writes it. */
  method WriteParameter(file: OutputFile, parameter: Parameter, withTypes: bool)
    modifies file
    ensures file.text == old(file.text) + RenderParam(parameter.Value(), withTypes)
  {
    var t := parameter.Type();
    if Truthy(t) && withTypes {
      file.Write(parameter.name + " : " + t.value);
    } else {
      file.Write(parameter.name);
    }
  }

  /** The parameter loop of `Method.render`: each parameter as `name : type`
      or `name`, with `, ` after every one but the last. */
  method WriteParameters(file: OutputFile, parameters: seq<Parameter>, withTypes: bool)
    modifies file
    ensures file.text == old(file.text) + Join(RenderParams(ParamValues(parameters), withTypes), ", ")
  {
    ghost var items := RenderParams(ParamValues(parameters), withTypes);
    for idx := 0 to |parameters|
      invariant file.text == old(file.text) + JoinPrefix(items, ", ", idx)
    {
      ghost var before := file.text;
      ParamValuesAt(parameters, idx);
      WriteParameter(file, parameters[idx], withTypes);
      assert file.text == before + items[idx];
      if idx < |parameters| - 1 {
        file.Write(", ");
      }
      ghost var sep := if idx + 1 < |items| then ", " else "";
      assert file.text == before + (items[idx] + sep);
      assert JoinPrefix(items, ", ", idx + 1) == JoinPrefix(items, ", ", idx) + items[idx] + sep;
      Concat3(old(file.text), JoinPrefix(items, ", ", idx), items[idx], sep);
    }
    JoinPrefixComplete(items, ", ");
  }

  /** The signature part of `Method.render`: five spaces, the name, the
      parameter list (or its `functionPaths` replacement) and the return suffix. */
  method WriteSignature(file: OutputFile, name: string, parameters: seq<Parameter>, returnType: Option<string>,
                        className: string, cfg: Config)
    modifies file
    ensures file.text == old(file.text) + Signature(name, ParamValues(parameters), returnType, className, cfg)
  {
    ghost var head := "     " + name + "(";
    ghost var list := ParamList(name, ParamValues(parameters), className, cfg);
    ghost var suffix := ReturnSuffix(returnType, cfg.withTypes);
    file.Write("     " + name + "(");
    WriteParamList(file, name, parameters, className, cfg);
    WriteReturnSuffix(file, returnType, cfg.withTypes);
    assert file.text == old(file.text) + head + list + suffix;
    Concat3(old(file.text), head, list, suffix);
  }

  /** The text between the parentheses of `Method.render`. */
  method WriteParamList(file: OutputFile, name: string, parameters: seq<Parameter>, className: string, cfg: Config)
    modifies file
    ensures file.text == old(file.text) + ParamList(name, ParamValues(parameters), className, cfg)
  {
    var qPath := MethodPath(className, name);
    if qPath in cfg.functionPaths && cfg.withTypes {
      file.Write(cfg.functionPaths[qPath]);
    } else {
      WriteParameters(file, parameters, cfg.withTypes);
    }
  }

  /** The closing parenthesis of `Method.render`, with the return type when
      types are on. */
  method WriteReturnSuffix(file: OutputFile, returnType: Option<string>, withTypes: bool)
    modifies file
    ensures file.text == old(file.text) + ReturnSuffix(returnType, withTypes)
  {
    if withTypes {
      if Truthy(returnType) {
        file.Write(") : " + returnType.value);
      } else {
        file.Write(") : void");
      }
    } else {
      file.Write(")");
    }
  }

  class Method {
    const name: string
    const parameters: seq<Parameter>
    const returnType: Option<string>
    const lines: seq<string>
    const isConstructor: bool

    ghost function Value(): MethodValue
      reads parameters
    {
      MethodValue(name, ParamValues(parameters), returnType, lines, isConstructor)
    }

    /** `Method(className, deflist, comment)`, with the override table applied
        to each ordinary argument. */
    constructor (className: string, deflist: seq<string>, comment: Comment, cfg: Config)
      requires |deflist| > 2
      ensures Value() == MethodSpec(className, deflist, comment.Value(), cfg)
    {
      name := deflist[2];
      returnType := comment.GetReturnType();
      lines := comment.GetComments();
      if deflist[2] == "constructor" {
        isConstructor := true;
        var ps := ConstructorParameters(deflist, comment);
        parameters := ps;
      } else {
        isConstructor := false;
        var ps := OrdinaryParameters(className, deflist, comment, cfg);
        parameters := ps;
      }
    }

    /** `is_constructor`. */
    function IsConstructor(): bool {
      isConstructor
    }

    /** `constr_param`: the first parameter's name of a constructor. */
    function ConstrParam(): (r: Option<string>)
      reads parameters
      ensures r == ConstructorArgument(Value())
    {
      if isConstructor && |parameters| > 0 then
        ParamValuesAt(parameters, 0);
        Some(parameters[0].name)
      else None
    }

    /** `Method.render`, writing step by step to `file`. */
    method Render(file: OutputFile, className: string, cfg: Config)
      modifies file
      ensures file.text == old(file.text) + RenderMethod(Value(), className, cfg)
    {
      if !isConstructor {
        if cfg.withComments {
          WriteLines(file, lines, "    ");
        }
        WriteSignature(file, name, parameters, returnType, className, cfg);
      }
    }
  }
}

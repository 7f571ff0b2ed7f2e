/** A documentation block (`Comment`): its passthrough lines, the declared type
    of each `@param` by parameter name, and the `@return` type. */
module Comments {
  import opened Common
  import opened Tokenize
  import opened Types

  datatype CommentValue = CommentValue(
    returnType: Option<string>,
    params: map<string, string>,
    lines: seq<string>)

  /** A freshly opened block. */
  const EmptyComment := CommentValue(None, map[], [])

  /** No stored type holds a brace. */
  ghost predicate BraceFree(c: CommentValue) {
    (c.returnType.Some? ==> NoneOf(c.returnType.value, Braces))
    && forall n :: n in c.params ==> NoneOf(c.params[n], Braces)
  }

  function WithLine(c: CommentValue, line: string): CommentValue {
    c.(lines := c.lines + [line])
  }

  function WithReturnType(c: CommentValue, t: string): CommentValue {
    c.(returnType := Some(RemoveBraces(t)))
  }

  function WithParamType(c: CommentValue, t: string, paramName: string): CommentValue {
    c.(params := c.params[paramName := RemoveBraces(t)])
  }

  /** `get_type`: the registered type of a parameter, `None` exactly when the
      name was never registered. */
  function LookupType(c: CommentValue, paramName: string): (r: Option<string>)
    ensures r.None? <==> paramName !in c.params
    ensures r.Some? ==> r.value == c.params[paramName]
  {
    if paramName in c.params then Some(c.params[paramName]) else None
  }

  /** Registering a type stores it without braces; a later registration of the
      same name replaces the earlier one, and no other name is affected. */
  lemma RegisterThenLookup(c: CommentValue, t: string, paramName: string, other: string)
    ensures LookupType(WithParamType(c, t, paramName), other)
         == if other == paramName then Some(RemoveBraces(t)) else LookupType(c, other)
  {
  }

  /** Every update keeps the stored types brace-free. */
  lemma BraceFreeKept(c: CommentValue, t: string, paramName: string, line: string)
    requires BraceFree(c)
    ensures BraceFree(WithLine(c, line))
    ensures BraceFree(WithReturnType(c, t))
    ensures BraceFree(WithParamType(c, t, paramName))
  {
    RemoveDrops(t, Braces);
  }

  class Comment {
    var returnType: Option<string>
    var paramDict: map<string, string>
    var lines: seq<string>

    function Value(): CommentValue
      reads this
    {
      CommentValue(returnType, paramDict, lines)
    }

    constructor ()
      ensures Value() == EmptyComment
    {
      returnType := None;
      paramDict := map[];
      lines := [];
    }

    /** `set_return_type`: stores the type with its braces removed. */
    method SetReturnType(t: string)
      modifies this
      ensures Value() == WithReturnType(old(Value()), t)
    {
      returnType := Some(RemoveBraces(t));
    }

    /** `get_return_type`: the stored return type, coerced by the same mapping
        as parameter types. */
    function GetReturnType(): (r: Option<string>)
      reads this
      ensures r == Coerce(returnType)
    {
      if returnType == Some("function") then Some("() => void")
      else if returnType == Some("byte[]") then Some("number[]")
      else if returnType == Some("int") || returnType == Some("double")
           || returnType == Some("long") || returnType == Some("byte") then Some("number")
      else returnType
    }

    /** `register_type`: records the type of `paramName` with its braces removed. */
    method RegisterType(t: string, paramName: string)
      modifies this
      ensures Value() == WithParamType(old(Value()), t, paramName)
    {
      paramDict := paramDict[paramName := RemoveBraces(t)];
    }

    /** `get_type`: `None` exactly when `paramName` was never registered. */
    function GetType(paramName: string): (r: Option<string>)
      reads this
      ensures r == LookupType(Value(), paramName)
    {
      if paramName in paramDict then Some(paramDict[paramName]) else None
    }

    /** `add_line`: appends one passthrough line. */
    method AddLine(line: string)
      modifies this
      ensures Value() == WithLine(old(Value()), line)
    {
      lines := lines + [line];
    }

    /** `get_comments`: the passthrough lines in the order they were added. */
    function GetComments(): (r: seq<string>)
      reads this
      ensures r == Value().lines
    {
      lines
    }
  }
}

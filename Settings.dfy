/** The converter's compiled-in configuration: the two output toggles and the
    two override tables keyed by qualified names. */
module Settings {

  /** A `parameterPaths` entry: the `-1` sentinel hides the parameter, a string
      replaces its whole `name : type` text. */
  datatype Override = Suppress | Literal(text: string)

  datatype Config = Config(
    withComments: bool,
    withTypes: bool,
    parameterPaths: map<string, Override>,
    functionPaths: map<string, string>)

  /** `Class.method.param`, the key of `parameterPaths`. */
  function ParameterPath(className: string, methodName: string, paramName: string): string {
    className + "." + methodName + "." + paramName
  }

  /** `Class.method`, the key of `functionPaths`. */
  function MethodPath(className: string, methodName: string): string {
    className + "." + methodName
  }
}

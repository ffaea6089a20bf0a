// The Fluentd directive tree that plugin records are compiled into, and the
// error-or-value result every compile step returns.

module FluentdTypes {

  /** A Go `error`: only its identity matters here, it is passed through unchanged. */
  datatype Error = Error(message: string)

  /** A Go pointer field: `None` stands for nil. */
  datatype Option<+T> = None | Some(value: T)

  /** The (value, error) pair of a Go call: exactly one of the two is meaningful. */
  datatype Result<+T> = Ok(value: T) | Err(error: Error)

  /** The key=value parameters of one directive (Go `types.Params`, a string map). */
  type Params = map<string, string>

  /** The header of a plugin directive: `<match **>` with `@type` and `@id`. */
  datatype PluginMeta = PluginMeta(
    pluginType: string,   // @type
    directive: string,    // the directive keyword, e.g. "match"
    tag: string,          // the tag pattern, e.g. "**"
    id: string)           // @id

  /** One node of the directive tree: a header, its parameters and its ordered children. */
  datatype Directive = Directive(meta: PluginMeta, params: Params, subDirectives: seq<Directive>)
}

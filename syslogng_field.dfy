// What the syslog-ng config package sees of one struct field while it walks a
// record, and the brace statement it renders blocks into. Go reflection is
// replaced by an explicit descriptor: the parsed tag settings, the declared
// kind and, for nillable kinds, whether the current value is nil.

module SyslogNgField {

  /** The kinds of reflect.Kind (integer and float widths folded together). */
  datatype Kind =
    | Invalid | Bool | Int | Uint | Float | Complex | String
    | Array | Chan | Func | Interface | Map | Pointer | Slice | Struct | UnsafePointer

  /** The kinds whose reflect.Value.IsNil is defined; it panics on every other kind. */
  predicate Nillable(k: Kind) {
    k.Chan? || k.Func? || k.Interface? || k.Map? || k.Pointer? || k.Slice? || k.UnsafePointer?
  }

  /**
   * The parsed `syslog-ng:"..."` tag of a field: `key=value` entries map key to
   * value, bare flags such as `optional` or `parser-drv` map to "".
   */
  type TagSettings = map<string, string>

  /** Whether a setting (key or flag) is present. */
  predicate Has(settings: TagSettings, key: string) {
    key in settings
  }

  /** A field descriptor: its Go name, tag settings, declared kind and value's nil-ness. */
  datatype Field = Field(name: string, settings: TagSettings, kind: Kind, nilValue: bool)

  /** reflect.Value.IsNil: defined only for nillable kinds. */
  function IsNil(f: Field): bool
    requires Nillable(f.kind)
  {
    f.nilValue
  }

  /**
   * A rendered syslog-ng statement. A `kind name { body };` statement is a
   * `BraceDef`; `Body` stands for any renderer built outside this model.
   */
  datatype Renderer = BraceDef(kind: string, name: string, body: Renderer) | Body(text: string)

  /** braceDefStmt, taken as a plain constructor of the brace statement. */
  function BraceDefStmt(kind: string, name: string, body: Renderer): Renderer {
    BraceDef(kind, name, body)
  }
}

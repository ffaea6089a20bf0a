// syslog-ng parser blocks: the JSON parser record's field tags, the `parser` statement
// wrapper and the test that picks the active parser driver among a record's
// fields (pkg/sdk/logging/model/syslogng/config/parser.go).

module SyslogNgParser {
  import opened SyslogNgField

  /** The tag flag that marks a field as one of the parser driver variants. */
  const ParserDriverTag: string := "parser-drv"

  /** The names of JSONParser's options, in declaration order. */
  const JSONParserOptionNames: seq<string> := ["extract-prefix", "marker", "prefix", "template"]

  /** A string option field rendered under `name`, which the block may leave out. */
  predicate OptionalOption(f: Field, name: string) {
    f.kind == String && Has(f.settings, "optional") && "name" in f.settings && f.settings["name"] == name
  }

  /**
   * JSONParser's fields as the walk sees them, in declaration order: first the
   * `__meta` marker that names the block, then one string field per option.
   */
  function JSONParserFields(): (fs: seq<Field>)
    ensures |fs| == 1 + |JSONParserOptionNames|
    ensures fs[0].kind == Struct && fs[0].settings == map["name" := "json-parser"]
    ensures forall i :: 0 <= i < |JSONParserOptionNames| ==> OptionalOption(fs[i + 1], JSONParserOptionNames[i])
  {
    [ Field("__meta", map["name" := "json-parser"], Struct, false),
      Field("ExtractPrefix", map["name" := "extract-prefix", "optional" := ""], String, false),
      Field("Marker", map["name" := "marker", "optional" := ""], String, false),
      Field("Prefix", map["name" := "prefix", "optional" := ""], String, false),
      Field("Template", map["name" := "template", "optional" := ""], String, false) ]
  }

  /** parserDefStmt: a `parser name { body };` statement. */
  function ParserDefStmt(name: string, body: Renderer): (r: Renderer)
    ensures r.BraceDef? && r.kind == "parser" && r.name == name && r.body == body
  {
    BraceDefStmt("parser", name, body)
  }

  /** hasParserDriverTag. */
  predicate HasParserDriverTag(f: Field) {
    Has(f.settings, ParserDriverTag)
  }

  /**
   * isActiveParserDriver. The pointer-kind test comes before IsNil, so IsNil is
   * only asked of a nillable kind: the function is defined for every field.
   */
  predicate IsActiveParserDriver(f: Field) {
    HasParserDriverTag(f) && f.kind == Pointer && !IsNil(f)
  }

  /** The three conditions, and nothing else, make a field the active parser driver. */
  lemma ActiveParserDriverIff(f: Field)
    ensures IsActiveParserDriver(f) <==>
      ParserDriverTag in f.settings && f.kind == Pointer && !f.nilValue
  {
  }

  /** Without the `parser-drv` flag a field is never active, whatever its kind or value. */
  lemma UntaggedIsNotParserDriver(f: Field)
    requires !HasParserDriverTag(f)
    ensures !IsActiveParserDriver(f)
  {
  }

  /** A tagged field is still not active when it is not a pointer, or is a nil pointer. */
  lemma NilOrNonPointerIsNotParserDriver(f: Field)
    requires f.kind != Pointer || f.nilValue
    ensures !IsActiveParserDriver(f)
  {
  }

  /** The tag test reads the tag settings only: kind and value do not matter. */
  lemma ParserDriverTagOnlyReadsSettings(f: Field, g: Field)
    requires f.settings == g.settings
    ensures HasParserDriverTag(f) == HasParserDriverTag(g)
  {
  }

  /** No field of JSONParser selects a parser driver: the record is a leaf. */
  lemma JSONParserHasNoParserDriver()
    ensures forall f :: f in JSONParserFields() ==> !IsActiveParserDriver(f)
  {
  }
}

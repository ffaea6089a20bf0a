// syslog-ng destination blocks: the `destination` statement wrapper and the
// test that picks the active destination driver among a record's fields
// (pkg/sdk/logging/model/syslogng/config/destination.go).

module SyslogNgDestination {
  import opened SyslogNgField
  import SyslogNgParser

  /** The tag flag that marks a field as one of the destination driver variants. */
  const DestinationDriverTag: string := "dest-drv"

  /** destinationDefStmt: a `destination name { body };` statement. */
  function DestinationDefStmt(name: string, body: Renderer): (r: Renderer)
    ensures r.BraceDef? && r.kind == "destination" && r.name == name && r.body == body
  {
    BraceDefStmt("destination", name, body)
  }

  /** hasDestDriverTag. */
  predicate HasDestDriverTag(f: Field) {
    Has(f.settings, DestinationDriverTag)
  }

  /**
   * isActiveDestinationDriver. As for parsers, IsNil is reached only after the
   * pointer-kind test has passed.
   */
  predicate IsActiveDestinationDriver(f: Field) {
    HasDestDriverTag(f) && f.kind == Pointer && !IsNil(f)
  }

  /** The three conditions, and nothing else, make a field the active destination driver. */
  lemma ActiveDestinationDriverIff(f: Field)
    ensures IsActiveDestinationDriver(f) <==>
      DestinationDriverTag in f.settings && f.kind == Pointer && !f.nilValue
  {
  }

  /** Without `dest-drv` a field is never an active destination; a parser driver tag does not help. */
  lemma UntaggedIsNotDestinationDriver(f: Field)
    requires !HasDestDriverTag(f)
    ensures !IsActiveDestinationDriver(f)
  {
  }

  /** A tagged field is still not active when it is not a pointer, or is a nil pointer. */
  lemma NilOrNonPointerIsNotDestinationDriver(f: Field)
    requires f.kind != Pointer || f.nilValue
    ensures !IsActiveDestinationDriver(f)
  {
  }

  /** The tag test reads the tag settings only: kind and value do not matter. */
  lemma DestDriverTagOnlyReadsSettings(f: Field, g: Field)
    requires f.settings == g.settings
    ensures HasDestDriverTag(f) == HasDestDriverTag(g)
  {
  }

  /**
   * A field tagged only as a parser driver is, when active, a parser driver and
   * never a destination driver; the two statement kinds never coincide either.
   */
  lemma ParserDriverIsNotDestinationDriver(f: Field)
    requires SyslogNgParser.HasParserDriverTag(f) && !HasDestDriverTag(f)
    ensures !IsActiveDestinationDriver(f)
    ensures SyslogNgParser.IsActiveParserDriver(f) <==> f.kind == Pointer && !f.nilValue
  {
  }

  /** A destination statement is never a parser statement, whatever the names and bodies. */
  lemma DestinationIsNotParserStmt(n1: string, b1: Renderer, n2: string, b2: Renderer)
    ensures DestinationDefStmt(n1, b1) != SyslogNgParser.ParserDefStmt(n2, b2)
  {
  }
}

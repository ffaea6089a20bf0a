# logging-operator: plugin records to agent configuration

The logging operator turns typed plugin configuration records into configuration
text for two log agents: a tree of directives for Fluentd and brace-delimited
statements for syslog-ng. This project models three small pieces of that
compiler in Dafny and proves their properties.

- **Kinesis Streams output** (`kinesis_stream.dfy`, module `KinesisStream`).
  `ToDirective` builds the `<match **>` directive of type `kinesis_streams`.
  Its `@id` is the caller's id followed by `_kinesis_streams`. Its parameters
  come from the struct-to-string mapper. It then appends a `<buffer>` child and
  then a `<format>` child. The buffer is compiled under the plugin id and the
  format under the empty id. Any failing step returns that step's error and no
  directive. The method builds its result step by step, as the Go code does,
  and a ghost trace records which collaborators were called, in order.
  `CollectChildren` states the all-or-nothing rule for any ordered list of
  optional child slots, and its lemmas are proved by induction.
  The directive tree and the `Result` type live in `fluentd_types.dfy`
  (module `FluentdTypes`).
- **syslog-ng driver fields** (`syslogng_field.dfy`, `syslogng_parser.dfy`,
  `syslogng_destination.dfy`). A field descriptor stands in for Go reflection.
  It holds the field's parsed tag settings, its declared `reflect.Kind` and
  whether its value is nil. `IsNil` is defined only on nillable kinds, because
  `reflect.Value.IsNil` panics on the others. A field is the active parser
  (destination) driver when three things hold: it carries the `parser-drv`
  (`dest-drv`) flag, its kind is `Pointer`, and it is not nil. Dafny shows that
  `IsNil` is only asked of a kind where Go's `IsNil` is defined, and the
  `Pointer` test before it limits that to pointers. `ParserDefStmt` and
  `DestinationDefStmt` wrap a name and a body into a `parser` or `destination`
  brace statement. The `JSONParser` record's tag metadata is given as data.

Collaborators whose code is not part of this model are parameters of
`ToDirective`: the struct-to-string mapper, `Buffer.ToDirective` and
`Format.ToDirective`. Nothing is assumed about their internals. The secret
loader is a type parameter and is only handed on to them. `Secret`, `Buffer`
and `Format` are opaque types.

## Model

| member | source | states |
|---|---|---|
| `KinesisStream.ToDirective` | pkg/sdk/model/output/kinesis_stream.go:106-137 | Succeeds exactly when the mapper succeeds and each present Buffer and Format call succeeds. On success the header is `match` / `**` / `kinesis_streams` with `@id` = `PluginId(id)`, and the parameters are the mapper's output unchanged. On success there is one child per non-nil Buffer/Format, Buffer first, built with parent ids `PluginId(id)` and `""`. A failure returns the first failing call's error and no directive, and no later collaborator is called (ghost call trace). The children agree with `CollectChildren` over the slots Buffer, Format. |
| `KinesisStream.PluginId` | pkg/sdk/model/output/kinesis_stream.go:107-108 | The plugin id built from the caller's id; its shape and injectivity are stated by the two lemmas below. |
| `KinesisStream.KinesisMeta` | pkg/sdk/model/output/kinesis_stream.go:109-116 | The fixed header: type `kinesis_streams`, directive `match`, tag `**`, id `PluginId(id)`; `ToDirective` promises it on success. |
| `KinesisStream.PluginIdShape` | pkg/sdk/model/output/kinesis_stream.go:107-108 | The plugin id is the caller's id, then `_`, then `kinesis_streams`. |
| `KinesisStream.PluginIdInjective` | pkg/sdk/model/output/kinesis_stream.go:107-108 | Distinct caller ids yield distinct plugin ids. |
| `KinesisStream.CollectChildren` | pkg/sdk/model/output/kinesis_stream.go:122-136 | Reference definition of the children rule: slots in order, the first failing slot's error, else the directives of the present slots. Its properties are the three lemmas below, and `ToDirective` is tied to it. |
| `KinesisStream.CollectChildrenSucceeds` | pkg/sdk/model/output/kinesis_stream.go:122-136 | Children assembled in slot order succeed exactly when no present slot fails. |
| `KinesisStream.CollectChildrenCount` | pkg/sdk/model/output/kinesis_stream.go:122-136 | On success there is exactly one child per present (non-nil) slot. |
| `KinesisStream.CollectChildrenFirstError` | pkg/sdk/model/output/kinesis_stream.go:122-136 | On failure the error returned is the error of the first failing slot, and every slot before it was absent or succeeded. |
| `SyslogNgParser.JSONParserFields` | pkg/sdk/logging/model/syslogng/config/parser.go:23-29 | The `__meta` field names the block `json-parser`. Each of the four string options `extract-prefix`, `marker`, `prefix` and `template` is named in its tag and marked `optional`. |
| `SyslogNgParser.JSONParserHasNoParserDriver` | pkg/sdk/logging/model/syslogng/config/parser.go:23-41 | No field of `JSONParser` is an active parser driver. A direct consequence of the tag data: no tag carries `parser-drv`. |
| `SyslogNgParser.ParserDefStmt` | pkg/sdk/logging/model/syslogng/config/parser.go:31-33 | A brace statement of kind `parser` that carries the name and body unchanged, as `braceDefStmt("parser", name, body)` builds it. |
| `SyslogNgParser.HasParserDriverTag` | pkg/sdk/logging/model/syslogng/config/parser.go:39-41 | Whether the field's tag settings contain `parser-drv`; it reads nothing else (`ParserDriverTagOnlyReadsSettings`). |
| `SyslogNgParser.IsActiveParserDriver` | pkg/sdk/logging/model/syslogng/config/parser.go:35-37 | The tag test, then the `Pointer` kind test, then `!IsNil`, short-circuited as in Go; characterised by `ActiveParserDriverIff`. |
| `SyslogNgParser.ActiveParserDriverIff` | pkg/sdk/logging/model/syslogng/config/parser.go:35-41 | A field is the active parser driver iff its settings hold `parser-drv`, its kind is Pointer and it is not nil. |
| `SyslogNgParser.UntaggedIsNotParserDriver` | pkg/sdk/logging/model/syslogng/config/parser.go:36-41 | A field without `parser-drv` is never active, whatever its kind or value. |
| `SyslogNgParser.NilOrNonPointerIsNotParserDriver` | pkg/sdk/logging/model/syslogng/config/parser.go:36 | A non-pointer field or a nil pointer is never active, even when tagged. |
| `SyslogNgParser.ParserDriverTagOnlyReadsSettings` | pkg/sdk/logging/model/syslogng/config/parser.go:39-41 | Two fields with the same tag settings agree on the tag test, whatever their kind or value. |
| `SyslogNgDestination.DestinationDefStmt` | pkg/sdk/logging/model/syslogng/config/destination.go:23-25 | A brace statement of kind `destination` that carries the name and body unchanged, as `braceDefStmt("destination", name, body)` builds it. |
| `SyslogNgDestination.DestinationIsNotParserStmt` | pkg/sdk/logging/model/syslogng/config/destination.go:23-25 | A destination statement never equals a parser statement. A consequence of modelling `braceDefStmt` as a constructor, which keeps the kind it is given. |
| `SyslogNgDestination.HasDestDriverTag` | pkg/sdk/logging/model/syslogng/config/destination.go:31-33 | Whether the field's tag settings contain `dest-drv`; it reads nothing else (`DestDriverTagOnlyReadsSettings`). |
| `SyslogNgDestination.IsActiveDestinationDriver` | pkg/sdk/logging/model/syslogng/config/destination.go:27-29 | The tag test, then the `Pointer` kind test, then `!IsNil`, short-circuited as in Go; characterised by `ActiveDestinationDriverIff`. |
| `SyslogNgDestination.ActiveDestinationDriverIff` | pkg/sdk/logging/model/syslogng/config/destination.go:27-33 | A field is the active destination driver iff its settings hold `dest-drv`, its kind is Pointer and it is not nil. |
| `SyslogNgDestination.UntaggedIsNotDestinationDriver` | pkg/sdk/logging/model/syslogng/config/destination.go:28-33 | A field without `dest-drv` is never active, whatever its kind or value. |
| `SyslogNgDestination.NilOrNonPointerIsNotDestinationDriver` | pkg/sdk/logging/model/syslogng/config/destination.go:28 | A non-pointer field or a nil pointer is never active, even when tagged. |
| `SyslogNgDestination.DestDriverTagOnlyReadsSettings` | pkg/sdk/logging/model/syslogng/config/destination.go:31-33 | Two fields with the same tag settings agree on the tag test, whatever their kind or value. |
| `SyslogNgDestination.ParserDriverIsNotDestinationDriver` | pkg/sdk/logging/model/syslogng/config/destination.go:27-33 | A field tagged `parser-drv` but not `dest-drv` is never an active destination driver. It is an active parser driver exactly when it is a non-nil pointer. |

The rule "`IsNil` is asked only of fields whose kind allows it" has no row of
its own. It is checked when `IsActiveParserDriver` and
`IsActiveDestinationDriver` are verified against the `Nillable` precondition
of `SyslogNgField.IsNil`; the `Pointer` test that comes before `IsNil` in both
predicates narrows the fields that reach it to pointers.

## Left out

- Go reflection is replaced by the `Field` descriptor. Integer and float widths are folded into single kinds. The descriptor does not carry the field's value, only whether it is nil.
- `structFieldSettings` and the parsing of tag strings are not part of this model. Tag settings are given already parsed, as a map from key to value, with bare flags mapped to `""`.
- The struct-to-string mapper, `Buffer.ToDirective` and `Format.ToDirective` are not part of this model. They are opaque parameters that return a directive or an error. A Go call returning a nil directive with a nil error cannot be expressed.
- Secret resolution through `secret.SecretLoader` reaches the cluster (I/O). The loader is only passed to the collaborators.
- `braceDefStmt` and the `render` package are not part of this model. A brace statement is a constructor holding kind, name and body, and text rendering is not modelled.
- The scan that selects the single active driver of a record, and its error when several are active, are not part of this model. Only the per-field tests are modelled.
- The `OutputPlugin` that Go allocates and then fills in is a local value here. Nothing else can reach it before it is returned, so there is no aliasing to model.
- Documentation and code-generation annotations (`+docName`, `+kubebuilder`, json tags) and the generated deep-copy code are left out.
- The Kinesis record's fields other than `Buffer` and `Format` are data that only the mapper reads. Their json tags (`stream_name`, `omitempty`, ...) are not modelled.
- The directive's children are only Buffer then Format, in that fixed order. No driver variant is compiled, and no positional disambiguator is added to child ids.
- The `JSONParser` struct's string values are not modelled. Only its field tags are given, in `JSONParserFields`, because the driver tests read tags, kinds and nil-ness, never the values.

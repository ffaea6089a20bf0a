// The Kinesis Streams output plugin record and its compilation into a Fluentd
// `<match **>` directive (pkg/sdk/model/output/kinesis_stream.go).

module KinesisStream {
  import opened FluentdTypes

  /** A secret reference (secret.Secret); resolved only inside the parameter mapper. */
  type Secret

  /** The `<format>` sub-configuration (output.Format); compiled by its own ToDirective. */
  type Format

  /** The `<buffer>` sub-configuration (output.Buffer); compiled by its own ToDirective. */
  type Buffer

  datatype KinesisStreamAssumeRoleCredentials = KinesisStreamAssumeRoleCredentials(
    roleArn: string,
    roleSessionName: string,
    policy: string,
    durationSeconds: string,
    externalId: string)

  /** The plugin record; every pointer field of the Go struct is an `Option`. */
  datatype KinesisStreamOutputConfig = KinesisStreamOutputConfig(
    streamName: string,
    partitionKey: string,
    awsKeyId: Option<Secret>,
    awsSecKey: Option<Secret>,
    awsSesToken: Option<Secret>,
    awsIamRetries: int,
    assumeRoleCredentials: Option<KinesisStreamAssumeRoleCredentials>,
    region: string,
    retriesOnBatchRequest: int,
    resetBackoffIfSuccess: bool,
    batchRequestMaxCount: int,
    batchRequestMaxSize: int,
    format: Option<Format>,
    buffer: Option<Buffer>)

  /**
   * The code ToDirective calls but does not define, each applied to the secret
   * loader of type L: the struct-to-string mapper and the ToDirective methods of
   * Buffer and Format (whose second argument is the parent id).
   */
  datatype Collaborators<!L> = Collaborators(
    stringsMap: (L, KinesisStreamOutputConfig) -> Result<Params>,
    bufferToDirective: (Buffer, L, string) -> Result<Directive>,
    formatToDirective: (Format, L, string) -> Result<Directive>)

  /** One collaborator invocation, with the parent id it was given. */
  datatype Call = StringsMap | BufferToDirective(parentId: string) | FormatToDirective(parentId: string)

  /** A sub-directive slot: None when its field is nil, else the result of compiling it. */
  type ChildStep = Option<Result<Directive>>

  const PluginType: string := "kinesis_streams"

  /** The `@id` of the plugin: the caller's id, an underscore, then the plugin type. */
  function PluginId(id: string): string {
    id + "_" + PluginType
  }

  /** The plugin id is the caller's id, then `_`, then the plugin type, with nothing added or lost. */
  lemma PluginIdShape(id: string)
    ensures |PluginId(id)| == |id| + 1 + |PluginType|
    ensures PluginId(id)[..|id|] == id && PluginId(id)[|id|] == '_' && PluginId(id)[|id| + 1..] == PluginType
  {
  }

  /** Distinct caller ids give distinct plugin ids, so plugins never share an `@id`. */
  lemma PluginIdInjective(id1: string, id2: string)
    requires PluginId(id1) == PluginId(id2)
    ensures id1 == id2
  {
    PluginIdShape(id1);
    PluginIdShape(id2);
  }

  /** The header every successful compilation carries. */
  function KinesisMeta(id: string): PluginMeta {
    PluginMeta(PluginType, "match", "**", PluginId(id))
  }

  /** The Buffer sub-directive call, if the record has a buffer; its parent id is the plugin id. */
  function BufferStep<L>(e: KinesisStreamOutputConfig, secretLoader: L, id: string, c: Collaborators<L>): ChildStep {
    if e.buffer.Some? then Some(c.bufferToDirective(e.buffer.value, secretLoader, PluginId(id))) else None
  }

  /** The Format sub-directive call, if the record has a format; its parent id is empty. */
  function FormatStep<L>(e: KinesisStreamOutputConfig, secretLoader: L, c: Collaborators<L>): ChildStep {
    if e.format.Some? then Some(c.formatToDirective(e.format.value, secretLoader, "")) else None
  }

  /** An optional step fails when it is made and returns an error. */
  predicate Fails(step: ChildStep) {
    step.Some? && step.value.Err?
  }

  /** The sub-directive an optional step contributes: none if absent, its value if it succeeded. */
  function Produced(step: ChildStep): seq<Directive> {
    if step.Some? && step.value.Ok? then [step.value.value] else []
  }

  /** The invocation an optional step records in the call trace. */
  function CallOf(step: ChildStep, call: Call): seq<Call> {
    if step.Some? then [call] else []
  }

  function CountPresent<T>(o: Option<T>): nat {
    if o.Some? then 1 else 0
  }

  /**
   * The all-or-nothing rule for a directive's children, over optional child
   * slots taken in order: the error of the first slot that fails, or else the
   * directives of the present slots, in slot order.
   */
  function CollectChildren(steps: seq<ChildStep>): Result<seq<Directive>> {
    if steps == [] then Ok([])
    else if Fails(steps[0]) then Err(steps[0].value.error)
    else
      match CollectChildren(steps[1..])
      case Err(err) => Err(err)
      case Ok(rest) => Ok(Produced(steps[0]) + rest)
  }

  /** The number of present (non-nil) slots. */
  function PresentCount(steps: seq<ChildStep>): nat {
    if steps == [] then 0 else CountPresent(steps[0]) + PresentCount(steps[1..])
  }

  /** The children compile exactly when no present slot fails. */
  lemma {:induction false} CollectChildrenSucceeds(steps: seq<ChildStep>)
    ensures CollectChildren(steps).Ok? <==> forall i :: 0 <= i < |steps| ==> !Fails(steps[i])
  {
    if steps != [] {
      CollectChildrenSucceeds(steps[1..]);
      assert forall i :: 1 <= i < |steps| ==> steps[i] == steps[1..][i - 1];
    }
  }

  /** On success there is one child per present slot: nil fields contribute nothing. */
  lemma {:induction false} CollectChildrenCount(steps: seq<ChildStep>)
    requires CollectChildren(steps).Ok?
    ensures |CollectChildren(steps).value| == PresentCount(steps)
  {
    if steps != [] {
      CollectChildrenCount(steps[1..]);
    }
  }

  /** On failure the error is that of the first failing slot; each slot before it was absent or succeeded. */
  lemma {:induction false} CollectChildrenFirstError(steps: seq<ChildStep>)
    requires CollectChildren(steps).Err?
    ensures exists i ::
              0 <= i < |steps| && Fails(steps[i]) &&
              (forall j :: 0 <= j < i ==> !Fails(steps[j])) &&
              CollectChildren(steps).error == steps[i].value.error
  {
    if !Fails(steps[0]) {
      CollectChildrenFirstError(steps[1..]);
      var i :| 0 <= i < |steps[1..]| && Fails(steps[1..][i]) &&
        (forall j :: 0 <= j < i ==> !Fails(steps[1..][j])) &&
        CollectChildren(steps[1..]).error == steps[1..][i].value.error;
      assert forall j :: 1 <= j < i + 1 ==> steps[j] == steps[1..][j - 1];
      assert Fails(steps[i + 1]);
    }
  }

  /** The child slots of a Kinesis Streams output: Buffer first, then Format. */
  function KinesisChildren<L>(e: KinesisStreamOutputConfig, secretLoader: L, id: string, c: Collaborators<L>): seq<ChildStep> {
    [BufferStep(e, secretLoader, id, c), FormatStep(e, secretLoader, c)]
  }

  /**
   * KinesisStreamOutputConfig.ToDirective. The ghost `calls` lists, in order, the
   * collaborators invoked: a failure stops the compilation at once, so nothing
   * after a failing call is invoked and no partial directive is ever returned.
   */
  method ToDirective<L>(e: KinesisStreamOutputConfig, secretLoader: L, id: string, c: Collaborators<L>)
    returns (r: Result<Directive>, ghost calls: seq<Call>)
    // success exactly when every collaborator that is asked succeeds
    ensures r.Ok? <==>
      c.stringsMap(secretLoader, e).Ok? &&
      !Fails(BufferStep(e, secretLoader, id, c)) && !Fails(FormatStep(e, secretLoader, c))
    // the mapper's error is returned as is, and nothing else is asked
    ensures c.stringsMap(secretLoader, e).Err? ==>
      r == Err(c.stringsMap(secretLoader, e).error) && calls == [StringsMap]
    // the Buffer's error is returned as is, and Format is not asked
    ensures c.stringsMap(secretLoader, e).Ok? && Fails(BufferStep(e, secretLoader, id, c)) ==>
      r == BufferStep(e, secretLoader, id, c).value &&
      calls == [StringsMap, BufferToDirective(PluginId(id))]
    // the Format's error is returned as is, after the Buffer was asked if present
    ensures c.stringsMap(secretLoader, e).Ok? && !Fails(BufferStep(e, secretLoader, id, c)) &&
            Fails(FormatStep(e, secretLoader, c)) ==>
      r == FormatStep(e, secretLoader, c).value &&
      calls == [StringsMap] + CallOf(BufferStep(e, secretLoader, id, c), BufferToDirective(PluginId(id))) +
               [FormatToDirective("")]
    // on success: fixed header, the mapper's parameters unchanged, Buffer then Format
    ensures r.Ok? ==> r.value.meta == KinesisMeta(id)
    ensures r.Ok? ==> r.value.params == c.stringsMap(secretLoader, e).value
    ensures r.Ok? ==> |r.value.subDirectives| == CountPresent(e.buffer) + CountPresent(e.format)
    ensures r.Ok? ==>
      r.value.subDirectives == Produced(BufferStep(e, secretLoader, id, c)) + Produced(FormatStep(e, secretLoader, c))
    // the children follow the all-or-nothing rule over the slots Buffer, Format
    ensures r.Ok? ==> CollectChildren(KinesisChildren(e, secretLoader, id, c)) == Ok(r.value.subDirectives)
    ensures r.Err? && c.stringsMap(secretLoader, e).Ok? ==>
      CollectChildren(KinesisChildren(e, secretLoader, id, c)) == Err(r.error)
    ensures r.Ok? ==>
      calls == [StringsMap] + CallOf(BufferStep(e, secretLoader, id, c), BufferToDirective(PluginId(id))) +
               CallOf(FormatStep(e, secretLoader, c), FormatToDirective(""))
  {
    var pluginType := PluginType;
    var pluginId := id + "_" + pluginType;
    var meta := PluginMeta(pluginType, "match", "**", pluginId);
    var params: Params;
    var subDirectives: seq<Directive> := [];
    calls := [StringsMap];
    var mapped := c.stringsMap(secretLoader, e);
    if mapped.Err? {
      return Err(mapped.error), calls;
    }
    params := mapped.value;
    if e.buffer.Some? {
      calls := calls + [BufferToDirective(pluginId)];
      var buffer := c.bufferToDirective(e.buffer.value, secretLoader, pluginId);
      if buffer.Err? {
        return Err(buffer.error), calls;
      }
      subDirectives := subDirectives + [buffer.value];
    }
    if e.format.Some? {
      calls := calls + [FormatToDirective("")];
      var format := c.formatToDirective(e.format.value, secretLoader, "");
      if format.Err? {
        return Err(format.error), calls;
      }
      subDirectives := subDirectives + [format.value];
    }
    ghost var slots := KinesisChildren(e, secretLoader, id, c);
    assert slots[1..] == [slots[1]] && slots[1..][1..] == [];
    assert Produced(slots[1]) + [] == Produced(slots[1]);
    assert CollectChildren(slots[1..]) == Ok(Produced(slots[1]));
    r := Ok(Directive(meta, params, subDirectives));
  }
}

/**
 * Component resolution: how one stage (`Build` or `Test`) of a component configuration turns
 * into resolved `{arn, param?}` references and newly built components, and how the
 * constructor's five resolution calls add up.
 */
module Components {
  import opened Wrappers
  import opened Resources

  /** What resolving some entries contributes: references to append, components to create. */
  datatype Resolution = Resolution(resolved: seq<Resolved>, built: seq<Component>) {
    /** This contribution followed by `next`. */
    function Then(next: Resolution): Resolution {
      Resolution(resolved + next.resolved, built + next.built)
    }
  }

  const Nothing: Resolution := Resolution([], [])

  /** The stage key looked up in the configuration: "Build", "Test", or "" for anything else. */
  function BuildType(stage: string): (bt: string)
    ensures bt == "Build" <==> stage == "Build"
    ensures bt == "Test" <==> stage == "Test"
    ensures bt == "" <==> stage != "Build" && stage != "Test"
  {
    if stage == "Build" then "Build" else if stage == "Test" then "Test" else ""
  }

  /** The list under key `bt`, or None when the configuration has no such key. */
  function StageEntries(config: ComponentConfig, bt: string): Option<seq<Entry>> {
    if bt == "Build" then config.build else if bt == "Test" then config.test else None
  }

  predicate HasArn(e: Entry) { TruthyString(e.arn) }
  predicate HasFile(e: Entry) { TruthyString(e.file) }

  /** An entry that yields a resolved reference; the others are skipped. */
  predicate IsKept(e: Entry) { HasArn(e) || HasFile(e) }

  /** An entry that creates a new component: a file and no ARN. */
  predicate Builds(e: Entry) { !HasArn(e) && HasFile(e) }

  /** The construct id of the component built from `e` in stage `bt`: `<name>-<stage>`. */
  function ComponentId(e: Entry, bt: string): string {
    e.name + "-" + bt
  }

  /** The component registered for a file entry: Linux, at `s3://<bucket>/<file>`, after the upload. */
  function NewComponent(e: Entry, bucket: Value, bt: string, upload: string): Component {
    Component(ComponentId(e, bt), e.name, "Linux", e.version, S3Uri(bucket, e.file.GetOr("")), upload, None)
  }

  /** One entry of the stage list. */
  function ResolveEntry(e: Entry, bucket: Value, bt: string, upload: string): (r: Resolution)
    ensures HasArn(e) ==> r == Resolution([Resolved(Lit(e.arn.value), e.parameter)], [])
    ensures Builds(e) ==>
      |r.built| == 1 && |r.resolved| == 1 &&
      r.built[0].id == e.name + "-" + bt && r.built[0].name == e.name &&
      r.built[0].platform == "Linux" && r.built[0].version == e.version &&
      r.built[0].uri == S3Uri(bucket, e.file.value) &&
      r.built[0].dependsOn == upload && r.built[0].removal.None? &&
      r.resolved[0] == Resolved(AttrOf(r.built[0].id, "Arn"), e.parameter)
    ensures !IsKept(e) ==> r == Nothing
  {
    if HasArn(e) then
      Resolution([Resolved(Lit(e.arn.value), e.parameter)], [])
    else if HasFile(e) then
      var c := NewComponent(e, bucket, bt, upload);
      Resolution([Resolved(AttrOf(c.id, "Arn"), e.parameter)], [c])
    else
      Nothing
  }

  /** The entries of a stage list, in order. */
  function ResolveEntries(es: seq<Entry>, bucket: Value, bt: string, upload: string): Resolution
  {
    if es == [] then Nothing
    else ResolveEntry(es[0], bucket, bt, upload).Then(ResolveEntries(es[1..], bucket, bt, upload))
  }

  /** One `AddComponent` call: nothing at all when the stage key is not in the configuration. */
  function ResolveStage(config: ComponentConfig, bucket: Value, stage: string, upload: string): (r: Resolution)
    ensures BuildType(stage) == "" ==> r == Nothing
    ensures StageEntries(config, BuildType(stage)).None? ==> r == Nothing
  {
    match StageEntries(config, BuildType(stage))
    case None => Nothing
    case Some(es) => ResolveEntries(es, bucket, BuildType(stage), upload)
  }

  lemma ThenAssociative(a: Resolution, b: Resolution, c: Resolution)
    ensures a.Then(b).Then(c) == a.Then(b.Then(c))
  {
  }

  /** Resolving two lists one after the other is resolving their concatenation. */
  lemma {:induction false} ResolveEntriesAppend(a: seq<Entry>, b: seq<Entry>, bucket: Value, bt: string, upload: string)
    ensures ResolveEntries(a + b, bucket, bt, upload)
         == ResolveEntries(a, bucket, bt, upload).Then(ResolveEntries(b, bucket, bt, upload))
  {
    var rb := ResolveEntries(b, bucket, bt, upload);
    if a == [] {
      assert a + b == b;
      assert [] + rb.resolved == rb.resolved && [] + rb.built == rb.built;
    } else {
      assert (a + b)[0] == a[0];
      assert (a + b)[1..] == a[1..] + b;
      ResolveEntriesAppend(a[1..], b, bucket, bt, upload);
      ThenAssociative(ResolveEntry(a[0], bucket, bt, upload), ResolveEntries(a[1..], bucket, bt, upload), rb);
    }
  }

  /** Resolving one more entry appends that entry's contribution. */
  lemma ResolveEntriesSnoc(es: seq<Entry>, e: Entry, bucket: Value, bt: string, upload: string)
    ensures ResolveEntries(es + [e], bucket, bt, upload)
         == ResolveEntries(es, bucket, bt, upload).Then(ResolveEntry(e, bucket, bt, upload))
  {
    var one := ResolveEntry(e, bucket, bt, upload);
    ResolveEntriesAppend(es, [e], bucket, bt, upload);
    assert [e][1..] == [];
    assert one.resolved + [] == one.resolved && one.built + [] == one.built;
    assert ResolveEntries([e], bucket, bt, upload) == one;
  }

  // An independent description of a stage's outcome: filter the entries, then map them.

  /** The entries that yield a reference, in order. */
  function KeptEntries(es: seq<Entry>): seq<Entry> {
    if es == [] then [] else (if IsKept(es[0]) then [es[0]] else []) + KeptEntries(es[1..])
  }

  /** The entries that create a component, in order. */
  function BuildingEntries(es: seq<Entry>): seq<Entry> {
    if es == [] then [] else (if Builds(es[0]) then [es[0]] else []) + BuildingEntries(es[1..])
  }

  /** The reference a kept entry yields: its own ARN, or the ARN of the component built for it. */
  function ReferenceFor(e: Entry, bt: string): Resolved {
    Resolved(if HasArn(e) then Lit(e.arn.value) else AttrOf(ComponentId(e, bt), "Arn"), e.parameter)
  }

  function ReferencesFor(es: seq<Entry>, bt: string): seq<Resolved> {
    if es == [] then [] else [ReferenceFor(es[0], bt)] + ReferencesFor(es[1..], bt)
  }

  function ComponentsFor(es: seq<Entry>, bucket: Value, bt: string, upload: string): seq<Component> {
    if es == [] then [] else [NewComponent(es[0], bucket, bt, upload)] + ComponentsFor(es[1..], bucket, bt, upload)
  }

  lemma {:induction false} ReferencesForLength(es: seq<Entry>, bt: string)
    ensures |ReferencesFor(es, bt)| == |es|
  {
    if es != [] { ReferencesForLength(es[1..], bt); }
  }

  lemma {:induction false} ComponentsForLength(es: seq<Entry>, bucket: Value, bt: string, upload: string)
    ensures |ComponentsFor(es, bucket, bt, upload)| == |es|
  {
    if es != [] { ComponentsForLength(es[1..], bucket, bt, upload); }
  }

  /**
   * A stage list resolves to one reference per entry that has an ARN or a file, in input
   * order, and to one new component per entry that has a file and no ARN, in input order.
   */
  lemma {:induction false} ResolveEntriesByFilter(es: seq<Entry>, bucket: Value, bt: string, upload: string)
    ensures ResolveEntries(es, bucket, bt, upload).resolved == ReferencesFor(KeptEntries(es), bt)
    ensures ResolveEntries(es, bucket, bt, upload).built == ComponentsFor(BuildingEntries(es), bucket, bt, upload)
    ensures |ResolveEntries(es, bucket, bt, upload).resolved| == |KeptEntries(es)|
    ensures |ResolveEntries(es, bucket, bt, upload).built| == |BuildingEntries(es)|
  {
    ReferencesForLength(KeptEntries(es), bt);
    ComponentsForLength(BuildingEntries(es), bucket, bt, upload);
    if es != [] {
      ResolveEntriesByFilter(es[1..], bucket, bt, upload);
      var e := es[0];
      if IsKept(e) {
        assert KeptEntries(es) == [e] + KeptEntries(es[1..]);
      } else {
        assert KeptEntries(es) == KeptEntries(es[1..]);
      }
      if Builds(e) {
        assert BuildingEntries(es) == [e] + BuildingEntries(es[1..]);
      } else {
        assert BuildingEntries(es) == BuildingEntries(es[1..]);
      }
    }
  }

  /**
   * When every entry of a stage has an ARN, the stage yields exactly its entries' ARNs and
   * parameters, one for one, and creates no component.
   */
  lemma {:induction false} AllArnEntries(es: seq<Entry>, bucket: Value, bt: string, upload: string)
    requires forall i :: 0 <= i < |es| ==> es[i].arn.Some? && es[i].arn.value != ""
    ensures var r := ResolveEntries(es, bucket, bt, upload);
      r.built == [] && |r.resolved| == |es| &&
      forall i :: 0 <= i < |es| ==> r.resolved[i] == Resolved(Lit(es[i].arn.value), es[i].parameter)
  {
    if es != [] {
      AllArnEntries(es[1..], bucket, bt, upload);
      var rest := ResolveEntries(es[1..], bucket, bt, upload);
      var r := ResolveEntries(es, bucket, bt, upload);
      assert r.resolved == [Resolved(Lit(es[0].arn.value), es[0].parameter)] + rest.resolved;
      forall i | 1 <= i < |es|
        ensures r.resolved[i] == Resolved(Lit(es[i].arn.value), es[i].parameter)
      {
        assert r.resolved[i] == rest.resolved[i - 1];
        assert es[1..][i - 1] == es[i];
      }
    }
  }

  /** An entry with neither an ARN nor a file changes nothing, wherever it stands in the list. */
  lemma SkippedEntryChangesNothing(a: seq<Entry>, e: Entry, b: seq<Entry>, bucket: Value, bt: string, upload: string)
    requires !IsKept(e)
    ensures ResolveEntries(a + [e] + b, bucket, bt, upload) == ResolveEntries(a + b, bucket, bt, upload)
  {
    var ra := ResolveEntries(a, bucket, bt, upload);
    var rb := ResolveEntries(b, bucket, bt, upload);
    ResolveEntriesAppend(a, [e] + b, bucket, bt, upload);
    assert a + [e] + b == a + ([e] + b);
    ResolveEntriesAppend([e], b, bucket, bt, upload);
    assert ([e] + b)[0] == e && ([e] + b)[1..] == b;
    assert ResolveEntries([e] + b, bucket, bt, upload) == Nothing.Then(rb);
    assert Nothing.Then(rb) == rb;
    ResolveEntriesAppend(a, b, bucket, bt, upload);
  }

  /** The construct ids that a list of references points at, in order. */
  function ConstructRefs(rs: seq<Resolved>): seq<string> {
    if rs == [] then [] else (if rs[0].arn.AttrOf? then [rs[0].arn.construct] else []) + ConstructRefs(rs[1..])
  }

  function Ids(cs: seq<Component>): seq<string> {
    if cs == [] then [] else [cs[0].id] + Ids(cs[1..])
  }

  lemma {:induction false} ConstructRefsAppend(a: seq<Resolved>, b: seq<Resolved>)
    ensures ConstructRefs(a + b) == ConstructRefs(a) + ConstructRefs(b)
  {
    if a == [] {
      assert a + b == b;
    } else {
      assert (a + b)[0] == a[0] && (a + b)[1..] == a[1..] + b;
      ConstructRefsAppend(a[1..], b);
    }
  }

  lemma {:induction false} IdsAppend(a: seq<Component>, b: seq<Component>)
    ensures Ids(a + b) == Ids(a) + Ids(b)
  {
    if a == [] {
      assert a + b == b;
    } else {
      assert (a + b)[0] == a[0] && (a + b)[1..] == a[1..] + b;
      IdsAppend(a[1..], b);
    }
  }

  /**
   * Every component a stage creates is referenced by exactly one resolved entry, in creation
   * order, and no resolved entry points at anything else that was built.
   */
  lemma {:induction false} BuiltComponentsReferencedInOrder(es: seq<Entry>, bucket: Value, bt: string, upload: string)
    ensures var r := ResolveEntries(es, bucket, bt, upload); ConstructRefs(r.resolved) == Ids(r.built)
  {
    if es != [] {
      var head := ResolveEntry(es[0], bucket, bt, upload);
      var rest := ResolveEntries(es[1..], bucket, bt, upload);
      BuiltComponentsReferencedInOrder(es[1..], bucket, bt, upload);
      ConstructRefsAppend(head.resolved, rest.resolved);
      IdsAppend(head.built, rest.built);
      if HasArn(es[0]) {
        assert ConstructRefs(head.resolved) == [] == Ids(head.built);
      } else if HasFile(es[0]) {
        assert ConstructRefs(head.resolved) == [head.built[0].id] == Ids(head.built);
      }
    }
  }

  /** One resolution call of the constructor: a configuration and a stage. */
  datatype Call = Call(config: ComponentConfig, stage: string)

  /**
   * The constructor's resolution calls, in order: mandatory Build, configured Build, inspector
   * Build (only when `inspector_validation` and `Inspector_Config` are both set), configured
   * Test, mandatory Test.
   */
  function StageCalls(props: ImageBuilderProps): seq<Call> {
    var uc := props.userConfig;
    var mandatory := props.mandatoryComponent;
    (if mandatory.Some? then [Call(mandatory.value, "Build")] else [])
    + [Call(uc.componentConfig, "Build")]
    + (if TruthyBool(uc.inspectorValidation) && uc.inspectorConfig.Some? then [Call(uc.inspectorConfig.value, "Build")] else [])
    + [Call(uc.componentConfig, "Test")]
    + (if mandatory.Some? then [Call(mandatory.value, "Test")] else [])
  }

  /** A sequence of calls, each appending to what the previous ones produced. */
  function ResolveCalls(calls: seq<Call>, bucket: Value, upload: string): Resolution {
    if calls == [] then Nothing
    else ResolveStage(calls[0].config, bucket, calls[0].stage, upload).Then(ResolveCalls(calls[1..], bucket, upload))
  }

  lemma {:induction false} ResolveCallsAppend(a: seq<Call>, b: seq<Call>, bucket: Value, upload: string)
    ensures ResolveCalls(a + b, bucket, upload) == ResolveCalls(a, bucket, upload).Then(ResolveCalls(b, bucket, upload))
  {
    var rb := ResolveCalls(b, bucket, upload);
    if a == [] {
      assert a + b == b;
      assert [] + rb.resolved == rb.resolved && [] + rb.built == rb.built;
    } else {
      assert (a + b)[0] == a[0];
      assert (a + b)[1..] == a[1..] + b;
      ResolveCallsAppend(a[1..], b, bucket, upload);
      ThenAssociative(ResolveStage(a[0].config, bucket, a[0].stage, upload), ResolveCalls(a[1..], bucket, upload), rb);
    }
  }

  lemma ResolveSingleCall(c: Call, bucket: Value, upload: string)
    ensures ResolveCalls([c], bucket, upload) == ResolveStage(c.config, bucket, c.stage, upload)
  {
  }

  /** The part a call contributes when `present`, and nothing otherwise. */
  function PartIf(present: bool, config: ComponentConfig, bucket: Value, stage: string, upload: string): Resolution {
    if present then ResolveStage(config, bucket, stage, upload) else Nothing
  }

  lemma ResolveOptionalCall(present: bool, c: Call, bucket: Value, upload: string)
    ensures ResolveCalls(if present then [c] else [], bucket, upload) == PartIf(present, c.config, bucket, c.stage, upload)
  {
  }

  /**
   * The constructor's resolved list and built components are the five parts concatenated,
   * each in its own input order: mandatory Build, configured Build, inspector Build (when
   * enabled), configured Test, mandatory Test.
   */
  lemma FiveParts(props: ImageBuilderProps, bucket: Value, upload: string)
    ensures var uc := props.userConfig;
      var m := props.mandatoryComponent;
      var mandatoryConfig := if m.Some? then m.value else ComponentConfig(None, None);
      var inspect := TruthyBool(uc.inspectorValidation) && uc.inspectorConfig.Some?;
      var inspectorConfig := if uc.inspectorConfig.Some? then uc.inspectorConfig.value else ComponentConfig(None, None);
      ResolveCalls(StageCalls(props), bucket, upload)
        == PartIf(m.Some?, mandatoryConfig, bucket, "Build", upload)
             .Then(ResolveStage(uc.componentConfig, bucket, "Build", upload))
             .Then(PartIf(inspect, inspectorConfig, bucket, "Build", upload))
             .Then(ResolveStage(uc.componentConfig, bucket, "Test", upload))
             .Then(PartIf(m.Some?, mandatoryConfig, bucket, "Test", upload))
  {
    var uc := props.userConfig;
    var m := props.mandatoryComponent;
    var mandatoryConfig := if m.Some? then m.value else ComponentConfig(None, None);
    var inspect := TruthyBool(uc.inspectorValidation) && uc.inspectorConfig.Some?;
    var inspectorConfig := if uc.inspectorConfig.Some? then uc.inspectorConfig.value else ComponentConfig(None, None);
    var c1 := if m.Some? then [Call(mandatoryConfig, "Build")] else [];
    var c2 := [Call(uc.componentConfig, "Build")];
    var c3 := if inspect then [Call(inspectorConfig, "Build")] else [];
    var c4 := [Call(uc.componentConfig, "Test")];
    var c5 := if m.Some? then [Call(mandatoryConfig, "Test")] else [];
    assert StageCalls(props) == c1 + c2 + c3 + c4 + c5;
    ResolveCallsAppend(c1 + c2 + c3 + c4, c5, bucket, upload);
    ResolveCallsAppend(c1 + c2 + c3, c4, bucket, upload);
    ResolveCallsAppend(c1 + c2, c3, bucket, upload);
    ResolveCallsAppend(c1, c2, bucket, upload);
    ResolveOptionalCall(m.Some?, Call(mandatoryConfig, "Build"), bucket, upload);
    ResolveSingleCall(c2[0], bucket, upload);
    ResolveOptionalCall(inspect, Call(inspectorConfig, "Build"), bucket, upload);
    ResolveSingleCall(c4[0], bucket, upload);
    ResolveOptionalCall(m.Some?, Call(mandatoryConfig, "Test"), bucket, upload);
  }

  /**
   * No mandatory component, one Build entry with an ARN, no Test list and inspection off:
   * the recipe gets exactly that one reference and no component is built.
   */
  lemma SingleArnConfiguration(props: ImageBuilderProps, e: Entry, bucket: Value, upload: string)
    requires props.mandatoryComponent.None?
    requires props.userConfig.componentConfig == ComponentConfig(Some([e]), None)
    requires !TruthyBool(props.userConfig.inspectorValidation)
    requires HasArn(e)
    ensures ResolveCalls(StageCalls(props), bucket, upload) == Resolution([Resolved(Lit(e.arn.value), e.parameter)], [])
  {
    var uc := props.userConfig;
    var one := Resolution([Resolved(Lit(e.arn.value), e.parameter)], []);
    FiveParts(props, bucket, upload);
    assert [e][1..] == [];
    assert ResolveEntry(e, bucket, "Build", upload) == one;
    assert ResolveEntries([e], bucket, "Build", upload) == one.Then(ResolveEntries([], bucket, "Build", upload));
    assert one.resolved + [] == one.resolved;
    assert ResolveStage(uc.componentConfig, bucket, "Build", upload) == one;
    assert ResolveStage(uc.componentConfig, bucket, "Test", upload) == Nothing;
    assert Nothing.Then(one) == one;
  }
}

/**
 * The `ImagebuilderPipeline` construct: the instance-level lists that component resolution
 * fills, and the constructor body that wires bucket, components, key, distribution, recipe,
 * infrastructure and pipeline together.
 */
module Pipeline {
  import opened Wrappers
  import opened Resources
  import opened Defaults
  import opened Components
  import opened KeyPolicy

  const UploadId: string := "DeployComponents"
  const DistributionId: string := "MyCfnDistributionConfiguration"
  const RecipeId: string := "ImageRecipe"
  const InstanceProfileId: string := "Golden_AMI_Instanc_Profile"
  const InfraId: string := "Golden_AMI_Instance_Infra"
  const PipelineId: string := "Golden_AMI_Pipeline"

  /** The recipe's view of a resolved reference: `{componentArn, parameters?}`. */
  function ListEntryFor(r: Resolved): ComponentListEntry {
    ComponentListEntry(r.arn, r.param)
  }

  /**
   * The recipe's component list: same length and order as the resolved references, each
   * carrying its reference's ARN, and parameters exactly when the reference has them.
   */
  function ComponentListFor(rs: seq<Resolved>): (list: seq<ComponentListEntry>)
    ensures |list| == |rs|
    ensures forall i :: 0 <= i < |rs| ==>
      list[i].componentArn == rs[i].arn && (list[i].parameters.Some? <==> rs[i].param.Some?)
      && (rs[i].param.Some? ==> list[i].parameters == rs[i].param)
  {
    seq(|rs|, i requires 0 <= i < |rs| => ListEntryFor(rs[i]))
  }

  /** Components with the given removal policy applied to each; nothing else about them changes. */
  function WithRemoval(cs: seq<Component>, p: RemovalPolicy): (r: seq<Component>)
    ensures |r| == |cs|
    ensures forall i :: 0 <= i < |cs| ==> r[i].removal == Some(p)
    ensures forall i :: 0 <= i < |cs| ==> r[i].(removal := cs[i].removal) == cs[i]
  {
    seq(|cs|, i requires 0 <= i < |cs| => cs[i].(removal := Some(p)))
  }

  lemma AppendFive<T>(s: seq<T>, a: seq<T>, b: seq<T>, c: seq<T>, d: seq<T>, e: seq<T>)
    ensures s + a + b + c + d + e == s + (a + b + c + d + e)
  {
  }

  class ImagebuilderPipeline {
    var amitag: Option<Tags>
    var tag: Option<Tags>
    var instanceProfileRole: Option<InstanceProfile>
    var cmk: Option<Key>
    var dist: Option<DistributionConfiguration>
    var infra: Option<Infrastructure>
    var recipe: Option<Recipe>
    var pipeline: Option<ImagePipeline>
    var bucket: Option<Bucket>
    var componentArn: seq<Resolved>
    var componentList: seq<ComponentListEntry>
    var componentBuild: seq<Component>
    var distribution: seq<DistributionTarget>

    /** The field initialisers: empty lists, every construct still undefined. */
    constructor Init()
      ensures componentArn == [] && componentList == [] && componentBuild == [] && distribution == []
      ensures amitag.None? && tag.None? && bucket.None? && instanceProfileRole.None? && cmk.None?
      ensures dist.None? && infra.None? && recipe.None? && pipeline.None?
    {
      amitag, tag := None, None;
      instanceProfileRole, cmk, dist := None, None, None;
      infra, recipe, pipeline, bucket := None, None, None, None;
      componentArn, componentList, componentBuild, distribution := [], [], [], [];
    }

    /**
     * Resolves the `componentType` stage of `config`, appending to the shared lists:
     * an entry with an ARN appends that reference, an entry with a file creates a component
     * and appends its ARN, any other entry is skipped.
     */
    method AddComponent(config: ComponentConfig, bucketName: Value, componentType: string, upload: string)
      modifies this`componentArn, this`componentBuild
      ensures componentArn == old(componentArn) + ResolveStage(config, bucketName, componentType, upload).resolved
      ensures componentBuild == old(componentBuild) + ResolveStage(config, bucketName, componentType, upload).built
    {
      var buildType := BuildType(componentType);
      var entries := StageEntries(config, buildType);
      if entries.Some? {
        var cfg := entries.value;
        var i := 0;
        while i < |cfg|
          invariant 0 <= i <= |cfg|
          invariant componentArn == old(componentArn) + ResolveEntries(cfg[..i], bucketName, buildType, upload).resolved
          invariant componentBuild == old(componentBuild) + ResolveEntries(cfg[..i], bucketName, buildType, upload).built
        {
          var value := cfg[i];
          if TruthyString(value.arn) {
            componentArn := componentArn + [Resolved(Lit(value.arn.value), value.parameter)];
          } else if TruthyString(value.file) {
            var uri := S3Uri(bucketName, value.file.value);
            var imageBuild := Component(value.name + "-" + buildType, value.name, "Linux", value.version, uri, upload, None);
            componentBuild := componentBuild + [imageBuild];
            componentArn := componentArn + [Resolved(AttrOf(componentBuild[|componentBuild| - 1].id, "Arn"), value.parameter)];
          }
          ResolveEntriesSnoc(cfg[..i], value, bucketName, buildType, upload);
          assert cfg[..i + 1] == cfg[..i] + [value];
          i := i + 1;
        }
        assert cfg[..i] == cfg;
      }
    }

    /** Applies DESTROY or RETAIN, per `resource_removal_policy`, to every built component. */
    method ApplyRemovalPolicy(policy: Option<string>)
      modifies this`componentBuild
      ensures componentBuild == WithRemoval(old(componentBuild), RemovalPolicyFor(policy))
    {
      var p := RemovalPolicyFor(policy);
      var i := 0;
      while i < |componentBuild|
        invariant 0 <= i <= |componentBuild| == |old(componentBuild)|
        invariant forall k :: 0 <= k < i ==> componentBuild[k] == old(componentBuild)[k].(removal := Some(p))
        invariant forall k :: i <= k < |componentBuild| ==> componentBuild[k] == old(componentBuild)[k]
      {
        componentBuild := componentBuild[i := componentBuild[i].(removal := Some(p))];
        i := i + 1;
      }
    }

    /** Copies every resolved reference into the recipe's component list, in order. */
    method BuildComponentList()
      modifies this`componentList
      ensures componentList == old(componentList) + ComponentListFor(componentArn)
    {
      var i := 0;
      while i < |componentArn|
        invariant 0 <= i <= |componentArn|
        invariant componentList == old(componentList) + ComponentListFor(componentArn[..i])
      {
        var value := componentArn[i];
        var compList := ComponentListEntry(value.arn, None);
        if value.param.Some? {
          compList := compList.(parameters := value.param);
        }
        assert ComponentListFor(componentArn[..i + 1]) == ComponentListFor(componentArn[..i]) + [compList];
        componentList := componentList + [compList];
        i := i + 1;
      }
      assert componentArn[..i] == componentArn;
    }

    /**
     * The distribution configuration: one entry per target, in order, with the target's
     * region and accounts and the shared AMI tags.
     */
    method CreateDistribution(targets: seq<DistributionTarget>, amiTags: Option<Tags>, tags: Option<Tags>,
                              name: string, description: string)
      returns (d: DistributionConfiguration)
      ensures d.id == DistributionId && d.tags == tags && d.name == name && d.description == description
      ensures |d.distributions| == |targets|
      ensures forall i :: 0 <= i < |targets| ==>
        d.distributions[i] == DistributionEntry(targets[i].region, AmiDistribution(amiTags, targets[i].accounts))
    {
      var distributionsList: seq<DistributionEntry> := [];
      var i := 0;
      while i < |targets|
        invariant 0 <= i <= |targets|
        invariant |distributionsList| == i
        invariant forall k :: 0 <= k < i ==>
          distributionsList[k] == DistributionEntry(targets[k].region, AmiDistribution(amiTags, targets[k].accounts))
      {
        var value := targets[i];
        var amiDistributionConfiguration := AmiDistribution(amiTags, value.accounts);
        distributionsList := distributionsList + [DistributionEntry(value.region, amiDistributionConfiguration)];
        i := i + 1;
      }
      d := DistributionConfiguration(DistributionId, distributionsList, tags, name, description);
    }

    /**
     * The encryption key: its policy is the root grant followed by one grant per account of
     * every distribution target, target by target.
     */
    method CreateKMSKey(targets: seq<DistributionTarget>, alias: Option<string>) returns (key: Key)
      ensures key.id == KeyId && key.alias == alias
      ensures key.policy == KeyPolicyFor(targets)
    {
      var policy := [RootStatement()];
      var i := 0;
      while i < |targets|
        invariant 0 <= i <= |targets|
        invariant policy == [RootStatement()] + TargetStatements(targets[..i])
      {
        var accounts := targets[i].accounts;
        var j := 0;
        while j < |accounts|
          invariant 0 <= j <= |accounts|
          invariant policy == [RootStatement()] + TargetStatements(targets[..i]) + AccountStatements(accounts[..j])
        {
          AccountStatementsAppend(accounts[..j], accounts[j]);
          assert accounts[..j + 1] == accounts[..j] + [accounts[j]];
          policy := policy + [AccountStatement(accounts[j])];
          j := j + 1;
        }
        assert accounts[..j] == accounts;
        TargetStatementsAppend(targets[..i], [targets[i]]);
        assert targets[..i + 1] == targets[..i] + [targets[i]];
        assert [targets[i]][1..] == [];
        assert TargetStatements([targets[i]]) == AccountStatements(accounts) + TargetStatements([]);
        assert AccountStatements(accounts) + [] == AccountStatements(accounts);
        i := i + 1;
      }
      assert targets[..i] == targets;
      key := Key(KeyId, alias, policy);
    }

    /**
     * The image recipe: a single `/dev/xvda` mapping, encrypted exactly when a key id is
     * given, the name defaulting to `golden-ami-recipe-<attr>`, and the removal policy applied.
     */
    static function BuildRecipe(baseArn: Value, uc: UserConfig, keyid: Option<Value>,
                         components: seq<ComponentListEntry>, attr: string): (r: Recipe)
      ensures |r.blockDeviceMappings| == 1 && r.blockDeviceMappings[0].deviceName == "/dev/xvda"
      ensures r.blockDeviceMappings[0].ebs.encrypted <==> keyid.Some?
      ensures r.blockDeviceMappings[0].ebs.kmsKeyId == keyid
      ensures uc.imageRecipe.name.None? ==> r.name == "golden-ami-recipe-" + attr
      ensures uc.imageRecipe.name.Some? ==> r.name == uc.imageRecipe.name.value
      ensures attr == Attr(uc) ==> r.name == RecipeName(uc)
      ensures r.components == components && r.parentImage == baseArn
      ensures r.removal == Destroy <==> uc.removalPolicy == Some("destroy")
    {
      var encryptionNeeded := keyid.Some?;
      var ir := uc.imageRecipe;
      var ebs := Ebs(ir.deleteOnTermination, encryptionNeeded, keyid, ir.volumeSize, ir.volumeType);
      Recipe(RecipeId, ir.name.GetOr("golden-ami-recipe-" + attr), ir.version, components, baseArn,
             [BlockDeviceMapping("/dev/xvda", ebs)], RemovalPolicyFor(uc.removalPolicy))
    }

    /**
     * The constructor's component steps: the five resolution calls, the removal policy on
     * every built component, and the recipe's component list.
     */
    method ResolveComponents(props: ImageBuilderProps, bucketName: Value, upload: string)
      modifies this`componentArn, this`componentBuild, this`componentList
      ensures var res := ResolveCalls(StageCalls(props), bucketName, upload);
        && componentArn == old(componentArn) + res.resolved
        && componentBuild == WithRemoval(old(componentBuild) + res.built, RemovalPolicyFor(props.userConfig.removalPolicy))
        && componentList == old(componentList) + ComponentListFor(componentArn)
    {
      var uc := props.userConfig;
      var mandatory := props.mandatoryComponent;
      ghost var mandatoryConfig := if mandatory.Some? then mandatory.value else ComponentConfig(None, None);
      ghost var inspect := TruthyBool(uc.inspectorValidation) && uc.inspectorConfig.Some?;
      ghost var inspectorConfig := if uc.inspectorConfig.Some? then uc.inspectorConfig.value else ComponentConfig(None, None);
      ghost var p1 := PartIf(mandatory.Some?, mandatoryConfig, bucketName, "Build", upload);
      ghost var p2 := ResolveStage(uc.componentConfig, bucketName, "Build", upload);
      ghost var p3 := PartIf(inspect, inspectorConfig, bucketName, "Build", upload);
      ghost var p4 := ResolveStage(uc.componentConfig, bucketName, "Test", upload);
      ghost var p5 := PartIf(mandatory.Some?, mandatoryConfig, bucketName, "Test", upload);
      ghost var arn0, build0 := componentArn, componentBuild;

      if mandatory.Some? { AddComponent(mandatory.value, bucketName, "Build", upload); }
      assert componentArn == arn0 + p1.resolved && componentBuild == build0 + p1.built;
      AddComponent(uc.componentConfig, bucketName, "Build", upload);
      if TruthyBool(uc.inspectorValidation) && uc.inspectorConfig.Some? {
        AddComponent(uc.inspectorConfig.value, bucketName, "Build", upload);
      }
      assert componentArn == arn0 + p1.resolved + p2.resolved + p3.resolved;
      assert componentBuild == build0 + p1.built + p2.built + p3.built;
      AddComponent(uc.componentConfig, bucketName, "Test", upload);
      if mandatory.Some? { AddComponent(mandatory.value, bucketName, "Test", upload); }
      assert componentArn == arn0 + p1.resolved + p2.resolved + p3.resolved + p4.resolved + p5.resolved;
      assert componentBuild == build0 + p1.built + p2.built + p3.built + p4.built + p5.built;
      FiveParts(props, bucketName, upload);
      ghost var res := ResolveCalls(StageCalls(props), bucketName, upload);
      assert res == p1.Then(p2).Then(p3).Then(p4).Then(p5);
      assert res.resolved == p1.resolved + p2.resolved + p3.resolved + p4.resolved + p5.resolved;
      assert res.built == p1.built + p2.built + p3.built + p4.built + p5.built;
      AppendFive(arn0, p1.resolved, p2.resolved, p3.resolved, p4.resolved, p5.resolved);
      AppendFive(build0, p1.built, p2.built, p3.built, p4.built, p5.built);
      ApplyRemovalPolicy(uc.removalPolicy);
      BuildComponentList();
    }

    /**
     * The tags and the optional distribution: with a `Distribution` list, the targets are
     * kept and a distribution configuration is built under the generated or given name.
     */
    method ConfigureDistribution(uc: UserConfig) returns (distArn: Option<Value>)
      modifies this`amitag, this`tag, this`distribution, this`dist
      ensures distribution == (if uc.distribution.Some? then uc.distribution.value else old(distribution))
      ensures amitag == (if uc.amitag.Some? then uc.amitag else old(amitag))
      ensures tag == (if uc.tag.Some? then uc.tag else old(tag))
      ensures uc.distribution.None? ==> dist == old(dist) && distArn.None?
      ensures uc.distribution.Some? ==>
        dist.Some? && dist.value.id == DistributionId && |dist.value.distributions| == |distribution|
        && dist.value.tags == tag && dist.value.name == DistributionName(uc)
        && dist.value.description == DistributionDescription(uc)
        && distArn == Some(AttrOf(DistributionId, "Arn"))
        && (forall i :: 0 <= i < |distribution| ==>
              dist.value.distributions[i] == DistributionEntry(distribution[i].region, AmiDistribution(amitag, distribution[i].accounts)))
    {
      distArn := None;
      if uc.amitag.Some? { amitag := uc.amitag; }
      if uc.tag.Some? { tag := uc.tag; }
      if uc.distribution.Some? {
        distribution := uc.distribution.value;
        var distributionName := DistributionName(uc);
        var distributionDesc := DistributionDescription(uc);
        var d := CreateDistribution(distribution, amitag, tag, distributionName, distributionDesc);
        dist := Some(d);
        distArn := Some(AttrOf(d.id, "Arn"));
      }
    }

    /**
     * The encryption key. The guard that would skip it cannot hold, so the key is always
     * created, over the kept distribution targets, and its id is always defined.
     */
    method ConfigureKey(uc: UserConfig) returns (keyid: Option<Value>)
      modifies this`cmk
      ensures cmk == Some(Key(KeyId, uc.keyAlias, KeyPolicyFor(distribution)))
      ensures keyid == Some(AttrOf(KeyId, "KeyId"))
    {
      var keyAlias := uc.keyAlias;
      if SkipsKeyCreation(uc.iamEncryption) {
        keyid := None;
      } else {
        var key := CreateKMSKey(distribution, keyAlias);
        cmk := Some(key);
        keyid := Some(AttrOf(key.id, "KeyId"));
      }
    }

    /**
     * The constructor's steps after component resolution: instance profile, tags,
     * distribution, key, recipe, infrastructure and pipeline.
     */
    method BuildConstructs(uc: UserConfig)
      modifies this`instanceProfileRole, this`amitag, this`tag, this`distribution, this`dist
      modifies this`cmk, this`recipe, this`infra, this`pipeline
      ensures componentList == old(componentList)
      ensures distribution == (if uc.distribution.Some? then uc.distribution.value else old(distribution))
      ensures amitag == (if uc.amitag.Some? then uc.amitag else old(amitag))
      ensures tag == (if uc.tag.Some? then uc.tag else old(tag))
      ensures instanceProfileRole == Some(InstanceProfile(InstanceProfileId, InstanceProfileName(uc), uc.instanceProfileRoleName))
      ensures uc.distribution.None? ==> dist == old(dist)
      ensures uc.distribution.Some? ==>
        dist.Some? && dist.value.id == DistributionId && |dist.value.distributions| == |distribution|
        && dist.value.tags == tag && dist.value.name == DistributionName(uc)
        && dist.value.description == DistributionDescription(uc)
        && (forall i :: 0 <= i < |distribution| ==>
              dist.value.distributions[i] == DistributionEntry(distribution[i].region, AmiDistribution(amitag, distribution[i].accounts)))
      ensures cmk == Some(Key(KeyId, uc.keyAlias, KeyPolicyFor(distribution)))
      ensures recipe == Some(BuildRecipe(BaseImage(uc), uc, Some(AttrOf(KeyId, "KeyId")), componentList, Attr(uc)))
      ensures infra == Some(Infrastructure(InfraId, uc.infrastructure.name, uc.infrastructure.instanceTypes,
        InstanceProfileName(uc), uc.infrastructure.subnetId, uc.infrastructure.securityGroups, uc.snsTopic,
        [InstanceProfileId]))
      ensures pipeline == Some(ImagePipeline(PipelineId, PipelineName(uc), AttrOf(RecipeId, "Arn"), AttrOf(InfraId, "Arn"),
        if uc.distribution.Some? then Some(AttrOf(DistributionId, "Arn")) else None, uc.schedule, [InfraId]))
    {
      var attr := Attr(uc);
      var baseArn := BaseImage(uc);
      var instanceProfileName := InstanceProfileName(uc);
      var instanceProfileRoleName := uc.instanceProfileRoleName;
      instanceProfileRole := Some(InstanceProfile(InstanceProfileId, instanceProfileName, instanceProfileRoleName));

      var distArn := ConfigureDistribution(uc);
      var keyid := ConfigureKey(uc);

      recipe := Some(BuildRecipe(baseArn, uc, keyid, componentList, attr));

      // The infrastructure is created after the instance profile (`addDependsOn`).
      var infrastructure := Infrastructure(InfraId, uc.infrastructure.name, uc.infrastructure.instanceTypes,
        instanceProfileName, uc.infrastructure.subnetId, uc.infrastructure.securityGroups, uc.snsTopic,
        [InstanceProfileId]);
      infra := Some(infrastructure);
      var imagepipelinename := PipelineName(uc);
      // The pipeline is created after the infrastructure (`addDependsOn`).
      pipeline := Some(ImagePipeline(PipelineId, imagepipelinename, AttrOf(RecipeId, "Arn"),
        AttrOf(infrastructure.id, "Arn"), distArn, uc.schedule, [infrastructure.id]));
    }

    /**
     * The constructor body. Fails, changing nothing, when bucket creation is off and no
     * bucket name is given; otherwise builds every construct from the configuration.
     */
    method Construct(id: string, props: ImageBuilderProps) returns (outcome: Outcome)
      modifies this
      ensures var uc := props.userConfig;
        outcome.Fail? <==> uc.bucketCreate == Some(false) && uc.bucketName.None?
      ensures outcome.Fail? ==> unchanged(this)
      ensures outcome.Pass? ==> ResolveBucket(id, props.userConfig).Ok? && bucket == Some(ResolveBucket(id, props.userConfig).value)
      ensures outcome.Pass? ==>
        var uc := props.userConfig;
        var res := ResolveCalls(StageCalls(props), BucketName(ResolveBucket(id, uc).value), UploadId);
        && componentArn == old(componentArn) + res.resolved
        && componentBuild == WithRemoval(old(componentBuild) + res.built, RemovalPolicyFor(uc.removalPolicy))
        && componentList == old(componentList) + ComponentListFor(componentArn)
      ensures outcome.Pass? ==>
        var uc := props.userConfig;
        && distribution == (if uc.distribution.Some? then uc.distribution.value else old(distribution))
        && amitag == (if uc.amitag.Some? then uc.amitag else old(amitag))
        && tag == (if uc.tag.Some? then uc.tag else old(tag))
        && instanceProfileRole == Some(InstanceProfile(InstanceProfileId, InstanceProfileName(uc), uc.instanceProfileRoleName))
        && cmk == Some(Key(KeyId, uc.keyAlias, KeyPolicyFor(distribution)))
        && recipe == Some(BuildRecipe(BaseImage(uc), uc, Some(AttrOf(KeyId, "KeyId")), componentList, Attr(uc)))
        && recipe.value.blockDeviceMappings[0].ebs.encrypted
        && (forall c :: c in componentBuild ==> c.removal == Some(recipe.value.removal))
        && pipeline == Some(ImagePipeline(PipelineId, PipelineName(uc), AttrOf(RecipeId, "Arn"), AttrOf(InfraId, "Arn"),
              if uc.distribution.Some? then Some(AttrOf(DistributionId, "Arn")) else None, uc.schedule, [InfraId]))
      ensures outcome.Pass? ==>
        var uc := props.userConfig;
        && (uc.distribution.None? ==> dist == old(dist))
        && (uc.distribution.Some? ==>
              dist.Some? && dist.value.id == DistributionId && |dist.value.distributions| == |distribution|
              && dist.value.tags == tag && dist.value.name == DistributionName(uc)
              && dist.value.description == DistributionDescription(uc)
              && (forall i :: 0 <= i < |distribution| ==>
                    dist.value.distributions[i] == DistributionEntry(distribution[i].region, AmiDistribution(amitag, distribution[i].accounts))))
      ensures outcome.Pass? ==>
        var uc := props.userConfig;
        && infra == Some(Infrastructure(InfraId, uc.infrastructure.name, uc.infrastructure.instanceTypes,
              InstanceProfileName(uc), uc.infrastructure.subnetId, uc.infrastructure.securityGroups, uc.snsTopic,
              [InstanceProfileId]))
    {
      var uc := props.userConfig;
      var resolvedBucket := ResolveBucket(id, uc);
      if resolvedBucket.Err? {
        return Fail(resolvedBucket.message);
      }
      bucket := Some(resolvedBucket.value);
      var s3componentdeploy := Deployment(UploadId, uc.componentsPrefix, resolvedBucket.value, uc.componentsPrefix);
      ResolveComponents(props, BucketName(resolvedBucket.value), s3componentdeploy.id);

      BuildConstructs(uc);
      outcome := Pass;
    }
  }
}

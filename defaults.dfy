/**
 * The defaulting and branch rules of the pipeline constructor: the `attr` default, the
 * generated names, the removal-policy choice, the bucket create/import/error decision and
 * the encryption guard.
 */
module Defaults {
  import opened Wrappers
  import opened Resources

  const DefaultAttr: string := "poc-0906"

  /** The defaulted attribute, `user_config['attr'] ?? 'poc-0906'`. */
  function Attr(uc: UserConfig): (a: string)
    ensures uc.attr.Some? ==> a == uc.attr.value
    ensures uc.attr.None? ==> a == DefaultAttr
  {
    uc.attr.GetOr(DefaultAttr)
  }

  /** How a template literal renders an optional string: an absent value prints "undefined". */
  function Interpolated(s: Option<string>): string {
    match s
    case Some(v) => v
    case None => "undefined"
  }

  /** The instance-profile name; its default interpolates the raw, undefaulted `attr`. */
  function InstanceProfileName(uc: UserConfig): string {
    uc.instanceProfileName.GetOr("Golden_AMI_Instance_Profile-" + Interpolated(uc.attr))
  }

  /** The distribution name; its default interpolates the raw, undefaulted `attr`. */
  function DistributionName(uc: UserConfig): string {
    uc.distributionName.GetOr("Golden_AMI_Distribution-" + Interpolated(uc.attr))
  }

  /** The distribution description; its default interpolates the raw, undefaulted `attr`. */
  function DistributionDescription(uc: UserConfig): string {
    uc.distributionDescription.GetOr("Destribution settings for " + Interpolated(uc.attr))
  }

  /** The image-pipeline name; its default uses the defaulted `attr`. */
  function PipelineName(uc: UserConfig): string {
    uc.imagePipelineName.GetOr("golden-ami-pipeline-" + Attr(uc))
  }

  /** The recipe name; its default uses the defaulted `attr`. */
  function RecipeName(uc: UserConfig): string {
    uc.imageRecipe.name.GetOr("golden-ami-recipe-" + Attr(uc))
  }

  /**
   * With `attr` given, every generated name carries it; without it, the names built from the
   * raw field carry "undefined" while those built from the defaulted one carry "poc-0906".
   */
  lemma GeneratedNames(uc: UserConfig)
    requires uc.instanceProfileName.None? && uc.distributionName.None?
    requires uc.distributionDescription.None? && uc.imagePipelineName.None?
    requires uc.imageRecipe.name.None?
    ensures uc.attr.Some? ==>
      InstanceProfileName(uc) == "Golden_AMI_Instance_Profile-" + uc.attr.value &&
      DistributionName(uc) == "Golden_AMI_Distribution-" + uc.attr.value &&
      DistributionDescription(uc) == "Destribution settings for " + uc.attr.value &&
      PipelineName(uc) == "golden-ami-pipeline-" + uc.attr.value &&
      RecipeName(uc) == "golden-ami-recipe-" + uc.attr.value
    ensures uc.attr.None? ==>
      InstanceProfileName(uc) == "Golden_AMI_Instance_Profile-undefined" &&
      DistributionName(uc) == "Golden_AMI_Distribution-undefined" &&
      DistributionDescription(uc) == "Destribution settings for undefined" &&
      PipelineName(uc) == "golden-ami-pipeline-poc-0906" &&
      RecipeName(uc) == "golden-ami-recipe-poc-0906"
  {
  }

  /** An explicitly configured name always wins over the generated one. */
  lemma ConfiguredNamesWin(uc: UserConfig)
    ensures uc.instanceProfileName.Some? ==> InstanceProfileName(uc) == uc.instanceProfileName.value
    ensures uc.distributionName.Some? ==> DistributionName(uc) == uc.distributionName.value
    ensures uc.distributionDescription.Some? ==> DistributionDescription(uc) == uc.distributionDescription.value
    ensures uc.imagePipelineName.Some? ==> PipelineName(uc) == uc.imagePipelineName.value
    ensures uc.imageRecipe.name.Some? ==> RecipeName(uc) == uc.imageRecipe.name.value
  {
  }

  /** DESTROY exactly when the field is the string "destroy"; RETAIN otherwise, absent included. */
  function RemovalPolicyFor(policy: Option<string>): (p: RemovalPolicy)
    ensures p == Destroy <==> policy == Some("destroy")
    ensures p == Retain <==> policy != Some("destroy")
  {
    if policy == Some("destroy") then Destroy else Retain
  }

  /**
   * The component bucket. Creation defaults to on; with creation off a bucket name is
   * required and the bucket is imported under the fixed id 'imported-bucket-from-name'.
   */
  function ResolveBucket(id: string, uc: UserConfig): (r: Result<Bucket>)
    ensures r.Err? <==> uc.bucketCreate == Some(false) && uc.bucketName.None?
    ensures r.Ok? && r.value.Imported? <==> uc.bucketCreate == Some(false) && uc.bucketName.Some?
    ensures r.Ok? && r.value.Imported? ==>
      r.value == Imported("imported-bucket-from-name", uc.bucketName.value)
    ensures r.Ok? && r.value.Created? ==>
      r.value == Created(id, uc.bucketVersioned, uc.bucketName)
  {
    if uc.bucketCreate.GetOr(true) then
      Ok(Created(id, uc.bucketVersioned, uc.bucketName))
    else if uc.bucketName.None? then
      Err("ami_component_bucket_name needs to provided")
    else
      Ok(Imported("imported-bucket-from-name", uc.bucketName.value))
  }

  /** The bucket's name as seen by the components: a token for a created bucket, the name otherwise. */
  function BucketName(b: Bucket): (v: Value)
    ensures b.Imported? ==> v == Lit(b.name)
    ensures b.Created? ==> v.AttrOf? && v.construct == b.id
  {
    match b
    case Created(id, _, _) => AttrOf(id, "BucketName")
    case Imported(_, name) => Lit(name)
  }

  /**
   * The guard that would skip key creation, `iamEncryption && !iamEncryption`:
   * it cannot hold, whatever the configuration says.
   */
  function SkipsKeyCreation(iamEncryption: Option<bool>): (skip: bool)
    ensures !skip
  {
    TruthyBool(iamEncryption) && !TruthyBool(iamEncryption)
  }

  /** The parent image: an SSM parameter lookup when `baseImageType` is "ssm", else the literal. */
  function BaseImage(uc: UserConfig): (v: Value)
    ensures uc.baseImageType == Some("ssm") <==> v == SsmParameter(uc.baseImage)
    ensures uc.baseImageType != Some("ssm") <==> v == Lit(uc.baseImage)
  {
    if uc.baseImageType == Some("ssm") then SsmParameter(uc.baseImage) else Lit(uc.baseImage)
  }
}

/**
 * The configuration handed to the pipeline construct, and the records that stand for the
 * cloud constructs it creates. Every construct is treated as an opaque record: its construct
 * id, the properties it is given, its removal policy and its dependency edges.
 */
module Resources {
  import opened Wrappers

  /** A string whose content is only known at deployment time (a CDK token) or a literal. */
  datatype Value =
    | Lit(text: string)                             // a literal string from the configuration
    | AttrOf(construct: string, attribute: string)  // an attribute of a construct, e.g. its ARN
    | SsmParameter(parameterName: string)           // the value of an SSM parameter, looked up at deployment

  type Tags = map<string, string>

  /** A component parameter, `{name, value[]}`. */
  datatype Param = Param(name: string, value: seq<string>)

  /**
   * One entry of a stage list: either a reference to an existing component (`arn`) or a file
   * to be registered as a new component (`name`, `version`, `file`); `parameter` is optional.
   */
  datatype Entry = Entry(
    arn: Option<string>,
    file: Option<string>,
    name: string,
    version: string,
    parameter: Option<seq<Param>>)

  /** A component configuration: the optional `Build` and `Test` stage lists. */
  datatype ComponentConfig = ComponentConfig(build: Option<seq<Entry>>, test: Option<seq<Entry>>)

  /** One distribution target: a region and the accounts the AMI is shared with. */
  datatype DistributionTarget = DistributionTarget(region: string, accounts: seq<string>)

  /** The `image_recipe` block of the configuration. */
  datatype ImageRecipeConfig = ImageRecipeConfig(
    name: Option<string>,
    version: string,
    deleteOnTermination: Option<bool>,
    volumeSize: Option<int>,
    volumeType: Option<string>)

  /** The `infrastructure` block of the configuration. */
  datatype InfrastructureConfig = InfrastructureConfig(
    name: string,
    instanceTypes: seq<string>,
    subnetId: Option<string>,
    securityGroups: Option<seq<string>>)

  /** The user configuration; each field is named after the configuration key it reads. */
  datatype UserConfig = UserConfig(
    attr: Option<string>,
    bucketName: Option<string>,          // ami_component_bucket_name
    bucketCreate: Option<bool>,          // ami_component_bucket_create
    bucketVersioned: Option<bool>,       // ami_component_bucket_version
    componentsPrefix: string,            // components_prefix
    componentConfig: ComponentConfig,    // Component_Config
    inspectorValidation: Option<bool>,   // inspector_validation
    inspectorConfig: Option<ComponentConfig>,  // Inspector_Config
    removalPolicy: Option<string>,       // resource_removal_policy
    baseImageType: Option<string>,
    baseImage: string,
    instanceProfileName: Option<string>,
    instanceProfileRoleName: Option<string>,
    amitag: Option<Tags>,
    tag: Option<Tags>,
    distribution: Option<seq<DistributionTarget>>,  // Distribution
    distributionName: Option<string>,
    distributionDescription: Option<string>,
    keyAlias: Option<string>,            // key_alias
    iamEncryption: Option<bool>,
    imageRecipe: ImageRecipeConfig,      // image_recipe
    infrastructure: InfrastructureConfig,
    snsTopic: Option<string>,            // sns_topic
    imagePipelineName: Option<string>,
    schedule: Option<Tags>)              // passed through verbatim

  /** The props of the construct: the configuration and an optional mandatory component set. */
  datatype ImageBuilderProps = ImageBuilderProps(userConfig: UserConfig, mandatoryComponent: Option<ComponentConfig>)

  datatype RemovalPolicy = Destroy | Retain

  /** The component bucket: created under the construct's own id, or imported by name. */
  datatype Bucket =
    | Created(id: string, versioned: Option<bool>, requestedName: Option<string>)
    | Imported(id: string, name: string)

  /** The upload of the components directory into the bucket. */
  datatype Deployment = Deployment(id: string, sourcePath: string, destination: Bucket, keyPrefix: string)

  /** `s3://<bucket>/<key>`, where the bucket name may be a deployment-time token. */
  datatype S3Uri = S3Uri(bucket: Value, key: string)

  /** A component built from an uploaded file (`CfnComponent`). */
  datatype Component = Component(
    id: string,
    name: string,
    platform: string,
    version: string,
    uri: S3Uri,
    dependsOn: string,
    removal: Option<RemovalPolicy>)

  /** A resolved component reference, `{arn, param?}`. */
  datatype Resolved = Resolved(arn: Value, param: Option<seq<Param>>)

  /** An element of the recipe's component list, `{componentArn, parameters?}`. */
  datatype ComponentListEntry = ComponentListEntry(componentArn: Value, parameters: Option<seq<Param>>)

  datatype Principal = AccountRoot | Account(id: string)

  /** A statement of the key's resource policy. */
  datatype Statement = Statement(
    actions: seq<string>,
    principal: Principal,
    principalArnLike: string,
    resources: seq<string>)

  datatype Key = Key(id: string, alias: Option<string>, policy: seq<Statement>)

  datatype AmiDistribution = AmiDistribution(amiTags: Option<Tags>, targetAccountIds: seq<string>)
  datatype DistributionEntry = DistributionEntry(region: string, ami: AmiDistribution)

  datatype DistributionConfiguration = DistributionConfiguration(
    id: string,
    distributions: seq<DistributionEntry>,
    tags: Option<Tags>,
    name: string,
    description: string)

  datatype Ebs = Ebs(
    deleteOnTermination: Option<bool>,
    encrypted: bool,
    kmsKeyId: Option<Value>,
    volumeSize: Option<int>,
    volumeType: Option<string>)

  datatype BlockDeviceMapping = BlockDeviceMapping(deviceName: string, ebs: Ebs)

  datatype Recipe = Recipe(
    id: string,
    name: string,
    version: string,
    components: seq<ComponentListEntry>,
    parentImage: Value,
    blockDeviceMappings: seq<BlockDeviceMapping>,
    removal: RemovalPolicy)

  /** The instance profile; the IAM role behind it is reduced to its requested name. */
  datatype InstanceProfile = InstanceProfile(id: string, name: string, roleName: Option<string>)

  datatype Infrastructure = Infrastructure(
    id: string,
    name: string,
    instanceTypes: seq<string>,
    instanceProfileName: string,
    subnetId: Option<string>,
    securityGroupIds: Option<seq<string>>,
    snsTopicArn: Option<string>,
    dependsOn: seq<string>)

  datatype ImagePipeline = ImagePipeline(
    id: string,
    name: string,
    imageRecipeArn: Value,
    infrastructureArn: Value,
    distributionArn: Option<Value>,
    schedule: Option<Tags>,
    dependsOn: seq<string>)

  /** JavaScript truthiness of an optional string: present and non-empty. */
  predicate TruthyString(s: Option<string>) {
    s.Some? && s.value != ""
  }

  /** JavaScript truthiness of an optional boolean. */
  predicate TruthyBool(b: Option<bool>) {
    b == Some(true)
  }
}

# Golden-AMI image-builder pipeline: a Dafny model of its construction logic

The `ImagebuilderPipeline` construct (lib/imagebuilderpipeline.ts) wires an EC2 Image Builder
pipeline together from one configuration object: a component bucket, the build and test
components, an instance profile, a KMS key, an optional distribution configuration, an image
recipe, an infrastructure configuration and the pipeline itself. Every cloud construct is an
opaque record here: its construct id, the properties it is given, its removal policy and its
dependency edges. Values only known at deployment time are modelled by `Value`. These are
construct attributes such as a component's `attrArn`, the key's `keyId` or a created bucket's
`bucketName` (`AttrOf(construct, attribute)`), and the SSM parameter lookup (`SsmParameter(name)`).

Modules, one file each:

- `Wrappers` (wrappers.dfy): `Option` for undefined fields, `Result` and `Outcome` for a step that can throw.
- `Resources` (resources.dfy): the configuration, the construct records, and JavaScript truthiness of optional strings and booleans.
- `Defaults` (defaults.dfy): the `attr` default, the generated names, the removal-policy rule, the bucket create/import/error decision, the parent-image choice, and the guard that would skip the key.
- `Components` (components.dfy): the specification of component resolution. It covers one entry, one stage list, one `AddComponent` call and the constructor's five calls. Lemmas relate it to a filter-then-map description and prove order and "nothing else added" claims.
- `KeyPolicy` (keypolicy.dfy): the key's resource policy as a function of the distribution targets, with size, order and grantee lemmas.
- `Pipeline` (pipeline.dfy): the class `ImagebuilderPipeline`. It holds the instance-level lists that `AddComponent` appends to (`componentArn`, `componentBuild`) and the list the constructor fills (`componentList`). Each of its methods is proved against the specification functions above.

Two points of the code are modelled as written:

- The guard at line 145, `iamEncryption && !iamEncryption`, can never hold. So the key is always created and the recipe is always encrypted (`Defaults.SkipsKeyCreation`, `Pipeline.ImagebuilderPipeline.Construct`). The field name `iamEncryption` reads like an off switch, but no configuration reaches a path without a key.
- The instance-profile name and the distribution name and description (lines 120, 137-138) interpolate the raw `attr` field. When `attr` is absent they contain `undefined`, while the pipeline and recipe names use the defaulted `poc-0906` (`Defaults.GeneratedNames`).

When bucket creation is off and no bucket name is given, line 67 throws a plain
`Error("ami_component_bucket_name needs to provided")`, which the model returns as `Fail` with that message.

## Model

| member | source | states |
|---|---|---|
| `Defaults.Attr` | lib/imagebuilderpipeline.ts:54 | the configured `attr` when present, `poc-0906` otherwise |
| `Defaults.GeneratedNames` | lib/imagebuilderpipeline.ts:120-167 | default names: instance profile, distribution name and description carry the raw `attr` ("undefined" when absent); pipeline and recipe carry the defaulted `attr` |
| `Defaults.ConfiguredNamesWin` | lib/imagebuilderpipeline.ts:120-167 | an explicitly configured name is used as is |
| `Defaults.RemovalPolicyFor` | lib/imagebuilderpipeline.ts:94-101 | DESTROY exactly when the field equals "destroy", RETAIN otherwise, absent included |
| `Defaults.ResolveBucket` | lib/imagebuilderpipeline.ts:54-77 | error exactly when creation is off and no name is given; import by name exactly when creation is off and a name is given; otherwise a bucket created under the construct's id with the requested name and versioning |
| `Defaults.BucketName` | lib/imagebuilderpipeline.ts:71-75 | an imported bucket's name is the literal name; a created bucket's is a token of that bucket |
| `Defaults.SkipsKeyCreation` | lib/imagebuilderpipeline.ts:145-151 | the key-skipping guard is false for every configuration |
| `Defaults.BaseImage` | lib/imagebuilderpipeline.ts:111-118 | an SSM lookup of `baseImage` exactly when `baseImageType` is "ssm", the literal otherwise |
| `Components.BuildType` | lib/imagebuilderpipeline.ts:414-417 | "Build" and "Test" map to themselves, every other stage to "" |
| `Components.ResolveEntry` | lib/imagebuilderpipeline.ts:422-458 | an ARN entry appends exactly `{arn, param}` and creates nothing; a file entry creates one Linux component `<name>-<stage>` at `s3://<bucket>/<file>` after the upload and appends that component's ARN; any other entry adds nothing |
| `Components.ResolveStage` | lib/imagebuilderpipeline.ts:414-420 | nothing is added when the stage is neither Build nor Test, or when the configuration lacks the stage key |
| `Components.ResolveEntriesAppend` | lib/imagebuilderpipeline.ts:422-459 | resolving a concatenated list is resolving its parts one after the other |
| `Components.ResolveEntriesByFilter` | lib/imagebuilderpipeline.ts:422-458 | the references are the entries with an ARN or a file, in input order, one per such entry; the new components are the entries with a file and no ARN, in input order, one per such entry |
| `Components.AllArnEntries` | lib/imagebuilderpipeline.ts:424-432 | a list of ARN entries resolves one for one to those ARNs and parameters and builds no component |
| `Components.SkippedEntryChangesNothing` | lib/imagebuilderpipeline.ts:422-459 | an entry with neither ARN nor file can be removed from any position without changing the outcome |
| `Components.BuiltComponentsReferencedInOrder` | lib/imagebuilderpipeline.ts:446-457 | the component references in the resolved list are exactly the built components, once each, in creation order |
| `Components.FiveParts` | lib/imagebuilderpipeline.ts:85-91 | the resolved list and built components are mandatory Build, configured Build, inspector Build (only when validation and inspector config are both set), configured Test and mandatory Test, concatenated |
| `Components.SingleArnConfiguration` | lib/imagebuilderpipeline.ts:85-91 | no mandatory set, one Build ARN entry, no Test list, inspection off: exactly that one reference and no component |
| `KeyPolicy.KeyPolicySize` | lib/imagebuilderpipeline.ts:361-404 | the policy has 1 + (total accounts over all targets) statements, the root grant first |
| `KeyPolicy.KeyPolicyOrder` | lib/imagebuilderpipeline.ts:380-404 | the grant for account j of target i follows the root and all grants of earlier targets |
| `KeyPolicy.KeyPolicyGrantees` | lib/imagebuilderpipeline.ts:380-404 | an account is granted exactly when it appears in some target |
| `KeyPolicy.OnlyAccountGrantsFollowRoot` | lib/imagebuilderpipeline.ts:380-404 | every statement after the first is the grant of some target account |
| `KeyPolicy.NoTargetsRootOnly` | lib/imagebuilderpipeline.ts:361-379 | with no targets the policy is the root statement alone |
| `KeyPolicy.OneTargetOneAccount` | lib/imagebuilderpipeline.ts:361-404 | one target with one account gives exactly the root grant and that account's grant |
| `Pipeline.ComponentListFor` | lib/imagebuilderpipeline.ts:103-109 | same length and order as the resolved references, same ARN, parameters exactly when the reference has them |
| `Pipeline.WithRemoval` | lib/imagebuilderpipeline.ts:94-101 | every component gets the policy and nothing else about it changes |
| `Pipeline.ImagebuilderPipeline.Init` | lib/imagebuilderpipeline.ts:39-45 | the instance lists start empty and every construct undefined |
| `Pipeline.ImagebuilderPipeline.AddComponent` | lib/imagebuilderpipeline.ts:407-461 | appends exactly the stage's resolved references and new components to the shared lists |
| `Pipeline.ImagebuilderPipeline.ApplyRemovalPolicy` | lib/imagebuilderpipeline.ts:94-101 | every built component gets the configured removal policy, nothing else changes |
| `Pipeline.ImagebuilderPipeline.BuildComponentList` | lib/imagebuilderpipeline.ts:103-109 | appends one list entry per resolved reference, in order |
| `Pipeline.ImagebuilderPipeline.CreateDistribution` | lib/imagebuilderpipeline.ts:226-247 | one entry per target, in order, with its region and accounts and the shared AMI tags |
| `Pipeline.ImagebuilderPipeline.CreateKMSKey` | lib/imagebuilderpipeline.ts:356-406 | the key's policy is the root grant followed by the grants of every target's accounts |
| `Pipeline.ImagebuilderPipeline.BuildRecipe` | lib/imagebuilderpipeline.ts:265-305 | one `/dev/xvda` mapping, encrypted exactly when a key id is given and carrying it, name defaulting to `golden-ami-recipe-<attr>` (the `Defaults.RecipeName` rule when given the defaulted `attr`), DESTROY exactly when the policy is "destroy" |
| `Pipeline.ImagebuilderPipeline.ResolveComponents` | lib/imagebuilderpipeline.ts:85-109 | the lists after the five calls, the removal policy and the component-list copy |
| `Pipeline.ImagebuilderPipeline.ConfigureDistribution` | lib/imagebuilderpipeline.ts:132-141 | tags kept when given; with targets, a distribution configuration with the generated or given name and description |
| `Pipeline.ImagebuilderPipeline.ConfigureKey` | lib/imagebuilderpipeline.ts:143-151 | the key is always created over the kept targets, and its id is always defined |
| `Pipeline.ImagebuilderPipeline.BuildConstructs` | lib/imagebuilderpipeline.ts:111-176 | instance profile, tags, distribution with each target's region, accounts and shared AMI tags, key, recipe, the infrastructure record after the profile, pipeline after the infrastructure |
| `Pipeline.ImagebuilderPipeline.Construct` | lib/imagebuilderpipeline.ts:47-177 | fails, changing nothing, exactly on the missing bucket name; otherwise bucket, component lists, tags, distribution targets and configuration (per entry), instance profile, key, recipe (always encrypted, one removal policy with the components), infrastructure and pipeline |

## Left out

- IAM role (lines 312-343): the managed policies and the two inline statements are not modelled. The instance profile records only its name and the requested role name.
- `CreateInstanceProfileRole`, `CreateInfra` and `CreateImagePipeline` pass configuration fields straight to constructs. They are built inline in `BuildConstructs` rather than as separate members.
- The `try`/`catch` re-wrapping in `CreateImagePipeline`, `CreateInfra` and `CreateDistribution`: whether library constructors throw cannot be seen.
- The upload of the components directory (`Source.asset`, `BucketDeployment`): recorded as a `Deployment` record. Its construct id is the dependency target of every built component.
- CDK validation of construct properties and construct-id collisions (the same component name twice in one stage): these belong to the library.
- `console.log` output.
- Configuration fields set to `null`: `??` would also replace `null`, and a template literal would print "null". Only undefined (absent) fields are modelled.
- A stage key present with an undefined list (the `forEach` would throw) is not modelled. The configuration shape has the stage lists either absent or present.
- A `parameter` key present with an undefined value is treated as absent. The recipe's component list is the same either way.
- `CreateKMSKey` accepts an undefined target list, but the constructor always passes an array. The model takes a sequence.
- `KeyPolicy.KeyPolicyFor` and `Key.policy` hold only the statements this code adds with `addToResourcePolicy`. The key created by `new kms.Key` also carries the library's own default key policy statement, which is not modelled, so "the root grant first" speaks of the added statements, not of the deployed policy.
- The key object's `addToResourcePolicy` mutation: the statements are accumulated in order and the key record is built with them.
- The unused `encryption` local of `buildRecipe` (line 279).
- The TypeScript constructor can throw. Dafny constructors cannot return an error, so the field initialisers are the constructor `Init` and the constructor body is the method `Construct`.

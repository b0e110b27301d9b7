# Database-migration stack: descriptor model

This project models the resource-graph construction of the database-migration
CDK stack (`ResourcesCreationStack` in `index-dev.ts`). From one flat parameter
record the constructor derives a shared name prefix and the names built on it,
describes an isolated network with a security group, a generated secret and a
by-name reference to it, two locked-down S3 buckets (import and export) each
with a three-statement policy, and an Aurora MySQL cluster bound to all of them.
It then declares six explicit dependencies and publishes eight outputs.

The model treats every CDK construct as a plain immutable record.
`MigrationStack.Build` is a pure function from `Params` to either the finished
`Stack` or the one failure the stack's own code raises. That failure comes from
deriving an output's export name from an empty bucket base name: `""[0]` is
`undefined`, and upper-casing it throws.

Modules:

- `Wrappers`: the `Option` and `Result` types.
- `Names`: the hyphen-joined naming scheme. `Qualify` has an inverse, `Unqualify`.
- `Arns`: ARN strings, with `Format` and an inverse, `Parse`. Every locator the
  stack publishes is stated through `Parse`.
- `ExportKeys`: export names and the first-letter capitalisation behind the
  bucket keys.
- `Dependencies`: dependency edges, paths, acyclicity, and rank functions as an
  acyclicity witness.
- `Resources`: the descriptors, each bucket's policy statements and the bucket
  builder.
- `MigrationStack`: the parameters, `Build`, the shape predicates its contract
  promises, and the lemmas relating them.
- `Defaults`: the default parameter object as a worked instance.

Notes on what the constructor does:

- Storage encryption is whatever the `storageEncrypted` parameter says
  (`index-dev.ts:195`).
- The constructor validates no parameter and checks no name for collisions
  and no dependency for cycles. Uniqueness and acyclicity are therefore proved
  as lemmas about what it builds.
- The secret locator is assembled by hand as
  `arn:aws:secretsmanager:<region>:<account>:secret:<name>` (`index-dev.ts:54`).
- The instance parameter-group name is read from a field that the default
  parameter object comments out (`index-dev.ts:220`, `index-dev.ts:367`). It is
  an `Option`, and an absent value is passed through unchanged.

## Model

| member | source | states |
|---|---|---|
| `Names.NamePrefix` | index-dev.ts:52 | the prefix is orgName, projectName, environment and regionName joined by single hyphens |
| `Names.Qualify` | index-dev.ts:53 | a resource name is the prefix, one hyphen and the base name, so it is exactly one character longer than the two together; `Unqualify` recovers the base (see `Names.UnqualifyQualify`) |
| `Names.UnqualifyQualify` | index-dev.ts:53 | a derived name is `prefix-base` exactly when stripping `prefix-` from it gives back `base` |
| `Names.QualifyInjective` | index-dev.ts:122 | under one prefix, two resource names are equal exactly when their base names are |
| `Arns.ParseFormat` | index-dev.ts:54 | reading an ARN string gives back exactly the fields it was written from, when the five leading fields contain no colon, and gives nothing else |
| `Arns.SplitAtColon` | index-dev.ts:54 | splitting at the first colon gives a colon-free head and a tail that rebuild the input, or reports that the input contains no colon |
| `MigrationStack.SecretArnParses` | index-dev.ts:54 | the published secret locator reads back as a Secrets Manager ARN for the stack's region and account whose resource is `secret:` followed by the secret's name |
| `MigrationStack.ClusterArnParses` | index-dev.ts:264 | the cluster locator reads back as an RDS ARN whose resource is `cluster:` followed by the cluster identifier |
| `MigrationStack.PolicyArnParses` | index-dev.ts:279 | the policy locator reads back as a region-less IAM ARN for the account whose resource is `policy/<bucket>-policy` |
| `Resources.BucketPolicy` | index-dev.ts:147-174 | three statements in the order console-read, object-read, put-object; every statement trusts exactly the ECS and RDS service principals; every resource reads back as the bucket's own S3 ARN or its `/*` objects ARN; console-read is scoped to the bucket alone and the other two to both; console-read grants exactly `s3:GetBucketAcl`, `s3:GetBucketLocation` and `s3:ListBucket`, object-read exactly `s3:GetObject`, `s3:GetObjectAcl`, `s3:GetObjectVersion` and `s3:GetObjectTagging`, and put-object exactly `s3:PutObject`, the only write; only put-object carries a condition, and that condition requires `bucket-owner-full-control` |
| `Resources.BucketArnsParse` | index-dev.ts:151-158 | the bucket's resource strings read back as S3 ARNs of the bucket and of every object in it |
| `Resources.MakeBuckets` | index-dev.ts:122-143 | one bucket per base name, in order; each is named `prefix-base`, is unversioned, private, S3-encrypted and destroyed on removal, has all four public-access blocks set, and carries its own policy |
| `MigrationStack.BucketOutputs` | index-dev.ts:269-281 | two records per bucket in bucket order, with the bucket ARN under the capitalised base name plus `BucketOutput` and the policy ARN under the capitalised base name plus `BucketPolicyOutput`; fails exactly when some base name is empty, and at the first such one |
| `MigrationStack.Build` | index-dev.ts:47-282 | fails exactly when a bucket base name is empty (import checked first); otherwise the stack satisfies the naming, secret, network, bucket, cluster-binding, edge, reference and output predicates |
| `MigrationStack.AssembledNaming` | index-dev.ts:52-53 | the secret name, both bucket names and the cluster identifier strip back to their base names under the shared prefix, and the instance identifier base is the cluster identifier followed by `-` |
| `MigrationStack.AssembledSecret` | index-dev.ts:100-118 | the secret is looked up by the name it was created under; the credentials are that secret's `username` and `password` fields; the cluster uses them; the published locator is the Secrets Manager ARN of that secret in the stack's region and account, and reads back as such when the region and account hold no colon |
| `MigrationStack.AssembledNetwork` | index-dev.ts:63-97 | a `10.0.0.0/16` network with no NAT or VPN gateway and exactly a public /24 tier then an isolated /28 tier; a security group in it with all outbound traffic allowed and inbound only TCP 22 and TCP on the configured port from any IPv4 address; the cluster sits on the isolated tier with that group, and an absent instance parameter-group name stays absent |
| `MigrationStack.AssembledBuckets` | index-dev.ts:177-184 | exactly two locked-down buckets, each with its own policy; the cluster imports from bucket 0 only and exports to bucket 1 only |
| `MigrationStack.AssembledEdges` | index-dev.ts:230-235 | exactly six distinct edges: the security group on the network, and the cluster on the network, the security group, both buckets and the secret; nothing depends on the cluster; every resource the cluster and the group refer to is one of their dependencies |
| `MigrationStack.AssembledOutputs` | index-dev.ts:241-281 | exactly eight records, whose export names are the four fixed names followed by the bucket and policy keys of each bucket in order |
| `MigrationStack.AssembledFixedOutputs` | index-dev.ts:241-266 | the network and security-group records carry deploy-time tokens of those resources; the secret record publishes the secret locator; the cluster record is the RDS ARN of the cluster identifier in the stack's region and account, and reads back as such when the region and account hold no colon |
| `MigrationStack.AssembledBucketOutputs` | index-dev.ts:269-281 | the ARN published for each bucket is the resource its policy is scoped to, and its policy record is the IAM ARN of `<bucket>-policy` in the account, which reads back as such when the account holds no colon |
| `MigrationStack.BucketRecordsMatch` | index-dev.ts:274-279 | a bucket's ARN record is the first resource of its policy, and its policy record is the IAM ARN of the policy named after the bucket |
| `MigrationStack.AssembledOutputNames` | index-dev.ts:271-276 | both base names are non-empty and the eight export names appear in the fixed order |
| `Dependencies.RankDecreasesAlongPath` | index-dev.ts:230-235 | along any walk over edges that a rank strictly decreases on, the rank at the start is higher than at the end |
| `Dependencies.RankedIsAcyclic` | index-dev.ts:230-235 | edges ranked this way have no self-edge and no cycle |
| `MigrationStack.EdgesAcyclic` | index-dev.ts:230-235 | the stack's dependency edges have no self-edge and no cycle |
| `MigrationStack.EdgesFollowCreationOrder` | index-dev.ts:63-235 | every dependency is created before the resource that depends on it, in the constructor's order: network, security group, secret, import bucket, export bucket, cluster |
| `MigrationStack.ExportNamesInOrder` | index-dev.ts:241-281 | the export names are exactly the four fixed names followed by the bucket and policy keys of the import bucket, then of the export bucket |
| `MigrationStack.ExportNamesDistinct` | index-dev.ts:271-276 | the eight export names are pairwise distinct exactly when the two capitalised base names differ |
| `MigrationStack.BucketNamesDistinct` | index-dev.ts:122 | the two bucket names differ exactly when the base names do |
| `MigrationStack.SecretArn` | index-dev.ts:54 | the secret locator is the ARN with partition `aws`, service `secretsmanager`, the stack's region and account, and resource `secret:<name>` |
| `MigrationStack.ClusterArn` | index-dev.ts:264 | the cluster locator is the ARN with partition `aws`, service `rds`, the stack's region and account, and resource `cluster:<identifier>` |
| `MigrationStack.PolicyArn` | index-dev.ts:279 | the policy locator is the ARN with partition `aws`, service `iam`, no region, the account, and resource `policy/<bucket>-policy` |
| `Resources.BucketArn` | index-dev.ts:151 | a bucket's resource string is the ARN with partition `aws`, service `s3`, no region, no account, and the bucket name as resource |
| `Resources.ObjectsArn` | index-dev.ts:158 | the objects resource string is the same ARN with the resource `<bucket>/*` |
| `Resources.MakeBucket` | index-dev.ts:130-143 | the bucket has construct id `<base>Bucket`, is named `prefix-base` and strips back to `base`, is locked down, and carries the policy of its own name |
| `MigrationStack.BuildVpc` | index-dev.ts:63-73 | the network is `10.0.0.0/16` with no NAT or VPN gateway, a public /24 tier then an isolated /28 tier and no private tier |
| `MigrationStack.BuildSecurityGroup` | index-dev.ts:80-97 | the group is named `<preOrPostFix>-vpc-sg`, sits in the network, allows all outbound traffic, and admits inbound only TCP 22 then TCP on the configured port, both from any IPv4 address |
| `MigrationStack.BuildSecret` | index-dev.ts:100-111 | the secret has the given name and the configured description, and its generator keeps every configured password setting unchanged |
| `MigrationStack.CredentialsOf` | index-dev.ts:114-118 | the credentials are the `username` and `password` fields of the secret looked up by name, and are two different fields |
| `MigrationStack.BuildCluster` | index-dev.ts:188-225 | the cluster identifier is `prefix-dbClusterIdentifier` and strips back to it; the instance identifier base is the identifier followed by `-`; the given credentials are used; the instances sit in the isolated tier behind the stack's group; bucket 0 is imported from and bucket 1 exported to; the engine, removal policy, instance count, storage encryption and both parameter-group names are as configured |
| `MigrationStack.StackEdges` | index-dev.ts:230-235 | six distinct edges, none of them on the cluster, each pointing from a higher apply tier to a lower one |
| `MigrationStack.FixedOutputs` | index-dev.ts:241-266 | four records under `Vpc`, `VpcSecurityGroup`, `AuroraDBClusterSecretBOutput` and `AuroraDBClusterOutput`: the network id and group name as deploy-time tokens, then the secret locator and the cluster's RDS ARN, each with its configured description |
| `ExportKeys.Capitalize` | index-dev.ts:271 | the capitalised name has the same length, its first character upper-cased, and the rest unchanged |
| `ExportKeys.BucketKey` | index-dev.ts:271 | a bucket key is the capitalised base name followed by `BucketOutput` |
| `ExportKeys.PolicyKey` | index-dev.ts:276 | a policy key is the capitalised base name followed by `BucketPolicyOutput` |
| `ExportKeys.Upper` | index-dev.ts:271 | an ASCII lower-case letter maps to the matching upper-case letter, and every other character is unchanged |
| `ExportKeys.CapitalizeLaws` | index-dev.ts:271 | capitalising keeps the length and is idempotent; two names capitalise alike exactly when their first letters agree after upper-casing and the rest is identical |
| `ExportKeys.FixedKeysNeverClash` | index-dev.ts:241-266 | no bucket key or policy key equals `Vpc`, `VpcSecurityGroup`, `AuroraDBClusterSecretBOutput` or `AuroraDBClusterOutput` |
| `ExportKeys.BucketAndPolicyKeysNeverClash` | index-dev.ts:271-276 | a bucket key never equals a policy key, for any two base names |
| `ExportKeys.KeysInjective` | index-dev.ts:271-276 | two bucket keys, or two policy keys, are equal exactly when the capitalised base names are |
| `ExportKeys.AllKeysDistinct` | index-dev.ts:241-281 | the eight export names are pairwise distinct exactly when the capitalised base names differ |
| `Defaults.DefaultStack` | index-dev.ts:293-340 | the default parameters build a stack with prefix `org-mgr-dev-us-east-1`, buckets `org-mgr-dev-us-east-1-import` and `-export`, cluster `org-mgr-dev-us-east-1-db-server`, port 3306 open, and no instance parameter-group name |
| `Defaults.DefaultExportNames` | index-dev.ts:339-340 | the default stack's export names are `Vpc`, `VpcSecurityGroup`, `AuroraDBClusterSecretBOutput`, `AuroraDBClusterOutput`, `ImportBucketOutput`, `ImportBucketPolicyOutput`, `ExportBucketOutput` and `ExportBucketPolicyOutput`, all distinct |
| `Defaults.CaseOnlyDifferenceCollides` | index-dev.ts:271 | the base names `import` and `Import` give different bucket names but colliding export names |

## Left out

- CDK semantics (`App`, `Stack`, `Vpc`, `SecurityGroup`, `Secret`, `Bucket`, `DatabaseCluster`, `ParameterGroup`, `CfnOutput`, `node.addDependency`) are outside the model: each construct is an opaque record of the properties passed to it. This includes CDK's rejection of duplicate construct ids, so construct ids are recorded as data only.
- Synthesis, deployment and token resolution are outside the model. `vpc.vpcId` and `securityGroupName` are kept as unresolved `Token` values.
- Password generation is outside the model. Only the generator settings are recorded; the generated value is never observed.
- Environment-variable lookups for the account and region are outside the model. Both are plain string parameters. When a variable is unset, JavaScript turns the missing value into the text `undefined` inside the locators, and that case is not modelled.
- JavaScript coercions are outside the model: `Number(port)`, `Duration.seconds`, `Duration.days` and `JSON.stringify`. The port and the durations are natural numbers, and the secret template is a string.
- Pass-through cluster settings (log exports, windows, descriptions, upgrade flags) are recorded as fields. Nothing depends on them.
- Parameter fields that the constructor never reads are outside the model: tag key, stack name and id, stack description, HTTP endpoint, auto-pause, minimum capacity, seconds until pause, and the subnet-group and parameter-group descriptions. So are the stack props.
- Validation, naming-collision and cycle-check errors are outside the model because the code raises none of them.
- `ExportKeys.Upper`: only ASCII letters are upper-cased. JavaScript's full Unicode case mapping (for example `ß` becoming `SS`) is not modelled. Neither is the fact that `[0]` reads a single UTF-16 code unit: a base name is a sequence of Unicode characters here.
- `MigrationStack.SecretArnParses`: the read-back is stated only when the region and account contain no colon, which is always true of real AWS regions and account ids.
- `MigrationStack.ClusterArnParses`: stated only when the region and account contain no colon.
- `MigrationStack.PolicyArnParses`: stated only when the account contains no colon.

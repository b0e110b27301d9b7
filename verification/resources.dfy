/** Descriptors of the resources the stack hands to the CDK constructors:
    plain records holding exactly the properties the stack passes. */
module Resources {
  import opened Wrappers
  import opened Names
  import opened Arns
  import opened Dependencies

  // ---- network -------------------------------------------------------------

  datatype SubnetType = Public | Private | Isolated

  datatype SubnetTier = SubnetTier(cidrMask: nat, name: string, subnetType: SubnetType)

  datatype Vpc = Vpc(id: string, cidr: string, natGateways: nat, vpnGateway: bool, subnetTiers: seq<SubnetTier>)

  datatype Peer = AnyIpv4

  datatype Port = Tcp(number: nat)

  datatype IngressRule = IngressRule(peer: Peer, port: Port, description: string)

  datatype SecurityGroup = SecurityGroup(
    id: string,
    vpc: Node,
    name: string,
    description: string,
    allowAllOutbound: bool,
    ingressRules: seq<IngressRule>)

  // ---- secret --------------------------------------------------------------

  /** Settings of the generated password; the generated value itself is never seen. */
  datatype SecretGenerator = SecretGenerator(
    excludeCharacters: string,
    excludePunctuation: bool,
    generateStringKey: string,
    passwordLength: nat,
    requireEachIncludedType: bool,
    secretStringTemplate: string)

  datatype Secret = Secret(id: string, description: string, name: string, generator: SecretGenerator)

  /** A secret looked up again by its name. */
  datatype SecretReference = SecretReference(id: string, name: string)

  /** A lazily resolved handle on one JSON field of a named secret. */
  datatype SecretField = SecretField(secretName: string, jsonKey: string)

  datatype Credentials = Credentials(username: SecretField, password: SecretField)

  // ---- buckets -------------------------------------------------------------

  datatype RemovalPolicy = Destroy

  datatype AccessControl = PrivateAccess

  datatype Encryption = S3Managed

  datatype BlockPublicAccess = BlockPublicAccess(
    blockPublicAcls: bool, blockPublicPolicy: bool, ignorePublicAcls: bool, restrictPublicBuckets: bool)

  datatype Condition = Condition(operator: string, key: string, values: seq<string>)

  datatype PolicyStatement = PolicyStatement(
    sid: string,
    principals: seq<string>,
    actions: seq<string>,
    resources: seq<string>,
    conditions: seq<Condition>)

  datatype Bucket = Bucket(
    id: string,
    name: string,
    versioned: bool,
    removalPolicy: RemovalPolicy,
    accessControl: AccessControl,
    publicReadAccess: bool,
    encryption: Encryption,
    blockPublicAccess: BlockPublicAccess,
    policy: seq<PolicyStatement>)

  const ConsoleReadSid: string := "AWSECSS3ConsoleBucketRead"
  const ObjectReadSid: string := "AWSECSS3BucketObjectRead"
  const PutObjectSid: string := "AWSECSS3PutObject"

  /** Reading the bucket's ACL, location and listing: no object access. */
  const ConsoleReadActions: seq<string> := ["s3:GetBucketAcl", "s3:GetBucketLocation", "s3:ListBucket"]
  /** Reading objects and their ACLs, versions and tags. */
  const ObjectReadActions: seq<string> := ["s3:GetObject", "s3:GetObjectAcl", "s3:GetObjectVersion", "s3:GetObjectTagging"]
  /** The only write any statement grants. */
  const PutObjectActions: seq<string> := ["s3:PutObject"]

  /** The two service principals every statement trusts. */
  const TrustedServices: seq<string> := ["ecs.amazonaws.com", "rds.amazonaws.com"]

  /** Writes are granted only when the object's ACL hands the bucket owner full control. */
  const OwnerFullControl: Condition := Condition("StringEquals", "s3:x-amz-acl", ["bucket-owner-full-control"])

  /** The S3 ARN of the bucket itself: no region, no account. */
  function BucketArn(name: string): (r: string)
    ensures r == Format(Arn("aws", "s3", "", "", name))
  {
    assert "arn:" + "aws" + ":" + "s3" + ":" + "" + ":" + "" + ":" == "arn:aws:s3:::";
    "arn:aws:s3:::" + name
  }

  /** The S3 ARN of every object in the bucket. */
  function ObjectsArn(name: string): (r: string)
    ensures r == Format(Arn("aws", "s3", "", "", name + "/*"))
  {
    BucketArn(name) + "/*"
  }

  /** The S3 ARN a resource string of a statement must parse to: the
      bucket itself or every object in it. */
  predicate ScopedTo(resource: string, name: string) {
    Parse(resource) == Some(Arn("aws", "s3", "", "", name)) ||
    Parse(resource) == Some(Arn("aws", "s3", "", "", name + "/*"))
  }

  /** The three statements attached to the bucket called `name`. */
  function BucketPolicy(name: string): (r: seq<PolicyStatement>)
    ensures |r| == 3 && r[0].sid == ConsoleReadSid && r[1].sid == ObjectReadSid && r[2].sid == PutObjectSid
    ensures forall i :: 0 <= i < |r| ==> r[i].principals == TrustedServices
    ensures forall i, j :: 0 <= i < |r| && 0 <= j < |r[i].resources| ==> ScopedTo(r[i].resources[j], name)
    ensures r[0].resources == [BucketArn(name)]
    ensures r[1].resources == r[2].resources == [BucketArn(name), ObjectsArn(name)]
    ensures Parse(BucketArn(name)) == Some(Arn("aws", "s3", "", "", name))
    ensures Parse(ObjectsArn(name)) == Some(Arn("aws", "s3", "", "", name + "/*"))
    ensures forall i :: 0 <= i < |r| ==> (r[i].conditions != [] <==> r[i].sid == PutObjectSid)
    ensures r[2].conditions == [OwnerFullControl]
    ensures r[0].actions == ConsoleReadActions
    ensures r[1].actions == ObjectReadActions
    ensures r[2].actions == PutObjectActions
  {
    var bucket, objects := BucketArn(name), ObjectsArn(name);
    BucketArnsParse(name);
    var consoleRead := PolicyStatement(ConsoleReadSid, TrustedServices,
      ConsoleReadActions, [bucket], []);
    var objectRead := PolicyStatement(ObjectReadSid, TrustedServices,
      ObjectReadActions, [bucket, objects], []);
    var putObject := PolicyStatement(PutObjectSid, TrustedServices,
      PutObjectActions, [bucket, objects], [OwnerFullControl]);
    [consoleRead, objectRead, putObject]
  }

  /** The bucket's two resource strings read back as S3 ARNs of the
      bucket and of every object in it. */
  lemma BucketArnsParse(name: string)
    ensures Parse(BucketArn(name)) == Some(Arn("aws", "s3", "", "", name))
    ensures Parse(ObjectsArn(name)) == Some(Arn("aws", "s3", "", "", name + "/*"))
  {
    var a, o := Arn("aws", "s3", "", "", name), Arn("aws", "s3", "", "", name + "/*");
    assert WellFormed(a) && WellFormed(o);
    ParseFormat(a, BucketArn(name));
    ParseFormat(o, ObjectsArn(name));
  }

  /** Private, unversioned, S3-encrypted, destroyed with the stack, and
      shut to the public by all four public-access-block flags. */
  predicate LockedDown(b: Bucket) {
    && !b.versioned
    && b.removalPolicy == Destroy
    && b.accessControl == PrivateAccess
    && !b.publicReadAccess
    && b.encryption == S3Managed
    && b.blockPublicAccess == BlockPublicAccess(true, true, true, true)
  }

  /** The bucket for one base name: named `prefix-base`, under the
      construct id `<base>Bucket`, locked down, with its own policy. */
  function MakeBucket(prefix: string, base: string): (r: Bucket)
    ensures r.id == base + "Bucket" && r.name == Qualify(prefix, base)
    ensures Unqualify(prefix, r.name) == Some(base)
    ensures LockedDown(r) && r.policy == BucketPolicy(r.name)
  {
    var name := Qualify(prefix, base);
    UnqualifyQualify(prefix, base, name);
    Bucket(base + "Bucket", name, false, Destroy, PrivateAccess, false, S3Managed,
           BlockPublicAccess(true, true, true, true), BucketPolicy(name))
  }

  /** One bucket per base name, in order, each named under the prefix and
      carrying its own policy. */
  function MakeBuckets(prefix: string, bases: seq<string>): (r: seq<Bucket>)
    ensures |r| == |bases|
    ensures forall i :: 0 <= i < |bases| ==>
      Unqualify(prefix, r[i].name) == Some(bases[i]) && LockedDown(r[i]) && r[i].policy == BucketPolicy(r[i].name)
  {
    seq(|bases|, i requires 0 <= i < |bases| => MakeBucket(prefix, bases[i]))
  }

  // ---- cluster -------------------------------------------------------------

  /** A parameter group looked up by name; the name may be absent. */
  datatype ParameterGroupRef = ParameterGroupRef(id: string, name: Option<string>)

  datatype Backup = Backup(preferredWindow: string, retentionDays: nat)

  datatype InstanceProps = InstanceProps(
    vpc: Node,
    allowMajorVersionUpgrade: bool,
    autoMinorVersionUpgrade: bool,
    deleteAutomatedBackups: bool,
    instanceClass: string,
    instanceSize: string,
    enablePerformanceInsights: bool,
    securityGroups: seq<Node>,
    subnetType: SubnetType,
    parameterGroup: ParameterGroupRef)

  datatype Cluster = Cluster(
    id: string,
    identifier: string,
    defaultDatabaseName: string,
    instanceIdentifierBase: string,
    deletionProtection: bool,
    engineVersion: string,
    instances: nat,
    storageEncrypted: bool,
    cloudwatchLogsExports: seq<string>,
    monitoringIntervalSeconds: nat,
    removalPolicy: RemovalPolicy,
    preferredMaintenanceWindow: string,
    backup: Backup,
    credentials: Credentials,
    instanceProps: InstanceProps,
    importBuckets: seq<Node>,
    exportBuckets: seq<Node>,
    parameterGroup: ParameterGroupRef)

  // ---- outputs -------------------------------------------------------------

  /** An output value: literal text, or an attribute of a resource that
      is only known once the stack is deployed. */
  datatype OutputValue = Text(text: string) | Token(node: Node, attribute: string)

  datatype Output = Output(id: string, exportName: string, value: OutputValue, description: Option<string>)

}

/** The migration stack: from one flat parameter record to the network,
    secret, buckets, cluster, dependency edges and outputs the stack
    constructor hands to CDK. */
module MigrationStack {
  import opened Wrappers
  import opened Names
  import opened Arns
  import opened ExportKeys
  import opened Dependencies
  import opened Resources

  /** The fields of the input parameter object the constructor reads.
      `account` and `region` are those of its `env` entry. */
  datatype Params = Params(
    // naming and environment
    orgName: string,
    projectName: string,
    environment: string,
    regionName: string,
    preOrPostFix: string,
    account: string,
    region: string,
    // secret
    secretName: string,
    secretDescription: string,
    excludeCharacters: string,
    excludePunctuation: bool,
    generateStringKey: string,
    passwordLength: nat,
    requireEachIncludedType: bool,
    secretStringTemplate: string,
    // database cluster
    cloudwatchLogsExports: seq<string>,
    databaseName: string,
    dbInstanceParameterGroupName: Option<string>,
    dbClusterParameterGroupName: string,
    dbClusterDescription: string,
    dbClusterIdentifier: string,
    deletionProtection: bool,
    port: nat,
    maxCapacity: nat,
    monitoringInterval: nat,
    preferredMaintenanceWindow: string,
    preferredBackupWindow: string,
    backupRetentionPeriod: nat,
    storageEncrypted: bool,
    vpcDescription: string,
    vpcSecurityGroupDescription: string,
    // buckets
    importBucketName: string,
    exportBucketName: string)

  /** Deriving an export name reads the first character of a bucket base
      name; for an empty name that read is undefined and upper-casing it
      throws, aborting the whole constructor. */
  datatype BuildError = EmptyBucketBaseName(index: nat)

  datatype Stack = Stack(
    namePrefix: string,
    secretName: string,
    secretArn: string,
    vpc: Vpc,
    securityGroup: SecurityGroup,
    secret: Secret,
    secretReference: SecretReference,
    credentials: Credentials,
    buckets: seq<Bucket>,
    cluster: Cluster,
    edges: seq<Edge>,
    outputs: seq<Output>)

  const SshPort: nat := 22
  const EngineVersion: string := "VER_5_7_12"
  const OutboundDescription: string := "Outbound: Allow SSH Access to EC2 instances"
  const SshIngressDescription: string := "Ingress Rule: Allow SSH Access From Outside"
  const PortIngressDescription: string := "Ingress Rule: Allow Access to Specified Port Access From Outside"

  // ---- locators ------------------------------------------------------------

  /** The Secrets Manager ARN of the named secret in the stack's region
      and account. */
  function SecretArn(region: string, account: string, secretName: string): (r: string)
    ensures r == Format(Arn("aws", "secretsmanager", region, account, "secret:" + secretName))
  {
    assert "arn:" + "aws" + ":" + "secretsmanager" + ":" == "arn:aws:secretsmanager:";
    "arn:aws:secretsmanager:" + region + ":" + account + ":secret:" + secretName
  }

  /** The RDS ARN of the cluster with the given identifier. */
  function ClusterArn(region: string, account: string, identifier: string): (r: string)
    ensures r == Format(Arn("aws", "rds", region, account, "cluster:" + identifier))
  {
    assert "arn:" + "aws" + ":" + "rds" + ":" == "arn:aws:rds:";
    "arn:aws:rds:" + region + ":" + account + ":cluster:" + identifier
  }

  /** The region-less IAM ARN of the policy named after the bucket. */
  function PolicyArn(account: string, bucketName: string): (r: string)
    ensures r == Format(Arn("aws", "iam", "", account, "policy/" + bucketName + "-policy"))
  {
    assert "arn:" + "aws" + ":" + "iam" + ":" + "" + ":" == "arn:aws:iam::";
    "arn:aws:iam::" + account + ":policy/" + bucketName + "-policy"
  }

  /** The secret locator reads back as a Secrets Manager ARN of the named
      secret in the stack's region and account. */
  lemma SecretArnParses(region: string, account: string, secretName: string)
    requires NoColon(region) && NoColon(account)
    ensures Parse(SecretArn(region, account, secretName))
         == Some(Arn("aws", "secretsmanager", region, account, "secret:" + secretName))
  {
    var a := Arn("aws", "secretsmanager", region, account, "secret:" + secretName);
    assert WellFormed(a);
    ParseFormat(a, SecretArn(region, account, secretName));
  }

  /** The cluster locator reads back as an RDS ARN whose resource is
      `cluster:` and the identifier. */
  lemma ClusterArnParses(region: string, account: string, identifier: string)
    requires NoColon(region) && NoColon(account)
    ensures Parse(ClusterArn(region, account, identifier))
         == Some(Arn("aws", "rds", region, account, "cluster:" + identifier))
  {
    var a := Arn("aws", "rds", region, account, "cluster:" + identifier);
    assert WellFormed(a);
    ParseFormat(a, ClusterArn(region, account, identifier));
  }

  /** The policy locator reads back as a region-less IAM ARN of the
      policy named after the bucket. */
  lemma PolicyArnParses(account: string, bucketName: string)
    requires NoColon(account)
    ensures Parse(PolicyArn(account, bucketName))
         == Some(Arn("aws", "iam", "", account, "policy/" + bucketName + "-policy"))
  {
    var a := Arn("aws", "iam", "", account, "policy/" + bucketName + "-policy");
    assert WellFormed(a);
    ParseFormat(a, PolicyArn(account, bucketName));
  }

  // ---- descriptors ---------------------------------------------------------

  function BuildVpc(): (r: Vpc)
    ensures IsolatedNetwork(r)
  {
    Vpc("Vpc", "10.0.0.0/16", 0, false,
        [SubnetTier(24, "public", Public), SubnetTier(28, "isolated", Isolated)])
  }

  function BuildSecurityGroup(p: Params): (r: SecurityGroup)
    ensures OpenOnlyOn(r, p.port)
    ensures r.name == p.preOrPostFix + "-vpc-sg"
  {
    SecurityGroup("VpcSecurityGroup", VpcNode, p.preOrPostFix + "-vpc-sg", OutboundDescription, true,
                  [IngressRule(AnyIpv4, Tcp(SshPort), SshIngressDescription),
                   IngressRule(AnyIpv4, Tcp(p.port), PortIngressDescription)])
  }

  /** The generated secret: its name is given, its description and every
      password-generation setting come from the parameters unchanged. */
  function BuildSecret(p: Params, name: string): (r: Secret)
    ensures r.name == name && r.description == p.secretDescription
    ensures r.generator.passwordLength == p.passwordLength
    ensures r.generator.excludeCharacters == p.excludeCharacters
    ensures r.generator.excludePunctuation == p.excludePunctuation
    ensures r.generator.requireEachIncludedType == p.requireEachIncludedType
    ensures r.generator.generateStringKey == p.generateStringKey
    ensures r.generator.secretStringTemplate == p.secretStringTemplate
  {
    Secret("AuroraDBClusterSecret", p.secretDescription, name,
           SecretGenerator(p.excludeCharacters, p.excludePunctuation, p.generateStringKey,
                           p.passwordLength, p.requireEachIncludedType, p.secretStringTemplate))
  }

  /** The username and password fields of the secret looked up by name:
      two different fields of that one secret. */
  function CredentialsOf(ref: SecretReference): (r: Credentials)
    ensures r.username.secretName == ref.name && r.password.secretName == ref.name
    ensures r.username.jsonKey == "username" && r.password.jsonKey == "password"
    ensures r.username != r.password
  {
    Credentials(SecretField(ref.name, "username"), SecretField(ref.name, "password"))
  }

  /** The cluster named `prefix-dbClusterIdentifier`, signing in with the
      given credentials, placed in the isolated tier and bound to the two
      buckets. */
  function BuildCluster(p: Params, prefix: string, credentials: Credentials): (r: Cluster)
    ensures Unqualify(prefix, r.identifier) == Some(p.dbClusterIdentifier)
    ensures r.instanceIdentifierBase == r.identifier + "-"
    ensures r.credentials == credentials
    ensures ClusterBindings(p, r) && PlacedInIsolatedTier(r)
    ensures r.importBuckets == [BucketNode(0)] && r.exportBuckets == [BucketNode(1)]
  {
    var identifier := Qualify(prefix, p.dbClusterIdentifier);
    UnqualifyQualify(prefix, p.dbClusterIdentifier, identifier);
    Cluster(
      "AuroraDBCluster",
      identifier,
      p.databaseName,
      identifier + "-",
      p.deletionProtection,
      EngineVersion,
      p.maxCapacity,
      p.storageEncrypted,
      p.cloudwatchLogsExports,
      p.monitoringInterval,
      Destroy,
      p.preferredMaintenanceWindow,
      Backup(p.preferredBackupWindow, p.backupRetentionPeriod),
      credentials,
      InstanceProps(VpcNode, true, true, true, "BURSTABLE3", "MEDIUM", false,
                    [SecurityGroupNode], Isolated,
                    ParameterGroupRef("AuroraMySQLInstanceParameterGroup", p.dbInstanceParameterGroupName)),
      [BucketNode(0)],
      [BucketNode(1)],
      ParameterGroupRef("AuroraMySQLClusterParameterGroup", Some(p.dbClusterParameterGroupName)))
  }

  /** The six explicit dependencies, in the order they are declared: no
      duplicate, nothing depending on the cluster, every edge pointing
      down the apply tiers. */
  function StackEdges(): (r: seq<Edge>)
    ensures |r| == 6 && Distinct(r)
    ensures forall e :: e in r ==> e.dependency != ClusterNode
    ensures RankedBy(r, Tier)
  {
    [ DependsOn(SecurityGroupNode, VpcNode),
      DependsOn(ClusterNode, VpcNode),
      DependsOn(ClusterNode, SecurityGroupNode),
      DependsOn(ClusterNode, BucketNode(0)),
      DependsOn(ClusterNode, BucketNode(1)),
      DependsOn(ClusterNode, SecretNode) ]
  }

  // ---- outputs -------------------------------------------------------------

  /** The four records every stack publishes, under the four fixed export
      names: the network and security group as deploy-time tokens, the
      secret and the cluster by locator. */
  function FixedOutputs(p: Params, secretArn: string, clusterIdentifier: string): (r: seq<Output>)
    ensures |r| == 4
    ensures r[0].exportName == VpcKey && r[1].exportName == SecurityGroupKey
    ensures r[2].exportName == SecretKey && r[3].exportName == ClusterKey
    ensures r[0].value == Token(VpcNode, "vpcId") && r[1].value == Token(SecurityGroupNode, "securityGroupName")
    ensures r[2].value == Text(secretArn) && r[3].value == Text(ClusterArn(p.region, p.account, clusterIdentifier))
    ensures r[0].description == Some(p.vpcDescription) && r[1].description == Some(p.vpcSecurityGroupDescription)
    ensures r[2].description == Some(p.secretDescription) && r[3].description == Some(p.dbClusterDescription)
  {
    [ Output("VpcOutput", VpcKey, Token(VpcNode, "vpcId"), Some(p.vpcDescription)),
      Output("VpcSecurityGroupOutput", SecurityGroupKey, Token(SecurityGroupNode, "securityGroupName"),
             Some(p.vpcSecurityGroupDescription)),
      Output(SecretKey, SecretKey, Text(secretArn), Some(p.secretDescription)),
      Output(ClusterKey, ClusterKey, Text(ClusterArn(p.region, p.account, clusterIdentifier)),
             Some(p.dbClusterDescription)) ]
  }

  /** Index of the first empty base name: the point where deriving the
      export names throws. */
  predicate FirstEmpty(bases: seq<string>, index: nat) {
    index < |bases| && bases[index] == "" && forall k :: 0 <= k < index ==> bases[k] != ""
  }

  /** Two records per bucket, in bucket order: its ARN and its policy ARN,
      under export names derived from the capitalised base name. */
  function BucketOutputs(account: string, prefix: string, bases: seq<string>): (r: Result<seq<Output>, BuildError>)
    decreases |bases|
    ensures r.Failure? <==> exists k :: 0 <= k < |bases| && bases[k] == ""
    ensures r.Failure? ==> FirstEmpty(bases, r.error.index)
    ensures r.Success? ==> |r.value| == 2 * |bases| && forall i :: 0 <= i < |bases| ==>
      && |bases[i]| > 0
      && r.value[2 * i] == Output(BucketKey(bases[i]), BucketKey(bases[i]),
                                  Text(BucketArn(Qualify(prefix, bases[i]))), None)
      && r.value[2 * i + 1] == Output(PolicyKey(bases[i]), PolicyKey(bases[i]),
                                      Text(PolicyArn(account, Qualify(prefix, bases[i]))), None)
  {
    if |bases| == 0 then Success([])
    else
      var last := |bases| - 1;
      match BucketOutputs(account, prefix, bases[..last])
      case Failure(e) => Failure(e)
      case Success(front) =>
        var base := bases[last];
        if base == "" then Failure(EmptyBucketBaseName(last))
        else
          var name := Qualify(prefix, base);
          Success(front + [ Output(BucketKey(base), BucketKey(base), Text(BucketArn(name)), None),
                            Output(PolicyKey(base), PolicyKey(base), Text(PolicyArn(account, name)), None) ])
  }

  function ExportNames(outputs: seq<Output>): (r: seq<string>)
    ensures |r| == |outputs| && forall i :: 0 <= i < |outputs| ==> r[i] == outputs[i].exportName
  {
    seq(|outputs|, i requires 0 <= i < |outputs| => outputs[i].exportName)
  }

  // ---- the whole stack -----------------------------------------------------

  function Prefix(p: Params): string {
    NamePrefix(p.orgName, p.projectName, p.environment, p.regionName)
  }

  function Bases(p: Params): seq<string> {
    [p.importBucketName, p.exportBucketName]
  }

  /** The stack the constructor builds once the bucket outputs are known. */
  function Assemble(p: Params, bucketOutputs: seq<Output>): Stack {
    var prefix := Prefix(p);
    var secretName := Qualify(prefix, p.secretName);
    var secretArn := SecretArn(p.region, p.account, secretName);
    var reference := SecretReference("ReferencedAuroraDBClusterSecret", secretName);
    var credentials := CredentialsOf(reference);
    var cluster := BuildCluster(p, prefix, credentials);
    Stack(prefix, secretName, secretArn, BuildVpc(), BuildSecurityGroup(p), BuildSecret(p, secretName),
          reference, credentials, MakeBuckets(prefix, Bases(p)), cluster, StackEdges(),
          FixedOutputs(p, secretArn, cluster.identifier) + bucketOutputs)
  }

  function Build(p: Params): (r: Result<Stack, BuildError>)
    ensures r.Failure? <==> p.importBucketName == "" || p.exportBucketName == ""
    ensures r.Failure? ==> r.error == EmptyBucketBaseName(if p.importBucketName == "" then 0 else 1)
    ensures r.Success? ==>
      && NamingScheme(p, r.value)
      && SecretConsistent(p, r.value)
      && NetworkShape(p, r.value)
      && BucketsShape(r.value)
      && ClusterBindings(p, r.value.cluster)
      && EdgesShape(r.value)
      && DependsOnWhatItReferences(r.value)
      && OutputsShape(p, r.value)
  {
    match BucketOutputs(p.account, Prefix(p), Bases(p))
    case Failure(e) =>
      assert Bases(p)[0] == p.importBucketName && Bases(p)[1] == p.exportBucketName;
      assert FirstEmpty(Bases(p), e.index);
      Failure(e)
    case Success(bucketOutputs) =>
      var s := Assemble(p, bucketOutputs);
      AssembledNaming(p, bucketOutputs);
      AssembledSecret(p, bucketOutputs);
      AssembledNetwork(p, bucketOutputs);
      AssembledBuckets(p, bucketOutputs);
      AssembledEdges(s);
      AssembledOutputs(p, s, bucketOutputs);
      Success(s)
  }

  // ---- what the built stack satisfies --------------------------------------

  /** Every derived name is the shared prefix, a hyphen and its base name. */
  predicate NamingScheme(p: Params, s: Stack) {
    && s.namePrefix == NamePrefix(p.orgName, p.projectName, p.environment, p.regionName)
    && Unqualify(s.namePrefix, s.secretName) == Some(p.secretName)
    && |s.buckets| == 2
    && Unqualify(s.namePrefix, s.buckets[0].name) == Some(p.importBucketName)
    && Unqualify(s.namePrefix, s.buckets[1].name) == Some(p.exportBucketName)
    && Unqualify(s.namePrefix, s.cluster.identifier) == Some(p.dbClusterIdentifier)
    && s.cluster.instanceIdentifierBase == s.cluster.identifier + "-"
  }

  /** The secret is looked up under the name it was created with, the
      cluster's credentials are that secret's username and password
      fields, and the published locator names that secret. */
  predicate SecretConsistent(p: Params, s: Stack) {
    && s.secret.name == s.secretName
    && s.secretReference.name == s.secret.name
    && s.credentials.username == SecretField(s.secret.name, "username")
    && s.credentials.password == SecretField(s.secret.name, "password")
    && s.cluster.credentials == s.credentials
    && s.secretArn == SecretArn(p.region, p.account, s.secret.name)
    && (NoColon(p.region) && NoColon(p.account) ==>
          Parse(s.secretArn) == Some(Arn("aws", "secretsmanager", p.region, p.account, "secret:" + s.secret.name)))
  }

  /** A /16 network without NAT or VPN gateways: a public /24 tier then an
      isolated /28 tier, and no private tier. */
  predicate IsolatedNetwork(v: Vpc) {
    && v.cidr == "10.0.0.0/16" && v.natGateways == 0 && !v.vpnGateway
    && |v.subnetTiers| == 2
    && v.subnetTiers[0].subnetType == Public && v.subnetTiers[0].cidrMask == 24
    && v.subnetTiers[1].subnetType == Isolated && v.subnetTiers[1].cidrMask == 28
    && (forall t :: t in v.subnetTiers ==> t.subnetType != Private)
  }

  /** A security group in the network, open outbound, and open inbound
      only on TCP 22 and the configured port, from any IPv4 address. */
  predicate OpenOnlyOn(g: SecurityGroup, port: nat) {
    && g.vpc == VpcNode
    && g.allowAllOutbound
    && |g.ingressRules| == 2
    && (forall rule :: rule in g.ingressRules ==> rule.peer == AnyIpv4)
    && g.ingressRules[0].port == Tcp(SshPort)
    && g.ingressRules[1].port == Tcp(port)
  }

  /** The cluster's instances run in the network's isolated tier behind
      the stack's security group. */
  predicate PlacedInIsolatedTier(c: Cluster) {
    && c.instanceProps.vpc == VpcNode
    && c.instanceProps.securityGroups == [SecurityGroupNode]
    && c.instanceProps.subnetType == Isolated
  }

  /** The network, its security group, and the cluster placed in it. */
  predicate NetworkShape(p: Params, s: Stack) {
    && IsolatedNetwork(s.vpc)
    && OpenOnlyOn(s.securityGroup, p.port)
    && PlacedInIsolatedTier(s.cluster)
    && s.cluster.instanceProps.subnetType == s.vpc.subnetTiers[1].subnetType
  }

  /** Exactly two locked-down buckets, each with its own three-statement
      policy; the cluster imports from the first and exports to the second. */
  predicate BucketsShape(s: Stack) {
    && |s.buckets| == 2
    && (forall i :: 0 <= i < |s.buckets| ==>
          LockedDown(s.buckets[i]) && s.buckets[i].policy == BucketPolicy(s.buckets[i].name))
    && s.cluster.importBuckets == [BucketNode(0)]
    && s.cluster.exportBuckets == [BucketNode(1)]
  }

  /** Settings of the cluster that are fixed by the stack or passed
      through from the parameters without change; an absent instance
      parameter-group name stays absent. */
  predicate ClusterBindings(p: Params, c: Cluster) {
    && c.instanceProps.parameterGroup.name == p.dbInstanceParameterGroupName
    && c.parameterGroup.name == Some(p.dbClusterParameterGroupName)
    && c.instances == p.maxCapacity
    && c.storageEncrypted == p.storageEncrypted
    && c.engineVersion == EngineVersion
    && c.removalPolicy == Destroy
    && !c.instanceProps.enablePerformanceInsights
  }

  /** Tier of a node in the apply order: what nothing depends on at the
      top, what depends on nothing at the bottom. */
  function Tier(n: Node): nat {
    match n
    case ClusterNode => 2
    case SecurityGroupNode => 1
    case _ => 0
  }

  const ClusterDependencies: set<Node> := {VpcNode, SecurityGroupNode, BucketNode(0), BucketNode(1), SecretNode}

  /** Exactly the six edges: the security group on the network, the
      cluster on the network, the security group, both buckets and the
      secret; nothing depends on the cluster. */
  predicate EdgesShape(s: Stack) {
    && |s.edges| == 6
    && Distinct(s.edges)
    && (forall e :: e in s.edges ==>
          || e == DependsOn(SecurityGroupNode, VpcNode)
          || (e.dependent == ClusterNode && e.dependency in ClusterDependencies))
    && DependsOn(SecurityGroupNode, VpcNode) in s.edges
    && (forall n :: n in ClusterDependencies ==> DependsOn(ClusterNode, n) in s.edges)
    && (forall e :: e in s.edges ==> e.dependency != ClusterNode)
    && RankedBy(s.edges, Tier)
  }

  /** Each resource the cluster or the security group refers to is one
      of its dependencies, and every bucket an edge names exists. */
  predicate DependsOnWhatItReferences(s: Stack) {
    && DependsOn(SecurityGroupNode, s.securityGroup.vpc) in s.edges
    && DependsOn(ClusterNode, s.cluster.instanceProps.vpc) in s.edges
    && (forall n :: n in s.cluster.instanceProps.securityGroups ==> DependsOn(ClusterNode, n) in s.edges)
    && (forall n :: n in s.cluster.importBuckets ==> DependsOn(ClusterNode, n) in s.edges)
    && (forall n :: n in s.cluster.exportBuckets ==> DependsOn(ClusterNode, n) in s.edges)
    && (s.cluster.credentials.username.secretName == s.secret.name ==> DependsOn(ClusterNode, SecretNode) in s.edges)
    && (forall e :: e in s.edges && e.dependency.BucketNode? ==> e.dependency.index < |s.buckets|)
  }

  /** Eight records in fixed order: network, security group, secret,
      cluster, then a bucket ARN and a policy ARN per bucket. */
  predicate OutputsShape(p: Params, s: Stack) {
    && |s.outputs| == 8
    && |p.importBucketName| > 0 && |p.exportBucketName| > 0
    && (forall k :: 0 <= k < |s.outputs| ==> s.outputs[k].exportName == AllKeys(p.importBucketName, p.exportBucketName)[k])
    && FixedOutputsShape(p, s)
    && BucketOutputsShape(p, s)
  }

  /** The network and security-group records carry deploy-time tokens of
      those resources; the secret record publishes the secret locator; the
      cluster record reads back as an RDS ARN ending in `:cluster:` and
      the cluster's identifier. */
  predicate FixedOutputsShape(p: Params, s: Stack) {
    && |s.outputs| >= 4
    && s.outputs[0].value == Token(VpcNode, "vpcId")
    && s.outputs[1].value == Token(SecurityGroupNode, "securityGroupName")
    && s.outputs[2].value == Text(s.secretArn)
    && s.outputs[3].value == Text(ClusterArn(p.region, p.account, s.cluster.identifier))
    && (NoColon(p.region) && NoColon(p.account) ==>
          Parse(s.outputs[3].value.text) == Some(Arn("aws", "rds", p.region, p.account, "cluster:" + s.cluster.identifier)))
  }

  /** The bucket ARN published for each bucket is the one its policy is
      scoped to, and its policy record reads back as the IAM ARN of the
      policy named after the bucket. */
  predicate BucketOutputsShape(p: Params, s: Stack) {
    && |s.buckets| == 2
    && |s.outputs| == 8
    && forall i :: 0 <= i < |s.buckets| ==>
         BucketRecordsAgree(p.account, s.buckets[i], s.outputs[4 + 2 * i], s.outputs[5 + 2 * i])
  }

  predicate BucketRecordsAgree(account: string, b: Bucket, arnRecord: Output, policyRecord: Output) {
    && |b.policy| > 0 && |b.policy[0].resources| > 0
    && arnRecord.value == Text(b.policy[0].resources[0])
    && policyRecord.value == Text(PolicyArn(account, b.name))
    && (NoColon(account) ==>
          Parse(policyRecord.value.text) == Some(Arn("aws", "iam", "", account, "policy/" + b.name + "-policy")))
  }

  lemma AssembledNaming(p: Params, bucketOutputs: seq<Output>)
    ensures NamingScheme(p, Assemble(p, bucketOutputs))
  {
    var s := Assemble(p, bucketOutputs);
    UnqualifyQualify(s.namePrefix, p.secretName, s.secretName);
    UnqualifyQualify(s.namePrefix, p.dbClusterIdentifier, s.cluster.identifier);
  }

  lemma AssembledSecret(p: Params, bucketOutputs: seq<Output>)
    ensures SecretConsistent(p, Assemble(p, bucketOutputs))
  {
    var s := Assemble(p, bucketOutputs);
    if NoColon(p.region) && NoColon(p.account) {
      SecretArnParses(p.region, p.account, s.secretName);
    }
  }

  lemma AssembledNetwork(p: Params, bucketOutputs: seq<Output>)
    ensures NetworkShape(p, Assemble(p, bucketOutputs))
    ensures ClusterBindings(p, Assemble(p, bucketOutputs).cluster)
  {
  }

  lemma AssembledBuckets(p: Params, bucketOutputs: seq<Output>)
    ensures BucketsShape(Assemble(p, bucketOutputs))
  {
  }

  lemma AssembledEdges(s: Stack)
    requires s.edges == StackEdges() && |s.buckets| == 2
    requires s.securityGroup.vpc == VpcNode && s.cluster.instanceProps.vpc == VpcNode
    requires s.cluster.instanceProps.securityGroups == [SecurityGroupNode]
    requires s.cluster.importBuckets == [BucketNode(0)] && s.cluster.exportBuckets == [BucketNode(1)]
    ensures EdgesShape(s)
    ensures DependsOnWhatItReferences(s)
  {
    assert Distinct(s.edges);
  }

  lemma AssembledOutputs(p: Params, s: Stack, bucketOutputs: seq<Output>)
    requires BucketOutputs(p.account, Prefix(p), Bases(p)) == Success(bucketOutputs)
    requires s.namePrefix == Prefix(p)
    requires s.buckets == MakeBuckets(Prefix(p), Bases(p))
    requires s.outputs == FixedOutputs(p, s.secretArn, s.cluster.identifier) + bucketOutputs
    ensures OutputsShape(p, s)
  {
    AssembledFixedOutputs(p, s, bucketOutputs);
    AssembledBucketOutputs(p, s, bucketOutputs);
    AssembledOutputNames(p, s, bucketOutputs);
  }

  lemma AssembledOutputNames(p: Params, s: Stack, bucketOutputs: seq<Output>)
    requires BucketOutputs(p.account, Prefix(p), Bases(p)) == Success(bucketOutputs)
    requires s.outputs == FixedOutputs(p, s.secretArn, s.cluster.identifier) + bucketOutputs
    ensures |p.importBucketName| > 0 && |p.exportBucketName| > 0 && |s.outputs| == 8
    ensures forall k :: 0 <= k < |s.outputs| ==> s.outputs[k].exportName == AllKeys(p.importBucketName, p.exportBucketName)[k]
  {
    var bases := Bases(p);
    assert |bases[0]| > 0 && |bases[1]| > 0;
    var keys := AllKeys(p.importBucketName, p.exportBucketName);
    assert s.outputs[0].exportName == keys[0] && s.outputs[1].exportName == keys[1];
    assert s.outputs[2].exportName == keys[2] && s.outputs[3].exportName == keys[3];
    assert s.outputs[4] == bucketOutputs[0] && s.outputs[5] == bucketOutputs[1];
    assert s.outputs[6] == bucketOutputs[2] && s.outputs[7] == bucketOutputs[3];
    NamesInOrder(s.outputs, keys);
  }

  lemma NamesInOrder(outputs: seq<Output>, keys: seq<string>)
    requires |outputs| == |keys| == 8
    requires outputs[0].exportName == keys[0] && outputs[1].exportName == keys[1]
    requires outputs[2].exportName == keys[2] && outputs[3].exportName == keys[3]
    requires outputs[4].exportName == keys[4] && outputs[5].exportName == keys[5]
    requires outputs[6].exportName == keys[6] && outputs[7].exportName == keys[7]
    ensures forall k :: 0 <= k < |outputs| ==> outputs[k].exportName == keys[k]
  {
    forall k | 0 <= k < |outputs| ensures outputs[k].exportName == keys[k] {
      assert k in {0, 1, 2, 3, 4, 5, 6, 7};
    }
  }

  lemma AssembledFixedOutputs(p: Params, s: Stack, bucketOutputs: seq<Output>)
    requires s.outputs == FixedOutputs(p, s.secretArn, s.cluster.identifier) + bucketOutputs
    ensures FixedOutputsShape(p, s)
  {
    if NoColon(p.region) && NoColon(p.account) {
      ClusterArnParses(p.region, p.account, s.cluster.identifier);
    }
  }

  lemma AssembledBucketOutputs(p: Params, s: Stack, bucketOutputs: seq<Output>)
    requires BucketOutputs(p.account, Prefix(p), Bases(p)) == Success(bucketOutputs)
    requires s.namePrefix == Prefix(p)
    requires s.buckets == MakeBuckets(Prefix(p), Bases(p))
    requires s.outputs == FixedOutputs(p, s.secretArn, s.cluster.identifier) + bucketOutputs
    ensures BucketOutputsShape(p, s)
  {
    var bases := Bases(p);
    assert |bases[0]| > 0 && |bases[1]| > 0;
    assert s.outputs[4] == bucketOutputs[0] && s.outputs[5] == bucketOutputs[1];
    assert s.outputs[6] == bucketOutputs[2] && s.outputs[7] == bucketOutputs[3];
    assert s.buckets[0] == MakeBucket(s.namePrefix, bases[0]) && s.buckets[1] == MakeBucket(s.namePrefix, bases[1]);
    BucketRecordsMatch(p.account, s.namePrefix, bases[0], s.buckets[0], s.outputs[4], s.outputs[5]);
    BucketRecordsMatch(p.account, s.namePrefix, bases[1], s.buckets[1], s.outputs[6], s.outputs[7]);
    forall i | 0 <= i < |s.buckets|
      ensures BucketRecordsAgree(p.account, s.buckets[i], s.outputs[4 + 2 * i], s.outputs[5 + 2 * i])
    {
      if i == 0 {
        assert 4 + 2 * i == 4 && 5 + 2 * i == 5;
      } else {
        assert 4 + 2 * i == 6 && 5 + 2 * i == 7;
      }
    }
  }

  /** One bucket's two records agree with the bucket: the ARN record is its
      policy's resource, the policy record names a policy after it. */
  lemma BucketRecordsMatch(account: string, prefix: string, base: string, b: Bucket, arnRecord: Output, policyRecord: Output)
    requires Unqualify(prefix, b.name) == Some(base) && b.policy == BucketPolicy(b.name)
    requires arnRecord.value == Text(BucketArn(Qualify(prefix, base)))
    requires policyRecord.value == Text(PolicyArn(account, Qualify(prefix, base)))
    ensures BucketRecordsAgree(account, b, arnRecord, policyRecord)
  {
    if NoColon(account) {
      PolicyArnParses(account, b.name);
    }
  }

  // ---- properties relating several facts -----------------------------------

  /** The declared edges have no self-edge and no cycle. */
  lemma EdgesAcyclic(s: Stack)
    requires EdgesShape(s)
    ensures Acyclic(s.edges) && NoSelfEdges(s.edges)
  {
    RankedIsAcyclic(s.edges, Tier);
  }

  /** The order in which the constructor creates the resources. */
  const CreationOrder: seq<Node> := [VpcNode, SecurityGroupNode, SecretNode, BucketNode(0), BucketNode(1), ClusterNode]

  /** Every dependency is created before the resource that depends on it. */
  lemma EdgesFollowCreationOrder(s: Stack)
    requires EdgesShape(s)
    ensures RespectsOrder(s.edges, CreationOrder)
  {
    var o := CreationOrder;
    forall e | e in s.edges
      ensures exists i, j :: 0 <= j < i < |o| && o[i] == e.dependent && o[j] == e.dependency
    {
      if e.dependent == SecurityGroupNode {
        assert o[1] == e.dependent && o[0] == e.dependency;
      } else if e.dependency == VpcNode {
        assert o[5] == e.dependent && o[0] == e.dependency;
      } else if e.dependency == SecurityGroupNode {
        assert o[5] == e.dependent && o[1] == e.dependency;
      } else if e.dependency == SecretNode {
        assert o[5] == e.dependent && o[2] == e.dependency;
      } else if e.dependency == BucketNode(0) {
        assert o[5] == e.dependent && o[3] == e.dependency;
      } else {
        assert o[5] == e.dependent && o[4] == e.dependency;
      }
    }
  }

  /** The eight export names are pairwise distinct exactly when the two
      capitalised bucket base names differ. */
  lemma ExportNamesDistinct(p: Params, s: Stack)
    requires OutputsShape(p, s)
    ensures Distinct(ExportNames(s.outputs))
        <==> Capitalize(p.importBucketName) != Capitalize(p.exportBucketName)
  {
    ExportNamesInOrder(p, s);
    AllKeysDistinct(p.importBucketName, p.exportBucketName);
  }

  /** The export names of a stack of this shape, in order. */
  lemma ExportNamesInOrder(p: Params, s: Stack)
    requires OutputsShape(p, s)
    ensures ExportNames(s.outputs) == AllKeys(p.importBucketName, p.exportBucketName)
  {
  }

  /** The two buckets get distinct names exactly when their base names differ. */
  lemma BucketNamesDistinct(p: Params, s: Stack)
    requires NamingScheme(p, s)
    ensures s.buckets[0].name != s.buckets[1].name <==> p.importBucketName != p.exportBucketName
  {
    UnqualifyQualify(s.namePrefix, p.importBucketName, s.buckets[0].name);
    UnqualifyQualify(s.namePrefix, p.exportBucketName, s.buckets[1].name);
  }

}

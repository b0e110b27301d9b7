/** The parameter record the stack is invoked with by default, as a worked
    instance of the model. Account and region come from the deployment
    environment and stay parameters. */
module Defaults {
  import opened Wrappers
  import opened Names
  import opened ExportKeys
  import opened Resources
  import opened MigrationStack

  function DefaultParams(account: string, region: string): Params {
    var orgName, projectName := "org", "mgr";
    var preOrPostFix := orgName + "-" + projectName;
    Params(
      orgName, projectName, "dev", "us-east-1", preOrPostFix, account, region,
      "secret", "Dynamically generated secret - username and password", "@/'", true, "password", 30, false,
      "{\"username\":\"db_admin\"}",
      ["audit", "error", "general", "slowquery"], "testDB",
      None,  // the instance parameter-group name is left out of the parameter object
      "default.aurora-mysql5.7",
      "The AWS RDS Aurora MySQL Cluster " + preOrPostFix,
      "db-server", true, 3306, 2, 60, "sun:11:05-sun:11:35", "20:05-20:35", 1, true,
      "Vpc for " + preOrPostFix, "Vpc Security Group for " + preOrPostFix,
      "import", "export")
  }

  /** With the default parameters the stack builds, under the names the
      defaults lead to. */
  lemma DefaultStack(account: string, region: string)
    ensures Build(DefaultParams(account, region)).Success?
    ensures var s := Build(DefaultParams(account, region)).value;
      && s.namePrefix == "org-mgr-dev-us-east-1"
      && s.buckets[0].name == "org-mgr-dev-us-east-1-import"
      && s.buckets[1].name == "org-mgr-dev-us-east-1-export"
      && s.cluster.identifier == "org-mgr-dev-us-east-1-db-server"
      && s.securityGroup.ingressRules[1].port == Tcp(3306)
      && s.cluster.instanceProps.parameterGroup.name == None
  {
    var s := Build(DefaultParams(account, region)).value;
    DefaultNames();
    UnqualifyQualify(s.namePrefix, "import", s.buckets[0].name);
    UnqualifyQualify(s.namePrefix, "export", s.buckets[1].name);
    UnqualifyQualify(s.namePrefix, "db-server", s.cluster.identifier);
  }

  /** The default stack's eight export names, all distinct. */
  lemma DefaultExportNames(account: string, region: string)
    ensures Build(DefaultParams(account, region)).Success?
    ensures var s := Build(DefaultParams(account, region)).value;
      && ExportNames(s.outputs) == ["Vpc", "VpcSecurityGroup", "AuroraDBClusterSecretBOutput", "AuroraDBClusterOutput",
                                    "ImportBucketOutput", "ImportBucketPolicyOutput",
                                    "ExportBucketOutput", "ExportBucketPolicyOutput"]
      && Distinct(ExportNames(s.outputs))
  {
    var p := DefaultParams(account, region);
    var s := Build(p).value;
    ExportNamesInOrder(p, s);
    ExportNamesDistinct(p, s);
    DefaultKeys();
  }

  lemma DefaultNames()
    ensures NamePrefix("org", "mgr", "dev", "us-east-1") == "org-mgr-dev-us-east-1"
    ensures Qualify("org-mgr-dev-us-east-1", "import") == "org-mgr-dev-us-east-1-import"
    ensures Qualify("org-mgr-dev-us-east-1", "export") == "org-mgr-dev-us-east-1-export"
    ensures Qualify("org-mgr-dev-us-east-1", "db-server") == "org-mgr-dev-us-east-1-db-server"
  {
  }

  lemma DefaultKeys()
    ensures AllKeys("import", "export")
         == ["Vpc", "VpcSecurityGroup", "AuroraDBClusterSecretBOutput", "AuroraDBClusterOutput",
             "ImportBucketOutput", "ImportBucketPolicyOutput", "ExportBucketOutput", "ExportBucketPolicyOutput"]
  {
    ImportBaseKeys();
    ExportBaseKeys();
  }

  lemma ImportBaseKeys()
    ensures BucketKey("import") == "ImportBucketOutput" && PolicyKey("import") == "ImportBucketPolicyOutput"
  {
    assert Capitalize("import") == "Import";
    BaseKeys("import", "Import");
    assert "Import" + "BucketOutput" == "ImportBucketOutput";
    assert "Import" + "BucketPolicyOutput" == "ImportBucketPolicyOutput";
  }

  lemma ExportBaseKeys()
    ensures BucketKey("export") == "ExportBucketOutput" && PolicyKey("export") == "ExportBucketPolicyOutput"
  {
    assert Capitalize("export") == "Export";
    BaseKeys("export", "Export");
    assert "Export" + "BucketOutput" == "ExportBucketOutput";
    assert "Export" + "BucketPolicyOutput" == "ExportBucketPolicyOutput";
  }

  lemma BaseKeys(base: string, capitalised: string)
    requires |base| > 0 && Capitalize(base) == capitalised
    ensures BucketKey(base) == capitalised + "BucketOutput"
    ensures PolicyKey(base) == capitalised + "BucketPolicyOutput"
  {
    assert BucketKey(base) == BucketKey(base)[..|base|] + BucketKey(base)[|base|..];
    assert PolicyKey(base) == PolicyKey(base)[..|base|] + PolicyKey(base)[|base|..];
  }

  /** Base names that differ only in the case of their first letter give
      colliding export names. */
  lemma CaseOnlyDifferenceCollides(account: string, region: string)
    ensures var p := DefaultParams(account, region).(exportBucketName := "Import");
      && Build(p).Success?
      && Build(p).value.buckets[0].name != Build(p).value.buckets[1].name
      && !Distinct(ExportNames(Build(p).value.outputs))
  {
    var p := DefaultParams(account, region).(exportBucketName := "Import");
    var s := Build(p).value;
    assert Capitalize("import") == Capitalize("Import");
    ExportNamesDistinct(p, s);
    BucketNamesDistinct(p, s);
  }

}

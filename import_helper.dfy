/**
 * Importing existing infrastructure (src/terraform/import_helper.rs): the
 * preview (address, suggested resource block, warnings), the message chosen
 * after `terraform import` has run, and the hint on the expected ID format.
 * The import command's outcome is an input.
 */
module ImportHelper {
  import opened Wrappers
  import opened Strs
  import opened Process

  datatype ImportPreview = ImportPreview(
    resourceAddress: string,
    resourceId: string,
    resourceType: string,
    suggestedConfig: string,
    warnings: seq<string>)

  datatype ImportResult = ImportResult(
    success: bool,
    resourceAddress: string,
    resourceId: string,
    message: string,
    output: Option<string>)

  /** The address Terraform gives a resource: its type, a dot, its name. */
  function ResourceAddress(resourceType: string, name: string): string {
    Joined(resourceType, '.', name)
  }

  /** A type without a dot can be read back out of the address, and so can the name. */
  lemma AddressRoundTrip(resourceType: string, name: string)
    requires '.' !in resourceType
    ensures Find(ResourceAddress(resourceType, name), ".") == Some(|resourceType|)
  {
    var a := ResourceAddress(resourceType, name);
    forall j | 0 <= j < |resourceType| ensures !StartsWith(a[j..], ".") {
      assert a[j] == resourceType[j];
      NotStartsWithAt(a, ".", j);
    }
    FindAt(a, ".", |resourceType|);
  }

  // ----- suggested configuration -----

  /**
   * The text of a template after the opening `resource "<type>" "<name>" {`:
   * most templates repeat the name once, between `pre` and `post`; the
   * generic one does not mention it.
   */
  datatype Template = Named(pre: string, post: string) | Plain(body: string)

  /** The template `generate_suggested_config` uses for a resource type; unlisted types get the generic one. */
  function TemplateFor(t: string): Template
  {
    if t == "aws_instance" then
      Named("\n  # Required attributes after import:\n  ami           = \"ami-xxxxxxxx\"  # Update with actual AMI ID\n  instance_type = \"t3.micro\"      # Update with actual instance type\n\n  # Optional: Add tags, VPC settings, etc.\n  tags = {\n    Name = \"",
            "\"\n  }\n}")
    else if t == "aws_s3_bucket" then
      Named("\n  # The bucket name will be imported from the resource ID\n  # Add any additional configuration as needed\n\n  tags = {\n    Name = \"",
            "\"\n  }\n}")
    else if t == "aws_security_group" then
      Named("\n  name        = \"",
            "\"\n  description = \"Imported security group\"\n\n  # Ingress and egress rules will need to be added manually\n  # after running 'terraform plan' to see the current state\n}")
    else if t == "aws_vpc" then
      Named("\n  cidr_block = \"10.0.0.0/16\"  # Update with actual CIDR\n\n  tags = {\n    Name = \"",
            "\"\n  }\n}")
    else if t == "aws_subnet" then
      Named("\n  vpc_id     = aws_vpc.main.id  # Update with actual VPC reference\n  cidr_block = \"10.0.1.0/24\"    # Update with actual CIDR\n\n  tags = {\n    Name = \"",
            "\"\n  }\n}")
    else if t == "aws_db_instance" then
      Named("\n  identifier        = \"",
            "\"\n  instance_class    = \"db.t3.micro\"  # Update with actual instance class\n  engine            = \"mysql\"         # Update with actual engine\n  allocated_storage = 20              # Update with actual storage\n\n  # Password must be specified or use manage_master_user_password\n  # username = \"admin\"\n  # password = \"...\"\n\n  skip_final_snapshot = true  # Set to false in production\n}")
    else if t == "google_compute_instance" then
      Named("\n  name         = \"",
            "\"\n  machine_type = \"e2-medium\"  # Update with actual machine type\n  zone         = \"us-central1-a\"\n\n  boot_disk {\n    initialize_params {\n      image = \"debian-cloud/debian-11\"\n    }\n  }\n\n  network_interface {\n    network = \"default\"\n  }\n}")
    else if t == "google_storage_bucket" then
      Named("\n  name     = \"",
            "\"\n  location = \"US\"  # Update with actual location\n\n  force_destroy = false\n}")
    else if t == "azurerm_virtual_machine" || t == "azurerm_linux_virtual_machine" || t == "azurerm_windows_virtual_machine" then
      Named("\n  name                = \"",
            "\"\n  resource_group_name = \"my-resource-group\"  # Update\n  location            = \"East US\"             # Update\n  size                = \"Standard_B1s\"        # Update\n\n  # Additional required attributes depend on the VM type\n}")
    else if t == "azurerm_storage_account" then
      Named("\n  name                     = \"",
            "\"\n  resource_group_name      = \"my-resource-group\"  # Update\n  location                 = \"East US\"             # Update\n  account_tier             = \"Standard\"\n  account_replication_type = \"LRS\"\n}")
    else Plain("\n  # Add required attributes for this resource type\n  # Run 'terraform plan' after import to see the current state\n  # and identify any required attributes that are missing\n}")
  }

  /** The first line of every suggested block. */
  function Header(resourceType: string, name: string): string {
    "resource \"" + resourceType + "\" \"" + name + "\" {"
  }

  /** A template filled in with the header and the resource name. */
  function Render(header: string, template: Template, name: string): string {
    match template
    case Named(pre, post) => header + pre + name + post
    case Plain(body) => header + body
  }

  /** `generate_suggested_config`. */
  function SuggestedConfig(resourceType: string, name: string): string {
    Render(Header(resourceType, name), TemplateFor(resourceType), name)
  }

  /** A rendered template opens with its header; a named one repeats the name after it. */
  lemma RenderHeader(header: string, template: Template, name: string)
    ensures StartsWith(Render(header, template, name), header)
    ensures template.Named? ==> Contains(Render(header, template, name)[|header|..], name)
  {
    match template
    case Named(pre, post) =>
      var c := header + pre + name + post;
      assert c[..|header|] == header;
      assert c[|header|..] == pre + name + post;
      assert (pre + name + post)[|pre|..|pre| + |name|] == name;
      ContainsAt(pre + name + post, name, |pre|);
    case Plain(body) =>
      assert (header + body)[..|header|] == header;
  }

  /**
   * Every suggested block, the generic one included, opens with the
   * resource header; a type with its own template names the resource again
   * in the body.
   */
  lemma SuggestedConfigHeader(resourceType: string, name: string)
    ensures StartsWith(SuggestedConfig(resourceType, name), Header(resourceType, name))
    ensures TemplateFor(resourceType).Named? ==>
      Contains(SuggestedConfig(resourceType, name)[|Header(resourceType, name)|..], name)
  {
    RenderHeader(Header(resourceType, name), TemplateFor(resourceType), name);
  }

  // ----- warnings -----

  const PlanWarning: string := "After import, run 'terraform plan' to see if your configuration matches the imported state"
  const DatabaseWarning: string := "Database passwords are not imported - you may need to update your configuration"
  const InstanceWarning: string := "Instance user data / startup scripts are not imported"
  const SecurityWarning: string := "Review all ingress/egress rules after import for security"
  const IamWarning: string := "IAM resources are security-sensitive - review all permissions carefully"
  const BucketWarning: string := "Bucket policies and ACLs may need separate import"
  const DataWarning: string := "Data sources cannot be imported - they are read-only"

  const DatabaseTypes: set<string> := {"aws_db_instance", "google_sql_database_instance", "azurerm_sql_database"}
  const InstanceTypes: set<string> := {"aws_instance", "google_compute_instance", "azurerm_virtual_machine"}
  const SecurityTypes: set<string> := {"aws_security_group", "google_compute_firewall", "azurerm_network_security_group"}
  const IamTypes: set<string> := {"aws_iam_role", "aws_iam_policy", "google_project_iam_binding"}
  const BucketTypes: set<string> := {"aws_s3_bucket", "google_storage_bucket", "azurerm_storage_account"}

  /** The warning of the type's group, if it belongs to one. */
  function GroupWarning(t: string): (r: Option<string>)
    ensures r.None? <==> t !in DatabaseTypes + InstanceTypes + SecurityTypes + IamTypes + BucketTypes
    ensures t in DatabaseTypes ==> r == Some(DatabaseWarning)
    ensures t in SecurityTypes ==> r == Some(SecurityWarning)
  {
    if t in DatabaseTypes then Some(DatabaseWarning)
    else if t in InstanceTypes then Some(InstanceWarning)
    else if t in SecurityTypes then Some(SecurityWarning)
    else if t in IamTypes then Some(IamWarning)
    else if t in BucketTypes then Some(BucketWarning)
    else None
  }

  /** The warnings `generate_import_warnings` produces, in order. */
  function ImportWarnings(t: string): (w: seq<string>)
    ensures 1 <= |w| <= 3 && w[0] == PlanWarning
    ensures DataWarning in w <==> StartsWith(t, "data.")
    ensures |w| == 1 + (if GroupWarning(t).Some? then 1 else 0) + (if StartsWith(t, "data.") then 1 else 0)
  {
    var group := GroupWarning(t);
    var w := [PlanWarning] + (if group.Some? then [group.value] else [])
             + (if StartsWith(t, "data.") then [DataWarning] else []);
    assert group.Some? ==> group.value != DataWarning && w[1] == group.value;
    w
  }

  /** `generate_import_warnings`: the common warning, then the group's, then the data-source one. */
  method GenerateImportWarnings(t: string) returns (warnings: seq<string>)
    ensures warnings == ImportWarnings(t)
  {
    warnings := [PlanWarning];
    var group := GroupWarning(t);
    if group.Some? {
      warnings := warnings + [group.value];
    }
    if StartsWith(t, "data.") {
      warnings := warnings + [DataWarning];
    }
  }

  /** A database type is warned that its password is not imported. */
  lemma DatabaseWarnsPassword(t: string)
    requires t in DatabaseTypes
    ensures DatabaseWarning in ImportWarnings(t)
  {
    assert ImportWarnings(t)[1] == DatabaseWarning;
  }

  /** A security-group type is told to review its rules. */
  lemma SecurityGroupWarnsReview(t: string)
    requires t in SecurityTypes
    ensures SecurityWarning in ImportWarnings(t)
  {
    assert ImportWarnings(t)[1] == SecurityWarning;
  }

  /** `preview_import` never fails. */
  method PreviewImport(resourceType: string, resourceId: string, name: string) returns (r: Result<ImportPreview, string>)
    ensures r.Ok?
    ensures r.value.resourceAddress == ResourceAddress(resourceType, name)
    ensures r.value.resourceId == resourceId && r.value.resourceType == resourceType
    ensures r.value.suggestedConfig == SuggestedConfig(resourceType, name)
    ensures r.value.warnings == ImportWarnings(resourceType)
  {
    var warnings := GenerateImportWarnings(resourceType);
    r := Ok(ImportPreview(ResourceAddress(resourceType, name), resourceId, resourceType,
                          SuggestedConfig(resourceType, name), warnings));
  }

  // ----- execute -----

  function ImportArgs(resourceType: string, resourceId: string, name: string): (r: seq<string>)
    ensures r == ["import", ResourceAddress(resourceType, name), resourceId]
  {
    ["import", ResourceAddress(resourceType, name), resourceId]
  }

  /** The message of a failed import: the first recognised stderr text decides it. */
  function ImportFailureMessage(resourceId: string, address: string, stderr: string): (m: string)
    ensures Contains(stderr, "Cannot import non-existent remote object") ==>
      m == "Resource with ID '" + resourceId + "' does not exist in the cloud"
    ensures !Contains(stderr, "Cannot import non-existent remote object")
            && Contains(stderr, "Resource already managed by Terraform") ==>
      m == "Resource '" + address + "' is already managed by Terraform"
    ensures !Contains(stderr, "Cannot import non-existent remote object")
            && !Contains(stderr, "Resource already managed by Terraform")
            && Contains(stderr, "configuration for") && Contains(stderr, "is not present") ==>
      m == "No configuration found for '" + address + "'. Add a resource block before importing."
    ensures !Contains(stderr, "Cannot import non-existent remote object")
            && !Contains(stderr, "Resource already managed by Terraform")
            && !(Contains(stderr, "configuration for") && Contains(stderr, "is not present")) ==>
      m == "Import failed: " + stderr
  {
    if Contains(stderr, "Cannot import non-existent remote object") then
      "Resource with ID '" + resourceId + "' does not exist in the cloud"
    else if Contains(stderr, "Resource already managed by Terraform") then
      "Resource '" + address + "' is already managed by Terraform"
    else if Contains(stderr, "configuration for") && Contains(stderr, "is not present") then
      "No configuration found for '" + address + "'. Add a resource block before importing."
    else "Import failed: " + stderr
  }

  /**
   * `execute_import` once the command has run: it always returns a result,
   * success mirrors the exit status, and the output is stdout on success and
   * stderr on failure.
   */
  function ImportOutcome(resourceType: string, resourceId: string, name: string, out: CmdOutput): (r: ImportResult)
    ensures r.success == out.success
    ensures r.resourceAddress == ResourceAddress(resourceType, name) && r.resourceId == resourceId
    ensures r.output == Some(if out.success then out.stdout else out.stderr)
    ensures out.success ==> r.message == "Resource imported successfully"
    ensures !out.success ==> r.message == ImportFailureMessage(resourceId, ResourceAddress(resourceType, name), out.stderr)
  {
    var address := ResourceAddress(resourceType, name);
    if out.success then ImportResult(true, address, resourceId, "Resource imported successfully", Some(out.stdout))
    else ImportResult(false, address, resourceId, ImportFailureMessage(resourceId, address, out.stderr), Some(out.stderr))
  }

  // ----- ID hints -----

  const GenericHint: string := "Resource-specific ID format - check Terraform provider documentation"

  /** The resource types with a hint of their own. */
  const HintTypes: set<string> := {
    "aws_instance", "aws_s3_bucket", "aws_security_group", "aws_vpc", "aws_subnet", "aws_db_instance",
    "aws_iam_role", "aws_iam_policy", "aws_lambda_function", "google_compute_instance",
    "google_storage_bucket", "google_compute_network", "azurerm_resource_group",
    "azurerm_virtual_machine", "azurerm_storage_account"}

  /** `get_import_id_hint`. */
  function ImportIdHint(t: string): (r: string)
    ensures t !in HintTypes ==> r == GenericHint
  {
    if t !in HintTypes then GenericHint
    else if t == "aws_instance" then "Instance ID (e.g., i-1234567890abcdef0)"
    else if t == "aws_s3_bucket" then "Bucket name (e.g., my-bucket-name)"
    else if t == "aws_security_group" then "Security group ID (e.g., sg-1234567890abcdef0)"
    else if t == "aws_vpc" then "VPC ID (e.g., vpc-1234567890abcdef0)"
    else if t == "aws_subnet" then "Subnet ID (e.g., subnet-1234567890abcdef0)"
    else if t == "aws_db_instance" then "DB instance identifier (e.g., my-database)"
    else if t == "aws_iam_role" then "Role name (e.g., my-role)"
    else if t == "aws_iam_policy" then "Policy ARN (e.g., arn:aws:iam::123456789012:policy/my-policy)"
    else if t == "aws_lambda_function" then "Function name (e.g., my-function)"
    else if t == "google_compute_instance" then "projects/{project}/zones/{zone}/instances/{name}"
    else if t == "google_storage_bucket" then "Bucket name (e.g., my-bucket)"
    else if t == "google_compute_network" then "projects/{project}/global/networks/{name}"
    else if t == "azurerm_resource_group" then "/subscriptions/{subscription_id}/resourceGroups/{name}"
    else if t == "azurerm_virtual_machine" then
      "/subscriptions/{subscription_id}/resourceGroups/{rg}/providers/Microsoft.Compute/virtualMachines/{name}"
    else if t == "azurerm_storage_account" then
      "/subscriptions/{subscription_id}/resourceGroups/{rg}/providers/Microsoft.Storage/storageAccounts/{name}"
    else GenericHint
  }

  /** The hints for an instance and a bucket name what the ID is. */
  lemma HintExamples(a: string, b: string)
    requires a == "aws_instance" && b == "aws_s3_bucket"
    ensures Contains(ImportIdHint(a), "Instance ID")
    ensures Contains(ImportIdHint(b), "Bucket name")
  {
    assert ImportIdHint(a)[..11] == "Instance ID";
    ContainsAt(ImportIdHint(a), "Instance ID", 0);
    assert ImportIdHint(b)[..11] == "Bucket name";
    ContainsAt(ImportIdHint(b), "Bucket name", 0);
  }
}

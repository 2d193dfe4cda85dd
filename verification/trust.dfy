/** The trust policy the execution role is created with. The source writes it
    as a Python dictionary and serialises it with `json.dumps`; here it is the
    structured document before serialisation. */
module TrustPolicy {
  import opened Outcomes
  import Arn

  datatype Principal = Principal(aws: string)

  datatype Statement = Statement(
    effect: string,
    principal: Principal,
    action: string,
    condition: map<string, string>)

  datatype PolicyDocument = PolicyDocument(version: string, statement: seq<Statement>)

  const PolicyVersion := "2012-10-17"
  const Allow := "Allow"
  const StsAssumeRole := "sts:AssumeRole"

  /** The trust document letting the root of `managementAccountId`, and
      nothing else, assume the role. */
  function TrustDocument(managementAccountId: string): (doc: PolicyDocument)
    ensures TrustedAccount(doc) == Some(managementAccountId)
  {
    PolicyDocument(
      PolicyVersion,
      [Statement(Allow, Principal(Arn.RootPrincipal(managementAccountId)), StsAssumeRole, map[])])
  }

  /** The account a document trusts, provided it has exactly the shape of a
      control-tower trust document: this version, one unconditional statement
      allowing `sts:AssumeRole` to an account root. */
  function TrustedAccount(doc: PolicyDocument): Option<string> {
    if doc.version == PolicyVersion && |doc.statement| == 1
       && doc.statement[0].effect == Allow
       && doc.statement[0].action == StsAssumeRole
       && doc.statement[0].condition == map[]
    then Arn.ParseRootPrincipal(doc.statement[0].principal.aws)
    else None
  }

  /** A document is the trust document for `account` exactly when it has the
      control-tower shape and trusts `account`. */
  lemma TrustedAccountIff(doc: PolicyDocument, account: string)
    ensures TrustedAccount(doc) == Some(account) <==> doc == TrustDocument(account)
  {
    if TrustedAccount(doc) == Some(account) {
      Arn.ParseRootPrincipalSound(doc.statement[0].principal.aws);
      assert doc.statement == [doc.statement[0]];
    }
  }
}

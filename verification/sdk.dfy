/** The AWS SDK as the enrollment code sees it: the sessions and clients it
    holds, the API calls it issues, and the answers those calls can give.
    The answers are inputs (an oracle); nothing here talks to AWS. */
module Sdk {
  import opened Outcomes
  import opened TrustPolicy

  /** Temporary credentials in an STS `AssumeRole` response. */
  datatype Credentials = Credentials(accessKeyId: string, secretAccessKey: string, sessionToken: string)

  /** A boto3 session: either the process's ambient credentials, or one
      built from explicit temporary credentials. */
  datatype Session =
    | AmbientSession
    | ExplicitSession(awsAccessKeyId: string, awsSecretAccessKey: string, awsSessionToken: string)

  /** An IAM client, bound to the session that created it. */
  datatype IamClient = IamClient(session: Session)

  /** One SDK API call, with the arguments it was issued with. */
  datatype Call =
    | GetCallerIdentity
    | AssumeRole(roleArn: string, roleSessionName: string)
    | CreateRoleCall(client: IamClient, roleName: string, assumeRolePolicyDocument: PolicyDocument)
    | AttachRolePolicy(client: IamClient, roleName: string, policyArn: string)

  /** What `sts.get_caller_identity` answers: the caller's account, or an
      exception (expired or missing credentials, access denied, ...). */
  datatype IdentityAnswer = CallerAccount(account: string) | IdentityException

  /** What `sts.assume_role` answers. */
  datatype AssumeRoleAnswer = AssumedCredentials(credentials: Credentials) | AssumeRoleException

  /** What `iam.create_role` answers: success, a botocore `ClientError`
      whose response carries an `Error.Code` (`Some`) or lacks one (`None`),
      or any other exception. */
  datatype CreateRoleAnswer = RoleCreated | ClientError(code: Option<string>) | OtherException

  /** What `iam.attach_role_policy` answers. */
  datatype AttachAnswer = PolicyAttached | AttachException

  /** The answers AWS gives during one run. Each API is called at most once
      per run, so one answer per API determines the run. */
  datatype Aws = Aws(
    callerIdentity: IdentityAnswer,
    assumeRole: AssumeRoleAnswer,
    createRole: CreateRoleAnswer,
    attachRolePolicy: AttachAnswer)

  /** The error code IAM uses when a role of that name already exists. */
  const EntityAlreadyExists := "EntityAlreadyExistsException"

  /** Which API a call is to, ranked by the order the enrollment issues them. */
  const IdentityRank := 0
  const AssumeRoleRank := 1
  const CreateRoleRank := 2
  const AttachRank := 3

  function Rank(c: Call): nat {
    match c
    case GetCallerIdentity => IdentityRank
    case AssumeRole(_, _) => AssumeRoleRank
    case CreateRoleCall(_, _, _) => CreateRoleRank
    case AttachRolePolicy(_, _, _) => AttachRank
  }

  /** Number of calls in `calls` to the API of rank `rank`. */
  function CountOf(calls: seq<Call>, rank: nat): (n: nat)
    ensures n <= |calls|
    ensures n == 0 <==> forall i :: 0 <= i < |calls| ==> Rank(calls[i]) != rank
  {
    if |calls| == 0 then 0
    else (if Rank(calls[0]) == rank then 1 else 0) + CountOf(calls[1..], rank)
  }

  /** Counting distributes over concatenation of traces. */
  lemma {:induction false} CountAppend(a: seq<Call>, b: seq<Call>, rank: nat)
    ensures CountOf(a + b, rank) == CountOf(a, rank) + CountOf(b, rank)
  {
    if |a| == 0 {
      assert a + b == b;
    } else {
      assert (a + b)[1..] == a[1..] + b;
      CountAppend(a[1..], b, rank);
    }
  }

  /** Calls appear in strictly increasing rank: no API is called twice and
      none is called after an API that comes later in the enrollment. */
  predicate Ordered(calls: seq<Call>) {
    forall i, j :: 0 <= i < j < |calls| ==> Rank(calls[i]) < Rank(calls[j])
  }

  /** A resolution prefix followed by an IAM tail is an ordered trace. */
  lemma OrderedOfParts(prefix: seq<Call>, tail: seq<Call>, calls: seq<Call>)
    requires calls == prefix + tail
    requires |prefix| >= 1 && Ordered(prefix)
    requires forall i :: 0 <= i < |prefix| ==> Rank(prefix[i]) <= AssumeRoleRank
    requires forall i :: 0 <= i < |tail| ==> Rank(tail[i]) == CreateRoleRank + i
    ensures calls[0] == prefix[0] && Ordered(calls)
  {
  }

  /** Counting over a resolution prefix whose ranks run from the identity
      lookup upwards, followed by an IAM tail whose ranks run from
      `CreateRole` upwards. */
  lemma CountOfParts(prefix: seq<Call>, tail: seq<Call>, rank: nat)
    requires forall i :: 0 <= i < |prefix| ==> Rank(prefix[i]) == IdentityRank + i
    requires forall i :: 0 <= i < |tail| ==> Rank(tail[i]) == CreateRoleRank + i
    requires |prefix| <= CreateRoleRank
    ensures CountOf(prefix + tail, rank) ==
              if rank < |prefix| || CreateRoleRank <= rank < CreateRoleRank + |tail| then 1 else 0
  {
    CountAppend(prefix, tail, rank);
    CountOfConsecutive(prefix, IdentityRank, rank);
    CountOfConsecutive(tail, CreateRoleRank, rank);
  }

  /** A trace whose ranks are consecutive from `first` calls each API in
      that range once and no other API. */
  lemma {:induction false} CountOfConsecutive(calls: seq<Call>, first: nat, rank: nat)
    requires forall i :: 0 <= i < |calls| ==> Rank(calls[i]) == first + i
    ensures CountOf(calls, rank) == if first <= rank < first + |calls| then 1 else 0
  {
    if |calls| > 0 {
      assert forall i :: 0 <= i < |calls[1..]| ==> calls[1..][i] == calls[i + 1];
      CountOfConsecutive(calls[1..], first + 1, rank);
    }
  }
}

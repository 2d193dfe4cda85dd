/** The account enroller of `modules/enroll.py`: resolve a session in the
    target account (directly, or by assuming a role from the management
    account), create the control-tower execution role trusting the
    management account, and attach the administrator policy to it.

    Every operation is a pure function of the enroller's state and the
    answers AWS gives (`Sdk.Aws`). It returns the new state, the SDK calls
    issued in order (a call that fails is still issued), and either the
    operation's value or the failure that aborted it. */
module Enroll {
  import opened Outcomes
  import opened Sdk
  import opened TrustPolicy
  import Arn

  /** Name of the execution role control tower expects in a member account. */
  const ControlTowerRoleName := "AWSControlTowerExecution"
  /** The AWS-managed administrator policy attached to that role. */
  const AdministratorAccessPolicy := "arn:aws:iam::aws:policy/AdministratorAccess"
  /** Session name used when assuming the role in the target account. */
  const EnrollmentSessionName := "control-tower-enrollment"

  /** The attributes of an `EnrollAWSAccount` object. `iamClient` is `None`
      until `create_role` has resolved a session (the attribute does not
      exist before that). */
  datatype Enroller = Enroller(
    controlTowerRoleName: string,
    controlTowerPermissionsPolicy: string,
    managementAccountId: string,
    awsAccountId: string,
    assumeRoleName: string,
    iamClient: Option<IamClient>)

  /** The exception that ends a run. */
  datatype Failure =
    | IdentityLookupFailed  // sts.get_caller_identity raised
    | AssumeRoleFailed      // sts.assume_role raised
    | CreateRoleFailed      // iam.create_role raised something other than a ClientError
    | ErrorCodeMissing      // the ClientError handler's `["Error"]["Code"]` lookup raised KeyError
    | AttachPolicyFailed    // iam.attach_role_policy raised
    | NoIamClient           // attach_policy before any iam_client was set (AttributeError)

  /** The outcome of running an operation. */
  datatype Run<+T> = Run(state: Enroller, calls: seq<Call>, result: Result<T, Failure>)

  /** The role name and policy hold the control-tower constants. */
  predicate FixedNames(e: Enroller) {
    e.controlTowerRoleName == ControlTowerRoleName
    && e.controlTowerPermissionsPolicy == AdministratorAccessPolicy
  }

  /** `e2` has the configuration of `e1`: only the discovered management
      account id and the IAM client may differ. */
  predicate SameConfiguration(e1: Enroller, e2: Enroller) {
    e2.controlTowerRoleName == e1.controlTowerRoleName
    && e2.controlTowerPermissionsPolicy == e1.controlTowerPermissionsPolicy
    && e2.awsAccountId == e1.awsAccountId
    && e2.assumeRoleName == e1.assumeRoleName
  }

  /** The credentials a session was built from, if it was built from any. */
  function SessionCredentials(s: Session): Option<Credentials> {
    match s
    case AmbientSession => None
    case ExplicitSession(k, secret, token) => Some(Credentials(k, secret, token))
  }

  /** The caller is already inside the target account. */
  predicate SameAccount(e: Enroller, aws: Aws) {
    aws.callerIdentity.CallerAccount? && aws.callerIdentity.account == e.awsAccountId
  }

  /** The caller is in some other account and must assume a role. */
  predicate CrossAccount(e: Enroller, aws: Aws) {
    aws.callerIdentity.CallerAccount? && aws.callerIdentity.account != e.awsAccountId
  }

  /** Session resolution ends with a usable session. */
  predicate SessionResolves(e: Enroller, aws: Aws) {
    SameAccount(e, aws) || (CrossAccount(e, aws) && aws.assumeRole.AssumedCredentials?)
  }

  /** `iam.create_role` ends the run: it raised something the `except
      ClientError` clause does not catch, or a `ClientError` whose response
      has no error code, so the handler itself raises. */
  predicate CreateRoleAborts(aws: Aws) {
    aws.createRole.OtherException? || aws.createRole == ClientError(None)
  }

  /** `EnrollAWSAccount(aws_account_id, assume_role_name)`. */
  function New(awsAccountId: string, assumeRoleName: string): (e: Enroller)
    ensures FixedNames(e)
    ensures e.managementAccountId == ""
    ensures e.awsAccountId == awsAccountId && e.assumeRoleName == assumeRoleName
    ensures e.iamClient == None
  {
    Enroller(ControlTowerRoleName, AdministratorAccessPolicy, "", awsAccountId, assumeRoleName, None)
  }

  /** `assume_role_in_destination_account`: one STS `AssumeRole` call for the
      configured role in the target account; the new session carries the
      returned credentials unchanged. */
  function AssumeRoleInDestinationAccount(e: Enroller, aws: Aws): (r: Run<Session>)
    ensures r.state == e
    ensures r.calls == [AssumeRole(Arn.RoleArn(e.awsAccountId, e.assumeRoleName), EnrollmentSessionName)]
    ensures r.result.Ok? <==> aws.assumeRole.AssumedCredentials?
    ensures r.result.Ok? ==> SessionCredentials(r.result.value) == Some(aws.assumeRole.credentials)
    ensures r.result.Err? ==> r.result.failure == AssumeRoleFailed
  {
    var call := AssumeRole(Arn.RoleArn(e.awsAccountId, e.assumeRoleName), EnrollmentSessionName);
    match aws.assumeRole
    case AssumeRoleException => Run(e, [call], Err(AssumeRoleFailed))
    case AssumedCredentials(c) =>
      Run(e, [call], Ok(ExplicitSession(c.accessKeyId, c.secretAccessKey, c.sessionToken)))
  }

  /** `get_boto_session`: look up the caller; inside the target account use
      the ambient session, otherwise record the caller's account as the
      management account and assume the role. The management account is
      recorded before `AssumeRole` is issued, so it stays recorded when that
      call fails. */
  function GetBotoSession(e: Enroller, aws: Aws): (r: Run<Session>)
    ensures SameConfiguration(e, r.state) && r.state.iamClient == e.iamClient
    ensures |r.calls| >= 1 && r.calls[0] == GetCallerIdentity && Ordered(r.calls)
    ensures r.result.Ok? <==> SessionResolves(e, aws)
    ensures !CrossAccount(e, aws) ==> r.state == e && r.calls == [GetCallerIdentity]
    ensures SameAccount(e, aws) ==> r.result == Ok(AmbientSession)
    ensures aws.callerIdentity.IdentityException? ==> r.result == Err(IdentityLookupFailed)
    ensures CrossAccount(e, aws) && aws.assumeRole.AssumeRoleException? ==> r.result == Err(AssumeRoleFailed)
    ensures CrossAccount(e, aws) ==>
              && r.state.managementAccountId == aws.callerIdentity.account
              && r.calls == [GetCallerIdentity,
                             AssumeRole(Arn.RoleArn(e.awsAccountId, e.assumeRoleName), EnrollmentSessionName)]
    ensures CrossAccount(e, aws) && r.result.Ok? ==>
              SessionCredentials(r.result.value) == Some(aws.assumeRole.credentials)
  {
    match aws.callerIdentity
    case IdentityException => Run(e, [GetCallerIdentity], Err(IdentityLookupFailed))
    case CallerAccount(current) =>
      if current == e.awsAccountId then
        Run(e, [GetCallerIdentity], Ok(AmbientSession))
      else
        var assumed := AssumeRoleInDestinationAccount(e.(managementAccountId := current), aws);
        Run(assumed.state, [GetCallerIdentity] + assumed.calls, assumed.result)
  }

  /** `get_iam_client`: an IAM client bound to the resolved session. */
  function GetIamClient(e: Enroller, aws: Aws): (r: Run<IamClient>)
    ensures r.state == GetBotoSession(e, aws).state && r.calls == GetBotoSession(e, aws).calls
    ensures r.result.Ok? <==> SessionResolves(e, aws)
    ensures r.result.Ok? ==> GetBotoSession(e, aws).result == Ok(r.result.value.session)
    ensures r.result.Err? ==> GetBotoSession(e, aws).result == Err(r.result.failure)
  {
    var s := GetBotoSession(e, aws);
    match s.result
    case Err(f) => Run(s.state, s.calls, Err(f))
    case Ok(session) => Run(s.state, s.calls, Ok(IamClient(session)))
  }

  /** `attach_policy`: attach the configured policy to the configured role
      through the stored IAM client. */
  function AttachPolicy(e: Enroller, aws: Aws): (r: Run<()>)
    ensures r.state == e
    ensures e.iamClient.None? ==> r.calls == [] && r.result == Err(NoIamClient)
    ensures e.iamClient.Some? ==>
              r.calls == [AttachRolePolicy(e.iamClient.value, e.controlTowerRoleName, e.controlTowerPermissionsPolicy)]
    ensures r.result.Ok? <==> e.iamClient.Some? && aws.attachRolePolicy.PolicyAttached?
    ensures e.iamClient.Some? && aws.attachRolePolicy.AttachException? ==> r.result == Err(AttachPolicyFailed)
  {
    match e.iamClient
    case None => Run(e, [], Err(NoIamClient))
    case Some(client) =>
      var call := AttachRolePolicy(client, e.controlTowerRoleName, e.controlTowerPermissionsPolicy);
      match aws.attachRolePolicy
      case AttachException => Run(e, [call], Err(AttachPolicyFailed))
      case PolicyAttached => Run(e, [call], Ok(()))
  }

  /** Python's `stored or supplied` on strings: the stored id unless it is
      empty. The result is one of the two, and it is empty only when both
      are. */
  function EffectiveManagementAccountId(stored: string, supplied: string): (id: string)
    ensures id == stored || id == supplied
    ensures stored != "" ==> id == stored
    ensures id == "" <==> stored == "" && supplied == ""
  {
    if stored != "" then stored else supplied
  }

  /** `create_role(human_supplied_management_account_id)`. The management
      account is chosen from the state as it is on entry, before session
      resolution can discover one. Every botocore `ClientError` from
      `iam.create_role` that carries an error code is caught, whatever the
      code, and the run goes on to `attach_policy`. Any other exception, or a
      `ClientError` without a code (the handler's lookup raises `KeyError`),
      aborts it. */
  function CreateRole(e: Enroller, supplied: string, aws: Aws): (r: Run<()>)
    ensures SameConfiguration(e, r.state)
    ensures r.state.managementAccountId ==
              if CrossAccount(e, aws) then aws.callerIdentity.account else e.managementAccountId
    ensures !SessionResolves(e, aws) ==> r.state.iamClient == e.iamClient
    ensures SameAccount(e, aws) ==> r.state.iamClient == Some(IamClient(AmbientSession))
    ensures CrossAccount(e, aws) && aws.assumeRole.AssumedCredentials? ==>
              r.state.iamClient.Some?
              && SessionCredentials(r.state.iamClient.value.session) == Some(aws.assumeRole.credentials)
    ensures r.result.Ok? <==>
              SessionResolves(e, aws) && !CreateRoleAborts(aws) && aws.attachRolePolicy.PolicyAttached?
    ensures aws.callerIdentity.IdentityException? ==> r.result == Err(IdentityLookupFailed)
    ensures CrossAccount(e, aws) && aws.assumeRole.AssumeRoleException? ==> r.result == Err(AssumeRoleFailed)
    ensures SessionResolves(e, aws) && aws.createRole.OtherException? ==> r.result == Err(CreateRoleFailed)
    ensures SessionResolves(e, aws) && aws.createRole == ClientError(None) ==> r.result == Err(ErrorCodeMissing)
    ensures SessionResolves(e, aws) && !CreateRoleAborts(aws) && aws.attachRolePolicy.AttachException? ==>
              r.result == Err(AttachPolicyFailed)
  {
    var managementAccountId := EffectiveManagementAccountId(e.managementAccountId, supplied);
    var resolved := GetIamClient(e, aws);
    match resolved.result
    case Err(f) => Run(resolved.state, resolved.calls, Err(f))
    case Ok(client) =>
      var e1 := resolved.state.(iamClient := Some(client));
      var create := CreateRoleCall(client, e1.controlTowerRoleName, TrustDocument(managementAccountId));
      match aws.createRole
      case OtherException => Run(e1, resolved.calls + [create], Err(CreateRoleFailed))
      case ClientError(None) => Run(e1, resolved.calls + [create], Err(ErrorCodeMissing))
      case _ =>
        var attached := AttachPolicy(e1, aws);
        Run(attached.state, resolved.calls + [create] + attached.calls, attached.result)
  }

  /** The calls `create_role` issues, in order: the identity lookup, the
      role assumption on the cross-account path, then `CreateRole` and
      `AttachRolePolicy` as far as the run gets. IAM calls go through the
      client bound to the resolved session; the role is created with the
      trust document for the management account chosen on entry. */
  lemma CreateRoleCalls(e: Enroller, supplied: string, aws: Aws)
    ensures var r := CreateRole(e, supplied, aws);
      && |r.calls| >= 1 && r.calls[0] == GetCallerIdentity && Ordered(r.calls)
      && (forall i :: 0 <= i < |r.calls| && r.calls[i].AssumeRole? ==>
            r.calls[i] == AssumeRole(Arn.RoleArn(e.awsAccountId, e.assumeRoleName), EnrollmentSessionName))
      && (forall i :: 0 <= i < |r.calls| && r.calls[i].CreateRoleCall? ==>
            && r.state.iamClient == Some(r.calls[i].client)
            && r.calls[i].roleName == e.controlTowerRoleName
            && r.calls[i].assumeRolePolicyDocument
               == TrustDocument(EffectiveManagementAccountId(e.managementAccountId, supplied)))
      && (forall i :: 0 <= i < |r.calls| && r.calls[i].AttachRolePolicy? ==>
            && r.state.iamClient == Some(r.calls[i].client)
            && r.calls[i].roleName == e.controlTowerRoleName
            && r.calls[i].policyArn == e.controlTowerPermissionsPolicy)
  {
    CreateRoleCallsOrdered(e, supplied, aws);
    CreateRoleAssumeCall(e, supplied, aws);
    CreateRoleIamCalls(e, supplied, aws);
  }

  /** The trace starts with the identity lookup and is ordered. */
  lemma CreateRoleCallsOrdered(e: Enroller, supplied: string, aws: Aws)
    ensures var r := CreateRole(e, supplied, aws);
      |r.calls| >= 1 && r.calls[0] == GetCallerIdentity && Ordered(r.calls)
  {
    var r := CreateRole(e, supplied, aws);
    var s := GetBotoSession(e, aws);
    var tail := CreateRoleTail(e, supplied, aws);
    OrderedOfParts(s.calls, tail, r.calls);
  }

  /** Any `AssumeRole` in the trace targets the configured role in the target account. */
  lemma CreateRoleAssumeCall(e: Enroller, supplied: string, aws: Aws)
    ensures var r := CreateRole(e, supplied, aws);
      forall i :: 0 <= i < |r.calls| && r.calls[i].AssumeRole? ==>
        r.calls[i] == AssumeRole(Arn.RoleArn(e.awsAccountId, e.assumeRoleName), EnrollmentSessionName)
  {
  }

  /** The IAM calls in the trace use the stored client, the configured names
      and the trust document for the account chosen on entry. */
  lemma CreateRoleIamCalls(e: Enroller, supplied: string, aws: Aws)
    ensures var r := CreateRole(e, supplied, aws);
      && (forall i :: 0 <= i < |r.calls| && r.calls[i].CreateRoleCall? ==>
            && r.state.iamClient == Some(r.calls[i].client)
            && r.calls[i].roleName == e.controlTowerRoleName
            && r.calls[i].assumeRolePolicyDocument
               == TrustDocument(EffectiveManagementAccountId(e.managementAccountId, supplied)))
      && (forall i :: 0 <= i < |r.calls| && r.calls[i].AttachRolePolicy? ==>
            && r.state.iamClient == Some(r.calls[i].client)
            && r.calls[i].roleName == e.controlTowerRoleName
            && r.calls[i].policyArn == e.controlTowerPermissionsPolicy)
  {
    var r := CreateRole(e, supplied, aws);
    var s := GetBotoSession(e, aws);
    var tail := CreateRoleTail(e, supplied, aws);
    assert forall i :: 0 <= i < |s.calls| ==> Rank(r.calls[i]) <= AssumeRoleRank;
    assert forall i :: |s.calls| <= i < |r.calls| ==> r.calls[i] == tail[i - |s.calls|];
  }

  /** `create_role` issues the calls of session resolution, then the IAM
      calls, as far as the run gets. */
  lemma CreateRoleTail(e: Enroller, supplied: string, aws: Aws) returns (tail: seq<Call>)
    ensures CreateRole(e, supplied, aws).calls == GetBotoSession(e, aws).calls + tail
    ensures !SessionResolves(e, aws) ==> tail == []
    ensures SessionResolves(e, aws) && CreateRoleAborts(aws) ==>
              |tail| == 1 && tail[0].CreateRoleCall?
    ensures SessionResolves(e, aws) && !CreateRoleAborts(aws) ==>
              |tail| == 2 && tail[0].CreateRoleCall? && tail[1].AttachRolePolicy?
    ensures |tail| >= 1 ==>
              var client := CreateRole(e, supplied, aws).state.iamClient;
              && client.Some?
              && tail[0] == CreateRoleCall(client.value, e.controlTowerRoleName,
                                           TrustDocument(EffectiveManagementAccountId(e.managementAccountId, supplied)))
              && (|tail| == 2 ==>
                    tail[1] == AttachRolePolicy(client.value, e.controlTowerRoleName, e.controlTowerPermissionsPolicy))
  {
    var r := CreateRole(e, supplied, aws);
    var s := GetBotoSession(e, aws);
    if SessionResolves(e, aws) {
      var client := r.state.iamClient.value;
      var create := CreateRoleCall(client, e.controlTowerRoleName,
                                   TrustDocument(EffectiveManagementAccountId(e.managementAccountId, supplied)));
      var attach := AttachRolePolicy(client, e.controlTowerRoleName, e.controlTowerPermissionsPolicy);
      if CreateRoleAborts(aws) {
        tail := [create];
      } else {
        tail := [create, attach];
      }
    } else {
      tail := [];
    }
  }

  /** How often each API is called by `create_role`: the identity lookup
      once; `AssumeRole` once exactly on the cross-account path; `CreateRole`
      once exactly when a session was resolved; `AttachRolePolicy` once
      exactly when, in addition, `create_role` did not abort the run
      (`CreateRoleAborts`). Otherwise never. */
  lemma CallCounts(e: Enroller, supplied: string, aws: Aws)
    ensures var r := CreateRole(e, supplied, aws);
      && CountOf(r.calls, IdentityRank) == 1
      && CountOf(r.calls, AssumeRoleRank) == (if CrossAccount(e, aws) then 1 else 0)
      && CountOf(r.calls, CreateRoleRank) == (if SessionResolves(e, aws) then 1 else 0)
      && CountOf(r.calls, AttachRank) ==
         (if SessionResolves(e, aws) && !CreateRoleAborts(aws) then 1 else 0)
  {
    var r := CreateRole(e, supplied, aws);
    var s := GetBotoSession(e, aws);
    var tail := CreateRoleTail(e, supplied, aws);
    assert |s.calls| == if CrossAccount(e, aws) then 2 else 1;
    assert forall i :: 0 <= i < |s.calls| ==> Rank(s.calls[i]) == IdentityRank + i;
    CountOfParts(s.calls, tail, IdentityRank);
    CountOfParts(s.calls, tail, AssumeRoleRank);
    CountOfParts(s.calls, tail, CreateRoleRank);
    CountOfParts(s.calls, tail, AttachRank);
  }

  /** The `except ClientError` clause only reads the error code for a log
      line: a `ClientError` with any code, not only
      `EntityAlreadyExistsException`, leaves the run exactly as a successful
      `create_role` would. */
  lemma AllClientErrorsSwallowed(e: Enroller, supplied: string, aws: Aws, code: string)
    ensures CreateRole(e, supplied, aws.(createRole := ClientError(Some(code))))
         == CreateRole(e, supplied, aws.(createRole := RoleCreated))
  {
  }

  /** The case IAM signals for a duplicate role: when the role already
      exists, the run still attaches the policy, exactly once, and completes
      exactly when that attachment succeeds. */
  lemma RoleAlreadyExistsStillAttaches(e: Enroller, supplied: string, aws: Aws)
    requires SessionResolves(e, aws)
    requires aws.createRole == ClientError(Some(EntityAlreadyExists))
    ensures var r := CreateRole(e, supplied, aws);
      && CountOf(r.calls, AttachRank) == 1
      && (r.result.Ok? <==> aws.attachRolePolicy.PolicyAttached?)
  {
    CallCounts(e, supplied, aws);
  }

  /** The role is created trusting the root of the management account chosen
      on entry: the stored id if non-empty, else the supplied one. That choice
      does not depend on any answer from AWS, so an account discovered while
      resolving the session in the same call never becomes the principal. */
  lemma TrustedAccountIsEffectiveId(e: Enroller, supplied: string, aws: Aws)
    ensures var r := CreateRole(e, supplied, aws);
      forall i :: 0 <= i < |r.calls| && r.calls[i].CreateRoleCall? ==>
        TrustedAccount(r.calls[i].assumeRolePolicyDocument)
        == Some(if e.managementAccountId != "" then e.managementAccountId else supplied)
  {
  }

  /** On a fresh enroller the stored id is still empty, so the first
      `create_role` trusts exactly the supplied account, even on the
      cross-account path where it records the caller's account as the
      management account. With nothing supplied the principal is
      `arn:aws:iam:::root`. */
  lemma DiscoveryIgnoredInFirstRun(awsAccountId: string, assumeRoleName: string, supplied: string, aws: Aws)
    requires CrossAccount(New(awsAccountId, assumeRoleName), aws)
    requires aws.assumeRole.AssumedCredentials?
    ensures var r := CreateRole(New(awsAccountId, assumeRoleName), supplied, aws);
      && r.state.managementAccountId == aws.callerIdentity.account
      && exists i :: 0 <= i < |r.calls| && r.calls[i].CreateRoleCall?
           && r.calls[i].assumeRolePolicyDocument.statement[0].principal.aws == Arn.RootPrincipal(supplied)
    ensures supplied == "" ==>
      var r := CreateRole(New(awsAccountId, assumeRoleName), supplied, aws);
      exists i :: 0 <= i < |r.calls| && r.calls[i].CreateRoleCall?
        && r.calls[i].assumeRolePolicyDocument.statement[0].principal.aws == "arn:aws:iam:::root"
  {
    var e := New(awsAccountId, assumeRoleName);
    var r := CreateRole(e, supplied, aws);
    var tail := CreateRoleTail(e, supplied, aws);
    CreateRoleCalls(e, supplied, aws);
    var i := |GetBotoSession(e, aws).calls|;
    assert r.calls[i] == tail[0];
    assert r.calls[i].CreateRoleCall?;
  }

  /** Once a cross-account run has recorded a non-empty management account,
      the next `create_role` on the same enroller trusts that account,
      whatever is supplied and whatever AWS answers. (A later cross-account
      run records its own caller instead, so this is about the next run.) */
  lemma NextRunTrustsDiscovered(
    awsAccountId: string, assumeRoleName: string,
    supplied1: string, aws1: Aws, supplied2: string, aws2: Aws)
    requires CrossAccount(New(awsAccountId, assumeRoleName), aws1)
    requires aws1.callerIdentity.account != ""
    ensures var first := CreateRole(New(awsAccountId, assumeRoleName), supplied1, aws1);
      var second := CreateRole(first.state, supplied2, aws2);
      forall i :: 0 <= i < |second.calls| && second.calls[i].CreateRoleCall? ==>
        TrustedAccount(second.calls[i].assumeRolePolicyDocument) == Some(aws1.callerIdentity.account)
  {
    var first := CreateRole(New(awsAccountId, assumeRoleName), supplied1, aws1);
    assert first.state.managementAccountId == aws1.callerIdentity.account;
    TrustedAccountIsEffectiveId(first.state, supplied2, aws2);
  }

  /** The `AssumeRole` call names the target account and the configured role
      and nothing else (for account ids without ':'). */
  lemma AssumeRoleTargetsDestination(e: Enroller, aws: Aws)
    requires ':' !in e.awsAccountId
    ensures var r := GetBotoSession(e, aws);
      forall i :: 0 <= i < |r.calls| && r.calls[i].AssumeRole? ==>
        && Arn.ParseRoleArn(r.calls[i].roleArn) == Some((e.awsAccountId, e.assumeRoleName))
        && r.calls[i].roleSessionName == EnrollmentSessionName
  {
  }

  /** An enrollment from a freshly constructed enroller creates the role
      `AWSControlTowerExecution` and attaches
      `arn:aws:iam::aws:policy/AdministratorAccess` to it, and keeps those
      names for later runs. */
  lemma FreshEnrollmentUsesFixedNames(awsAccountId: string, assumeRoleName: string, supplied: string, aws: Aws)
    ensures var r := CreateRole(New(awsAccountId, assumeRoleName), supplied, aws);
      && FixedNames(r.state)
      && (forall i :: 0 <= i < |r.calls| && r.calls[i].CreateRoleCall? ==>
            r.calls[i].roleName == ControlTowerRoleName)
      && (forall i :: 0 <= i < |r.calls| && r.calls[i].AttachRolePolicy? ==>
            r.calls[i].roleName == ControlTowerRoleName
            && r.calls[i].policyArn == AdministratorAccessPolicy)
  {
  }
}

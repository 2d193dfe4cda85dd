# Control Tower account enrollment, modelled in Dafny

This project models `EnrollAWSAccount` (`modules/enroll.py`), the class that prepares an existing AWS
account for AWS Control Tower enrollment. It first resolves a session in the target account. If the
caller is already in that account, it uses the ambient credentials. Otherwise it records the caller's
account as the management account and assumes `<assume_role_name>` in the target account. It then creates
the `AWSControlTowerExecution` role, whose trust policy names the management account's root. Finally it
attaches `arn:aws:iam::aws:policy/AdministratorAccess` to that role.

AWS is an oracle. The answers to `get_caller_identity`, `assume_role`, `create_role` and
`attach_role_policy` are inputs (`Sdk.Aws`). Every operation is a pure function. It returns the
enroller's new attributes, the ordered list of SDK calls issued with their arguments (a call that raises
is still listed), and either a value or the exception that ended the run.

Files:
- `outcomes.dfy`: `Option` and `Result`.
- `arn.dfy`: the role ARN and root-principal strings, with parsers that recover their parts.
- `trust.dfy`: the trust policy as a structured document, and the account a document trusts.
- `sdk.dfy`: sessions, IAM clients, SDK calls, oracle answers, and counting and ordering of call traces.
- `enroll.dfy`: the enroller's state, its operations, and the properties of a run.

The code is modelled as written in two places where a reader might expect otherwise:
- `create_role` picks the management account (`self.management_account_id or supplied`, `modules/enroll.py:46`) before
  it resolves the session (line 48). An account discovered by that call is recorded on the enroller, but
  it never becomes the principal of the role created in the same call. The next call on the same object
  uses it, because each cross-account call overwrites the recorded account with its own caller (line 21). The command-line script expects a discovered id to win: at `enroll_account.py:32-35`
  it prompts for the management account only when none has been discovered, and otherwise passes `""`.
  However, discovery happens only inside `create_role`, after line 46 has already chosen the id. So on
  the script's single run the prompt always runs, and its answer is always what the role trusts.
- The `except ClientError` clause around `iam.create_role` catches every client error code. It only
  logs a warning for `EntityAlreadyExistsException`, and the run then reaches `attach_policy`. Two
  exceptions from `iam.create_role` do abort the run there. One is any exception that is not a
  `ClientError`. The other is a `ClientError` whose response has no `Error.Code`: the handler's
  subscript at line 69 raises `KeyError`. Exceptions from session resolution and from
  `attach_role_policy` (line 37, outside the `try`) abort the run as well.

## Model

| member | source | states |
|---|---|---|
| `Enroll.New` | modules/enroll.py:7-12 | a new enroller has no management account yet (`""`), holds the control-tower role name and the AdministratorAccess policy ARN, and stores the target account and role to assume unchanged |
| `Enroll.AssumeRoleInDestinationAccount` | modules/enroll.py:24-34 | exactly one `AssumeRole` call, for `arn:aws:iam::<target>:role/<assume_role_name>` with session name `control-tower-enrollment`; on success the session carries exactly the returned credential triple; on failure the run aborts |
| `Enroll.GetBotoSession` | modules/enroll.py:14-22 | the identity lookup comes first. The same-account path returns the ambient session, issues no `AssumeRole` and leaves the state unchanged. The cross-account path records the caller's account as the management account (even if `AssumeRole` then fails) and issues exactly one `AssumeRole`. A session results exactly when the lookup succeeds and, off-account, the role assumption succeeds. Otherwise the failure names the call that raised |
| `Enroll.GetIamClient` | modules/enroll.py:41-43 | an IAM client bound to the resolved session, with the same calls, state and failures as session resolution |
| `Enroll.AttachPolicy` | modules/enroll.py:36-39 | one `AttachRolePolicy` of the configured policy to the configured role through the stored client, leaving the state unchanged. If that call raises, the run fails with the attachment failure. Without a stored client it fails without calling AWS |
| `Enroll.CreateRole` | modules/enroll.py:45-73 | the configuration never changes. The management account is updated only on the cross-account path. The IAM client is bound to the ambient session or to exactly the assumed credentials. The run completes exactly when a session resolves, `create_role` raises nothing but a `ClientError` carrying an error code, and the attachment succeeds. Otherwise the failure names the step that raised: identity lookup, role assumption, role creation, the handler's missing-code lookup, or policy attachment |
| `Enroll.CreateRoleCalls` | modules/enroll.py:45-73 | the trace starts with the identity lookup and never repeats or reorders an API. `AssumeRole` targets the destination role. `CreateRole` and `AttachRolePolicy` use the client stored on the enroller. The role is created with the trust document for the account chosen on entry |
| `Enroll.CreateRoleTail` | modules/enroll.py:48-73 | after session resolution the run issues nothing if no session resolved, only `CreateRole` if that raised an exception other than a `ClientError`, or a `ClientError` without an error code, and otherwise `CreateRole` then `AttachRolePolicy` |
| `Enroll.CallCounts` | modules/enroll.py:14-73 | the identity lookup is issued once. `AssumeRole` is issued once exactly on the cross-account path. `CreateRole` is issued once exactly when a session resolved. `AttachRolePolicy` is issued once exactly when, in addition, `create_role` raised nothing but a `ClientError` carrying an error code. Otherwise these calls are never issued |
| `Enroll.EffectiveManagementAccountId` | modules/enroll.py:46 | Python's `stored or supplied`: the result is one of the two ids, the stored one whenever it is non-empty, and it is empty exactly when both are |
| `Enroll.RoleAlreadyExistsStillAttaches` | modules/enroll.py:68-73 | when `create_role` reports `EntityAlreadyExistsException`, the policy is still attached exactly once, and the run completes exactly when that attachment succeeds |
| `Enroll.AllClientErrorsSwallowed` | modules/enroll.py:68-73 | a `ClientError` with any error code, not only `EntityAlreadyExistsException`, yields the same run as a successful `create_role` |
| `Enroll.TrustedAccountIsEffectiveId` | modules/enroll.py:46-60 | the created role trusts the stored management account if it is non-empty, otherwise the supplied one, whatever AWS answers |
| `Enroll.DiscoveryIgnoredInFirstRun` | modules/enroll.py:45-60 | on a fresh enroller, the cross-account path records the caller's account, yet the role trusts the supplied account; with nothing supplied the principal is `arn:aws:iam:::root` |
| `Enroll.NextRunTrustsDiscovered` | modules/enroll.py:46 | once a cross-account run on a new enroller has recorded a non-empty management account, the next `create_role` on that enroller trusts it, whatever is supplied and whatever AWS answers |
| `Enroll.AssumeRoleTargetsDestination` | modules/enroll.py:26-29 | for account ids without `:`, the role ARN assumed names exactly the target account and the configured role, and the session name is `control-tower-enrollment` |
| `Enroll.FreshEnrollmentUsesFixedNames` | modules/enroll.py:8-9 | an enrollment from a new enroller creates `AWSControlTowerExecution` and attaches `arn:aws:iam::aws:policy/AdministratorAccess` to it, and keeps both names for later runs |
| `TrustPolicy.TrustDocument` | modules/enroll.py:54-66 | the document built for an account has the control-tower shape and trusts exactly that account |
| `TrustPolicy.TrustedAccountIff` | modules/enroll.py:54-66 | a document is the trust document for an account exactly when it has version `2012-10-17` and one unconditional `Allow` statement granting `sts:AssumeRole` to that account's root |
| `Arn.RoleArn` | modules/enroll.py:27 | for account ids without `:`, the role ARN gives back its account and role name when parsed |
| `Arn.ParseRoleArnSound` | modules/enroll.py:27 | every string the role-ARN parser accepts is the role ARN of the parts it returns |
| `Arn.RootPrincipal` | modules/enroll.py:60 | the root principal of any account id, including the empty one, gives back that id when parsed |
| `Arn.ParseRootPrincipalSound` | modules/enroll.py:60 | every string the root-principal parser accepts is the root principal of the account it returns |
| `Arn.RootPrincipalInjective` | modules/enroll.py:60 | distinct account ids give distinct principals |

## Left out

- `enroll_account.py` (argument parsing, log handlers, the interactive prompt) is terminal I/O. There the
  enroller's management account is always still `""` at the prompt, so the prompt always runs.
- The `logging.warning` and `logging.info` calls only produce output and are not modelled.
- `json.dumps` byte layout: the trust policy is modelled as the structured document before
  serialisation.
- boto3 and botocore internals (credential resolution, network calls, client construction, the exception
  class hierarchy). Each API answer is an oracle input.
- Missing keys in SDK responses outside the `create_role` handler are not modelled. These are a
  `get_caller_identity` response without `Account` (line 15) and an `AssumeRole` response without one of
  its `Credentials` entries (lines 31-33). Each raises `KeyError`, which would abort the run the same way
  `IdentityException` and `AssumeRoleException` do. The model has no separate answer for them.
- `Sdk.Aws` gives one answer per API. A run calls each API at most once, so this loses nothing for one
  run. Successive runs get independent oracles.
- `create_role`'s default argument (`""`) is the caller passing `""` explicitly.

/** The two IAM ARN shapes the enrollment code builds with string formatting:
    the role ARN handed to STS `AssumeRole`, and the account root principal
    written into the trust policy. Each builder comes with a parser, and the
    lemmas show that the parser recovers exactly the parts the builder used. */
module Arn {
  import opened Outcomes

  /** Every ARN built by the enrollment code starts with this prefix. */
  const IamPrefix := "arn:aws:iam::"
  /** Separates the account id from the role name in a role ARN. */
  const RoleMarker := ":role/"
  /** Ends an account root principal. */
  const RootSuffix := ":root"

  /** `arn:aws:iam::<account>:role/<roleName>`: it names its account and role
      unambiguously as long as the account id holds no ':' (real account ids
      are twelve digits). */
  function RoleArn(account: string, roleName: string): (arn: string)
    ensures ':' !in account ==> ParseRoleArn(arn) == Some((account, roleName))
  {
    var arn := IamPrefix + account + RoleMarker + roleName;
    if ':' in account then arn
    else ParseRoleArnOfParts(account, roleName); arn
  }

  /** `arn:aws:iam::<account>:root`: the root principal of any account id,
      even an empty one, names that account and no other. */
  function RootPrincipal(account: string): (principal: string)
    ensures ParseRootPrincipal(principal) == Some(account)
  {
    IamPrefix + account + RootSuffix
  }

  /** Position of the first `c` in `s`, or `|s|` when `s` has none. */
  function IndexOf(s: string, c: char): (i: nat)
    ensures i <= |s|
    ensures i < |s| ==> s[i] == c
    ensures forall j :: 0 <= j < i ==> s[j] != c
    decreases |s|
  {
    if |s| == 0 then 0
    else if s[0] == c then 0
    else 1 + IndexOf(s[1..], c)
  }

  /** Splits a role ARN into its account id (everything up to the first ':'
      after the prefix) and its role name. */
  function ParseRoleArn(s: string): Option<(string, string)> {
    if |s| < |IamPrefix| || s[..|IamPrefix|] != IamPrefix then None
    else
      var rest := s[|IamPrefix|..];
      var k := IndexOf(rest, ':');
      if |rest| - k >= |RoleMarker| && rest[k..k + |RoleMarker|] == RoleMarker
      then Some((rest[..k], rest[k + |RoleMarker|..]))
      else None
  }

  /** The account id named by a root principal, if `s` is one. */
  function ParseRootPrincipal(s: string): Option<string> {
    if |s| < |IamPrefix| + |RootSuffix|
       || s[..|IamPrefix|] != IamPrefix
       || s[|s| - |RootSuffix|..] != RootSuffix
    then None
    else Some(s[|IamPrefix|..|s| - |RootSuffix|])
  }

  /** The parser splits a role ARN at the ':' ending a ':'-free account id. */
  lemma {:induction false} ParseRoleArnOfParts(account: string, roleName: string)
    requires ':' !in account
    ensures ParseRoleArn(IamPrefix + account + RoleMarker + roleName) == Some((account, roleName))
  {
    var s := IamPrefix + account + RoleMarker + roleName;
    assert s[..|IamPrefix|] == IamPrefix;
    var rest := s[|IamPrefix|..];
    assert rest == account + RoleMarker + roleName;
    var k := IndexOf(rest, ':');
    assert rest[|account|] == ':';
    assert k == |account|;
    assert rest[k..k + |RoleMarker|] == RoleMarker;
    assert rest[..k] == account;
    assert rest[k + |RoleMarker|..] == roleName;
  }

  /** Whatever the parser accepts is a role ARN built from the parts it
      returns, with a ':'-free account id. */
  lemma ParseRoleArnSound(s: string)
    ensures ParseRoleArn(s).Some? ==>
              var (account, roleName) := ParseRoleArn(s).value;
              ':' !in account && s == RoleArn(account, roleName)
  {
  }

  /** Whatever the root-principal parser accepts is the root principal of
      the account it returns. */
  lemma ParseRootPrincipalSound(s: string)
    ensures ParseRootPrincipal(s).Some? ==> s == RootPrincipal(ParseRootPrincipal(s).value)
  {
  }

  /** Distinct accounts have distinct root principals. */
  lemma RootPrincipalInjective(a: string, b: string)
    ensures RootPrincipal(a) == RootPrincipal(b) ==> a == b
  {
  }
}

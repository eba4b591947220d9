/**
 * The resource policy of the pipeline's encryption key: one statement for the account root,
 * then one statement per account of every distribution target, target by target.
 */
module KeyPolicy {
  import opened Resources

  const KeyId: string := "Golden_AMI_Encryption_Key"

  const KeyActions: seq<string> :=
    ["kms:Decrypt", "kms:Encrypt", "kms:Generate*", "kms:ReEncrypt*", "kms:CreateGrant", "kms:DescribeKey"]

  /** The image-builder service-linked role of the deploying account (AWS::AccountId is a pseudo parameter). */
  const ServiceLinkedRole: string :=
    "arn:aws:iam::${AWS::AccountId}:role/aws-service-role/imagebuilder.amazonaws.com/AWSServiceRoleForImageBuilder"

  /** The grant to the account root, conditioned on the image-builder service-linked role. */
  function RootStatement(): Statement {
    Statement(KeyActions, AccountRoot, ServiceLinkedRole, ["*"])
  }

  /** The grant to one target account, conditioned on its cross-account distribution role. */
  function AccountStatement(account: string): Statement {
    Statement(KeyActions, Account(account),
      "arn:aws:iam::" + account + ":role/EC2ImageBuilderDistributionCrossAccountRole", ["*"])
  }

  /** The grants for one target's accounts, in order. */
  function AccountStatements(accounts: seq<string>): seq<Statement> {
    if accounts == [] then [] else [AccountStatement(accounts[0])] + AccountStatements(accounts[1..])
  }

  /** The grants for all targets, target by target. */
  function TargetStatements(dist: seq<DistributionTarget>): seq<Statement> {
    if dist == [] then [] else AccountStatements(dist[0].accounts) + TargetStatements(dist[1..])
  }

  /** The whole key policy for a list of distribution targets. */
  function KeyPolicyFor(dist: seq<DistributionTarget>): seq<Statement> {
    [RootStatement()] + TargetStatements(dist)
  }

  /** The number of accounts over all targets. */
  function TotalAccounts(dist: seq<DistributionTarget>): nat {
    if dist == [] then 0 else |dist[0].accounts| + TotalAccounts(dist[1..])
  }

  lemma {:induction false} AccountStatementsAppend(accounts: seq<string>, account: string)
    ensures AccountStatements(accounts + [account]) == AccountStatements(accounts) + [AccountStatement(account)]
  {
    if accounts == [] {
      assert accounts + [account] == [account];
    } else {
      assert (accounts + [account])[0] == accounts[0];
      assert (accounts + [account])[1..] == accounts[1..] + [account];
      AccountStatementsAppend(accounts[1..], account);
    }
  }

  lemma {:induction false} TargetStatementsAppend(a: seq<DistributionTarget>, b: seq<DistributionTarget>)
    ensures TargetStatements(a + b) == TargetStatements(a) + TargetStatements(b)
  {
    if a == [] {
      assert a + b == b;
    } else {
      assert (a + b)[0] == a[0];
      assert (a + b)[1..] == a[1..] + b;
      TargetStatementsAppend(a[1..], b);
    }
  }

  lemma {:induction false} AccountStatementsAt(accounts: seq<string>)
    ensures |AccountStatements(accounts)| == |accounts|
    ensures forall j :: 0 <= j < |accounts| ==> AccountStatements(accounts)[j] == AccountStatement(accounts[j])
  {
    if accounts != [] {
      AccountStatementsAt(accounts[1..]);
    }
  }

  lemma {:induction false} TargetStatementsLength(dist: seq<DistributionTarget>)
    ensures |TargetStatements(dist)| == TotalAccounts(dist)
  {
    if dist != [] {
      AccountStatementsAt(dist[0].accounts);
      TargetStatementsLength(dist[1..]);
    }
  }

  /** The key policy has one statement for the root plus one per account of every target. */
  lemma KeyPolicySize(dist: seq<DistributionTarget>)
    ensures |KeyPolicyFor(dist)| == 1 + TotalAccounts(dist)
    ensures KeyPolicyFor(dist)[0] == RootStatement()
  {
    TargetStatementsLength(dist);
  }

  /**
   * Target-then-account order: the grant for account `j` of target `i` sits right after the
   * root statement and the grants of all earlier targets.
   */
  lemma KeyPolicyOrder(dist: seq<DistributionTarget>, i: nat, j: nat)
    requires i < |dist| && j < |dist[i].accounts|
    ensures 1 + TotalAccounts(dist[..i]) + j < |KeyPolicyFor(dist)|
    ensures KeyPolicyFor(dist)[1 + TotalAccounts(dist[..i]) + j] == AccountStatement(dist[i].accounts[j])
  {
    assert dist == dist[..i] + ([dist[i]] + dist[i + 1..]);
    TargetStatementsAppend(dist[..i], [dist[i]] + dist[i + 1..]);
    assert ([dist[i]] + dist[i + 1..])[0] == dist[i];
    assert ([dist[i]] + dist[i + 1..])[1..] == dist[i + 1..];
    TargetStatementsLength(dist[..i]);
    AccountStatementsAt(dist[i].accounts);
    KeyPolicySize(dist);
  }

  lemma {:induction false} AccountGranted(accounts: seq<string>, a: string)
    ensures AccountStatement(a) in AccountStatements(accounts) <==> a in accounts
  {
    if accounts != [] {
      AccountGranted(accounts[1..], a);
      assert AccountStatement(a) == AccountStatement(accounts[0]) ==> a == accounts[0];
      assert accounts == [accounts[0]] + accounts[1..];
    }
  }

  /** A target account is granted exactly when it appears in some distribution target. */
  lemma {:induction false} KeyPolicyGrantees(dist: seq<DistributionTarget>, a: string)
    ensures AccountStatement(a) in KeyPolicyFor(dist) <==> exists i :: 0 <= i < |dist| && a in dist[i].accounts
  {
    if dist == [] {
      assert KeyPolicyFor(dist) == [RootStatement()];
    } else {
      KeyPolicyGrantees(dist[1..], a);
      AccountGranted(dist[0].accounts, a);
      assert KeyPolicyFor(dist) == [RootStatement()] + AccountStatements(dist[0].accounts) + TargetStatements(dist[1..]);
      assert KeyPolicyFor(dist[1..]) == [RootStatement()] + TargetStatements(dist[1..]);
      if exists i :: 0 <= i < |dist| && a in dist[i].accounts {
        var i :| 0 <= i < |dist| && a in dist[i].accounts;
        if i > 0 {
          assert a in dist[1..][i - 1].accounts;
        }
      }
      if exists i :: 0 <= i < |dist[1..]| && a in dist[1..][i].accounts {
        var i :| 0 <= i < |dist[1..]| && a in dist[1..][i].accounts;
        assert a in dist[i + 1].accounts;
      }
    }
  }

  /** Every statement but the first is the grant for some target account. */
  lemma {:induction false} OnlyAccountGrantsFollowRoot(dist: seq<DistributionTarget>, k: nat)
    requires 1 <= k < |KeyPolicyFor(dist)|
    ensures exists i, j ::
      (0 <= i < |dist| && 0 <= j < |dist[i].accounts| && KeyPolicyFor(dist)[k] == AccountStatement(dist[i].accounts[j]))
  {
    var s := KeyPolicyFor(dist)[k];
    assert s in TargetStatements(dist);
    assert s.principal.Account? by {
      AccountIsPrincipal(dist, s);
    }
    KeyPolicyGrantees(dist, s.principal.id);
    AccountIsPrincipal(dist, s);
    var i :| 0 <= i < |dist| && s.principal.id in dist[i].accounts;
    var j :| 0 <= j < |dist[i].accounts| && dist[i].accounts[j] == s.principal.id;
  }

  lemma {:induction false} AccountIsPrincipal(dist: seq<DistributionTarget>, s: Statement)
    requires s in TargetStatements(dist)
    ensures s.principal.Account? && s == AccountStatement(s.principal.id)
  {
    if dist != [] {
      var accounts := dist[0].accounts;
      AccountStatementsAt(accounts);
      if s in AccountStatements(accounts) {
        var j :| 0 <= j < |accounts| && AccountStatements(accounts)[j] == s;
      } else {
        AccountIsPrincipal(dist[1..], s);
      }
    }
  }

  /** With no distribution targets the policy is the root statement alone. */
  lemma NoTargetsRootOnly()
    ensures KeyPolicyFor([]) == [RootStatement()]
  {
  }

  /** One target with one account: exactly the root grant and that account's grant. */
  lemma OneTargetOneAccount(region: string, account: string)
    ensures KeyPolicyFor([DistributionTarget(region, [account])]) == [RootStatement(), AccountStatement(account)]
  {
    var dist := [DistributionTarget(region, [account])];
    assert dist[1..] == [];
    assert [account][1..] == [];
    assert AccountStatements([account]) == [AccountStatement(account)] + [];
    assert TargetStatements(dist) == AccountStatements([account]) + [];
  }
}

/** The purchase-approval chain: each approver either approves the amount
    itself or passes it to its successor; with no successor the request
    ends unapproved. */
module ApprovalChain {
  import Chain

  datatype Approver = Supervisor | Manager | Director

  /** The amount each approver may approve on its own. */
  function Approves(a: Approver, amount: int): (b: bool)
    ensures a == Director ==> b
    ensures b && a != Director ==> amount <= 5000
    ensures amount <= 1000 ==> b
  {
    match a
    case Supervisor => amount <= 1000
    case Manager => amount <= 5000
    case Director => true
  }

  /** The approvers' authority is nested and downward closed: whatever
      Supervisor approves Manager approves, whatever Manager approves
      Director approves, and each approver that approves an amount also
      approves every smaller one. */
  lemma AuthorityNested(a: Approver, amount: int, smaller: int)
    requires smaller <= amount
    ensures Approves(Supervisor, amount) ==> Approves(Manager, amount)
    ensures Approves(Manager, amount) ==> Approves(Director, amount)
    ensures Approves(a, amount) ==> Approves(a, smaller)
  {
  }

  /** Who approved the request (by position in the chain), or that it ran
      off the end of the chain. */
  datatype Decision = ApprovedBy(index: nat) | NotApproved

  /** `approveRequest` on the first approver of `chain`, which lists the
      approvers reached by following `setNext` links. The request is
      approved by the first approver whose limit covers the amount, and by
      no one when none does. */
  function Request(chain: seq<Approver>, amount: int): (d: Decision)
    requires |chain| > 0
    ensures d.ApprovedBy? ==>
      && d.index < |chain|
      && Approves(chain[d.index], amount)
      && forall j :: 0 <= j < d.index ==> !Approves(chain[j], amount)
    ensures d.NotApproved? <==> forall j :: 0 <= j < |chain| ==> !Approves(chain[j], amount)
    decreases |chain|
  {
    if Approves(chain[0], amount) then ApprovedBy(0)
    else if |chain| == 1 then NotApproved
    else
      match Request(chain[1..], amount)
      case ApprovedBy(i) => ApprovedBy(i + 1)
      case NotApproved => NotApproved
  }

  /** A chain that contains a Director approves every amount. */
  lemma DirectorApprovesAll(chain: seq<Approver>, amount: int)
    requires Director in chain
    ensures Request(chain, amount).ApprovedBy?
  {
    var k :| 0 <= k < |chain| && chain[k] == Director;
    assert Approves(chain[k], amount);
  }

  /** In the demo chain Supervisor, Manager, Director every amount is
      approved by exactly one approver, chosen by the two limits. */
  lemma StandardChain(amount: int)
    ensures Request([Supervisor, Manager, Director], amount) ==
      if amount <= 1000 then ApprovedBy(0)
      else if amount <= 5000 then ApprovedBy(1)
      else ApprovedBy(2)
  {
    var chain := [Supervisor, Manager, Director];
    assert chain[1..] == [Manager, Director];
    assert chain[1..][1..] == [Director];
  }

  /** The demo: the chain is wired with `supervisor.setNext(manager).setNext(director)`,
      and 500, 3000 and 7000 are approved by Supervisor, Manager and
      Director respectively. */
  lemma DemoScenario()
    ensures
      var first := Chain.SetNext(map[], 0, 1);
      var second := Chain.SetNext(first.0, first.1, 2);
      var nodes := Chain.Walk(second.0, 0, 2);
      var kinds := map[0 := Supervisor, 1 := Manager, 2 := Director];
      var chain := seq(|nodes|, i requires 0 <= i < |nodes| => kinds[nodes[i]]);
      && chain == [Supervisor, Manager, Director]
      && Request(chain, 500) == ApprovedBy(0)
      && Request(chain, 3000) == ApprovedBy(1)
      && Request(chain, 7000) == ApprovedBy(2)
  {
    Chain.ChainedSetNext(0, 1, 2, 2);
    StandardChain(500);
    StandardChain(3000);
    StandardChain(7000);
  }
}

/** Where a decision comes from: the label that took a call to the point it is at. */
module Origins {
  import opened Receipt
  import opened Storage
  import opened Protocol

  /** Label k moved redemption i to this point. */
  ghost predicate Turn(cfg: Config, labels: seq<Label>, k: nat, i: nat, pc: RedeemPc) {
    && k < |labels| && labels[k].StepRedeem? && labels[k].call == i
    && var s := Exec(cfg, Init, labels[..k]);
    && i < |s.redeems| && Steppable(s.redeems[i]) && s.redeems[i].pc != pc
    && RedeemStep(cfg, s.shared, s.redeems[i], labels[k].env).1.pc == pc
  }

  lemma OneLabel(cfg: Config, s: State, l: Label, i: nat)
    requires i < |Next(cfg, s, l).redeems|
    ensures var c := Next(cfg, s, l).redeems[i];
            || (i < |s.redeems| && c.pc == s.redeems[i].pc && c.request == s.redeems[i].request)
            || (i >= |s.redeems| && c.pc == Received)
            || (l.StepRedeem? && l.call == i && i < |s.redeems| && Steppable(s.redeems[i])
                && c == RedeemStep(cfg, s.shared, s.redeems[i], l.env).1)
  {
    hide RedeemStep, IssueStep, Steppable, IssueSteppable;
  }

  /** Every point but the first was reached by a label of the run. */
  lemma {:induction false} PointReached(cfg: Config, labels: seq<Label>, i: nat) returns (k: nat)
    requires i < |Exec(cfg, Init, labels).redeems| && Exec(cfg, Init, labels).redeems[i].pc != Received
    ensures Turn(cfg, labels, k, i, Exec(cfg, Init, labels).redeems[i].pc)
    decreases |labels|
  {
    hide Next, RedeemStep, Steppable;
    assert labels != [];
    var m := |labels| - 1;
    var s := Exec(cfg, Init, labels[..m]);
    OneLabel(cfg, s, labels[m], i);
    if i < |s.redeems| && s.redeems[i].pc == Exec(cfg, Init, labels).redeems[i].pc {
      k := PointReached(cfg, labels[..m], i);
      assert labels[..m][..k] == labels[..k];
    } else {
      k := m;
    }
  }

  // ---- The same for issuances ----

  ghost predicate IssueTurn(cfg: Config, labels: seq<Label>, k: nat, i: nat, pc: IssuePc) {
    && k < |labels| && labels[k].StepIssue? && labels[k].call == i
    && var s := Exec(cfg, Init, labels[..k]);
    && i < |s.issues| && IssueSteppable(s.issues[i]) && s.issues[i].pc != pc
    && IssueStep(cfg, s.shared, s.issues[i], i, labels[k].env).1.pc == pc
  }

  lemma OneIssueLabel(cfg: Config, s: State, l: Label, i: nat)
    requires i < |Next(cfg, s, l).issues|
    ensures var c := Next(cfg, s, l).issues[i];
            || (i < |s.issues| && c == s.issues[i].(alive := c.alive))
            || (i >= |s.issues| && c.pc == IReceived)
            || (l.StepIssue? && l.call == i && i < |s.issues| && IssueSteppable(s.issues[i])
                && c == IssueStep(cfg, s.shared, s.issues[i], i, l.env).1)
  {
    hide RedeemStep, IssueStep, Steppable, IssueSteppable;
  }

  /** A step that stays where it is changes nothing of its call. */
  lemma IssueStepMoves(cfg: Config, sh: Shared, c: IssueCall, i: nat, e: Env)
    requires IssueSteppable(c)
    ensures var d := IssueStep(cfg, sh, c, i, e).1; d.pc == c.pc ==> d == c
  {
    hide ValidPayload, AfterConsume, ConsumeRefusal, Diff, ArtifactsAt, BrokerArtifacts;
  }

  lemma {:induction false} IssuePointReached(cfg: Config, labels: seq<Label>, i: nat) returns (k: nat)
    requires i < |Exec(cfg, Init, labels).issues| && Exec(cfg, Init, labels).issues[i].pc != IReceived
    ensures IssueTurn(cfg, labels, k, i, Exec(cfg, Init, labels).issues[i].pc)
    ensures var c, d := Exec(cfg, Init, labels[..k]).issues[i], Exec(cfg, Init, labels).issues[i];
            var u := IssueStep(cfg, Exec(cfg, Init, labels[..k]).shared, c, i, labels[k].env).1;
            d == u.(alive := d.alive)
    decreases |labels|
  {
    hide Next, IssueStep, IssueSteppable;
    assert labels != [];
    var m := |labels| - 1;
    var s, t := Exec(cfg, Init, labels[..m]), Exec(cfg, Init, labels);
    OneIssueLabel(cfg, s, labels[m], i);
    if i < |s.issues| && IssueSteppable(s.issues[i]) && labels[m].StepIssue? {
      IssueStepMoves(cfg, s.shared, s.issues[i], i, labels[m].env);
    }
    if i < |s.issues| && t.issues[i] == s.issues[i].(alive := t.issues[i].alive) {
      k := IssuePointReached(cfg, labels[..m], i);
      assert labels[..m][..k] == labels[..k];
    } else {
      k := m;
    }
  }
}

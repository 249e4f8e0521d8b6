/** Which of the clients' rules keep a chat to one owner at a time. */
module TandemRules {
  import opened Tandem
  import opened TandemAlways
  import opened TandemInTime
  import opened TandemRuns

  predicate OneOwner(r: Room) { !(r.t.active && r.f.active) }

  /** Clients that keep `rules` have at most one owner at a time, whatever the delays. */
  ghost predicate SafeWhateverDelays(rules: set<Rule>) {
    forall r, run :: Start(r) && Kept(r, run, rules) ==> OneOwner(Run(r, run))
  }

  /** They have if no side falls a whole phase behind. */
  ghost predicate SafeInTime(rules: set<Rule>) {
    forall r, run :: Start(r) && Kept(r, run, rules) && Timely(r, run) ==> OneOwner(Run(r, run))
  }

  /** They have if timers only expire once everything is read. */
  ghost predicate SafeWhenDrained(rules: set<Rule>) {
    forall r, run :: Start(r) && Kept(r, run, rules) && Drained(r, run) ==> OneOwner(Run(r, run))
  }

  lemma FewerKept(r: Room, run: seq<Action>, rules: set<Rule>, fewer: set<Rule>)
    requires Kept(r, run, rules) && fewer <= rules
    ensures Kept(r, run, fewer)
  {
  }

  lemma ThreeRules(rules: set<Rule>)
    ensures rules <= ALL_RULES
  {
    forall rule | rule in rules
      ensures rule in ALL_RULES
    {
      match rule
      case Prompted =>
      case Unshown =>
      case Unowed =>
    }
  }

  lemma AnyPair() returns (r: Room)
    ensures Pair(r)
  {
    r := Room(Fresh(1, "fr", "en"), Fresh(2, "en", "fr"), [], [], [], false);
  }

  /** Whatever the delays, one owner at a time takes all three rules. */
  lemma WhateverDelaysIff(rules: set<Rule>)
    ensures SafeWhateverDelays(rules) <==> rules == ALL_RULES
  {
    ThreeRules(rules);
    var r := AnyPair();
    if rules == ALL_RULES {
      forall r, run | Start(r) && Kept(r, run, rules)
        ensures OneOwner(Run(r, run))
      {
        OneOwnerAtATime(r, run);
      }
    } else {
      var run;
      if Prompted !in rules {
        run := TwoOwnersWithoutPrompted(r);
        FewerKept(r, run, {Unshown, Unowed}, rules);
      } else if Unshown !in rules {
        run := TwoOwnersWithoutUnshown(r);
        FewerKept(r, run, ALL_RULES - {Unshown}, rules);
      } else {
        run := TwoOwnersWithoutUnowed(r);
        FewerKept(r, run, ALL_RULES - {Unowed}, rules);
      }
      assert !OneOwner(Run(r, run));
    }
  }

  predicate Enough(rules: set<Rule>) { Prompted in rules && (Unshown in rules || Unowed in rules) }

  lemma EnoughIsSafe(rules: set<Rule>)
    requires Enough(rules)
    ensures SafeInTime(rules)
  {
    var rule := if Unshown in rules then Unshown else Unowed;
    forall r, run | Start(r) && Kept(r, run, rules) && Timely(r, run)
      ensures OneOwner(Run(r, run))
    {
      FewerKept(r, run, rules, {Prompted, rule});
      OneOwnerInTime(r, run, rule);
    }
  }

  lemma TooFewIsUnsafe(rules: set<Rule>)
    requires !Enough(rules)
    ensures !SafeWhenDrained(rules)
  {
    ThreeRules(rules);
    var r := AnyPair();
    var run;
    if Prompted in rules {
      run := TwoOwnersOnPromptsAlone(r);
      FewerKept(r, run, {Prompted}, rules);
    } else {
      run := TwoOwnersWithoutPrompted(r);
      FewerKept(r, run, {Unshown, Unowed}, rules);
    }
    assert !OneOwner(Run(r, run));
  }

  /**
   In time, one owner at a time takes accepting only what was prompted and one of the rules about proposing; and
   it takes no less if everything is always read before a timer expires.
   */
  lemma InTimeIff(rules: set<Rule>)
    ensures SafeInTime(rules) <==> Prompted in rules && (Unshown in rules || Unowed in rules)
    ensures SafeWhenDrained(rules) <==> SafeInTime(rules)
  {
    InTimeIsDrained(rules);
    if Enough(rules) {
      EnoughIsSafe(rules);
    } else {
      TooFewIsUnsafe(rules);
    }
  }

  lemma InTimeIsDrained(rules: set<Rule>)
    ensures SafeInTime(rules) ==> SafeWhenDrained(rules)
  {
    forall r, run | SafeInTime(rules) && Start(r) && Kept(r, run, rules) && Drained(r, run)
      ensures OneOwner(Run(r, run))
    {
      DrainedIsTimely(r, run);
    }
  }
}

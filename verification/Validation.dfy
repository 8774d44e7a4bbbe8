/** What the input checks accept. */
module Validation {
  import opened Host
  import opened Seqs
  import opened AlertModel

  lemma {:induction false} FaultFreeExactly(rules: seq<string>, n: nat)
    requires n <= |rules|
    ensures RuleFault(rules, n).Pass? <==>
            (forall i :: 0 <= i < n ==> rules[i] in RULES) && NoDup(rules[..n])
  {
    if n != 0 {
      FaultFreeExactly(rules, n - 1);
      assert rules[..n] == rules[..n - 1] + [rules[n - 1]];
      if NoDup(rules[..n]) {
        assert forall i :: 0 <= i < n - 1 ==> rules[..n][i] != rules[..n][n - 1];
      }
    }
  }

  /** A rule list is accepted exactly when it is a non-empty list of distinct known descriptors; so it
      never has more than four, and the bound of 50 only ever picks the error reported. */
  lemma ValidRulesExactly(rules: seq<string>)
    ensures ValidRules(rules).Pass? <==> rules != [] && NoDup(rules) && forall r :: r in rules ==> r in RULES
    ensures ValidRules(rules).Pass? ==> |rules| <= 4
  {
    assert rules[..|rules|] == rules;
    FaultFreeExactly(rules, |rules|);
    if NoDup(rules) && forall r :: r in rules ==> r in RULES {
      var used := set r | r in rules;
      NoDupSize(rules, used);
      assert used <= RULES;
      AtMostFour(used);
    }
  }

  lemma AtMostFour(used: set<string>)
    requires used <= RULES
    ensures |used| <= 4
  {
    assert |RULES| <= 4 by {
      assert RULES == {"rule:transfer"} + {"rule:mint"} + {"rule:invoke"} + {"rule:all"};
    }
    assert RULES == used + (RULES - used);
  }

  /** The first rule that is unknown or repeats an earlier one. */
  predicate FirstBad(rules: seq<string>, i: nat) {
    && i < |rules|
    && (rules[i] !in RULES || rules[i] in rules[..i])
    && forall j :: 0 <= j < i ==> rules[j] in RULES && rules[j] !in rules[..j]
  }

  lemma {:induction false} FaultAt(rules: seq<string>, i: nat, n: nat)
    requires FirstBad(rules, i) && n <= |rules|
    ensures RuleFault(rules, n) ==
            if n <= i then Pass else Fail(if rules[i] !in RULES then InvalidRuleDescriptor else DuplicateRule)
  {
    if n != 0 { FaultAt(rules, i, n - 1); }
  }

  /** Which error a bad rule list gets: its emptiness first, its length next, then that of its first bad
      rule, an unknown descriptor before a repetition. */
  lemma RuleErrorExactly(rules: seq<string>, i: nat)
    ensures rules == [] ==> ValidRules(rules) == Fail(EmptyRules)
    ensures |rules| > 50 ==> ValidRules(rules) == Fail(TooManyRules)
    ensures |rules| <= 50 && FirstBad(rules, i) ==>
              ValidRules(rules) == Fail(if rules[i] !in RULES then InvalidRuleDescriptor else DuplicateRule)
  {
    if FirstBad(rules, i) { FaultAt(rules, i, |rules|); }
  }

  /** The remaining input checks, in the order in which they are reported. */
  lemma InputErrorExactly(input: AlertInput, tags: Option<seq<string>>)
    ensures ValidInput(input) == if |input.webhookHash| != 64 then Fail(InvalidWebhookHash)
                                 else if |input.name| > 128 then Fail(LabelTooLong)
                                 else ValidRules(input.rules)
    ensures ValidTags(tags).Pass? <==>
            tags.Some? ==> |tags.value| <= 10 && forall tag :: tag in tags.value ==> |tag| <= 32
    ensures ValidTags(tags).Fail? ==> ValidTags(tags).error == if |tags.value| > 10 then TooManyTags else TagTooLong
  {}
}

/**
 * An ordered first-match-wins chain as data: each rule pairs a condition
 * with the value it yields, and the first rule whose condition holds decides;
 * when none holds the fallback is the answer. Both resolution chains of the
 * middleware are instances of it.
 */
module Chain {

  datatype Rule = Rule(applies: bool, value: string)

  /** No rule among the first `n` applies. */
  predicate NoneApply(rules: seq<Rule>, n: nat)
    requires n <= |rules|
  {
    forall j :: 0 <= j < n ==> !rules[j].applies
  }

  function FirstMatch(rules: seq<Rule>, fallback: string): (r: string)
    // nothing applies: the fallback
    ensures NoneApply(rules, |rules|) ==> r == fallback
    // the first applicable rule decides, whatever the later rules say
    ensures forall i :: 0 <= i < |rules| && rules[i].applies && NoneApply(rules, i) ==> r == rules[i].value
    // the answer is always the fallback or the value of an applicable rule
    ensures r == fallback || exists i :: 0 <= i < |rules| && rules[i].applies && r == rules[i].value
    decreases |rules|
  {
    if |rules| == 0 then fallback
    else if rules[0].applies then rules[0].value
    else
      var r := FirstMatch(rules[1..], fallback);
      assert forall i :: 1 <= i < |rules| && NoneApply(rules, i) ==> NoneApply(rules[1..], i - 1);
      assert forall i :: 1 <= i < |rules| ==> rules[1..][i - 1] == rules[i];
      r
  }

  /** A chain of four rules is decided by its first applicable rule, else by the fallback. */
  lemma FirstMatchOfFour(rules: seq<Rule>, fallback: string)
    requires |rules| == 4
    ensures FirstMatch(rules, fallback) ==
      if rules[0].applies then rules[0].value
      else if rules[1].applies then rules[1].value
      else if rules[2].applies then rules[2].value
      else if rules[3].applies then rules[3].value
      else fallback
  {
  }
}

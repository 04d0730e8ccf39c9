/** How the sign-in forms turn a Firebase error message into the text they
    show: a chain of `message.includes(code)` tests, the first that matches
    choosing the text, and the raw message when none does. */
module AuthMessages {
  import opened Strings

  /** One link of the chain: any of `codes` occurring in the message selects
      `friendly`. */
  datatype Rule = Rule(codes: seq<string>, friendly: string)

  predicate Matches(message: string, rule: Rule)
  {
    exists k :: 0 <= k < |rule.codes| && Contains(message, rule.codes[k])
  }

  /** The text shown for `message`: the first matching rule's, else the
      message itself. */
  function Friendly(message: string, rules: seq<Rule>): (r: string)
    ensures (forall i :: 0 <= i < |rules| ==> !Matches(message, rules[i])) ==> r == message
    ensures (exists i :: 0 <= i < |rules| && Matches(message, rules[i])) ==>
              exists i :: 0 <= i < |rules| && Matches(message, rules[i]) && r == rules[i].friendly
                          && forall j :: 0 <= j < i ==> !Matches(message, rules[j])
  {
    if |rules| == 0 then message
    else if Matches(message, rules[0]) then rules[0].friendly
    else
      var r := Friendly(message, rules[1..]);
      assert forall i :: 1 <= i < |rules| ==> rules[1..][i - 1] == rules[i];
      r
  }

  /** The rule that decides is the first one that matches, whatever the
      later ones say. */
  lemma {:induction false} FirstMatchWins(message: string, rules: seq<Rule>, i: nat)
    requires i < |rules| && Matches(message, rules[i])
    requires forall j :: 0 <= j < i ==> !Matches(message, rules[j])
    ensures Friendly(message, rules) == rules[i].friendly
  {
    if i > 0 {
      assert forall j :: 0 <= j < i - 1 ==> rules[1..][j] == rules[j + 1];
      FirstMatchWins(message, rules[1..], i - 1);
    }
  }
}

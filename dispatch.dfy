/**
 * An ordered table of keyword rules, tried top to bottom, the first rule with a
 * keyword occurring in the message winning. This is the reference reading of
 * the `if`/`elif` keyword chains of the chat assistants: each chain is proved
 * equal to a first match over its own table.
 */
module Dispatch {
  import opened Text

  datatype Rule<T> = Rule(keywords: seq<string>, topic: T)

  predicate Fires<T>(rule: Rule<T>, msg: string) {
    ContainsAny(msg, rule.keywords)
  }

  /** The index of the first rule that fires, or `|rules|` when none does. */
  function FirstFiring<T>(rules: seq<Rule<T>>, msg: string): (k: nat)
    ensures k <= |rules|
    ensures k < |rules| ==> Fires(rules[k], msg)
    ensures forall j :: 0 <= j < k ==> !Fires(rules[j], msg)
  {
    if rules == [] then 0
    else if Fires(rules[0], msg) then 0
    else 1 + FirstFiring(rules[1..], msg)
  }

  /** The topic chosen by first match, `fallback` when no rule fires. */
  function FirstMatch<T>(rules: seq<Rule<T>>, msg: string, fallback: T): (t: T)
    ensures (exists i :: 0 <= i < |rules| && Fires(rules[i], msg)) || t == fallback
  {
    var k := FirstFiring(rules, msg);
    if k < |rules| then rules[k].topic else fallback
  }
}

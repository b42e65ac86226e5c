/**
 * Intent classification in `execute_command` (voice_assistant.py:268-317): the
 * lower-cased command is tested against keyword triggers in a fixed order and the
 * first trigger found decides the intent.
 */
module Routing {
  import opened Text

  datatype Intent =
    | NoOp          // the empty command: nothing happens
    | Time | Date | Wikipedia | OpenSite | Weather | Joke | Email | Compute
    | Exit          // the only intent that ends the session
    | Unrecognized  // the catch-all

  /**
   * The `if`/`elif` chain of `execute_command`, on the lower-cased command. Only
   * the empty command does nothing, and "time" wins over every other keyword.
   */
  function Classify(query: string): (r: Intent)
    ensures r == NoOp <==> query == []
    ensures r == Time <==> Contains(Lower(query), "time")
  {
    var q := Lower(query);
    if q == [] then NoOp
    else if Contains(q, "time") then Time
    else if Contains(q, "date") then Date
    else if Contains(q, "wikipedia") then Wikipedia
    else if Contains(q, "open ") then OpenSite
    else if Contains(q, "weather") then Weather
    else if Contains(q, "joke") then Joke
    else if Contains(q, "email") then Email
    else if Contains(q, "calculate") || Contains(q, "what is") || Contains(q, "who is") then Compute
    else if Contains(q, "exit") || Contains(q, "bye") then Exit
    else Unrecognized
  }

  /** `execute_command`'s return value on the paths that do not raise: false only for exit. */
  function KeepsRunning(query: string): (r: bool)
    ensures !r <==> (Contains(Lower(query), "exit") || Contains(Lower(query), "bye"))
                    && forall j :: 0 <= j < 8 ==> !Fires(Rules[j], Lower(query))
  {
    ExitRule(query);
    Classify(query) != Exit
  }

  // ---------------------------------------------------------------- the rule table

  /** An intent with the triggers any one of which selects it. */
  datatype Rule = Rule(intent: Intent, triggers: seq<string>)

  /** The routing order as data: earlier rules win. */
  const Rules: seq<Rule> := [
    Rule(Time, ["time"]),
    Rule(Date, ["date"]),
    Rule(Wikipedia, ["wikipedia"]),
    Rule(OpenSite, ["open "]),
    Rule(Weather, ["weather"]),
    Rule(Joke, ["joke"]),
    Rule(Email, ["email"]),
    Rule(Compute, ["calculate", "what is", "who is"]),
    Rule(Exit, ["exit", "bye"])
  ]

  /** Some trigger of the list occurs in `q`. */
  predicate Mentions(q: string, triggers: seq<string>) {
    triggers != [] && (Contains(q, triggers[0]) || Mentions(q, triggers[1..]))
  }

  predicate Fires(rule: Rule, q: string) {
    Mentions(q, rule.triggers)
  }

  lemma MentionsOne(q: string, t: string)
    ensures Mentions(q, [t]) <==> Contains(q, t)
  {
    assert [t][1..] == [];
  }

  lemma MentionsTwo(q: string, t: string, u: string)
    ensures Mentions(q, [t, u]) <==> Contains(q, t) || Contains(q, u)
  {
    assert [t, u][1..] == [u];
    MentionsOne(q, u);
  }

  lemma MentionsThree(q: string, t: string, u: string, v: string)
    ensures Mentions(q, [t, u, v]) <==> Contains(q, t) || Contains(q, u) || Contains(q, v)
  {
    assert [t, u, v][1..] == [u, v];
    MentionsTwo(q, u, v);
  }

  /** The intent of the first rule from index `from` on that fires, or `Unrecognized`. */
  function FirstMatchFrom(rules: seq<Rule>, q: string, from: nat): Intent
    decreases |rules| - from
  {
    if from >= |rules| then Unrecognized
    else if Fires(rules[from], q) then rules[from].intent
    else FirstMatchFrom(rules, q, from + 1)
  }

  /** First-match over a whole rule table. */
  function FirstMatch(rules: seq<Rule>, q: string): Intent {
    FirstMatchFrom(rules, q, 0)
  }

  predicate DistinctIntents(rules: seq<Rule>) {
    && (forall a, b :: 0 <= a < b < |rules| ==> rules[a].intent != rules[b].intent)
    && (forall a :: 0 <= a < |rules| ==> rules[a].intent != Unrecognized)
  }

  /**
   * In a table of distinct intents, scanning from `from`, rule `k` wins exactly
   * when it fires and no rule between `from` and `k` does.
   */
  lemma {:induction false} FirstMatchWins(rules: seq<Rule>, q: string, from: nat, k: nat)
    requires DistinctIntents(rules) && from <= k < |rules|
    ensures FirstMatchFrom(rules, q, from) == rules[k].intent <==>
            Fires(rules[k], q) && forall j :: from <= j < k ==> !Fires(rules[j], q)
    decreases k - from
  {
    if from < k {
      if Fires(rules[from], q) {
        assert rules[from].intent != rules[k].intent;
      } else {
        FirstMatchWins(rules, q, from + 1, k);
      }
    } else if !Fires(rules[k], q) {
      FirstMatchIsLater(rules, q, k + 1);
    }
  }

  /** Scanning from `from`, the winner is the catch-all or the intent of a firing rule at or after `from`. */
  lemma {:induction false} FirstMatchIsLater(rules: seq<Rule>, q: string, from: nat)
    ensures var r := FirstMatchFrom(rules, q, from);
      r == Unrecognized || exists j :: from <= j < |rules| && Fires(rules[j], q) && r == rules[j].intent
    decreases |rules| - from
  {
    if from < |rules| && !Fires(rules[from], q) {
      FirstMatchIsLater(rules, q, from + 1);
    }
  }

  /** With distinct intents, nothing wins exactly when no rule from `from` on fires. */
  lemma {:induction false} FirstMatchNone(rules: seq<Rule>, q: string, from: nat)
    requires DistinctIntents(rules)
    ensures FirstMatchFrom(rules, q, from) == Unrecognized <==>
            forall j :: from <= j < |rules| ==> !Fires(rules[j], q)
    decreases |rules| - from
  {
    if from < |rules| && !Fires(rules[from], q) {
      FirstMatchNone(rules, q, from + 1);
    }
  }

  /** The routing table has one rule per intent and no catch-all entry. */
  lemma RulesDistinct()
    ensures DistinctIntents(Rules)
  {
  }

  /** The `elif` chain is first-match over the rule table. */
  lemma ClassifyIsFirstMatch(query: string)
    ensures Lower(query) != [] ==> Classify(query) == FirstMatch(Rules, Lower(query))
  {
    var q := Lower(query);
    MentionsOne(q, "time");
    MentionsOne(q, "date");
    MentionsOne(q, "wikipedia");
    MentionsOne(q, "open ");
    MentionsOne(q, "weather");
    LaterRules(q);
    assert FirstMatchFrom(Rules, q, 4) == if Contains(q, "weather") then Weather else FirstMatchFrom(Rules, q, 5);
    assert FirstMatchFrom(Rules, q, 3) == if Contains(q, "open ") then OpenSite else FirstMatchFrom(Rules, q, 4);
    assert FirstMatchFrom(Rules, q, 2) == if Contains(q, "wikipedia") then Wikipedia else FirstMatchFrom(Rules, q, 3);
    assert FirstMatchFrom(Rules, q, 1) == if Contains(q, "date") then Date else FirstMatchFrom(Rules, q, 2);
    assert FirstMatchFrom(Rules, q, 0) == if Contains(q, "time") then Time else FirstMatchFrom(Rules, q, 1);
  }

  /** The last four rules of the table, from "joke" on, as the tail of the `elif` chain. */
  lemma LaterRules(q: string)
    ensures FirstMatchFrom(Rules, q, 5) ==
      if Contains(q, "joke") then Joke
      else if Contains(q, "email") then Email
      else if Contains(q, "calculate") || Contains(q, "what is") || Contains(q, "who is") then Compute
      else if Contains(q, "exit") || Contains(q, "bye") then Exit
      else Unrecognized
  {
    MentionsOne(q, "joke");
    MentionsOne(q, "email");
    MentionsThree(q, "calculate", "what is", "who is");
    MentionsTwo(q, "exit", "bye");
    assert FirstMatchFrom(Rules, q, 9) == Unrecognized;
    assert FirstMatchFrom(Rules, q, 8) == if Contains(q, "exit") || Contains(q, "bye") then Exit else Unrecognized;
    assert FirstMatchFrom(Rules, q, 7) ==
      if Contains(q, "calculate") || Contains(q, "what is") || Contains(q, "who is") then Compute
      else FirstMatchFrom(Rules, q, 8);
    assert FirstMatchFrom(Rules, q, 6) == if Contains(q, "email") then Email else FirstMatchFrom(Rules, q, 7);
  }

  /**
   * Precedence: a non-empty command gets the intent of rule `i` exactly when one
   * of that rule's triggers occurs in it and no trigger of an earlier rule does.
   */
  lemma RoutingPrecedence(query: string, i: nat)
    requires Lower(query) != [] && i < |Rules|
    ensures Classify(query) == Rules[i].intent <==>
            Fires(Rules[i], Lower(query)) && forall j :: 0 <= j < i ==> !Fires(Rules[j], Lower(query))
  {
    ClassifyIsFirstMatch(query);
    RulesDistinct();
    FirstMatchWins(Rules, Lower(query), 0, i);
  }

  /** The catch-all is reached exactly by a non-empty command that no rule matches. */
  lemma RoutingFallThrough(query: string)
    ensures Classify(query) == Unrecognized <==>
            Lower(query) != [] && forall j :: 0 <= j < |Rules| ==> !Fires(Rules[j], Lower(query))
  {
    ClassifyIsFirstMatch(query);
    RulesDistinct();
    FirstMatchNone(Rules, Lower(query), 0);
  }

  /** The exit intent: "exit" or "bye" present and none of the eight earlier rules firing. */
  lemma ExitRule(query: string)
    ensures Classify(query) == Exit <==>
            (Contains(Lower(query), "exit") || Contains(Lower(query), "bye"))
            && forall j :: 0 <= j < 8 ==> !Fires(Rules[j], Lower(query))
  {
    if Lower(query) != [] {
      RoutingPrecedence(query, 8);
      MentionsTwo(Lower(query), "exit", "bye");
    }
  }

  /** Only the empty command is a no-op; a command of blanks is not. */
  lemma OnlyEmptyIsNoOp(query: string)
    ensures Classify(query) == NoOp <==> query == []
  {
  }

  /** "what is the weather" goes to the weather handler: the weather rule precedes the computation rule. */
  lemma WeatherBeforeCompute(q: string)
    requires q == "what is the weather"
    ensures Classify(q) == Weather
  {
    EarlierTriggersAbsent(q);
    NamesTheWeather(q);
    WeatherBranch(q);
  }

  /** "what is the weather" is lower-case and contains "weather". */
  lemma NamesTheWeather(q: string)
    requires q == "what is the weather"
    ensures Lower(q) == q && Contains(q, "weather")
  {
    LowerOfLower(q);
    ContainsAt(q, "weather", 12);
  }

  /** A command reaches the weather branch when it names the weather and no earlier trigger. */
  lemma WeatherBranch(query: string)
    requires Lower(query) != [] && Contains(Lower(query), "weather")
    requires var q := Lower(query);
      !Contains(q, "time") && !Contains(q, "date") && !Contains(q, "wikipedia") && !Contains(q, "open ")
    ensures Classify(query) == Weather
  {
  }

  /** None of the four triggers tested before "weather" occurs in "what is the weather". */
  lemma EarlierTriggersAbsent(q: string)
    requires q == "what is the weather"
    ensures !Contains(q, "time") && !Contains(q, "date") && !Contains(q, "wikipedia") && !Contains(q, "open ")
  {
    NeitherTimeNorDate(q);
    NeitherWikipediaNorOpen(q);
  }

  lemma NeitherTimeNorDate(q: string)
    requires q == "what is the weather"
    ensures !Contains(q, "time") && !Contains(q, "date")
  {
    MissingCharNotContained(q, "time", 'm');
    MissingCharNotContained(q, "date", 'd');
  }

  lemma NeitherWikipediaNorOpen(q: string)
    requires q == "what is the weather"
    ensures !Contains(q, "wikipedia") && !Contains(q, "open ")
  {
    MissingCharNotContained(q, "wikipedia", 'k');
    MissingCharNotContained(q, "open ", 'o');
  }

  /** "exit time" tells the time and keeps running: the exit rule is tested second to last. */
  lemma ExitDoesNotAlwaysHalt(q: string)
    requires q == "exit time"
    ensures Classify(q) == Time
  {
    LowerOfLower(q);
    ContainsAt(q, "time", 5);
  }

  /** A command of blanks only is not empty, matches no trigger and is reported as not recognized. */
  lemma BlankIsUnrecognized(query: string)
    requires query != [] && AllSpace(query)
    ensures Classify(query) == Unrecognized
  {
    assert NoUpper(query);
    LowerOfLower(query);
    BlankLacks(query, "time");
    BlankLacks(query, "date");
    BlankLacks(query, "wikipedia");
    BlankLacks(query, "open ");
    BlankLacks(query, "weather");
    BlankLacks(query, "joke");
    BlankLacks(query, "email");
    BlankLacks(query, "calculate");
    BlankLacks(query, "what is");
    BlankLacks(query, "who is");
    BlankLacks(query, "exit");
    BlankLacks(query, "bye");
  }

  lemma BlankLacks(blank: string, t: string)
    requires AllSpace(blank) && t != [] && !IsSpace(t[0])
    ensures !Contains(blank, t)
  {
    MissingCharNotContained(blank, t, t[0]);
  }
}

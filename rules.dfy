/** The rule commands of the Tortoise server: looking a rule up by its number or by one of its
    aliases, answering the `rule` command, and the `rules` listing. */
module Rules {
  import opened Wrappers
  import opened Text

  /** A rule as the API serves it: its number, its aliases (stored as given) and its statement. */
  datatype Rule = Rule(number: int, alias: seq<string>, statement: string)

  /** `_get_rule_by_value`: the first rule with the given number, or none when no rule has it. */
  function RuleByValue(rules: seq<Rule>, n: int): (r: Option<Rule>)
    ensures r.None? <==> forall i | 0 <= i < |rules| :: rules[i].number != n
    ensures r.Some? ==> r.value.number == n && r.value in rules
    decreases |rules|
  {
    if rules == [] then None
    else if rules[0].number == n then Some(rules[0])
    else RuleByValue(rules[1..], n)
  }

  /** The rule found by number is the first one carrying it. */
  lemma {:induction false} RuleByValueIsFirst(rules: seq<Rule>, n: int, i: nat)
    requires i < |rules| && rules[i].number == n
    requires forall j | 0 <= j < i :: rules[j].number != n
    ensures RuleByValue(rules, n) == Some(rules[i])
    decreases i
  {
    if i > 0 {
      RuleByValueIsFirst(rules[1..], n, i - 1);
    }
  }

  /** The first rule whose alias list contains `q` exactly. */
  function RuleWithAlias(rules: seq<Rule>, q: string): (r: Option<Rule>)
    ensures r.None? <==> forall i | 0 <= i < |rules| :: q !in rules[i].alias
    ensures r.Some? ==> q in r.value.alias && r.value in rules
    decreases |rules|
  {
    if rules == [] then None
    else if q in rules[0].alias then Some(rules[0])
    else RuleWithAlias(rules[1..], q)
  }

  /** `_get_rule_by_alias`: the query is lower-cased, the stored aliases are compared as they are. */
  function RuleByAlias(rules: seq<Rule>, alias: string): (r: Option<Rule>)
    ensures r.None? <==> forall i | 0 <= i < |rules| :: ToLower(alias) !in rules[i].alias
    ensures r.Some? ==> ToLower(alias) in r.value.alias && r.value in rules
  {
    RuleWithAlias(rules, ToLower(alias))
  }

  /** The rule found by alias is the first one listing the lower-cased query. */
  lemma {:induction false} RuleWithAliasIsFirst(rules: seq<Rule>, q: string, i: nat)
    requires i < |rules| && q in rules[i].alias
    requires forall j | 0 <= j < i :: q !in rules[j].alias
    ensures RuleWithAlias(rules, q) == Some(rules[i])
    decreases i
  {
    if i > 0 {
      RuleWithAliasIsFirst(rules[1..], q, i - 1);
    }
  }

  /** Looking an alias up ignores the case of the query. */
  lemma AliasLookupIgnoresCase(rules: seq<Rule>, alias: string)
    ensures RuleByAlias(rules, alias) == RuleByAlias(rules, ToLower(alias))
  {
    ToLowerIdempotent(alias);
  }

  /** A rule whose every alias has an upper-case letter is never found by alias: stored aliases are
      not lower-cased. */
  lemma UpperCaseAliasesUnreachable(rules: seq<Rule>, alias: string, i: nat)
    requires i < |rules|
    requires forall k | 0 <= k < |rules[i].alias| :: exists c | 0 <= c < |rules[i].alias[k]| :: IsUpper(rules[i].alias[k][c])
    ensures RuleByAlias(rules, alias) != Some(rules[i])
  {
  }

  /** The argument of the `rule` command after conversion: a number or a word. */
  datatype RuleArg = ByNumber(n: int) | ByAlias(word: string)

  /** The reply the command sends: a failure notice, or the statement under the title "Rule <arg>". */
  datatype Reply = NoSuchRule | ShowRule(statement: string, title: string)

  /** A number is looked up by number, a word by alias. */
  function FindRule(rules: seq<Rule>, arg: RuleArg): (r: Option<Rule>)
    ensures arg.ByNumber? ==> r == RuleByValue(rules, arg.n)
    ensures arg.ByAlias? ==> r == RuleByAlias(rules, arg.word)
  {
    match arg
    case ByNumber(n) => RuleByValue(rules, n)
    case ByAlias(w) => RuleByAlias(rules, w)
  }

  function ArgText(arg: RuleArg): string {
    match arg
    case ByNumber(n) => IntToDecimal(n)
    case ByAlias(w) => w
  }

  /** `rule`: "No such rule." exactly when the lookup finds nothing, otherwise the statement of the
      rule found, titled with the argument as the user gave it. */
  function RuleReply(rules: seq<Rule>, arg: RuleArg): (reply: Reply)
    ensures reply.NoSuchRule? <==> FindRule(rules, arg).None?
    ensures reply.ShowRule? ==>
              reply.statement == FindRule(rules, arg).value.statement
              && reply.title == "Rule " + ArgText(arg)
  {
    match FindRule(rules, arg)
    case None => NoSuchRule
    case Some(r) => ShowRule(r.statement, "Rule " + ArgText(arg))
  }

  /** One entry of the listing: "<number>. Aliases: <a, b, ...>" and the statement on the next line. */
  function RuleEntry(r: Rule): string {
    IntToDecimal(r.number) + ". Aliases: " + Join(r.alias, ", ") + "\n" + r.statement
  }

  /** The entries of the listing: one per rule, in list order. */
  function Entries(rules: seq<Rule>): (body: seq<string>)
    ensures |body| == |rules| && forall i | 0 <= i < |rules| :: body[i] == RuleEntry(rules[i])
  {
    seq(|rules|, i requires 0 <= i < |rules| => RuleEntry(rules[i]))
  }

  /** The text of the `rules` listing: the entries separated by blank lines. */
  function Listing(rules: seq<Rule>): string {
    Join(Entries(rules), "\n\n")
  }

  /** `rules`: one entry per rule, in list order, and the text of the entries joined by blank lines. */
  method RulesListing(rules: seq<Rule>) returns (body: seq<string>, text: string)
    ensures |body| == |rules|
    ensures forall i | 0 <= i < |rules| :: body[i] == RuleEntry(rules[i])
    ensures text == Listing(rules)
  {
    body := [];
    for i := 0 to |rules|
      invariant |body| == i
      invariant forall k | 0 <= k < i :: body[k] == RuleEntry(rules[k])
    {
      var entry := RuleEntry(rules[i]);
      body := body + [entry];
    }
    assert body == Entries(rules);
    text := Join(body, "\n\n");
  }

  /** The position of the first '.' in a string, or its length when it has none. */
  function FirstDot(s: string): (n: nat)
    ensures n <= |s|
    decreases |s|
  {
    if s == [] || s[0] == '.' then 0 else 1 + FirstDot(s[1..])
  }

  lemma {:induction false} FirstDotAfter(x: string, t: string)
    requires forall k | 0 <= k < |x| :: x[k] != '.'
    requires t != [] && t[0] == '.'
    ensures FirstDot(x + t) == |x|
    decreases |x|
  {
    if x != [] {
      assert (x + t)[1..] == x[1..] + t;
      FirstDotAfter(x[1..], t);
    }
  }

  lemma NumeralHasNoDot(i: int)
    ensures forall k | 0 <= k < |IntToDecimal(i)| :: IntToDecimal(i)[k] != '.'
  {
    if i < 0 {
      var s := IntToDecimal(i);
      assert forall k | 1 <= k < |s| :: s[k] == NatToDecimal(-i)[k - 1];
    }
  }

  /** An entry names the number of its rule: two entries are equal only for rules with the same
      number, so the listing shows each rule under its own number. */
  lemma EntryDeterminesNumber(a: Rule, b: Rule)
    ensures RuleEntry(a) == RuleEntry(b) ==> a.number == b.number
  {
    var da, db := IntToDecimal(a.number), IntToDecimal(b.number);
    var ta := ". Aliases: " + Join(a.alias, ", ") + "\n" + a.statement;
    var tb := ". Aliases: " + Join(b.alias, ", ") + "\n" + b.statement;
    assert RuleEntry(a) == da + ta;
    assert RuleEntry(b) == db + tb;
    NumeralHasNoDot(a.number);
    NumeralHasNoDot(b.number);
    FirstDotAfter(da, ta);
    FirstDotAfter(db, tb);
    if RuleEntry(a) == RuleEntry(b) {
      assert |da| == |db|;
      assert da == RuleEntry(a)[..|da|] && db == RuleEntry(b)[..|db|];
      IntToDecimalInjective(a.number, b.number);
    }
  }

  /** The listing of one rule is its entry alone, with no separator. */
  lemma ListingOfOne(r: Rule)
    ensures Listing([r]) == RuleEntry(r)
  {
  }

  /** A rule appended to the list adds a blank line and its entry at the end of the listing, and
      leaves the listing of the earlier rules in place in front. */
  lemma ListingSnoc(rules: seq<Rule>, r: Rule)
    requires |rules| >= 1
    ensures Listing(rules + [r]) == Listing(rules) + "\n\n" + RuleEntry(r)
  {
    assert Entries(rules + [r]) == Entries(rules) + [RuleEntry(r)];
    JoinSnoc(Entries(rules), RuleEntry(r), "\n\n");
  }

  /** The listing holds the rules' entries and one blank line between each two of them. */
  lemma ListingLength(rules: seq<Rule>)
    requires |rules| >= 1
    ensures |Listing(rules)| == TotalLength(Entries(rules)) + 2 * (|rules| - 1)
  {
    JoinLength(Entries(rules), "\n\n");
  }
}

/**
  Who an act appears to come from (packages/core/src/agent-label.ts): the rule that decides it, and which changes of the
  settings wait for the person.
  */
module AgentLabel {
  import opened Wrappers
  import opened Texts

  datatype Identity = Agent | Me

  datatype ActKind = PostAct | ReplyAct | ReactionAct | EditAct | FileAct | SendAct

  datatype Rule = Rule(
    account: string,
    accountId: Option<string>,
    conversation: Option<string>,
    kinds: Option<seq<ActKind>>,
    says: Identity)

  datatype Slack = Slack(channel: string, dmWith: Option<string>)

  datatype Query = Query(
    account: string,
    accountId: Option<string>,
    kind: ActKind,
    requested: Option<Identity>,
    slack: Option<Slack>,
    recipients: Option<seq<string>>)

  datatype Source = FromMessage | FromRule | FromDefault

  datatype Decision = Decision(identity: Identity, source: Source, rule: Option<Rule>)

  // ---------- which rule decides ----------

  predicate EndsWith(s: string, tail: string) {
    |tail| <= |s| && s[|s| - |tail|..] == tail
  }

  // An address, or `@domain` for every address there: the domain's `@` is the address's first.
  predicate AddressMatches(pattern: string, address: string) {
    var want := Lower(pattern);
    var got := Lower(address);
    if want != "" && want[0] == '@' then EndsWith(got, want) && '@' !in got[..|got| - |want|]
    else got == want
  }

  predicate RuleMatches(rule: Rule, query: Query) {
    && rule.account == query.account
    && (rule.accountId.Some? ==> rule.accountId == query.accountId)
    && (rule.kinds.Some? ==> query.kind in rule.kinds.value)
    && (rule.conversation.Some? ==>
          if query.slack.Some? then
            rule.conversation.value == query.slack.value.channel || rule.conversation == query.slack.value.dmWith
          else
            && query.recipients.Some? && query.recipients.value != []
            && forall address | address in query.recipients.value :: AddressMatches(rule.conversation.value, address))
  }

  // An address written so, or, of `@domain`, any that is a name without an `@` and then that; in any case of letters.
  ghost predicate IsAt(pattern: string, address: string) {
    if pattern != "" && pattern[0] == '@' then exists name :: Lower(address) == name + Lower(pattern) && '@' !in name
    else Lower(address) == Lower(pattern)
  }

  lemma AddressMatchesExactly(pattern: string, address: string)
    ensures AddressMatches(pattern, address) <==> IsAt(pattern, address)
  {
    LowerIsPointwise(pattern);
    var want := Lower(pattern);
    var got := Lower(address);
    if AddressMatches(pattern, address) && pattern != "" && pattern[0] == '@' {
      assert got == got[..|got| - |want|] + want;
    }
    if IsAt(pattern, address) && pattern != "" && pattern[0] == '@' {
      var name :| got == name + want && '@' !in name;
      assert got[|name|..] == want && got[..|name|] == name;
    }
  }

  // A rule is about an act of its account, of one of its kinds if it names any; in the channel or with the person it
  // names, or, by mail, with no recipient it does not name, and at least one.
  lemma RuleMatchesExactly(rule: Rule, query: Query)
    ensures RuleMatches(rule, query) <==>
            && rule.account == query.account
            && (rule.accountId.None? || rule.accountId == query.accountId)
            && (rule.kinds.None? || query.kind in rule.kinds.value)
            && (rule.conversation.None?
                || (query.slack.Some?
                    && (query.slack.value.channel == rule.conversation.value || query.slack.value.dmWith == rule.conversation))
                || (query.slack.None? && query.recipients.Some? && |query.recipients.value| > 0
                    && forall k | 0 <= k < |query.recipients.value| :: IsAt(rule.conversation.value, query.recipients.value[k])))
  {
    if rule.conversation.Some? && query.recipients.Some? {
      forall address { AddressMatchesExactly(rule.conversation.value, address); }
    }
    hide AddressMatches, IsAt;
  }

  // Conversation and kinds, then conversation, then kinds, then the bare account.
  function Specificity(rule: Rule): nat {
    (if rule.conversation.None? then 0 else 2) + (if rule.kinds.None? then 0 else 1)
  }

  predicate Outranks(rule: Rule, best: Rule) {
    Specificity(rule) > Specificity(best) || (Specificity(rule) == Specificity(best) && rule.says == Agent)
  }

  // The rule that decides, by L4 and L3 as they are promised: of those that match, one that names the conversation, if
  // any does; of those alike in that, one that names kinds, if any does; of those alike in both, one that says `agent`,
  // if any does.
  predicate Decides(rule: Rule, rules: seq<Rule>, query: Query) {
    && rule in rules && RuleMatches(rule, query)
    && forall other | other in rules && RuleMatches(other, query) ::
         && (other.conversation.Some? ==> rule.conversation.Some?)
         && (rule.conversation.Some? == other.conversation.Some? && other.kinds.Some? ==> rule.kinds.Some?)
         && (rule.conversation.Some? == other.conversation.Some? && rule.kinds.Some? == other.kinds.Some? ==>
               other.says == Agent ==> rule.says == Agent)
  }

  predicate SomeMatches(rules: seq<Rule>, query: Query) {
    exists rule | rule in rules :: RuleMatches(rule, query)
  }

  // What the message says, then a most specific matching rule, `agent` winning a tie, then `agent`.
  method ResolveIdentity(rules: seq<Rule>, query: Query) returns (decision: Decision)
    ensures query.requested.Some? ==> decision == Decision(query.requested.value, FromMessage, None)
    ensures query.requested.None? && !SomeMatches(rules, query) ==> decision == Decision(Agent, FromDefault, None)
    ensures query.requested.None? && SomeMatches(rules, query) ==>
              decision.source == FromRule && decision.rule.Some? && Decides(decision.rule.value, rules, query)
              && decision.identity == decision.rule.value.says
    ensures decision.identity == IdentityOf(rules, query)
  {
    if query.requested.Some? {
      return Decision(query.requested.value, FromMessage, None);
    }
    var best: Option<Rule> := None;
    for i := 0 to |rules|
      invariant best.None? ==> !SomeMatches(rules[..i], query)
      invariant best.Some? ==> Decides(best.value, rules[..i], query)
    {
      assert rules[..i + 1] == rules[..i] + [rules[i]];
      if RuleMatches(rules[i], query) && (best.None? || Outranks(rules[i], best.value)) {
        best := Some(rules[i]);
      }
    }
    assert rules[..|rules|] == rules;
    DecidedIdentity(rules, query);
    if best.None? {
      return Decision(Agent, FromDefault, None);
    }
    return Decision(best.value.says, FromRule, best);
  }

  // One rule says more of what it is about than another.
  predicate IsNarrower(rule: Rule, other: Rule) {
    || (rule.conversation.Some? && other.conversation.None?)
    || (rule.conversation.Some? == other.conversation.Some? && rule.kinds.Some? && other.kinds.None?)
  }

  // An act is the person's own only when a matching `me` rule is narrower than every matching `agent` one.
  predicate LooksLikeMe(rules: seq<Rule>, query: Query) {
    exists me | me in rules && RuleMatches(me, query) && me.says == Me ::
      forall agent | agent in rules && RuleMatches(agent, query) && agent.says == Agent :: IsNarrower(me, agent)
  }

  function IdentityOf(rules: seq<Rule>, query: Query): Identity {
    if query.requested.Some? then query.requested.value
    else if LooksLikeMe(rules, query) then Me else Agent
  }

  // Every rule that decides says the same: what it says is `IdentityOf`.
  lemma DecidedIdentity(rules: seq<Rule>, query: Query)
    ensures forall rule | Decides(rule, rules, query) :: rule.says == Me <==> LooksLikeMe(rules, query)
    ensures LooksLikeMe(rules, query) ==> SomeMatches(rules, query)
  {
    forall rule | Decides(rule, rules, query) ensures rule.says == Me <==> LooksLikeMe(rules, query) {
      if LooksLikeMe(rules, query) {
        var me :| me in rules && RuleMatches(me, query) && me.says == Me
                  && forall agent | agent in rules && RuleMatches(agent, query) && agent.says == Agent ::
                       IsNarrower(me, agent);
      }
    }
  }

  // The order of the rules does not count, nor how often one is written.
  lemma OrderDoesNotCount(rules: seq<Rule>, others: seq<Rule>, query: Query)
    requires forall rule :: rule in rules <==> rule in others
    ensures IdentityOf(rules, query) == IdentityOf(others, query)
  {
    assert LooksLikeMe(rules, query) == LooksLikeMe(others, query);
  }

  // ---------- which changes wait for the person ----------

  datatype Word = AgentWord | AssistantWord | TwinWord | MinionWord | BotWord | FakeWord | AiWord

  datatype Style = AppStyle | LabelledStyle

  datatype Settings = Settings(
    word: Option<Word>,
    name: Option<string>,
    rules: seq<Rule>,
    slackIcons: map<string, string>,
    slackStyles: map<string, Style>)

  datatype Loosening =
    | WordChange(wasWord: Word, nowWord: Word)
    | NameChange(wasName: Option<string>, nowName: Option<string>)
    | RulesChange(wasRules: seq<Rule>, nowRules: seq<Rule>)
    | IconsChange(wasIcons: map<string, string>, nowIcons: map<string, string>)
    | StylesChange(wasStyles: map<string, Style>, nowStyles: map<string, Style>)

  // A rule as it is compared: its kinds in no order. The source writes this as JSON, the kinds sorted.
  datatype Key = Key(account: string, accountId: Option<string>, conversation: Option<string>,
                     kinds: Option<multiset<ActKind>>, says: Identity)

  function KeyOf(rule: Rule): Key {
    Key(rule.account, rule.accountId, rule.conversation,
        if rule.kinds.None? then None else Some(multiset(rule.kinds.value)), rule.says)
  }

  function KeysOf(rules: seq<Rule>): set<Key> {
    set rule | rule in rules :: KeyOf(rule)
  }

  function StyleOf(settings: Settings, workspace: string): Style {
    if workspace in settings.slackStyles then settings.slackStyles[workspace] else AppStyle
  }

  function WordOf(settings: Settings): Word {
    settings.word.Or(AgentWord)
  }

  predicate MeAdded(before: Settings, after: Settings) {
    exists rule | rule in after.rules :: rule.says == Me && KeyOf(rule) !in KeysOf(before.rules)
  }

  predicate AgentRemoved(before: Settings, after: Settings) {
    exists rule | rule in before.rules :: rule.says == Agent && KeyOf(rule) !in KeysOf(after.rules)
  }

  predicate RulesLoosen(before: Settings, after: Settings) {
    MeAdded(before, after) || AgentRemoved(before, after)
  }

  ghost predicate StylesLoosen(before: Settings, after: Settings) {
    exists id :: StyleOf(before, id) == AppStyle && StyleOf(after, id) == LabelledStyle
  }

  lemma StylesLoosenAmongRestyled(before: Settings, after: Settings)
    ensures StylesLoosen(before, after) <==> exists id | id in Restyled(before, after) :: StyleOf(after, id) == LabelledStyle
  {
    if StylesLoosen(before, after) {
      var id :| StyleOf(before, id) == AppStyle && StyleOf(after, id) == LabelledStyle;
      assert id in Restyled(before, after);
    }
  }

  function Restyled(before: Settings, after: Settings): set<string> {
    set id | id in before.slackStyles.Keys + after.slackStyles.Keys && StyleOf(before, id) != StyleOf(after, id)
  }

  datatype Path = WordPath | NamePath | RulesPath | IconsPath | StylesPath

  function PathOf(c: Loosening): Path {
    match c
    case WordChange(_, _) => WordPath
    case NameChange(_, _) => NamePath
    case RulesChange(_, _) => RulesPath
    case IconsChange(_, _) => IconsPath
    case StylesChange(_, _) => StylesPath
  }

  predicate Lists(changes: seq<Loosening>, path: Path) {
    exists c | c in changes :: PathOf(c) == path
  }

  lemma ListsMore(changes: seq<Loosening>, c: Loosening)
    ensures forall path :: Lists(changes + [c], path) <==> Lists(changes, path) || PathOf(c) == path
  {
    assert (changes + [c])[|changes|] == c;
    forall path | Lists(changes, path) ensures Lists(changes + [c], path) {
      var held :| held in changes && PathOf(held) == path;
      assert held in changes + [c];
    }
  }

  lemma NothingListed()
    ensures forall path :: !Lists([], path)
  {
  }

  // Rules alike in all but the order of their kinds.
  predicate SameRule(a: Rule, b: Rule) {
    && a.account == b.account && a.accountId == b.accountId && a.conversation == b.conversation && a.says == b.says
    && (a.kinds.Some? <==> b.kinds.Some?)
    && (a.kinds.Some? ==> multiset(a.kinds.value) == multiset(b.kinds.value))
  }

  // A rule that says `me` there was none like before.
  predicate AddsMe(before: Settings, after: Settings) {
    exists rule | rule in after.rules :: rule.says == Me && forall was | was in before.rules :: !SameRule(was, rule)
  }

  // A rule that says `agent` there is none like any more.
  predicate DropsAgent(before: Settings, after: Settings) {
    exists rule | rule in before.rules :: rule.says == Agent && forall now | now in after.rules :: !SameRule(now, rule)
  }

  predicate IsLabelled(settings: Settings, workspace: string) {
    workspace in settings.slackStyles && settings.slackStyles[workspace] == LabelledStyle
  }

  // What is listed of a change is what was, and what is: of styles, each workspace's that moved.
  predicate SaysWhatChanged(c: Loosening, before: Settings, after: Settings) {
    match c
    case WordChange(was, now) => was == before.word.Or(AgentWord) && now == after.word.Or(AgentWord)
    case NameChange(was, now) => was == before.name && now == after.name
    case RulesChange(was, now) => was == before.rules && now == after.rules
    case IconsChange(was, now) => was == before.slackIcons && now == after.slackIcons
    case StylesChange(was, now) => StylesMoved(was, now, before, after)
  }

  predicate StylesMoved(was: map<string, Style>, now: map<string, Style>, before: Settings, after: Settings) {
    && was.Keys == now.Keys
    && (forall id | id in before.slackStyles.Keys + after.slackStyles.Keys ::
          id in was <==> (IsLabelled(before, id) <==> !IsLabelled(after, id)))
    && (forall id | id in was ::
          id in now && was[id] == (if IsLabelled(before, id) then LabelledStyle else AppStyle)
          && now[id] == (if IsLabelled(after, id) then LabelledStyle else AppStyle))
  }

  lemma RulesLoosenExactly(before: Settings, after: Settings)
    ensures MeAdded(before, after) <==> AddsMe(before, after)
    ensures AgentRemoved(before, after) <==> DropsAgent(before, after)
  {
    forall rule { SameKeyIsSameRule(before.rules, rule); }
    forall rule { SameKeyIsSameRule(after.rules, rule); }
    hide KeyOf, KeysOf, SameRule;
  }

  lemma SameKeyIsSameRule(rules: seq<Rule>, rule: Rule)
    ensures KeyOf(rule) in KeysOf(rules) <==> exists other | other in rules :: SameRule(other, rule)
  {
    if exists other | other in rules :: SameRule(other, rule) {
      var other :| other in rules && SameRule(other, rule);
      assert KeyOf(other) == KeyOf(rule);
    }
  }

  lemma StylesLoosenExactly(before: Settings, after: Settings)
    ensures StylesLoosen(before, after) <==> exists id :: !IsLabelled(before, id) && IsLabelled(after, id)
  {
    forall id: string ensures StyleOf(before, id) == LabelledStyle <==> IsLabelled(before, id) {}
    forall id: string ensures StyleOf(after, id) == LabelledStyle <==> IsLabelled(after, id) {}
    if StylesLoosen(before, after) {
      var id :| StyleOf(before, id) == AppStyle && StyleOf(after, id) == LabelledStyle;
      assert !IsLabelled(before, id) && IsLabelled(after, id);
    }
  }

  lemma RestyledExactly(before: Settings, after: Settings, was: map<string, Style>, now: map<string, Style>)
    requires was == map id | id in Restyled(before, after) :: StyleOf(before, id)
    requires now == map id | id in Restyled(before, after) :: StyleOf(after, id)
    ensures StylesMoved(was, now, before, after)
  {
  }

  lemma EachSaysWhatChanged(before: Settings, after: Settings)
    ensures SaysWhatChanged(WordChange(WordOf(before), WordOf(after)), before, after)
    ensures SaysWhatChanged(NameChange(before.name, after.name), before, after)
    ensures SaysWhatChanged(RulesChange(before.rules, after.rules), before, after)
    ensures SaysWhatChanged(IconsChange(before.slackIcons, after.slackIcons), before, after)
    ensures forall was, now | StylesMoved(was, now, before, after) :: SaysWhatChanged(StylesChange(was, now), before, after)
  {
  }

  // Each path is listed exactly when its change could leave a message unlabelled or change how its label looks.
  method ClassifyChange(before: Settings, after: Settings) returns (changes: seq<Loosening>)
    ensures Lists(changes, WordPath) <==> before.word.Or(AgentWord) != after.word.Or(AgentWord)
    ensures Lists(changes, NamePath) <==> before.name != after.name
    ensures Lists(changes, RulesPath) <==> AddsMe(before, after) || DropsAgent(before, after)
    ensures Lists(changes, IconsPath) <==> before.slackIcons != after.slackIcons
    ensures Lists(changes, StylesPath) <==> exists id :: !IsLabelled(before, id) && IsLabelled(after, id)
    ensures forall c | c in changes :: SaysWhatChanged(c, before, after)
  {
    RulesLoosenExactly(before, after);
    StylesLoosenExactly(before, after);
    EachSaysWhatChanged(before, after);
    hide MeAdded, AgentRemoved, AddsMe, DropsAgent, StylesLoosen, Restyled, Lists, IsLabelled, StyleOf, StylesMoved,
         SaysWhatChanged;
    changes := [];
    NothingListed();
    if WordOf(before) != WordOf(after) {
      ListsMore(changes, WordChange(WordOf(before), WordOf(after)));
      changes := changes + [WordChange(WordOf(before), WordOf(after))];
    }
    if before.name != after.name {
      ListsMore(changes, NameChange(before.name, after.name));
      changes := changes + [NameChange(before.name, after.name)];
    }
    if MeAdded(before, after) || AgentRemoved(before, after) {
      ListsMore(changes, RulesChange(before.rules, after.rules));
      changes := changes + [RulesChange(before.rules, after.rules)];
    }
    if before.slackIcons != after.slackIcons {
      ListsMore(changes, IconsChange(before.slackIcons, after.slackIcons));
      changes := changes + [IconsChange(before.slackIcons, after.slackIcons)];
    }
    var styled := Restyled(before, after);
    StylesLoosenAmongRestyled(before, after);
    if exists id | id in styled :: StyleOf(after, id) == LabelledStyle {
      var was := map id | id in styled :: StyleOf(before, id);
      var now := map id | id in styled :: StyleOf(after, id);
      RestyledExactly(before, after, was, now);
      ListsMore(changes, StylesChange(was, now));
      changes := changes + [StylesChange(was, now)];
    }
  }

  // ---------- loosening is never missed ----------

  // Rules of one key match the same queries, as specifically, and say the same.
  lemma SameKeySameRule(one: Rule, two: Rule, query: Query)
    requires KeyOf(one) == KeyOf(two)
    ensures RuleMatches(one, query) <==> RuleMatches(two, query)
    ensures one.says == two.says
    ensures forall other :: IsNarrower(one, other) <==> IsNarrower(two, other)
    ensures forall other :: IsNarrower(other, one) <==> IsNarrower(other, two)
  {
    if one.kinds.Some? {
      assert query.kind in one.kinds.value <==> query.kind in multiset(one.kinds.value);
      assert query.kind in two.kinds.value <==> query.kind in multiset(two.kinds.value);
    }
  }

  // A change that lists no loosening of the rules gives nobody's acts away: what looks like the person after it did before.
  lemma LooksLikeMeBefore(before: Settings, after: Settings, query: Query)
    requires !RulesLoosen(before, after) && LooksLikeMe(after.rules, query)
    ensures LooksLikeMe(before.rules, query)
  {
    var me :| me in after.rules && RuleMatches(me, query) && me.says == Me
              && forall agent | agent in after.rules && RuleMatches(agent, query) && agent.says == Agent ::
                   IsNarrower(me, agent);
    assert KeyOf(me) in KeysOf(before.rules);
    var was :| was in before.rules && KeyOf(was) == KeyOf(me);
    SameKeySameRule(was, me, query);
    forall agent | agent in before.rules && RuleMatches(agent, query) && agent.says == Agent
      ensures IsNarrower(was, agent)
    {
      assert KeyOf(agent) in KeysOf(after.rules);
      var still :| still in after.rules && KeyOf(still) == KeyOf(agent);
      SameKeySameRule(agent, still, query);
    }
  }

  // Loosening is never missed: every act that went out as the agent's before still does.
  lemma LooseningIsNeverMissed(before: Settings, after: Settings, query: Query)
    requires !RulesLoosen(before, after)
    ensures IdentityOf(before.rules, query) == Agent ==> IdentityOf(after.rules, query) == Agent
  {
    if LooksLikeMe(after.rules, query) { LooksLikeMeBefore(before, after, query); }
  }

  // Nor does a rule that is dropped or added without being listed ever change what it is not about.
  lemma TighteningIsNeverListed(before: Settings, after: Settings)
    requires forall rule | rule in after.rules :: rule in before.rules || rule.says == Agent
    requires forall rule | rule in before.rules :: rule in after.rules || rule.says == Me
    ensures !RulesLoosen(before, after)
  {
    forall rule | rule in after.rules && rule in before.rules ensures KeyOf(rule) in KeysOf(before.rules) {
    }
    forall rule | rule in before.rules && rule in after.rules ensures KeyOf(rule) in KeysOf(after.rules) {
    }
  }
}

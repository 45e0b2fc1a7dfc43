/** Match rules of fetches: their meaning, their encoding in requests and their text form. */
module Matching {
  import opened Common
  import opened Json

  datatype Matcher = Matcher(
    caseInsensitive: bool,
    contains: string,
    startsWith: string,
    endsWith: string,
    equals: string,
    equalsNot: string,
    containsAllOf: seq<string>)

  const CONTAINS := "contains"
  const STARTS_WITH := "startsWith"
  const ENDS_WITH := "endsWith"
  const EQUALS := "equals"
  const EQUALS_NOT := "equalsNot"
  const CONTAINS_ALL_OF := "containsAllOf"
  const CASE_INSENSITIVE := "caseInsensitive"

  // ---- meaning ----

  function Lower(s: string): string {
    seq(|s|, i requires 0 <= i < |s| => if 'A' <= s[i] <= 'Z' then (s[i] as int + 32) as char else s[i])
  }

  predicate Contains(s: string, part: string) {
    exists i :: 0 <= i <= |s| && part <= s[i..]
  }

  predicate EndsWith(s: string, part: string) {
    |part| <= |s| && s[|s| - |part|..] == part
  }

  /** All rules are combined with AND; an empty rule always holds. */
  predicate Matches(m: Matcher, path: Path) {
    var fold := (s: string) => if m.caseInsensitive then Lower(s) else s;
    var p := fold(path);
    && Contains(p, fold(m.contains))
    && fold(m.startsWith) <= p
    && EndsWith(p, fold(m.endsWith))
    && (m.equals != "" ==> p == fold(m.equals))
    && (m.equalsNot != "" ==> p != fold(m.equalsNot))
    && forall i :: 0 <= i < |m.containsAllOf| ==> Contains(p, fold(m.containsAllOf[i]))
  }

  ghost predicate HasPart(s: string, part: string) {
    exists a, b :: s == a + part + b
  }

  ghost predicate HasStart(s: string, part: string) {
    exists b :: s == part + b
  }

  ghost predicate HasEnd(s: string, part: string) {
    exists a :: s == a + part
  }

  lemma ContainsMeans(s: string, part: string)
    ensures Contains(s, part) <==> HasPart(s, part)
  {
    if Contains(s, part) {
      var i :| 0 <= i <= |s| && part <= s[i..];
      assert s == s[..i] + part + s[i + |part|..];
    }
    if HasPart(s, part) {
      var a, b :| s == a + part + b;
      assert s[|a|..] == part + b && part <= s[|a|..];
    }
  }

  lemma EndsMean(s: string, part: string)
    ensures EndsWith(s, part) <==> HasEnd(s, part)
    ensures part <= s <==> HasStart(s, part)
  {
    if EndsWith(s, part) { assert s == s[..|s| - |part|] + part; }
    if part <= s { assert s == part + s[|part|..]; }
  }

  /** What a case sensitive matcher asks of a path, rule by rule. */
  lemma MatchesMeans(m: Matcher, path: Path)
    requires !m.caseInsensitive
    ensures Matches(m, path) <==>
              && HasPart(path, m.contains) && HasStart(path, m.startsWith) && HasEnd(path, m.endsWith)
              && (m.equals == "" || path == m.equals) && (m.equalsNot == "" || path != m.equalsNot)
              && (forall i :: 0 <= i < |m.containsAllOf| ==> HasPart(path, m.containsAllOf[i]))
  {
    ContainsMeans(path, m.contains);
    EndsMean(path, m.startsWith);
    EndsMean(path, m.endsWith);
    forall i | 0 <= i < |m.containsAllOf|
      ensures Contains(path, m.containsAllOf[i]) <==> HasPart(path, m.containsAllOf[i])
    {
      ContainsMeans(path, m.containsAllOf[i]);
    }
  }

  function Upper(s: string): string {
    seq(|s|, i requires 0 <= i < |s| => if 'a' <= s[i] <= 'z' then (s[i] as int - 32) as char else s[i])
  }

  /** Folding leaves no capital letter and does not distinguish the cases. */
  lemma LowerIgnoresCase(s: string)
    ensures |Lower(s)| == |s| && (forall i :: 0 <= i < |s| ==> !('A' <= Lower(s)[i] <= 'Z'))
    ensures Lower(Upper(s)) == Lower(s) && Upper(Lower(s)) == Upper(s)
  {
  }

  function Folded(m: Matcher): Matcher {
    Matcher(false, Lower(m.contains), Lower(m.startsWith), Lower(m.endsWith), Lower(m.equals), Lower(m.equalsNot),
            seq(|m.containsAllOf|, i requires 0 <= i < |m.containsAllOf| => Lower(m.containsAllOf[i])))
  }

  /** A case insensitive matcher is the sensitive one on folded texts. */
  lemma MatchesFolded(m: Matcher, path: Path)
    requires m.caseInsensitive
    ensures Matches(m, path) <==> Matches(Folded(m), Lower(path))
  {
    var n := Folded(m);
    forall i | 0 <= i < |m.containsAllOf|
      ensures Contains(Lower(path), n.containsAllOf[i]) <==> Contains(Lower(path), Lower(m.containsAllOf[i]))
    { }
    assert (Lower(m.equals) == "" <==> m.equals == "") && (Lower(m.equalsNot) == "" <==> m.equalsNot == "");
  }

  // ---- encoding ----

  function Members(j: Json): map<string, Json> {
    if j.Obj? then j.members else map[]
  }

  /** `params` with `rules` added to its path object; without rules there is no path object. */
  function With(params: Json, rules: map<string, Json>): Json {
    if rules == map[] then params else Put(params, PATH, Obj(Members(Get(params, PATH)) + rules))
  }

  /** One text rule: an empty rule leaves no trace. */
  function TextRule(key: string, rule: string): map<string, Json> {
    if rule == "" then map[] else map[key := Str(rule)]
  }

  function Strings(items: seq<string>): seq<Json> {
    if items == [] then [] else Strings(items[..|items| - 1]) + [Str(items[|items| - 1])]
  }

  function ListRule(prior: seq<Json>, items: seq<string>): map<string, Json> {
    if items == [] then map[] else map[CONTAINS_ALL_OF := Arr(prior + Strings(items))]
  }

  function FlagRule(flag: bool): map<string, Json> {
    if flag then map[CASE_INSENSITIVE := Bool(true)] else map[]
  }

  function TextRules(m: Matcher): map<string, Json> {
    TextRule(CONTAINS, m.contains) + TextRule(STARTS_WITH, m.startsWith) + TextRule(ENDS_WITH, m.endsWith)
    + TextRule(EQUALS, m.equals) + TextRule(EQUALS_NOT, m.equalsNot)
  }

  /** What a list of the path object holds before anything is appended. */
  function Prior(params: Json): seq<Json> {
    var list := Get(Get(params, PATH), CONTAINS_ALL_OF);
    if list.Arr? then list.items else []
  }

  /** The request parameters that describe a matcher. */
  function Described(params: Json, m: Matcher): Json {
    With(params, TextRules(m) + ListRule(Prior(params), m.containsAllOf) + FlagRule(m.caseInsensitive))
  }

  lemma WithMore(params: Json, rules: map<string, Json>, key: string, value: Json)
    ensures Put(With(params, rules), PATH, Put(Get(With(params, rules), PATH), key, value))
            == With(params, rules[key := value])
  {
    var before := Members(Get(params, PATH));
    assert rules[key := value] != map[] by { assert key in rules[key := value]; }
    assert (before + rules)[key := value] == before + rules[key := value];
    assert rules == map[] ==> before[key := value] == before + rules[key := value];
    assert Put(With(params, rules), PATH, Obj(before + rules[key := value])).members
           == Put(params, PATH, Obj(before + rules[key := value])).members;
  }

  /** `if (!rule.empty()) params[PATH][key] = rule;` */
  method AddTextRule(params: Json, key: string, rule: string, ghost base: Json, ghost rules: map<string, Json>)
    returns (r: Json)
    requires params == With(base, rules)
    ensures r == With(base, rules + TextRule(key, rule))
  {
    r := params;
    assert rules + map[] == rules;
    if rule != "" {
      WithMore(base, rules, key, Str(rule));
      assert rules + map[key := Str(rule)] == rules[key := Str(rule)];
      r := Put(params, PATH, Put(Get(params, PATH), key, Str(rule)));
    }
  }

  /** Appending one more item to the list rule. */
  lemma ListGrows(base: Json, rules: map<string, Json>, items: seq<string>, i: nat)
    requires i < |items| && CONTAINS_ALL_OF !in rules
    ensures var r := With(base, rules + ListRule(Prior(base), items[..i]));
            var list := Append(Get(Get(r, PATH), CONTAINS_ALL_OF), Str(items[i]));
            Put(r, PATH, Put(Get(r, PATH), CONTAINS_ALL_OF, list))
            == With(base, rules + ListRule(Prior(base), items[..i + 1]))
  {
    var soFar := rules + ListRule(Prior(base), items[..i]);
    var list := Arr(Prior(base) + Strings(items[..i + 1]));
    assert items[..i + 1] == items[..i] + [items[i]];
    ListAppended(base, rules, items[..i], items[i]);
    WithMore(base, soFar, CONTAINS_ALL_OF, list);
    NextListRule(rules, Prior(base), items[..i], items[..i + 1]);
  }

  lemma NextListRule(rules: map<string, Json>, prior: seq<Json>, items: seq<string>, more: seq<string>)
    requires more != []
    ensures (rules + ListRule(prior, items))[CONTAINS_ALL_OF := Arr(prior + Strings(more))]
            == rules + ListRule(prior, more)
  {
  }

  lemma ListAppended(base: Json, rules: map<string, Json>, items: seq<string>, item: string)
    requires CONTAINS_ALL_OF !in rules
    ensures Append(Get(Get(With(base, rules + ListRule(Prior(base), items)), PATH), CONTAINS_ALL_OF), Str(item))
            == Arr(Prior(base) + Strings(items + [item]))
  {
    ListSoFar(base, rules, items);
    assert (items + [item])[..|items|] == items;
    assert (Prior(base) + Strings(items)) + [Str(item)] == Prior(base) + (Strings(items) + [Str(item)]);
  }

  lemma ListSoFar(base: Json, rules: map<string, Json>, items: seq<string>)
    requires CONTAINS_ALL_OF !in rules
    ensures var list := Get(Get(With(base, rules + ListRule(Prior(base), items)), PATH), CONTAINS_ALL_OF);
            (if list.Arr? then list.items else []) == Prior(base) + Strings(items)
  {
  }

  /** The loop that appends to the list rule. */
  method AddListRule(params: Json, items: seq<string>, ghost base: Json, ghost rules: map<string, Json>)
    returns (r: Json)
    requires params == With(base, rules) && CONTAINS_ALL_OF !in rules
    ensures r == With(base, rules + ListRule(Prior(base), items))
  {
    r := params;
    assert rules + ListRule(Prior(base), items[..0]) == rules;
    for i := 0 to |items|
      invariant r == With(base, rules + ListRule(Prior(base), items[..i]))
    {
      ListGrows(base, rules, items, i);
      var list := Append(Get(Get(r, PATH), CONTAINS_ALL_OF), Str(items[i]));
      r := Put(r, PATH, Put(Get(r, PATH), CONTAINS_ALL_OF, list));
    }
    assert items[..|items|] == items;
  }

  method AddTextRules(params: Json, m: Matcher) returns (r: Json)
    ensures r == With(params, TextRules(m))
  {
    ghost var rules: map<string, Json> := map[];
    r := AddTextRule(params, CONTAINS, m.contains, params, rules);
    assert rules + TextRule(CONTAINS, m.contains) == TextRule(CONTAINS, m.contains);
    rules := TextRule(CONTAINS, m.contains);
    r := AddTextRule(r, STARTS_WITH, m.startsWith, params, rules);
    rules := rules + TextRule(STARTS_WITH, m.startsWith);
    r := AddTextRule(r, ENDS_WITH, m.endsWith, params, rules);
    rules := rules + TextRule(ENDS_WITH, m.endsWith);
    r := AddTextRule(r, EQUALS, m.equals, params, rules);
    rules := rules + TextRule(EQUALS, m.equals);
    r := AddTextRule(r, EQUALS_NOT, m.equalsNot, params, rules);
  }

  method AddFlagRule(params: Json, flag: bool, ghost base: Json, ghost rules: map<string, Json>) returns (r: Json)
    requires params == With(base, rules)
    ensures r == With(base, rules + FlagRule(flag))
  {
    r := params;
    assert rules + map[] == rules;
    if flag {
      WithMore(base, rules, CASE_INSENSITIVE, Bool(true));
      assert rules + FlagRule(true) == rules[CASE_INSENSITIVE := Bool(true)];
      r := Put(r, PATH, Put(Get(r, PATH), CASE_INSENSITIVE, Bool(true)));
    }
  }

  /** `addPathInformation`. */
  method AddPathInformation(params: Json, m: Matcher) returns (r: Json)
    ensures r == Described(params, m)
  {
    RuleKeysDiffer();
    FiveRules(CONTAINS, STARTS_WITH, ENDS_WITH, EQUALS, EQUALS_NOT, m);
    r := AddTextRules(params, m);
    r := AddListRule(r, m.containsAllOf, params, TextRules(m));
    r := AddFlagRule(r, m.caseInsensitive, params, TextRules(m) + ListRule(Prior(params), m.containsAllOf));
  }

  // ---- decoding ----

  function TextsOf(items: seq<Json>): seq<string> {
    if items == [] then [] else TextsOf(items[..|items| - 1]) + [AsString(items[|items| - 1])]
  }

  /** The matcher a path object stands for. */
  function FromPath(path: Json): Matcher {
    var list := Get(path, CONTAINS_ALL_OF);
    Matcher(Get(path, CASE_INSENSITIVE) == Bool(true),
            AsString(Get(path, CONTAINS)), AsString(Get(path, STARTS_WITH)), AsString(Get(path, ENDS_WITH)),
            AsString(Get(path, EQUALS)), AsString(Get(path, EQUALS_NOT)),
            if list.Arr? then TextsOf(list.items) else [])
  }

  lemma {:induction false} TextsRoundTrip(items: seq<string>)
    ensures |Strings(items)| == |items| && TextsOf(Strings(items)) == items
  {
    if items != [] {
      var n := |items| - 1;
      TextsRoundTrip(items[..n]);
      assert Strings(items)[..|Strings(items)| - 1] == Strings(items[..n]);
      assert items == items[..n] + [items[n]];
    }
  }

  function AllRules(m: Matcher): map<string, Json> {
    TextRules(m) + ListRule([], m.containsAllOf) + FlagRule(m.caseInsensitive)
  }

  lemma WithGet(params: Json, rules: map<string, Json>, key: string)
    requires !IsMember(params, PATH)
    ensures Get(Get(With(params, rules), PATH), key) == Get(Obj(rules), key)
  {
    assert map[] + rules == rules;
  }

  lemma RuleOf(params: Json, m: Matcher, key: string)
    requires !IsMember(params, PATH)
    ensures Get(Get(Described(params, m), PATH), key) == Get(Obj(AllRules(m)), key)
  {
    assert Prior(params) == [];
    WithGet(params, AllRules(m), key);
  }

  lemma RuleKeysDiffer()
    ensures |CONTAINS| < 13 && |STARTS_WITH| < 13 && |ENDS_WITH| < 13 && |EQUALS| < 13 && |EQUALS_NOT| < 13
    ensures |CONTAINS_ALL_OF| == 13 && |CASE_INSENSITIVE| == 15
    ensures STARTS_WITH != CONTAINS
    ensures ENDS_WITH != CONTAINS && ENDS_WITH != STARTS_WITH
    ensures EQUALS != CONTAINS && EQUALS != STARTS_WITH && EQUALS != ENDS_WITH
    ensures EQUALS_NOT != CONTAINS && EQUALS_NOT != STARTS_WITH && EQUALS_NOT != ENDS_WITH && EQUALS_NOT != EQUALS
  {
    assert ENDS_WITH[0] == 'e' && CONTAINS[0] == 'c';
  }

  /** The rule entered last is found under its key, the others stay where they are. */
  lemma LastRule(rules: map<string, Json>, key: string, rule: string)
    requires key !in rules
    ensures AsString(Get(Obj(rules + TextRule(key, rule)), key)) == rule
    ensures forall k :: k != key ==> Get(Obj(rules + TextRule(key, rule)), k) == Get(Obj(rules), k)
    ensures forall k :: k in rules + TextRule(key, rule) ==> k == key || k in rules
  {
  }

  lemma FiveRules(a: string, b: string, c: string, d: string, e: string, m: Matcher)
    requires b != a && c != a && c != b && d != a && d != b && d != c && e != a && e != b && e != c && e != d
    ensures var t := Obj(TextRule(a, m.contains) + TextRule(b, m.startsWith) + TextRule(c, m.endsWith)
                         + TextRule(d, m.equals) + TextRule(e, m.equalsNot));
            && AsString(Get(t, a)) == m.contains && AsString(Get(t, b)) == m.startsWith
            && AsString(Get(t, c)) == m.endsWith && AsString(Get(t, d)) == m.equals
            && AsString(Get(t, e)) == m.equalsNot
            && forall k :: k in t.members ==> k in [a, b, c, d, e]
  {
    var r := TextRule(a, m.contains);
    LastRule(r, b, m.startsWith);
    r := r + TextRule(b, m.startsWith);
    LastRule(r, c, m.endsWith);
    r := r + TextRule(c, m.endsWith);
    LastRule(r, d, m.equals);
    r := r + TextRule(d, m.equals);
    LastRule(r, e, m.equalsNot);
  }

  /** List and flag have their own keys, so a text rule is found in the whole object as among the texts. */
  lemma TextRuleFound(params: Json, m: Matcher, key: string)
    requires !IsMember(params, PATH) && key != CONTAINS_ALL_OF && key != CASE_INSENSITIVE
    ensures Get(Get(Described(params, m), PATH), key) == Get(Obj(TextRules(m)), key)
  {
    RuleOf(params, m, key);
  }

  lemma OtherRulesFound(params: Json, m: Matcher)
    requires !IsMember(params, PATH) && CONTAINS_ALL_OF != CASE_INSENSITIVE
    requires CONTAINS_ALL_OF !in TextRules(m) && CASE_INSENSITIVE !in TextRules(m)
    ensures var path := Get(Described(params, m), PATH);
            && Get(path, CONTAINS_ALL_OF) == (if m.containsAllOf == [] then Null else Arr(Strings(m.containsAllOf)))
            && Get(path, CASE_INSENSITIVE) == (if m.caseInsensitive then Bool(true) else Null)
  {
    RuleOf(params, m, CONTAINS_ALL_OF);
    RuleOf(params, m, CASE_INSENSITIVE);
    assert [] + Strings(m.containsAllOf) == Strings(m.containsAllOf);
  }

  lemma RulesFound(params: Json, m: Matcher)
    requires !IsMember(params, PATH)
    ensures var path := Get(Described(params, m), PATH);
            && AsString(Get(path, CONTAINS)) == m.contains && AsString(Get(path, STARTS_WITH)) == m.startsWith
            && AsString(Get(path, ENDS_WITH)) == m.endsWith && AsString(Get(path, EQUALS)) == m.equals
            && AsString(Get(path, EQUALS_NOT)) == m.equalsNot
  {
    RuleKeysDiffer();
    FiveRules(CONTAINS, STARTS_WITH, ENDS_WITH, EQUALS, EQUALS_NOT, m);
    TextRuleFound(params, m, CONTAINS);
    TextRuleFound(params, m, STARTS_WITH);
    TextRuleFound(params, m, ENDS_WITH);
    TextRuleFound(params, m, EQUALS);
    TextRuleFound(params, m, EQUALS_NOT);
  }

  /** The names of the rules on the wire, and nothing for a rule that is empty. */
  lemma RuleFields(params: Json, m: Matcher)
    requires !IsMember(params, "path")
    ensures var path := Get(Described(params, m), "path");
            && AsString(Get(path, "contains")) == m.contains && AsString(Get(path, "startsWith")) == m.startsWith
            && AsString(Get(path, "endsWith")) == m.endsWith && AsString(Get(path, "equals")) == m.equals
            && AsString(Get(path, "equalsNot")) == m.equalsNot
            && Get(path, "containsAllOf") == (if m.containsAllOf == [] then Null else Arr(Strings(m.containsAllOf)))
            && Get(path, "caseInsensitive") == (if m.caseInsensitive then Bool(true) else Null)
  {
    RulesFound(params, m);
    RuleKeysDiffer();
    FiveRules(CONTAINS, STARTS_WITH, ENDS_WITH, EQUALS, EQUALS_NOT, m);
    OtherRulesFound(params, m);
  }

  /**
   Decoding what `addPathInformation` wrote returns the same matcher: every non-empty
   rule, the list in order, and nothing for empty rules.
   */
  lemma MatcherRoundTrip(params: Json, m: Matcher)
    requires !IsMember(params, PATH)
    ensures FromPath(Get(Described(params, m), PATH)) == m
  {
    RulesFound(params, m);
    RuleKeysDiffer();
    FiveRules(CONTAINS, STARTS_WITH, ENDS_WITH, EQUALS, EQUALS_NOT, m);
    OtherRulesFound(params, m);
    TextsRoundTrip(m.containsAllOf);
  }

  /** Different matchers are described differently. */
  lemma DescriptionInjective(params: Json, m: Matcher, n: Matcher)
    requires !IsMember(params, PATH) && Described(params, m) == Described(params, n)
    ensures m == n
  {
    MatcherRoundTrip(params, m);
    MatcherRoundTrip(params, n);
  }

  // ---- text form ----

  function Join(parts: seq<string>, separator: string): string {
    if parts == [] then ""
    else if |parts| == 1 then parts[0]
    else Join(parts[..|parts| - 1], separator) + separator + parts[|parts| - 1]
  }

  function Text(key: string, rule: string): seq<string> {
    if rule == "" then [] else [key + "=" + rule]
  }

  /** The texts of the rules that are present, in the order of printing. */
  function RuleTexts(m: Matcher): seq<string> {
    (if m.caseInsensitive then [CASE_INSENSITIVE] else [])
    + Text(CONTAINS, m.contains) + Text(STARTS_WITH, m.startsWith) + Text(ENDS_WITH, m.endsWith)
    + Text(EQUALS, m.equals) + Text(EQUALS_NOT, m.equalsNot)
    + (if m.containsAllOf == [] then [] else [CONTAINS_ALL_OF + "=[" + Join(m.containsAllOf, ", ") + "]"])
  }

  function Given(present: bool, text: string): seq<string> {
    if present then [text] else []
  }

  /** What is printed: every present rule under its name, in this order, and nothing else. */
  lemma RuleTextsAre(m: Matcher)
    ensures RuleTexts(m) ==
              Given(m.caseInsensitive, "caseInsensitive")
              + Given(m.contains != "", "contains=" + m.contains)
              + Given(m.startsWith != "", "startsWith=" + m.startsWith)
              + Given(m.endsWith != "", "endsWith=" + m.endsWith)
              + Given(m.equals != "", "equals=" + m.equals)
              + Given(m.equalsNot != "", "equalsNot=" + m.equalsNot)
              + Given(m.containsAllOf != [], "containsAllOf=[" + Join(m.containsAllOf, ", ") + "]")
  {
    assert CONTAINS + "=" == "contains=" && STARTS_WITH + "=" == "startsWith=" && ENDS_WITH + "=" == "endsWith=";
    assert EQUALS + "=" == "equals=" && EQUALS_NOT + "=" == "equalsNot=" && CONTAINS_ALL_OF + "=[" == "containsAllOf=[";
  }

  predicate NonEmpty(parts: seq<string>) {
    forall i :: 0 <= i < |parts| ==> parts[i] != ""
  }

  lemma {:induction false} JoinNonEmpty(parts: seq<string>, separator: string)
    requires NonEmpty(parts)
    ensures Join(parts, separator) == "" <==> parts == []
  {
    if |parts| > 1 { JoinNonEmpty(parts[..|parts| - 1], separator); }
  }

  lemma JoinOne(parts: seq<string>, separator: string, part: string)
    ensures Join(parts + [part], separator)
            == if parts == [] then part else Join(parts, separator) + separator + part
  {
    assert (parts + [part])[..|parts + [part]| - 1] == parts;
  }

  /** One block of `print()`: a separator unless nothing is printed yet, then the rule. */
  method PrintRule(msg: string, key: string, rule: string, ghost parts: seq<string>) returns (r: string)
    requires msg == Join(parts, ", ") && NonEmpty(parts)
    ensures r == Join(parts + Text(key, rule), ", ") && NonEmpty(parts + Text(key, rule))
  {
    r := msg;
    JoinNonEmpty(parts, ", ");
    if rule != "" {
      JoinOne(parts, ", ", key + "=" + rule);
      if r != "" { r := r + ", "; }
      r := r + (key + "=" + rule);
    } else {
      assert parts + [] == parts;
    }
  }

  /** The items of the list block: append each item and ", ", then drop the last two characters. */
  method PrintItems(head: string, items: seq<string>) returns (r: string)
    requires items != []
    ensures r == head + Join(items, ", ")
  {
    r := head;
    for i := 0 to |items|
      invariant i > 0 ==> r == head + (Join(items[..i], ", ") + ", ")
      invariant i == 0 ==> r == head
    {
      JoinOne(items[..i], ", ", items[i]);
      assert items[..i + 1] == items[..i] + [items[i]];
      AppendItem(head, Join(items[..i], ", ") + ", ", items[i]);
      r := r + (items[i] + ", ");
    }
    assert items[..|items|] == items;
    ghost var all := head + Join(items, ", ");
    assert r == all + ", ";
    r := r[..|r| - 1];
    r := r[..|r| - 1];
    assert r == all;
  }

  lemma AppendItem(head: string, soFar: string, item: string)
    ensures (head + soFar) + (item + ", ") == head + ((soFar + item) + ", ")
  {
  }

  /** The list block of `print()`. */
  method PrintList(msg: string, items: seq<string>, ghost parts: seq<string>) returns (r: string)
    requires msg == Join(parts, ", ") && NonEmpty(parts) && items != []
    ensures r == Join(parts + [CONTAINS_ALL_OF + "=[" + Join(items, ", ") + "]"], ", ")
  {
    JoinNonEmpty(parts, ", ");
    JoinOne(parts, ", ", CONTAINS_ALL_OF + "=[" + Join(items, ", ") + "]");
    r := msg;
    if r != "" { r := r + ", "; }
    ghost var before := r;
    r := r + (CONTAINS_ALL_OF + "=[");
    r := PrintItems(r, items);
    r := r + "]";
    AppendList(before, CONTAINS_ALL_OF + "=[", Join(items, ", "));
  }

  lemma AppendList(before: string, open: string, items: string)
    ensures ((before + open) + items) + "]" == before + (open + items + "]")
  {
  }

  /** `print()`: joining the texts of the rules that are present. */
  method Print(m: Matcher) returns (msg: string)
    ensures msg == Join(RuleTexts(m), ", ")
  {
    msg := "";
    ghost var parts: seq<string> := [];
    if m.caseInsensitive {
      msg := msg + CASE_INSENSITIVE;
      parts := [CASE_INSENSITIVE];
    }
    msg := PrintRule(msg, CONTAINS, m.contains, parts);
    parts := parts + Text(CONTAINS, m.contains);
    msg := PrintRule(msg, STARTS_WITH, m.startsWith, parts);
    parts := parts + Text(STARTS_WITH, m.startsWith);
    msg := PrintRule(msg, ENDS_WITH, m.endsWith, parts);
    parts := parts + Text(ENDS_WITH, m.endsWith);
    msg := PrintRule(msg, EQUALS, m.equals, parts);
    parts := parts + Text(EQUALS, m.equals);
    msg := PrintRule(msg, EQUALS_NOT, m.equalsNot, parts);
    parts := parts + Text(EQUALS_NOT, m.equalsNot);
    if m.containsAllOf != [] {
      msg := PrintList(msg, m.containsAllOf, parts);
    } else {
      assert parts + [] == parts;
    }
  }
}

/** Properties of `RuleEngine.Interpret`: which statements appear, in what
    order, and what each line type yields. */
module RuleEngineFacts {
  import opened Wrappers
  import opened RuleEngine

  /** The ten statements are pairwise distinct. */
  lemma StatementTableDistinct()
    ensures NoDuplicates(StatementTable)
  {
  }

  /** Distinct rules append distinct statements. */
  lemma TextInjective(r1: Rule, r2: Rule)
    ensures Text(r1) == Text(r2) ==> r1 == r2
  {
    StatementTableDistinct();
    TableEntryAtRank(r1);
    TableEntryAtRank(r2);
  }

  /** The twelve spellings are pairwise distinct, so each reads back as its
      own word. */
  lemma WordOfSpelling(w: Word)
    requires w != Unlisted
    ensures WordOf(Spelling(w)) == w
  {
  }

  /** A string is read as a word exactly when it is that word's spelling. */
  lemma WordOfIs(s: string, w: Word)
    requires w != Unlisted
    ensures WordOf(s) == w <==> s == Spelling(w)
  {
    if s == Spelling(w) {
      WordOfSpelling(w);
    }
  }

  /** The same for an attribute that may be missing. */
  lemma AttrWordIs(attrs: Attrs, key: string, w: Word)
    requires w != Unlisted
    ensures AttrWord(attrs, key) == Some(w) <==> Get(attrs, key) == Some(Spelling(w))
  {
    if key in attrs {
      WordOfIs(attrs[key], w);
    }
  }

  /** Evaluating a rule over words agrees with the source's string tests. */
  lemma FiresIffGuard(r: Rule, lineType: string, attrs: Attrs)
    ensures Fires(r, Read(lineType, attrs)) <==> Guard(r, lineType, attrs)
  {
    match r
    case Vitality => VitalityIffGuard(lineType, attrs);
    case Openness => OpennessIffGuard(lineType, attrs);
    case Ambition => AmbitionIffGuard(lineType, attrs);
    case SteadyMind => SteadyMindIffGuard(lineType, attrs);
    case ParentDependence => ParentDependenceIffGuard(lineType, attrs);
    case WeakWill => WeakWillIffGuard(lineType, attrs);
    case Kindness => KindnessIffGuard(lineType, attrs);
    case Materialism => MaterialismIffGuard(lineType, attrs);
    case EasyLife => EasyLifeIffGuard(lineType, attrs);
    case UnstableLife => UnstableLifeIffGuard(lineType, attrs);
  }

  lemma VitalityIffGuard(lineType: string, attrs: Attrs)
    ensures Fires(Vitality, Read(lineType, attrs)) <==> Guard(Vitality, lineType, attrs)
  {
    var rd := Read(lineType, attrs);
    assert (rd.line == Life) == (lineType == "life") by {
      WordOfIs(lineType, Life);
    }
    assert (rd.length == Some(Long)) == (Get(attrs, LengthKey) == Some("long")) by {
      AttrWordIs(attrs, LengthKey, Long);
    }
    assert (rd.breaks == Some(NoneWord)) == (Get(attrs, BreaksKey) == Some("none")) by {
      AttrWordIs(attrs, BreaksKey, NoneWord);
    }
  }

  lemma OpennessIffGuard(lineType: string, attrs: Attrs)
    ensures Fires(Openness, Read(lineType, attrs)) <==> Guard(Openness, lineType, attrs)
  {
    var rd := Read(lineType, attrs);
    assert (rd.line == Heart) == (lineType == "heart") by {
      WordOfIs(lineType, Heart);
    }
    assert (rd.slope == Some(Up)) == (Get(attrs, SlopeKey) == Some("up")) by {
      AttrWordIs(attrs, SlopeKey, Up);
    }
    assert (rd.curv == Some(High)) == (Get(attrs, CurvKey) == Some("high")) by {
      AttrWordIs(attrs, CurvKey, High);
    }
  }

  lemma AmbitionIffGuard(lineType: string, attrs: Attrs)
    ensures Fires(Ambition, Read(lineType, attrs)) <==> Guard(Ambition, lineType, attrs)
  {
    var rd := Read(lineType, attrs);
    assert (rd.line == Fate) == (lineType == "fate") by {
      WordOfIs(lineType, Fate);
    }
    assert (rd.line == Life) == (lineType == "life") by {
      WordOfIs(lineType, Life);
    }
    assert (rd.breaks == Some(Many)) == (Get(attrs, BreaksKey) == Some("many")) by {
      AttrWordIs(attrs, BreaksKey, Many);
    }
    assert (rd.length == Some(Long)) == (Get(attrs, LengthKey) == Some("long")) by {
      AttrWordIs(attrs, LengthKey, Long);
    }
  }

  lemma SteadyMindIffGuard(lineType: string, attrs: Attrs)
    ensures Fires(SteadyMind, Read(lineType, attrs)) <==> Guard(SteadyMind, lineType, attrs)
  {
    var rd := Read(lineType, attrs);
    assert (rd.line == Head) == (lineType == "head") by {
      WordOfIs(lineType, Head);
    }
    assert (rd.breaks == Some(NoneWord)) == (Get(attrs, BreaksKey) == Some("none")) by {
      AttrWordIs(attrs, BreaksKey, NoneWord);
    }
    assert (rd.curv == Some(High)) == (Get(attrs, CurvKey) == Some("high")) by {
      AttrWordIs(attrs, CurvKey, High);
    }
  }

  lemma ParentDependenceIffGuard(lineType: string, attrs: Attrs)
    ensures Fires(ParentDependence, Read(lineType, attrs)) <==> Guard(ParentDependence, lineType, attrs)
  {
    var rd := Read(lineType, attrs);
    assert (rd.line == Fate) == (lineType == "fate") by {
      WordOfIs(lineType, Fate);
    }
    assert (rd.line == Life) == (lineType == "life") by {
      WordOfIs(lineType, Life);
    }
    assert (rd.breaks == Some(NoneWord)) == (Get(attrs, BreaksKey) == Some("none")) by {
      AttrWordIs(attrs, BreaksKey, NoneWord);
    }
    assert (rd.length == Some(Short)) == (Get(attrs, LengthKey) == Some("short")) by {
      AttrWordIs(attrs, LengthKey, Short);
    }
  }

  lemma WeakWillIffGuard(lineType: string, attrs: Attrs)
    ensures Fires(WeakWill, Read(lineType, attrs)) <==> Guard(WeakWill, lineType, attrs)
  {
    var rd := Read(lineType, attrs);
    assert (rd.line == Head) == (lineType == "head") by {
      WordOfIs(lineType, Head);
    }
    assert (rd.breaks == Some(NoneWord)) == (Get(attrs, BreaksKey) == Some("none")) by {
      AttrWordIs(attrs, BreaksKey, NoneWord);
    }
    assert (rd.curv == Some(High)) == (Get(attrs, CurvKey) == Some("high")) by {
      AttrWordIs(attrs, CurvKey, High);
    }
  }

  lemma KindnessIffGuard(lineType: string, attrs: Attrs)
    ensures Fires(Kindness, Read(lineType, attrs)) <==> Guard(Kindness, lineType, attrs)
  {
    var rd := Read(lineType, attrs);
    assert (rd.line == Heart) == (lineType == "heart") by {
      WordOfIs(lineType, Heart);
    }
    assert (rd.slope == Some(Flat)) == (Get(attrs, SlopeKey) == Some("flat")) by {
      AttrWordIs(attrs, SlopeKey, Flat);
    }
    assert (rd.slope == Some(Up)) == (Get(attrs, SlopeKey) == Some("up")) by {
      AttrWordIs(attrs, SlopeKey, Up);
    }
  }

  lemma MaterialismIffGuard(lineType: string, attrs: Attrs)
    ensures Fires(Materialism, Read(lineType, attrs)) <==> Guard(Materialism, lineType, attrs)
  {
    var rd := Read(lineType, attrs);
    assert (rd.line == Heart) == (lineType == "heart") by {
      WordOfIs(lineType, Heart);
    }
    assert (rd.slope == Some(Down)) == (Get(attrs, SlopeKey) == Some("down")) by {
      AttrWordIs(attrs, SlopeKey, Down);
    }
    assert (rd.breaks == Some(NoneWord)) == (Get(attrs, BreaksKey) == Some("none")) by {
      AttrWordIs(attrs, BreaksKey, NoneWord);
    }
  }

  lemma EasyLifeIffGuard(lineType: string, attrs: Attrs)
    ensures Fires(EasyLife, Read(lineType, attrs)) <==> Guard(EasyLife, lineType, attrs)
  {
    var rd := Read(lineType, attrs);
    assert (rd.line == Fate) == (lineType == "fate") by {
      WordOfIs(lineType, Fate);
    }
    assert (rd.line == Life) == (lineType == "life") by {
      WordOfIs(lineType, Life);
    }
    assert (rd.breaks == Some(NoneWord)) == (Get(attrs, BreaksKey) == Some("none")) by {
      AttrWordIs(attrs, BreaksKey, NoneWord);
    }
  }

  lemma UnstableLifeIffGuard(lineType: string, attrs: Attrs)
    ensures Fires(UnstableLife, Read(lineType, attrs)) <==> Guard(UnstableLife, lineType, attrs)
  {
    var rd := Read(lineType, attrs);
    assert (rd.line == Fate) == (lineType == "fate") by {
      WordOfIs(lineType, Fate);
    }
    assert (rd.breaks == Some(Many)) == (Get(attrs, BreaksKey) == Some("many")) by {
      AttrWordIs(attrs, BreaksKey, Many);
    }
  }

  /** Removing duplicates changes a sequence exactly when it has some. */
  lemma {:induction false} DedupIdentity<T(!new)>(s: seq<T>)
    ensures Dedup(s) == s <==> NoDuplicates(s)
  {
    if |s| > 0 && NoDuplicates(s) {
      var init := s[..|s| - 1];
      assert NoDuplicates(init) by {
        forall i, j | 0 <= i < j < |init| ensures init[i] != init[j] {
          assert init[i] == s[i] && init[j] == s[j];
        }
      }
      DedupIdentity(init);
      assert s[|s| - 1] !in init by {
        forall i | 0 <= i < |init| ensures init[i] != s[|s| - 1] {
          assert init[i] == s[i];
        }
      }
      assert init + [s[|s| - 1]] == s;
    }
  }

  /** Removing duplicates twice is the same as removing them once. */
  lemma DedupIdempotent<T(!new)>(s: seq<T>)
    ensures Dedup(Dedup(s)) == Dedup(s)
  {
    DedupIdentity(Dedup(s));
  }

  /** The working list never holds the same statement twice, because each
      rule fires at most once and the statements are pairwise distinct. */
  lemma StatementsDistinct(lineType: string, attrs: Attrs)
    ensures NoDuplicates(Statements(lineType, attrs))
  {
    var fired := FiredRules(Read(lineType, attrs), |RuleTable|);
    var s := Statements(lineType, attrs);
    forall i, j | 0 <= i < j < |s| ensures s[i] != s[j] {
      TextInjective(fired[i], fired[j]);
    }
  }

  /** For this rule table the final duplicate removal never removes anything. */
  lemma InterpretIsStatements(lineType: string, attrs: Attrs)
    ensures Interpret(lineType, attrs) == Statements(lineType, attrs)
  {
    StatementsDistinct(lineType, attrs);
    DedupIdentity(Statements(lineType, attrs));
  }

  /** A rule's statement is in the output iff the rule's guard holds. */
  lemma InterpretMember(lineType: string, attrs: Attrs, r: Rule)
    ensures Text(r) in Interpret(lineType, attrs) <==> Guard(r, lineType, attrs)
  {
    var rd := Read(lineType, attrs);
    var fired := FiredRules(rd, |RuleTable|);
    assert r in fired <==> Guard(r, lineType, attrs) by {
      FiredRulesMember(rd, |RuleTable|, r);
      FiresIffGuard(r, lineType, attrs);
    }
    assert Text(r) in Texts(fired) <==> r in fired by {
      TextsMember(fired, r);
    }
    InterpretIsStatements(lineType, attrs);
  }

  /** A rule's statement is among a list's statements iff the rule is in the
      list, since distinct rules append distinct statements. */
  lemma TextsMember(rules: seq<Rule>, r: Rule)
    ensures Text(r) in Texts(rules) <==> r in rules
  {
    if Text(r) in Texts(rules) {
      var i :| 0 <= i < |rules| && Texts(rules)[i] == Text(r);
      TextInjective(rules[i], r);
    }
    if r in rules {
      var i :| 0 <= i < |rules| && rules[i] == r;
      assert Texts(rules)[i] == Text(r);
    }
  }

  /** Nothing but the statement of a firing rule ever appears in the output. */
  lemma InterpretOnlyRuleStatements(lineType: string, attrs: Attrs, t: string)
    requires t in Interpret(lineType, attrs)
    ensures exists r :: Guard(r, lineType, attrs) && Text(r) == t
  {
    var fired := FiredRules(Read(lineType, attrs), |RuleTable|);
    InterpretIsStatements(lineType, attrs);
    var i :| 0 <= i < |fired| && Statements(lineType, attrs)[i] == t;
    FiredRulesMember(Read(lineType, attrs), |RuleTable|, fired[i]);
    FiresIffGuard(fired[i], lineType, attrs);
  }

  /** Over words: two fired rules appear in table order. */
  lemma FiredOrder(rd: Reading, n: nat, r1: Rule, r2: Rule)
    requires n <= |RuleTable|
    requires Fires(r1, rd) && Fires(r2, rd) && Rank(r1) < Rank(r2) < n
    ensures var fired := FiredRules(rd, n);
      exists i, j :: 0 <= i < j < |fired| && fired[i] == r1 && fired[j] == r2
  {
    var fired := FiredRules(rd, n);
    FiredRulesMember(rd, n, r1);
    FiredRulesMember(rd, n, r2);
    var i :| 0 <= i < |fired| && fired[i] == r1;
    var j :| 0 <= j < |fired| && fired[j] == r2;
    assert Rank(fired[i]) < Rank(fired[j]);
  }

  /** The output follows the rule order: when two rules fire, the statement
      of the earlier rule comes first. */
  lemma InterpretOrder(lineType: string, attrs: Attrs, r1: Rule, r2: Rule)
    requires Guard(r1, lineType, attrs) && Guard(r2, lineType, attrs)
    requires Rank(r1) < Rank(r2)
    ensures var out := Interpret(lineType, attrs);
      exists i, j :: 0 <= i < j < |out| && out[i] == Text(r1) && out[j] == Text(r2)
  {
    var rd := Read(lineType, attrs);
    var fired := FiredRules(rd, |RuleTable|);
    FiresIffGuard(r1, lineType, attrs);
    FiresIffGuard(r2, lineType, attrs);
    FiredOrder(rd, |RuleTable|, r1, r2);
    var i, j :| 0 <= i < j < |fired| && fired[i] == r1 && fired[j] == r2;
    InterpretIsStatements(lineType, attrs);
    assert Texts(fired)[i] == Text(r1) && Texts(fired)[j] == Text(r2);
  }

  /** Rules only look at the four attribute keys: two dictionaries that agree
      on them give the same output, whatever else they hold. */
  lemma InterpretReadsOnlyAttributeKeys(lineType: string, a1: Attrs, a2: Attrs)
    requires Get(a1, LengthKey) == Get(a2, LengthKey) && Get(a1, SlopeKey) == Get(a2, SlopeKey)
    requires Get(a1, CurvKey) == Get(a2, CurvKey) && Get(a1, BreaksKey) == Get(a2, BreaksKey)
    ensures Interpret(lineType, a1) == Interpret(lineType, a2)
  {
    assert Read(lineType, a1) == Read(lineType, a2);
  }

  /** Two rule lists in table order that hold the same rules are equal. */
  lemma {:induction false} StrictlyRankedUnique(s: seq<Rule>, t: seq<Rule>)
    requires StrictlyRanked(s) && StrictlyRanked(t)
    requires forall r :: r in s <==> r in t
    ensures s == t
  {
    assert |t| > 0 ==> t[0] in t;
    if |s| > 0 {
      assert s[0] in t && t[0] in s;
      assert s[0] == t[0] by {
        var i :| 0 <= i < |t| && t[i] == s[0];
        var j :| 0 <= j < |s| && s[j] == t[0];
        assert Rank(t[0]) <= Rank(s[0]) && Rank(s[0]) <= Rank(t[0]);
        TableEntryAtRank(s[0]);
        TableEntryAtRank(t[0]);
      }
      forall r ensures r in s[1..] <==> r in t[1..] {
        if r in s[1..] {
          var i :| 1 <= i < |s| && s[i] == r;
          assert r in t;
        }
        if r in t[1..] {
          var i :| 1 <= i < |t| && t[i] == r;
          assert r in s;
        }
      }
      StrictlyRankedUnique(s[1..], t[1..]);
    }
  }

  /** The fired rules are the given list when it is in table order and holds
      exactly the rules whose guards hold. */
  lemma FiredRulesAre(rd: Reading, rules: seq<Rule>)
    requires StrictlyRanked(rules)
    requires forall r :: r in rules <==> Fires(r, rd)
    ensures FiredRules(rd, |RuleTable|) == rules
  {
    var fired := FiredRules(rd, |RuleTable|);
    forall r ensures r in fired <==> r in rules {
      FiredRulesMember(rd, |RuleTable|, r);
    }
    StrictlyRankedUnique(fired, rules);
  }

  /** A line type outside life/heart/head/fate yields the empty list, since
      every guard names one of those four. */
  lemma UnknownLineTypeYieldsNothing(lineType: string, attrs: Attrs)
    requires lineType !in LineTypes
    ensures Interpret(lineType, attrs) == []
  {
    var rd := Read(lineType, attrs);
    assert rd.line !in {Life, Heart, Head, Fate};
    FiredRulesAre(rd, []);
    InterpretIsStatements(lineType, attrs);
  }

  /** Once the fired rules are known, so is the output. */
  lemma InterpretOfFired(lineType: string, attrs: Attrs, rules: seq<Rule>)
    requires FiredRules(Read(lineType, attrs), |RuleTable|) == rules
    ensures Interpret(lineType, attrs) == Texts(rules)
  {
    InterpretIsStatements(lineType, attrs);
  }

  /** Over words: on the head line exactly one of rules 4 and 6 fires. */
  lemma FiredOnHead(rd: Reading)
    requires rd.line == Head
    ensures FiredRules(rd, |RuleTable|) ==
      HeadPicks(rd.breaks == Some(NoneWord) && rd.curv != Some(High))
  {
    if rd.breaks == Some(NoneWord) && rd.curv != Some(High) {
      FiredRulesAre(rd, [SteadyMind]);
    } else {
      FiredRulesAre(rd, [WeakWill]);
    }
  }

  /** For the head line exactly one of rules 4 and 6 fires, so the output is
      a single statement. */
  lemma HeadYieldsOne(attrs: Attrs)
    ensures |Interpret("head", attrs)| == 1
    ensures Interpret("head", attrs) ==
      Texts(if Get(attrs, BreaksKey) == Some("none") && Get(attrs, CurvKey) != Some("high")
            then [SteadyMind] else [WeakWill])
  {
    HeadFired(attrs);
    InterpretOfFired("head", attrs, HeadRules(attrs));
  }

  /** The head line's rules, given whether rule 4's guard holds. */
  function HeadPicks(steady: bool): seq<Rule> {
    if steady then [SteadyMind] else [WeakWill]
  }

  /** The rules that fire on the head line, by the attribute strings. */
  function HeadRules(attrs: Attrs): seq<Rule> {
    HeadPicks(Get(attrs, BreaksKey) == Some("none") && Get(attrs, CurvKey) != Some("high"))
  }

  lemma HeadFired(attrs: Attrs)
    ensures FiredRules(Read("head", attrs), |RuleTable|) == HeadRules(attrs)
  {
    FiredOnHead(Read("head", attrs));
    HeadWords(attrs);
  }

  /** The head line's attribute tests over words agree with the string
      tests. */
  lemma HeadWords(attrs: Attrs)
    ensures (AttrWord(attrs, BreaksKey) == Some(NoneWord)) == (Get(attrs, BreaksKey) == Some("none"))
    ensures (AttrWord(attrs, CurvKey) == Some(High)) == (Get(attrs, CurvKey) == Some("high"))
  {
    AttrWordIs(attrs, BreaksKey, NoneWord);
    AttrWordIs(attrs, CurvKey, High);
  }

  /** Over words: on the fate line one of rules 3 and 10 and one of rules 5
      and 9 fire. */
  lemma FiredOnFate(rd: Reading)
    requires rd.line == Fate
    ensures FiredRules(rd, |RuleTable|) ==
      FatePicks(rd.breaks == Some(NoneWord), rd.breaks == Some(Many))
  {
    if rd.breaks == Some(NoneWord) {
      FiredRulesAre(rd, [Ambition, EasyLife]);
    } else if rd.breaks == Some(Many) {
      FiredRulesAre(rd, [ParentDependence, UnstableLife]);
    } else {
      FiredRulesAre(rd, [Ambition, ParentDependence]);
    }
  }

  /** For the fate line exactly one of rules 3 and 10 and exactly one of rules
      5 and 9 fire, so the output always has two statements. */
  lemma FateYieldsTwo(attrs: Attrs)
    ensures |Interpret("fate", attrs)| == 2
    ensures Interpret("fate", attrs) ==
      Texts(if Get(attrs, BreaksKey) == Some("none") then [Ambition, EasyLife]
            else if Get(attrs, BreaksKey) == Some("many") then [ParentDependence, UnstableLife]
            else [Ambition, ParentDependence])
  {
    FateFired(attrs);
    InterpretOfFired("fate", attrs, FateRules(attrs));
  }

  /** The fate line's rules, given whether its breaks read "none" or "many". */
  function FatePicks(unbroken: bool, many: bool): seq<Rule> {
    if unbroken then [Ambition, EasyLife]
    else if many then [ParentDependence, UnstableLife]
    else [Ambition, ParentDependence]
  }

  /** The rules that fire on the fate line, by the attribute strings. */
  function FateRules(attrs: Attrs): seq<Rule> {
    FatePicks(Get(attrs, BreaksKey) == Some("none"), Get(attrs, BreaksKey) == Some("many"))
  }

  lemma FateFired(attrs: Attrs)
    ensures FiredRules(Read("fate", attrs), |RuleTable|) == FateRules(attrs)
  {
    FiredOnFate(Read("fate", attrs));
    FateWords(attrs);
  }

  /** The fate line's attribute tests over words agree with the string
      tests. */
  lemma FateWords(attrs: Attrs)
    ensures (AttrWord(attrs, BreaksKey) == Some(NoneWord)) == (Get(attrs, BreaksKey) == Some("none"))
    ensures (AttrWord(attrs, BreaksKey) == Some(Many)) == (Get(attrs, BreaksKey) == Some("many"))
  {
    AttrWordIs(attrs, BreaksKey, NoneWord);
    AttrWordIs(attrs, BreaksKey, Many);
  }

  /** A long, unbroken life line yields rules 1, 3 and 9, in that order. */
  lemma LongUnbrokenLife(attrs: Attrs)
    requires Get(attrs, LengthKey) == Some("long") && Get(attrs, BreaksKey) == Some("none")
    ensures Interpret("life", attrs) == Texts([Vitality, Ambition, EasyLife])
  {
    LifeStatements(attrs);
    assert [Vitality] + [Ambition] + [] + [EasyLife] == [Vitality, Ambition, EasyLife];
  }

  /** With none of the four keys present every `==` and `in` test is false and
      every `!=` test true. */
  lemma MissingAttributes(lineType: string)
    ensures Interpret(lineType, map[]) ==
      if lineType == "heart" then Texts([Materialism])
      else if lineType == "head" then Texts([WeakWill])
      else if lineType == "fate" then Texts([Ambition, ParentDependence])
      else []
  {
    var a: Attrs := map[];
    var rd := Read(lineType, a);
    assert rd.length == None && rd.slope == None && rd.curv == None && rd.breaks == None;
    WordOfIs(lineType, Heart);
    WordOfIs(lineType, Head);
    WordOfIs(lineType, Fate);
    if lineType == "heart" {
      FiredRulesAre(rd, [Materialism]);
    } else if lineType == "head" {
      FiredRulesAre(rd, [WeakWill]);
    } else if lineType == "fate" {
      FiredRulesAre(rd, [Ambition, ParentDependence]);
    } else {
      FiredRulesAre(rd, []);
    }
    InterpretIsStatements(lineType, a);
  }

  /** Over words: on the heart line only rules 2, 7 and 8 can fire. */
  lemma FiredOnHeart(rd: Reading)
    requires rd.line == Heart
    ensures FiredRules(rd, |RuleTable|) ==
      HeartPicks(rd.slope == Some(Up) && rd.curv != Some(High),
                 rd.slope == Some(Flat) || rd.slope == Some(Up),
                 rd.slope == Some(Down) || rd.breaks != Some(NoneWord))
  {
    var rules := HeartPicks(Fires(Openness, rd), Fires(Kindness, rd), Fires(Materialism, rd));
    assert FiredRules(rd, |RuleTable|) == rules by {
      HeartPicksShape(Fires(Openness, rd), Fires(Kindness, rd), Fires(Materialism, rd));
      forall r ensures r in rules <==> Fires(r, rd) {
        match r
        case Openness =>
        case Kindness =>
        case Materialism =>
        case _ =>
      }
      FiredRulesAre(rd, rules);
    }
  }

  /** The heart line's rule list is in table order and holds each rule
      exactly when its flag is set. */
  lemma HeartPicksShape(open: bool, kind: bool, material: bool)
    ensures StrictlyRanked(HeartPicks(open, kind, material))
    ensures forall r :: r in HeartPicks(open, kind, material) <==>
      (open && r == Openness) || (kind && r == Kindness) || (material && r == Materialism)
  {
  }

  /** The heart line's statements: rules 2, 7 and 8, each under its own
      guard. Rule 2's guard implies rule 7's, so an upward heart line always
      also reads as kind. */
  lemma HeartStatements(attrs: Attrs)
    ensures var slope := Get(attrs, SlopeKey);
      Interpret("heart", attrs) ==
        Texts((if slope == Some("up") && Get(attrs, CurvKey) != Some("high") then [Openness] else [])
            + (if slope == Some("flat") || slope == Some("up") then [Kindness] else [])
            + (if slope == Some("down") || Get(attrs, BreaksKey) != Some("none") then [Materialism] else []))
  {
    HeartFired(attrs);
    InterpretOfFired("heart", attrs, HeartRules(attrs));
  }

  /** The heart line's rules, given which of the guards of rules 2, 7 and 8
      hold. */
  function HeartPicks(open: bool, kind: bool, material: bool): seq<Rule> {
    (if open then [Openness] else [])
    + (if kind then [Kindness] else [])
    + (if material then [Materialism] else [])
  }

  /** The rules that fire on the heart line, by the attribute strings. */
  function HeartRules(attrs: Attrs): seq<Rule> {
    var slope := Get(attrs, SlopeKey);
    HeartPicks(slope == Some("up") && Get(attrs, CurvKey) != Some("high"),
               slope == Some("flat") || slope == Some("up"),
               slope == Some("down") || Get(attrs, BreaksKey) != Some("none"))
  }

  lemma HeartFired(attrs: Attrs)
    ensures FiredRules(Read("heart", attrs), |RuleTable|) == HeartRules(attrs)
  {
    FiredOnHeart(Read("heart", attrs));
    HeartWords(attrs);
  }

  /** The heart line's attribute tests over words agree with the string
      tests. */
  lemma HeartWords(attrs: Attrs)
    ensures (AttrWord(attrs, SlopeKey) == Some(Up)) == (Get(attrs, SlopeKey) == Some("up"))
    ensures (AttrWord(attrs, SlopeKey) == Some(Flat)) == (Get(attrs, SlopeKey) == Some("flat"))
    ensures (AttrWord(attrs, SlopeKey) == Some(Down)) == (Get(attrs, SlopeKey) == Some("down"))
    ensures (AttrWord(attrs, CurvKey) == Some(High)) == (Get(attrs, CurvKey) == Some("high"))
    ensures (AttrWord(attrs, BreaksKey) == Some(NoneWord)) == (Get(attrs, BreaksKey) == Some("none"))
  {
    AttrWordIs(attrs, SlopeKey, Up);
    AttrWordIs(attrs, SlopeKey, Flat);
    AttrWordIs(attrs, SlopeKey, Down);
    AttrWordIs(attrs, CurvKey, High);
    AttrWordIs(attrs, BreaksKey, NoneWord);
  }

  /** Over words: on the life line only rules 1, 3, 5 and 9 can fire. */
  lemma FiredOnLife(rd: Reading)
    requires rd.line == Life
    ensures FiredRules(rd, |RuleTable|) ==
      LifePicks(rd.length == Some(Long), rd.length == Some(Short), rd.breaks == Some(NoneWord))
  {
    var rules := LifePicks(rd.length == Some(Long), rd.length == Some(Short), rd.breaks == Some(NoneWord));
    assert FiredRules(rd, |RuleTable|) == rules by {
      LifePicksShape(rd.length == Some(Long), rd.length == Some(Short), rd.breaks == Some(NoneWord));
      forall r ensures r in rules <==> Fires(r, rd) {
        match r
        case Vitality =>
        case Ambition =>
        case ParentDependence =>
        case EasyLife =>
        case _ =>
      }
      FiredRulesAre(rd, rules);
    }
  }

  /** The life line's rule list is in table order and holds each rule exactly
      when its guard's flags are set. */
  lemma LifePicksShape(long: bool, short: bool, unbroken: bool)
    ensures StrictlyRanked(LifePicks(long, short, unbroken))
    ensures forall r :: r in LifePicks(long, short, unbroken) <==>
      (long && unbroken && r == Vitality) || (long && r == Ambition)
      || (short && r == ParentDependence) || (unbroken && r == EasyLife)
  {
  }

  /** The life line's statements: rules 1, 3, 5 and 9, each under its own
      guard. */
  lemma LifeStatements(attrs: Attrs)
    ensures var length := Get(attrs, LengthKey);
      var breaks := Get(attrs, BreaksKey);
      Interpret("life", attrs) ==
        Texts((if length == Some("long") && breaks == Some("none") then [Vitality] else [])
            + (if length == Some("long") then [Ambition] else [])
            + (if length == Some("short") then [ParentDependence] else [])
            + (if breaks == Some("none") then [EasyLife] else []))
  {
    LifeFired(attrs);
    InterpretOfFired("life", attrs, LifeRules(attrs));
  }

  /** The life line's rules, given whether it reads long, short and
      unbroken. */
  function LifePicks(long: bool, short: bool, unbroken: bool): seq<Rule> {
    (if long && unbroken then [Vitality] else [])
    + (if long then [Ambition] else [])
    + (if short then [ParentDependence] else [])
    + (if unbroken then [EasyLife] else [])
  }

  /** The rules that fire on the life line, by the attribute strings. */
  function LifeRules(attrs: Attrs): seq<Rule> {
    LifePicks(Get(attrs, LengthKey) == Some("long"), Get(attrs, LengthKey) == Some("short"),
              Get(attrs, BreaksKey) == Some("none"))
  }

  lemma LifeFired(attrs: Attrs)
    ensures FiredRules(Read("life", attrs), |RuleTable|) == LifeRules(attrs)
  {
    FiredOnLife(Read("life", attrs));
    LifeWords(attrs);
  }

  /** The life line's attribute tests over words agree with the string
      tests. */
  lemma LifeWords(attrs: Attrs)
    ensures (AttrWord(attrs, LengthKey) == Some(Long)) == (Get(attrs, LengthKey) == Some("long"))
    ensures (AttrWord(attrs, LengthKey) == Some(Short)) == (Get(attrs, LengthKey) == Some("short"))
    ensures (AttrWord(attrs, BreaksKey) == Some(NoneWord)) == (Get(attrs, BreaksKey) == Some("none"))
  {
    AttrWordIs(attrs, LengthKey, Long);
    AttrWordIs(attrs, LengthKey, Short);
    AttrWordIs(attrs, BreaksKey, NoneWord);
  }
}

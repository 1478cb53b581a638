/** The rule-based interpreter of scripts/rule_engine.py: ten guarded rules,
    evaluated in table order, each appending one fixed statement, followed by
    an order-preserving removal of duplicates. */
module RuleEngine {
  import opened Wrappers

  /** The attribute dictionary passed to `interpret`. A key that is absent
      reads as Python's `None` through `Get`. */
  type Attrs = map<string, string>

  function Get(attrs: Attrs, key: string): Option<string> {
    if key in attrs then Some(attrs[key]) else None
  }

  const LengthKey := "length_cls"
  const SlopeKey := "slope_cls"
  const CurvKey := "curv_cls"
  const BreaksKey := "breaks_cls"

  /** The four line types the rules mention. */
  const LineTypes: set<string> := {"life", "heart", "head", "fate"}

  /** One constructor per rule, in the order the rules are written. */
  datatype Rule =
    | Vitality          // rule 1
    | Openness          // rule 2
    | Ambition          // rule 3
    | SteadyMind        // rule 4
    | ParentDependence  // rule 5
    | WeakWill          // rule 6
    | Kindness          // rule 7
    | Materialism       // rule 8
    | EasyLife          // rule 9
    | UnstableLife      // rule 10

  const RuleTable: seq<Rule> := [Vitality, Openness, Ambition, SteadyMind, ParentDependence,
                                 WeakWill, Kindness, Materialism, EasyLife, UnstableLife]

  /** The 0-based position of a rule in the table. */
  function Rank(r: Rule): (k: nat)
    ensures k < |RuleTable|
  {
    match r
    case Vitality => 0
    case Openness => 1
    case Ambition => 2
    case SteadyMind => 3
    case ParentDependence => 4
    case WeakWill => 5
    case Kindness => 6
    case Materialism => 7
    case EasyLife => 8
    case UnstableLife => 9
  }

  /** The table lists every rule at its rank. */
  lemma RankOfTableEntry(k: nat)
    requires k < |RuleTable|
    ensures Rank(RuleTable[k]) == k
  {
  }

  lemma TableEntryAtRank(r: Rule)
    ensures RuleTable[Rank(r)] == r
  {
  }

  /** The guard of each rule, over the strings exactly as written in the
      source. Python's `None == "x"` is false and `None != "x"` is true,
      which `Option` equality reproduces. */
  predicate Guard(r: Rule, lineType: string, attrs: Attrs) {
    var length := Get(attrs, LengthKey);
    var slope := Get(attrs, SlopeKey);
    var curv := Get(attrs, CurvKey);
    var breaks := Get(attrs, BreaksKey);
    match r
    case Vitality =>
      lineType == "life" && length == Some("long") && breaks == Some("none")
    case Openness =>
      lineType == "heart" && slope == Some("up") && curv != Some("high")
    case Ambition =>
      (lineType == "fate" && breaks != Some("many")) || (lineType == "life" && length == Some("long"))
    case SteadyMind =>
      lineType == "head" && breaks == Some("none") && curv != Some("high")
    case ParentDependence =>
      (lineType == "fate" && breaks != Some("none")) || (lineType == "life" && length == Some("short"))
    case WeakWill =>
      lineType == "head" && (breaks != Some("none") || curv == Some("high"))
    case Kindness =>
      lineType == "heart" && slope in [Some("flat"), Some("up")]
    case Materialism =>
      lineType == "heart" && (slope == Some("down") || breaks != Some("none"))
    case EasyLife =>
      (lineType == "fate" && breaks == Some("none")) || (lineType == "life" && breaks == Some("none"))
    case UnstableLife =>
      lineType == "fate" && breaks == Some("many")
  }

  /** The twelve words the guards compare against; every other string is
      `Unlisted`. The string `"none"` is the word `NoneWord`, distinct from a
      missing key. */
  datatype Word =
    | Life | Heart | Head | Fate
    | Long | Short | Up | Flat | Down | High | NoneWord | Many
    | Unlisted

  function Spelling(w: Word): string
    requires w != Unlisted
  {
    match w
    case Life => "life"
    case Heart => "heart"
    case Head => "head"
    case Fate => "fate"
    case Long => "long"
    case Short => "short"
    case Up => "up"
    case Flat => "flat"
    case Down => "down"
    case High => "high"
    case NoneWord => "none"
    case Many => "many"
  }

  /** The word a string spells, if any. */
  function WordOf(s: string): (w: Word)
    ensures w != Unlisted ==> s == Spelling(w)
  {
    if s == "life" then Life
    else if s == "heart" then Heart
    else if s == "head" then Head
    else if s == "fate" then Fate
    else if s == "long" then Long
    else if s == "short" then Short
    else if s == "up" then Up
    else if s == "flat" then Flat
    else if s == "down" then Down
    else if s == "high" then High
    else if s == "none" then NoneWord
    else if s == "many" then Many
    else Unlisted
  }

  /** The line type and the four attributes as words, read once. */
  datatype Reading = Reading(line: Word, length: Option<Word>, slope: Option<Word>,
                             curv: Option<Word>, breaks: Option<Word>)

  function AttrWord(attrs: Attrs, key: string): Option<Word> {
    match Get(attrs, key)
    case None => None
    case Some(v) => Some(WordOf(v))
  }

  function Read(lineType: string, attrs: Attrs): Reading {
    Reading(WordOf(lineType), AttrWord(attrs, LengthKey), AttrWord(attrs, SlopeKey),
            AttrWord(attrs, CurvKey), AttrWord(attrs, BreaksKey))
  }

  /** The guards of `Guard` restated over words, which is how the model
      evaluates them; `RuleEngineFacts.FiresIffGuard` shows the two agree. */
  predicate Fires(r: Rule, rd: Reading) {
    match r
    case Vitality => rd.line == Life && rd.length == Some(Long) && rd.breaks == Some(NoneWord)
    case Openness => rd.line == Heart && rd.slope == Some(Up) && rd.curv != Some(High)
    case Ambition =>
      (rd.line == Fate && rd.breaks != Some(Many)) || (rd.line == Life && rd.length == Some(Long))
    case SteadyMind => rd.line == Head && rd.breaks == Some(NoneWord) && rd.curv != Some(High)
    case ParentDependence =>
      (rd.line == Fate && rd.breaks != Some(NoneWord)) || (rd.line == Life && rd.length == Some(Short))
    case WeakWill => rd.line == Head && (rd.breaks != Some(NoneWord) || rd.curv == Some(High))
    case Kindness => rd.line == Heart && (rd.slope == Some(Flat) || rd.slope == Some(Up))
    case Materialism => rd.line == Heart && (rd.slope == Some(Down) || rd.breaks != Some(NoneWord))
    case EasyLife =>
      (rd.line == Fate && rd.breaks == Some(NoneWord)) || (rd.line == Life && rd.breaks == Some(NoneWord))
    case UnstableLife => rd.line == Fate && rd.breaks == Some(Many)
  }

  /** The statements the ten rules append, in rule order. */
  const StatementTable: seq<string> := [
    "Là người có sức sống, sức khỏe dồi dào, độ lượng, hào phóng",
    "Tính tình rộng rãi, cởi mở, hòa đồng",
    "Có nhiều ước mơ, tham vọng, tự tin",
    "Thần kinh vững vàng, sáng suốt, ít bệnh tật",
    "Thời nhỏ sống dựa vào cha mẹ nhiều, hơi kém phát triển",
    "Thiếu nghị lực, hơi nhẹ dạ",
    "Có lòng nhân tử, hảo tâm, tận tụy hết lòng vì gia đình, bè bạn",
    "Ít nhiệt tình, ưa vật chất",
    "Cuộc đời khá dễ dàng, phẳng lặng",
    "Cuộc đời bấp bênh, nhiều thay đổi"
  ]

  /** The statement rule `r` appends. */
  function Text(r: Rule): string {
    StatementTable[Rank(r)]
  }

  /** Rules listed in strictly increasing table position. */
  predicate StrictlyRanked(rules: seq<Rule>) {
    forall i, j :: 0 <= i < j < |rules| ==> Rank(rules[i]) < Rank(rules[j])
  }

  /** The rules among the first `n` of the table whose guard holds, in table
      order: the rules whose statements the first `n` `if`s append. */
  function FiredRules(rd: Reading, n: nat): (fired: seq<Rule>)
    requires n <= |RuleTable|
    ensures StrictlyRanked(fired)
    ensures forall r :: r in fired ==> Rank(r) < n
  {
    if n == 0 then []
    else
      var r := RuleTable[n - 1];
      RankOfTableEntry(n - 1);
      FiredRules(rd, n - 1) + (if Fires(r, rd) then [r] else [])
  }

  /** A rule is among the fired ones exactly when it lies in the evaluated
      part of the table and its guard holds. */
  lemma {:induction false} FiredRulesMember(rd: Reading, n: nat, r: Rule)
    requires n <= |RuleTable|
    ensures r in FiredRules(rd, n) <==> Rank(r) < n && Fires(r, rd)
  {
    if n > 0 {
      RankOfTableEntry(n - 1);
      TableEntryAtRank(r);
      FiredRulesMember(rd, n - 1, r);
    }
  }

  /** The statements of a list of rules, in the same order. */
  function Texts(rules: seq<Rule>): (texts: seq<string>)
    ensures |texts| == |rules|
    ensures forall i :: 0 <= i < |rules| ==> texts[i] == Text(rules[i])
  {
    seq(|rules|, i requires 0 <= i < |rules| => Text(rules[i]))
  }

  /** The working list `s` once all ten rules have been evaluated. */
  function Statements(lineType: string, attrs: Attrs): seq<string> {
    Texts(FiredRules(Read(lineType, attrs), |RuleTable|))
  }

  predicate NoDuplicates<T(==)>(s: seq<T>) {
    forall i, j :: 0 <= i < j < |s| ==> s[i] != s[j]
  }

  /** The position of the first occurrence of `x` in `s`. */
  function FirstIndex<T(==)>(s: seq<T>, x: T): (i: nat)
    requires x in s
    ensures i < |s| && s[i] == x
    ensures forall j :: 0 <= j < i ==> s[j] != x
  {
    if s[0] == x then 0 else 1 + FirstIndex(s[1..], x)
  }

  /** The duplicate removal at the end of `interpret`: scanning left to right,
      an element is appended to the output only if it is not already there.
      The result is duplicate-free and has the same elements as the input;
      `DedupKeepsFirstOccurrences` adds that it lists them in the order of
      their first occurrence in the input. */
  function Dedup<T(==,!new)>(s: seq<T>): (out: seq<T>)
    ensures NoDuplicates(out)
    ensures forall x :: x in out <==> x in s
  {
    if |s| == 0 then []
    else
      var last := s[|s| - 1];
      var prefix := Dedup(s[..|s| - 1]);
      if last in prefix then prefix else prefix + [last]
  }

  /** The elements of `Dedup(s)` appear in the order of their first
      occurrences in `s`. */
  lemma {:induction false} DedupKeepsFirstOccurrences<T(!new)>(s: seq<T>)
    ensures forall i, j :: 0 <= i < j < |Dedup(s)| ==> FirstIndex(s, Dedup(s)[i]) < FirstIndex(s, Dedup(s)[j])
  {
    if |s| > 0 {
      var init := s[..|s| - 1];
      var last := s[|s| - 1];
      var prefix := Dedup(init);
      DedupKeepsFirstOccurrences(init);
      FirstIndexOfPrefix(s, init);
      var out := Dedup(s);
      forall i, j | 0 <= i < j < |out| ensures FirstIndex(s, out[i]) < FirstIndex(s, out[j]) {
        if j < |prefix| {
          assert out[i] == prefix[i] && out[j] == prefix[j];
        } else {
          assert out[i] == prefix[i] && out[j] == last && last !in init;
        }
      }
    }
  }

  /** An element of a prefix has its first occurrence inside that prefix. */
  lemma FirstIndexOfPrefix<T>(s: seq<T>, init: seq<T>)
    requires |s| > 0 && init == s[..|s| - 1]
    ensures forall x :: x in init ==> FirstIndex(s, x) == FirstIndex(init, x)
    ensures s[|s| - 1] !in init ==> FirstIndex(s, s[|s| - 1]) == |s| - 1
  {
  }

  /** `interpret(line_type, attrs)`. */
  function Interpret(lineType: string, attrs: Attrs): seq<string> {
    Dedup(Statements(lineType, attrs))
  }
}

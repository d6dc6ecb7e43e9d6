/** The seven dimension scorers of `calculate_scores`. Those the source writes as loops
    (professional fit, stability, growth) are methods proved against a declarative
    definition; the others are functions. */
module Scorers {
  import opened Text
  import opened Numbers
  import opened Records

  // ---------------------------------------------------------------- education

  /** `score_edu`: the filter has already removed listings above the user's level. */
  function EduScore(jobLevel: int, userLevel: int): (r: int)
    ensures r == 100 || r == 85
  {
    if userLevel == jobLevel then 100 else 85
  }

  // --------------------------------------------------------------- experience

  /** `score_exp`. */
  function ExpScore(expReq: string, experience: string): (r: int)
    ensures r in {60, 70, 90, 100}
    ensures r == 100 <==> Contains("无", expReq) || Contains("不限", expReq)
                          || (experience == "应届生" && Contains("应届", expReq))
    ensures r == 60 ==> experience == "应届生"
    ensures r == 70 || r == 90 ==> experience != "应届生"
  {
    if Contains("无", expReq) || Contains("不限", expReq) then 100
    else if experience == "应届生" then (if Contains("应届", expReq) then 100 else 60)
    else if !Contains("应届", expReq) then 90 else 70
  }

  // -------------------------------------------------------- professional fit

  /** `JOB_CATEGORY_KEYWORDS`. */
  const CategoryKeywords: map<string, seq<string>> := map[
    "事务/职能类 (行政、人事、助理)" := ["行政", "人事", "HR", "助理", "文员", "秘书", "前台", "专员", "后勤", "档案"],
    "沟通/销售类 (销售、咨询、客服)" := ["销售", "顾问", "业务", "客服", "客户", "经理", "招商", "代表", "置业", "经纪人"],
    "技术/研发类 (开发、运维、工程)" := ["工程师", "开发", "运维", "数据", "算法", "IT", "测试", "架构", "前端", "后端"],
    "设计/创意类 (UI、设计、媒体)" := ["设计", "UI", "美工", "剪辑", "策划", "文案", "新媒体", "视频", "创意"],
    "财务/金融类 (会计、审计、风控)" := ["会计", "财务", "审计", "出纳", "结算", "风控", "投资", "分析师"],
    "运营/管理类 (运营、项目、管培)" := ["运营", "项目", "管培生", "储备", "主管", "店长", "调度"],
    "教育/服务类 (教师、培训、服务)" := ["教师", "培训", "教务", "服务员", "司机", "保安", "厨师"]]

  /** `JOB_CATEGORY_KEYWORDS.get(job_category, [])`. */
  function KeywordsFor(category: string): seq<string> {
    if category in CategoryKeywords then CategoryKeywords[category] else []
  }

  predicate TitleHit(title: string, keywords: seq<string>) {
    exists kw :: kw in keywords && Contains(kw, title)
  }

  /** One preferred industry matches: its first two characters occur in the listing's
      industry, or the listing's industry occurs in it. */
  predicate IndustryMatch(ind: string, industry: string) {
    Contains(Take(ind, 2), industry) || Contains(industry, ind)
  }

  predicate IndustryHit(industry: string, industries: seq<string>) {
    exists ind :: ind in industries && IndustryMatch(ind, industry)
  }

  predicate MajorHit(major: string, title: string, industry: string) {
    Contains(major, title) || Contains(major, industry)
  }

  /** 50 for a keyword in the title, 30 for a matching industry, 20 for the major; each
      counted once and the sum capped at 100. */
  function ProfessionalScore(title: string, industry: string, keywords: seq<string>,
                             industries: seq<string>, major: string): (r: int)
    ensures 0 <= r <= 100
  {
    Min(100, (if TitleHit(title, keywords) then 50 else 0)
             + (if IndustryHit(industry, industries) then 30 else 0)
             + (if MajorHit(major, title, industry) then 20 else 0))
  }

  /** `score_professional`: two searches that stop at the first hit, then the major test. */
  method ScoreProfessional(title: string, industry: string, keywords: seq<string>,
                           industries: seq<string>, major: string) returns (score: int)
    ensures score == ProfessionalScore(title, industry, keywords, industries, major)
  {
    score := 0;
    for i := 0 to |keywords|
      invariant score == 0
      invariant forall j :: 0 <= j < i ==> !Contains(keywords[j], title)
    {
      if Contains(keywords[i], title) {
        score := score + 50;
        break;
      }
    }
    ghost var afterTitle := score;
    assert afterTitle == if TitleHit(title, keywords) then 50 else 0;
    for i := 0 to |industries|
      invariant score == afterTitle
      invariant forall j :: 0 <= j < i ==> !IndustryMatch(industries[j], industry)
    {
      if IndustryMatch(industries[i], industry) {
        score := score + 30;
        break;
      }
    }
    assert score == afterTitle + if IndustryHit(industry, industries) then 30 else 0;
    if Contains(major, title) || Contains(major, industry) {
      score := score + 20;
    }
    score := Min(score, 100);
  }

  /** The three terms never add up to more than 100, so the cap never changes the sum. */
  lemma ProfessionalValues(title: string, industry: string, keywords: seq<string>,
                           industries: seq<string>, major: string)
    ensures ProfessionalScore(title, industry, keywords, industries, major)
            == (if TitleHit(title, keywords) then 50 else 0)
               + (if IndustryHit(industry, industries) then 30 else 0)
               + (if MajorHit(major, title, industry) then 20 else 0)
    ensures ProfessionalScore(title, industry, keywords, industries, major) in {0, 20, 30, 50, 70, 80, 100}
  {
  }

  /** An empty major occurs in every title, so it always earns the 20 points. */
  lemma EmptyMajorEarns(title: string, industry: string, keywords: seq<string>, industries: seq<string>)
    ensures MajorHit("", title, industry)
    ensures ProfessionalScore(title, industry, keywords, industries, "") >= 20
  {
    assert IsPrefix("", title);
  }

  /** An empty listing industry occurs in every preferred industry, so it matches as soon
      as the user named one. */
  lemma EmptyIndustryMatches(title: string, keywords: seq<string>, industries: seq<string>, major: string)
    requires industries != []
    ensures IndustryHit("", industries)
    ensures ProfessionalScore(title, "", keywords, industries, major) >= 30
  {
    assert IsPrefix("", industries[0]);
    assert IndustryMatch(industries[0], "");
  }

  // ------------------------------------------------------------------- salary

  /** The salary lambda: 40 below 90% of the expectation, otherwise the ratio in percent
      capped at 120. */
  function SalaryScore(avg: real, minSalary: real): (r: real)
    requires minSalary > 0.0
    ensures r == 40.0 || 90.0 <= r <= 120.0
    ensures r == 40.0 <==> avg < minSalary * 0.9
  {
    if avg >= minSalary * 0.9 then
      assert avg / minSalary * 100.0 >= 90.0 by {
        assert avg / minSalary >= 0.9 by { assert (avg / minSalary) * minSalary == avg; }
      }
      MinReal(120.0, avg / minSalary * 100.0)
    else 40.0
  }

  /** A higher average salary never scores lower. */
  lemma SalaryMonotone(a1: real, a2: real, minSalary: real)
    requires minSalary > 0.0 && a1 <= a2
    ensures SalaryScore(a1, minSalary) <= SalaryScore(a2, minSalary)
  {
    if a1 >= minSalary * 0.9 {
      assert a1 / minSalary <= a2 / minSalary by {
        assert (a1 / minSalary) * minSalary == a1;
        assert (a2 / minSalary) * minSalary == a2;
      }
    }
  }

  /** An average equal to the expectation scores exactly 100. */
  lemma SalaryAtExpectation(minSalary: real)
    requires minSalary > 0.0
    ensures SalaryScore(minSalary, minSalary) == 100.0
  {
    assert minSalary / minSalary == 1.0;
  }

  // --------------------------------------------------------------------- city

  /** The priority chain of `score_city_location`: only the first branch that matches. */
  function CityBase(loc: string, cities: seq<string>): (r: int)
    ensures r in {40, 60, 85, 90, 100}
  {
    if |cities| > 0 && Contains(cities[0], loc) then 100
    else if |cities| > 1 && Contains(cities[1], loc) then 90
    else if |cities| > 2 && Contains(cities[2], loc) then 85
    else if Contains("广州", loc) || Contains("深圳", loc) then 60
    else 40
  }

  /** The user's district (when given) occurs in the location. */
  predicate NearHome(loc: string, district: string) {
    district != "" && Contains(district, loc)
  }

  /** `score_city_location`: the chain, +20 near home, capped at 120. */
  function CityScore(loc: string, cities: seq<string>, district: string): (r: int)
    ensures 40 <= r <= 120
    ensures NearHome(loc, district) ==> r == Min(CityBase(loc, cities) + 20, 120)
    ensures !NearHome(loc, district) ==> r == CityBase(loc, cities)
  {
    var base := CityBase(loc, cities);
    Min(if NearHome(loc, district) then base + 20 else base, 120)
  }

  /** Matching the first city fixes the score: later cities add nothing. */
  lemma CityFirstMatchWins(loc: string, cities: seq<string>, district: string)
    requires |cities| > 0 && Contains(cities[0], loc)
    ensures CityScore(loc, cities, district) == CityScore(loc, cities[..1], district)
    ensures CityScore(loc, cities, district) == if NearHome(loc, district) then 120 else 100
  {
  }

  /** Only the first three cities are ever consulted. */
  lemma CityFirstThree(loc: string, cities: seq<string>, district: string)
    requires |cities| > 3
    ensures CityScore(loc, cities, district) == CityScore(loc, cities[..3], district)
  {
  }

  // ---------------------------------------------------------------- stability

  const StableKeywords: seq<string> := ["国企", "央企", "事业单位", "机关", "学校", "医院", "银行", "分行", "政府", "公办"]

  /** 100 when a stable keyword occurs in the employer text, else 60. */
  function StabilityScore(text: string): (r: int)
    ensures r == 100 || r == 60
  {
    if exists kw :: kw in StableKeywords && Contains(kw, text) then 100 else 60
  }

  /** `score_stability`: an early return at the first keyword found in name ++ nature. */
  method ScoreStability(employerName: string, employerNature: string) returns (score: int)
    ensures score == StabilityScore(employerName + employerNature)
  {
    var text := employerName + employerNature;
    for i := 0 to |StableKeywords|
      invariant forall j :: 0 <= j < i ==> !Contains(StableKeywords[j], text)
    {
      if Contains(StableKeywords[i], text) {
        return 100;
      }
    }
    return 60;
  }

  // ------------------------------------------------------------------- growth

  const GrowthKeywords: seq<string> := ["管培", "储备", "晋升", "培训", "核心", "梯队", "主管"]

  /** The keywords of `kws` that occur in `text`. */
  function Hits(kws: seq<string>, text: string): set<string> {
    set kw | kw in kws && Contains(kw, text)
  }

  /** 60 plus 15 for every distinct growth keyword in the title, capped at 100. */
  function GrowthScore(title: string): (r: int)
    ensures r in {60, 75, 90, 100}
  {
    Min(100, 60 + 15 * |Hits(GrowthKeywords, title)|)
  }

  /** Extending the searched prefix by one keyword that is new adds that keyword when it occurs. */
  lemma HitsStep(kws: seq<string>, text: string, i: nat)
    requires i < |kws| && kws[i] !in kws[..i]
    ensures |Hits(kws[..i + 1], text)| == |Hits(kws[..i], text)| + (if Contains(kws[i], text) then 1 else 0)
  {
    assert kws[..i + 1] == kws[..i] + [kws[i]];
    if Contains(kws[i], text) {
      assert Hits(kws[..i + 1], text) == Hits(kws[..i], text) + {kws[i]};
    } else {
      assert Hits(kws[..i + 1], text) == Hits(kws[..i], text);
    }
  }

  /** `score_growth`: +15 for each keyword, then the cap. */
  method ScoreGrowth(title: string) returns (score: int)
    ensures score == GrowthScore(title)
  {
    score := 60;
    for i := 0 to |GrowthKeywords|
      invariant score == 60 + 15 * |Hits(GrowthKeywords[..i], title)|
    {
      assert GrowthKeywords[i] !in GrowthKeywords[..i];
      HitsStep(GrowthKeywords, title, i);
      if Contains(GrowthKeywords[i], title) {
        score := score + 15;
      }
    }
    assert GrowthKeywords[..|GrowthKeywords|] == GrowthKeywords;
    score := Min(score, 100);
  }

  /** Three growth keywords already reach the cap. */
  lemma GrowthSaturates(title: string)
    requires |Hits(GrowthKeywords, title)| >= 3
    ensures GrowthScore(title) == 100
  {
  }
}

/** A worked example: a sales-manager listing in Tianhe, Guangzhou,
    scored for a bachelor who expects 8000 a month, with the base weights. */
module Scenario {
  import opened Text
  import opened Records
  import opened Eligibility
  import opened Scorers
  import opened Ranker
  import opened Recommender

  const SalesCategory: string := "沟通/销售类 (销售、咨询、客服)"

  const Example: Listing := Listing(0, "销售经理", "互联网/计算机/软件", "广东省广州市天河区", "XX科技有限公司",
                                    "民营", "本科", "不限", 6000.0, 10000.0, 8000.0)

  const ExampleProfile: Profile := Profile("大学本科", "市场营销", "1-3年", 8000.0, ["广州市"], "天河",
                                           SalesCategory, ["互联网/计算机/软件"])

  /** The weights before any priority adjustment. */
  const BaseWeights: Weights := Weights(10, 10, 15, 20, 25, 15, 5)

  /** No keyword of the list occurs in `text`. */
  lemma NoKeyword(kws: seq<string>, text: string)
    requires forall j :: 0 <= j < |kws| ==> !Contains(kws[j], text)
    ensures !exists kw :: kw in kws && Contains(kw, text)
  {
  }

  lemma ExampleStability()
    ensures StabilityScore("XX科技有限公司" + "民营") == 60
  {
    var text := "XX科技有限公司" + "民营";
    assert text == "XX科技有限公司民营";
    forall j | 0 <= j < |StableKeywords| ensures !Contains(StableKeywords[j], text) {
      if j == 9 {
        AbsentByChar(StableKeywords[j], text, 1);
      } else {
        AbsentByChar(StableKeywords[j], text, 0);
      }
    }
    NoKeyword(StableKeywords, text);
  }

  lemma ExampleGrowth()
    ensures GrowthScore("销售经理") == 60
  {
    var title := "销售经理";
    AbsentByChar("管培", title, 0);
    AbsentByChar("储备", title, 0);
    AbsentByChar("晋升", title, 0);
    AbsentByChar("培训", title, 0);
    AbsentByChar("核心", title, 0);
    AbsentByChar("梯队", title, 0);
    AbsentByChar("主管", title, 0);
    assert Hits(GrowthKeywords, title) == {};
  }

  lemma ExampleProfessional()
    ensures ProfessionalScore("销售经理", "互联网/计算机/软件", KeywordsFor(SalesCategory),
                              ["互联网/计算机/软件"], "市场营销") == 80
  {
    var kws := KeywordsFor(SalesCategory);
    assert SalesCategory in CategoryKeywords;
    assert kws[0] == "销售";
    ContainsAt("销售", "销售经理", 0);
    assert "销售" in kws;
    assert TitleHit("销售经理", kws);
    assert Take("互联网/计算机/软件", 2) == "互联";
    ContainsAt("互联网/计算机/软件", "互联网/计算机/软件", 0);
    assert IndustryMatch("互联网/计算机/软件", "互联网/计算机/软件");
    assert IndustryHit("互联网/计算机/软件", ["互联网/计算机/软件"]);
    AbsentByChar("市场营销", "销售经理", 0);
    AbsentByChar("市场营销", "互联网/计算机/软件", 0);
    assert !MajorHit("市场营销", "销售经理", "互联网/计算机/软件");
  }

  lemma ExampleEdu()
    ensures EduScore(JobEduLevel("本科"), UserEduLevel("大学本科")) == 100
  {
    FirstTokenAt("本科", '/', 2);
    assert "本科"[..2] == "本科";
  }

  lemma ExampleCity()
    ensures CityScore("广东省广州市天河区", ["广州市"], "天河") == 120
  {
    ContainsAt("广州市", "广东省广州市天河区", 3);
    ContainsAt("天河", "广东省广州市天河区", 6);
  }

  /** A listing's dimension vector from its seven separately known scores. */
  lemma DimsOf(l: Listing, p: Profile, d: Dims)
    requires p.minSalary > 0.0
    requires EduScore(JobEduLevel(l.eduReq), UserEduLevel(p.education)) == d.edu
    requires ExpScore(l.expReq, p.experience) == d.exp
    requires ProfessionalScore(l.title, l.industry, KeywordsFor(p.jobCategory), p.industries, p.major) == d.prof
    requires SalaryScore(l.avgSalary, p.minSalary) == d.salary
    requires CityScore(l.location, p.cities, p.district) == d.city
    requires StabilityScore(l.employerName + l.employerNature) == d.stable
    requires GrowthScore(l.title) == d.growth
    ensures ScoreDims(l, p) == d
  {
  }

  lemma ExampleDims()
    ensures ScoreDims(Example, ExampleProfile) == Dims(100, 100, 80, 100.0, 120, 60, 60)
  {
    ExampleEdu();
    assert IsPrefix("不限", "不限");
    assert ExpScore("不限", "1-3年") == 100;
    ExampleProfessional();
    SalaryAtExpectation(8000.0);
    ExampleCity();
    ExampleStability();
    ExampleGrowth();
    DimsOf(Example, ExampleProfile, Dims(100, 100, 80, 100.0, 120, 60, 60));
  }

  lemma ExampleReason(d: Dims)
    requires d == Dims(100, 100, 80, 100.0, 120, 60, 60)
    ensures RenderReason(ReasonTags("广东省广州市天河区", "天河", d)) == "🏠 离家近(天河) | 🎯 专业对口"
  {
    ContainsAt("天河", "广东省广州市天河区", 6);
    assert NearHome("广东省广州市天河区", "天河");
    var tags := ReasonTags("广东省广州市天河区", "天河", d);
    assert tags == [NearHomeTag("天河")] + [] + [] + [] + [ProfTag];
    assert tags == [NearHomeTag("天河"), ProfTag];
    assert Join(tags, " | ") == NearHomeTag("天河") + " | " + ProfTag;
  }

  lemma RowOfDims(l: Listing, p: Profile, w: Weights, d: Dims)
    requires p.minSalary > 0.0 && ScoreDims(l, p) == d
    ensures ScoreRow(l, p, w).composite == Composite(d, w)
    ensures ScoreRow(l, p, w).reason == RenderReason(ReasonTags(l.location, p.district, d))
  {
  }

  lemma ExampleComposite(d: Dims)
    requires d == Dims(100, 100, 80, 100.0, 120, 60, 60)
    ensures Composite(d, BaseWeights) == 94.0
  {
    CompositeExpanded(d, BaseWeights);
  }

  /** Education 100, experience 100, professional 80, salary 100, city 120 (100 for the first
      city plus 20 near home, capped), stability 60, growth 60: composite 94.0, with the
      near-home and professional-fit tags. */
  lemma ExampleRow()
    ensures ScoreDims(Example, ExampleProfile) == Dims(100, 100, 80, 100.0, 120, 60, 60)
    ensures ScoreRow(Example, ExampleProfile, BaseWeights).composite == 94.0
    ensures ScoreRow(Example, ExampleProfile, BaseWeights).reason == "🏠 离家近(天河) | 🎯 专业对口"
  {
    var d := Dims(100, 100, 80, 100.0, 120, 60, 60);
    ExampleDims();
    ExampleComposite(d);
    ExampleReason(d);
    RowOfDims(Example, ExampleProfile, BaseWeights, d);
  }

  /** The same listing as a one-row raw table with a passthrough ID column. */
  const ExampleFrame: RawFrame := RawFrame(1, [Some(6000.0)], [Some(10000.0)], map[
    TitleCol := [Some("销售经理")], IndustryCol := [Some("互联网/计算机/软件")],
    LocationCol := [Some("广东省广州市天河区")], EmployerNameCol := [Some("XX科技有限公司")],
    EmployerNatureCol := [Some("民营")], EduReqCol := [Some("本科")], ExpReqCol := [Some("不限")],
    "岗位ID" := [None]])

  lemma ExampleFrameWellFormed()
    ensures WellFormed(ExampleFrame)
  {
  }

  /** The cleaned columns of the example table. */
  lemma ExampleColumns()
    ensures FillZero(ExampleFrame.salaryMin) == [6000.0] && FillZero(ExampleFrame.salaryMax) == [10000.0]
    ensures CleanColumn(ExampleFrame, TitleCol) == [Some("销售经理")]
    ensures CleanColumn(ExampleFrame, IndustryCol) == [Some("互联网/计算机/软件")]
    ensures CleanColumn(ExampleFrame, LocationCol) == [Some("广东省广州市天河区")]
    ensures CleanColumn(ExampleFrame, EmployerNameCol) == [Some("XX科技有限公司")]
    ensures CleanColumn(ExampleFrame, EmployerNatureCol) == [Some("民营")]
    ensures CleanColumn(ExampleFrame, EduReqCol) == [Some("本科")]
    ensures CleanColumn(ExampleFrame, ExpReqCol) == [Some("不限")]
  {
    ExampleFrameWellFormed();
  }

  /** The cleaned example table holds exactly the example listing. */
  lemma ExampleRows(r: JobRecommender)
    requires r.Valid() && r.height == ExampleFrame.height
    requires r.salaryMin == FillZero(ExampleFrame.salaryMin) && r.salaryMax == FillZero(ExampleFrame.salaryMax)
    requires forall c :: c in StrCols ==> r.text[c] == CleanColumn(ExampleFrame, c)
    ensures r.Rows() == [Example]
  {
    ExampleColumns();
    assert r.Row(0) == Example;
  }

  lemma ExampleEligible()
    ensures IsEligible(Example, "大学本科")
  {
    FirstTokenAt("本科", '/', 2);
    assert "本科"[..2] == "本科";
  }

  /** A sequence with the multiset of one element is that one-element sequence. */
  lemma SingletonOf(s: seq<Scored>, x: Scored)
    requires multiset(s) == multiset{x}
    ensures s == [x]
  {
    assert |s| == |multiset(s)| == 1;
    assert s[0] in multiset(s);
  }

  /** A one-row table whose row is eligible scores to that one row, whatever the sort does. */
  lemma OneRow(l: Listing, p: Profile, w: Weights, result: seq<Scored>)
    requires p.minSalary > 0.0 && IsEligible(l, p.education)
    requires multiset(result) == multiset(ScoreAll(Eligible([l], p.education), p, w))
    ensures result == [ScoreRow(l, p, w)]
  {
    EligibleSingle(l, p.education);
    assert ScoreAll([l], p, w) == [ScoreRow(l, p, w)];
    SingletonOf(result, ScoreRow(l, p, w));
  }

  /** Cleaning the raw table and running `calculate_scores` on it yields the one row of the
      worked example, with 平均薪资 8000 and composite 94.0. */
  method ExampleRun() returns (result: seq<Scored>)
    ensures |result| == 1
    ensures result[0].listing.avgSalary == 8000.0
    ensures result[0].composite == 94.0
    ensures result[0].reason == "🏠 离家近(天河) | 🎯 专业对口"
  {
    ExampleFrameWellFormed();
    var recommender := new JobRecommender(ExampleFrame);
    ExampleRows(recommender);
    result := recommender.CalculateScores(ExampleProfile, BaseWeights);
    ExampleEligible();
    OneRow(Example, ExampleProfile, BaseWeights, result);
    ExampleRow();
  }
}

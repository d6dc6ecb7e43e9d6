/** The composite score, the rationale tags and the descending sort of `calculate_scores`. */
module Ranker {
  import opened Text
  import opened Records
  import opened Eligibility
  import opened Scorers

  // ------------------------------------------------------------ composite

  /** The seven scores in the order `calculate_scores` weighs them. */
  function Scores(d: Dims): seq<real> {
    [d.edu as real, d.exp as real, d.prof as real, d.salary, d.city as real, d.growth as real, d.stable as real]
  }

  /** The seven weights, in the same order as `Scores`. */
  function WeightList(w: Weights): seq<int> {
    [w.edu, w.exp, w.prof, w.salary, w.city, w.growth, w.stable]
  }

  function Sum(ws: seq<int>): int {
    if ws == [] then 0 else ws[0] + Sum(ws[1..])
  }

  function Dot(xs: seq<real>, ws: seq<int>): real
    requires |xs| == |ws|
  {
    if xs == [] then 0.0 else xs[0] * ws[0] as real + Dot(xs[1..], ws[1..])
  }

  /** 综合得分: the weighted sum of the seven scores divided by 100, not by the weight total. */
  function Composite(d: Dims, w: Weights): real {
    Dot(Scores(d), WeightList(w)) / 100.0
  }

  /** The composite written out term by term, as `calculate_scores` computes it. */
  lemma CompositeExpanded(d: Dims, w: Weights)
    ensures Composite(d, w) == (d.edu as real * w.edu as real
      + d.exp as real * w.exp as real
      + d.prof as real * w.prof as real
      + d.salary * w.salary as real
      + d.city as real * w.city as real
      + d.growth as real * w.growth as real
      + d.stable as real * w.stable as real) / 100.0
  {
    var xs, ws := Scores(d), WeightList(w);
    assert Dot(xs[6..], ws[6..]) == xs[6] * ws[6] as real by { assert xs[6..][1..] == []; }
    assert Dot(xs[5..], ws[5..]) == xs[5] * ws[5] as real + xs[6] * ws[6] as real by {
      assert xs[5..][1..] == xs[6..] && ws[5..][1..] == ws[6..];
    }
    assert Dot(xs[4..], ws[4..]) == xs[4] * ws[4] as real + xs[5] * ws[5] as real + xs[6] * ws[6] as real by {
      assert xs[4..][1..] == xs[5..] && ws[4..][1..] == ws[5..];
    }
    assert Dot(xs[3..], ws[3..]) == xs[3] * ws[3] as real + xs[4] * ws[4] as real + xs[5] * ws[5] as real
                                    + xs[6] * ws[6] as real by {
      assert xs[3..][1..] == xs[4..] && ws[3..][1..] == ws[4..];
    }
    assert Dot(xs[2..], ws[2..]) == xs[2] * ws[2] as real + xs[3] * ws[3] as real + xs[4] * ws[4] as real
                                    + xs[5] * ws[5] as real + xs[6] * ws[6] as real by {
      assert xs[2..][1..] == xs[3..] && ws[2..][1..] == ws[3..];
    }
    assert Dot(xs[1..], ws[1..]) == xs[1] * ws[1] as real + xs[2] * ws[2] as real + xs[3] * ws[3] as real
                                    + xs[4] * ws[4] as real + xs[5] * ws[5] as real + xs[6] * ws[6] as real by {
      assert xs[1..][1..] == xs[2..] && ws[1..][1..] == ws[2..];
    }
  }

  /** The weight list adds up to the weight total. */
  lemma TotalIsSum(w: Weights)
    ensures Sum(WeightList(w)) == Total(w)
  {
    var ws := WeightList(w);
    assert Sum(ws[6..]) == w.stable by { assert ws[6..][1..] == []; }
    assert Sum(ws[5..]) == w.growth + w.stable by { assert ws[5..][1..] == ws[6..]; }
    assert Sum(ws[4..]) == w.city + w.growth + w.stable by { assert ws[4..][1..] == ws[5..]; }
    assert Sum(ws[3..]) == w.salary + w.city + w.growth + w.stable by { assert ws[3..][1..] == ws[4..]; }
    assert Sum(ws[2..]) == w.prof + w.salary + w.city + w.growth + w.stable by { assert ws[2..][1..] == ws[3..]; }
    assert Sum(ws[1..]) == w.exp + w.prof + w.salary + w.city + w.growth + w.stable by {
      assert ws[1..][1..] == ws[2..];
    }
  }

  /** The ranges the seven scorers guarantee. */
  predicate DimsInRange(d: Dims) {
    d.edu in {85, 100} && d.exp in {60, 70, 90, 100} && 0 <= d.prof <= 100
    && (d.salary == 40.0 || 90.0 <= d.salary <= 120.0) && 40 <= d.city <= 120
    && d.stable in {60, 100} && 60 <= d.growth <= 100
  }

  lemma MulBound(x: real, c: real)
    requires 0.0 <= x <= 120.0 && 0.0 <= c
    ensures 0.0 <= x * c <= 120.0 * c
  {
  }

  lemma Accumulate(t: real, c: int, rest: real, cap: int)
    requires 0.0 <= t <= 120.0 * c as real
    requires 0.0 <= rest <= 120.0 * cap as real
    ensures 0.0 <= t + rest <= 120.0 * (c + cap) as real
  {
  }

  /** Scores in [0, 120] against non-negative weights give a dot product in [0, 120 * weight sum]. */
  lemma {:induction false} DotBound(xs: seq<real>, ws: seq<int>)
    requires |xs| == |ws|
    requires forall i :: 0 <= i < |xs| ==> 0.0 <= xs[i] <= 120.0 && ws[i] >= 0
    ensures 0.0 <= Dot(xs, ws) <= 120.0 * Sum(ws) as real
    decreases |xs|
  {
    if xs != [] {
      DotBound(xs[1..], ws[1..]);
      MulBound(xs[0], ws[0] as real);
      Accumulate(xs[0] * ws[0] as real, ws[0], Dot(xs[1..], ws[1..]), Sum(ws[1..]));
    }
  }

  /** With non-negative weights the composite lies between 0 and 1.2 times the weight total. */
  lemma CompositeBounds(d: Dims, w: Weights)
    requires DimsInRange(d) && NonNegative(w)
    ensures 0.0 <= Composite(d, w) <= 1.2 * Total(w) as real
  {
    DotBound(Scores(d), WeightList(w));
    TotalIsSum(w);
  }

  /** When every dimension scores the same `c`, the composite is `c` scaled by total/100:
      weights summing to 100 leave the scale unchanged. */
  lemma CompositeUniform(c: int, w: Weights)
    ensures Composite(Dims(c, c, c, c as real, c, c, c), w) == c as real * Total(w) as real / 100.0
  {
    CompositeExpanded(Dims(c, c, c, c as real, c, c, c), w);
  }

  // ---------------------------------------------------------------- reason

  const CityTag: string := "📍 城市匹配"
  const SalaryTag: string := "💰 薪资优厚"
  const StableTag: string := "🛡️ 铁饭碗/稳定"
  const GrowthTag: string := "📈 发展空间大"
  const ProfTag: string := "🎯 专业对口"
  const FallbackReason: string := "✅ 综合条件匹配"

  function NearHomeTag(district: string): string {
    "🏠 离家近(" + district + ")"
  }

  /** The location tag: near home wins over a matching city. */
  function LocationTags(loc: string, district: string, d: Dims): seq<string> {
    if NearHome(loc, district) then [NearHomeTag(district)] else if d.city >= 90 then [CityTag] else []
  }

  /** The one-tag list when the condition holds. */
  function Opt(b: bool, tag: string): seq<string> {
    if b then [tag] else []
  }

  /** The tags `get_reason` collects, in its order. */
  function ReasonTags(loc: string, district: string, d: Dims): seq<string> {
    LocationTags(loc, district, d) + Opt(d.salary >= 110.0, SalaryTag) + Opt(d.stable >= 90, StableTag)
    + Opt(d.growth >= 80, GrowthTag) + Opt(d.prof >= 80, ProfTag)
  }

  /** `" | ".join(tags) if tags else "✅ 综合条件匹配"`. */
  function RenderReason(tags: seq<string>): string {
    if tags == [] then FallbackReason else Join(tags, " | ")
  }

  /** `get_reason`: appends a tag per condition that holds. */
  method GetReason(loc: string, district: string, d: Dims) returns (reason: string)
    ensures reason == RenderReason(ReasonTags(loc, district, d))
  {
    var tags: seq<string> := [];
    if NearHome(loc, district) {
      tags := tags + [NearHomeTag(district)];
    } else if d.city >= 90 {
      tags := tags + [CityTag];
    }
    assert tags == LocationTags(loc, district, d);
    if d.salary >= 110.0 { tags := tags + [SalaryTag]; }
    assert tags == LocationTags(loc, district, d) + Opt(d.salary >= 110.0, SalaryTag);
    if d.stable >= 90 { tags := tags + [StableTag]; }
    assert tags == LocationTags(loc, district, d) + Opt(d.salary >= 110.0, SalaryTag) + Opt(d.stable >= 90, StableTag);
    if d.growth >= 80 { tags := tags + [GrowthTag]; }
    assert tags == LocationTags(loc, district, d) + Opt(d.salary >= 110.0, SalaryTag) + Opt(d.stable >= 90, StableTag)
                   + Opt(d.growth >= 80, GrowthTag);
    if d.prof >= 80 { tags := tags + [ProfTag]; }
    assert tags == ReasonTags(loc, district, d);
    reason := if tags != [] then Join(tags, " | ") else FallbackReason;
  }

  /** Some tag condition of `get_reason` holds. */
  predicate AnyTag(loc: string, district: string, d: Dims) {
    NearHome(loc, district) || d.city >= 90 || d.salary >= 110.0 || d.stable >= 90 || d.growth >= 80 || d.prof >= 80
  }

  /** Every tag starts with its own emoji, and none with the fallback's. */
  lemma TagHeads(loc: string, district: string, d: Dims)
    ensures forall t :: t in ReasonTags(loc, district, d) ==>
              t != [] && t[0] != FallbackReason[0]
              && (t[0] == CityTag[0] <==> t == CityTag)
              && (t[0] == NearHomeTag(district)[0] <==> t == NearHomeTag(district))
  {
    var tags := ReasonTags(loc, district, d);
    forall t | t in tags
      ensures t != [] && t[0] != FallbackReason[0]
      ensures t[0] == CityTag[0] <==> t == CityTag
      ensures t[0] == NearHomeTag(district)[0] <==> t == NearHomeTag(district)
    {
      assert t in LocationTags(loc, district, d) || t in [SalaryTag, StableTag, GrowthTag, ProfTag];
    }
  }

  /** The rationale is never empty, and it is the fallback exactly when no condition holds. */
  lemma ReasonFallback(loc: string, district: string, d: Dims)
    ensures RenderReason(ReasonTags(loc, district, d)) != ""
    ensures RenderReason(ReasonTags(loc, district, d)) == FallbackReason <==> !AnyTag(loc, district, d)
  {
    var tags := ReasonTags(loc, district, d);
    assert tags == [] <==> !AnyTag(loc, district, d);
    if tags != [] {
      TagHeads(loc, district, d);
      assert tags[0] in tags;
      assert Join(tags, " | ")[0] == tags[0][0];
    }
  }

  /** The near-home tag and the city tag never appear together. */
  lemma LocationTagsExclusive(loc: string, district: string, d: Dims)
    ensures !(NearHomeTag(district) in ReasonTags(loc, district, d) && CityTag in ReasonTags(loc, district, d))
  {
    TagHeads(loc, district, d);
    assert NearHomeTag(district)[0] == '🏠' && CityTag[0] == '📍';
  }

  // ------------------------------------------------------------ row scores

  /** The seven scores of one cleaned listing. */
  function ScoreDims(l: Listing, p: Profile): (d: Dims)
    requires p.minSalary > 0.0
    ensures DimsInRange(d)
  {
    Dims(
      EduScore(JobEduLevel(l.eduReq), UserEduLevel(p.education)),
      ExpScore(l.expReq, p.experience),
      ProfessionalScore(l.title, l.industry, KeywordsFor(p.jobCategory), p.industries, p.major),
      SalaryScore(l.avgSalary, p.minSalary),
      CityScore(l.location, p.cities, p.district),
      StabilityScore(l.employerName + l.employerNature),
      GrowthScore(l.title))
  }

  /** One output row of `calculate_scores`. */
  function ScoreRow(l: Listing, p: Profile, w: Weights): Scored
    requires p.minSalary > 0.0
  {
    var d := ScoreDims(l, p);
    Scored(l, JobEduLevel(l.eduReq), d, Composite(d, w), RenderReason(ReasonTags(l.location, p.district, d)))
  }

  /** Scores one listing, running the scorers that the source writes as loops. */
  method ScoreListing(l: Listing, p: Profile, w: Weights) returns (s: Scored)
    requires p.minSalary > 0.0
    ensures s == ScoreRow(l, p, w)
  {
    var level := JobEduLevel(l.eduReq);
    var prof := ScoreProfessional(l.title, l.industry, KeywordsFor(p.jobCategory), p.industries, p.major);
    var stable := ScoreStability(l.employerName, l.employerNature);
    var growth := ScoreGrowth(l.title);
    var d := Dims(EduScore(level, UserEduLevel(p.education)), ExpScore(l.expReq, p.experience), prof,
                  SalaryScore(l.avgSalary, p.minSalary), CityScore(l.location, p.cities, p.district),
                  stable, growth);
    var reason := GetReason(l.location, p.district, d);
    s := Scored(l, level, d, Composite(d, w), reason);
  }

  /** The scored rows of a table, in table order. */
  function ScoreAll(rows: seq<Listing>, p: Profile, w: Weights): (r: seq<Scored>)
    requires p.minSalary > 0.0
    ensures |r| == |rows|
    ensures forall i :: 0 <= i < |rows| ==> r[i].listing == rows[i]
  {
    seq(|rows|, i requires 0 <= i < |rows| => ScoreRow(rows[i], p, w))
  }

  /** The score columns of `calculate_scores`, added row by row. */
  method ScoreTable(rows: seq<Listing>, p: Profile, w: Weights) returns (scored: seq<Scored>)
    requires p.minSalary > 0.0
    ensures scored == ScoreAll(rows, p, w)
  {
    scored := [];
    for i := 0 to |rows|
      invariant scored == ScoreAll(rows[..i], p, w)
    {
      var s := ScoreListing(rows[i], p, w);
      assert rows[..i + 1] == rows[..i] + [rows[i]];
      scored := scored + [s];
    }
    assert rows[..|rows|] == rows;
  }

  // ------------------------------------------------------------------ sort

  /** Non-increasing by composite score. */
  predicate SortedDesc(s: seq<Scored>) {
    forall i, j :: 0 <= i < j < |s| ==> s[i].composite >= s[j].composite
  }

  /** Inserts `x` before the first row that scores no more than it. */
  function Insert(x: Scored, s: seq<Scored>): (r: seq<Scored>)
    ensures |r| == |s| + 1
    ensures multiset(r) == multiset(s) + multiset{x}
  {
    if s == [] then [x]
    else if x.composite >= s[0].composite then [x] + s
    else
      assert s == [s[0]] + s[1..];
      [s[0]] + Insert(x, s[1..])
  }

  /** A row that scores at least the head of a descending sequence can go in front of it. */
  lemma SortedCons(y: Scored, t: seq<Scored>)
    requires SortedDesc(t) && (t != [] ==> t[0].composite <= y.composite)
    ensures SortedDesc([y] + t)
  {
    var r := [y] + t;
    forall i, j | 0 <= i < j < |r| ensures r[i].composite >= r[j].composite {
      assert r[j] == t[j - 1];
      if i > 0 {
        assert r[i] == t[i - 1];
      }
    }
  }

  /** Inserting into a descending sequence keeps it descending. */
  lemma {:induction false} InsertSorted(x: Scored, s: seq<Scored>)
    requires SortedDesc(s)
    ensures SortedDesc(Insert(x, s))
    ensures Insert(x, s)[0] == x || (s != [] && Insert(x, s)[0] == s[0])
  {
    if s == [] {
    } else if x.composite >= s[0].composite {
      SortedCons(x, s);
    } else {
      var t := Insert(x, s[1..]);
      InsertSorted(x, s[1..]);
      SortedCons(s[0], t);
    }
  }

  /** `sort_values(by='综合得分', ascending=False)`: a descending permutation. The order
      among equal scores is not specified by the source and is not promised here. */
  function SortDesc(s: seq<Scored>): (r: seq<Scored>)
    ensures SortedDesc(r)
    ensures multiset(r) == multiset(s)
  {
    if s == [] then []
    else
      assert s == [s[0]] + s[1..];
      var rest := SortDesc(s[1..]);
      InsertSorted(s[0], rest);
      Insert(s[0], rest)
  }
}

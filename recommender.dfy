/** `JobRecommender`: the cleaned listing table it holds and `calculate_scores`. */
module Recommender {
  import opened Records
  import opened Eligibility
  import opened Ranker

  /** A listing table as read: the two salary columns after numeric coercion (None where a
      cell was missing or not a number) and every other column by name (None where a cell
      was missing). */
  datatype RawFrame = RawFrame(
    height: nat,
    salaryMin: seq<Option<real>>,
    salaryMax: seq<Option<real>>,
    text: map<string, seq<Option<string>>>)

  predicate WellFormed(f: RawFrame) {
    |f.salaryMin| == f.height && |f.salaryMax| == f.height
    && forall c :: c in f.text ==> |f.text[c]| == f.height
  }

  const TitleCol: string := "职位名称"
  const IndustryCol: string := "行业"
  const LocationCol: string := "工作地区"
  const EmployerNameCol: string := "单位名称"
  const EmployerNatureCol: string := "单位性质"
  const EduReqCol: string := "学历要求"
  const ExpReqCol: string := "经验要求"

  /** The three salary columns: `__init__` rewrites them as numbers, so a raw column of the
      same name (a re-uploaded export, say) never survives as text. */
  const SalaryCols: set<string> := {"薪资下限", "薪资上限", "平均薪资"}

  /** `str_cols`: the text columns the scorers read. */
  const StrCols: seq<string> := [TitleCol, IndustryCol, LocationCol, EmployerNameCol, EmployerNatureCol, EduReqCol, ExpReqCol]

  /** `fillna(0)` on a coerced numeric column. */
  function FillZero(col: seq<Option<real>>): (r: seq<real>)
    ensures |r| == |col|
    ensures forall i :: 0 <= i < |col| ==> r[i] == (if col[i].Some? then col[i].value else 0.0)
  {
    seq(|col|, i requires 0 <= i < |col| => col[i].GetOr(0.0))
  }

  /** `fillna('')` on a text column. */
  function FillEmpty(col: seq<Option<string>>): (r: seq<Option<string>>)
    ensures |r| == |col|
    ensures forall i :: 0 <= i < |col| ==> r[i].Some? && (col[i].Some? ==> r[i] == col[i])
    ensures forall i :: 0 <= i < |col| ==> col[i].None? ==> r[i] == Some("")
  {
    seq(|col|, i requires 0 <= i < |col| => Some(col[i].GetOr("")))
  }

  /** A text column after cleaning: its cells with '' for the missing ones, or all '' when
      the table lacks the column. */
  function CleanColumn(f: RawFrame, c: string): seq<Option<string>>
    requires WellFormed(f)
  {
    if c in f.text then FillEmpty(f.text[c]) else seq(f.height, _ => Some(""))
  }

  /** The text part of `__init__`: each of the seven text columns is added as '' when
      missing and has its missing cells filled with ''; the other columns are untouched. */
  method CleanText(df: RawFrame) returns (text: map<string, seq<Option<string>>>)
    requires WellFormed(df)
    ensures forall c :: c in text <==> c in df.text || c in StrCols
    ensures forall c :: c in StrCols ==> text[c] == CleanColumn(df, c)
    ensures forall c :: c in df.text && c !in StrCols ==> text[c] == df.text[c]
  {
    text := df.text;
    for k := 0 to |StrCols|
      invariant forall c :: c in text <==> c in df.text || c in StrCols[..k]
      invariant forall c :: c in StrCols[..k] ==> text[c] == CleanColumn(df, c)
      invariant forall c :: c in df.text && c !in StrCols[..k] ==> text[c] == df.text[c]
    {
      var col := StrCols[k];
      if col in text {
        text := text[col := FillEmpty(text[col])];
      } else {
        text := text[col := seq(df.height, _ => Some(""))];
      }
      assert StrCols[..k + 1] == StrCols[..k] + [col];
    }
    assert StrCols[..|StrCols|] == StrCols;
  }

  class JobRecommender {
    var height: nat
    var salaryMin: seq<real>
    var salaryMax: seq<real>
    var avgSalary: seq<real>
    var text: map<string, seq<Option<string>>>

    /** The cleaned table: every column has `height` cells, 平均薪资 is the mean of the
        bounds, and the seven text columns exist with no missing cell. */
    ghost predicate Valid()
      reads this
    {
      |salaryMin| == height && |salaryMax| == height && |avgSalary| == height
      && (forall i :: 0 <= i < height ==> avgSalary[i] == (salaryMin[i] + salaryMax[i]) / 2.0)
      && (forall c :: c in text ==> |text[c]| == height && c !in SalaryCols)
      && (forall c :: c in StrCols ==> c in text && forall i :: 0 <= i < height ==> text[c][i].Some?)
    }

    /** `__init__`: coerces the salary bounds, sets 平均薪资 to their mean (replacing any raw
        column of that name) and makes the text columns present and non-null; no row is
        dropped and the other columns are kept as they are. */
    constructor (df: RawFrame)
      requires WellFormed(df)
      ensures Valid()
      ensures height == df.height
      ensures salaryMin == FillZero(df.salaryMin) && salaryMax == FillZero(df.salaryMax)
      ensures forall c :: c in text <==> (c in df.text || c in StrCols) && c !in SalaryCols
      ensures forall c :: c in StrCols ==> text[c] == CleanColumn(df, c)
      ensures forall c :: c in df.text && c !in StrCols && c !in SalaryCols ==> text[c] == df.text[c]
    {
      var cleaned := CleanText(df);
      height := df.height;
      salaryMin := FillZero(df.salaryMin);
      salaryMax := FillZero(df.salaryMax);
      avgSalary := seq(df.height, i requires 0 <= i < df.height =>
                         (FillZero(df.salaryMin)[i] + FillZero(df.salaryMax)[i]) / 2.0);
      text := cleaned - SalaryCols;
    }

    function Cell(c: string, i: nat): string
      reads this
      requires Valid() && c in StrCols && i < height
    {
      text[c][i].value
    }

    /** Row `i` of the cleaned table as a listing. */
    function Row(i: nat): (l: Listing)
      reads this
      requires Valid() && i < height
      ensures l.id == i && l.avgSalary == (l.salaryMin + l.salaryMax) / 2.0
    {
      Listing(i, Cell(TitleCol, i), Cell(IndustryCol, i), Cell(LocationCol, i), Cell(EmployerNameCol, i),
              Cell(EmployerNatureCol, i), Cell(EduReqCol, i), Cell(ExpReqCol, i),
              salaryMin[i], salaryMax[i], avgSalary[i])
    }

    /** The cleaned table, in row order. */
    function Rows(): (r: seq<Listing>)
      reads this
      requires Valid()
      ensures |r| == height
      ensures forall i :: 0 <= i < |r| ==> r[i].id == i
    {
      seq(height, i requires 0 <= i < height && Valid() reads this => Row(i))
    }

    /** `calculate_scores`: drops the listings above the user's education level, scores the
        rest and returns them sorted by composite score, highest first. */
    method CalculateScores(p: Profile, w: Weights) returns (result: seq<Scored>)
      requires Valid() && p.minSalary > 0.0
      ensures SortedDesc(result)
      ensures multiset(result) == multiset(ScoreAll(Eligible(Rows(), p.education), p, w))
    {
      var kept := Eligible(Rows(), p.education);
      var scored := ScoreTable(kept, p, w);
      result := SortDesc(scored);
    }
  }

  /** What every row handed to the display satisfies: it comes from an eligible listing,
      its education score is 100 exactly when the levels are equal (the listing's level is
      otherwise lower), its scores are in range and its rationale is not empty. */
  lemma {:induction false} ScoredTableFacts(rows: seq<Listing>, p: Profile, w: Weights)
    requires p.minSalary > 0.0
    ensures forall s :: s in ScoreAll(Eligible(rows, p.education), p, w) <==>
              exists l :: l in rows && IsEligible(l, p.education) && s == ScoreRow(l, p, w)
    ensures forall s :: s in ScoreAll(Eligible(rows, p.education), p, w) ==>
              && s.eduLevel <= UserEduLevel(p.education)
              && (s.dims.edu == 100 <==> s.eduLevel == UserEduLevel(p.education))
              && (s.dims.edu == 85 <==> s.eduLevel < UserEduLevel(p.education))
              && DimsInRange(s.dims)
              && s.reason != ""
  {
    var kept := Eligible(rows, p.education);
    var all := ScoreAll(kept, p, w);
    forall s | s in all
      ensures exists l :: l in rows && IsEligible(l, p.education) && s == ScoreRow(l, p, w)
      ensures s.eduLevel <= UserEduLevel(p.education)
      ensures s.dims.edu == 100 <==> s.eduLevel == UserEduLevel(p.education)
      ensures s.dims.edu == 85 <==> s.eduLevel < UserEduLevel(p.education)
      ensures DimsInRange(s.dims) && s.reason != ""
    {
      var i :| 0 <= i < |all| && all[i] == s;
      assert kept[i] in kept;
      ReasonFallback(kept[i].location, p.district, s.dims);
    }
    forall l | l in rows && IsEligible(l, p.education)
      ensures ScoreRow(l, p, w) in all
    {
      var i :| 0 <= i < |kept| && kept[i] == l;
      assert all[i] == ScoreRow(l, p, w);
    }
  }
}

/** The education levels and the hard education filter of `calculate_scores`. */
module Eligibility {
  import opened Text
  import opened Records

  /** The `edu_map` table from requirement text to level. */
  const EduLevels: map<string, int> := map[
    "博士" := 6,
    "硕士研究生" := 5, "硕士" := 5,
    "大学本科" := 4, "本科" := 4,
    "大学专科" := 3, "专科" := 3,
    "中专" := 2, "高中" := 2, "中技" := 2,
    "初中" := 1, "不限" := 0, "" := 0]

  /** The user's level: the whole answer looked up, 3 when it is not a key. */
  function UserEduLevel(education: string): (r: int)
    ensures 0 <= r <= 6
  {
    if education in EduLevels then EduLevels[education] else 3
  }

  /** `get_job_edu_val`: only the text before the first '/' is looked up, 0 when it is not a key. */
  function JobEduLevel(eduReq: string): (r: int)
    ensures 0 <= r <= 6
  {
    var first := FirstToken(eduReq, '/');
    if first in EduLevels then EduLevels[first] else 0
  }

  predicate IsEligible(l: Listing, education: string) {
    JobEduLevel(l.eduReq) <= UserEduLevel(education)
  }

  /** `df[df['学历数值'] <= user_edu_val]`: the listings whose level does not exceed the user's. */
  function Eligible(rows: seq<Listing>, education: string): (r: seq<Listing>)
    ensures forall l :: l in r <==> l in rows && IsEligible(l, education)
    ensures multiset(r) <= multiset(rows)
  {
    if rows == [] then []
    else
      assert rows == [rows[0]] + rows[1..];
      (if IsEligible(rows[0], education) then [rows[0]] else []) + Eligible(rows[1..], education)
  }

  /** The filter works row by row, so it keeps the survivors in their original order. */
  lemma {:induction false} EligibleAppend(a: seq<Listing>, b: seq<Listing>, education: string)
    ensures Eligible(a + b, education) == Eligible(a, education) + Eligible(b, education)
  {
    if a == [] {
      assert a + b == b;
    } else {
      var head := if IsEligible(a[0], education) then [a[0]] else [];
      assert (a + b)[0] == a[0];
      assert (a + b)[1..] == a[1..] + b;
      EligibleAppend(a[1..], b, education);
      calc {
        Eligible(a + b, education);
        head + Eligible(a[1..] + b, education);
        head + (Eligible(a[1..], education) + Eligible(b, education));
        { assert head + (Eligible(a[1..], education) + Eligible(b, education))
            == (head + Eligible(a[1..], education)) + Eligible(b, education); }
        Eligible(a, education) + Eligible(b, education);
      }
    }
  }

  /** A single row survives exactly when it is eligible. */
  lemma EligibleSingle(l: Listing, education: string)
    ensures Eligible([l], education) == if IsEligible(l, education) then [l] else []
  {
    assert [l][1..] == [];
  }

  /** A bachelor ("大学本科", level 4) keeps a "本科/硕士" listing, because only "本科" is read,
      and loses a "硕士" one. */
  lemma BachelorExamples(l: Listing)
    ensures l.eduReq == "本科/硕士" ==> IsEligible(l, "大学本科")
    ensures l.eduReq == "硕士" ==> !IsEligible(l, "大学本科")
  {
    if l.eduReq == "本科/硕士" {
      FirstTokenAt(l.eduReq, '/', 2);
    }
    if l.eduReq == "硕士" {
      FirstTokenAt(l.eduReq, '/', 2);
      assert l.eduReq[..2] == l.eduReq;
    }
  }

  /** The questionnaire's "中专/高中" answer is not a key, so that user gets the default level 3
      and sees "大学专科" listings. */
  lemma SecondaryAnswerDefaults(l: Listing)
    ensures UserEduLevel("中专/高中") == 3
    ensures l.eduReq == "大学专科" ==> IsEligible(l, "中专/高中")
  {
    assert "中专/高中" !in EduLevels;
    if l.eduReq == "大学专科" {
      FirstTokenAt(l.eduReq, '/', 4);
    }
  }

  /** A requirement whose first token is unknown never blocks anybody. */
  lemma UnknownRequirementPasses(l: Listing, education: string)
    requires FirstToken(l.eduReq, '/') !in EduLevels
    ensures IsEligible(l, education)
  {
  }
}

/** The weight vector built from the value-priority answers (Q1, a radio choice, and Q2, the
    "professional fit" slider from 0 to 100). */
module WeightDeriver {
  import opened Text
  import opened Records

  /** The branch Q1 selects: the first of 薪资, 成长, 稳定 that occurs in the answer. */
  datatype Priority = SalaryFirst | GrowthFirst | StabilityFirst | NoPriority

  function PriorityOf(q1: string): (r: Priority)
    ensures r == SalaryFirst <==> Contains("薪资", q1)
    ensures r == GrowthFirst <==> !Contains("薪资", q1) && Contains("成长", q1)
    ensures r == StabilityFirst <==> !Contains("薪资", q1) && !Contains("成长", q1) && Contains("稳定", q1)
  {
    if Contains("薪资", q1) then SalaryFirst
    else if Contains("成长", q1) then GrowthFirst
    else if Contains("稳定", q1) then StabilityFirst
    else NoPriority
  }

  /** The three radio options of Q1. */
  const SalaryOption: string := "💰 薪资回报 (钱给够就行)"
  const GrowthOption: string := "📈 成长空间 (接受起薪低但天花板高)"
  const StabilityOption: string := "🏠 稳定与生活 (离家近/铁饭碗)"

  /** Each radio option selects its own branch. */
  lemma SalaryOptionSelects()
    ensures PriorityOf(SalaryOption) == SalaryFirst
  {
    ContainsAt("薪资", SalaryOption, 2);
  }

  lemma GrowthOptionSelects()
    ensures PriorityOf(GrowthOption) == GrowthFirst
  {
    ContainsAt("成长", GrowthOption, 2);
    assert '资' !in GrowthOption;
    AbsentByChar("薪资", GrowthOption, 1);
  }

  lemma StabilityOptionSelects()
    ensures PriorityOf(StabilityOption) == StabilityFirst
  {
    ContainsAt("稳定", StabilityOption, 2);
    assert '薪' !in StabilityOption && '成' !in StabilityOption;
    AbsentByChar("薪资", StabilityOption, 0);
    AbsentByChar("成长", StabilityOption, 0);
  }

  /** Step 3's weight block: the base weights, one adjustment chosen by Q1, then 专业
      overwritten with `int(10 + q2 / 100 * 15)`. Every branch moves weight between
      dimensions without changing the total, so the result sums to 85 plus 专业, and no
      weight becomes negative. */
  method DeriveWeights(q1: string, q2: int) returns (w: Weights)
    requires 0 <= q2 <= 100
    ensures 100 * w.prof <= 1000 + 15 * q2 < 100 * (w.prof + 1)
    ensures 10 <= w.prof <= 25
    ensures PriorityOf(q1) == SalaryFirst ==> w == Weights(10, 10, w.prof, 40, 15, 10, 0)
    ensures PriorityOf(q1) == GrowthFirst ==> w == Weights(0, 10, w.prof, 15, 25, 35, 0)
    ensures PriorityOf(q1) == StabilityFirst ==> w == Weights(10, 0, w.prof, 10, 35, 5, 25)
    ensures PriorityOf(q1) == NoPriority ==> w == Weights(10, 10, w.prof, 20, 25, 15, 5)
    ensures Total(w) == 85 + w.prof
    ensures NonNegative(w)
  {
    w := Weights(10, 10, 15, 20, 25, 15, 5);
    if Contains("薪资", q1) {
      w := w.(salary := w.salary + 20);
      w := w.(city := w.city - 10);
      w := w.(stable := w.stable - 5);
      w := w.(growth := w.growth - 5);
    } else if Contains("成长", q1) {
      w := w.(growth := w.growth + 20);
      w := w.(salary := w.salary - 5);
      w := w.(stable := w.stable - 5);
      w := w.(edu := w.edu - 10);
    } else if Contains("稳定", q1) {
      w := w.(city := w.city + 10);
      w := w.(stable := w.stable + 20);
      w := w.(salary := w.salary - 10);
      w := w.(growth := w.growth - 10);
      w := w.(exp := w.exp - 10);
    }
    w := w.(prof := (10.0 + q2 as real / 100.0 * 15.0).Floor);
    assert 100.0 * (10.0 + q2 as real / 100.0 * 15.0) == (1000 + 15 * q2) as real;
  }

  /** Salary first with the slider at 50: the salary branch's weights, with 专业 = int(10 + 7.5) = 17. */
  method SalaryFirstAtFifty() returns (w: Weights)
    ensures w == Weights(10, 10, 17, 40, 15, 10, 0)
  {
    assert PriorityOf("薪资") == SalaryFirst by { assert IsPrefix("薪资", "薪资"); }
    w := DeriveWeights("薪资", 50);
  }
}

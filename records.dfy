/** The values the recommender works on: a cleaned listing, the user's profile, the weight
    vector and a scored listing. */
module Records {

  datatype Option<T> = None | Some(value: T) {
    function GetOr(default: T): T {
      match this
      case Some(v) => v
      case None => default
    }
  }

  /** One listing after cleaning: every text column present (empty when the cell was missing),
      salary bounds as numbers (0 when missing) and their mean. `id` is the row's label in
      the listing table, which carries the columns the scorers never read. */
  datatype Listing = Listing(
    id: nat,
    title: string,           // 职位名称
    industry: string,        // 行业
    location: string,        // 工作地区
    employerName: string,    // 单位名称
    employerNature: string,  // 单位性质
    eduReq: string,          // 学历要求
    expReq: string,          // 经验要求
    salaryMin: real,         // 薪资下限
    salaryMax: real,         // 薪资上限
    avgSalary: real)         // 平均薪资

  /** The questionnaire answers. `district` is "" when the user left it blank;
      `cities` is in priority order. */
  datatype Profile = Profile(
    education: string,
    major: string,
    experience: string,
    minSalary: real,
    cities: seq<string>,
    district: string,
    jobCategory: string,
    industries: seq<string>)

  /** The weights dict; its seven keys are 学历, 经验, 专业, 薪资, 城市, 潜力 and 稳定. */
  datatype Weights = Weights(edu: int, exp: int, prof: int, salary: int, city: int, growth: int, stable: int)

  /** The seven dimension score columns S_学历 … S_潜力 of one row. */
  datatype Dims = Dims(edu: int, exp: int, prof: int, salary: real, city: int, stable: int, growth: int)

  /** A listing with its 学历数值, its seven scores, 综合得分 and 推荐理由. */
  datatype Scored = Scored(listing: Listing, eduLevel: int, dims: Dims, composite: real, reason: string)

  function Total(w: Weights): int {
    w.edu + w.exp + w.prof + w.salary + w.city + w.growth + w.stable
  }

  predicate NonNegative(w: Weights) {
    w.edu >= 0 && w.exp >= 0 && w.prof >= 0 && w.salary >= 0 && w.city >= 0 && w.growth >= 0 && w.stable >= 0
  }
}

/** What the results step does with `calculate_scores`' output before display: the shortlist
    rule and the cleaned location names. */
module Presentation {
  import opened Text
  import opened Numbers
  import opened Records
  import opened Ranker

  // ------------------------------------------------------------- shortlist

  /** `results[results['综合得分'] >= 80]`. */
  function HighScoring(results: seq<Scored>): (r: seq<Scored>)
    ensures forall s :: s in r <==> s in results && s.composite >= 80.0
    ensures multiset(r) <= multiset(results)
  {
    if results == [] then []
    else
      assert results == [results[0]] + results[1..];
      (if results[0].composite >= 80.0 then [results[0]] else []) + HighScoring(results[1..])
  }

  /** The rows with a composite of at least 80, or the first 20 rows when there are none,
      sorted again by composite score. */
  function Shortlist(results: seq<Scored>): (r: seq<Scored>)
    ensures SortedDesc(r)
    ensures HighScoring(results) != [] ==> multiset(r) == multiset(HighScoring(results))
    ensures HighScoring(results) == [] ==> multiset(r) == multiset(results[..Min(20, |results|)])
  {
    var high := HighScoring(results);
    SortDesc(if high != [] then high else results[..Min(20, |results|)])
  }

  /** The shortlist has one row per high-scoring row, or min(20, n) rows when there are none. */
  lemma ShortlistLength(results: seq<Scored>)
    ensures |Shortlist(results)| == (if HighScoring(results) != [] then |HighScoring(results)| else Min(20, |results|))
  {
    var r := Shortlist(results);
    var high := HighScoring(results);
    assert |multiset(r)| == |r|;
    if high != [] {
      assert |multiset(high)| == |high|;
    } else {
      var top := results[..Min(20, |results|)];
      assert |multiset(top)| == |top|;
    }
  }

  /** When some row scores at least 80, every shortlisted row does. */
  lemma ShortlistHigh(results: seq<Scored>)
    ensures HighScoring(results) != [] ==> forall s :: s in Shortlist(results) ==> s.composite >= 80.0
  {
    var r := Shortlist(results);
    if HighScoring(results) != [] {
      forall s | s in r ensures s.composite >= 80.0 {
        assert s in multiset(r);
      }
    }
  }

  /** When no row scores 80 and the results are sorted as `calculate_scores` returns them,
      the shortlist holds the best min(20, n) rows: no row left out scores higher than a
      shortlisted one. */
  lemma ShortlistBest(results: seq<Scored>)
    ensures HighScoring(results) == [] && SortedDesc(results) ==>
              forall s, j :: s in Shortlist(results) && 20 <= j < |results| ==> s.composite >= results[j].composite
  {
    var r := Shortlist(results);
    if HighScoring(results) == [] && SortedDesc(results) {
      var top := results[..Min(20, |results|)];
      forall s, j | s in r && 20 <= j < |results| ensures s.composite >= results[j].composite {
        assert s in multiset(r);
        assert s in multiset(top);
        var i :| 0 <= i < |top| && top[i] == s;
        assert results[i] == s;
      }
    }
  }

  // -------------------------------------------------------- location names

  const Province: string := "广东省"
  const WholeCity: string := "市辖区/全城"

  /** The location with the province and every preferred city removed, in turn. */
  function StripNames(loc: string, names: seq<string>): (r: string)
    ensures |r| <= |loc|
    decreases names
  {
    if names == [] then loc else StripNames(RemoveAll(loc, names[0]), names[1..])
  }

  /** The displayed area: what is left after removing the province and the cities, or
      "市辖区/全城" when nothing but whitespace is left. */
  function DisplayArea(loc: string, cities: seq<string>): (r: string)
    ensures !IsBlank(r)
    ensures r == WholeCity || |r| <= |loc|
  {
    var rest := StripNames(RemoveAll(loc, Province), cities);
    if IsBlank(rest) then (assert WholeCity[0] == '市'; WholeCity) else rest
  }

  /** `smart_location_name`: removes a city only when it occurs. */
  method SmartLocationName(loc: string, cities: seq<string>) returns (name: string)
    ensures name == DisplayArea(loc, cities)
  {
    var s := RemoveAll(loc, Province);
    for i := 0 to |cities|
      invariant StripNames(s, cities[i..]) == StripNames(RemoveAll(loc, Province), cities)
    {
      assert cities[i..][1..] == cities[i + 1..];
      if Contains(cities[i], s) {
        s := RemoveAll(s, cities[i]);
      } else {
        RemoveAllAbsent(s, cities[i]);
      }
    }
    name := if !IsBlank(s) then s else WholeCity;
  }

  /** Removing the province from "广东省广州市天河区" leaves "广州市天河区". */
  lemma TianheWithoutProvince()
    ensures RemoveAll("广东省广州市天河区", Province) == "广州市天河区"
  {
    var loc, rest := "广东省广州市天河区", "广州市天河区";
    assert loc[..3] == Province && loc[3..] == rest;
    RemoveAllPrefix(loc, Province);
    AbsentByChar(Province, rest, 1);
    RemoveAllAbsent(rest, Province);
  }

  /** Removing 广州市 from "广州市天河区" leaves "天河区". */
  lemma TianheWithoutCity()
    ensures StripNames("广州市天河区", ["广州市"]) == "天河区"
  {
    var rest, area := "广州市天河区", "天河区";
    assert rest[..3] == "广州市" && rest[3..] == area;
    RemoveAllPrefix(rest, "广州市");
    AbsentByChar("广州市", area, 0);
    RemoveAllAbsent(area, "广州市");
    assert ["广州市"][1..] == [];
  }

  /** "广东省广州市天河区" shown to a user who prefers 广州市 is "天河区". */
  lemma TianheArea()
    ensures DisplayArea("广东省广州市天河区", ["广州市"]) == "天河区"
  {
    TianheWithoutProvince();
    TianheWithoutCity();
    assert !IsSpace("天河区"[0]);
  }
}

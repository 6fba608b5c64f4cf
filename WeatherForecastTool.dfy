/** The weather tool's argument handling and geocoding choice: normalising the city and
    day count, scoring geocoding candidates against the optional place hints, and picking
    the best candidate. The HTTP calls and the forecast fields are left out. */
module WeatherTool {
  import opened Wrappers
  import opened JavaString
  import opened Keys

  const DefaultDays: int := 5
  const MinDays: int := 1
  const MaxDays: int := 16
  const CityRequired: string := "city is required"

  /** One entry of the tool call's argument map as execute reads it: the key is absent,
      present with JSON null, holding a value of the type execute casts it to (a string, or
      a whole number for `days`), or holding a value of some other type. */
  datatype Arg<T> = Absent | Null | Value(value: T) | OtherType

  /** The tool call's arguments. */
  datatype Arguments = Arguments(city: Arg<string>, days: Arg<int>, countryCode: Arg<string>,
                                 admin1: Arg<string>, admin2: Arg<string>, country: Arg<string>)

  /** The exceptions execute raises while reading its arguments: a failed cast of the named
      argument, `intValue` called on a null `days`, or the refusal of a missing city. */
  datatype ArgumentError = ClassCast(key: string) | NullPointer(key: string) | IllegalArgument(message: string)

  /** What a cast to String makes of an argument that is not of another type. */
  function Text(a: Arg<string>): Option<string> {
    if a.Value? then Some(a.value) else None
  }

  /** The first hint, in the order execute casts them, that holds a non-string value. */
  function FirstBadHint(args: Arguments): (r: Option<string>)
    ensures r.None? <==> !args.countryCode.OtherType? && !args.admin1.OtherType?
                         && !args.admin2.OtherType? && !args.country.OtherType?
  {
    if args.countryCode.OtherType? then Some("country_code")
    else if args.admin1.OtherType? then Some("admin1")
    else if args.admin2.OtherType? then Some("admin2")
    else if args.country.OtherType? then Some("country")
    else None
  }

  /** The city as execute reads it: a string that is not blank. */
  predicate CityGiven(args: Arguments) {
    args.city.Value? && !IsBlank(args.city.value)
  }

  /** The optional place hints. */
  datatype GeoHint = GeoHint(countryCode: Option<string>, country: Option<string>,
                             admin1: Option<string>, admin2: Option<string>)

  /** What the tool asks the geocoder and the forecast service. */
  datatype Request = Request(cityName: string, days: int, hint: GeoHint)

  /** A geocoding result; a missing text field reads as "" and a missing population as 0. */
  datatype Candidate = Candidate(countryCode: string, country: string, admin1: string, admin2: string,
                                 population: int)

  predicate Given(h: Option<string>) {
    h.Some? && !IsBlank(h.value)
  }

  /** GeoHint.any */
  predicate Any(hint: GeoHint) {
    Given(hint.countryCode) || Given(hint.country) || Given(hint.admin1) || Given(hint.admin2)
  }

  /** The text before the first comma, or all of it. */
  function BeforeComma(s: string): (r: string)
    ensures StartsWith(s, r) && ',' !in r
    ensures |r| == |s| || s[|r|] == ','
  {
    var comma := IndexOf(s, ',');
    if comma >= 0 then s[..comma] else s
  }

  /** The day count: 5 when absent; a given number is first read as a 32-bit `int`
      (`Number.intValue` keeps the low 32 bits), then forced into [1, 16]. */
  function Days(days: Option<int>): (d: int)
    ensures MinDays <= d <= MaxDays
    ensures days.None? ==> d == DefaultDays
    ensures days.Some? && MinDays <= Wrap32(days.value) <= MaxDays ==> d == Wrap32(days.value)
    ensures days.Some? && Wrap32(days.value) < MinDays ==> d == MinDays
    ensures days.Some? && Wrap32(days.value) > MaxDays ==> d == MaxDays
    ensures days.Some? && INT_MIN <= days.value <= INT_MAX ==> Wrap32(days.value) == days.value
  {
    Max(MinDays, Min(if days.Some? then Wrap32(days.value) else DefaultDays, MaxDays))
  }

  /** The argument handling of execute and geocode, in execute's order: the city is cast
      to a string; `days` is read, failing on null or a non-number; a missing or blank city
      is refused; the four hints are cast to strings; the city is trimmed and cut at its
      first comma (a blank remainder is refused too). */
  function NormalizeArguments(args: Arguments): (r: Result<Request, ArgumentError>)
    ensures args.city.OtherType? ==> r == Err(ClassCast("city"))
    ensures !args.city.OtherType? && args.days.Null? ==> r == Err(NullPointer("days"))
    ensures !args.city.OtherType? && args.days.OtherType? ==> r == Err(ClassCast("days"))
    ensures !args.city.OtherType? && (args.days.Absent? || args.days.Value?) && !CityGiven(args) ==>
      r == Err(IllegalArgument(CityRequired))
    ensures CityGiven(args) && (args.days.Absent? || args.days.Value?) && FirstBadHint(args).Some? ==>
      r == Err(ClassCast(FirstBadHint(args).value))
    ensures CityGiven(args) && (args.days.Absent? || args.days.Value?) && FirstBadHint(args).None? ==>
      (r.Ok? <==> !IsBlank(Trim(BeforeComma(Trim(args.city.value)))))
    ensures r.Ok? ==>
      && CityGiven(args)
      && r.value.cityName == Trim(BeforeComma(Trim(args.city.value)))
      && ',' !in r.value.cityName
      && !IsBlank(r.value.cityName)
      && r.value.days == Days(if args.days.Value? then Some(args.days.value) else None)
      && r.value.hint == GeoHint(Text(args.countryCode), Text(args.country), Text(args.admin1), Text(args.admin2))
    ensures r.Err? && r.error.IllegalArgument? ==> r.error.message == CityRequired
  {
    if args.city.OtherType? then Err(ClassCast("city"))
    else if args.days.Null? then Err(NullPointer("days"))
    else if args.days.OtherType? then Err(ClassCast("days"))
    else
      var days := Days(if args.days.Value? then Some(args.days.value) else None);
      if !CityGiven(args) then Err(IllegalArgument(CityRequired))
      else if FirstBadHint(args).Some? then Err(ClassCast(FirstBadHint(args).value))
      else
        var trimmed := Trim(args.city.value);
        var cityName := if IndexOf(trimmed, ',') >= 0 then Trim(BeforeComma(trimmed)) else trimmed;
        TrimNoCommaOrSame(trimmed);
        TrimChars(BeforeComma(trimmed));
        if IsBlank(cityName) then Err(IllegalArgument(CityRequired))
        else Ok(Request(cityName, days, GeoHint(Text(args.countryCode), Text(args.country), Text(args.admin1), Text(args.admin2))))
  }

  /** A `days` key holding null fails, where leaving the key out gives 5 days. */
  lemma NullDaysFails(city: string)
    requires !IsBlank(city) && ',' !in city && city == Trim(city)
    ensures NormalizeArguments(Arguments(Value(city), Null, Absent, Absent, Absent, Absent)) == Err(NullPointer("days"))
    ensures NormalizeArguments(Arguments(Value(city), Absent, Absent, Absent, Absent, Absent)).Ok?
    ensures NormalizeArguments(Arguments(Value(city), Absent, Absent, Absent, Absent, Absent)).value.days == DefaultDays
  {
    TrimNoCommaOrSame(city);
  }

  /** Without a comma, cutting leaves a trimmed text as it is. */
  lemma TrimNoCommaOrSame(t: string)
    requires t == [] || (!IsTrimmable(t[0]) && !IsTrimmable(t[|t| - 1]))
    ensures IndexOf(t, ',') < 0 ==> Trim(BeforeComma(t)) == t
  {
    if IndexOf(t, ',') < 0 && |t| > 0 {
      assert TrimStart(t) == t;
    }
  }

  /** `s` begins with `prefix`, comparing lower-cased characters. */
  predicate StartsWithIgnoreCase(s: string, prefix: string)
    decreases |prefix|
  {
    |prefix| == 0 || (|s| > 0 && LowerChar(s[0]) == LowerChar(prefix[0]) && StartsWithIgnoreCase(s[1..], prefix[1..]))
  }

  /** containsIgnoreCase: `needle` starts at some position of `haystack`, ignoring case. */
  predicate ContainsIgnoreCase(haystack: string, needle: string)
    decreases |haystack|
  {
    StartsWithIgnoreCase(haystack, needle) || (|haystack| > 0 && ContainsIgnoreCase(haystack[1..], needle))
  }

  lemma {:induction false} StartsWithLower(s: string, prefix: string)
    ensures StartsWithIgnoreCase(s, prefix) <==> OccursAt(ToLower(s), ToLower(prefix), 0)
    decreases |prefix|
  {
    var ls, lp := ToLower(s), ToLower(prefix);
    if |prefix| > 0 && |s| > 0 {
      StartsWithLower(s[1..], prefix[1..]);
      assert ToLower(s[1..]) == ls[1..];
      assert ToLower(prefix[1..]) == lp[1..];
      if |lp| <= |ls| {
        assert ls[..|lp|] == [ls[0]] + ls[1..][..|lp| - 1];
        assert lp == [lp[0]] + lp[1..];
      }
    }
  }

  /** A text contains `sub` when `sub` starts at its first position or its rest contains it. */
  lemma ContainsStep(s: string, sub: string)
    requires |s| > 0
    ensures Contains(s, sub) <==> OccursAt(s, sub, 0) || Contains(s[1..], sub)
  {
    if Contains(s, sub) {
      var i :| 0 <= i <= |s| - |sub| && OccursAt(s, sub, i);
      if i > 0 {
        assert s[1..][i - 1..i - 1 + |sub|] == s[i..i + |sub|];
        assert OccursAt(s[1..], sub, i - 1);
      }
    }
    if Contains(s[1..], sub) {
      var i :| 0 <= i <= |s| - 1 - |sub| && OccursAt(s[1..], sub, i);
      assert s[1..][i..i + |sub|] == s[i + 1..i + 1 + |sub|];
      assert OccursAt(s, sub, i + 1);
    }
  }

  /** On ASCII letters, the scan agrees with Java's `haystack.toLowerCase().contains(needle.toLowerCase())`. */
  lemma {:induction false} ContainsIgnoreCaseLowers(haystack: string, needle: string)
    ensures ContainsIgnoreCase(haystack, needle) <==> Contains(ToLower(haystack), ToLower(needle))
    decreases |haystack|
  {
    StartsWithLower(haystack, needle);
    var lh, ln := ToLower(haystack), ToLower(needle);
    if |haystack| > 0 {
      ContainsIgnoreCaseLowers(haystack[1..], needle);
      assert ToLower(haystack[1..]) == lh[1..];
      ContainsStep(lh, ln);
    } else if Contains(lh, ln) {
      assert OccursAt(lh, ln, 0);
    }
  }

  /** matches: a given hint, trimmed, occurs in the field, ignoring case. */
  predicate Matches(actual: string, hint: Option<string>) {
    Given(hint) && ContainsIgnoreCase(actual, Trim(hint.value))
  }

  /** scoreCandidate: 10 for the country code, 6 for the country, 8 for the region and 4
      for the county. */
  function Score(c: Candidate, hint: GeoHint): (s: int)
    ensures 0 <= s <= 28
  {
    (if Matches(c.countryCode, hint.countryCode) then 10 else 0)
    + (if Matches(c.country, hint.country) then 6 else 0)
    + (if Matches(c.admin1, hint.admin1) then 8 else 0)
    + (if Matches(c.admin2, hint.admin2) then 4 else 0)
  }

  /** The top score means every hint matched; without hints every candidate scores 0. */
  lemma ScoreBounds(c: Candidate, hint: GeoHint)
    ensures Score(c, hint) == 28 <==> Matched(c, hint) == (true, true, true, true)
    ensures !Any(hint) ==> Score(c, hint) == 0
  {
  }

  /** The hints a candidate matches, as flags in the order country code, country, region,
      county. */
  function Matched(c: Candidate, hint: GeoHint): (bool, bool, bool, bool) {
    (Matches(c.countryCode, hint.countryCode), Matches(c.country, hint.country),
     Matches(c.admin1, hint.admin1), Matches(c.admin2, hint.admin2))
  }

  /** A candidate matching every hint another matches, and one more, scores higher. */
  lemma MoreMatchesScoreHigher(a: Candidate, b: Candidate, hint: GeoHint)
    requires var ma := Matched(a, hint); var mb := Matched(b, hint);
      && (ma.0 ==> mb.0) && (ma.1 ==> mb.1) && (ma.2 ==> mb.2) && (ma.3 ==> mb.3) && ma != mb
    ensures Score(b, hint) > Score(a, hint)
  {
  }

  /** The country code alone scores as much as the country and the county together, so
      between those two candidates population decides. */
  lemma CountryCodeTiesCountryAndCounty(a: Candidate, b: Candidate, hint: GeoHint)
    requires Matched(a, hint) == (true, false, false, false)
    requires Matched(b, hint) == (false, true, false, true)
    ensures Score(a, hint) == Score(b, hint)
    ensures Above(Score(a, hint), a.population, Score(b, hint), b.population) <==> a.population > b.population
  {
  }

  /** A (score, population) pair ranks above another: a higher score, or the same score
      and a larger population. */
  predicate Above(score1: int, population1: int, score2: int, population2: int) {
    score1 > score2 || (score1 == score2 && population1 > population2)
  }

  /** The score of each candidate, in order. */
  function Scores(results: seq<Candidate>, hint: GeoHint): (r: seq<int>)
    ensures |r| == |results|
  {
    if |results| == 0 then [] else [Score(results[0], hint)] + Scores(results[1..], hint)
  }

  lemma {:induction false} ScoresAt(results: seq<Candidate>, hint: GeoHint, j: nat)
    requires j < |results|
    ensures Scores(results, hint)[j] == Score(results[j], hint)
    decreases j
  {
    if j > 0 {
      ScoresAt(results[1..], hint, j - 1);
    }
  }

  /** Candidate `j` of `results` ranks above candidate `k`. */
  predicate Ranks(results: seq<Candidate>, hint: GeoHint, j: nat, k: nat)
    requires j < |results| && k < |results|
  {
    var scores := Scores(results, hint);
    Above(scores[j], results[j].population, scores[k], results[k].population)
  }

  /** Ranking compares the candidates' scores, then their populations. */
  lemma RanksByScore(results: seq<Candidate>, hint: GeoHint, j: nat, k: nat)
    requires j < |results| && k < |results|
    ensures Ranks(results, hint, j, k) <==>
      Above(Score(results[j], hint), results[j].population, Score(results[k], hint), results[k].population)
  {
    ScoresAt(results, hint, j);
    ScoresAt(results, hint, k);
  }

  /** Ranking is a strict total order on (score, population) pairs, so a candidate above
      the best so far is above every candidate before it. */
  lemma TakesTheLead(scores: seq<int>, results: seq<Candidate>, i: nat, bestScore: int, bestPopulation: int)
    requires i < |scores| == |results|
    requires forall j | 0 <= j < i :: !Above(scores[j], results[j].population, bestScore, bestPopulation)
    requires Above(scores[i], results[i].population, bestScore, bestPopulation)
    ensures forall j | 0 <= j <= i ::
      !Above(scores[j], results[j].population, scores[i], results[i].population)
    ensures forall j | 0 <= j < i ::
      Above(scores[i], results[i].population, scores[j], results[j].population)
  {
  }

  /** chooseBestResult: the first candidate without hints; otherwise the first candidate
      that no other candidate ranks above. */
  method ChooseBestResult(results: seq<Candidate>, hint: GeoHint) returns (best: nat)
    requires |results| > 0
    ensures best < |results|
    ensures !Any(hint) ==> best == 0
    ensures Any(hint) ==> forall j | 0 <= j < |results| :: !Ranks(results, hint, j, best)
    ensures Any(hint) ==> forall j | 0 <= j < best :: Ranks(results, hint, best, j)
  {
    if !Any(hint) {
      return 0;
    }
    ghost var scores := Scores(results, hint);
    var bestScore := INT_MIN;
    var bestPopulation := -1;
    best := 0;
    var i := 0;
    while i < |results|
      invariant 0 <= i <= |results| && best < |results|
      invariant i == 0 ==> bestScore == INT_MIN && best == 0
      invariant i > 0 ==> best < i && bestScore == scores[best] && bestPopulation == results[best].population
      invariant forall j | 0 <= j < i :: !Above(scores[j], results[j].population, bestScore, bestPopulation)
      invariant forall j | 0 <= j < best :: Above(bestScore, bestPopulation, scores[j], results[j].population)
    {
      var r := results[i];
      var score := Score(r, hint);
      ScoresAt(results, hint, i);
      var pop := r.population;
      if score > bestScore || (score == bestScore && pop > bestPopulation) {
        TakesTheLead(scores, results, i, bestScore, bestPopulation);
        bestScore := score;
        bestPopulation := pop;
        best := i;
      } else {
        assert !Above(scores[i], results[i].population, bestScore, bestPopulation);
      }
      i := i + 1;
    }
  }
}

// universities/enhanced_scraper.py: the pure post-processing of a scraped
// page. Fetching and parsing the page, the regular expressions and the
// country database are oracles whose results are parameters.
module Scraper {
  import opened Common
  import opened Text
  import opened Dedup

  // ---------------------------------------------------------------------
  // _calculate_confidence_score

  /** The fee fields the score looks at; a present zero is falsy but not None. */
  datatype Fees = Fees(
    tuitionDomestic: Option<int>,
    tuitionInternational: Option<int>,
    tuitionGeneral: Option<int>,
    applicationFee: Option<int>,
    depositAmount: Option<int>)

  predicate NumberTruthy(v: Option<int>)
  {
    v.Some? && v.value != 0
  }

  /** The score as a sum of its parts, before the final cap of 100. */
  function Points(f: Fees, intakes: nat, scholarships: nat, bachelors: nat, masters: nat): int
  {
    (if NumberTruthy(f.tuitionDomestic) || NumberTruthy(f.tuitionInternational) || NumberTruthy(f.tuitionGeneral) then 20 else 0)
    + (if f.applicationFee.Some? then 10 else 0)
    + (if NumberTruthy(f.depositAmount) then 10 else 0)
    + Min(4 * intakes, 20) + Min(2 * (bachelors + masters), 25) + Min(2 * scholarships, 15)
  }

  /**
   * `_calculate_confidence_score`, on the lengths of the extracted lists:
   * the score always lies in [0, 100] and equals the uncapped sum of its
   * parts, which never exceeds 100.
   */
  method ConfidenceScore(f: Fees, intakes: nat, scholarships: nat, bachelors: nat, masters: nat) returns (score: int)
    ensures score == Points(f, intakes, scholarships, bachelors, masters)
    ensures 0 <= score <= 100
  {
    score := 0;
    if NumberTruthy(f.tuitionDomestic) || NumberTruthy(f.tuitionInternational) || NumberTruthy(f.tuitionGeneral) {
      score := score + 20;
    }
    if f.applicationFee.Some? {
      score := score + 10;
    }
    if NumberTruthy(f.depositAmount) {
      score := score + 10;
    }
    if intakes > 0 {
      score := score + Min(4 * intakes, 20);
    }
    var total := bachelors + masters;
    if total > 0 {
      score := score + Min(2 * total, 25);
    }
    if scholarships > 0 {
      score := score + Min(2 * scholarships, 15);
    }
    score := Min(score, 100);
  }

  /** More intakes, programs or scholarships never lower the score. */
  lemma PointsMonotone(f: Fees, i1: nat, s1: nat, b1: nat, m1: nat, i2: nat, s2: nat, b2: nat, m2: nat)
    requires i1 <= i2 && s1 <= s2 && b1 + m1 <= b2 + m2
    ensures Points(f, i1, s1, b1, m1) <= Points(f, i2, s2, b2, m2)
  {
  }

  /** A zero application fee still earns its 10 points; a zero deposit does not. */
  lemma ZeroApplicationFeeCounts(f: Fees, intakes: nat, scholarships: nat, bachelors: nat, masters: nat)
    ensures Points(f.(applicationFee := Some(0)), intakes, scholarships, bachelors, masters)
            == Points(f.(applicationFee := None), intakes, scholarships, bachelors, masters) + 10
    ensures Points(f.(depositAmount := Some(0)), intakes, scholarships, bachelors, masters)
            == Points(f.(depositAmount := None), intakes, scholarships, bachelors, masters)
  {
  }

  // ---------------------------------------------------------------------
  // _deduplicate_programs

  /** A program entry; `thesisRequired` is the key only master programs carry. */
  datatype Program = Program(name: string, durationYears: int, thesisRequired: Option<bool>)

  /** The name a program is compared by: lowercased, then stripped. */
  function NameKey(p: Program): string
  {
    Strip(Lower(p.name))
  }

  /** `_deduplicate_programs`: a loop with a set of the name keys seen so far. */
  method DeduplicatePrograms(programs: seq<Program>) returns (unique: seq<Program>)
    ensures unique == FirstOfEach(programs, NameKey)
  {
    unique := [];
    var seen: set<string> := {};
    for i := 0 to |programs|
      invariant unique == FirstOfEach(programs[..i], NameKey)
      invariant seen == Keys(programs[..i], NameKey)
    {
      FirstOfEachStep(programs, i, NameKey);
      var key := NameKey(programs[i]);
      if key !in seen {
        seen := seen + {key};
        unique := unique + [programs[i]];
      }
    }
    assert programs[..|programs|] == programs;
  }

  /**
   * The deduplicated programs: the first of each name key in order, with
   * pairwise different keys and every key of the input kept.
   */
  lemma DeduplicatedPrograms(programs: seq<Program>)
    ensures Keys(FirstOfEach(programs, NameKey), NameKey) == Keys(programs, NameKey)
    ensures forall a, b :: 0 <= a < b < |FirstOfEach(programs, NameKey)| ==>
      NameKey(FirstOfEach(programs, NameKey)[a]) != NameKey(FirstOfEach(programs, NameKey)[b])
    ensures forall k :: 0 <= k < |programs| ==>
      (k in FirstIndices(programs, NameKey) <==> !SeenBefore(programs, k, NameKey))
  {
    FirstOfEachKeySet(programs, NameKey);
    FirstOfEachDistinct(programs, NameKey);
    FirstOccurrences(programs, NameKey);
  }

  // ---------------------------------------------------------------------
  // extract_programs

  function ExcludedTerms(): seq<string>
  {
    ["skip to", "site map", "campus map", "site feedback", "main content"]
  }

  function BachelorTerms(): seq<string>
  {
    ["bachelor", "undergraduate", "bsc", "ba", "beng", "lisans", "ön lisans"]
  }

  function MasterTerms(): seq<string>
  {
    ["master", "graduate", "msc", "ma", "meng", "phd", "doctorate", "yüksek lisans", "doktora", "master", "tezli", "tezsiz"]
  }

  function GenericLinks(): seq<string>
  {
    ["undergraduate programs", "graduate programs", "bachelor programs", "master programs"]
  }

  /** Some term of the list occurs in the text. */
  predicate AnyIn(text: string, terms: seq<string>)
  {
    exists k :: 0 <= k < |terms| && Contains(text, terms[k])
  }

  datatype Level = Bachelor | Master

  /**
   * The level an element's text is filed under, or None when it is
   * skipped: too short or too long, a navigation text, no program term,
   * or a generic link. Bachelor terms win when both lists match.
   */
  function Classify(text: string): Option<Level>
  {
    var low := Lower(text);
    if |text| < 5 || |text| > 150 then None
    else if AnyIn(low, ExcludedTerms()) then None
    else if !(AnyIn(low, BachelorTerms()) || AnyIn(low, MasterTerms())) then None
    else if low in GenericLinks() then None
    else if AnyIn(low, BachelorTerms()) then Some(Bachelor)
    else Some(Master)
  }

  /** The program an element becomes at its level. */
  function ProgramOf(text: string, level: Level): Program
  {
    if level == Bachelor then Program(text, 4, None) else Program(text, 2, Some(true))
  }

  /** The programs filed under `level`, in page order, before deduplication. */
  function Found(texts: seq<string>, level: Level): seq<Program>
  {
    if texts == [] then []
    else
      var t := texts[|texts| - 1];
      Found(texts[..|texts| - 1], level) + (if Classify(t) == Some(level) then [ProgramOf(t, level)] else [])
  }

  /**
   * Everything filed under a level was classified at that level, so it is
   * 5 to 150 characters long; bachelor programs last 4 years with no thesis
   * key, master programs 2 years with a thesis.
   */
  lemma {:induction false} FoundShape(texts: seq<string>, level: Level)
    ensures forall k :: 0 <= k < |Found(texts, level)| ==>
      var p := Found(texts, level)[k];
      Classify(p.name) == Some(level) && 5 <= |p.name| <= 150
      && (level == Bachelor ==> p.durationYears == 4 && p.thesisRequired.None?)
      && (level == Master ==> p.durationYears == 2 && p.thesisRequired == Some(true))
  {
    if texts != [] {
      FoundShape(texts[..|texts| - 1], level);
    }
  }

  /** A text with a bachelor term and a master term is a bachelor program. */
  lemma BachelorWins(text: string)
    requires 5 <= |text| <= 150 && !AnyIn(Lower(text), ExcludedTerms()) && Lower(text) !in GenericLinks()
    requires AnyIn(Lower(text), BachelorTerms()) && AnyIn(Lower(text), MasterTerms())
    ensures Classify(text) == Some(Bachelor)
  {
  }

  /**
   * `extract_programs` on the texts of the page's candidate elements:
   * each level deduplicated by name key and cut to 15.
   */
  method ExtractPrograms(texts: seq<string>) returns (bachelors: seq<Program>, masters: seq<Program>)
    ensures bachelors == Take(FirstOfEach(Found(texts, Bachelor), NameKey), 15)
    ensures masters == Take(FirstOfEach(Found(texts, Master), NameKey), 15)
    ensures |bachelors| <= 15 && |masters| <= 15
  {
    var bs, ms := [], [];
    for i := 0 to |texts|
      invariant bs == Found(texts[..i], Bachelor) && ms == Found(texts[..i], Master)
    {
      assert texts[..i + 1][..i] == texts[..i];
      var c := Classify(texts[i]);
      if c == Some(Bachelor) {
        bs := bs + [ProgramOf(texts[i], Bachelor)];
      } else if c == Some(Master) {
        ms := ms + [ProgramOf(texts[i], Master)];
      }
    }
    assert texts[..|texts|] == texts;
    bs := DeduplicatePrograms(bs);
    ms := DeduplicatePrograms(ms);
    bachelors, masters := Take(bs, 15), Take(ms, 15);
  }

  // ---------------------------------------------------------------------
  // extract_country_from_url

  function UpperChar(c: char): char
  {
    if 'a' <= c <= 'z' then (c as int - 32) as char else c
  }

  function Upper(s: string): string
  {
    seq(|s|, i requires 0 <= i < |s| => UpperChar(s[i]))
  }

  /** The country of each academic top-level domain the scraper knows. */
  function TldCountries(): map<string, string>
  {
    map[
      "EDU" := "United States", "AC" := "United Kingdom", "UK" := "United Kingdom", "CA" := "Canada",
      "AU" := "Australia", "DE" := "Germany", "FR" := "France", "NL" := "Netherlands", "SE" := "Sweden",
      "DK" := "Denmark", "NO" := "Norway", "FI" := "Finland", "TR" := "Türkiye"]
  }

  /** The country a domain's name points at, if any keyword occurs in it. */
  function DomainCountry(domain: string): Option<string>
  {
    var d := Lower(domain);
    if Contains(d, "toronto") || Contains(d, "utoronto") then Some("Canada")
    else if Contains(d, "harvard") || Contains(d, "mit") || Contains(d, "stanford") then Some("United States")
    else if Contains(d, "oxford") || Contains(d, "cambridge") then Some("United Kingdom")
    else if Contains(d, "istanbul") || Contains(d, "itu") || Contains(d, "bogazici") then Some("Türkiye")
    else None
  }

  /**
   * `extract_country_from_url` on the registered domain and public suffix
   * of the URL; `alpha2` is the country database by two-letter code.
   */
  function CountryFromUrl(domain: string, suffix: string, alpha2: map<string, string>): string
  {
    var labels := Split(suffix, '.');
    var tld := Upper(labels[|labels| - 1]);
    if DomainCountry(domain).Some? then DomainCountry(domain).value
    else if tld in TldCountries() then TldCountries()[tld]
    else if |tld| == 2 && tld in alpha2 then alpha2[tld]
    else ""
  }

  /**
   * Domain keywords are checked before the top-level domain; 'EDU' is the
   * United States and 'TR' Türkiye; an unknown top-level domain that is
   * not two letters long gives ''.
   */
  lemma CountryRules(domain: string, suffix: string, alpha2: map<string, string>)
    ensures DomainCountry(domain).Some? ==> CountryFromUrl(domain, suffix, alpha2) == DomainCountry(domain).value
    ensures DomainCountry(domain).None? && Upper(Split(suffix, '.')[|Split(suffix, '.')| - 1]) == "EDU" ==>
      CountryFromUrl(domain, suffix, alpha2) == "United States"
    ensures DomainCountry(domain).None? && Upper(Split(suffix, '.')[|Split(suffix, '.')| - 1]) == "TR" ==>
      CountryFromUrl(domain, suffix, alpha2) == "Türkiye"
    ensures var tld := Upper(Split(suffix, '.')[|Split(suffix, '.')| - 1]);
      DomainCountry(domain).None? && tld !in TldCountries() && |tld| != 2 ==> CountryFromUrl(domain, suffix, alpha2) == ""
  {
    var m := TldCountries();
    assert "EDU" in m && m["EDU"] == "United States";
    assert "TR" in m && m["TR"] == "Türkiye";
  }

  // ---------------------------------------------------------------------
  // extract_intakes_and_deadlines

  datatype Season = Fall | Spring | Summer | Winter

  /** `season.capitalize()` */
  function SeasonName(s: Season): string
  {
    match s
    case Fall => "Fall"
    case Spring => "Spring"
    case Summer => "Summer"
    case Winter => "Winter"
  }

  /**
   * One intake-pattern match, in the order the scraper meets them: its
   * season, its first group, and the deposit text kept for it. Each
   * deposit pattern's first match near the intake overwrites the one
   * before (the `break` leaves only that pattern's loop), so the value
   * kept is the first match of the last deposit pattern that matches.
   */
  datatype Candidate = Candidate(season: Season, deadline: Option<string>, deposit: Option<string>)

  datatype Intake = Intake(name: string, applicationDeadline: string, startDate: string, depositDeadline: string)

  /** The intake a match builds: stripped groups cut to 100 characters. */
  function IntakeOf(c: Candidate): Intake
  {
    Intake(SeasonName(c.season),
           if Truthy(c.deadline) then Take(Strip(c.deadline.value), 100) else "",
           "",
           if c.deposit.Some? then Take(Strip(c.deposit.value), 100) else "")
  }

  /** Intakes are told apart by name, which is their season's. */
  function SeasonKey(c: Candidate): string
  {
    SeasonName(c.season)
  }

  /** The intakes built from the matches kept. */
  function Built(d: seq<Candidate>): (r: seq<Intake>)
    ensures |r| == |d|
    ensures forall k :: 0 <= k < |d| ==> r[k] == IntakeOf(d[k])
  {
    seq(|d|, k requires 0 <= k < |d| => IntakeOf(d[k]))
  }

  /** The intakes kept: built from the first match of each season name. */
  function Intakes(cs: seq<Candidate>): seq<Intake>
  {
    Built(FirstOfEach(cs, SeasonKey))
  }

  lemma BuiltAppend(d: seq<Candidate>, c: Candidate)
    ensures Built(d + [c]) == Built(d) + [IntakeOf(c)]
  {
  }

  /** One match more: its intake is added unless one of that name is already kept. */
  lemma IntakesStep(cs: seq<Candidate>, i: nat)
    requires i < |cs|
    ensures var r, c := Intakes(cs[..i]), IntakeOf(cs[i]);
      Intakes(cs[..i + 1]) == if exists k :: 0 <= k < |r| && r[k].name == c.name then r else r + [c]
  {
    FirstOfEachStep(cs, i, SeasonKey);
    FirstOfEachKeySet(cs[..i], SeasonKey);
    var d := FirstOfEach(cs[..i], SeasonKey);
    BuiltNames(d, IntakeOf(cs[i]).name);
    BuiltAppend(d, cs[i]);
  }

  /** A name is among the built intakes exactly when it is a key of the matches. */
  lemma BuiltNames(d: seq<Candidate>, name: string)
    ensures (exists k :: 0 <= k < |Built(d)| && Built(d)[k].name == name) <==> name in Keys(d, SeasonKey)
  {
    if name in Keys(d, SeasonKey) {
      var j :| 0 <= j < |d| && SeasonKey(d[j]) == name;
      assert Built(d)[j].name == name;
    }
  }

  /**
   * The kept intakes have distinct names, one per season met, at most
   * four, with deadlines of at most 100 characters and no start date.
   */
  lemma IntakesRules(cs: seq<Candidate>)
    ensures var r := Intakes(cs);
      |r| == |Keys(cs, SeasonKey)| && |r| <= 4
      && (forall a, b :: 0 <= a < b < |r| ==> r[a].name != r[b].name)
      && (forall k :: 0 <= k < |r| ==> |r[k].applicationDeadline| <= 100 && |r[k].depositDeadline| <= 100 && r[k].startDate == "")
  {
    FirstOfEachDistinct(cs, SeasonKey);
    FirstOfEachCount(cs, SeasonKey);
    var all := {"Fall", "Spring", "Summer", "Winter"};
    forall x | x in Keys(cs, SeasonKey)
      ensures x in all
    {
      var j :| 0 <= j < |cs| && SeasonKey(cs[j]) == x;
    }
    SubsetCard(Keys(cs, SeasonKey), all);
  }

  lemma SubsetCard<T>(a: set<T>, b: set<T>)
    requires a <= b
    ensures |a| <= |b|
  {
    assert b == a + (b - a);
  }

  /** The general deposit strings: each stripped and cut to 150 characters. */
  function DepositInfo(deposits: seq<string>): (r: seq<string>)
    ensures |r| == |deposits|
    ensures forall k :: 0 <= k < |r| ==> r[k] == Take(Strip(deposits[k]), 150) && |r[k]| <= 150
  {
    seq(|deposits|, k requires 0 <= k < |deposits| => Take(Strip(deposits[k]), 150))
  }

  /** The intake loop: a match is kept unless an intake of its name already is. */
  method KeepIntakes(cs: seq<Candidate>) returns (intakes: seq<Intake>)
    ensures intakes == Intakes(cs)
  {
    intakes := [];
    for i := 0 to |cs|
      invariant intakes == Intakes(cs[..i])
    {
      IntakesStep(cs, i);
      var intake := IntakeOf(cs[i]);
      if !(exists k | 0 <= k < |intakes| :: intakes[k].name == intake.name) {
        intakes := intakes + [intake];
      }
    }
    assert cs[..|cs|] == cs;
  }

  /** The deposit loop: every general deposit match, stripped and cut. */
  method CollectDeposits(deposits: seq<string>) returns (info: seq<string>)
    ensures info == DepositInfo(deposits)
  {
    info := [];
    for i := 0 to |deposits|
      invariant info == DepositInfo(deposits[..i])
    {
      info := info + [Take(Strip(deposits[i]), 150)];
    }
    assert deposits[..|deposits|] == deposits;
  }

  /**
   * `extract_intakes_and_deadlines` after matching: the first intake of
   * each season name, at most 6 intakes and at most 3 deposit strings.
   */
  method ExtractIntakes(cs: seq<Candidate>, deposits: seq<string>) returns (intakes: seq<Intake>, depositInfo: seq<string>)
    ensures intakes == Take(Intakes(cs), 6) && depositInfo == Take(DepositInfo(deposits), 3)
    ensures |intakes| <= 4 && |depositInfo| <= 3
    ensures forall a, b :: 0 <= a < b < |intakes| ==> intakes[a].name != intakes[b].name
  {
    var kept := KeepIntakes(cs);
    IntakesRules(cs);
    var info := CollectDeposits(deposits);
    intakes, depositInfo := Take(kept, 6), Take(info, 3);
  }
}

// The data-maintenance commands over the university table:
// populate_all_real_data (fill empty universities from a country
// template), fix_intake_formats (reduce deadlines to their first word)
// and fetch_scholarships (replace every university's scholarships with
// records of the external API). The table is a class whose rows the
// commands rewrite in place; the API response and the saves that fail
// are parameters.
module DataCommands {
  import opened Common
  import opened Text
  import opened Scholarships

  /**
   * A program entry of a template: its name, duration in months (1.5
   * years is 18), language and, for master programs, whether a thesis is
   * required.
   */
  datatype ProgramEntry = ProgramEntry(
    programName: string,
    durationMonths: int,
    language: string,
    thesisRequired: Option<bool>)

  /** An intake as stored: a JSON object with string values. */
  type IntakeObject = map<string, string>

  /** The three-key intake object the templates and the intake fix write. */
  function IntakeMap(name: string, deadline: string, deposit: string): (m: IntakeObject)
    ensures m.Keys == {"name", "application_deadline", "deposit_deadline"}
    ensures m["name"] == name && m["application_deadline"] == deadline && m["deposit_deadline"] == deposit
  {
    map["name" := name, "application_deadline" := deadline, "deposit_deadline" := deposit]
  }

  /** The university columns these commands read and write. */
  datatype UniversityRow = UniversityRow(
    id: int,
    country: string,
    bachelorPrograms: seq<ProgramEntry>,
    mastersPrograms: seq<ProgramEntry>,
    scholarships: seq<Scholarship>,
    intakes: seq<IntakeObject>)

  // ---------------------------------------------------------------------
  // populate_all_real_data

  /** The four lists a template supplies. */
  datatype Template = Template(
    bachelorPrograms: seq<ProgramEntry>,
    mastersPrograms: seq<ProgramEntry>,
    scholarships: seq<Scholarship>,
    intakes: seq<IntakeObject>)

  /** A template with none of its four lists empty. */
  predicate Full(t: Template)
  {
    t.bachelorPrograms != [] && t.mastersPrograms != [] && t.scholarships != [] && t.intakes != []
  }

  function UnitedStatesTemplate(): (t: Template)
    ensures Full(t)
  {
    Template(
      [ProgramEntry("Computer Science", 48, "English", None),
       ProgramEntry("Business Administration", 48, "English", None),
       ProgramEntry("Engineering", 48, "English", None),
       ProgramEntry("Psychology", 48, "English", None)],
      [ProgramEntry("Master of Science in Computer Science", 24, "English", Some(true)),
       ProgramEntry("MBA", 24, "English", Some(false)),
       ProgramEntry("Master of Engineering", 18, "English", Some(false))],
      [Scholarship("Merit-Based Scholarship", "Partial to full tuition", "High academic achievement", ""),
       Scholarship("Need-Based Financial Aid", "Varies based on family income", "Financial need demonstration", "")],
      [IntakeMap("Fall (August-September)", "January", "May"),
       IntakeMap("Spring (January)", "October", "December")])
  }

  function CanadaTemplate(): (t: Template)
    ensures Full(t)
  {
    Template(
      [ProgramEntry("Computer Science", 48, "English", None),
       ProgramEntry("Engineering", 48, "English", None),
       ProgramEntry("Business Administration", 48, "English", None),
       ProgramEntry("Life Sciences", 48, "English", None)],
      [ProgramEntry("Master of Computer Science", 24, "English", Some(true)),
       ProgramEntry("MBA", 24, "English", Some(false)),
       ProgramEntry("Master of Engineering", 18, "English", Some(false))],
      [Scholarship("Entrance Scholarship", "Up to $10,000 CAD", "Outstanding academic performance", ""),
       Scholarship("International Student Scholarship", "Partial tuition support", "International students with high grades", "")],
      [IntakeMap("Fall (September)", "January", "May"),
       IntakeMap("Winter (January)", "October", "November")])
  }

  function UnitedKingdomTemplate(): (t: Template)
    ensures Full(t)
  {
    Template(
      [ProgramEntry("Computer Science", 36, "English", None),
       ProgramEntry("Engineering", 36, "English", None),
       ProgramEntry("Business Studies", 36, "English", None),
       ProgramEntry("Medicine", 60, "English", None)],
      [ProgramEntry("Master of Science", 12, "English", Some(true)),
       ProgramEntry("MBA", 12, "English", Some(false)),
       ProgramEntry("Master of Engineering", 12, "English", Some(false))],
      [Scholarship("International Excellence Scholarship", "Up to £5,000", "International students with high academic achievement", ""),
       Scholarship("Merit Scholarship", "Partial tuition reduction", "Outstanding academic performance", "")],
      [IntakeMap("Autumn (September-October)", "January", "August")])
  }

  function GermanyTemplate(): (t: Template)
    ensures Full(t)
  {
    Template(
      [ProgramEntry("Computer Science (Informatik)", 36, "German/English", None),
       ProgramEntry("Engineering (Ingenieurwesen)", 36, "German/English", None),
       ProgramEntry("Business Administration (BWL)", 36, "German/English", None),
       ProgramEntry("Medicine (Medizin)", 72, "German", None)],
      [ProgramEntry("Master of Science", 24, "German/English", Some(true)),
       ProgramEntry("Master of Business Administration", 24, "English", Some(false)),
       ProgramEntry("Master of Engineering", 24, "German/English", Some(true))],
      [Scholarship("DAAD Scholarship", "Monthly stipend + tuition coverage", "International students with excellent grades", "https://www.daad.de/"),
       Scholarship("Deutschlandstipendium", "€300 per month", "High academic achievement and social engagement", "")],
      [IntakeMap("Winter Semester (October)", "July", "September"),
       IntakeMap("Summer Semester (April)", "January", "March")])
  }

  function TurkeyTemplate(): (t: Template)
    ensures Full(t)
  {
    Template(
      [ProgramEntry("Computer Engineering", 48, "Turkish/English", None),
       ProgramEntry("Medicine", 72, "Turkish", None),
       ProgramEntry("Business Administration", 48, "Turkish/English", None),
       ProgramEntry("Engineering", 48, "Turkish/English", None)],
      [ProgramEntry("Master of Science", 24, "Turkish/English", Some(true)),
       ProgramEntry("MBA", 24, "Turkish/English", Some(false)),
       ProgramEntry("Master of Engineering", 24, "Turkish/English", Some(true))],
      [Scholarship("YOK Scholarship", "Monthly stipend + tuition support", "High academic achievement", "https://www.yok.gov.tr/"),
       Scholarship("University Merit Scholarship", "Partial tuition waiver", "Top-performing students", "")],
      [IntakeMap("Fall (September)", "August", "August")])
  }

  function JapanTemplate(): (t: Template)
    ensures Full(t)
  {
    Template(
      [ProgramEntry("Computer Science", 48, "English/Japanese", None),
       ProgramEntry("Engineering", 48, "English/Japanese", None),
       ProgramEntry("Economics", 48, "English/Japanese", None),
       ProgramEntry("Medicine", 72, "Japanese", None)],
      [ProgramEntry("Master of Science", 24, "English", Some(true)),
       ProgramEntry("MBA", 24, "English", Some(false)),
       ProgramEntry("Master of Engineering", 24, "English/Japanese", Some(true))],
      [Scholarship("MEXT Scholarship", "Full tuition + monthly allowance", "International students with excellent academic record", ""),
       Scholarship("University Fellowship", "Partial tuition support", "Graduate students", "")],
      [IntakeMap("Spring (April)", "November", "February"),
       IntakeMap("Fall (October)", "May", "August")])
  }

  function DefaultTemplate(): (t: Template)
    ensures Full(t)
  {
    Template(
      [ProgramEntry("Computer Science", 48, "English", None),
       ProgramEntry("Business Administration", 48, "English", None),
       ProgramEntry("Engineering", 48, "English", None),
       ProgramEntry("Medicine", 72, "English", None)],
      [ProgramEntry("Master of Science", 24, "English", Some(true)),
       ProgramEntry("MBA", 24, "English", Some(false))],
      [Scholarship("Merit Scholarship", "Partial tuition support", "High academic achievement", ""),
       Scholarship("International Student Aid", "Financial assistance", "International students in need", "")],
      [IntakeMap("Fall (September)", "June", "August")])
  }

  /** The six countries with a template of their own. */
  datatype CountryKey = UnitedStatesKey | CanadaKey | UnitedKingdomKey | GermanyKey | TurkeyKey | JapanKey

  /** The key of `data_templates` a country name matches exactly, if any. */
  function TemplateKey(country: string): Option<CountryKey>
  {
    if country == "United States" then Some(UnitedStatesKey)
    else if country == "Canada" then Some(CanadaKey)
    else if country == "United Kingdom" then Some(UnitedKingdomKey)
    else if country == "Germany" then Some(GermanyKey)
    else if country == "Turkey" then Some(TurkeyKey)
    else if country == "Japan" then Some(JapanKey)
    else None
  }

  /** The templates of the United States and Canada. */
  function NorthAmericanTemplate(k: CountryKey): (t: Template)
    requires k == UnitedStatesKey || k == CanadaKey
    ensures Full(t)
  {
    if k == UnitedStatesKey then UnitedStatesTemplate() else CanadaTemplate()
  }

  /** The templates of the United Kingdom and Germany. */
  function EuropeanTemplate(k: CountryKey): (t: Template)
    requires k == UnitedKingdomKey || k == GermanyKey
    ensures Full(t)
  {
    if k == UnitedKingdomKey then UnitedKingdomTemplate() else GermanyTemplate()
  }

  /** The templates of Turkey and Japan. */
  function AsianTemplate(k: CountryKey): (t: Template)
    requires k == TurkeyKey || k == JapanKey
    ensures Full(t)
  {
    if k == TurkeyKey then TurkeyTemplate() else JapanTemplate()
  }

  /**
   * The template of a key, or the default without one; every template
   * fills all four lists. The six keyed templates are looked up in pairs
   * so that no single proof has to unfold all of them.
   */
  function TemplateOf(k: Option<CountryKey>): (t: Template)
    ensures Full(t)
  {
    if k.None? then DefaultTemplate()
    else if k.value == UnitedStatesKey || k.value == CanadaKey then NorthAmericanTemplate(k.value)
    else if k.value == UnitedKingdomKey || k.value == GermanyKey then EuropeanTemplate(k.value)
    else AsianTemplate(k.value)
  }

  /** `data_templates.get(uni.country, default_template)` */
  function TemplateFor(country: string): Template
  {
    TemplateOf(TemplateKey(country))
  }

  /**
   * The lookup is exact: 'Turkey' has its own template, but 'Türkiye',
   * which the scraper writes for Turkish universities, matches no key and
   * gets the default.
   */
  lemma TurkishNames()
    ensures TemplateKey("Turkey") == Some(TurkeyKey)
    ensures TemplateKey("Türkiye") == None
  {
  }

  /** The Turkish template is not the default one: it has three master programs, not two. */
  lemma TurkeyNotDefault()
    ensures TurkeyTemplate() != DefaultTemplate()
  {
    assert |TurkeyTemplate().mastersPrograms| == 3;
    assert |DefaultTemplate().mastersPrograms| == 2;
  }

  /** Any name other than the six keys gets the default template. */
  lemma OtherCountries(country: string)
    requires country !in {"United States", "Canada", "United Kingdom", "Germany", "Turkey", "Japan"}
    ensures TemplateKey(country) == None && TemplateFor(country) == DefaultTemplate()
  {
  }

  /** The filter of the command: all four lists empty. */
  predicate Bare(r: UniversityRow)
  {
    r.bachelorPrograms == [] && r.mastersPrograms == [] && r.scholarships == [] && r.intakes == []
  }

  /** A row after the command: overwritten from its template when bare and saved, else as it was. */
  function Populated(r: UniversityRow, failing: set<int>): UniversityRow
  {
    if Bare(r) && r.id !in failing then
      var t := TemplateFor(r.country);
      r.(bachelorPrograms := t.bachelorPrograms, mastersPrograms := t.mastersPrograms,
         scholarships := t.scholarships, intakes := t.intakes)
    else r
  }

  /** How many rows the command saves. */
  function PopulatedCount(rows: seq<UniversityRow>, failing: set<int>): nat
  {
    if rows == [] then 0
    else
      var r := rows[|rows| - 1];
      PopulatedCount(rows[..|rows| - 1], failing) + (if Bare(r) && r.id !in failing then 1 else 0)
  }

  /**
   * A populated row is no longer bare and a second pass leaves it alone;
   * a row that was not bare, or whose save failed, is untouched.
   */
  lemma PopulatedRules(r: UniversityRow, failing: set<int>, again: set<int>)
    ensures Bare(r) && r.id !in failing ==> !Bare(Populated(r, failing))
    ensures Populated(Populated(r, failing), again) == Populated(r, failing) || (Bare(r) && r.id in failing)
    ensures !Bare(r) || r.id in failing ==> Populated(r, failing) == r
    ensures Populated(r, failing).id == r.id && Populated(r, failing).country == r.country
  {
  }

  /** The count is at most the number of rows, and zero exactly when no bare row saves. */
  lemma {:induction false} PopulatedCountRules(rows: seq<UniversityRow>, failing: set<int>)
    ensures PopulatedCount(rows, failing) <= |rows|
    ensures PopulatedCount(rows, failing) == 0 <==> forall k :: 0 <= k < |rows| ==> !(Bare(rows[k]) && rows[k].id !in failing)
  {
    if rows != [] {
      var init := rows[..|rows| - 1];
      PopulatedCountRules(init, failing);
      assert forall k :: 0 <= k < |init| ==> init[k] == rows[k];
    }
  }

  // ---------------------------------------------------------------------
  // fix_intake_formats

  /** `v.split()[0]` for a non-empty deadline, '' for an empty one; None where the split is empty and indexing it raises. */
  function FirstToken(v: string): (r: Option<string>)
    ensures r.None? <==> v != "" && forall i :: 0 <= i < |v| ==> IsSpace(v[i])
    ensures v == "" ==> r == Some("")
  {
    FirstWord(v);
    if v == "" then Some("")
    else if Words(v) == [] then None
    else Some(Words(v)[0])
  }

  /** One intake rewritten to its three keys, or None when it raises. */
  function FixIntake(m: IntakeObject): Option<IntakeObject>
  {
    var d := FirstToken(Get(m, "application_deadline", ""));
    var dd := FirstToken(Get(m, "deposit_deadline", ""));
    if d.None? || dd.None? then None
    else Some(IntakeMap(Get(m, "name", ""), d.value, dd.value))
  }

  /**
   * A rewritten intake has exactly the three keys, keeps its name and
   * holds the first word of each non-empty deadline; it raises exactly
   * when a deadline is non-empty whitespace.
   */
  lemma FixIntakeShape(m: IntakeObject)
    ensures var d, dd := Get(m, "application_deadline", ""), Get(m, "deposit_deadline", "");
      (FixIntake(m).None? <==> (d != "" && Words(d) == []) || (dd != "" && Words(dd) == []))
      && (FixIntake(m).Some? ==>
            var r := FixIntake(m).value;
            r.Keys == {"name", "application_deadline", "deposit_deadline"} && r["name"] == Get(m, "name", "")
            && r["application_deadline"] == (if d == "" then "" else Words(d)[0])
            && r["deposit_deadline"] == (if dd == "" then "" else Words(dd)[0]))
  {
    var d, dd := Get(m, "application_deadline", ""), Get(m, "deposit_deadline", "");
    FirstTokenCases(d);
    FirstTokenCases(dd);
    var a, b := FirstToken(d), FirstToken(dd);
    if a.Some? && b.Some? {
      assert FixIntake(m) == Some(IntakeMap(Get(m, "name", ""), a.value, b.value));
    }
  }

  /** The three cases of `FirstToken`, by the words of the text. */
  lemma FirstTokenCases(v: string)
    ensures FirstToken(v).None? <==> v != "" && Words(v) == []
    ensures FirstToken(v).Some? ==> FirstToken(v).value == (if v == "" then "" else Words(v)[0])
  {
    FirstWord(v);
  }

  /** A first word is its own first word. */
  lemma FirstTokenStable(v: string)
    requires FirstToken(v).Some?
    ensures FirstToken(FirstToken(v).value) == FirstToken(v)
  {
    FirstWord(v);
    if v != "" {
      FirstWord(Words(v)[0]);
    }
  }

  /** Rewriting a rewritten intake changes nothing. */
  lemma FixIntakeStable(m: IntakeObject)
    requires FixIntake(m).Some?
    ensures FixIntake(FixIntake(m).value) == FixIntake(m)
  {
    var d := FirstToken(Get(m, "application_deadline", ""));
    var dd := FirstToken(Get(m, "deposit_deadline", ""));
    FirstTokenStable(Get(m, "application_deadline", ""));
    FirstTokenStable(Get(m, "deposit_deadline", ""));
    var r := FixIntake(m).value;
    assert r == IntakeMap(Get(m, "name", ""), d.value, dd.value);
    assert Get(r, "application_deadline", "") == d.value;
    assert Get(r, "deposit_deadline", "") == dd.value;
    assert Get(r, "name", "") == Get(m, "name", "");
  }

  /** `f` applied to every element, or None as soon as one application is None. */
  function Traverse<A, B>(f: A -> Option<B>, s: seq<A>): Option<seq<B>>
  {
    if s == [] then Some([])
    else
      var init := Traverse(f, s[..|s| - 1]);
      var last := f(s[|s| - 1]);
      if init.None? || last.None? then None else Some(init.value + [last.value])
  }

  /** The result keeps the length and has `f` of each element; it is None exactly when some application is. */
  lemma {:induction false} TraverseRules<A, B>(f: A -> Option<B>, s: seq<A>)
    ensures Traverse(f, s).Some? ==>
      |Traverse(f, s).value| == |s| && forall k :: 0 <= k < |s| ==> f(s[k]) == Some(Traverse(f, s).value[k])
    ensures Traverse(f, s).None? <==> exists k :: 0 <= k < |s| && f(s[k]).None?
  {
    if s != [] {
      var init := s[..|s| - 1];
      TraverseRules(f, init);
      assert forall k :: 0 <= k < |init| ==> init[k] == s[k];
    }
  }

  /** The whole list rewritten, or None when some intake raises. */
  function FixIntakes(ms: seq<IntakeObject>): Option<seq<IntakeObject>>
  {
    Traverse(FixIntake, ms)
  }

  /** Rewriting a rewritten list gives it back: the command is idempotent on a university. */
  lemma FixIntakesIdempotent(ms: seq<IntakeObject>)
    requires FixIntakes(ms).Some?
    ensures FixIntakes(FixIntakes(ms).value) == FixIntakes(ms)
  {
    TraverseRules(FixIntake, ms);
    var r := FixIntakes(ms).value;
    TraverseRules(FixIntake, r);
    forall k | 0 <= k < |r|
      ensures FixIntake(r[k]) == Some(r[k])
    {
      FixIntakeStable(ms[k]);
    }
    var again := FixIntakes(r);
    assert again.Some?;
    assert again.value == r;
  }

  /** A university after the command: rows without intakes are left alone. */
  function FixRow(r: UniversityRow): Option<UniversityRow>
  {
    if r.intakes == [] then Some(r)
    else
      var fixed := FixIntakes(r.intakes);
      if fixed.None? then None else Some(r.(intakes := fixed.value))
  }

  /** The row as saved, or as it was when its rewrite raised. */
  function FixedRow(r: UniversityRow): UniversityRow
  {
    if FixRow(r).Some? then FixRow(r).value else r
  }

  /** How many rows have intakes to rewrite. */
  function WithIntakes(rows: seq<UniversityRow>): nat
  {
    if rows == [] then 0
    else WithIntakes(rows[..|rows| - 1]) + (if rows[|rows| - 1].intakes != [] then 1 else 0)
  }

  /**
   * A row's rewrite keeps the number of intakes and every column but the
   * intakes, and a second rewrite changes nothing.
   */
  lemma FixRowRules(r: UniversityRow)
    ensures FixRow(r).Some? ==>
      var f := FixRow(r).value;
      |f.intakes| == |r.intakes| && f.(intakes := r.intakes) == r && FixRow(f) == Some(f)
  {
    if r.intakes != [] && FixIntakes(r.intakes).Some? {
      TraverseRules(FixIntake, r.intakes);
      FixIntakesIdempotent(r.intakes);
    }
  }

  // ---------------------------------------------------------------------
  // fetch_scholarships

  /** A row after the command when records were fetched. */
  function WithFetched(r: UniversityRow, items: seq<ApiItem>): UniversityRow
  {
    r.(scholarships := Chosen(items, r.country))
  }

  /**
   * With records fetched, every university gets one to three entries,
   * chosen by its country, and nothing else about it changes.
   */
  lemma WithFetchedRules(r: UniversityRow, items: seq<ApiItem>)
    requires items != []
    ensures 1 <= |WithFetched(r, items).scholarships| <= 3
    ensures WithFetched(r, items).(scholarships := r.scholarships) == r
    ensures WithFetched(r, items).scholarships == FormatForUniversity(Pick(items, r.country))
  {
    PickRules(items, r.country);
    SameFormatting(items, r.country);
  }

  /**
   * The first `i` rows were rewritten, each without raising, and the
   * others are as they were.
   */
  ghost predicate FixedUpTo(before: seq<UniversityRow>, after: seq<UniversityRow>, i: nat)
  {
    |after| == |before| && i <= |before|
    && (forall k :: 0 <= k < i ==> FixRow(before[k]).Some? && after[k] == FixedRow(before[k]))
    && (forall k :: i <= k < |before| ==> after[k] == before[k])
  }

  /** Rewriting the next row extends the rewritten prefix by one. */
  lemma FixedUpToStep(before: seq<UniversityRow>, after: seq<UniversityRow>, i: nat)
    requires FixedUpTo(before, after, i) && i < |before| && FixRow(before[i]).Some?
    ensures FixedUpTo(before, after[i := FixedRow(before[i])], i + 1)
  {
  }

  /** The university table the commands iterate over. */
  class UniversityTable {
    var rows: seq<UniversityRow>

    constructor(rows: seq<UniversityRow>)
      ensures this.rows == rows
    {
      this.rows := rows;
    }

    /** One university of populate_all_real_data, and whether it was overwritten. */
    static method PopulateOne(uni: UniversityRow, failing: set<int>) returns (r: UniversityRow, changed: bool)
      ensures r == Populated(uni, failing)
      ensures changed <==> Bare(uni) && uni.id !in failing
    {
      r, changed := uni, false;
      if Bare(uni) && uni.id !in failing {
        var t := TemplateFor(uni.country);
        r := uni.(bachelorPrograms := t.bachelorPrograms, mastersPrograms := t.mastersPrograms,
                  scholarships := t.scholarships, intakes := t.intakes);
        changed := true;
      }
    }

    /**
     * populate_all_real_data: every bare university whose save does not
     * fail is overwritten from its country's template and counted.
     */
    method PopulateAllRealData(failing: set<int>) returns (updated: nat)
      modifies this
      ensures |rows| == |old(rows)|
      ensures forall k :: 0 <= k < |rows| ==> rows[k] == Populated(old(rows)[k], failing)
      ensures updated == PopulatedCount(old(rows), failing)
    {
      updated := 0;
      var i := 0;
      while i < |rows|
        invariant 0 <= i <= |rows| == |old(rows)|
        invariant forall k :: 0 <= k < i ==> rows[k] == Populated(old(rows)[k], failing)
        invariant forall k :: i <= k < |rows| ==> rows[k] == old(rows)[k]
        invariant updated == PopulatedCount(old(rows)[..i], failing)
      {
        assert old(rows)[..i + 1][..i] == old(rows)[..i];
        var uni, changed := PopulateOne(rows[i], failing);
        rows := rows[i := uni];
        if changed {
          updated := updated + 1;
        }
        i := i + 1;
      }
      assert old(rows)[..i] == old(rows);
    }

    /** The inner loop of fix_intake_formats over one university's intakes. */
    static method RewriteIntakes(ms: seq<IntakeObject>) returns (r: Option<seq<IntakeObject>>)
      ensures r == FixIntakes(ms)
    {
      var out: seq<IntakeObject> := [];
      for i := 0 to |ms|
        invariant FixIntakes(ms[..i]) == Some(out)
      {
        assert ms[..i + 1][..i] == ms[..i];
        var fixed := FixIntake(ms[i]);
        if fixed.None? {
          assert FixIntakes(ms[..i + 1]).None?;
          PrefixRaises(ms, i + 1);
          return None;
        }
        out := out + [fixed.value];
      }
      assert ms[..|ms|] == ms;
      return Some(out);
    }

    /** One university of fix_intake_formats: its intakes rewritten, or no change when that raises. */
    method FixOne(i: nat) returns (ok: bool)
      requires i < |rows|
      modifies this
      ensures ok <==> FixRow(old(rows)[i]).Some?
      ensures ok ==> rows == old(rows)[i := FixedRow(old(rows)[i])]
      ensures !ok ==> rows == old(rows)
    {
      var uni := rows[i];
      ok := true;
      if uni.intakes != [] {
        var fixed := RewriteIntakes(uni.intakes);
        if fixed.None? {
          return false;
        }
        rows := rows[i := uni.(intakes := fixed.value)];
      }
    }

    /**
     * fix_intake_formats: each university with intakes gets them
     * rewritten and is counted; when a rewrite raises, the command stops
     * there, with the universities before it saved and the rest as they
     * were.
     */
    method FixIntakeFormats() returns (updated: nat, raised: bool)
      modifies this
      ensures |rows| == |old(rows)|
      ensures !raised ==> FixedUpTo(old(rows), rows, |rows|) && updated == WithIntakes(old(rows))
      ensures raised ==>
        exists j :: 0 <= j < |rows| && FixRow(old(rows)[j]).None?
          && FixedUpTo(old(rows), rows, j) && updated == WithIntakes(old(rows)[..j])
    {
      updated, raised := 0, false;
      var i := 0;
      while i < |rows|
        invariant i <= |rows| && FixedUpTo(old(rows), rows, i)
        invariant updated == WithIntakes(old(rows)[..i])
      {
        assert old(rows)[..i + 1][..i] == old(rows)[..i];
        assert rows[i] == old(rows)[i];
        var hadIntakes := rows[i].intakes != [];
        ghost var before := rows;
        var ok := FixOne(i);
        if !ok {
          raised := true;
          assert FixRow(old(rows)[i]).None? && FixedUpTo(old(rows), rows, i)
            && updated == WithIntakes(old(rows)[..i]);
          return;
        }
        FixedUpToStep(old(rows), before, i);
        if hadIntakes {
          updated := updated + 1;
        }
        i := i + 1;
      }
      assert old(rows)[..i] == old(rows);
    }

    /** One pass of the loop: the university's entries are replaced by those chosen for its country. */
    static method FetchOne(uni: UniversityRow, items: seq<ApiItem>) returns (r: UniversityRow)
      ensures r == WithFetched(uni, items)
    {
      var chosen := Take(Mentioning(items, uni.country), 3);
      if chosen == [] {
        chosen := Take(items, 3);
      }
      var formatted := FormatEach(chosen);
      r := uni.(scholarships := formatted);
    }

    /**
     * fetch_scholarships: on a non-200 response or an empty `data` list
     * nothing changes; otherwise every university's scholarships are
     * replaced by the records chosen for its country, and all are counted.
     */
    method FetchScholarships(response: Response) returns (updated: nat)
      modifies this
      ensures |rows| == |old(rows)|
      ensures ScholarshipsOf(response) == [] ==> rows == old(rows) && updated == 0
      ensures ScholarshipsOf(response) != [] ==>
        updated == |rows|
        && forall k :: 0 <= k < |rows| ==> rows[k] == WithFetched(old(rows)[k], ScholarshipsOf(response))
    {
      updated := 0;
      if response.status != 200 {
        return;
      }
      var items := if response.data.Some? then response.data.value else [];
      if items == [] {
        return;
      }
      var i := 0;
      while i < |rows|
        invariant 0 <= i <= |rows| == |old(rows)|
        invariant updated == i
        invariant forall k :: 0 <= k < i ==> rows[k] == WithFetched(old(rows)[k], items)
        invariant forall k :: i <= k < |rows| ==> rows[k] == old(rows)[k]
      {
        var uni := FetchOne(rows[i], items);
        rows := rows[i := uni];
        updated := updated + 1;
        i := i + 1;
      }
    }
  }

  /** Once a prefix of the intakes raises, the whole list does. */
  lemma PrefixRaises(ms: seq<IntakeObject>, n: nat)
    requires n <= |ms| && FixIntakes(ms[..n]).None?
    ensures FixIntakes(ms).None?
  {
    TraverseRules(FixIntake, ms[..n]);
    TraverseRules(FixIntake, ms);
    var k :| 0 <= k < n && FixIntake(ms[..n][k]).None?;
    assert ms[..n][k] == ms[k];
  }
}

// universities/admin.py: the two "paste JSON" imports of the admin site.
// Decoding the JSON text is an oracle: its outcome is a parameter.
module AdminImport {
  import opened Common
  import opened Text

  /** The level of an admin flash message. */
  datatype Level = Success | Info | Warning | Failure

  datatype Message = Message(level: Level, text: string)

  /** A university as the import creates it; list elements are kept as given. */
  datatype University = University(
    name: string,
    country: string,
    city: string,
    courseOffered: string,
    applicationFee: string,
    tuitionFee: string,
    intakes: seq<string>,
    bachelorPrograms: seq<string>,
    mastersPrograms: seq<string>,
    scholarships: seq<string>,
    universityLink: string,
    applicationLink: string,
    description: string)

  /** The keys of one JSON object of the university import; a missing key is None. */
  datatype UniFields = UniFields(
    id: Option<int>,
    name: Option<string>,
    country: Option<string>,
    city: Option<string>,
    courseOffered: Option<string>,
    applicationFee: Option<string>,
    tuitionFee: Option<string>,
    intakes: Option<seq<string>>,
    bachelorPrograms: Option<seq<string>>,
    mastersPrograms: Option<seq<string>>,
    scholarships: Option<seq<string>>,
    universityLink: Option<string>,
    applicationLink: Option<string>,
    description: Option<string>)

  /**
   * One element of the pasted data. An object carries whether
   * `University.objects.create` raises on it (a database-side oracle);
   * anything else makes `item.pop` raise, and then the handler's own
   * `item.get` raises too, with the exception text `error`.
   */
  datatype Entry = Object(fields: UniFields, createRaises: bool) | NotObject(error: string)

  /** What decoding the pasted text gave. */
  datatype Parsed = Malformed | Array(items: seq<Entry>) | NonArray(item: Entry)

  function Or<T>(v: Option<T>, d: T): T
  {
    if v.Some? then v.value else d
  }

  /** The row `University.objects.create` receives for an object; its 'id' key is dropped. */
  function Created(f: UniFields): University
  {
    University(Or(f.name, ""), Or(f.country, ""), Or(f.city, ""), Or(f.courseOffered, ""),
               Or(f.applicationFee, "0.00"), Or(f.tuitionFee, "0.00"),
               Or(f.intakes, []), Or(f.bachelorPrograms, []), Or(f.mastersPrograms, []), Or(f.scholarships, []),
               Or(f.universityLink, ""), Or(f.applicationLink, ""), Or(f.description, ""))
  }

  /** The row ignores the item's id; missing fees are '0.00' and missing lists are empty. */
  lemma CreatedDefaults(f: UniFields, id: Option<int>)
    ensures Created(f.(id := id)) == Created(f)
    ensures f.applicationFee.None? ==> Created(f).applicationFee == "0.00"
    ensures f.tuitionFee.None? ==> Created(f).tuitionFee == "0.00"
    ensures f.intakes.None? ==> Created(f).intakes == []
    ensures f.scholarships.None? ==> Created(f).scholarships == []
    ensures f.name.Some? ==> Created(f).name == f.name.value
  {
  }

  /** A university with this name and country exists. */
  predicate Exists(rows: seq<University>, name: string, country: string)
  {
    exists k :: 0 <= k < |rows| && rows[k].name == name && rows[k].country == country
  }

  /** No two universities share name and country. */
  predicate UniqueKeys(rows: seq<University>)
  {
    forall i, j :: 0 <= i < j < |rows| ==> !(rows[i].name == rows[j].name && rows[i].country == rows[j].country)
  }

  /**
   * The table and counters after some of the items. `failures` counts the
   * objects whose handling raised; `broken` says that a create raised,
   * which marks the admin's atomic transaction for rollback; `aborted`
   * holds the text of the exception that ended the loop, if one did.
   */
  datatype UniRun = UniRun(rows: seq<University>, created: nat, skipped: nat, errorOccurred: bool, failures: nat,
                           broken: bool, aborted: Option<string>)

  /** The text of Django's TransactionManagementError for a query in a transaction marked for rollback. */
  const BrokenTransaction := "An error occurred in the current transaction. You can't execute queries until the end of the 'atomic' block."

  /**
   * One item of the loop: after an abort nothing more is reached; a
   * non-object aborts; in a broken transaction the `exists()` query
   * raises, so the object is an error; otherwise a known (name, country)
   * is skipped and an unknown one created, unless the create raises,
   * which is an error and breaks the transaction.
   */
  function UniStep(r: UniRun, e: Entry): UniRun
  {
    if r.aborted.Some? then r
    else match e
      case NotObject(err) => r.(aborted := Some(err))
      case Object(f, raises) =>
        if r.broken then r.(errorOccurred := true, failures := r.failures + 1)
        else if Exists(r.rows, Or(f.name, ""), Or(f.country, "")) then r.(skipped := r.skipped + 1)
        else if raises then r.(errorOccurred := true, failures := r.failures + 1, broken := true)
        else r.(rows := r.rows + [Created(f)], created := r.created + 1)
  }

  function UniItems(rows: seq<University>, es: seq<Entry>): UniRun
  {
    if es == [] then UniRun(rows, 0, 0, false, 0, false, None)
    else UniStep(UniItems(rows, es[..|es| - 1]), es[|es| - 1])
  }

  /**
   * The table once the admin's atomic block ends: when a create raised,
   * the block rolls back and nothing of the paste stays.
   */
  function Committed(rows: seq<University>, es: seq<Entry>): seq<University>
  {
    var r := UniItems(rows, es);
    if r.broken then rows else r.rows
  }

  /** Every item before position `k` is an object, so the loop reaches item `k`. */
  predicate Reached(es: seq<Entry>, k: nat)
  {
    forall i :: 0 <= i < k && i < |es| ==> es[i].Object?
  }

  /** An object's (name, country) exists in the table. */
  predicate KeyIn(rows: seq<University>, e: Entry)
  {
    e.Object? ==> Exists(rows, Or(e.fields.name, ""), Or(e.fields.country, ""))
  }

  /**
   * The loop runs to the end exactly when every item is an object, and
   * then every item is created, skipped or failed, exactly once; an error
   * occurs exactly when a create raised and broke the transaction; either
   * way the old rows stay as a prefix, the table grows by the created
   * count, and name and country stay unique.
   */
  lemma {:induction false} UniItemsCounts(rows: seq<University>, es: seq<Entry>)
    ensures var r := UniItems(rows, es);
      (r.aborted.None? <==> Reached(es, |es|))
      && (r.aborted.None? ==> r.created + r.skipped + r.failures == |es|)
      && r.created + r.skipped + r.failures <= |es|
      && (r.errorOccurred <==> r.broken) && (r.broken <==> r.failures > 0)
      && |r.rows| == |rows| + r.created && r.rows[..|rows|] == rows
      && (UniqueKeys(rows) ==> UniqueKeys(r.rows))
  {
    if es != [] {
      var init := es[..|es| - 1];
      UniItemsCounts(rows, init);
      var p := UniItems(rows, init);
      var r := UniItems(rows, es);
      assert r == UniStep(p, es[|es| - 1]);
      assert r.rows[..|p.rows|] == p.rows;
      assert r.rows[..|rows|] == p.rows[..|rows|];
      ReachedAll(es);
    }
  }

  /** All items are objects exactly when all but the last are and the last is too. */
  lemma ReachedAll(es: seq<Entry>)
    requires es != []
    ensures Reached(es, |es|) <==> Reached(es[..|es| - 1], |es| - 1) && es[|es| - 1].Object?
  {
    var init := es[..|es| - 1];
    if Reached(init, |init|) && es[|es| - 1].Object? {
      forall i | 0 <= i < |es|
        ensures es[i].Object?
      {
        if i < |init| {
          assert es[i] == init[i];
        }
      }
    }
    if Reached(es, |es|) {
      forall i | 0 <= i < |init|
        ensures init[i].Object?
      {
        assert es[i] == init[i];
      }
    }
  }

  /** One item more, as the loop meets it. */
  lemma UniItemsSnoc(rows: seq<University>, es: seq<Entry>, i: nat)
    requires i < |es|
    ensures UniItems(rows, es[..i + 1]) == UniStep(UniItems(rows, es[..i]), es[i])
  {
    assert es[..i + 1][..i] == es[..i];
  }

  /**
   * The first non-object item ends the import: the result is that of the
   * items before it, with its exception recorded, and no later item is
   * reached.
   */
  lemma {:induction false} UniItemsAbort(rows: seq<University>, es: seq<Entry>, j: nat)
    requires j < |es| && es[j].NotObject? && Reached(es, j)
    ensures UniItems(rows, es) == UniItems(rows, es[..j]).(aborted := Some(es[j].error))
  {
    var init := es[..|es| - 1];
    if j == |es| - 1 {
      assert init == es[..j];
      UniItemsCounts(rows, init);
      assert Reached(init, |init|) by {
        forall i | 0 <= i < |init|
          ensures init[i].Object?
        {
          assert init[i] == es[i];
        }
      }
    } else {
      assert init[j] == es[j] && init[..j] == es[..j];
      assert Reached(init, j) by {
        forall i | 0 <= i < j
          ensures init[i].Object?
        {
          assert init[i] == es[i];
        }
      }
      UniItemsAbort(rows, init, j);
    }
  }

  /**
   * Once a create has broken the transaction, no later item creates or
   * skips anything: every later object is an error.
   */
  lemma {:induction false} UniItemsBrokenTail(rows: seq<University>, es: seq<Entry>, j: nat)
    requires j <= |es| && UniItems(rows, es[..j]).broken
    ensures var r, p := UniItems(rows, es), UniItems(rows, es[..j]);
      r.broken && r.rows == p.rows && r.created == p.created && r.skipped == p.skipped
  {
    if j < |es| {
      var init := es[..|es| - 1];
      assert init[..j] == es[..j];
      UniItemsBrokenTail(rows, init, j);
    } else {
      assert es[..j] == es;
    }
  }

  /** Rows only ever get appended: what existed before an item still exists after it. */
  lemma UniStepKeeps(r: UniRun, e: Entry, name: string, country: string)
    requires Exists(r.rows, name, country)
    ensures Exists(UniStep(r, e).rows, name, country)
  {
    var j :| 0 <= j < |r.rows| && r.rows[j].name == name && r.rows[j].country == country;
    assert UniStep(r, e).rows[j] == r.rows[j];
  }

  /**
   * When no create raised, afterwards the (name, country) of every object
   * the loop reached exists.
   */
  lemma {:induction false} UniItemsCovers(rows: seq<University>, es: seq<Entry>)
    ensures !UniItems(rows, es).broken ==>
      forall k :: 0 <= k < |es| && Reached(es, k) ==> KeyIn(UniItems(rows, es).rows, es[k])
  {
    if es != [] {
      var init := es[..|es| - 1];
      UniItemsCovers(rows, init);
      UniItemsCounts(rows, init);
      var p := UniItems(rows, init);
      var e := es[|es| - 1];
      var r := UniStep(p, e);
      assert UniItems(rows, es) == r;
      if !r.broken {
        forall k | 0 <= k < |es| && Reached(es, k)
          ensures KeyIn(r.rows, es[k])
        {
          if k < |init| {
            assert es[k] == init[k];
            assert Reached(init, k) by {
              forall i | 0 <= i < k
                ensures init[i].Object?
              {
                assert init[i] == es[i];
              }
            }
            if es[k].Object? {
              UniStepKeeps(p, e, Or(es[k].fields.name, ""), Or(es[k].fields.country, ""));
            }
          } else {
            assert Reached(init, |init|) by {
              forall i | 0 <= i < |init|
                ensures init[i].Object?
              {
                assert init[i] == es[i];
              }
            }
            if e.Object? && !Exists(p.rows, Or(e.fields.name, ""), Or(e.fields.country, "")) {
              assert r.rows[|p.rows|] == Created(e.fields);
            }
          }
        }
      }
    }
  }

  /**
   * When every reached object's key already exists, every one is skipped:
   * nothing is created, no create raises, and the table is unchanged.
   */
  lemma {:induction false} UniItemsKnown(rows: seq<University>, es: seq<Entry>)
    requires forall k :: 0 <= k < |es| && Reached(es, k) ==> KeyIn(rows, es[k])
    ensures UniItems(rows, es).rows == rows && UniItems(rows, es).created == 0 && !UniItems(rows, es).broken
  {
    if es != [] {
      var init := es[..|es| - 1];
      forall k | 0 <= k < |init| && Reached(init, k)
        ensures KeyIn(rows, init[k])
      {
        assert init[k] == es[k];
        assert Reached(es, k) by {
          forall i | 0 <= i < k
            ensures es[i].Object?
          {
            assert init[i] == es[i];
          }
        }
      }
      UniItemsKnown(rows, init);
      UniItemsCounts(rows, init);
      if UniItems(rows, init).aborted.None? {
        assert Reached(es, |es| - 1) by {
          forall i | 0 <= i < |es| - 1
            ensures es[i].Object?
          {
            assert init[i] == es[i];
          }
        }
      }
    }
  }

  /**
   * Pasting the same data twice leaves the table the first paste left;
   * when the first paste was not rolled back, the second creates nothing.
   */
  lemma ImportTwiceCreatesNothing(rows: seq<University>, es: seq<Entry>)
    ensures Committed(Committed(rows, es), es) == Committed(rows, es)
    ensures !UniItems(rows, es).broken ==> UniItems(UniItems(rows, es).rows, es).created == 0
  {
    if !UniItems(rows, es).broken {
      UniItemsCovers(rows, es);
      UniItemsKnown(UniItems(rows, es).rows, es);
    }
  }

  /** The items of the decoded data: a single value counts as a one-element list. */
  function Items(p: Parsed): seq<Entry>
    requires !p.Malformed?
  {
    if p.Array? then p.items else [p.item]
  }

  /** The closing message of the university import. */
  function UniSummary(created: nat, skipped: nat, errorOccurred: bool): Message
  {
    if created > 0 then
      Message(Success, "Successfully imported " + NatToString(created) + " university/universities. "
                       + NatToString(skipped) + " skipped (already exist).")
    else if errorOccurred then
      Message(Warning, "Import completed with errors. " + NatToString(skipped) + " universities already existed.")
    else Message(Warning, "No new universities created. " + NatToString(skipped) + " already exist.")
  }

  /** The message of the outer handler. */
  function ImportError(error: string): Message
  {
    Message(Failure, "An error occurred during import: " + error)
  }

  /** The university table and the saved import records of `UniversityJSONImportAdmin`. */
  class UniversityImport {
    var rows: seq<University>
    var importsSaved: nat

    constructor (rows: seq<University>)
      ensures this.rows == rows && importsSaved == 0
    {
      this.rows := rows;
      importsSaved := 0;
    }

    /**
     * `save_model`, inside the admin's atomic block: empty text is a
     * warning and nothing is saved; text that does not decode is an error
     * and nothing is saved; otherwise the items are processed in order. A
     * non-object item ends the import with the outer handler's error and
     * saves no import record. Otherwise, after a create that raised,
     * saving the import record raises TransactionManagementError into the
     * outer handler; without one, the record is saved and the summary
     * reported. The table is the one the atomic block commits.
     */
    method Import(text: string, parsed: Parsed) returns (m: Message)
      modifies this
      ensures text == "" ==>
        m == Message(Warning, "JSON data field cannot be empty.") && rows == old(rows) && importsSaved == old(importsSaved)
      ensures text != "" && parsed.Malformed? ==>
        m == Message(Failure, "Invalid JSON format.") && rows == old(rows) && importsSaved == old(importsSaved)
      ensures text != "" && !parsed.Malformed? ==>
        var r := UniItems(old(rows), Items(parsed));
        rows == Committed(old(rows), Items(parsed))
        && (r.aborted.Some? ==> importsSaved == old(importsSaved) && m == ImportError(r.aborted.value))
        && (r.aborted.None? && r.broken ==> importsSaved == old(importsSaved) && m == ImportError(BrokenTransaction))
        && (r.aborted.None? && !r.broken ==>
              importsSaved == old(importsSaved) + 1 && m == UniSummary(r.created, r.skipped, false))
    {
      if text == "" {
        return Message(Warning, "JSON data field cannot be empty.");
      }
      if parsed.Malformed? {
        return Message(Failure, "Invalid JSON format.");
      }
      var before := rows;
      var data := if parsed.Array? then parsed.items else [parsed.item];
      var created, skipped, errorOccurred, broken, aborted := ImportItems(data);
      UniItemsCounts(before, data);
      if broken {
        rows := before;
      }
      if aborted.Some? {
        return ImportError(aborted.value);
      }
      if broken {
        return ImportError(BrokenTransaction);
      }
      importsSaved := importsSaved + 1;
      m := UniSummary(created, skipped, errorOccurred);
    }

    /** The loop over the items, up to the first one that is not an object. */
    method ImportItems(data: seq<Entry>) returns (created: nat, skipped: nat, errorOccurred: bool, broken: bool,
                                                  aborted: Option<string>)
      modifies this
      ensures var r := UniItems(old(rows), data);
        rows == r.rows && created == r.created && skipped == r.skipped && errorOccurred == r.errorOccurred
        && broken == r.broken && aborted == r.aborted
      ensures importsSaved == old(importsSaved)
    {
      created, skipped, errorOccurred, broken := 0, 0, false, false;
      ghost var failures := 0;
      var i := 0;
      while i < |data|
        invariant 0 <= i <= |data|
        invariant Reached(data, i)
        invariant UniItems(old(rows), data[..i]) == UniRun(rows, created, skipped, errorOccurred, failures, broken, None)
        invariant importsSaved == old(importsSaved)
      {
        UniItemsSnoc(old(rows), data, i);
        if data[i].NotObject? {
          UniItemsAbort(old(rows), data, i);
          return created, skipped, errorOccurred, broken, Some(data[i].error);
        }
        var f := data[i].fields;
        if broken {
          errorOccurred := true;
          failures := failures + 1;
        } else if Exists(rows, Or(f.name, ""), Or(f.country, "")) {
          skipped := skipped + 1;
        } else if data[i].createRaises {
          errorOccurred, broken := true, true;
          failures := failures + 1;
        } else {
          rows := rows + [Created(f)];
          created := created + 1;
        }
        i := i + 1;
      }
      assert data[..i] == data;
      aborted := None;
    }
  }

  /**
   * One element of a job-site array. An object carries the text of the
   * exception `update_or_create` raises on it, if it raises (a
   * database-side oracle, such as a URL longer than its column); the call
   * runs in its own savepoint, so the loop goes on. Anything but an object
   * raises with the given text.
   */
  datatype SiteEntry = SiteObject(country: Option<string>, siteName: Option<string>, siteUrl: Option<string>,
                                  upsertError: Option<string>)
                     | SiteNotObject(error: string)

  /** What decoding the job-site text gave. */
  datatype SiteParsed = SiteMalformed(error: string) | SiteArray(items: seq<SiteEntry>) | SiteNonArray

  /** The row passes the `all([country, site_name, site_url])` check. */
  predicate Complete(e: SiteEntry)
  {
    e.SiteObject? && Truthy(e.country) && Truthy(e.siteName) && Truthy(e.siteUrl)
  }

  /** The row is complete and its `update_or_create` does not raise. */
  predicate Upserts(e: SiteEntry)
  {
    Complete(e) && e.upsertError.None?
  }

  /** The job-site table and counters after some rows. */
  datatype SiteRun = SiteRun(sites: map<(string, string), string>, created: nat, updated: nat, errors: seq<string>)

  /**
   * Row `idx` (0-based): non-objects, incomplete rows and rows whose
   * upsert raises become errors; the others upsert on (country, site name).
   */
  function SiteStep(r: SiteRun, e: SiteEntry, idx: nat): SiteRun
  {
    var row := "Row " + NatToString(idx + 1) + ": ";
    if e.SiteNotObject? then r.(errors := r.errors + [row + e.error])
    else if !Complete(e) then r.(errors := r.errors + [row + "Missing required fields"])
    else if e.upsertError.Some? then r.(errors := r.errors + [row + e.upsertError.value])
    else
      var key := (e.country.value, e.siteName.value);
      if key in r.sites then r.(sites := r.sites[key := e.siteUrl.value], updated := r.updated + 1)
      else r.(sites := r.sites[key := e.siteUrl.value], created := r.created + 1)
  }

  function SiteItems(sites: map<(string, string), string>, es: seq<SiteEntry>): SiteRun
  {
    if es == [] then SiteRun(sites, 0, 0, [])
    else SiteStep(SiteItems(sites, es[..|es| - 1]), es[|es| - 1], |es| - 1)
  }

  /** The (country, site name) pairs of the rows that upsert. */
  function SiteKeys(es: seq<SiteEntry>): set<(string, string)>
  {
    set k | 0 <= k < |es| && Upserts(es[k]) :: (es[k].country.value, es[k].siteName.value)
  }

  /** Every row is created, updated or an error, exactly once. */
  lemma {:induction false} SiteItemsCounts(sites: map<(string, string), string>, es: seq<SiteEntry>)
    ensures var r := SiteItems(sites, es);
      r.created + r.updated + |r.errors| == |es|
  {
    if es != [] {
      SiteItemsCounts(sites, es[..|es| - 1]);
    }
  }

  /** The keys of the rows that upsert, one row more. */
  lemma SiteKeysStep(es: seq<SiteEntry>)
    requires es != []
    ensures var e := es[|es| - 1];
      SiteKeys(es) == SiteKeys(es[..|es| - 1]) + (if Upserts(e) then {(e.country.value, e.siteName.value)} else {})
  {
    var init := es[..|es| - 1];
    var e := es[|es| - 1];
    forall key | key in SiteKeys(es)
      ensures key in SiteKeys(init) + (if Upserts(e) then {(e.country.value, e.siteName.value)} else {})
    {
      var k :| 0 <= k < |es| && Upserts(es[k]) && key == (es[k].country.value, es[k].siteName.value);
      if k < |init| {
        assert init[k] == es[k];
      }
    }
    forall key | key in SiteKeys(init)
      ensures key in SiteKeys(es)
    {
      var k :| 0 <= k < |init| && Upserts(init[k]) && key == (init[k].country.value, init[k].siteName.value);
      assert es[k] == init[k];
    }
  }

  /** The table's keys are the old ones plus those of the rows that upsert. */
  lemma {:induction false} SiteItemsKeys(sites: map<(string, string), string>, es: seq<SiteEntry>)
    ensures SiteItems(sites, es).sites.Keys == sites.Keys + SiteKeys(es)
  {
    if es != [] {
      SiteItemsKeys(sites, es[..|es| - 1]);
      SiteKeysStep(es);
    }
  }

  /** The number of keys grows by exactly the created count. */
  lemma {:induction false} SiteItemsCreated(sites: map<(string, string), string>, es: seq<SiteEntry>)
    ensures |SiteItems(sites, es).sites.Keys| == |sites.Keys| + SiteItems(sites, es).created
  {
    if es != [] {
      var p := SiteItems(sites, es[..|es| - 1]);
      SiteItemsCreated(sites, es[..|es| - 1]);
      var e := es[|es| - 1];
      if Upserts(e) {
        var key := (e.country.value, e.siteName.value);
        if key in p.sites {
          assert p.sites[key := e.siteUrl.value].Keys == p.sites.Keys;
        } else {
          assert p.sites[key := e.siteUrl.value].Keys == p.sites.Keys + {key};
        }
      }
    }
  }

  /** Keys of no row that upserts keep their URL. */
  lemma {:induction false} SiteItemsUntouched(sites: map<(string, string), string>, es: seq<SiteEntry>, key: (string, string))
    requires key in sites && key !in SiteKeys(es)
    ensures key in SiteItems(sites, es).sites && SiteItems(sites, es).sites[key] == sites[key]
  {
    if es != [] {
      SiteKeysStep(es);
      SiteItemsUntouched(sites, es[..|es| - 1], key);
    }
  }

  /**
   * The last row, when complete, decides the URL of its (country, site
   * name) if its upsert succeeds; if the upsert raises, the table is that
   * of the rows before it and the row's error text is appended.
   */
  lemma SiteLastWins(sites: map<(string, string), string>, es: seq<SiteEntry>)
    requires |es| > 0 && Complete(es[|es| - 1])
    ensures var e := es[|es| - 1];
      var r, p := SiteItems(sites, es), SiteItems(sites, es[..|es| - 1]);
      var key := (e.country.value, e.siteName.value);
      (e.upsertError.None? ==> key in r.sites && r.sites[key] == e.siteUrl.value)
      && (e.upsertError.Some? ==>
            r.sites == p.sites && r.errors == p.errors + ["Row " + NatToString(|es|) + ": " + e.upsertError.value])
  {
  }

  /** The warnings shown for the errors: the first five, then a remainder line if there are more. */
  function ShownErrors(errors: seq<string>): (shown: seq<Message>)
    ensures |shown| == Min(|errors|, 5) + (if |errors| > 5 then 1 else 0)
    ensures forall k :: 0 <= k < Min(|errors|, 5) ==> shown[k] == Message(Warning, errors[k])
    ensures |errors| > 5 ==> shown[5] == Message(Warning, "... and " + NatToString(|errors| - 5) + " more errors")
  {
    var first := if |errors| <= 5 then errors else errors[..5];
    var listed := seq(|first|, k requires 0 <= k < |first| => Message(Warning, first[k]));
    if |errors| > 5 then listed + [Message(Warning, "... and " + NatToString(|errors| - 5) + " more errors")]
    else listed
  }

  /** The messages closing a processed job-site array. */
  function SiteSummary(r: SiteRun): seq<Message>
  {
    (if r.created > 0 then [Message(Success, "Successfully created " + NatToString(r.created) + " job site(s)")] else [])
    + (if r.updated > 0 then [Message(Info, "Updated " + NatToString(r.updated) + " existing job site(s)")] else [])
    + ShownErrors(r.errors)
  }

  /** The job-site table, keyed by (country, site name), and the saved import records. */
  class JobSiteImport {
    var sites: map<(string, string), string>
    var importsSaved: nat

    constructor (sites: map<(string, string), string>)
      ensures this.sites == sites && importsSaved == 0
    {
      this.sites := sites;
      importsSaved := 0;
    }

    /**
     * `CountryJobSiteJSONImportAdmin.save_model`: the import record is
     * saved first; undecodable text and a non-array are errors with no
     * rows imported; otherwise each row is upserted or recorded as an
     * error, a raising upsert included.
     */
    method Import(parsed: SiteParsed) returns (ms: seq<Message>)
      modifies this
      ensures importsSaved == old(importsSaved) + 1
      ensures parsed.SiteMalformed? ==> ms == [Message(Failure, "Invalid JSON: " + parsed.error)] && sites == old(sites)
      ensures parsed.SiteNonArray? ==> ms == [Message(Failure, "JSON must be an array of objects")] && sites == old(sites)
      ensures parsed.SiteArray? ==>
        var r := SiteItems(old(sites), parsed.items);
        sites == r.sites && ms == SiteSummary(r)
    {
      importsSaved := importsSaved + 1;
      if parsed.SiteMalformed? {
        return [Message(Failure, "Invalid JSON: " + parsed.error)];
      }
      if parsed.SiteNonArray? {
        return [Message(Failure, "JSON must be an array of objects")];
      }
      var data := parsed.items;
      var created, updated, errors := 0, 0, [];
      var idx := 0;
      while idx < |data|
        invariant 0 <= idx <= |data|
        invariant SiteItems(old(sites), data[..idx]) == SiteRun(sites, created, updated, errors)
        invariant importsSaved == old(importsSaved) + 1
      {
        assert data[..idx + 1][..idx] == data[..idx];
        assert SiteItems(old(sites), data[..idx + 1]) == SiteStep(SiteItems(old(sites), data[..idx]), data[idx], idx);
        var item := data[idx];
        var row := "Row " + NatToString(idx + 1) + ": ";
        if item.SiteNotObject? {
          errors := errors + [row + item.error];
        } else if !(Truthy(item.country) && Truthy(item.siteName) && Truthy(item.siteUrl)) {
          errors := errors + [row + "Missing required fields"];
        } else if item.upsertError.Some? {
          errors := errors + [row + item.upsertError.value];
        } else {
          var key := (item.country.value, item.siteName.value);
          if key in sites {
            updated := updated + 1;
          } else {
            created := created + 1;
          }
          sites := sites[key := item.siteUrl.value];
        }
        idx := idx + 1;
      }
      assert data[..idx] == data;
      ms := SiteSummary(SiteRun(sites, created, updated, errors));
    }
  }
}

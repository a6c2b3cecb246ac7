// Helpers of universities/views.py that the university-page scraper runs
// on what it parsed: collecting links by keyword, classifying program
// names, and deduplicating scholarship entries. The parsed page and
// `urljoin` are oracles: anchors arrive as values and URL joining is a
// function parameter.
module ViewHelpers {
  import opened Common
  import opened Text
  import opened Dedup

  // ---------------------------------------------------------------------
  // _collect_links_by_keywords

  /** An anchor of the page: its text (already `or ''`) and its href. */
  datatype Anchor = Anchor(text: string, href: string)

  /** Some keyword occurs in the lowered text or the lowered href. */
  predicate LinkMatches(a: Anchor, keywords: seq<string>)
  {
    exists k :: 0 <= k < |keywords| && (Contains(Lower(a.text), keywords[k]) || Contains(Lower(a.href), keywords[k]))
  }

  /** The joined URL of every matching anchor, in page order, repeats included. */
  function MatchingLinks(anchors: seq<Anchor>, keywords: seq<string>, join: string -> string): seq<string>
  {
    if anchors == [] then []
    else
      var a := anchors[|anchors| - 1];
      MatchingLinks(anchors[..|anchors| - 1], keywords, join) + (if LinkMatches(a, keywords) then [join(a.href)] else [])
  }

  /** A URL compared as itself. */
  function Url(s: string): string
  {
    s
  }

  /**
   * `_collect_links_by_keywords`: the joined URL of each matching anchor,
   * in page order, with later repeats of a URL dropped.
   */
  method CollectLinks(anchors: seq<Anchor>, keywords: seq<string>, join: string -> string) returns (out: seq<string>)
    ensures out == FirstOfEach(MatchingLinks(anchors, keywords, join), Url)
  {
    out := [];
    var seen: set<string> := {};
    ghost var found: seq<string> := [];
    for i := 0 to |anchors|
      invariant found == MatchingLinks(anchors[..i], keywords, join)
      invariant out == FirstOfEach(found, Url)
      invariant seen == Keys(found, Url)
    {
      assert anchors[..i + 1][..i] == anchors[..i];
      var a := anchors[i];
      if LinkMatches(a, keywords) {
        var full := join(a.href);
        LinksStep(found, full);
        found := found + [full];
        if full !in seen {
          seen := seen + {full};
          out := out + [full];
        }
      }
    }
    assert anchors[..|anchors|] == anchors;
  }

  /** One matching URL more, seen from the loop: it is kept iff it is new. */
  lemma LinksStep(found: seq<string>, full: string)
    ensures FirstOfEach(found + [full], Url) == FirstOfEach(found, Url) + (if full in Keys(found, Url) then [] else [full])
    ensures Keys(found + [full], Url) == Keys(found, Url) + {full}
  {
    FirstOfEachStep(found + [full], |found|, Url);
    assert (found + [full])[..|found|] == found;
    assert (found + [full])[..|found| + 1] == found + [full];
  }

  /**
   * The collected links have no repeats and are exactly the URLs of the
   * matching anchors.
   */
  lemma CollectedLinks(anchors: seq<Anchor>, keywords: seq<string>, join: string -> string)
    ensures var out := FirstOfEach(MatchingLinks(anchors, keywords, join), Url);
      (forall a, b :: 0 <= a < b < |out| ==> out[a] != out[b])
      && (forall x :: x in out <==> x in MatchingLinks(anchors, keywords, join))
  {
    var m := MatchingLinks(anchors, keywords, join);
    var out := FirstOfEach(m, Url);
    FirstOfEachDistinct(m, Url);
    FirstOfEachKeySet(m, Url);
    forall x
      ensures x in out <==> x in m
    {
      if x in out {
        var j :| 0 <= j < |out| && out[j] == x;
        assert Url(out[j]) in Keys(out, Url);
      }
      if x in m {
        var j :| 0 <= j < |m| && m[j] == x;
        assert Url(m[j]) in Keys(m, Url);
      }
    }
  }

  /** A matching anchor's URL is among the collected links; a non-matching anchor contributes nothing. */
  lemma {:induction false} MatchingLinksCover(anchors: seq<Anchor>, keywords: seq<string>, join: string -> string, i: nat)
    requires i < |anchors|
    ensures LinkMatches(anchors[i], keywords) ==> join(anchors[i].href) in MatchingLinks(anchors, keywords, join)
  {
    var init := anchors[..|anchors| - 1];
    if i < |init| {
      assert init[i] == anchors[i];
      MatchingLinksCover(init, keywords, join, i);
    }
  }

  // ---------------------------------------------------------------------
  // _classify_programs

  /** The program entry built for a name: no documents, language, duration or notes. */
  datatype ProgramEntry = ProgramEntry(
    programName: string,
    requiredDocuments: seq<string>,
    language: string,
    durationYears: Option<int>,
    notes: string,
    thesisRequired: Option<bool>)

  function BachelorMarkers(): seq<string>
  {
    ["bachelor", " bsc", " ba ", " beng"]
  }

  function MasterMarkers(): seq<string>
  {
    ["master", " msc", " ms ", " ma ", " meng"]
  }

  predicate AnyMarker(low: string, markers: seq<string>)
  {
    exists k :: 0 <= k < |markers| && Contains(low, markers[k])
  }

  predicate IsBachelor(name: string)
  {
    AnyMarker(Lower(name), BachelorMarkers())
  }

  predicate IsMaster(name: string)
  {
    !IsBachelor(name) && AnyMarker(Lower(name), MasterMarkers())
  }

  function BachelorEntry(name: string): ProgramEntry
  {
    ProgramEntry(name, [], "", None, "", None)
  }

  function MasterEntry(name: string): ProgramEntry
  {
    ProgramEntry(name, [], "", None, "", Some(true))
  }

  /** The bachelor entries of the names, in order. */
  function Bachelors(names: seq<string>): seq<ProgramEntry>
  {
    if names == [] then []
    else
      var n := names[|names| - 1];
      Bachelors(names[..|names| - 1]) + (if IsBachelor(n) then [BachelorEntry(n)] else [])
  }

  /** The master entries of the names, in order. */
  function Masters(names: seq<string>): seq<ProgramEntry>
  {
    if names == [] then []
    else
      var n := names[|names| - 1];
      Masters(names[..|names| - 1]) + (if IsMaster(n) then [MasterEntry(n)] else [])
  }

  /** `_classify_programs`: each name goes to the bachelors, the masters, or neither. */
  method ClassifyPrograms(names: seq<string>) returns (bachelors: seq<ProgramEntry>, masters: seq<ProgramEntry>)
    ensures bachelors == Bachelors(names) && masters == Masters(names)
  {
    bachelors, masters := [], [];
    for i := 0 to |names|
      invariant bachelors == Bachelors(names[..i]) && masters == Masters(names[..i])
    {
      assert names[..i + 1][..i] == names[..i];
      var t := names[i];
      var low := Lower(t);
      var entry := BachelorEntry(t);
      if AnyMarker(low, BachelorMarkers()) {
        bachelors := bachelors + [entry];
      } else if AnyMarker(low, MasterMarkers()) {
        var m := entry.(thesisRequired := Some(true));
        masters := masters + [m];
      }
    }
    assert names[..|names|] == names;
  }

  /**
   * No name is filed twice: the two lists together are no longer than
   * the input; bachelor entries carry no thesis flag and master entries
   * require a thesis.
   */
  lemma {:induction false} ClassifiedRules(names: seq<string>)
    ensures |Bachelors(names)| + |Masters(names)| <= |names|
    ensures forall k :: 0 <= k < |Bachelors(names)| ==> IsBachelor(Bachelors(names)[k].programName) && Bachelors(names)[k].thesisRequired.None?
    ensures forall k :: 0 <= k < |Masters(names)| ==> IsMaster(Masters(names)[k].programName) && Masters(names)[k].thesisRequired == Some(true)
  {
    if names != [] {
      var init := names[..|names| - 1];
      ClassifiedRules(init);
      var b, m := Bachelors(init), Masters(init);
      var n := names[|names| - 1];
      assert Bachelors(names) == b + (if IsBachelor(n) then [BachelorEntry(n)] else []);
      assert Masters(names) == m + (if IsMaster(n) then [MasterEntry(n)] else []);
    }
  }

  /** The markers need a leading space: a name that starts with "BSc" is not filed. */
  lemma LeadingAbbreviationMissed()
    ensures !IsBachelor("BSc Physics") && !IsMaster("BSc Physics")
  {
    var low := Lower("BSc Physics");
    assert low == "bsc physics";
    forall k | 0 <= k < |BachelorMarkers()|
      ensures !Contains(low, BachelorMarkers()[k])
    {
      NotFound(low, BachelorMarkers()[k]);
    }
    forall k | 0 <= k < |MasterMarkers()|
      ensures !Contains(low, MasterMarkers()[k])
    {
      NotFound(low, MasterMarkers()[k]);
    }
  }

  /** A needle whose first two characters never stand side by side in the text does not occur in it. */
  lemma NotFound(hay: string, needle: string)
    requires |needle| >= 2
    requires forall j :: 0 <= j < |hay| - 1 ==> !(hay[j] == needle[0] && hay[j + 1] == needle[1])
    ensures !Contains(hay, needle)
  {
    forall i | 0 <= i <= |hay| - |needle|
      ensures !OccursAt(hay, needle, i)
    {
      var w := hay[i..i + |needle|];
      assert w[0] == hay[i] && w[1] == hay[i + 1];
    }
  }

  // ---------------------------------------------------------------------
  // _dedup_scholarships

  /** A scholarship entry; `name` and `link` may be missing or null. */
  datatype ScholarshipItem = ScholarshipItem(name: Option<string>, link: Option<string>, coverage: string, eligibility: string)

  /** `(it.get('link') or '').strip().lower()` */
  function LinkKey(it: ScholarshipItem): string
  {
    Lower(Strip(if it.link.Some? then it.link.value else ""))
  }

  /** `(it.get('name') or '').strip().lower()` */
  function NameKey(it: ScholarshipItem): string
  {
    Lower(Strip(if it.name.Some? then it.name.value else ""))
  }

  /** An item whose link key and name key are both empty is skipped. */
  predicate Blank<T>(it: T, lk: T -> string, nk: T -> string)
  {
    lk(it) == "" && nk(it) == ""
  }

  /** The item is dropped: blank, or its link or name is already taken by a kept item. */
  predicate Dropped<T>(kept: seq<T>, it: T, lk: T -> string, nk: T -> string)
  {
    Blank(it, lk, nk) || lk(it) in Keys(kept, lk) || nk(it) in Keys(kept, nk)
  }

  /** The items kept when each link key and each name key may appear once. */
  function Deduped<T>(items: seq<T>, lk: T -> string, nk: T -> string): seq<T>
  {
    if items == [] then []
    else
      var d := Deduped(items[..|items| - 1], lk, nk);
      var it := items[|items| - 1];
      if Dropped(d, it, lk, nk) then d else d + [it]
  }

  /** The positions of the kept items. */
  function DedupedIndices<T>(items: seq<T>, lk: T -> string, nk: T -> string): (idx: seq<nat>)
    ensures forall k :: 0 <= k < |idx| ==> idx[k] < |items|
    ensures forall a, b :: 0 <= a < b < |idx| ==> idx[a] < idx[b]
  {
    if items == [] then []
    else
      var it := items[|items| - 1];
      DedupedIndices(items[..|items| - 1], lk, nk)
        + (if Dropped(Deduped(items[..|items| - 1], lk, nk), it, lk, nk) then [] else [|items| - 1])
  }

  /** The scholarships `_dedup_scholarships` keeps. */
  function DedupedScholarships(items: seq<ScholarshipItem>): seq<ScholarshipItem>
  {
    Deduped(items, LinkKey, NameKey)
  }

  /** `_dedup_scholarships` with its two sets of seen keys. */
  method DedupScholarships(items: seq<ScholarshipItem>) returns (out: seq<ScholarshipItem>)
    ensures out == DedupedScholarships(items)
  {
    out := [];
    var seenLinks: set<string> := {};
    var seenNames: set<string> := {};
    for i := 0 to |items|
      invariant out == Deduped(items[..i], LinkKey, NameKey)
      invariant seenLinks == Keys(out, LinkKey) && seenNames == Keys(out, NameKey)
    {
      DedupedStep(items, i, LinkKey, NameKey);
      var it := items[i];
      var link := LinkKey(it);
      var name := NameKey(it);
      if link == "" && name == "" {
        continue;
      }
      if link in seenLinks || name in seenNames {
        continue;
      }
      KeysAppend(out, it, LinkKey);
      KeysAppend(out, it, NameKey);
      seenLinks := seenLinks + {link};
      seenNames := seenNames + {name};
      out := out + [it];
    }
    assert items[..|items|] == items;
  }

  /** One item more, as the loop meets it. */
  lemma DedupedStep<T>(items: seq<T>, i: nat, lk: T -> string, nk: T -> string)
    requires i < |items|
    ensures var d := Deduped(items[..i], lk, nk);
      Deduped(items[..i + 1], lk, nk) == if Dropped(d, items[i], lk, nk) then d else d + [items[i]]
  {
    assert items[..i + 1][..i] == items[..i];
  }

  /**
   * The kept items are the input at increasing positions, so an
   * order-preserving subsequence of it.
   */
  lemma {:induction false} DedupedSubsequence<T>(items: seq<T>, lk: T -> string, nk: T -> string)
    ensures |Deduped(items, lk, nk)| == |DedupedIndices(items, lk, nk)|
    ensures forall k :: 0 <= k < |Deduped(items, lk, nk)| ==>
      Deduped(items, lk, nk)[k] == items[DedupedIndices(items, lk, nk)[k]]
  {
    if items != [] {
      var init := items[..|items| - 1];
      DedupedSubsequence(init, lk, nk);
      var d, idx := Deduped(init, lk, nk), DedupedIndices(init, lk, nk);
      forall k | 0 <= k < |d|
        ensures d[k] == items[idx[k]]
      {
        assert init[idx[k]] == items[idx[k]];
      }
    }
  }

  /**
   * No kept item is blank, and no two kept items share a link key (the
   * empty link included) or a name key.
   */
  lemma {:induction false} DedupedDistinct<T>(items: seq<T>, lk: T -> string, nk: T -> string)
    ensures forall k :: 0 <= k < |Deduped(items, lk, nk)| ==> !Blank(Deduped(items, lk, nk)[k], lk, nk)
    ensures forall a, b :: 0 <= a < b < |Deduped(items, lk, nk)| ==>
      lk(Deduped(items, lk, nk)[a]) != lk(Deduped(items, lk, nk)[b])
      && nk(Deduped(items, lk, nk)[a]) != nk(Deduped(items, lk, nk)[b])
  {
    if items != [] {
      var init := items[..|items| - 1];
      DedupedDistinct(init, lk, nk);
      var d := Deduped(init, lk, nk);
      var it := items[|items| - 1];
      if Dropped(d, it, lk, nk) {
        assert Deduped(items, lk, nk) == d;
      } else {
        var r := d + [it];
        assert Deduped(items, lk, nk) == r;
        assert !Blank(it, lk, nk) && lk(it) !in Keys(d, lk) && nk(it) !in Keys(d, nk);
        forall k | 0 <= k < |r|
          ensures !Blank(r[k], lk, nk)
        {
          if k < |d| {
            assert r[k] == d[k];
          }
        }
        forall a, b | 0 <= a < b < |r|
          ensures lk(r[a]) != lk(r[b]) && nk(r[a]) != nk(r[b])
        {
          assert r[a] == d[a];
          if b == |d| {
            assert r[b] == it;
            assert lk(d[a]) in Keys(d, lk) && nk(d[a]) in Keys(d, nk);
          } else {
            assert r[b] == d[b];
          }
        }
      }
    }
  }

  /**
   * Every input item that is not blank is kept, or shares its link or
   * its name with a kept item.
   */
  lemma {:induction false} DedupedMaximal<T>(items: seq<T>, lk: T -> string, nk: T -> string, i: nat)
    requires i < |items| && !Blank(items[i], lk, nk)
    ensures var d := Deduped(items, lk, nk);
      items[i] in d || lk(items[i]) in Keys(d, lk) || nk(items[i]) in Keys(d, nk)
  {
    var init := items[..|items| - 1];
    var d := Deduped(init, lk, nk);
    var last := items[|items| - 1];
    if i < |init| {
      assert init[i] == items[i];
      DedupedMaximal(init, lk, nk, i);
      if !Dropped(d, last, lk, nk) {
        assert Deduped(items, lk, nk) == d + [last];
        KeysAppend(d, last, lk);
        KeysAppend(d, last, nk);
      }
    } else if !Dropped(d, last, lk, nk) {
      assert Deduped(items, lk, nk) == d + [last];
      assert Deduped(items, lk, nk)[|d|] == items[i];
    }
  }

  /** The three rules above for the scholarships' own link and name keys. */
  lemma ScholarshipDedupRules(items: seq<ScholarshipItem>)
    ensures var d := DedupedScholarships(items);
      (forall k :: 0 <= k < |d| ==> !Blank(d[k], LinkKey, NameKey) && d[k] in items)
      && (forall a, b :: 0 <= a < b < |d| ==> LinkKey(d[a]) != LinkKey(d[b]) && NameKey(d[a]) != NameKey(d[b]))
      && (forall i :: 0 <= i < |items| && !Blank(items[i], LinkKey, NameKey) ==>
            items[i] in d || LinkKey(items[i]) in Keys(d, LinkKey) || NameKey(items[i]) in Keys(d, NameKey))
  {
    DedupedSubsequence(items, LinkKey, NameKey);
    DedupedDistinct(items, LinkKey, NameKey);
    forall i | 0 <= i < |items| && !Blank(items[i], LinkKey, NameKey)
      ensures var d := DedupedScholarships(items);
        items[i] in d || LinkKey(items[i]) in Keys(d, LinkKey) || NameKey(items[i]) in Keys(d, NameKey)
    {
      DedupedMaximal(items, LinkKey, NameKey, i);
    }
  }
}

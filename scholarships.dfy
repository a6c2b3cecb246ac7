// universities/scholarship_service.py and the selection rule of the
// fetch_scholarships command: scholarship records of the external API,
// the query sent for them, and their reshaping into the university's
// scholarship entries. The HTTP request itself is an oracle whose
// response is a parameter.
module Scholarships {
  import opened Common
  import opened Text

  /** One scholarship object of the API response: its string-valued keys. */
  type ApiItem = map<string, string>

  /** `d.get(k, default)` */
  function Get(m: ApiItem, k: string, default: string): (v: string)
    ensures k in m ==> v == m[k]
    ensures k !in m ==> v == default
  {
    if k in m then m[k] else default
  }

  /** A scholarship entry as the university stores it. */
  datatype Scholarship = Scholarship(name: string, coverage: string, eligibility: string, link: string)

  /** One API record as a university entry; a missing key takes its default. */
  function Format(s: ApiItem): Scholarship
  {
    Scholarship(Get(s, "title", "Scholarship"), Get(s, "amount", "Varies"),
                Get(s, "eligibility", "See requirements"), Get(s, "url", ""))
  }

  /** An empty record gets every default; a present key is copied even when empty. */
  lemma FormatDefaults(s: ApiItem)
    ensures Format(map[]) == Scholarship("Scholarship", "Varies", "See requirements", "")
    ensures "title" in s ==> Format(s).name == s["title"]
    ensures "amount" in s ==> Format(s).coverage == s["amount"]
    ensures "eligibility" in s ==> Format(s).eligibility == s["eligibility"]
    ensures "url" in s ==> Format(s).link == s["url"]
  {
  }

  /**
   * `format_for_university`: the first five records, in order, each
   * reshaped by `Format`.
   */
  function FormatForUniversity(items: seq<ApiItem>): (r: seq<Scholarship>)
    ensures |r| == Min(|items|, 5)
    ensures forall k :: 0 <= k < |r| ==> r[k] == Format(items[k])
  {
    var n := Min(|items|, 5);
    seq(n, k requires 0 <= k < n => Format(items[k]))
  }

  /** The query parameters of `get_scholarships`. */
  datatype Query = Query(limit: int, country: Option<string>)

  /** The country is sent only when it is a non-empty string. */
  function QueryFor(country: Option<string>, limit: int): (q: Query)
    ensures q.limit == limit
    ensures q.country.Some? <==> Truthy(country)
    ensures q.country.Some? ==> q.country == country
  {
    if Truthy(country) then Query(limit, country) else Query(limit, None)
  }

  /** What the API answered: its status code and the `data` key of its body, if present. */
  datatype Response = Response(status: int, data: Option<seq<ApiItem>>)

  /** `get_scholarships` on a response: the `data` list on 200, otherwise nothing. */
  function ScholarshipsOf(r: Response): (items: seq<ApiItem>)
    ensures r.status != 200 ==> items == []
    ensures r.status == 200 && r.data.Some? ==> items == r.data.value
    ensures r.data.None? ==> items == []
  {
    if r.status == 200 then (if r.data.Some? then r.data.value else []) else []
  }

  // ---------------------------------------------------------------------
  // fetch_scholarships: choosing records for one university

  /** The record mentions the country, ignoring case, in its eligibility or description. */
  predicate Mentions(s: ApiItem, country: string)
  {
    var c := Lower(country);
    Contains(Lower(Get(s, "eligibility", "")), c) || Contains(Lower(Get(s, "description", "")), c)
  }

  /** The records that mention the country, in order. */
  function Mentioning(items: seq<ApiItem>, country: string): seq<ApiItem>
  {
    if items == [] then []
    else
      var last := items[|items| - 1];
      Mentioning(items[..|items| - 1], country) + (if Mentions(last, country) then [last] else [])
  }

  /** The records chosen for a university: up to three that mention its country, else the first three. */
  function Pick(items: seq<ApiItem>, country: string): seq<ApiItem>
  {
    var m := Take(Mentioning(items, country), 3);
    if m == [] then Take(items, 3) else m
  }

  /** `Mentioning` keeps only records of the input that mention the country. */
  lemma {:induction false} MentioningKept(items: seq<ApiItem>, country: string)
    ensures |Mentioning(items, country)| <= |items|
    ensures forall k :: 0 <= k < |Mentioning(items, country)| ==>
      Mentions(Mentioning(items, country)[k], country) && Mentioning(items, country)[k] in items
  {
    if items != [] {
      var init := items[..|items| - 1];
      MentioningKept(init, country);
      var m := Mentioning(init, country);
      var r := Mentioning(items, country);
      forall k | 0 <= k < |r|
        ensures Mentions(r[k], country) && r[k] in items
      {
        if k < |m| {
          assert r[k] == m[k] && m[k] in init;
        }
      }
    }
  }

  /** `Mentioning` is empty exactly when no record mentions the country. */
  lemma {:induction false} MentioningEmpty(items: seq<ApiItem>, country: string)
    ensures Mentioning(items, country) == [] <==> forall k :: 0 <= k < |items| ==> !Mentions(items[k], country)
  {
    if items != [] {
      var init := items[..|items| - 1];
      MentioningEmpty(init, country);
      if Mentioning(items, country) == [] {
        forall k | 0 <= k < |items|
          ensures !Mentions(items[k], country)
        {
          if k < |init| {
            assert items[k] == init[k];
          }
        }
      }
    }
  }

  /**
   * The choice: at most three records, all mentioning the country when
   * any record does, and the first three overall when none does; a
   * non-empty list always yields at least one.
   */
  lemma PickRules(items: seq<ApiItem>, country: string)
    ensures var p := Pick(items, country);
      |p| <= 3 && (items != [] ==> p != [])
      && ((exists k :: 0 <= k < |items| && Mentions(items[k], country)) ==>
            forall j :: 0 <= j < |p| ==> Mentions(p[j], country))
      && ((forall k :: 0 <= k < |items| ==> !Mentions(items[k], country)) ==> p == Take(items, 3))
      && forall j :: 0 <= j < |p| ==> p[j] in items
  {
    MentioningKept(items, country);
    MentioningEmpty(items, country);
  }

  /** An empty country name is found in every record, so the first three are taken. */
  lemma EmptyCountryTakesFirst(items: seq<ApiItem>)
    ensures Pick(items, "") == Take(items, 3)
  {
    forall k | 0 <= k < |items|
      ensures Mentions(items[k], "")
    {
      assert OccursAt(Lower(Get(items[k], "eligibility", "")), "", 0);
    }
    MentioningAll(items, "");
  }

  lemma {:induction false} MentioningAll(items: seq<ApiItem>, country: string)
    requires forall k :: 0 <= k < |items| ==> Mentions(items[k], country)
    ensures Mentioning(items, country) == items
  {
    if items != [] {
      MentioningAll(items[..|items| - 1], country);
    }
  }

  /** The loop of `handle` that reshapes the chosen records. */
  method FormatEach(chosen: seq<ApiItem>) returns (out: seq<Scholarship>)
    ensures |out| == |chosen|
    ensures forall k :: 0 <= k < |out| ==> out[k] == Format(chosen[k])
  {
    out := [];
    for i := 0 to |chosen|
      invariant |out| == i
      invariant forall k :: 0 <= k < i ==> out[k] == Format(chosen[k])
    {
      out := out + [Format(chosen[i])];
    }
  }

  /** The entries a university receives from the fetched records. */
  function Chosen(items: seq<ApiItem>, country: string): (r: seq<Scholarship>)
    ensures |r| == |Pick(items, country)|
    ensures forall k :: 0 <= k < |r| ==> r[k] == Format(Pick(items, country)[k])
  {
    var p := Pick(items, country);
    seq(|p|, k requires 0 <= k < |p| => Format(p[k]))
  }

  /**
   * The command's entries are the service's formatting of the records it
   * picks: the same field names and defaults; at most three are picked,
   * under the service's cut of five.
   */
  lemma SameFormatting(items: seq<ApiItem>, country: string)
    ensures Chosen(items, country) == FormatForUniversity(Pick(items, country))
  {
    PickRules(items, country);
  }
}

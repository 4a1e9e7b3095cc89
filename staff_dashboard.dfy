/**
 * The staff dashboard (src/pages/StaffDashboard.tsx): the patient search
 * filter, the NFC reader panel toggle, and the handler that takes a patient
 * id out of a scanned URL.
 *
 * Lower-casing is ASCII only, and URL parsing is a simplified reading of the
 * WHATWG rules: a URL needs a scheme, its query runs from the first `?` to
 * the first `#`, parameters are split on `&` and at their first `=`, and no
 * percent-decoding is done.
 */
module StaffDashboard {
  import opened Common

  /** A row of the patient table (the placeholder visit date and status are
      not modelled). */
  datatype Patient = Patient(id: string, name: string, email: string)

  // ---------------------------------------------------------------- search

  function ToLowerAscii(c: char): char
  {
    if 'A' <= c <= 'Z' then (c as int + 32) as char else c
  }

  /** `s.toLowerCase()`, restricted to ASCII letters. */
  function Lower(s: string): (r: string)
    ensures |r| == |s|
    ensures forall k :: 0 <= k < |s| ==> r[k] == ToLowerAscii(s[k])
  {
    seq(|s|, k requires 0 <= k < |s| => ToLowerAscii(s[k]))
  }

  /** `s.includes(sub)`. */
  predicate Contains(s: string, sub: string)
  {
    exists i :: 0 <= i <= |s| && sub <= s[i..]
  }

  /** The search condition of one patient. */
  predicate MatchesSearch(p: Patient, term: string)
  {
    Contains(Lower(p.name), Lower(term)) || Contains(Lower(p.email), Lower(term))
  }

  /** `filteredPatients`: the patients the search term matches, in order. */
  function FilterPatients(patients: seq<Patient>, term: string): (r: seq<Patient>)
    ensures |r| <= |patients|
    ensures forall p :: p in r ==> p in patients && MatchesSearch(p, term)
  {
    if patients == [] then []
    else (if MatchesSearch(patients[0], term) then [patients[0]] else []) + FilterPatients(patients[1..], term)
  }

  /** `a` is `b` with some elements left out, the rest in their order. */
  predicate IsSubsequence<T(==)>(a: seq<T>, b: seq<T>)
    decreases |b|
  {
    a == [] || (b != [] && ((a[0] == b[0] && IsSubsequence(a[1..], b[1..])) || IsSubsequence(a, b[1..])))
  }

  /** The filter keeps the relative order of the patients it keeps. */
  lemma {:induction false} FilterIsSubsequence(patients: seq<Patient>, term: string)
    ensures IsSubsequence(FilterPatients(patients, term), patients)
  {
    if patients != [] {
      var rest := FilterPatients(patients[1..], term);
      FilterIsSubsequence(patients[1..], term);
      if MatchesSearch(patients[0], term) {
        assert ([patients[0]] + rest)[1..] == rest;
      } else {
        assert FilterPatients(patients, term) == rest;
      }
    }
  }

  /** The filter keeps every occurrence of a matching patient and no
      occurrence of any other. */
  lemma {:induction false} FilterMultiplicity(patients: seq<Patient>, term: string, p: Patient)
    ensures multiset(FilterPatients(patients, term))[p] == if MatchesSearch(p, term) then multiset(patients)[p] else 0
  {
    if patients != [] {
      FilterMultiplicity(patients[1..], term, p);
      assert patients == [patients[0]] + patients[1..];
    }
  }

  /** Every string contains the empty string. */
  lemma ContainsEmpty(s: string)
    ensures Contains(s, "")
  {
    assert s[0..] == s;
  }

  /** An empty search keeps every patient. */
  lemma {:induction false} EmptySearchKeepsAll(patients: seq<Patient>)
    ensures FilterPatients(patients, "") == patients
  {
    if patients != [] {
      ContainsEmpty(Lower(patients[0].name));
      EmptySearchKeepsAll(patients[1..]);
      assert patients == [patients[0]] + patients[1..];
    }
  }

  // ------------------------------------------------------- scanned payload

  /** The position of the first `c` in `s`, or `|s|` when there is none. */
  function IndexOf(s: string, c: char): (i: nat)
    ensures i <= |s|
    ensures i < |s| ==> s[i] == c
    ensures forall k :: 0 <= k < i ==> s[k] != c
  {
    if s == [] then 0
    else if s[0] == c then 0
    else 1 + IndexOf(s[1..], c)
  }

  /** The contract of `IndexOf` determines it: any position meeting it is
      the one `IndexOf` returns. */
  lemma IndexOfIs(s: string, c: char, i: nat)
    requires i <= |s| && (i < |s| ==> s[i] == c)
    requires forall k :: 0 <= k < i ==> s[k] != c
    ensures IndexOf(s, c) == i
  {
  }

  predicate IsAsciiLetter(c: char)
  {
    'a' <= c <= 'z' || 'A' <= c <= 'Z'
  }

  predicate IsSchemeChar(c: char)
  {
    IsAsciiLetter(c) || '0' <= c <= '9' || c == '+' || c == '-' || c == '.'
  }

  /** `new URL(data)` succeeds: the text starts with a scheme and a colon. */
  predicate ParsesAsUrl(data: string)
  {
    var colon := IndexOf(data, ':');
    0 < colon < |data| && IsAsciiLetter(data[0]) &&
    forall k :: 0 < k < colon ==> IsSchemeChar(data[k])
  }

  /** The query of a URL: what follows the first `?` before any `#`. */
  function QueryOf(url: string): string
  {
    var beforeFragment := url[..IndexOf(url, '#')];
    var q := IndexOf(beforeFragment, '?');
    if q < |beforeFragment| then beforeFragment[q + 1..] else ""
  }

  /** `searchParams.get(name)` on a query: the value of the first parameter
      with that name; a parameter without `=` has the empty value. */
  function SearchParam(query: string, name: string): (v: Option<string>)
    decreases |query|
  {
    var amp := IndexOf(query, '&');
    var segment := query[..amp];
    var eq := IndexOf(segment, '=');
    if segment[..eq] == name then Some(if eq < |segment| then segment[eq + 1..] else "")
    else if amp < |query| then SearchParam(query[amp + 1..], name)
    else None
  }

  /** The patient id a scanned payload yields: present when the payload is a
      URL whose `id` parameter is non-empty. */
  function ExtractPatientId(data: string): (id: Option<string>)
    ensures id.Some? ==> id.value != [] && ParsesAsUrl(data)
  {
    if !ParsesAsUrl(data) then None
    else match SearchParam(QueryOf(data), "id")
      case Some(v) => if v != [] then Some(v) else None
      case None => None
  }

  // ------------------------------------------------------------- the page

  class Dashboard {
    var patients: seq<Patient>
    var searchTerm: string
    var showNfcReader: bool

    constructor ()
      ensures patients == [] && searchTerm == "" && !showNfcReader
    {
      patients := [];
      searchTerm := "";
      showNfcReader := false;
    }

    /** The patients the fetch effect delivered. */
    method SetPatients(fetched: seq<Patient>)
      modifies this`patients
      ensures patients == fetched
    {
      patients := fetched;
    }

    /** The search input. */
    method SetSearchTerm(term: string)
      modifies this`searchTerm
      ensures searchTerm == term
    {
      searchTerm := term;
    }

    /** The rows the table shows. */
    function FilteredPatients(): seq<Patient>
      reads this
    {
      FilterPatients(patients, searchTerm)
    }

    /** The "Scan NFC Card" / "Hide NFC Reader" button. */
    method ToggleNfcReader()
      modifies this`showNfcReader
      ensures showNfcReader == !old(showNfcReader)
    {
      showNfcReader := !showNfcReader;
    }

    /** `handleNFCRead`: a payload with a patient id closes the reader
        panel; any other payload changes nothing. Returns the id found. */
    method HandleNfcRead(data: string) returns (patientId: Option<string>)
      modifies this`showNfcReader
      ensures patientId == ExtractPatientId(data)
      ensures showNfcReader == (if patientId.Some? then false else old(showNfcReader))
    {
      patientId := ExtractPatientId(data);
      if patientId.Some? {
        showNfcReader := false;
      }
    }
  }
}

/** Reconciliation of the EDC lab metadata against the central lab file:
    visit names and dates are standardised, records are matched on
    patient, visit and lab category, matched records compare their
    dates, and the summary and the gap tabs list what one system has
    and the other lacks. A data-frame row becomes a `Record`; a missing
    cell (`NaN`) becomes `None`. */
module LabRecon {
  import opened Wrappers
  import opened Text
  import opened StringOrder
  import Seqs

  // ---------------------------------------------------------------------
  // Standardising cells

  /** `s.replace(from, to)`: every occurrence, scanning left to right. */
  function Replace(s: string, from: string, to: string): string
    requires from != []
  {
    Join(Split(s, from), to)
  }

  /** `standardize_visit_name`: a missing visit stays missing; otherwise it
      is stripped, any visit mentioning "screening" in any case becomes
      "Screening", and the others have "(Day-" and "(Day  " respelled. */
  function StandardizeVisitName(visit: Option<string>): Option<string>
  {
    match visit
    case None => None
    case Some(v) =>
      var s := Strip(v);
      if Contains(Lower(s), "screening") then Some("Screening")
      else Some(Replace(Replace(s, "(Day-", "(Day -"), "(Day  ", "(Day "))
  }

  /** A visit name without the two misspellings is only stripped. */
  lemma PlainVisitOnlyStripped(v: string)
    requires !Contains(Lower(Strip(v)), "screening")
    requires !Contains(Strip(v), "(Day-") && !Contains(Strip(v), "(Day  ")
    ensures StandardizeVisitName(Some(v)) == Some(Strip(v))
  {
    var s := Strip(v);
    ContainsIffIndexOf(s, "(Day-");
    SplitNoSeparator(s, "(Day-");
    ContainsIffIndexOf(s, "(Day  ");
    SplitNoSeparator(s, "(Day  ");
  }

  /** Every spelling of a screening visit maps to the one name. */
  lemma ScreeningVisits(v: string)
    requires Contains(Lower(Strip(v)), "screening")
    ensures StandardizeVisitName(Some(v)) == Some("Screening")
  {
  }

  /** The standard screening name is a fixed point: standardising twice
      changes nothing more. */
  lemma ScreeningStable()
    ensures StandardizeVisitName(Some("Screening")) == Some("Screening")
  {
    var s := "Screening";
    assert s[0] !in Whitespace;
    assert TrimLeft(s, Whitespace) == s;
    assert s[|s| - 1] !in Whitespace;
    assert TrimRight(s, Whitespace) == s;
    var l := Lower(s);
    assert l[0] == 's' && l[1] == 'c' && l[2] == 'r' && l[3] == 'e' && l[4] == 'e';
    assert l[5] == 'n' && l[6] == 'i' && l[7] == 'n' && l[8] == 'g';
    assert l == "screening";
    assert OccursAt(l, "screening", 0);
  }

  /** An Excel date cell: empty, text, a datetime (held as its
      `%Y-%m-%d` rendering) or any other value. */
  datatype DateCell = Blank | TextDate(s: string) | DateTime(iso: string) | OtherDate

  /** The texts that mean "no date" once upper-cased. */
  const NoDateTexts: seq<string> := ["ND", "NOT DONE", ""]

  /** `standardize_date_from_excel`, with `parse` standing for parsing
      `DD/MMM/YYYY` and formatting the result as `YYYY-MM-DD`. */
  function StandardizeExcelDate(cell: DateCell, parse: string -> Option<string>): Option<string>
  {
    match cell
    case Blank => None
    case TextDate(s) => if Upper(s) in NoDateTexts then None else parse(s)
    case DateTime(iso) => Some(iso)
    case OtherDate => None
  }

  /** "ND" and "NOT DONE" in any case, and the empty text, are no date,
      whatever the parser would make of them. */
  lemma NoDateSentinels(parse: string -> Option<string>)
    ensures StandardizeExcelDate(TextDate("nd"), parse) == None
    ensures StandardizeExcelDate(TextDate("Not Done"), parse) == None
    ensures StandardizeExcelDate(TextDate(""), parse) == None
    ensures forall s :: Upper(s) == "ND" ==> StandardizeExcelDate(TextDate(s), parse) == None
    ensures forall s :: Upper(s) == "NOT DONE" ==> StandardizeExcelDate(TextDate(s), parse) == None
  {
    var a := Upper("nd");
    assert a[0] == 'N' && a[1] == 'D';
    assert a == "ND";
    var b := Upper("Not Done");
    assert b[0] == 'N' && b[1] == 'O' && b[2] == 'T' && b[3] == ' ';
    assert b[4] == 'D' && b[5] == 'O' && b[6] == 'N' && b[7] == 'E';
    assert b == "NOT DONE";
  }

  /** A text that is not a sentinel is whatever the parser makes of it. */
  lemma OtherTextsParsed(s: string, parse: string -> Option<string>)
    requires Upper(s) != "ND" && Upper(s) != "NOT DONE" && s != ""
    ensures StandardizeExcelDate(TextDate(s), parse) == parse(s)
  {
  }

  /** `standardize_date_from_iso`, with `parse` standing for
      `pd.to_datetime` and `strftime`. */
  function StandardizeIsoDate(cell: Option<string>, parse: string -> Option<string>): Option<string>
  {
    match cell
    case None => None
    case Some(s) => if s == "" then None else parse(s)
  }

  // ---------------------------------------------------------------------
  // Matching

  /** One row of either data frame once standardised: the patient, the
      site (metadata only), the standardised visit, the lab category and
      the standardised collection date. */
  datatype Record = Record(patient: string, site: string, visit: Option<string>, category: string,
                           date: Option<string>)

  /** The join key `PATIENT + VISIT_STD + LBCAT`. */
  datatype Key = Key(patient: string, visit: Option<string>, category: string)

  function KeyOf(r: Record): Key { Key(r.patient, r.visit, r.category) }

  /** One row of the aggregated lab data: a key and the first
      collection date among its tests. */
  datatype LabGroup = LabGroup(key: Key, date: Option<string>)

  datatype Status = Matched | MetadataOnly | LabOnly

  /** `MATCH_STATUS` as written to the output. */
  function StatusName(s: Status): string
  {
    match s
    case Matched => "MATCHED"
    case MetadataOnly => "METADATA_ONLY"
    case LabOnly => "LAB_ONLY"
  }

  /** One row of the outer join: the key, the side it came from, and the
      metadata and lab dates (missing on the side that lacks the key). */
  datatype Joined = Joined(key: Key, status: Status, metaDate: Option<string>, labDate: Option<string>)

  /** The lab group of a key, if any. */
  function FindGroup(lab: seq<LabGroup>, k: Key): (r: Option<LabGroup>)
    ensures r.Some? <==> exists g :: g in lab && g.key == k
    ensures r.Some? ==> r.value in lab && r.value.key == k
  {
    if lab == [] then None
    else if lab[0].key == k then Some(lab[0])
    else FindGroup(lab[1..], k)
  }

  /** The metadata side of the join: every metadata row, matched to the
      lab group of its key when there is one. */
  function MetaSide(meta: seq<Record>, lab: seq<LabGroup>): seq<Joined>
  {
    if meta == [] then []
    else
      var r := meta[|meta| - 1];
      MetaSide(meta[..|meta| - 1], lab)
      + [match FindGroup(lab, KeyOf(r))
         case Some(g) => Joined(KeyOf(r), Matched, r.date, g.date)
         case None => Joined(KeyOf(r), MetadataOnly, r.date, None)]
  }

  function MetaKeys(meta: seq<Record>): set<Key> { set r | r in meta :: KeyOf(r) }

  function LabKeys(lab: seq<LabGroup>): set<Key> { set g | g in lab :: g.key }

  /** The lab side: the groups whose key no metadata row has. */
  function LabSide(lab: seq<LabGroup>, keys: set<Key>): seq<Joined>
  {
    if lab == [] then []
    else
      var g := lab[|lab| - 1];
      LabSide(lab[..|lab| - 1], keys) + (if g.key in keys then [] else [Joined(g.key, LabOnly, None, g.date)])
  }

  /** `pd.merge(..., how='outer', indicator=True)` with the status column. */
  function Reconcile(meta: seq<Record>, lab: seq<LabGroup>): seq<Joined>
  {
    MetaSide(meta, lab) + LabSide(lab, MetaKeys(meta))
  }

  lemma {:induction false} MetaSideSpec(meta: seq<Record>, lab: seq<LabGroup>)
    ensures |MetaSide(meta, lab)| == |meta|
    ensures forall i :: 0 <= i < |meta| ==>
      var j := MetaSide(meta, lab)[i];
      j.key == KeyOf(meta[i]) && j.metaDate == meta[i].date
      && (j.status == Matched <==> KeyOf(meta[i]) in LabKeys(lab))
      && (j.status != Matched ==> j.status == MetadataOnly && j.labDate == None)
  {
    if meta != [] {
      MetaSideSpec(meta[..|meta| - 1], lab);
      var r := meta[|meta| - 1];
      var g := FindGroup(lab, KeyOf(r));
      if g.Some? {
        assert KeyOf(r) in LabKeys(lab);
      }
    }
  }

  lemma {:induction false} LabSideSpec(lab: seq<LabGroup>, keys: set<Key>)
    ensures forall j :: j in LabSide(lab, keys) ==>
      j.status == LabOnly && j.key !in keys && j.metaDate == None && LabGroup(j.key, j.labDate) in lab
    ensures forall g :: g in lab && g.key !in keys ==> Joined(g.key, LabOnly, None, g.date) in LabSide(lab, keys)
  {
    if lab != [] {
      var front := lab[..|lab| - 1];
      LabSideSpec(front, keys);
      assert lab == front + [lab[|lab| - 1]];
    }
  }

  /** Each joined row carries exactly one status, the one its key's
      presence calls for: in both frames MATCHED, in the metadata only
      METADATA_ONLY, in the lab data only LAB_ONLY. Every key of either
      frame is present in the join. */
  lemma ReconcileStatus(meta: seq<Record>, lab: seq<LabGroup>)
    ensures forall j :: j in Reconcile(meta, lab) ==>
      j.key in MetaKeys(meta) + LabKeys(lab)
      && (j.status == Matched <==> j.key in MetaKeys(meta) && j.key in LabKeys(lab))
      && (j.status == MetadataOnly <==> j.key in MetaKeys(meta) && j.key !in LabKeys(lab))
      && (j.status == LabOnly <==> j.key !in MetaKeys(meta) && j.key in LabKeys(lab))
    ensures forall k :: k in MetaKeys(meta) + LabKeys(lab) ==> exists j :: j in Reconcile(meta, lab) && j.key == k
  {
    MetaSideSpec(meta, lab);
    LabSideSpec(lab, MetaKeys(meta));
    var side := MetaSide(meta, lab);
    forall j | j in side
      ensures j.key in MetaKeys(meta)
      ensures j.status == Matched <==> j.key in LabKeys(lab)
      ensures j.status != Matched ==> j.status == MetadataOnly
    {
      var i :| 0 <= i < |side| && side[i] == j;
      assert KeyOf(meta[i]) in MetaKeys(meta);
    }
    forall j | j in LabSide(lab, MetaKeys(meta)) ensures j.key in LabKeys(lab) {
      assert LabGroup(j.key, j.labDate) in lab;
    }
    forall k | k in MetaKeys(meta) + LabKeys(lab) ensures exists j :: j in Reconcile(meta, lab) && j.key == k {
      if k in MetaKeys(meta) {
        var r :| r in meta && KeyOf(r) == k;
        var i :| 0 <= i < |meta| && meta[i] == r;
        assert side[i] in Reconcile(meta, lab);
      } else {
        var g :| g in lab && g.key == k;
        assert Joined(g.key, LabOnly, None, g.date) in LabSide(lab, MetaKeys(meta));
      }
    }
  }

  /** `DATE_MATCH`. */
  datatype DateMatch = NotApplicable | MissingDate | SameDate | DifferentDate

  /** `check_date_match`: only matched rows compare dates; a missing date
      on either side is reported as such. */
  function CheckDateMatch(j: Joined): DateMatch
  {
    if j.status != Matched then NotApplicable
    else if j.metaDate.None? || j.labDate.None? then MissingDate
    else if j.metaDate == j.labDate then SameDate
    else DifferentDate
  }

  /** The dates compare as "MATCH" exactly when the row is matched and
      both dates are present and equal, and as "MISMATCH" exactly when
      both are present and differ. */
  lemma DateMatchIff(j: Joined)
    ensures CheckDateMatch(j) == SameDate <==> j.status == Matched && j.metaDate.Some? && j.metaDate == j.labDate
    ensures CheckDateMatch(j) == DifferentDate <==>
      j.status == Matched && j.metaDate.Some? && j.labDate.Some? && j.metaDate != j.labDate
    ensures CheckDateMatch(j) == NotApplicable <==> j.status != Matched
  {
  }

  /** `calc_date_diff`, with `days` standing for the date arithmetic
      (`None` where parsing fails). */
  function DateDiff(j: Joined, days: (string, string) -> Option<int>): Option<int>
  {
    if CheckDateMatch(j) != DifferentDate then None
    else days(j.metaDate.value, j.labDate.value)
  }

  /** A day count is reported only for a mismatch, and for every mismatch
      it is the difference of the two dates. */
  lemma DateDiffOnlyForMismatch(j: Joined, days: (string, string) -> Option<int>)
    ensures DateDiff(j, days).Some? ==> CheckDateMatch(j) == DifferentDate
    ensures CheckDateMatch(j) == DifferentDate ==> DateDiff(j, days) == days(j.metaDate.value, j.labDate.value)
  {
  }

  /** An unmatched row never carries a date difference. */
  lemma UnmatchedHasNoDiff(meta: seq<Record>, lab: seq<LabGroup>, days: (string, string) -> Option<int>)
    ensures forall j :: j in Reconcile(meta, lab) && j.key !in LabKeys(lab) ==> DateDiff(j, days) == None
    ensures forall j :: j in Reconcile(meta, lab) && j.key !in MetaKeys(meta) ==> DateDiff(j, days) == None
  {
    ReconcileStatus(meta, lab);
  }

  // ---------------------------------------------------------------------
  // The summary tab

  function PatientSet(rs: seq<Record>): set<string> { set r | r in rs :: r.patient }

  /** The visits of the patients in both systems, as `(patient, visit)`
      pairs. */
  function VisitPairs(rs: seq<Record>, both: set<string>): set<(string, Option<string>)>
  {
    set r | r in rs && r.patient in both :: (r.patient, r.visit)
  }

  function CountStatus(js: seq<Joined>, s: Status): nat
  {
    if js == [] then 0
    else CountStatus(js[..|js| - 1], s) + (if js[|js| - 1].status == s then 1 else 0)
  }

  function CountMismatches(js: seq<Joined>): nat
  {
    if js == [] then 0
    else CountMismatches(js[..|js| - 1]) + (if CheckDateMatch(js[|js| - 1]) == DifferentDate then 1 else 0)
  }

  /** The values of `create_summary_tab`, row by row. */
  datatype Summary = Summary(
    subjectsEdcOnly: nat, subjectsLabOnly: nat, subjectsBoth: nat,
    visitsEdcOnly: nat, visitsLabOnly: nat,
    categoriesEdcOnly: nat, categoriesLabOnly: nat, categoriesMatched: nat,
    dateMismatches: nat,
    edcRecords: nat, labRecords: nat, edcPatients: nat, labPatients: nat)

  function SummaryOf(joined: seq<Joined>, meta: seq<Record>, lab: seq<Record>): Summary
  {
    var pm := PatientSet(meta);
    var pl := PatientSet(lab);
    var both := pm * pl;
    var mv := VisitPairs(meta, both);
    var lv := VisitPairs(lab, both);
    Summary(|pm - pl|, |pl - pm|, |both|, |mv - lv|, |lv - mv|,
      CountStatus(joined, MetadataOnly), CountStatus(joined, LabOnly), CountStatus(joined, Matched),
      CountMismatches(joined), |meta|, |lab|, |pm|, |pl|)
  }

  lemma {:induction false} CountStatusTotal(js: seq<Joined>)
    ensures CountStatus(js, Matched) + CountStatus(js, MetadataOnly) + CountStatus(js, LabOnly) == |js|
  {
    if js != [] {
      CountStatusTotal(js[..|js| - 1]);
    }
  }

  lemma {:induction false} MismatchesAreMatched(js: seq<Joined>)
    ensures CountMismatches(js) <= CountStatus(js, Matched)
  {
    if js != [] {
      MismatchesAreMatched(js[..|js| - 1]);
    }
  }

  lemma DisjointUnionCard<T>(a: set<T>, b: set<T>)
    ensures |a - b| + |a * b| == |a|
  {
    assert a == (a - b) + (a * b);
    assert (a - b) * (a * b) == {};
  }

  /** The summary adds up: the patients of each system are those it alone
      has plus those both have; the three category counts cover every
      joined row; and every date mismatch is a matched row. */
  lemma SummaryAddsUp(joined: seq<Joined>, meta: seq<Record>, lab: seq<Record>)
    ensures var s := SummaryOf(joined, meta, lab);
      s.subjectsEdcOnly + s.subjectsBoth == s.edcPatients
      && s.subjectsLabOnly + s.subjectsBoth == s.labPatients
      && s.categoriesEdcOnly + s.categoriesLabOnly + s.categoriesMatched == |joined|
      && s.dateMismatches <= s.categoriesMatched
  {
    var pm := PatientSet(meta);
    var pl := PatientSet(lab);
    DisjointUnionCard(pm, pl);
    DisjointUnionCard(pl, pm);
    assert pl * pm == pm * pl;
    CountStatusTotal(joined);
    MismatchesAreMatched(joined);
  }

  // ---------------------------------------------------------------------
  // The subject gaps tab

  datatype GapType = InEdcNotLab | InLabNotEdc

  function GapTypeName(t: GapType): string
  {
    match t
    case InEdcNotLab => "In EDC, not in Lab"
    case InLabNotEdc => "In Lab, not in EDC"
  }

  /** A row of the subject gaps tab, or its "No subject gaps found" row.
      A gap row keeps the records of its patient in the system that has
      them; its other columns are computed from those records below. */
  datatype SubjectGap =
    | SubjectGap(subject: string, gapType: GapType, data: seq<Record>)
    | NoSubjectGaps

  /** The rows of one patient. */
  function RowsOf(rs: seq<Record>, p: string): (r: seq<Record>)
    ensures forall x :: x in r <==> x in rs && x.patient == p
  {
    if rs == [] then []
    else RowsOf(rs[..|rs| - 1], p) + (if rs[|rs| - 1].patient == p then [rs[|rs| - 1]] else [])
  }

  function Patients(rs: seq<Record>): (r: seq<string>)
    ensures forall p :: p in r <==> p in PatientSet(rs)
  {
    if rs == [] then []
    else
      var r := Patients(rs[..|rs| - 1]) + [rs[|rs| - 1].patient];
      assert rs == rs[..|rs| - 1] + [rs[|rs| - 1]];
      r
  }

  /** The elements of `xs` that are not in `s`. */
  function Without(xs: seq<string>, s: set<string>): (r: seq<string>)
    ensures forall y :: y in r <==> y in xs && y !in s
  {
    if xs == [] then []
    else Without(xs[..|xs| - 1], s) + (if xs[|xs| - 1] in s then [] else [xs[|xs| - 1]])
  }

  /** The elements of `xs` that are in `s`. */
  function Within(xs: seq<string>, s: set<string>): (r: seq<string>)
    ensures forall y :: y in r <==> y in xs && y in s
  {
    if xs == [] then []
    else Within(xs[..|xs| - 1], s) + (if xs[|xs| - 1] in s then [xs[|xs| - 1]] else [])
  }

  function Categories(rs: seq<Record>): seq<string>
  {
    if rs == [] then [] else Categories(rs[..|rs| - 1]) + [rs[|rs| - 1].category]
  }

  /** `", ".join(sorted(data["LBCAT"].unique()))`. */
  function CategoryList(rs: seq<Record>): string
  {
    Join(SortedSet(Categories(rs)), ", ")
  }

  /** `len(data["VISIT_STD"].unique())`, a missing visit counted once. */
  function VisitCount(rs: seq<Record>): nat
  {
    |set r | r in rs :: r.visit|
  }

  /** The "Site" column: only a metadata patient has one, taken from its
      first row. */
  function Site(g: SubjectGap): string
    requires g.SubjectGap?
  {
    if g.gapType == InEdcNotLab && g.data != [] then g.data[0].site else ""
  }

  /** The "Visits", "Categories" and "Records" columns. */
  function Visits(g: SubjectGap): nat
    requires g.SubjectGap?
  {
    VisitCount(g.data)
  }

  function CategoryColumn(g: SubjectGap): string
    requires g.SubjectGap?
  {
    CategoryList(g.data)
  }

  function Records(g: SubjectGap): nat
    requires g.SubjectGap?
  {
    |g.data|
  }

  /** The row for one patient missing from the other system. */
  function SubjectGapRow(side: seq<Record>, p: string, t: GapType): SubjectGap
  {
    SubjectGap(p, t, RowsOf(side, p))
  }

  function SubjectGapRows(side: seq<Record>, ps: seq<string>, t: GapType): (r: seq<SubjectGap>)
    ensures |r| == |ps|
  {
    if ps == [] then [] else SubjectGapRows(side, ps[..|ps| - 1], t) + [SubjectGapRow(side, ps[|ps| - 1], t)]
  }

  lemma {:induction false} SubjectGapRowsSpec(side: seq<Record>, ps: seq<string>, t: GapType)
    ensures forall k :: 0 <= k < |ps| ==> SubjectGapRows(side, ps, t)[k] == SubjectGapRow(side, ps[k], t)
  {
    if ps != [] {
      SubjectGapRowsSpec(side, ps[..|ps| - 1], t);
    }
  }

  /** The patients of `side` absent from `other`, in sorted order. */
  function MissingFrom(side: seq<Record>, other: seq<Record>): seq<string>
  {
    SortedSet(Without(Patients(side), PatientSet(other)))
  }

  /** The tab `create_subject_gaps_tab` returns. */
  function SubjectGapsTab(meta: seq<Record>, lab: seq<Record>): seq<SubjectGap>
  {
    var rows := SubjectGapRows(meta, MissingFrom(meta, lab), InEdcNotLab)
      + SubjectGapRows(lab, MissingFrom(lab, meta), InLabNotEdc);
    if rows == [] then [NoSubjectGaps] else rows
  }

  /** The loops of `create_subject_gaps_tab`. */
  method BuildSubjectGapsTab(meta: seq<Record>, lab: seq<Record>) returns (rows: seq<SubjectGap>)
    ensures rows == SubjectGapsTab(meta, lab)
  {
    var edcOnly := MissingFrom(meta, lab);
    var labOnly := MissingFrom(lab, meta);
    rows := AddSubjectGaps(meta, edcOnly, InEdcNotLab, []);
    assert rows == SubjectGapRows(meta, edcOnly, InEdcNotLab);
    rows := AddSubjectGaps(lab, labOnly, InLabNotEdc, rows);
    if rows == [] {
      rows := [NoSubjectGaps];
    }
  }

  /** One loop: a row for each patient of `ps`, appended in order. */
  method AddSubjectGaps(side: seq<Record>, ps: seq<string>, t: GapType, rows0: seq<SubjectGap>)
    returns (rows: seq<SubjectGap>)
    ensures rows == rows0 + SubjectGapRows(side, ps, t)
  {
    rows := rows0;
    for i := 0 to |ps|
      invariant rows == rows0 + SubjectGapRows(side, ps[..i], t)
    {
      assert ps[..i + 1][..i] == ps[..i];
      rows := rows + [SubjectGapRow(side, ps[i], t)];
    }
    assert ps[..|ps|] == ps;
  }

  /** The patients one system has and the other lacks: listed in
      strictly increasing order, each once, exactly the set difference. */
  lemma MissingFromSpec(side: seq<Record>, other: seq<Record>)
    ensures var ps := MissingFrom(side, other);
      StrictlySorted(ps)
      && (forall p :: p in ps <==> p in PatientSet(side) - PatientSet(other))
      && |ps| == |PatientSet(side) - PatientSet(other)|
  {
    var ps := MissingFrom(side, other);
    SortedDistinctCard(ps, PatientSet(side) - PatientSet(other));
  }

  /** No patient is missing exactly when the one system's patients are
      among the other's. */
  lemma MissingFromEmptyIff(side: seq<Record>, other: seq<Record>)
    ensures MissingFrom(side, other) == [] <==> PatientSet(side) <= PatientSet(other)
  {
    var ps := MissingFrom(side, other);
    if ps != [] {
      assert ps[0] in ps;
    }
  }

  /** The tab is the placeholder row alone exactly when both systems have
      the same patients. */
  lemma SubjectGapsEmptyIff(meta: seq<Record>, lab: seq<Record>)
    ensures SubjectGapsTab(meta, lab) == [NoSubjectGaps] <==> PatientSet(meta) == PatientSet(lab)
  {
    MissingFromEmptyIff(meta, lab);
    MissingFromEmptyIff(lab, meta);
    var e := MissingFrom(meta, lab);
    var rows := SubjectGapRows(meta, e, InEdcNotLab) + SubjectGapRows(lab, MissingFrom(lab, meta), InLabNotEdc);
    if rows != [] {
      SubjectGapRowsSpec(meta, e, InEdcNotLab);
      SubjectGapRowsSpec(lab, MissingFrom(lab, meta), InLabNotEdc);
      assert rows[0].SubjectGap?;
    }
  }

  /** Otherwise it lists a row for each metadata patient the lab file
      lacks, in sorted order, then a row for each lab patient the metadata
      lacks, in sorted order (the rows of each part are spelled out by
      `SubjectGapRowsSpec`). */
  lemma SubjectGapsListing(meta: seq<Record>, lab: seq<Record>)
    requires PatientSet(meta) != PatientSet(lab)
    ensures var e := MissingFrom(meta, lab); var o := MissingFrom(lab, meta);
      var tab := SubjectGapsTab(meta, lab);
      |tab| == |e| + |o|
      && tab[..|e|] == SubjectGapRows(meta, e, InEdcNotLab)
      && tab[|e|..] == SubjectGapRows(lab, o, InLabNotEdc)
  {
    SubjectGapsEmptyIff(meta, lab);
    var a := SubjectGapRows(meta, MissingFrom(meta, lab), InEdcNotLab);
    var b := SubjectGapRows(lab, MissingFrom(lab, meta), InLabNotEdc);
    assert SubjectGapsTab(meta, lab) == a + b;
    assert (a + b)[..|a|] == a && (a + b)[|a|..] == b;
  }

  /** A strictly increasing listing of a set is as long as the set. */
  lemma SortedDistinctCard(xs: seq<string>, s: set<string>)
    requires StrictlySorted(xs) && forall y :: y in xs <==> y in s
    ensures |xs| == |s|
  {
    StrictlySortedDistinct(xs);
    DistinctCard(xs, s);
  }

  lemma {:induction false} DistinctCard<T>(xs: seq<T>, s: set<T>)
    requires forall i, j :: 0 <= i < |xs| && 0 <= j < |xs| && xs[i] == xs[j] ==> i == j
    requires forall y :: y in xs <==> y in s
    ensures |xs| == |s|
  {
    if xs != [] {
      var last := xs[|xs| - 1];
      var front := xs[..|xs| - 1];
      assert last !in front;
      assert forall y :: y in front <==> y in s - {last} by {
        assert xs == front + [last];
      }
      DistinctCard(front, s - {last});
    } else {
      assert forall y :: y !in s;
      assert s == {};
    }
  }

  // ---------------------------------------------------------------------
  // The visit gaps tab

  /** A row of the visit gaps tab, or its "No visit gaps found" row. A gap
      row keeps the records of its patient's visit in the system that has
      it. */
  datatype VisitGap =
    | VisitGap(subject: string, visit: string, gapType: GapType, data: seq<Record>)
    | NoVisitGaps

  /** The "Categories" column. */
  function VisitCategories(g: VisitGap): string
    requires g.VisitGap?
  {
    CategoryList(g.data)
  }

  /** The "Date" column: the date of the visit's first record, the
      metadata date for a metadata visit and the collection date for a
      lab visit. */
  function VisitDate(g: VisitGap): Option<string>
    requires g.VisitGap?
  {
    if g.data != [] then g.data[0].date else None
  }

  /** The visits a set of records names, missing ones dropped. */
  function VisitNames(rs: seq<Record>): seq<string>
  {
    if rs == [] then []
    else
      var r := rs[|rs| - 1];
      VisitNames(rs[..|rs| - 1]) + (if r.visit.Some? then [r.visit.value] else [])
  }

  function VisitSet(rs: seq<Record>): set<string>
  {
    set r | r in rs && r.visit.Some? :: r.visit.value
  }

  lemma {:induction false} VisitsSpec(rs: seq<Record>)
    ensures forall v :: v in VisitNames(rs) <==> v in VisitSet(rs)
  {
    if rs != [] {
      VisitsSpec(rs[..|rs| - 1]);
      assert rs == rs[..|rs| - 1] + [rs[|rs| - 1]];
    }
  }

  /** The records of one visit. */
  function RecordsAt(rs: seq<Record>, v: string): seq<Record>
  {
    if rs == [] then []
    else RecordsAt(rs[..|rs| - 1], v) + (if rs[|rs| - 1].visit == Some(v) then [rs[|rs| - 1]] else [])
  }

  function VisitGapRow(side: seq<Record>, p: string, v: string, t: GapType): VisitGap
  {
    VisitGap(p, v, t, RecordsAt(RowsOf(side, p), v))
  }

  function VisitGapRows(side: seq<Record>, p: string, vs: seq<string>, t: GapType): (r: seq<VisitGap>)
    ensures |r| == |vs|
  {
    if vs == [] then [] else VisitGapRows(side, p, vs[..|vs| - 1], t) + [VisitGapRow(side, p, vs[|vs| - 1], t)]
  }

  lemma {:induction false} VisitGapRowsSpec(side: seq<Record>, p: string, vs: seq<string>, t: GapType)
    ensures forall k :: 0 <= k < |vs| ==> VisitGapRows(side, p, vs, t)[k] == VisitGapRow(side, p, vs[k], t)
  {
    if vs != [] {
      VisitGapRowsSpec(side, p, vs[..|vs| - 1], t);
    }
  }

  /** The visits of `p` that `side` has and `other` lacks, sorted. */
  function VisitsMissing(side: seq<Record>, other: seq<Record>, p: string): seq<string>
  {
    SortedSet(Without(VisitNames(RowsOf(side, p)), VisitSet(RowsOf(other, p))))
  }

  lemma VisitsMissingSpec(side: seq<Record>, other: seq<Record>, p: string)
    ensures forall v :: v in VisitsMissing(side, other, p) <==>
      v in VisitSet(RowsOf(side, p)) && v !in VisitSet(RowsOf(other, p))
  {
    VisitsSpec(RowsOf(side, p));
  }

  /** The rows of one patient: its metadata visits the lab file lacks,
      then its lab visits the metadata lacks. */
  function PatientVisitGaps(meta: seq<Record>, lab: seq<Record>, p: string): seq<VisitGap>
  {
    VisitGapRows(meta, p, VisitsMissing(meta, lab, p), InEdcNotLab)
    + VisitGapRows(lab, p, VisitsMissing(lab, meta, p), InLabNotEdc)
  }

  function VisitGapsOf(meta: seq<Record>, lab: seq<Record>, ps: seq<string>): seq<VisitGap>
  {
    if ps == [] then [] else VisitGapsOf(meta, lab, ps[..|ps| - 1]) + PatientVisitGaps(meta, lab, ps[|ps| - 1])
  }

  /** `sorted(patients_both)`. */
  function InBoth(meta: seq<Record>, lab: seq<Record>): seq<string>
  {
    SortedSet(Within(Patients(meta), PatientSet(lab)))
  }

  /** The order of the final `sort_values(["Subject", "Visit"])`. */
  predicate RowLeq(a: VisitGap, b: VisitGap)
    requires a.VisitGap? && b.VisitGap?
  {
    Less(a.subject, b.subject) || (a.subject == b.subject && LessEq(a.visit, b.visit))
  }

  predicate AllGaps(rows: seq<VisitGap>)
  {
    forall k :: 0 <= k < |rows| ==> rows[k].VisitGap?
  }

  predicate RowsSorted(rows: seq<VisitGap>)
    requires AllGaps(rows)
  {
    forall i, j :: 0 <= i < j < |rows| ==> RowLeq(rows[i], rows[j])
  }

  /** The order of rows whose (subject, visit) pairs differ. */
  predicate RowLess(a: VisitGap, b: VisitGap)
    requires a.VisitGap? && b.VisitGap?
  {
    Less(a.subject, b.subject) || (a.subject == b.subject && Less(a.visit, b.visit))
  }

  predicate RowsStrict(rows: seq<VisitGap>)
    requires AllGaps(rows)
  {
    forall i, j :: 0 <= i < j < |rows| ==> RowLess(rows[i], rows[j])
  }

  /** No two rows name the same (subject, visit) pair. */
  predicate KeysDistinct(rows: seq<VisitGap>)
  {
    forall i, j :: 0 <= i < j < |rows| && rows[i].VisitGap? && rows[j].VisitGap? ==>
      !(rows[i].subject == rows[j].subject && rows[i].visit == rows[j].visit)
  }

  /** No row of `rows` names the pair of `x`. */
  predicate KeyFree(x: VisitGap, rows: seq<VisitGap>)
    requires x.VisitGap?
  {
    forall g :: g in rows && g.VisitGap? ==> !(g.subject == x.subject && g.visit == x.visit)
  }

  lemma AppendDistinct(a: seq<VisitGap>, b: seq<VisitGap>)
    requires KeysDistinct(a) && KeysDistinct(b)
    requires forall x :: x in a && x.VisitGap? ==> KeyFree(x, b)
    ensures KeysDistinct(a + b)
  {
    var c := a + b;
    forall i, j | 0 <= i < j < |c| && c[i].VisitGap? && c[j].VisitGap?
      ensures !(c[i].subject == c[j].subject && c[i].visit == c[j].visit)
    {
      if j < |a| {
        assert c[i] == a[i] && c[j] == a[j];
      } else if i >= |a| {
        assert c[i] == b[i - |a|] && c[j] == b[j - |a|];
      } else {
        assert c[i] in a && c[j] == b[j - |a|] && c[j] in b;
      }
    }
  }

  lemma RowLeqTotal(a: VisitGap, b: VisitGap)
    requires a.VisitGap? && b.VisitGap?
    ensures RowLeq(a, b) || RowLeq(b, a)
  {
    LessTotal(a.subject, b.subject);
    LessTotal(a.visit, b.visit);
  }

  lemma RowLeqTransitive(a: VisitGap, b: VisitGap, c: VisitGap)
    requires a.VisitGap? && b.VisitGap? && c.VisitGap?
    requires RowLeq(a, b) && RowLeq(b, c)
    ensures RowLeq(a, c)
  {
    if Less(a.subject, b.subject) && Less(b.subject, c.subject) {
      LessTransitive(a.subject, b.subject, c.subject);
    } else if a.subject == b.subject && b.subject == c.subject && a.visit != b.visit && b.visit != c.visit {
      LessTransitive(a.visit, b.visit, c.visit);
    }
  }

  /** Placing one row before the first row it does not follow. */
  function InsertRow(x: VisitGap, rows: seq<VisitGap>): (r: seq<VisitGap>)
    requires x.VisitGap? && AllGaps(rows)
    ensures AllGaps(r)
    ensures multiset(r) == multiset(rows) + multiset{x}
  {
    if rows == [] then [x]
    else if RowLeq(x, rows[0]) then [x] + rows
    else
      assert rows == [rows[0]] + rows[1..];
      [rows[0]] + InsertRow(x, rows[1..])
  }

  /** Inserting into sorted rows keeps them sorted. */
  lemma {:induction false} InsertRowSorted(x: VisitGap, rows: seq<VisitGap>)
    requires x.VisitGap? && AllGaps(rows) && RowsSorted(rows)
    ensures RowsSorted(InsertRow(x, rows))
  {
    if rows != [] {
      if RowLeq(x, rows[0]) {
        forall j | 0 < j < |rows| ensures RowLeq(x, rows[j]) {
          RowLeqTransitive(x, rows[0], rows[j]);
        }
      } else {
        RowLeqTotal(x, rows[0]);
        InsertRowSorted(x, rows[1..]);
        var tail := InsertRow(x, rows[1..]);
        forall y | y in tail ensures RowLeq(rows[0], y) {
          assert y in multiset(tail);
          if y != x {
            var j :| 0 <= j < |rows[1..]| && rows[1..][j] == y;
            assert rows[j + 1] == y;
          }
        }
        assert InsertRow(x, rows) == [rows[0]] + tail;
      }
    }
  }

  /** The final sort: an insertion sort. The (subject, visit) pairs of the
      rows are distinct, so the order is the same whichever sorting
      algorithm produces it. */
  function SortRows(rows: seq<VisitGap>): (r: seq<VisitGap>)
    requires AllGaps(rows)
    ensures AllGaps(r)
    ensures multiset(r) == multiset(rows)
  {
    if rows == [] then []
    else
      assert rows == rows[..|rows| - 1] + [rows[|rows| - 1]];
      InsertRow(rows[|rows| - 1], SortRows(rows[..|rows| - 1]))
  }

  lemma {:induction false} SortRowsSorted(rows: seq<VisitGap>)
    requires AllGaps(rows)
    ensures RowsSorted(SortRows(rows))
  {
    if rows != [] {
      SortRowsSorted(rows[..|rows| - 1]);
      InsertRowSorted(rows[|rows| - 1], SortRows(rows[..|rows| - 1]));
    }
  }

  /** Inserting a row whose pair is new keeps the pairs distinct. */
  lemma {:induction false} InsertRowDistinct(x: VisitGap, rows: seq<VisitGap>)
    requires x.VisitGap? && AllGaps(rows) && KeysDistinct(rows) && KeyFree(x, rows)
    ensures KeysDistinct(InsertRow(x, rows))
  {
    if rows == [] || RowLeq(x, rows[0]) {
      AppendDistinct([x], rows);
    } else {
      var tail := InsertRow(x, rows[1..]);
      assert KeysDistinct(rows[1..]) by {
        forall i, j | 0 <= i < j < |rows[1..]| ensures rows[1..][i] == rows[i + 1] && rows[1..][j] == rows[j + 1] { }
      }
      InsertRowDistinct(x, rows[1..]);
      forall y | y in tail && y.VisitGap?
        ensures !(y.subject == rows[0].subject && y.visit == rows[0].visit)
      {
        assert y in multiset(tail);
        if y != x {
          var j :| 0 <= j < |rows[1..]| && rows[1..][j] == y;
          assert rows[j + 1] == y;
        }
      }
      AppendDistinct([rows[0]], tail);
      assert InsertRow(x, rows) == [rows[0]] + tail;
    }
  }

  /** Sorting keeps the pairs distinct. */
  lemma {:induction false} SortRowsDistinct(rows: seq<VisitGap>)
    requires AllGaps(rows) && KeysDistinct(rows)
    ensures KeysDistinct(SortRows(rows))
  {
    if rows != [] {
      var front := rows[..|rows| - 1];
      var last := rows[|rows| - 1];
      SortRowsDistinct(front);
      var sorted := SortRows(front);
      forall g | g in sorted && g.VisitGap? ensures !(g.subject == last.subject && g.visit == last.visit) {
        assert g in multiset(sorted);
        var i :| 0 <= i < |front| && front[i] == g;
        assert rows[i] == g;
      }
      InsertRowDistinct(last, sorted);
    }
  }

  /** Sorted rows with distinct pairs are in strict order. */
  lemma StrictFromSorted(rows: seq<VisitGap>)
    requires AllGaps(rows) && RowsSorted(rows) && KeysDistinct(rows)
    ensures RowsStrict(rows)
  {
  }

  /** The rows of one inner loop over strictly sorted visits name distinct
      pairs, all of patient `p`. */
  lemma VisitGapRowsDistinct(side: seq<Record>, p: string, vs: seq<string>, t: GapType)
    requires StrictlySorted(vs)
    ensures KeysDistinct(VisitGapRows(side, p, vs, t))
  {
    var rows := VisitGapRows(side, p, vs, t);
    VisitGapRowsSpec(side, p, vs, t);
    forall i, j | 0 <= i < j < |rows| ensures rows[i].visit != rows[j].visit {
      LessIrreflexive(vs[i]);
    }
  }

  /** The rows of one inner loop are gap rows of `p`, for visits of `vs`. */
  lemma VisitGapRowsOf(side: seq<Record>, p: string, vs: seq<string>, t: GapType)
    ensures forall g :: g in VisitGapRows(side, p, vs, t) ==> g.VisitGap? && g.subject == p && g.visit in vs
  {
    VisitGapRowsSpec(side, p, vs, t);
  }

  /** Rows over disjoint visit lists name different pairs. */
  lemma RowsApart(sideA: seq<Record>, sideB: seq<Record>, p: string, e: seq<string>, o: seq<string>, t: GapType, u: GapType)
    requires forall v :: v in e ==> v !in o
    ensures forall x :: x in VisitGapRows(sideA, p, e, t) && x.VisitGap? ==> KeyFree(x, VisitGapRows(sideB, p, o, u))
  {
    VisitGapRowsOf(sideA, p, e, t);
    VisitGapRowsOf(sideB, p, o, u);
  }

  /** One patient's rows name distinct pairs, all of that patient. */
  lemma PatientGapsDistinct(meta: seq<Record>, lab: seq<Record>, q: string)
    ensures KeysDistinct(PatientVisitGaps(meta, lab, q))
    ensures forall g :: g in PatientVisitGaps(meta, lab, q) ==> g.VisitGap? && g.subject == q
  {
    var e := VisitsMissing(meta, lab, q);
    var o := VisitsMissing(lab, meta, q);
    VisitsMissingSpec(meta, lab, q);
    VisitsMissingSpec(lab, meta, q);
    RowsApart(meta, lab, q, e, o, InEdcNotLab, InLabNotEdc);
    VisitGapRowsDistinct(meta, q, e, InEdcNotLab);
    VisitGapRowsDistinct(lab, q, o, InLabNotEdc);
    VisitGapRowsOf(meta, q, e, InEdcNotLab);
    VisitGapRowsOf(lab, q, o, InLabNotEdc);
    AppendDistinct(VisitGapRows(meta, q, e, InEdcNotLab), VisitGapRows(lab, q, o, InLabNotEdc));
  }

  /** Over strictly sorted patients the rows name distinct pairs. */
  lemma {:induction false} VisitGapsOfDistinct(meta: seq<Record>, lab: seq<Record>, ps: seq<string>)
    requires StrictlySorted(ps)
    ensures KeysDistinct(VisitGapsOf(meta, lab, ps))
  {
    if ps != [] {
      var front := ps[..|ps| - 1];
      var q := ps[|ps| - 1];
      var rows := VisitGapsOf(meta, lab, front);
      VisitGapsOfDistinct(meta, lab, front);
      PatientGapsDistinct(meta, lab, q);
      forall x | x in rows && x.VisitGap? ensures KeyFree(x, PatientVisitGaps(meta, lab, q)) {
        VisitGapsOfHas(meta, lab, front, x.subject, x.visit);
        assert HasVisitGap(rows, x.subject, x.visit, x.gapType);
        var i :| 0 <= i < |front| && front[i] == x.subject;
        LessIrreflexive(q);
      }
      AppendDistinct(rows, PatientVisitGaps(meta, lab, q));
    }
  }

  lemma {:induction false} VisitGapsOfAllGaps(meta: seq<Record>, lab: seq<Record>, ps: seq<string>)
    ensures AllGaps(VisitGapsOf(meta, lab, ps))
  {
    if ps != [] {
      var p := ps[|ps| - 1];
      VisitGapsOfAllGaps(meta, lab, ps[..|ps| - 1]);
      VisitGapRowsSpec(meta, p, VisitsMissing(meta, lab, p), InEdcNotLab);
      VisitGapRowsSpec(lab, p, VisitsMissing(lab, meta, p), InLabNotEdc);
    }
  }

  /** The tab `create_visit_gaps_tab` returns. */
  function VisitGapsTab(meta: seq<Record>, lab: seq<Record>): seq<VisitGap>
  {
    var rows := VisitGapsOf(meta, lab, InBoth(meta, lab));
    VisitGapsOfAllGaps(meta, lab, InBoth(meta, lab));
    if rows == [] then [NoVisitGaps] else if |rows| > 1 then SortRows(rows) else rows
  }

  /** The loops of `create_visit_gaps_tab`. */
  method BuildVisitGapsTab(meta: seq<Record>, lab: seq<Record>) returns (rows: seq<VisitGap>)
    ensures rows == VisitGapsTab(meta, lab)
  {
    var both := InBoth(meta, lab);
    rows := [];
    for i := 0 to |both|
      invariant rows == VisitGapsOf(meta, lab, both[..i])
    {
      assert VisitGapsOf(meta, lab, both[..i + 1])
          == VisitGapsOf(meta, lab, both[..i]) + PatientVisitGaps(meta, lab, both[i]) by {
        assert both[..i + 1][..i] == both[..i];
      }
      rows := AddPatientGaps(meta, lab, both[i], rows);
    }
    assert rows == VisitGapsOf(meta, lab, InBoth(meta, lab)) by {
      assert both[..|both|] == both;
    }
    VisitGapsOfAllGaps(meta, lab, both);
    if rows == [] {
      rows := [NoVisitGaps];
    } else if |rows| > 1 {
      rows := SortRows(rows);
    }
  }

  /** The body of the outer loop: one patient's two inner loops. */
  method AddPatientGaps(meta: seq<Record>, lab: seq<Record>, p: string, rows0: seq<VisitGap>)
    returns (rows: seq<VisitGap>)
    ensures rows == rows0 + PatientVisitGaps(meta, lab, p)
  {
    var edcOnly := VisitsMissing(meta, lab, p);
    var labOnly := VisitsMissing(lab, meta, p);
    ghost var a := VisitGapRows(meta, p, edcOnly, InEdcNotLab);
    ghost var b := VisitGapRows(lab, p, labOnly, InLabNotEdc);
    var mid := AddVisitGaps(meta, edcOnly, p, InEdcNotLab, rows0);
    rows := AddVisitGaps(lab, labOnly, p, InLabNotEdc, mid);
    Seqs.Assoc3(rows0, a, b);
  }

  /** One inner loop: a row for each visit of `vs`, appended in order. */
  method AddVisitGaps(side: seq<Record>, vs: seq<string>, p: string, t: GapType, rows0: seq<VisitGap>)
    returns (rows: seq<VisitGap>)
    ensures rows == rows0 + VisitGapRows(side, p, vs, t)
  {
    rows := rows0;
    for i := 0 to |vs|
      invariant rows == rows0 + VisitGapRows(side, p, vs[..i], t)
    {
      assert vs[..i + 1][..i] == vs[..i];
      rows := rows + [VisitGapRow(side, p, vs[i], t)];
    }
    assert vs[..|vs|] == vs;
  }

  /** A row is present for a patient's visit of one gap type exactly when
      the patient is in both systems and the visit is in the one and not
      in the other. */
  predicate HasVisitGap(rows: seq<VisitGap>, p: string, v: string, t: GapType)
  {
    exists g :: g in rows && g.VisitGap? && g.subject == p && g.visit == v && g.gapType == t
  }

  lemma HasVisitGapAppend(a: seq<VisitGap>, b: seq<VisitGap>, p: string, v: string, t: GapType)
    ensures HasVisitGap(a + b, p, v, t) <==> HasVisitGap(a, p, v, t) || HasVisitGap(b, p, v, t)
  {
    if HasVisitGap(a + b, p, v, t) {
      var g: VisitGap :| g in a + b && g.VisitGap? && g.subject == p && g.visit == v && g.gapType == t;
      assert g in a || g in b;
    }
    if HasVisitGap(a, p, v, t) {
      var g: VisitGap :| g in a && g.VisitGap? && g.subject == p && g.visit == v && g.gapType == t;
      assert g in a + b;
    }
    if HasVisitGap(b, p, v, t) {
      var g: VisitGap :| g in b && g.VisitGap? && g.subject == p && g.visit == v && g.gapType == t;
      assert g in a + b;
    }
  }

  /** The rows of one inner loop are those of its patient, its gap type
      and its visits. */
  lemma VisitGapRowsHas(side: seq<Record>, q: string, vs: seq<string>, t: GapType, p: string, v: string, u: GapType)
    ensures HasVisitGap(VisitGapRows(side, q, vs, t), p, v, u) <==> p == q && u == t && v in vs
  {
    var rows := VisitGapRows(side, q, vs, t);
    VisitGapRowsSpec(side, q, vs, t);
    if HasVisitGap(rows, p, v, u) {
      var g: VisitGap :| g in rows && g.VisitGap? && g.subject == p && g.visit == v && g.gapType == u;
      var k :| 0 <= k < |rows| && rows[k] == g;
      assert vs[k] == v;
    }
    if p == q && u == t && v in vs {
      var k :| 0 <= k < |vs| && vs[k] == v;
      assert rows[k] in rows;
    }
  }

  /** One patient's rows: its visits that one system has and the other
      lacks. */
  lemma PatientVisitGapsHas(meta: seq<Record>, lab: seq<Record>, q: string, p: string, v: string)
    ensures HasVisitGap(PatientVisitGaps(meta, lab, q), p, v, InEdcNotLab) <==>
      p == q && v in VisitSet(RowsOf(meta, p)) && v !in VisitSet(RowsOf(lab, p))
    ensures HasVisitGap(PatientVisitGaps(meta, lab, q), p, v, InLabNotEdc) <==>
      p == q && v in VisitSet(RowsOf(lab, p)) && v !in VisitSet(RowsOf(meta, p))
  {
    var e := VisitsMissing(meta, lab, q);
    var o := VisitsMissing(lab, meta, q);
    VisitsMissingSpec(meta, lab, q);
    VisitsMissingSpec(lab, meta, q);
    var a := VisitGapRows(meta, q, e, InEdcNotLab);
    var b := VisitGapRows(lab, q, o, InLabNotEdc);
    HasVisitGapAppend(a, b, p, v, InEdcNotLab);
    HasVisitGapAppend(a, b, p, v, InLabNotEdc);
    VisitGapRowsHas(meta, q, e, InEdcNotLab, p, v, InEdcNotLab);
    VisitGapRowsHas(meta, q, e, InEdcNotLab, p, v, InLabNotEdc);
    VisitGapRowsHas(lab, q, o, InLabNotEdc, p, v, InEdcNotLab);
    VisitGapRowsHas(lab, q, o, InLabNotEdc, p, v, InLabNotEdc);
  }

  /** What `side` has and `other` lacks for a patient of `ps`. */
  lemma {:induction false} VisitGapsOfHas(meta: seq<Record>, lab: seq<Record>, ps: seq<string>, p: string, v: string)
    ensures HasVisitGap(VisitGapsOf(meta, lab, ps), p, v, InEdcNotLab) <==>
      p in ps && v in VisitSet(RowsOf(meta, p)) && v !in VisitSet(RowsOf(lab, p))
    ensures HasVisitGap(VisitGapsOf(meta, lab, ps), p, v, InLabNotEdc) <==>
      p in ps && v in VisitSet(RowsOf(lab, p)) && v !in VisitSet(RowsOf(meta, p))
  {
    if ps != [] {
      var q := ps[|ps| - 1];
      var front := ps[..|ps| - 1];
      VisitGapsOfHas(meta, lab, front, p, v);
      assert ps == front + [q];
      PatientVisitGapsHas(meta, lab, q, p, v);
      HasVisitGapAppend(VisitGapsOf(meta, lab, front), PatientVisitGaps(meta, lab, q), p, v, InEdcNotLab);
      HasVisitGapAppend(VisitGapsOf(meta, lab, front), PatientVisitGaps(meta, lab, q), p, v, InLabNotEdc);
    }
  }

  /** The visit gaps tab lists, each once and in (subject, visit) order,
      the visits a patient present in both systems has in one and lacks in
      the other; it holds the placeholder row alone when there is none. */
  lemma VisitGapsSpec(meta: seq<Record>, lab: seq<Record>, p: string, v: string)
    ensures var tab := VisitGapsTab(meta, lab);
      (HasVisitGap(tab, p, v, InEdcNotLab) <==>
        p in PatientSet(meta) && p in PatientSet(lab)
        && v in VisitSet(RowsOf(meta, p)) && v !in VisitSet(RowsOf(lab, p)))
      && (HasVisitGap(tab, p, v, InLabNotEdc) <==>
        p in PatientSet(meta) && p in PatientSet(lab)
        && v in VisitSet(RowsOf(lab, p)) && v !in VisitSet(RowsOf(meta, p)))
      && (tab == [NoVisitGaps] <==>
        forall q, w :: q in PatientSet(meta) && q in PatientSet(lab) ==>
          (w in VisitSet(RowsOf(meta, q)) <==> w in VisitSet(RowsOf(lab, q))))
      && (tab == [NoVisitGaps] || (AllGaps(tab) && RowsStrict(tab)))
  {
    VisitGapsNone(meta, lab);
    VisitGapsOrdered(meta, lab);
    var both := InBoth(meta, lab);
    assert forall q :: q in both <==> q in PatientSet(meta) && q in PatientSet(lab);
    VisitGapsOfHas(meta, lab, both, p, v);
    var rows := VisitGapsOf(meta, lab, both);
    VisitGapsOfAllGaps(meta, lab, both);
    if |rows| > 1 {
      var sorted := SortRows(rows);
      SortRowsSorted(rows);
      forall g ensures g in sorted <==> g in rows {
        assert g in sorted <==> g in multiset(sorted);
      }
    }
  }

  /** The placeholder row stands alone exactly when no patient in both
      systems has a visit in one and not in the other. */
  lemma VisitGapsNone(meta: seq<Record>, lab: seq<Record>)
    ensures VisitGapsTab(meta, lab) == [NoVisitGaps] <==>
      forall q, w :: q in PatientSet(meta) && q in PatientSet(lab) ==>
        (w in VisitSet(RowsOf(meta, q)) <==> w in VisitSet(RowsOf(lab, q)))
  {
    var both := InBoth(meta, lab);
    assert forall q :: q in both <==> q in PatientSet(meta) && q in PatientSet(lab);
    var rows := VisitGapsOf(meta, lab, both);
    VisitGapsOfAllGaps(meta, lab, both);
    if rows == [] {
      forall q, w | q in PatientSet(meta) && q in PatientSet(lab)
        ensures w in VisitSet(RowsOf(meta, q)) <==> w in VisitSet(RowsOf(lab, q))
      {
        VisitGapsOfHas(meta, lab, both, q, w);
      }
    } else {
      var g := rows[0];
      VisitGapsOfHas(meta, lab, both, g.subject, g.visit);
      assert HasVisitGap(rows, g.subject, g.visit, g.gapType);
      var tab := VisitGapsTab(meta, lab);
      assert AllGaps(tab);
      assert NoVisitGaps !in tab;
    }
  }

  /** Gap rows come in strict (subject, visit) order, so no pair twice. */
  lemma VisitGapsOrdered(meta: seq<Record>, lab: seq<Record>)
    ensures var tab := VisitGapsTab(meta, lab);
      tab == [NoVisitGaps] || (AllGaps(tab) && RowsStrict(tab))
  {
    var both := InBoth(meta, lab);
    var rows := VisitGapsOf(meta, lab, both);
    VisitGapsOfAllGaps(meta, lab, both);
    VisitGapsOfDistinct(meta, lab, both);
    if |rows| > 1 {
      SortRowsSorted(rows);
      SortRowsDistinct(rows);
      StrictFromSorted(SortRows(rows));
    }
  }
}

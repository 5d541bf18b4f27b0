/**
 * The date constraints of the `validate` feature. Every date field of a record
 * carries the date pattern; an absent date passes, a present one must match.
 * A record's violations name each failing date by its wire key, with the value
 * that failed; every failing date is reported, not just the first.
 */
module Validation {
  import opened Wrappers
  import opened Json
  import opened Schema
  import opened DatePattern

  /** One failing date: where it is, as a path of keys and indices, and its value. */
  datatype Violation = Violation(path: seq<PathSeg>, value: string)

  /** An optional date satisfies the constraint when it is absent or matches. */
  predicate DateOk(d: Option<string>) {
    d.None? || MatchesDatePattern(d.value)
  }

  /** A date field of a record: its wire key and its value. */
  type DateField = (string, Option<string>)

  /** The violations among `fields`, in field order. */
  function Violations(fields: seq<DateField>): (r: seq<Violation>)
    ensures |r| <= |fields|
    ensures r == [] <==> forall f :: f in fields ==> DateOk(f.1)
    ensures forall v :: v in r ==>
      !MatchesDatePattern(v.value) && |v.path| == 1 && v.path[0].Key? &&
      (v.path[0].name, Some(v.value)) in fields
    ensures forall f :: f in fields && !DateOk(f.1) ==> Violation([Key(f.0)], f.1.value) in r
  {
    if fields == [] then []
    else
      var (key, d) := fields[0];
      var here := if DateOk(d) then [] else [Violation([Key(key)], d.value)];
      assert forall f :: f in fields ==> f == fields[0] || f in fields[1..];
      here + Violations(fields[1..])
  }

  // ---------------------------------------------------------------------------
  // Records with date fields

  function WorkViolations(w: Work): (r: seq<Violation>)
    ensures r == [] <==> DateOk(w.startDate) && DateOk(w.endDate)
    ensures forall v :: v in r ==> (!MatchesDatePattern(v.value) &&
      ((v.path == [Key("startDate")] && w.startDate == Some(v.value)) ||
       (v.path == [Key("endDate")] && w.endDate == Some(v.value))))
    ensures !DateOk(w.startDate) ==> Violation([Key("startDate")], w.startDate.value) in r
    ensures !DateOk(w.endDate) ==> Violation([Key("endDate")], w.endDate.value) in r
  {
    Violations([("startDate", w.startDate), ("endDate", w.endDate)])
  }

  function PositionViolations(p: Position): (r: seq<Violation>)
    ensures r == [] <==> DateOk(p.startDate) && DateOk(p.endDate)
    ensures forall v :: v in r ==> (!MatchesDatePattern(v.value) &&
      ((v.path == [Key("startDate")] && p.startDate == Some(v.value)) ||
       (v.path == [Key("endDate")] && p.endDate == Some(v.value))))
    ensures !DateOk(p.startDate) ==> Violation([Key("startDate")], p.startDate.value) in r
    ensures !DateOk(p.endDate) ==> Violation([Key("endDate")], p.endDate.value) in r
  {
    Violations([("startDate", p.startDate), ("endDate", p.endDate)])
  }

  function VolunteerViolations(v: Volunteer): (r: seq<Violation>)
    ensures r == [] <==> DateOk(v.startDate) && DateOk(v.endDate)
    ensures forall x :: x in r ==> (!MatchesDatePattern(x.value) &&
      ((x.path == [Key("startDate")] && v.startDate == Some(x.value)) ||
       (x.path == [Key("endDate")] && v.endDate == Some(x.value))))
    ensures !DateOk(v.startDate) ==> Violation([Key("startDate")], v.startDate.value) in r
    ensures !DateOk(v.endDate) ==> Violation([Key("endDate")], v.endDate.value) in r
  {
    Violations([("startDate", v.startDate), ("endDate", v.endDate)])
  }

  function EducationViolations(d: Education): (r: seq<Violation>)
    ensures r == [] <==> DateOk(d.startDate) && DateOk(d.endDate)
    ensures forall v :: v in r ==> (!MatchesDatePattern(v.value) &&
      ((v.path == [Key("startDate")] && d.startDate == Some(v.value)) ||
       (v.path == [Key("endDate")] && d.endDate == Some(v.value))))
    ensures !DateOk(d.startDate) ==> Violation([Key("startDate")], d.startDate.value) in r
    ensures !DateOk(d.endDate) ==> Violation([Key("endDate")], d.endDate.value) in r
  {
    Violations([("startDate", d.startDate), ("endDate", d.endDate)])
  }

  function ProjectViolations(p: Project): (r: seq<Violation>)
    ensures r == [] <==> DateOk(p.startDate) && DateOk(p.endDate)
    ensures forall v :: v in r ==> (!MatchesDatePattern(v.value) &&
      ((v.path == [Key("startDate")] && p.startDate == Some(v.value)) ||
       (v.path == [Key("endDate")] && p.endDate == Some(v.value))))
    ensures !DateOk(p.startDate) ==> Violation([Key("startDate")], p.startDate.value) in r
    ensures !DateOk(p.endDate) ==> Violation([Key("endDate")], p.endDate.value) in r
  {
    Violations([("startDate", p.startDate), ("endDate", p.endDate)])
  }

  function AwardViolations(a: Award): (r: seq<Violation>)
    ensures r == [] <==> DateOk(a.date)
    ensures forall v :: v in r ==> !MatchesDatePattern(v.value) && v.path == [Key("date")] && a.date == Some(v.value)
    ensures !DateOk(a.date) ==> r == [Violation([Key("date")], a.date.value)]
  {
    Violations([("date", a.date)])
  }

  function CertificateViolations(c: Certificate): (r: seq<Violation>)
    ensures r == [] <==> DateOk(c.date)
    ensures forall v :: v in r ==> !MatchesDatePattern(v.value) && v.path == [Key("date")] && c.date == Some(v.value)
    ensures !DateOk(c.date) ==> r == [Violation([Key("date")], c.date.value)]
  {
    Violations([("date", c.date)])
  }

  function PublicationViolations(p: Publication): (r: seq<Violation>)
    ensures r == [] <==> DateOk(p.releaseDate)
    ensures forall v :: v in r ==> !MatchesDatePattern(v.value) && v.path == [Key("releaseDate")] && p.releaseDate == Some(v.value)
    ensures !DateOk(p.releaseDate) ==> r == [Violation([Key("releaseDate")], p.releaseDate.value)]
  {
    Violations([("releaseDate", p.releaseDate)])
  }

  /** Both dates of a record fail: both are reported, in field order. */
  lemma BothDatesReported(w: Work, a: string, b: string)
    requires !MatchesDatePattern(a) && !MatchesDatePattern(b)
    ensures WorkViolations(w.(startDate := Some(a), endDate := Some(b))) ==
      [Violation([Key("startDate")], a), Violation([Key("endDate")], b)]
  {
  }

  // ---------------------------------------------------------------------------
  // The whole résumé. How far the derived validator descends into nested
  // records is decided by the validation library; this walk, which visits every
  // dated record of the tree, is a modelling choice.

  /** Every reported value really fails the pattern. */
  predicate AllFail(vs: seq<Violation>) {
    forall v :: v in vs ==> !MatchesDatePattern(v.value)
  }

  /** `vs` with `prefix` put in front of every path. */
  function Under(prefix: seq<PathSeg>, vs: seq<Violation>): seq<Violation> {
    seq(|vs|, i requires 0 <= i < |vs| => Violation(prefix + vs[i].path, vs[i].value))
  }

  lemma UnderAllFail(prefix: seq<PathSeg>, vs: seq<Violation>)
    requires AllFail(vs)
    ensures AllFail(Under(prefix, vs))
  {
    var r := Under(prefix, vs);
    forall v | v in r
      ensures !MatchesDatePattern(v.value)
    {
      var i :| 0 <= i < |r| && r[i] == v;
      assert vs[i] in vs;
    }
  }

  /** The violations of every element of `xs`, each under its index; `start` is the index of `xs[0]`. */
  function Each<T>(xs: seq<T>, check: T -> seq<Violation>, start: nat): (r: seq<Violation>)
    ensures r == [] <==> forall x :: x in xs ==> check(x) == []
    decreases |xs|
  {
    if xs == [] then []
    else
      assert forall x :: x in xs ==> x == xs[0] || x in xs[1..];
      Under([Index(start)], check(xs[0])) + Each(xs[1..], check, start + 1)
  }

  /** Collecting keeps every reported value a failing one. */
  lemma {:induction false} EachAllFail<T>(xs: seq<T>, check: T -> seq<Violation>, start: nat)
    requires forall x :: x in xs ==> AllFail(check(x))
    ensures AllFail(Each(xs, check, start))
    decreases |xs|
  {
    if xs != [] {
      assert xs[0] in xs;
      UnderAllFail([Index(start)], check(xs[0]));
      assert forall x :: x in xs[1..] ==> x in xs;
      EachAllFail(xs[1..], check, start + 1);
    }
  }

  predicate PositionValid(p: Position) {
    DateOk(p.startDate) && DateOk(p.endDate)
  }

  /** A work entry and all of its positions satisfy their date constraints. */
  predicate WorkTreeValid(w: Work) {
    DateOk(w.startDate) && DateOk(w.endDate) && forall p :: p in w.positions ==> PositionValid(p)
  }

  /** A work entry's own dates, then those of its positions. */
  function WorkTreeViolations(w: Work): (r: seq<Violation>)
    ensures r == [] <==> WorkTreeValid(w)
    ensures AllFail(r)
  {
    EachAllFail(w.positions, PositionViolations, 0);
    UnderAllFail([Key("positions")], Each(w.positions, PositionViolations, 0));
    WorkViolations(w) + Under([Key("positions")], Each(w.positions, PositionViolations, 0))
  }

  /** One section of the résumé: the violations of its elements under `key` and their index. */
  function Section<T>(key: string, xs: seq<T>, check: T -> seq<Violation>): (r: seq<Violation>)
    ensures r == [] <==> forall x :: x in xs ==> check(x) == []
  {
    Under([Key(key)], Each(xs, check, 0))
  }

  lemma SectionAllFail<T>(key: string, xs: seq<T>, check: T -> seq<Violation>)
    requires forall x :: x in xs ==> AllFail(check(x))
    ensures AllFail(Section(key, xs, check))
  {
    EachAllFail(xs, check, 0);
    UnderAllFail([Key(key)], Each(xs, check, 0));
  }

  /** Every dated record of the résumé satisfies its date constraints. */
  predicate TreeValid(r: Resume) {
    (forall w :: w in r.work ==> WorkTreeValid(w)) &&
    (forall v :: v in r.volunteer ==> DateOk(v.startDate) && DateOk(v.endDate)) &&
    (forall d :: d in r.education ==> DateOk(d.startDate) && DateOk(d.endDate)) &&
    (forall a :: a in r.awards ==> DateOk(a.date)) &&
    (forall c :: c in r.certificates ==> DateOk(c.date)) &&
    (forall p :: p in r.publications ==> DateOk(p.releaseDate)) &&
    (forall p :: p in r.projects ==> DateOk(p.startDate) && DateOk(p.endDate)) &&
    (forall p :: p in r.sideProjects ==> DateOk(p.startDate) && DateOk(p.endDate))
  }

  /** All violations of the résumé, section by section, each under its path. */
  function ResumeViolations(r: Resume): (vs: seq<Violation>)
    ensures AllFail(vs)
  {
    SectionAllFail("work", r.work, WorkTreeViolations);
    SectionAllFail("volunteer", r.volunteer, VolunteerViolations);
    SectionAllFail("education", r.education, EducationViolations);
    SectionAllFail("awards", r.awards, AwardViolations);
    SectionAllFail("certificates", r.certificates, CertificateViolations);
    SectionAllFail("publications", r.publications, PublicationViolations);
    SectionAllFail("projects", r.projects, ProjectViolations);
    SectionAllFail("sideProjects", r.sideProjects, ProjectViolations);
    Section("work", r.work, WorkTreeViolations) +
    Section("volunteer", r.volunteer, VolunteerViolations) +
    Section("education", r.education, EducationViolations) +
    Section("awards", r.awards, AwardViolations) +
    Section("certificates", r.certificates, CertificateViolations) +
    Section("publications", r.publications, PublicationViolations) +
    Section("projects", r.projects, ProjectViolations) +
    Section("sideProjects", r.sideProjects, ProjectViolations)
  }

  /** The walk reports nothing exactly when every date in the tree is valid. */
  lemma ResumeViolationsIffValid(r: Resume)
    ensures ResumeViolations(r) == [] <==> TreeValid(r)
  {
  }

  /** A résumé with no dates at all has nothing to report. */
  lemma DefaultResumeValid()
    ensures ResumeViolations(DefaultResume) == []
  {
  }

  lemma UnderOne(prefix: seq<PathSeg>, v: Violation)
    ensures Under(prefix, [v]) == [Violation(prefix + v.path, v.value)]
  {
  }

  lemma EachOne<T>(x: T, check: T -> seq<Violation>, v: Violation)
    requires check(x) == [v]
    ensures Each([x], check, 0) == [Violation([Index(0)] + v.path, v.value)]
  {
    assert [x][1..] == [];
    UnderOne([Index(0)], v);
  }

  lemma WorkSectionExample()
    ensures Section("work", [DefaultWork.(startDate := Some("bad"))], WorkTreeViolations) ==
      [Violation([Key("work"), Index(0), Key("startDate")], "bad")]
  {
    var w := DefaultWork.(startDate := Some("bad"));
    var bad := Violation([Key("startDate")], "bad");
    assert WorkTreeViolations(w) == [bad] by {
      assert !MatchesDatePattern("bad");
      assert WorkViolations(w) == [bad];
      assert Each(w.positions, PositionViolations, 0) == [];
    }
    EachOne(w, WorkTreeViolations, bad);
    UnderOne([Key("work")], Violation([Index(0)] + bad.path, bad.value));
    assert [Key("work")] + ([Index(0)] + bad.path) == [Key("work"), Index(0), Key("startDate")];
  }

  lemma EducationSectionExample()
    ensures Section("education", [DefaultEducation.(endDate := Some("also-bad"))], EducationViolations) ==
      [Violation([Key("education"), Index(0), Key("endDate")], "also-bad")]
  {
    var d := DefaultEducation.(endDate := Some("also-bad"));
    var alsoBad := Violation([Key("endDate")], "also-bad");
    assert !MatchesDatePattern("also-bad");
    assert EducationViolations(d) == [alsoBad];
    EachOne(d, EducationViolations, alsoBad);
    UnderOne([Key("education")], Violation([Index(0)] + alsoBad.path, alsoBad.value));
    assert [Key("education")] + ([Index(0)] + alsoBad.path) == [Key("education"), Index(0), Key("endDate")];
  }

  /** Two bad dates in different sections give exactly two violations, with their paths. */
  lemma TwoViolationsReported()
    ensures ResumeViolations(DefaultResume.(
      work := [DefaultWork.(startDate := Some("bad"))],
      education := [DefaultEducation.(endDate := Some("also-bad"))])) ==
      [Violation([Key("work"), Index(0), Key("startDate")], "bad"),
       Violation([Key("education"), Index(0), Key("endDate")], "also-bad")]
  {
    WorkSectionExample();
    EducationSectionExample();
  }
}

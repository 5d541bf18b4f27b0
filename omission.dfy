/**
 * What each encoder writes, key by key, for every value of its record:
 * an `Option` field is left out exactly when it is `None`, a list
 * marked to skip when empty is left out exactly when it is empty, and
 * every other field is always written, `None` as `null`.
 */
module Omission {
  import opened Wrappers
  import opened Json
  import opened Schema
  import opened Codec

  lemma LocationWritesPart1(l: Location)
    ensures var written := Emitted(LocationEntries(l)); l.address.None? <==> "address" !in written
    ensures var written := Emitted(LocationEntries(l)); l.address.Some? ==> "address" in written && written["address"] == Str(l.address.value)
    ensures var written := Emitted(LocationEntries(l)); l.postalCode.None? <==> "postalCode" !in written
    ensures var written := Emitted(LocationEntries(l)); l.postalCode.Some? ==> "postalCode" in written && written["postalCode"] == Str(l.postalCode.value)
    ensures var written := Emitted(LocationEntries(l)); l.city.None? <==> "city" !in written
    ensures var written := Emitted(LocationEntries(l)); l.city.Some? ==> "city" in written && written["city"] == Str(l.city.value)
    ensures var written := Emitted(LocationEntries(l)); l.countryCode.None? <==> "countryCode" !in written
    ensures var written := Emitted(LocationEntries(l)); l.countryCode.Some? ==> "countryCode" in written && written["countryCode"] == Str(l.countryCode.value)
  {
    SkipNoneEntry(LocationEntries(l), "address", l.address);
    SkipNoneEntry(LocationEntries(l), "postalCode", l.postalCode);
    SkipNoneEntry(LocationEntries(l), "city", l.city);
    SkipNoneEntry(LocationEntries(l), "countryCode", l.countryCode);
  }

  lemma LocationWritesPart2(l: Location)
    ensures var written := Emitted(LocationEntries(l)); l.region.None? <==> "region" !in written
    ensures var written := Emitted(LocationEntries(l)); l.region.Some? ==> "region" in written && written["region"] == Str(l.region.value)
  {
    SkipNoneEntry(LocationEntries(l), "region", l.region);
  }

  /** Which keys `EncodeLocation` writes, and their values, for every `Location`. */
  lemma LocationWrites(l: Location)
    ensures var written := EncodeLocation(l).fields; l.address.None? <==> "address" !in written
    ensures var written := EncodeLocation(l).fields; l.address.Some? ==> "address" in written && written["address"] == Str(l.address.value)
    ensures var written := EncodeLocation(l).fields; l.postalCode.None? <==> "postalCode" !in written
    ensures var written := EncodeLocation(l).fields; l.postalCode.Some? ==> "postalCode" in written && written["postalCode"] == Str(l.postalCode.value)
    ensures var written := EncodeLocation(l).fields; l.city.None? <==> "city" !in written
    ensures var written := EncodeLocation(l).fields; l.city.Some? ==> "city" in written && written["city"] == Str(l.city.value)
    ensures var written := EncodeLocation(l).fields; l.countryCode.None? <==> "countryCode" !in written
    ensures var written := EncodeLocation(l).fields; l.countryCode.Some? ==> "countryCode" in written && written["countryCode"] == Str(l.countryCode.value)
    ensures var written := EncodeLocation(l).fields; l.region.None? <==> "region" !in written
    ensures var written := EncodeLocation(l).fields; l.region.Some? ==> "region" in written && written["region"] == Str(l.region.value)
  {
    LocationWritesPart1(l);
    LocationWritesPart2(l);
  }

  lemma BasicsWritesPart1(b: Basics)
    ensures var written := Emitted(BasicsEntries(b)); b.name.None? <==> "name" !in written
    ensures var written := Emitted(BasicsEntries(b)); b.name.Some? ==> "name" in written && written["name"] == Str(b.name.value)
    ensures var written := Emitted(BasicsEntries(b)); b.labelText.None? <==> "label" !in written
    ensures var written := Emitted(BasicsEntries(b)); b.labelText.Some? ==> "label" in written && written["label"] == Str(b.labelText.value)
    ensures var written := Emitted(BasicsEntries(b)); b.image.None? <==> "image" !in written
    ensures var written := Emitted(BasicsEntries(b)); b.image.Some? ==> "image" in written && written["image"] == Str(b.image.value)
    ensures var written := Emitted(BasicsEntries(b)); b.email.None? <==> "email" !in written
    ensures var written := Emitted(BasicsEntries(b)); b.email.Some? ==> "email" in written && written["email"] == Str(b.email.value)
  {
    SkipNoneEntry(BasicsEntries(b), "name", b.name);
    SkipNoneEntry(BasicsEntries(b), "label", b.labelText);
    SkipNoneEntry(BasicsEntries(b), "image", b.image);
    SkipNoneEntry(BasicsEntries(b), "email", b.email);
  }

  lemma BasicsWritesPart2(b: Basics)
    ensures var written := Emitted(BasicsEntries(b)); b.phone.None? <==> "phone" !in written
    ensures var written := Emitted(BasicsEntries(b)); b.phone.Some? ==> "phone" in written && written["phone"] == Str(b.phone.value)
    ensures var written := Emitted(BasicsEntries(b)); b.url.None? <==> "url" !in written
    ensures var written := Emitted(BasicsEntries(b)); b.url.Some? ==> "url" in written && written["url"] == Str(b.url.value)
    ensures var written := Emitted(BasicsEntries(b)); b.summary.None? <==> "summary" !in written
    ensures var written := Emitted(BasicsEntries(b)); b.summary.Some? ==> "summary" in written && written["summary"] == Str(b.summary.value)
    ensures var written := Emitted(BasicsEntries(b)); "location" in written && written["location"] == EncodeLocation(b.location)
  {
    SkipNoneEntry(BasicsEntries(b), "phone", b.phone);
    SkipNoneEntry(BasicsEntries(b), "url", b.url);
    SkipNoneEntry(BasicsEntries(b), "summary", b.summary);
    EmittedEntry(BasicsEntries(b), "location");
  }

  lemma BasicsWritesPart3(b: Basics)
    ensures var written := Emitted(BasicsEntries(b)); b.profiles == [] <==> "profiles" !in written
    ensures var written := Emitted(BasicsEntries(b)); b.profiles != [] ==> "profiles" in written && written["profiles"] == EncodeSeq(b.profiles, EncodeProfile)
  {
    SkipEmptyEntry(BasicsEntries(b), "profiles", b.profiles, EncodeProfile);
  }

  /** Which keys `EncodeBasics` writes, and their values, for every `Basics`. */
  lemma BasicsWrites(b: Basics)
    ensures var written := EncodeBasics(b).fields; b.name.None? <==> "name" !in written
    ensures var written := EncodeBasics(b).fields; b.name.Some? ==> "name" in written && written["name"] == Str(b.name.value)
    ensures var written := EncodeBasics(b).fields; b.labelText.None? <==> "label" !in written
    ensures var written := EncodeBasics(b).fields; b.labelText.Some? ==> "label" in written && written["label"] == Str(b.labelText.value)
    ensures var written := EncodeBasics(b).fields; b.image.None? <==> "image" !in written
    ensures var written := EncodeBasics(b).fields; b.image.Some? ==> "image" in written && written["image"] == Str(b.image.value)
    ensures var written := EncodeBasics(b).fields; b.email.None? <==> "email" !in written
    ensures var written := EncodeBasics(b).fields; b.email.Some? ==> "email" in written && written["email"] == Str(b.email.value)
    ensures var written := EncodeBasics(b).fields; b.phone.None? <==> "phone" !in written
    ensures var written := EncodeBasics(b).fields; b.phone.Some? ==> "phone" in written && written["phone"] == Str(b.phone.value)
    ensures var written := EncodeBasics(b).fields; b.url.None? <==> "url" !in written
    ensures var written := EncodeBasics(b).fields; b.url.Some? ==> "url" in written && written["url"] == Str(b.url.value)
    ensures var written := EncodeBasics(b).fields; b.summary.None? <==> "summary" !in written
    ensures var written := EncodeBasics(b).fields; b.summary.Some? ==> "summary" in written && written["summary"] == Str(b.summary.value)
    ensures var written := EncodeBasics(b).fields; "location" in written && written["location"] == EncodeLocation(b.location)
    ensures var written := EncodeBasics(b).fields; b.profiles == [] <==> "profiles" !in written
    ensures var written := EncodeBasics(b).fields; b.profiles != [] ==> "profiles" in written && written["profiles"] == EncodeSeq(b.profiles, EncodeProfile)
  {
    BasicsWritesPart1(b);
    BasicsWritesPart2(b);
    BasicsWritesPart3(b);
  }

  /** Which keys `EncodePosition` writes, and their values, for every `Position`. */
  lemma PositionWrites(p: Position)
    ensures var written := EncodePosition(p).fields; "title" in written && written["title"] == Str(p.title)
    ensures var written := EncodePosition(p).fields; p.startDate.None? <==> "startDate" !in written
    ensures var written := EncodePosition(p).fields; p.startDate.Some? ==> "startDate" in written && written["startDate"] == Str(p.startDate.value)
    ensures var written := EncodePosition(p).fields; p.endDate.None? <==> "endDate" !in written
    ensures var written := EncodePosition(p).fields; p.endDate.Some? ==> "endDate" in written && written["endDate"] == Str(p.endDate.value)
  {
    EmittedEntry(PositionEntries(p), "title");
    SkipNoneEntry(PositionEntries(p), "startDate", p.startDate);
    SkipNoneEntry(PositionEntries(p), "endDate", p.endDate);
  }

  lemma WorkWritesPart1(w: Work)
    ensures var written := Emitted(WorkEntries(w)); w.name.None? <==> "name" !in written
    ensures var written := Emitted(WorkEntries(w)); w.name.Some? ==> "name" in written && written["name"] == Str(w.name.value)
    ensures var written := Emitted(WorkEntries(w)); w.location.None? <==> "location" !in written
    ensures var written := Emitted(WorkEntries(w)); w.location.Some? ==> "location" in written && written["location"] == Str(w.location.value)
    ensures var written := Emitted(WorkEntries(w)); w.description.None? <==> "description" !in written
    ensures var written := Emitted(WorkEntries(w)); w.description.Some? ==> "description" in written && written["description"] == Str(w.description.value)
    ensures var written := Emitted(WorkEntries(w)); w.positions == [] <==> "positions" !in written
    ensures var written := Emitted(WorkEntries(w)); w.positions != [] ==> "positions" in written && written["positions"] == EncodeSeq(w.positions, EncodePosition)
  {
    SkipNoneEntry(WorkEntries(w), "name", w.name);
    SkipNoneEntry(WorkEntries(w), "location", w.location);
    SkipNoneEntry(WorkEntries(w), "description", w.description);
    SkipEmptyEntry(WorkEntries(w), "positions", w.positions, EncodePosition);
  }

  lemma WorkWritesPart2(w: Work)
    ensures var written := Emitted(WorkEntries(w)); w.position.None? <==> "position" !in written
    ensures var written := Emitted(WorkEntries(w)); w.position.Some? ==> "position" in written && written["position"] == Str(w.position.value)
    ensures var written := Emitted(WorkEntries(w)); w.url.None? <==> "url" !in written
    ensures var written := Emitted(WorkEntries(w)); w.url.Some? ==> "url" in written && written["url"] == Str(w.url.value)
    ensures var written := Emitted(WorkEntries(w)); w.startDate.None? <==> "startDate" !in written
    ensures var written := Emitted(WorkEntries(w)); w.startDate.Some? ==> "startDate" in written && written["startDate"] == Str(w.startDate.value)
    ensures var written := Emitted(WorkEntries(w)); w.endDate.None? <==> "endDate" !in written
    ensures var written := Emitted(WorkEntries(w)); w.endDate.Some? ==> "endDate" in written && written["endDate"] == Str(w.endDate.value)
  {
    SkipNoneEntry(WorkEntries(w), "position", w.position);
    SkipNoneEntry(WorkEntries(w), "url", w.url);
    SkipNoneEntry(WorkEntries(w), "startDate", w.startDate);
    SkipNoneEntry(WorkEntries(w), "endDate", w.endDate);
  }

  lemma WorkWritesPart3(w: Work)
    ensures var written := Emitted(WorkEntries(w)); w.highlights == [] <==> "highlights" !in written
    ensures var written := Emitted(WorkEntries(w)); w.highlights != [] ==> "highlights" in written && written["highlights"] == EncodeSeq(w.highlights, EncodeHighlight)
  {
    SkipEmptyEntry(WorkEntries(w), "highlights", w.highlights, EncodeHighlight);
  }

  /** Which keys `EncodeWork` writes, and their values, for every `Work`. */
  lemma WorkWrites(w: Work)
    ensures var written := EncodeWork(w).fields; w.name.None? <==> "name" !in written
    ensures var written := EncodeWork(w).fields; w.name.Some? ==> "name" in written && written["name"] == Str(w.name.value)
    ensures var written := EncodeWork(w).fields; w.location.None? <==> "location" !in written
    ensures var written := EncodeWork(w).fields; w.location.Some? ==> "location" in written && written["location"] == Str(w.location.value)
    ensures var written := EncodeWork(w).fields; w.description.None? <==> "description" !in written
    ensures var written := EncodeWork(w).fields; w.description.Some? ==> "description" in written && written["description"] == Str(w.description.value)
    ensures var written := EncodeWork(w).fields; w.positions == [] <==> "positions" !in written
    ensures var written := EncodeWork(w).fields; w.positions != [] ==> "positions" in written && written["positions"] == EncodeSeq(w.positions, EncodePosition)
    ensures var written := EncodeWork(w).fields; w.position.None? <==> "position" !in written
    ensures var written := EncodeWork(w).fields; w.position.Some? ==> "position" in written && written["position"] == Str(w.position.value)
    ensures var written := EncodeWork(w).fields; w.url.None? <==> "url" !in written
    ensures var written := EncodeWork(w).fields; w.url.Some? ==> "url" in written && written["url"] == Str(w.url.value)
    ensures var written := EncodeWork(w).fields; w.startDate.None? <==> "startDate" !in written
    ensures var written := EncodeWork(w).fields; w.startDate.Some? ==> "startDate" in written && written["startDate"] == Str(w.startDate.value)
    ensures var written := EncodeWork(w).fields; w.endDate.None? <==> "endDate" !in written
    ensures var written := EncodeWork(w).fields; w.endDate.Some? ==> "endDate" in written && written["endDate"] == Str(w.endDate.value)
    ensures var written := EncodeWork(w).fields; w.highlights == [] <==> "highlights" !in written
    ensures var written := EncodeWork(w).fields; w.highlights != [] ==> "highlights" in written && written["highlights"] == EncodeSeq(w.highlights, EncodeHighlight)
  {
    WorkWritesPart1(w);
    WorkWritesPart2(w);
    WorkWritesPart3(w);
  }

  lemma VolunteerWritesPart1(v: Volunteer)
    ensures var written := Emitted(VolunteerEntries(v)); v.organization.None? <==> "organization" !in written
    ensures var written := Emitted(VolunteerEntries(v)); v.organization.Some? ==> "organization" in written && written["organization"] == Str(v.organization.value)
    ensures var written := Emitted(VolunteerEntries(v)); v.position.None? <==> "position" !in written
    ensures var written := Emitted(VolunteerEntries(v)); v.position.Some? ==> "position" in written && written["position"] == Str(v.position.value)
    ensures var written := Emitted(VolunteerEntries(v)); v.url.None? <==> "url" !in written
    ensures var written := Emitted(VolunteerEntries(v)); v.url.Some? ==> "url" in written && written["url"] == Str(v.url.value)
    ensures var written := Emitted(VolunteerEntries(v)); v.startDate.None? <==> "startDate" !in written
    ensures var written := Emitted(VolunteerEntries(v)); v.startDate.Some? ==> "startDate" in written && written["startDate"] == Str(v.startDate.value)
  {
    SkipNoneEntry(VolunteerEntries(v), "organization", v.organization);
    SkipNoneEntry(VolunteerEntries(v), "position", v.position);
    SkipNoneEntry(VolunteerEntries(v), "url", v.url);
    SkipNoneEntry(VolunteerEntries(v), "startDate", v.startDate);
  }

  lemma VolunteerWritesPart2(v: Volunteer)
    ensures var written := Emitted(VolunteerEntries(v)); v.endDate.None? <==> "endDate" !in written
    ensures var written := Emitted(VolunteerEntries(v)); v.endDate.Some? ==> "endDate" in written && written["endDate"] == Str(v.endDate.value)
    ensures var written := Emitted(VolunteerEntries(v)); v.summary.None? <==> "summary" !in written
    ensures var written := Emitted(VolunteerEntries(v)); v.summary.Some? ==> "summary" in written && written["summary"] == Str(v.summary.value)
    ensures var written := Emitted(VolunteerEntries(v)); v.highlights == [] <==> "highlights" !in written
    ensures var written := Emitted(VolunteerEntries(v)); v.highlights != [] ==> "highlights" in written && written["highlights"] == EncodeSeq(v.highlights, EncodeHighlight)
  {
    SkipNoneEntry(VolunteerEntries(v), "endDate", v.endDate);
    SkipNoneEntry(VolunteerEntries(v), "summary", v.summary);
    SkipEmptyEntry(VolunteerEntries(v), "highlights", v.highlights, EncodeHighlight);
  }

  /** Which keys `EncodeVolunteer` writes, and their values, for every `Volunteer`. */
  lemma VolunteerWrites(v: Volunteer)
    ensures var written := EncodeVolunteer(v).fields; v.organization.None? <==> "organization" !in written
    ensures var written := EncodeVolunteer(v).fields; v.organization.Some? ==> "organization" in written && written["organization"] == Str(v.organization.value)
    ensures var written := EncodeVolunteer(v).fields; v.position.None? <==> "position" !in written
    ensures var written := EncodeVolunteer(v).fields; v.position.Some? ==> "position" in written && written["position"] == Str(v.position.value)
    ensures var written := EncodeVolunteer(v).fields; v.url.None? <==> "url" !in written
    ensures var written := EncodeVolunteer(v).fields; v.url.Some? ==> "url" in written && written["url"] == Str(v.url.value)
    ensures var written := EncodeVolunteer(v).fields; v.startDate.None? <==> "startDate" !in written
    ensures var written := EncodeVolunteer(v).fields; v.startDate.Some? ==> "startDate" in written && written["startDate"] == Str(v.startDate.value)
    ensures var written := EncodeVolunteer(v).fields; v.endDate.None? <==> "endDate" !in written
    ensures var written := EncodeVolunteer(v).fields; v.endDate.Some? ==> "endDate" in written && written["endDate"] == Str(v.endDate.value)
    ensures var written := EncodeVolunteer(v).fields; v.summary.None? <==> "summary" !in written
    ensures var written := EncodeVolunteer(v).fields; v.summary.Some? ==> "summary" in written && written["summary"] == Str(v.summary.value)
    ensures var written := EncodeVolunteer(v).fields; v.highlights == [] <==> "highlights" !in written
    ensures var written := EncodeVolunteer(v).fields; v.highlights != [] ==> "highlights" in written && written["highlights"] == EncodeSeq(v.highlights, EncodeHighlight)
  {
    VolunteerWritesPart1(v);
    VolunteerWritesPart2(v);
  }

  lemma EducationWritesPart1(e: Education)
    ensures var written := Emitted(EducationEntries(e)); e.institution.None? <==> "institution" !in written
    ensures var written := Emitted(EducationEntries(e)); e.institution.Some? ==> "institution" in written && written["institution"] == Str(e.institution.value)
    ensures var written := Emitted(EducationEntries(e)); e.url.None? <==> "url" !in written
    ensures var written := Emitted(EducationEntries(e)); e.url.Some? ==> "url" in written && written["url"] == Str(e.url.value)
    ensures var written := Emitted(EducationEntries(e)); e.degrees == [] <==> "degrees" !in written
    ensures var written := Emitted(EducationEntries(e)); e.degrees != [] ==> "degrees" in written && written["degrees"] == EncodeSeq(e.degrees, EncodeString)
    ensures var written := Emitted(EducationEntries(e)); e.area.None? <==> "area" !in written
    ensures var written := Emitted(EducationEntries(e)); e.area.Some? ==> "area" in written && written["area"] == Str(e.area.value)
  {
    SkipNoneEntry(EducationEntries(e), "institution", e.institution);
    SkipNoneEntry(EducationEntries(e), "url", e.url);
    SkipEmptyEntry(EducationEntries(e), "degrees", e.degrees, EncodeString);
    SkipNoneEntry(EducationEntries(e), "area", e.area);
  }

  lemma EducationWritesPart2(e: Education)
    ensures var written := Emitted(EducationEntries(e)); e.studyType.None? <==> "studyType" !in written
    ensures var written := Emitted(EducationEntries(e)); e.studyType.Some? ==> "studyType" in written && written["studyType"] == Str(e.studyType.value)
    ensures var written := Emitted(EducationEntries(e)); e.startDate.None? <==> "startDate" !in written
    ensures var written := Emitted(EducationEntries(e)); e.startDate.Some? ==> "startDate" in written && written["startDate"] == Str(e.startDate.value)
    ensures var written := Emitted(EducationEntries(e)); e.endDate.None? <==> "endDate" !in written
    ensures var written := Emitted(EducationEntries(e)); e.endDate.Some? ==> "endDate" in written && written["endDate"] == Str(e.endDate.value)
    ensures var written := Emitted(EducationEntries(e)); e.score.None? <==> "score" !in written
    ensures var written := Emitted(EducationEntries(e)); e.score.Some? ==> "score" in written && written["score"] == Str(e.score.value)
  {
    SkipNoneEntry(EducationEntries(e), "studyType", e.studyType);
    SkipNoneEntry(EducationEntries(e), "startDate", e.startDate);
    SkipNoneEntry(EducationEntries(e), "endDate", e.endDate);
    SkipNoneEntry(EducationEntries(e), "score", e.score);
  }

  lemma EducationWritesPart3(e: Education)
    ensures var written := Emitted(EducationEntries(e)); e.courses == [] <==> "courses" !in written
    ensures var written := Emitted(EducationEntries(e)); e.courses != [] ==> "courses" in written && written["courses"] == EncodeSeq(e.courses, EncodeCourse)
  {
    SkipEmptyEntry(EducationEntries(e), "courses", e.courses, EncodeCourse);
  }

  /** Which keys `EncodeEducation` writes, and their values, for every `Education`. */
  lemma EducationWrites(e: Education)
    ensures var written := EncodeEducation(e).fields; e.institution.None? <==> "institution" !in written
    ensures var written := EncodeEducation(e).fields; e.institution.Some? ==> "institution" in written && written["institution"] == Str(e.institution.value)
    ensures var written := EncodeEducation(e).fields; e.url.None? <==> "url" !in written
    ensures var written := EncodeEducation(e).fields; e.url.Some? ==> "url" in written && written["url"] == Str(e.url.value)
    ensures var written := EncodeEducation(e).fields; e.degrees == [] <==> "degrees" !in written
    ensures var written := EncodeEducation(e).fields; e.degrees != [] ==> "degrees" in written && written["degrees"] == EncodeSeq(e.degrees, EncodeString)
    ensures var written := EncodeEducation(e).fields; e.area.None? <==> "area" !in written
    ensures var written := EncodeEducation(e).fields; e.area.Some? ==> "area" in written && written["area"] == Str(e.area.value)
    ensures var written := EncodeEducation(e).fields; e.studyType.None? <==> "studyType" !in written
    ensures var written := EncodeEducation(e).fields; e.studyType.Some? ==> "studyType" in written && written["studyType"] == Str(e.studyType.value)
    ensures var written := EncodeEducation(e).fields; e.startDate.None? <==> "startDate" !in written
    ensures var written := EncodeEducation(e).fields; e.startDate.Some? ==> "startDate" in written && written["startDate"] == Str(e.startDate.value)
    ensures var written := EncodeEducation(e).fields; e.endDate.None? <==> "endDate" !in written
    ensures var written := EncodeEducation(e).fields; e.endDate.Some? ==> "endDate" in written && written["endDate"] == Str(e.endDate.value)
    ensures var written := EncodeEducation(e).fields; e.score.None? <==> "score" !in written
    ensures var written := EncodeEducation(e).fields; e.score.Some? ==> "score" in written && written["score"] == Str(e.score.value)
    ensures var written := EncodeEducation(e).fields; e.courses == [] <==> "courses" !in written
    ensures var written := EncodeEducation(e).fields; e.courses != [] ==> "courses" in written && written["courses"] == EncodeSeq(e.courses, EncodeCourse)
  {
    EducationWritesPart1(e);
    EducationWritesPart2(e);
    EducationWritesPart3(e);
  }

  /** Which keys `EncodeSkill` writes, and their values, for every `Skill`. */
  lemma SkillWrites(s: Skill)
    ensures var written := EncodeSkill(s).fields; s.name.None? <==> "name" !in written
    ensures var written := EncodeSkill(s).fields; s.name.Some? ==> "name" in written && written["name"] == Str(s.name.value)
    ensures var written := EncodeSkill(s).fields; s.level.None? <==> "level" !in written
    ensures var written := EncodeSkill(s).fields; s.level.Some? ==> "level" in written && written["level"] == Str(s.level.value)
    ensures var written := EncodeSkill(s).fields; s.keywords == [] <==> "keywords" !in written
    ensures var written := EncodeSkill(s).fields; s.keywords != [] ==> "keywords" in written && written["keywords"] == EncodeSeq(s.keywords, EncodeKeyword)
  {
    SkipNoneEntry(SkillEntries(s), "name", s.name);
    SkipNoneEntry(SkillEntries(s), "level", s.level);
    SkipEmptyEntry(SkillEntries(s), "keywords", s.keywords, EncodeKeyword);
  }

  /** Which keys `EncodeReference` writes, and their values, for every `Reference`. */
  lemma ReferenceWrites(r: Reference)
    ensures var written := EncodeReference(r).fields; r.name.None? <==> "name" !in written
    ensures var written := EncodeReference(r).fields; r.name.Some? ==> "name" in written && written["name"] == Str(r.name.value)
    ensures var written := EncodeReference(r).fields; r.reference.None? <==> "reference" !in written
    ensures var written := EncodeReference(r).fields; r.reference.Some? ==> "reference" in written && written["reference"] == Str(r.reference.value)
  {
    SkipNoneEntry(ReferenceEntries(r), "name", r.name);
    SkipNoneEntry(ReferenceEntries(r), "reference", r.reference);
  }

  lemma ProjectWritesPart1(p: Project)
    ensures var written := Emitted(ProjectEntries(p)); "name" in written && (p.name.None? ==> written["name"] == Null) && (p.name.Some? ==> written["name"] == Str(p.name.value))
    ensures var written := Emitted(ProjectEntries(p)); "description" in written && (p.description.None? ==> written["description"] == Null) && (p.description.Some? ==> written["description"] == Str(p.description.value))
    ensures var written := Emitted(ProjectEntries(p)); "highlights" in written && written["highlights"] == EncodeSeq(p.highlights, EncodeHighlight)
  {
    EmittedEntry(ProjectEntries(p), "name");
    EmittedEntry(ProjectEntries(p), "description");
    EmittedEntry(ProjectEntries(p), "highlights");
  }

  lemma ProjectWritesPart2(p: Project)
    ensures var written := Emitted(ProjectEntries(p)); "duties" in written && written["duties"] == EncodeSeq(p.duties, EncodeDuty)
    ensures var written := Emitted(ProjectEntries(p)); "profits" in written && written["profits"] == EncodeSeq(p.profits, EncodeProfit)
    ensures var written := Emitted(ProjectEntries(p)); "features" in written && written["features"] == EncodeSeq(p.features, EncodeFeature)
  {
    EmittedEntry(ProjectEntries(p), "duties");
    EmittedEntry(ProjectEntries(p), "profits");
    EmittedEntry(ProjectEntries(p), "features");
  }

  lemma ProjectWritesPart3(p: Project)
    ensures var written := Emitted(ProjectEntries(p)); "keywords" in written && written["keywords"] == EncodeSeq(p.keywords, EncodeKeyword)
    ensures var written := Emitted(ProjectEntries(p)); p.startDate.None? <==> "startDate" !in written
    ensures var written := Emitted(ProjectEntries(p)); p.startDate.Some? ==> "startDate" in written && written["startDate"] == Str(p.startDate.value)
    ensures var written := Emitted(ProjectEntries(p)); p.endDate.None? <==> "endDate" !in written
    ensures var written := Emitted(ProjectEntries(p)); p.endDate.Some? ==> "endDate" in written && written["endDate"] == Str(p.endDate.value)
  {
    EmittedEntry(ProjectEntries(p), "keywords");
    SkipNoneEntry(ProjectEntries(p), "startDate", p.startDate);
    SkipNoneEntry(ProjectEntries(p), "endDate", p.endDate);
  }

  lemma ProjectWritesPart4(p: Project)
    ensures var written := Emitted(ProjectEntries(p)); p.url.None? <==> "url" !in written
    ensures var written := Emitted(ProjectEntries(p)); p.url.Some? ==> "url" in written && written["url"] == Str(p.url.value)
    ensures var written := Emitted(ProjectEntries(p)); p.roles == [] <==> "roles" !in written
    ensures var written := Emitted(ProjectEntries(p)); p.roles != [] ==> "roles" in written && written["roles"] == EncodeSeq(p.roles, EncodeRole)
    ensures var written := Emitted(ProjectEntries(p)); p.entity.None? <==> "entity" !in written
    ensures var written := Emitted(ProjectEntries(p)); p.entity.Some? ==> "entity" in written && written["entity"] == Str(p.entity.value)
  {
    SkipNoneEntry(ProjectEntries(p), "url", p.url);
    SkipEmptyEntry(ProjectEntries(p), "roles", p.roles, EncodeRole);
    SkipNoneEntry(ProjectEntries(p), "entity", p.entity);
  }

  lemma ProjectWritesPart5(p: Project)
    ensures var written := Emitted(ProjectEntries(p)); p.kind.None? <==> "type" !in written
    ensures var written := Emitted(ProjectEntries(p)); p.kind.Some? ==> "type" in written && written["type"] == Str(p.kind.value)
  {
    SkipNoneEntry(ProjectEntries(p), "type", p.kind);
  }

  /** Which keys `EncodeProject` writes, and their values, for every `Project`. */
  lemma ProjectWrites(p: Project)
    ensures var written := EncodeProject(p).fields; "name" in written && (p.name.None? ==> written["name"] == Null) && (p.name.Some? ==> written["name"] == Str(p.name.value))
    ensures var written := EncodeProject(p).fields; "description" in written && (p.description.None? ==> written["description"] == Null) && (p.description.Some? ==> written["description"] == Str(p.description.value))
    ensures var written := EncodeProject(p).fields; "highlights" in written && written["highlights"] == EncodeSeq(p.highlights, EncodeHighlight)
    ensures var written := EncodeProject(p).fields; "duties" in written && written["duties"] == EncodeSeq(p.duties, EncodeDuty)
    ensures var written := EncodeProject(p).fields; "profits" in written && written["profits"] == EncodeSeq(p.profits, EncodeProfit)
    ensures var written := EncodeProject(p).fields; "features" in written && written["features"] == EncodeSeq(p.features, EncodeFeature)
    ensures var written := EncodeProject(p).fields; "keywords" in written && written["keywords"] == EncodeSeq(p.keywords, EncodeKeyword)
    ensures var written := EncodeProject(p).fields; p.startDate.None? <==> "startDate" !in written
    ensures var written := EncodeProject(p).fields; p.startDate.Some? ==> "startDate" in written && written["startDate"] == Str(p.startDate.value)
    ensures var written := EncodeProject(p).fields; p.endDate.None? <==> "endDate" !in written
    ensures var written := EncodeProject(p).fields; p.endDate.Some? ==> "endDate" in written && written["endDate"] == Str(p.endDate.value)
    ensures var written := EncodeProject(p).fields; p.url.None? <==> "url" !in written
    ensures var written := EncodeProject(p).fields; p.url.Some? ==> "url" in written && written["url"] == Str(p.url.value)
    ensures var written := EncodeProject(p).fields; p.roles == [] <==> "roles" !in written
    ensures var written := EncodeProject(p).fields; p.roles != [] ==> "roles" in written && written["roles"] == EncodeSeq(p.roles, EncodeRole)
    ensures var written := EncodeProject(p).fields; p.entity.None? <==> "entity" !in written
    ensures var written := EncodeProject(p).fields; p.entity.Some? ==> "entity" in written && written["entity"] == Str(p.entity.value)
    ensures var written := EncodeProject(p).fields; p.kind.None? <==> "type" !in written
    ensures var written := EncodeProject(p).fields; p.kind.Some? ==> "type" in written && written["type"] == Str(p.kind.value)
  {
    ProjectWritesPart1(p);
    ProjectWritesPart2(p);
    ProjectWritesPart3(p);
    ProjectWritesPart4(p);
    ProjectWritesPart5(p);
  }

  lemma ResumeWritesRecordsPart1(cfg: Config, r: Resume)
    ensures var written := Emitted(ResumeEntries(cfg, r)); r.basics.None? <==> "basics" !in written
    ensures var written := Emitted(ResumeEntries(cfg, r)); r.basics.Some? ==> "basics" in written && written["basics"] == EncodeBasics(r.basics.value)
  {
    SkipNoneWithEntry(ResumeEntries(cfg, r), "basics", r.basics, EncodeBasics);
  }

  lemma ResumeWritesRecordsPart2(cfg: Config, r: Resume)
    ensures var written := Emitted(ResumeEntries(cfg, r)); (cfg.sideProjects && r.sideProjects != []) <==> "sideProjects" in written
    ensures var written := Emitted(ResumeEntries(cfg, r)); "sideProjects" in written ==> written["sideProjects"] == EncodeSeq(r.sideProjects, EncodeProject)
  {
    EmittedEntry(ResumeEntries(cfg, r), "sideProjects");
  }

  lemma ResumeWritesRecordsPart3(cfg: Config, r: Resume)
    ensures var written := Emitted(ResumeEntries(cfg, r)); r.meta.None? <==> "meta" !in written
    ensures var written := Emitted(ResumeEntries(cfg, r)); r.meta.Some? ==> "meta" in written && written["meta"] == EncodeMeta(r.meta.value)
  {
    SkipNoneWithEntry(ResumeEntries(cfg, r), "meta", r.meta, EncodeMeta);
  }

  /** Which keys `EncodeResume` writes for the optional `basics` and `meta` records and the feature-gated `sideProjects` list, and their values. */
  lemma ResumeWritesRecords(cfg: Config, r: Resume)
    ensures var written := EncodeResume(cfg, r).fields; r.basics.None? <==> "basics" !in written
    ensures var written := EncodeResume(cfg, r).fields; r.basics.Some? ==> "basics" in written && written["basics"] == EncodeBasics(r.basics.value)
    ensures var written := EncodeResume(cfg, r).fields; (cfg.sideProjects && r.sideProjects != []) <==> "sideProjects" in written
    ensures var written := EncodeResume(cfg, r).fields; "sideProjects" in written ==> written["sideProjects"] == EncodeSeq(r.sideProjects, EncodeProject)
    ensures var written := EncodeResume(cfg, r).fields; r.meta.None? <==> "meta" !in written
    ensures var written := EncodeResume(cfg, r).fields; r.meta.Some? ==> "meta" in written && written["meta"] == EncodeMeta(r.meta.value)
  {
    ResumeWritesRecordsPart1(cfg, r);
    ResumeWritesRecordsPart2(cfg, r);
    ResumeWritesRecordsPart3(cfg, r);
  }

  lemma ResumeWritesSections1Part1(cfg: Config, r: Resume)
    ensures var written := Emitted(ResumeEntries(cfg, r)); r.work == [] <==> "work" !in written
    ensures var written := Emitted(ResumeEntries(cfg, r)); r.work != [] ==> "work" in written && written["work"] == EncodeSeq(r.work, EncodeWork)
  {
    SkipEmptyEntry(ResumeEntries(cfg, r), "work", r.work, EncodeWork);
  }

  lemma ResumeWritesSections1Part2(cfg: Config, r: Resume)
    ensures var written := Emitted(ResumeEntries(cfg, r)); r.volunteer == [] <==> "volunteer" !in written
    ensures var written := Emitted(ResumeEntries(cfg, r)); r.volunteer != [] ==> "volunteer" in written && written["volunteer"] == EncodeSeq(r.volunteer, EncodeVolunteer)
  {
    SkipEmptyEntry(ResumeEntries(cfg, r), "volunteer", r.volunteer, EncodeVolunteer);
  }

  lemma ResumeWritesSections1Part3(cfg: Config, r: Resume)
    ensures var written := Emitted(ResumeEntries(cfg, r)); r.education == [] <==> "education" !in written
    ensures var written := Emitted(ResumeEntries(cfg, r)); r.education != [] ==> "education" in written && written["education"] == EncodeSeq(r.education, EncodeEducation)
  {
    SkipEmptyEntry(ResumeEntries(cfg, r), "education", r.education, EncodeEducation);
  }

  lemma ResumeWritesSections1Part4(cfg: Config, r: Resume)
    ensures var written := Emitted(ResumeEntries(cfg, r)); r.awards == [] <==> "awards" !in written
    ensures var written := Emitted(ResumeEntries(cfg, r)); r.awards != [] ==> "awards" in written && written["awards"] == EncodeSeq(r.awards, EncodeAward)
  {
    SkipEmptyEntry(ResumeEntries(cfg, r), "awards", r.awards, EncodeAward);
  }

  lemma ResumeWritesSections1Part5(cfg: Config, r: Resume)
    ensures var written := Emitted(ResumeEntries(cfg, r)); r.certificates == [] <==> "certificates" !in written
    ensures var written := Emitted(ResumeEntries(cfg, r)); r.certificates != [] ==> "certificates" in written && written["certificates"] == EncodeSeq(r.certificates, EncodeCertificate)
  {
    SkipEmptyEntry(ResumeEntries(cfg, r), "certificates", r.certificates, EncodeCertificate);
  }

  lemma ResumeWritesSections1Part6(cfg: Config, r: Resume)
    ensures var written := Emitted(ResumeEntries(cfg, r)); r.publications == [] <==> "publications" !in written
    ensures var written := Emitted(ResumeEntries(cfg, r)); r.publications != [] ==> "publications" in written && written["publications"] == EncodeSeq(r.publications, EncodePublication)
  {
    SkipEmptyEntry(ResumeEntries(cfg, r), "publications", r.publications, EncodePublication);
  }

  /** Which keys `EncodeResume` writes for the section lists from `work` to `publications`, and their values. */
  lemma ResumeWritesSections1(cfg: Config, r: Resume)
    ensures var written := EncodeResume(cfg, r).fields; r.work == [] <==> "work" !in written
    ensures var written := EncodeResume(cfg, r).fields; r.work != [] ==> "work" in written && written["work"] == EncodeSeq(r.work, EncodeWork)
    ensures var written := EncodeResume(cfg, r).fields; r.volunteer == [] <==> "volunteer" !in written
    ensures var written := EncodeResume(cfg, r).fields; r.volunteer != [] ==> "volunteer" in written && written["volunteer"] == EncodeSeq(r.volunteer, EncodeVolunteer)
    ensures var written := EncodeResume(cfg, r).fields; r.education == [] <==> "education" !in written
    ensures var written := EncodeResume(cfg, r).fields; r.education != [] ==> "education" in written && written["education"] == EncodeSeq(r.education, EncodeEducation)
    ensures var written := EncodeResume(cfg, r).fields; r.awards == [] <==> "awards" !in written
    ensures var written := EncodeResume(cfg, r).fields; r.awards != [] ==> "awards" in written && written["awards"] == EncodeSeq(r.awards, EncodeAward)
    ensures var written := EncodeResume(cfg, r).fields; r.certificates == [] <==> "certificates" !in written
    ensures var written := EncodeResume(cfg, r).fields; r.certificates != [] ==> "certificates" in written && written["certificates"] == EncodeSeq(r.certificates, EncodeCertificate)
    ensures var written := EncodeResume(cfg, r).fields; r.publications == [] <==> "publications" !in written
    ensures var written := EncodeResume(cfg, r).fields; r.publications != [] ==> "publications" in written && written["publications"] == EncodeSeq(r.publications, EncodePublication)
  {
    ResumeWritesSections1Part1(cfg, r);
    ResumeWritesSections1Part2(cfg, r);
    ResumeWritesSections1Part3(cfg, r);
    ResumeWritesSections1Part4(cfg, r);
    ResumeWritesSections1Part5(cfg, r);
    ResumeWritesSections1Part6(cfg, r);
  }

  lemma ResumeWritesSections2Part1(cfg: Config, r: Resume)
    ensures var written := Emitted(ResumeEntries(cfg, r)); r.skills == [] <==> "skills" !in written
    ensures var written := Emitted(ResumeEntries(cfg, r)); r.skills != [] ==> "skills" in written && written["skills"] == EncodeSeq(r.skills, EncodeSkill)
  {
    SkipEmptyEntry(ResumeEntries(cfg, r), "skills", r.skills, EncodeSkill);
  }

  lemma ResumeWritesSections2Part2(cfg: Config, r: Resume)
    ensures var written := Emitted(ResumeEntries(cfg, r)); r.languages == [] <==> "languages" !in written
    ensures var written := Emitted(ResumeEntries(cfg, r)); r.languages != [] ==> "languages" in written && written["languages"] == EncodeSeq(r.languages, EncodeLanguage)
  {
    SkipEmptyEntry(ResumeEntries(cfg, r), "languages", r.languages, EncodeLanguage);
  }

  lemma ResumeWritesSections2Part3(cfg: Config, r: Resume)
    ensures var written := Emitted(ResumeEntries(cfg, r)); r.interests == [] <==> "interests" !in written
    ensures var written := Emitted(ResumeEntries(cfg, r)); r.interests != [] ==> "interests" in written && written["interests"] == EncodeSeq(r.interests, EncodeInterest)
  {
    SkipEmptyEntry(ResumeEntries(cfg, r), "interests", r.interests, EncodeInterest);
  }

  lemma ResumeWritesSections2Part4(cfg: Config, r: Resume)
    ensures var written := Emitted(ResumeEntries(cfg, r)); r.references == [] <==> "references" !in written
    ensures var written := Emitted(ResumeEntries(cfg, r)); r.references != [] ==> "references" in written && written["references"] == EncodeSeq(r.references, EncodeReference)
  {
    SkipEmptyEntry(ResumeEntries(cfg, r), "references", r.references, EncodeReference);
  }

  lemma ResumeWritesSections2Part5(cfg: Config, r: Resume)
    ensures var written := Emitted(ResumeEntries(cfg, r)); r.projects == [] <==> "projects" !in written
    ensures var written := Emitted(ResumeEntries(cfg, r)); r.projects != [] ==> "projects" in written && written["projects"] == EncodeSeq(r.projects, EncodeProject)
  {
    SkipEmptyEntry(ResumeEntries(cfg, r), "projects", r.projects, EncodeProject);
  }

  /** Which keys `EncodeResume` writes for the section lists from `skills` to `projects`, and their values. */
  lemma ResumeWritesSections2(cfg: Config, r: Resume)
    ensures var written := EncodeResume(cfg, r).fields; r.skills == [] <==> "skills" !in written
    ensures var written := EncodeResume(cfg, r).fields; r.skills != [] ==> "skills" in written && written["skills"] == EncodeSeq(r.skills, EncodeSkill)
    ensures var written := EncodeResume(cfg, r).fields; r.languages == [] <==> "languages" !in written
    ensures var written := EncodeResume(cfg, r).fields; r.languages != [] ==> "languages" in written && written["languages"] == EncodeSeq(r.languages, EncodeLanguage)
    ensures var written := EncodeResume(cfg, r).fields; r.interests == [] <==> "interests" !in written
    ensures var written := EncodeResume(cfg, r).fields; r.interests != [] ==> "interests" in written && written["interests"] == EncodeSeq(r.interests, EncodeInterest)
    ensures var written := EncodeResume(cfg, r).fields; r.references == [] <==> "references" !in written
    ensures var written := EncodeResume(cfg, r).fields; r.references != [] ==> "references" in written && written["references"] == EncodeSeq(r.references, EncodeReference)
    ensures var written := EncodeResume(cfg, r).fields; r.projects == [] <==> "projects" !in written
    ensures var written := EncodeResume(cfg, r).fields; r.projects != [] ==> "projects" in written && written["projects"] == EncodeSeq(r.projects, EncodeProject)
  {
    ResumeWritesSections2Part1(cfg, r);
    ResumeWritesSections2Part2(cfg, r);
    ResumeWritesSections2Part3(cfg, r);
    ResumeWritesSections2Part4(cfg, r);
    ResumeWritesSections2Part5(cfg, r);
  }

  /** What `EncodeProfile` writes under each key, for every `Profile`. */
  lemma ProfileWrites(p: Profile)
    ensures var written := EncodeProfile(p).fields; p.network.None? ==> written["network"] == Null
    ensures var written := EncodeProfile(p).fields; p.network.Some? ==> written["network"] == Str(p.network.value)
    ensures var written := EncodeProfile(p).fields; p.username.None? ==> written["username"] == Null
    ensures var written := EncodeProfile(p).fields; p.username.Some? ==> written["username"] == Str(p.username.value)
    ensures var written := EncodeProfile(p).fields; p.url.None? ==> written["url"] == Null
    ensures var written := EncodeProfile(p).fields; p.url.Some? ==> written["url"] == Str(p.url.value)
  {
  }

  /** What `EncodeAward` writes under each key, for every `Award`. */
  lemma AwardWrites(a: Award)
    ensures var written := EncodeAward(a).fields; a.title.None? ==> written["title"] == Null
    ensures var written := EncodeAward(a).fields; a.title.Some? ==> written["title"] == Str(a.title.value)
    ensures var written := EncodeAward(a).fields; a.date.None? ==> written["date"] == Null
    ensures var written := EncodeAward(a).fields; a.date.Some? ==> written["date"] == Str(a.date.value)
    ensures var written := EncodeAward(a).fields; a.awarder.None? ==> written["awarder"] == Null
    ensures var written := EncodeAward(a).fields; a.awarder.Some? ==> written["awarder"] == Str(a.awarder.value)
    ensures var written := EncodeAward(a).fields; a.summary.None? ==> written["summary"] == Null
    ensures var written := EncodeAward(a).fields; a.summary.Some? ==> written["summary"] == Str(a.summary.value)
  {
  }

  /** What `EncodeCertificate` writes under each key, for every `Certificate`. */
  lemma CertificateWrites(c: Certificate)
    ensures var written := EncodeCertificate(c).fields; c.name.None? ==> written["name"] == Null
    ensures var written := EncodeCertificate(c).fields; c.name.Some? ==> written["name"] == Str(c.name.value)
    ensures var written := EncodeCertificate(c).fields; c.date.None? ==> written["date"] == Null
    ensures var written := EncodeCertificate(c).fields; c.date.Some? ==> written["date"] == Str(c.date.value)
    ensures var written := EncodeCertificate(c).fields; c.url.None? ==> written["url"] == Null
    ensures var written := EncodeCertificate(c).fields; c.url.Some? ==> written["url"] == Str(c.url.value)
    ensures var written := EncodeCertificate(c).fields; c.issuer.None? ==> written["issuer"] == Null
    ensures var written := EncodeCertificate(c).fields; c.issuer.Some? ==> written["issuer"] == Str(c.issuer.value)
  {
  }

  /** What `EncodePublication` writes under each key, for every `Publication`. */
  lemma PublicationWrites(p: Publication)
    ensures var written := EncodePublication(p).fields; p.name.None? ==> written["name"] == Null
    ensures var written := EncodePublication(p).fields; p.name.Some? ==> written["name"] == Str(p.name.value)
    ensures var written := EncodePublication(p).fields; p.publisher.None? ==> written["publisher"] == Null
    ensures var written := EncodePublication(p).fields; p.publisher.Some? ==> written["publisher"] == Str(p.publisher.value)
    ensures var written := EncodePublication(p).fields; p.releaseDate.None? ==> written["releaseDate"] == Null
    ensures var written := EncodePublication(p).fields; p.releaseDate.Some? ==> written["releaseDate"] == Str(p.releaseDate.value)
    ensures var written := EncodePublication(p).fields; p.url.None? ==> written["url"] == Null
    ensures var written := EncodePublication(p).fields; p.url.Some? ==> written["url"] == Str(p.url.value)
    ensures var written := EncodePublication(p).fields; p.summary.None? ==> written["summary"] == Null
    ensures var written := EncodePublication(p).fields; p.summary.Some? ==> written["summary"] == Str(p.summary.value)
  {
  }

  /** What `EncodeLanguage` writes under each key, for every `Language`. */
  lemma LanguageWrites(l: Language)
    ensures var written := EncodeLanguage(l).fields; l.language.None? ==> written["language"] == Null
    ensures var written := EncodeLanguage(l).fields; l.language.Some? ==> written["language"] == Str(l.language.value)
    ensures var written := EncodeLanguage(l).fields; l.fluency.None? ==> written["fluency"] == Null
    ensures var written := EncodeLanguage(l).fields; l.fluency.Some? ==> written["fluency"] == Str(l.fluency.value)
  {
  }

  /** What `EncodeInterest` writes under each key, for every `Interest`. */
  lemma InterestWrites(i: Interest)
    ensures var written := EncodeInterest(i).fields; i.name.None? ==> written["name"] == Null
    ensures var written := EncodeInterest(i).fields; i.name.Some? ==> written["name"] == Str(i.name.value)
    ensures var written := EncodeInterest(i).fields; written["keywords"] == EncodeSeq(i.keywords, EncodeKeyword)
  {
  }

  /** What `EncodeFeature` writes under each key, for every `Feature`. */
  lemma FeatureWrites(f: Feature)
    ensures var written := EncodeFeature(f).fields; written["name"] == Str(f.name)
    ensures var written := EncodeFeature(f).fields; written["situation"] == Str(f.situation)
    ensures var written := EncodeFeature(f).fields; written["task"] == Str(f.task)
    ensures var written := EncodeFeature(f).fields; written["action"] == Str(f.action)
    ensures var written := EncodeFeature(f).fields; written["result"] == Str(f.result)
  {
  }

  /** What `EncodeMeta` writes under each key, for every `Meta`. */
  lemma MetaWrites(m: Meta)
    ensures var written := EncodeMeta(m).fields; m.canonical.None? ==> written["canonical"] == Null
    ensures var written := EncodeMeta(m).fields; m.canonical.Some? ==> written["canonical"] == Str(m.canonical.value)
    ensures var written := EncodeMeta(m).fields; m.version.None? ==> written["version"] == Null
    ensures var written := EncodeMeta(m).fields; m.version.Some? ==> written["version"] == Str(m.version.value)
    ensures var written := EncodeMeta(m).fields; m.lastModified.None? ==> written["lastModified"] == Null
    ensures var written := EncodeMeta(m).fields; m.lastModified.Some? ==> written["lastModified"] == Str(m.lastModified.value)
  {
  }
}

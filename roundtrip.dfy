/**
 * Decoding what the encoder wrote gives back the same record, for every record
 * type: a skipped field comes back as its default, which is what it was.
 *
 * For a record written through an entries map, the proof goes in two steps: the
 * `...Reads` lemmas show that each field reads back as written, and the
 * `...FromFields` lemma shows that the decoder builds the record from those reads.
 */
module RoundTrip {
  import opened Wrappers
  import opened Json
  import opened Schema
  import opened Codec

  /** The newtypes are transparent on the wire: they come back from their bare string. */
  lemma NewtypesRoundTrip(h: Highlight, c: Course, k: Keyword, d: Duty, p: Profit, r: Role, s: string)
    ensures DecodeHighlight(EncodeHighlight(h)) == Ok(h)
    ensures DecodeCourse(EncodeCourse(c)) == Ok(c)
    ensures DecodeKeyword(EncodeKeyword(k)) == Ok(k)
    ensures DecodeDuty(EncodeDuty(d)) == Ok(d)
    ensures DecodeProfit(EncodeProfit(p)) == Ok(p)
    ensures DecodeRole(EncodeRole(r)) == Ok(r)
    ensures DecodeString(EncodeString(s)) == Ok(s)
  {
  }

  // Records without skip attributes: every key is present, `None` as `null`.

  lemma ProfileRoundTrip(p: Profile)
    ensures DecodeProfile(EncodeProfile(p)) == Ok(p)
  {
  }

  lemma AwardRoundTrip(a: Award)
    ensures DecodeAward(EncodeAward(a)) == Ok(a)
  {
  }

  lemma CertificateRoundTrip(c: Certificate)
    ensures DecodeCertificate(EncodeCertificate(c)) == Ok(c)
  {
  }

  lemma PublicationRoundTrip(p: Publication)
    ensures DecodePublication(EncodePublication(p)) == Ok(p)
  {
  }

  lemma LanguageRoundTrip(l: Language)
    ensures DecodeLanguage(EncodeLanguage(l)) == Ok(l)
  {
  }

  lemma InterestRoundTrip(i: Interest)
    ensures DecodeInterest(EncodeInterest(i)) == Ok(i)
  {
    SeqRoundTrip(i.keywords, EncodeKeyword, DecodeKeyword);
  }

  lemma FeatureRoundTrip(f: Feature)
    ensures DecodeFeature(EncodeFeature(f)) == Ok(f)
  {
  }

  lemma MetaRoundTrip(m: Meta)
    ensures DecodeMeta(EncodeMeta(m)) == Ok(m)
  {
  }

  lemma NullableBasicsRoundTrip(b: Basics)
    ensures DecodeOptBasics(EncodeBasics(b)) == Ok(Some(b))
  {
    BasicsRoundTrip(b);
  }

  lemma NullableMetaRoundTrip(m: Meta)
    ensures DecodeOptMeta(EncodeMeta(m)) == Ok(Some(m))
  {
    MetaRoundTrip(m);
  }

  // Records written through an entries map.

  /** The decoder reads back `address`, `postalCode`, `city`, `countryCode`, `region` as the encoder wrote them. */
  lemma LocationReads(l: Location)
    ensures Field(Emitted(LocationEntries(l)), "address", DecodeOptString, None) == Ok(l.address)
    ensures Field(Emitted(LocationEntries(l)), "postalCode", DecodeOptString, None) == Ok(l.postalCode)
    ensures Field(Emitted(LocationEntries(l)), "city", DecodeOptString, None) == Ok(l.city)
    ensures Field(Emitted(LocationEntries(l)), "countryCode", DecodeOptString, None) == Ok(l.countryCode)
    ensures Field(Emitted(LocationEntries(l)), "region", DecodeOptString, None) == Ok(l.region)
  {
    var e := LocationEntries(l);
    EmittedField(e, "address", DecodeOptString, None, l.address);
    EmittedField(e, "postalCode", DecodeOptString, None, l.postalCode);
    EmittedField(e, "city", DecodeOptString, None, l.city);
    EmittedField(e, "countryCode", DecodeOptString, None, l.countryCode);
    EmittedField(e, "region", DecodeOptString, None, l.region);
  }

  /** A `Location` is decoded from any object whose fields read as its fields. */
  lemma LocationFromFields(m: map<string, Json>, l: Location)
    requires Field(m, "address", DecodeOptString, None) == Ok(l.address)
    requires Field(m, "postalCode", DecodeOptString, None) == Ok(l.postalCode)
    requires Field(m, "city", DecodeOptString, None) == Ok(l.city)
    requires Field(m, "countryCode", DecodeOptString, None) == Ok(l.countryCode)
    requires Field(m, "region", DecodeOptString, None) == Ok(l.region)
    ensures DecodeLocation(Obj(m)) == Ok(l)
  {
  }

  lemma LocationRoundTrip(l: Location)
    ensures DecodeLocation(EncodeLocation(l)) == Ok(l)
  {
    LocationReads(l);
    LocationFromFields(Emitted(LocationEntries(l)), l);
  }

  /** The decoder reads back `name`, `label`, `image` as the encoder wrote them. */
  lemma BasicsReads1(b: Basics)
    ensures Field(Emitted(BasicsEntries(b)), "name", DecodeOptString, None) == Ok(b.name)
    ensures Field(Emitted(BasicsEntries(b)), "label", DecodeOptString, None) == Ok(b.labelText)
    ensures Field(Emitted(BasicsEntries(b)), "image", DecodeOptString, None) == Ok(b.image)
  {
    var e := BasicsEntries(b);
    EmittedField(e, "name", DecodeOptString, None, b.name);
    EmittedField(e, "label", DecodeOptString, None, b.labelText);
    EmittedField(e, "image", DecodeOptString, None, b.image);
  }

  /** The decoder reads back `email`, `phone`, `url` as the encoder wrote them. */
  lemma BasicsReads2(b: Basics)
    ensures Field(Emitted(BasicsEntries(b)), "email", DecodeOptString, None) == Ok(b.email)
    ensures Field(Emitted(BasicsEntries(b)), "phone", DecodeOptString, None) == Ok(b.phone)
    ensures Field(Emitted(BasicsEntries(b)), "url", DecodeOptString, None) == Ok(b.url)
  {
    var e := BasicsEntries(b);
    EmittedField(e, "email", DecodeOptString, None, b.email);
    EmittedField(e, "phone", DecodeOptString, None, b.phone);
    EmittedField(e, "url", DecodeOptString, None, b.url);
  }

  /** The decoder reads back `summary`, `location`, `profiles` as the encoder wrote them. */
  lemma BasicsReads3(b: Basics)
    ensures Field(Emitted(BasicsEntries(b)), "summary", DecodeOptString, None) == Ok(b.summary)
    ensures Field(Emitted(BasicsEntries(b)), "location", DecodeLocation, DefaultLocation) == Ok(b.location)
    ensures SeqField(Emitted(BasicsEntries(b)), "profiles", DecodeProfile) == Ok(b.profiles)
  {
    var e := BasicsEntries(b);
    EmittedField(e, "summary", DecodeOptString, None, b.summary);
    LocationRoundTrip(b.location);
    EmittedField(e, "location", DecodeLocation, DefaultLocation, b.location);
    forall x | x in b.profiles ensures DecodeProfile(EncodeProfile(x)) == Ok(x) {
      ProfileRoundTrip(x);
    }
    EmittedSeqField(e, "profiles", b.profiles, EncodeProfile, DecodeProfile);
  }

  /** A `Basics` is decoded from any object whose fields read as its fields. */
  lemma BasicsFromFields(m: map<string, Json>, b: Basics)
    requires Field(m, "name", DecodeOptString, None) == Ok(b.name)
    requires Field(m, "label", DecodeOptString, None) == Ok(b.labelText)
    requires Field(m, "image", DecodeOptString, None) == Ok(b.image)
    requires Field(m, "email", DecodeOptString, None) == Ok(b.email)
    requires Field(m, "phone", DecodeOptString, None) == Ok(b.phone)
    requires Field(m, "url", DecodeOptString, None) == Ok(b.url)
    requires Field(m, "summary", DecodeOptString, None) == Ok(b.summary)
    requires Field(m, "location", DecodeLocation, DefaultLocation) == Ok(b.location)
    requires SeqField(m, "profiles", DecodeProfile) == Ok(b.profiles)
    ensures DecodeBasics(Obj(m)) == Ok(b)
  {
  }

  lemma BasicsRoundTrip(b: Basics)
    ensures DecodeBasics(EncodeBasics(b)) == Ok(b)
  {
    BasicsReads1(b);
    BasicsReads2(b);
    BasicsReads3(b);
    BasicsFromFields(Emitted(BasicsEntries(b)), b);
  }

  /** The decoder reads back `title`, `startDate`, `endDate` as the encoder wrote them. */
  lemma PositionReads(p: Position)
    ensures Field(Emitted(PositionEntries(p)), "title", DecodeString, "") == Ok(p.title)
    ensures Field(Emitted(PositionEntries(p)), "startDate", DecodeOptString, None) == Ok(p.startDate)
    ensures Field(Emitted(PositionEntries(p)), "endDate", DecodeOptString, None) == Ok(p.endDate)
  {
    var e := PositionEntries(p);
    EmittedField(e, "title", DecodeString, "", p.title);
    EmittedField(e, "startDate", DecodeOptString, None, p.startDate);
    EmittedField(e, "endDate", DecodeOptString, None, p.endDate);
  }

  /** A `Position` is decoded from any object whose fields read as its fields. */
  lemma PositionFromFields(m: map<string, Json>, p: Position)
    requires Field(m, "title", DecodeString, "") == Ok(p.title)
    requires Field(m, "startDate", DecodeOptString, None) == Ok(p.startDate)
    requires Field(m, "endDate", DecodeOptString, None) == Ok(p.endDate)
    ensures DecodePosition(Obj(m)) == Ok(p)
  {
  }

  lemma PositionRoundTrip(p: Position)
    ensures DecodePosition(EncodePosition(p)) == Ok(p)
  {
    PositionReads(p);
    PositionFromFields(Emitted(PositionEntries(p)), p);
  }

  /** The decoder reads back `name`, `location`, `description` as the encoder wrote them. */
  lemma WorkReads1(w: Work)
    ensures Field(Emitted(WorkEntries(w)), "name", DecodeOptString, None) == Ok(w.name)
    ensures Field(Emitted(WorkEntries(w)), "location", DecodeOptString, None) == Ok(w.location)
    ensures Field(Emitted(WorkEntries(w)), "description", DecodeOptString, None) == Ok(w.description)
  {
    var e := WorkEntries(w);
    EmittedField(e, "name", DecodeOptString, None, w.name);
    EmittedField(e, "location", DecodeOptString, None, w.location);
    EmittedField(e, "description", DecodeOptString, None, w.description);
  }

  /** The decoder reads back `positions`, `position`, `url` as the encoder wrote them. */
  lemma WorkReads2(w: Work)
    ensures SeqField(Emitted(WorkEntries(w)), "positions", DecodePosition) == Ok(w.positions)
    ensures Field(Emitted(WorkEntries(w)), "position", DecodeOptString, None) == Ok(w.position)
    ensures Field(Emitted(WorkEntries(w)), "url", DecodeOptString, None) == Ok(w.url)
  {
    var e := WorkEntries(w);
    forall x | x in w.positions ensures DecodePosition(EncodePosition(x)) == Ok(x) {
      PositionRoundTrip(x);
    }
    EmittedSeqField(e, "positions", w.positions, EncodePosition, DecodePosition);
    EmittedField(e, "position", DecodeOptString, None, w.position);
    EmittedField(e, "url", DecodeOptString, None, w.url);
  }

  /** The decoder reads back `startDate`, `endDate`, `highlights` as the encoder wrote them. */
  lemma WorkReads3(w: Work)
    ensures Field(Emitted(WorkEntries(w)), "startDate", DecodeOptString, None) == Ok(w.startDate)
    ensures Field(Emitted(WorkEntries(w)), "endDate", DecodeOptString, None) == Ok(w.endDate)
    ensures SeqField(Emitted(WorkEntries(w)), "highlights", DecodeHighlight) == Ok(w.highlights)
  {
    var e := WorkEntries(w);
    EmittedField(e, "startDate", DecodeOptString, None, w.startDate);
    EmittedField(e, "endDate", DecodeOptString, None, w.endDate);
    EmittedSeqField(e, "highlights", w.highlights, EncodeHighlight, DecodeHighlight);
  }

  /** A `Work` is decoded from any object whose fields read as its fields. */
  lemma WorkFromFields(m: map<string, Json>, w: Work)
    requires Field(m, "name", DecodeOptString, None) == Ok(w.name)
    requires Field(m, "location", DecodeOptString, None) == Ok(w.location)
    requires Field(m, "description", DecodeOptString, None) == Ok(w.description)
    requires SeqField(m, "positions", DecodePosition) == Ok(w.positions)
    requires Field(m, "position", DecodeOptString, None) == Ok(w.position)
    requires Field(m, "url", DecodeOptString, None) == Ok(w.url)
    requires Field(m, "startDate", DecodeOptString, None) == Ok(w.startDate)
    requires Field(m, "endDate", DecodeOptString, None) == Ok(w.endDate)
    requires SeqField(m, "highlights", DecodeHighlight) == Ok(w.highlights)
    ensures DecodeWork(Obj(m)) == Ok(w)
  {
  }

  lemma WorkRoundTrip(w: Work)
    ensures DecodeWork(EncodeWork(w)) == Ok(w)
  {
    WorkReads1(w);
    WorkReads2(w);
    WorkReads3(w);
    WorkFromFields(Emitted(WorkEntries(w)), w);
  }

  /** The decoder reads back `organization`, `position`, `url`, `startDate` as the encoder wrote them. */
  lemma VolunteerReads1(v: Volunteer)
    ensures Field(Emitted(VolunteerEntries(v)), "organization", DecodeOptString, None) == Ok(v.organization)
    ensures Field(Emitted(VolunteerEntries(v)), "position", DecodeOptString, None) == Ok(v.position)
    ensures Field(Emitted(VolunteerEntries(v)), "url", DecodeOptString, None) == Ok(v.url)
    ensures Field(Emitted(VolunteerEntries(v)), "startDate", DecodeOptString, None) == Ok(v.startDate)
  {
    var e := VolunteerEntries(v);
    EmittedField(e, "organization", DecodeOptString, None, v.organization);
    EmittedField(e, "position", DecodeOptString, None, v.position);
    EmittedField(e, "url", DecodeOptString, None, v.url);
    EmittedField(e, "startDate", DecodeOptString, None, v.startDate);
  }

  /** The decoder reads back `endDate`, `summary`, `highlights` as the encoder wrote them. */
  lemma VolunteerReads2(v: Volunteer)
    ensures Field(Emitted(VolunteerEntries(v)), "endDate", DecodeOptString, None) == Ok(v.endDate)
    ensures Field(Emitted(VolunteerEntries(v)), "summary", DecodeOptString, None) == Ok(v.summary)
    ensures SeqField(Emitted(VolunteerEntries(v)), "highlights", DecodeHighlight) == Ok(v.highlights)
  {
    var e := VolunteerEntries(v);
    EmittedField(e, "endDate", DecodeOptString, None, v.endDate);
    EmittedField(e, "summary", DecodeOptString, None, v.summary);
    EmittedSeqField(e, "highlights", v.highlights, EncodeHighlight, DecodeHighlight);
  }

  /** A `Volunteer` is decoded from any object whose fields read as its fields. */
  lemma VolunteerFromFields(m: map<string, Json>, v: Volunteer)
    requires Field(m, "organization", DecodeOptString, None) == Ok(v.organization)
    requires Field(m, "position", DecodeOptString, None) == Ok(v.position)
    requires Field(m, "url", DecodeOptString, None) == Ok(v.url)
    requires Field(m, "startDate", DecodeOptString, None) == Ok(v.startDate)
    requires Field(m, "endDate", DecodeOptString, None) == Ok(v.endDate)
    requires Field(m, "summary", DecodeOptString, None) == Ok(v.summary)
    requires SeqField(m, "highlights", DecodeHighlight) == Ok(v.highlights)
    ensures DecodeVolunteer(Obj(m)) == Ok(v)
  {
  }

  lemma VolunteerRoundTrip(v: Volunteer)
    ensures DecodeVolunteer(EncodeVolunteer(v)) == Ok(v)
  {
    VolunteerReads1(v);
    VolunteerReads2(v);
    VolunteerFromFields(Emitted(VolunteerEntries(v)), v);
  }

  /** The decoder reads back `institution`, `url`, `degrees` as the encoder wrote them. */
  lemma EducationReads1(d: Education)
    ensures Field(Emitted(EducationEntries(d)), "institution", DecodeOptString, None) == Ok(d.institution)
    ensures Field(Emitted(EducationEntries(d)), "url", DecodeOptString, None) == Ok(d.url)
    ensures SeqField(Emitted(EducationEntries(d)), "degrees", DecodeString) == Ok(d.degrees)
  {
    var e := EducationEntries(d);
    EmittedField(e, "institution", DecodeOptString, None, d.institution);
    EmittedField(e, "url", DecodeOptString, None, d.url);
    EmittedSeqField(e, "degrees", d.degrees, EncodeString, DecodeString);
  }

  /** The decoder reads back `area`, `studyType`, `startDate` as the encoder wrote them. */
  lemma EducationReads2(d: Education)
    ensures Field(Emitted(EducationEntries(d)), "area", DecodeOptString, None) == Ok(d.area)
    ensures Field(Emitted(EducationEntries(d)), "studyType", DecodeOptString, None) == Ok(d.studyType)
    ensures Field(Emitted(EducationEntries(d)), "startDate", DecodeOptString, None) == Ok(d.startDate)
  {
    var e := EducationEntries(d);
    EmittedField(e, "area", DecodeOptString, None, d.area);
    EmittedField(e, "studyType", DecodeOptString, None, d.studyType);
    EmittedField(e, "startDate", DecodeOptString, None, d.startDate);
  }

  /** The decoder reads back `endDate`, `score`, `courses` as the encoder wrote them. */
  lemma EducationReads3(d: Education)
    ensures Field(Emitted(EducationEntries(d)), "endDate", DecodeOptString, None) == Ok(d.endDate)
    ensures Field(Emitted(EducationEntries(d)), "score", DecodeOptString, None) == Ok(d.score)
    ensures SeqField(Emitted(EducationEntries(d)), "courses", DecodeCourse) == Ok(d.courses)
  {
    var e := EducationEntries(d);
    EmittedField(e, "endDate", DecodeOptString, None, d.endDate);
    EmittedField(e, "score", DecodeOptString, None, d.score);
    EmittedSeqField(e, "courses", d.courses, EncodeCourse, DecodeCourse);
  }

  /** A `Education` is decoded from any object whose fields read as its fields. */
  lemma EducationFromFields(m: map<string, Json>, d: Education)
    requires Field(m, "institution", DecodeOptString, None) == Ok(d.institution)
    requires Field(m, "url", DecodeOptString, None) == Ok(d.url)
    requires SeqField(m, "degrees", DecodeString) == Ok(d.degrees)
    requires Field(m, "area", DecodeOptString, None) == Ok(d.area)
    requires Field(m, "studyType", DecodeOptString, None) == Ok(d.studyType)
    requires Field(m, "startDate", DecodeOptString, None) == Ok(d.startDate)
    requires Field(m, "endDate", DecodeOptString, None) == Ok(d.endDate)
    requires Field(m, "score", DecodeOptString, None) == Ok(d.score)
    requires SeqField(m, "courses", DecodeCourse) == Ok(d.courses)
    ensures DecodeEducation(Obj(m)) == Ok(d)
  {
  }

  lemma EducationRoundTrip(d: Education)
    ensures DecodeEducation(EncodeEducation(d)) == Ok(d)
  {
    EducationReads1(d);
    EducationReads2(d);
    EducationReads3(d);
    EducationFromFields(Emitted(EducationEntries(d)), d);
  }

  /** The decoder reads back `name`, `level`, `keywords` as the encoder wrote them. */
  lemma SkillReads(s: Skill)
    ensures Field(Emitted(SkillEntries(s)), "name", DecodeOptString, None) == Ok(s.name)
    ensures Field(Emitted(SkillEntries(s)), "level", DecodeOptString, None) == Ok(s.level)
    ensures SeqField(Emitted(SkillEntries(s)), "keywords", DecodeKeyword) == Ok(s.keywords)
  {
    var e := SkillEntries(s);
    EmittedField(e, "name", DecodeOptString, None, s.name);
    EmittedField(e, "level", DecodeOptString, None, s.level);
    EmittedSeqField(e, "keywords", s.keywords, EncodeKeyword, DecodeKeyword);
  }

  /** A `Skill` is decoded from any object whose fields read as its fields. */
  lemma SkillFromFields(m: map<string, Json>, s: Skill)
    requires Field(m, "name", DecodeOptString, None) == Ok(s.name)
    requires Field(m, "level", DecodeOptString, None) == Ok(s.level)
    requires SeqField(m, "keywords", DecodeKeyword) == Ok(s.keywords)
    ensures DecodeSkill(Obj(m)) == Ok(s)
  {
  }

  lemma SkillRoundTrip(s: Skill)
    ensures DecodeSkill(EncodeSkill(s)) == Ok(s)
  {
    SkillReads(s);
    SkillFromFields(Emitted(SkillEntries(s)), s);
  }

  /** The decoder reads back `name`, `reference` as the encoder wrote them. */
  lemma ReferenceReads(r: Reference)
    ensures Field(Emitted(ReferenceEntries(r)), "name", DecodeOptString, None) == Ok(r.name)
    ensures Field(Emitted(ReferenceEntries(r)), "reference", DecodeOptString, None) == Ok(r.reference)
  {
    var e := ReferenceEntries(r);
    EmittedField(e, "name", DecodeOptString, None, r.name);
    EmittedField(e, "reference", DecodeOptString, None, r.reference);
  }

  /** A `Reference` is decoded from any object whose fields read as its fields. */
  lemma ReferenceFromFields(m: map<string, Json>, r: Reference)
    requires Field(m, "name", DecodeOptString, None) == Ok(r.name)
    requires Field(m, "reference", DecodeOptString, None) == Ok(r.reference)
    ensures DecodeReference(Obj(m)) == Ok(r)
  {
  }

  lemma ReferenceRoundTrip(r: Reference)
    ensures DecodeReference(EncodeReference(r)) == Ok(r)
  {
    ReferenceReads(r);
    ReferenceFromFields(Emitted(ReferenceEntries(r)), r);
  }

  /** The decoder reads back `name`, `description`, `highlights` as the encoder wrote them. */
  lemma ProjectReads1(p: Project)
    ensures Field(Emitted(ProjectEntries(p)), "name", DecodeOptString, None) == Ok(p.name)
    ensures Field(Emitted(ProjectEntries(p)), "description", DecodeOptString, None) == Ok(p.description)
    ensures SeqField(Emitted(ProjectEntries(p)), "highlights", DecodeHighlight) == Ok(p.highlights)
  {
    var e := ProjectEntries(p);
    EmittedField(e, "name", DecodeOptString, None, p.name);
    EmittedField(e, "description", DecodeOptString, None, p.description);
    EmittedSeqField(e, "highlights", p.highlights, EncodeHighlight, DecodeHighlight);
  }

  /** The decoder reads back `duties`, `profits`, `features` as the encoder wrote them. */
  lemma ProjectReads2(p: Project)
    ensures SeqField(Emitted(ProjectEntries(p)), "duties", DecodeDuty) == Ok(p.duties)
    ensures SeqField(Emitted(ProjectEntries(p)), "profits", DecodeProfit) == Ok(p.profits)
    ensures SeqField(Emitted(ProjectEntries(p)), "features", DecodeFeature) == Ok(p.features)
  {
    var e := ProjectEntries(p);
    EmittedSeqField(e, "duties", p.duties, EncodeDuty, DecodeDuty);
    EmittedSeqField(e, "profits", p.profits, EncodeProfit, DecodeProfit);
    forall x | x in p.features ensures DecodeFeature(EncodeFeature(x)) == Ok(x) {
      FeatureRoundTrip(x);
    }
    EmittedSeqField(e, "features", p.features, EncodeFeature, DecodeFeature);
  }

  /** The decoder reads back `keywords`, `startDate`, `endDate` as the encoder wrote them. */
  lemma ProjectReads3(p: Project)
    ensures SeqField(Emitted(ProjectEntries(p)), "keywords", DecodeKeyword) == Ok(p.keywords)
    ensures Field(Emitted(ProjectEntries(p)), "startDate", DecodeOptString, None) == Ok(p.startDate)
    ensures Field(Emitted(ProjectEntries(p)), "endDate", DecodeOptString, None) == Ok(p.endDate)
  {
    var e := ProjectEntries(p);
    EmittedSeqField(e, "keywords", p.keywords, EncodeKeyword, DecodeKeyword);
    EmittedField(e, "startDate", DecodeOptString, None, p.startDate);
    EmittedField(e, "endDate", DecodeOptString, None, p.endDate);
  }

  /** The decoder reads back `url`, `roles`, `entity` as the encoder wrote them. */
  lemma ProjectReads4(p: Project)
    ensures Field(Emitted(ProjectEntries(p)), "url", DecodeOptString, None) == Ok(p.url)
    ensures SeqField(Emitted(ProjectEntries(p)), "roles", DecodeRole) == Ok(p.roles)
    ensures Field(Emitted(ProjectEntries(p)), "entity", DecodeOptString, None) == Ok(p.entity)
  {
    var e := ProjectEntries(p);
    EmittedField(e, "url", DecodeOptString, None, p.url);
    EmittedSeqField(e, "roles", p.roles, EncodeRole, DecodeRole);
    EmittedField(e, "entity", DecodeOptString, None, p.entity);
  }

  /** The decoder reads back `type` as the encoder wrote them. */
  lemma ProjectReads5(p: Project)
    ensures Field(Emitted(ProjectEntries(p)), "type", DecodeOptString, None) == Ok(p.kind)
  {
    var e := ProjectEntries(p);
    EmittedField(e, "type", DecodeOptString, None, p.kind);
  }

  /** A `Project` is decoded from any object whose fields read as its fields. */
  lemma ProjectFromFields(m: map<string, Json>, p: Project)
    requires Field(m, "name", DecodeOptString, None) == Ok(p.name)
    requires Field(m, "description", DecodeOptString, None) == Ok(p.description)
    requires SeqField(m, "highlights", DecodeHighlight) == Ok(p.highlights)
    requires SeqField(m, "duties", DecodeDuty) == Ok(p.duties)
    requires SeqField(m, "profits", DecodeProfit) == Ok(p.profits)
    requires SeqField(m, "features", DecodeFeature) == Ok(p.features)
    requires SeqField(m, "keywords", DecodeKeyword) == Ok(p.keywords)
    requires Field(m, "startDate", DecodeOptString, None) == Ok(p.startDate)
    requires Field(m, "endDate", DecodeOptString, None) == Ok(p.endDate)
    requires Field(m, "url", DecodeOptString, None) == Ok(p.url)
    requires SeqField(m, "roles", DecodeRole) == Ok(p.roles)
    requires Field(m, "entity", DecodeOptString, None) == Ok(p.entity)
    requires Field(m, "type", DecodeOptString, None) == Ok(p.kind)
    ensures DecodeProject(Obj(m)) == Ok(p)
  {
  }

  lemma ProjectRoundTrip(p: Project)
    ensures DecodeProject(EncodeProject(p)) == Ok(p)
  {
    ProjectReads1(p);
    ProjectReads2(p);
    ProjectReads3(p);
    ProjectReads4(p);
    ProjectReads5(p);
    ProjectFromFields(Emitted(ProjectEntries(p)), p);
  }

  /** The decoder reads back `basics` as the encoder wrote them. */
  lemma ResumeReads1(cfg: Config, r: Resume)
    ensures Field(Emitted(ResumeEntries(cfg, r)), "basics", DecodeOptBasics, None) == Ok(r.basics)
  {
    var e := ResumeEntries(cfg, r);
    if r.basics.Some? { NullableBasicsRoundTrip(r.basics.value); }
    EmittedField(e, "basics", DecodeOptBasics, None, r.basics);
  }

  /** The decoder reads back `work`, `volunteer` as the encoder wrote them. */
  lemma ResumeReads2(cfg: Config, r: Resume)
    ensures SeqField(Emitted(ResumeEntries(cfg, r)), "work", DecodeWork) == Ok(r.work)
    ensures SeqField(Emitted(ResumeEntries(cfg, r)), "volunteer", DecodeVolunteer) == Ok(r.volunteer)
  {
    var e := ResumeEntries(cfg, r);
    forall x | x in r.work ensures DecodeWork(EncodeWork(x)) == Ok(x) {
      WorkRoundTrip(x);
    }
    EmittedSeqField(e, "work", r.work, EncodeWork, DecodeWork);
    forall x | x in r.volunteer ensures DecodeVolunteer(EncodeVolunteer(x)) == Ok(x) {
      VolunteerRoundTrip(x);
    }
    EmittedSeqField(e, "volunteer", r.volunteer, EncodeVolunteer, DecodeVolunteer);
  }

  /** The decoder reads back `education`, `awards` as the encoder wrote them. */
  lemma ResumeReads3(cfg: Config, r: Resume)
    ensures SeqField(Emitted(ResumeEntries(cfg, r)), "education", DecodeEducation) == Ok(r.education)
    ensures SeqField(Emitted(ResumeEntries(cfg, r)), "awards", DecodeAward) == Ok(r.awards)
  {
    var e := ResumeEntries(cfg, r);
    forall x | x in r.education ensures DecodeEducation(EncodeEducation(x)) == Ok(x) {
      EducationRoundTrip(x);
    }
    EmittedSeqField(e, "education", r.education, EncodeEducation, DecodeEducation);
    forall x | x in r.awards ensures DecodeAward(EncodeAward(x)) == Ok(x) {
      AwardRoundTrip(x);
    }
    EmittedSeqField(e, "awards", r.awards, EncodeAward, DecodeAward);
  }

  /** The decoder reads back `certificates`, `publications` as the encoder wrote them. */
  lemma ResumeReads4(cfg: Config, r: Resume)
    ensures SeqField(Emitted(ResumeEntries(cfg, r)), "certificates", DecodeCertificate) == Ok(r.certificates)
    ensures SeqField(Emitted(ResumeEntries(cfg, r)), "publications", DecodePublication) == Ok(r.publications)
  {
    var e := ResumeEntries(cfg, r);
    forall x | x in r.certificates ensures DecodeCertificate(EncodeCertificate(x)) == Ok(x) {
      CertificateRoundTrip(x);
    }
    EmittedSeqField(e, "certificates", r.certificates, EncodeCertificate, DecodeCertificate);
    forall x | x in r.publications ensures DecodePublication(EncodePublication(x)) == Ok(x) {
      PublicationRoundTrip(x);
    }
    EmittedSeqField(e, "publications", r.publications, EncodePublication, DecodePublication);
  }

  /** The decoder reads back `skills`, `languages` as the encoder wrote them. */
  lemma ResumeReads5(cfg: Config, r: Resume)
    ensures SeqField(Emitted(ResumeEntries(cfg, r)), "skills", DecodeSkill) == Ok(r.skills)
    ensures SeqField(Emitted(ResumeEntries(cfg, r)), "languages", DecodeLanguage) == Ok(r.languages)
  {
    var e := ResumeEntries(cfg, r);
    forall x | x in r.skills ensures DecodeSkill(EncodeSkill(x)) == Ok(x) {
      SkillRoundTrip(x);
    }
    EmittedSeqField(e, "skills", r.skills, EncodeSkill, DecodeSkill);
    forall x | x in r.languages ensures DecodeLanguage(EncodeLanguage(x)) == Ok(x) {
      LanguageRoundTrip(x);
    }
    EmittedSeqField(e, "languages", r.languages, EncodeLanguage, DecodeLanguage);
  }

  /** The decoder reads back `interests`, `references` as the encoder wrote them. */
  lemma ResumeReads6(cfg: Config, r: Resume)
    ensures SeqField(Emitted(ResumeEntries(cfg, r)), "interests", DecodeInterest) == Ok(r.interests)
    ensures SeqField(Emitted(ResumeEntries(cfg, r)), "references", DecodeReference) == Ok(r.references)
  {
    var e := ResumeEntries(cfg, r);
    forall x | x in r.interests ensures DecodeInterest(EncodeInterest(x)) == Ok(x) {
      InterestRoundTrip(x);
    }
    EmittedSeqField(e, "interests", r.interests, EncodeInterest, DecodeInterest);
    forall x | x in r.references ensures DecodeReference(EncodeReference(x)) == Ok(x) {
      ReferenceRoundTrip(x);
    }
    EmittedSeqField(e, "references", r.references, EncodeReference, DecodeReference);
  }

  /** The decoder reads back `projects`, `sideProjects` as the encoder wrote them. */
  lemma ResumeReads7(cfg: Config, r: Resume)
    ensures SeqField(Emitted(ResumeEntries(cfg, r)), "projects", DecodeProject) == Ok(r.projects)
    ensures (cfg.sideProjects ==> SeqField(Emitted(ResumeEntries(cfg, r)), "sideProjects", DecodeProject) == Ok(r.sideProjects))
  {
    var e := ResumeEntries(cfg, r);
    forall x | x in r.projects ensures DecodeProject(EncodeProject(x)) == Ok(x) {
      ProjectRoundTrip(x);
    }
    EmittedSeqField(e, "projects", r.projects, EncodeProject, DecodeProject);
    if cfg.sideProjects {
      forall x | x in r.sideProjects ensures DecodeProject(EncodeProject(x)) == Ok(x) {
        ProjectRoundTrip(x);
      }
      EmittedSeqField(e, "sideProjects", r.sideProjects, EncodeProject, DecodeProject);
    }
  }

  /** The decoder reads back `meta` as the encoder wrote them. */
  lemma ResumeReads8(cfg: Config, r: Resume)
    ensures Field(Emitted(ResumeEntries(cfg, r)), "meta", DecodeOptMeta, None) == Ok(r.meta)
  {
    var e := ResumeEntries(cfg, r);
    if r.meta.Some? { NullableMetaRoundTrip(r.meta.value); }
    EmittedField(e, "meta", DecodeOptMeta, None, r.meta);
  }

  /** A `Resume` is decoded from any object whose fields read as its fields. */
  lemma ResumeFromFields(cfg: Config, m: map<string, Json>, r: Resume)
    requires InBuild(cfg, r)
    requires Field(m, "basics", DecodeOptBasics, None) == Ok(r.basics)
    requires SeqField(m, "work", DecodeWork) == Ok(r.work)
    requires SeqField(m, "volunteer", DecodeVolunteer) == Ok(r.volunteer)
    requires SeqField(m, "education", DecodeEducation) == Ok(r.education)
    requires SeqField(m, "awards", DecodeAward) == Ok(r.awards)
    requires SeqField(m, "certificates", DecodeCertificate) == Ok(r.certificates)
    requires SeqField(m, "publications", DecodePublication) == Ok(r.publications)
    requires SeqField(m, "skills", DecodeSkill) == Ok(r.skills)
    requires SeqField(m, "languages", DecodeLanguage) == Ok(r.languages)
    requires SeqField(m, "interests", DecodeInterest) == Ok(r.interests)
    requires SeqField(m, "references", DecodeReference) == Ok(r.references)
    requires SeqField(m, "projects", DecodeProject) == Ok(r.projects)
    requires (cfg.sideProjects ==> SeqField(m, "sideProjects", DecodeProject) == Ok(r.sideProjects))
    requires Field(m, "meta", DecodeOptMeta, None) == Ok(r.meta)
    ensures DecodeResume(cfg, Obj(m)) == Ok(r)
  {
  }

  lemma ResumeRoundTrip(cfg: Config, r: Resume)
    requires InBuild(cfg, r)
    ensures DecodeResume(cfg, EncodeResume(cfg, r)) == Ok(r)
  {
    ResumeReads1(cfg, r);
    ResumeReads2(cfg, r);
    ResumeReads3(cfg, r);
    ResumeReads4(cfg, r);
    ResumeReads5(cfg, r);
    ResumeReads6(cfg, r);
    ResumeReads7(cfg, r);
    ResumeReads8(cfg, r);
    ResumeFromFields(cfg, Emitted(ResumeEntries(cfg, r)), r);
  }
}

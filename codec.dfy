/**
 * The wire mapping fixed by the serde attributes of the record types: which key
 * each field is written under, which fields are left out when absent or empty,
 * and how each record is read back, with defaults for missing keys and unknown
 * keys ignored.
 *
 * A record whose fields carry `skip_serializing_if` is written through its
 * `...Entries` map, which holds every field under its wire key and `None` for a
 * field whose skip condition holds; a record without skip attributes is written
 * as a plain object with every key present.
 */
module Codec {
  import opened Wrappers
  import opened Json
  import opened Schema

  // ---------------------------------------------------------------------------
  // Newtypes: transparent, written as the bare string.

  function EncodeHighlight(h: Highlight): Json { Str(h.text) }
  function DecodeHighlight(j: Json): Decoded<Highlight> { var s :- DecodeString(j); Ok(Highlight(s)) }

  function EncodeCourse(c: Course): Json { Str(c.text) }
  function DecodeCourse(j: Json): Decoded<Course> { var s :- DecodeString(j); Ok(Course(s)) }

  function EncodeKeyword(k: Keyword): Json { Str(k.text) }
  function DecodeKeyword(j: Json): Decoded<Keyword> { var s :- DecodeString(j); Ok(Keyword(s)) }

  function EncodeDuty(d: Duty): Json { Str(d.text) }
  function DecodeDuty(j: Json): Decoded<Duty> { var s :- DecodeString(j); Ok(Duty(s)) }

  function EncodeProfit(p: Profit): Json { Str(p.text) }
  function DecodeProfit(j: Json): Decoded<Profit> { var s :- DecodeString(j); Ok(Profit(s)) }

  function EncodeRole(r: Role): Json { Str(r.text) }
  function DecodeRole(j: Json): Decoded<Role> { var s :- DecodeString(j); Ok(Role(s)) }

  function EncodeString(s: string): Json { Str(s) }

  // ---------------------------------------------------------------------------
  // Wire keys each record reads and writes

  const LocationKeys: set<string> := {"address", "postalCode", "city", "countryCode", "region"}
  const ProfileKeys: set<string> := {"network", "username", "url"}
  const BasicsKeys: set<string> :=
    {"name", "label", "image", "email", "phone", "url", "summary", "location", "profiles"}
  const PositionKeys: set<string> := {"title", "startDate", "endDate"}
  const WorkKeys: set<string> :=
    {"name", "location", "description", "positions", "position", "url", "startDate", "endDate", "highlights"}
  const VolunteerKeys: set<string> :=
    {"organization", "position", "url", "startDate", "endDate", "summary", "highlights"}
  const EducationKeys: set<string> :=
    {"institution", "url", "degrees", "area", "studyType", "startDate", "endDate", "score", "courses"}
  const AwardKeys: set<string> := {"title", "date", "awarder", "summary"}
  const CertificateKeys: set<string> := {"name", "date", "url", "issuer"}
  const PublicationKeys: set<string> := {"name", "publisher", "releaseDate", "url", "summary"}
  const SkillKeys: set<string> := {"name", "level", "keywords"}
  const LanguageKeys: set<string> := {"language", "fluency"}
  const InterestKeys: set<string> := {"name", "keywords"}
  const ReferenceKeys: set<string> := {"name", "reference"}
  const FeatureKeys: set<string> := {"name", "situation", "task", "action", "result"}
  const ProjectKeys: set<string> :=
    {"name", "description", "highlights", "duties", "profits", "features", "keywords",
     "startDate", "endDate", "url", "roles", "entity", "type"}
  const MetaKeys: set<string> := {"canonical", "version", "lastModified"}

  /** The root keys; `sideProjects` exists only with the `side-projects` feature. */
  function ResumeKeys(cfg: Config): set<string> {
    {"basics", "work", "volunteer", "education", "awards", "certificates", "publications",
     "skills", "languages", "interests", "references", "projects", "meta"}
    + (if cfg.sideProjects then {"sideProjects"} else {})
  }

  // ---------------------------------------------------------------------------
  // Location: every field skipped when absent.

  function LocationEntries(l: Location): map<string, Option<Json>> {
    map[
      "address" := SkipNone(l.address),
      "postalCode" := SkipNone(l.postalCode),
      "city" := SkipNone(l.city),
      "countryCode" := SkipNone(l.countryCode),
      "region" := SkipNone(l.region)]
  }

  function EncodeLocation(l: Location): (j: Json)
    ensures j.Obj? && j.fields.Keys <= LocationKeys
  {
    Obj(Emitted(LocationEntries(l)))
  }

  function DecodeLocation(j: Json): Decoded<Location> {
    if !j.Obj? then Mismatch(AStruct("Location"))
    else
      var m := j.fields;
      var address :- Field(m, "address", DecodeOptString, DefaultLocation.address);
      var postalCode :- Field(m, "postalCode", DecodeOptString, DefaultLocation.postalCode);
      var city :- Field(m, "city", DecodeOptString, DefaultLocation.city);
      var countryCode :- Field(m, "countryCode", DecodeOptString, DefaultLocation.countryCode);
      var region :- Field(m, "region", DecodeOptString, DefaultLocation.region);
      Ok(Location(address, postalCode, city, countryCode, region))
  }

  // ---------------------------------------------------------------------------
  // Profile: no skip attribute, so every key is always written.

  function EncodeProfile(p: Profile): (j: Json)
    ensures j.Obj? && j.fields.Keys == ProfileKeys
  {
    Obj(map[
      "network" := NullOr(p.network),
      "username" := NullOr(p.username),
      "url" := NullOr(p.url)])
  }

  function DecodeProfile(j: Json): Decoded<Profile> {
    if !j.Obj? then Mismatch(AStruct("Profile"))
    else
      var m := j.fields;
      var network :- Field(m, "network", DecodeOptString, DefaultProfile.network);
      var username :- Field(m, "username", DecodeOptString, DefaultProfile.username);
      var url :- Field(m, "url", DecodeOptString, DefaultProfile.url);
      Ok(Profile(network, username, url))
  }

  // ---------------------------------------------------------------------------
  // Basics: `location` has no skip attribute and is always written.

  function BasicsEntries(b: Basics): map<string, Option<Json>> {
    map[
      "name" := SkipNone(b.name),
      "label" := SkipNone(b.labelText),
      "image" := SkipNone(b.image),
      "email" := SkipNone(b.email),
      "phone" := SkipNone(b.phone),
      "url" := SkipNone(b.url),
      "summary" := SkipNone(b.summary),
      "location" := Some(EncodeLocation(b.location)),
      "profiles" := SkipEmpty(b.profiles, EncodeProfile)]
  }

  function EncodeBasics(b: Basics): (j: Json)
    ensures j.Obj? && "location" in j.fields && j.fields.Keys <= BasicsKeys
  {
    Obj(Emitted(BasicsEntries(b)))
  }

  function DecodeBasics(j: Json): Decoded<Basics> {
    if !j.Obj? then Mismatch(AStruct("Basics"))
    else
      var m := j.fields;
      var name :- Field(m, "name", DecodeOptString, DefaultBasics.name);
      var labelText :- Field(m, "label", DecodeOptString, DefaultBasics.labelText);
      var image :- Field(m, "image", DecodeOptString, DefaultBasics.image);
      var email :- Field(m, "email", DecodeOptString, DefaultBasics.email);
      var phone :- Field(m, "phone", DecodeOptString, DefaultBasics.phone);
      var url :- Field(m, "url", DecodeOptString, DefaultBasics.url);
      var summary :- Field(m, "summary", DecodeOptString, DefaultBasics.summary);
      var location :- Field(m, "location", DecodeLocation, DefaultBasics.location);
      var profiles :- SeqField(m, "profiles", DecodeProfile);
      Ok(Basics(name, labelText, image, email, phone, url, summary, location, profiles))
  }

  // ---------------------------------------------------------------------------
  // Position: `title` has no skip attribute and defaults to the empty string.

  function PositionEntries(p: Position): map<string, Option<Json>> {
    map[
      "title" := Some(Str(p.title)),
      "startDate" := SkipNone(p.startDate),
      "endDate" := SkipNone(p.endDate)]
  }

  function EncodePosition(p: Position): (j: Json)
    ensures j.Obj? && "title" in j.fields && j.fields.Keys <= PositionKeys
  {
    Obj(Emitted(PositionEntries(p)))
  }

  function DecodePosition(j: Json): Decoded<Position> {
    if !j.Obj? then Mismatch(AStruct("Position"))
    else
      var m := j.fields;
      var title :- Field(m, "title", DecodeString, DefaultPosition.title);
      var startDate :- Field(m, "startDate", DecodeOptString, DefaultPosition.startDate);
      var endDate :- Field(m, "endDate", DecodeOptString, DefaultPosition.endDate);
      Ok(Position(title, startDate, endDate))
  }

  // ---------------------------------------------------------------------------
  // Work: every field skipped when absent or empty.

  function WorkEntries(w: Work): map<string, Option<Json>> {
    map[
      "name" := SkipNone(w.name),
      "location" := SkipNone(w.location),
      "description" := SkipNone(w.description),
      "positions" := SkipEmpty(w.positions, EncodePosition),
      "position" := SkipNone(w.position),
      "url" := SkipNone(w.url),
      "startDate" := SkipNone(w.startDate),
      "endDate" := SkipNone(w.endDate),
      "highlights" := SkipEmpty(w.highlights, EncodeHighlight)]
  }

  function EncodeWork(w: Work): (j: Json)
    ensures j.Obj? && j.fields.Keys <= WorkKeys
  {
    Obj(Emitted(WorkEntries(w)))
  }

  function DecodeWork(j: Json): Decoded<Work> {
    if !j.Obj? then Mismatch(AStruct("Work"))
    else
      var m := j.fields;
      var name :- Field(m, "name", DecodeOptString, DefaultWork.name);
      var location :- Field(m, "location", DecodeOptString, DefaultWork.location);
      var description :- Field(m, "description", DecodeOptString, DefaultWork.description);
      var positions :- SeqField(m, "positions", DecodePosition);
      var position :- Field(m, "position", DecodeOptString, DefaultWork.position);
      var url :- Field(m, "url", DecodeOptString, DefaultWork.url);
      var startDate :- Field(m, "startDate", DecodeOptString, DefaultWork.startDate);
      var endDate :- Field(m, "endDate", DecodeOptString, DefaultWork.endDate);
      var highlights :- SeqField(m, "highlights", DecodeHighlight);
      Ok(Work(name, location, description, positions, position, url, startDate, endDate, highlights))
  }

  // ---------------------------------------------------------------------------
  // Volunteer: every field skipped when absent or empty.

  function VolunteerEntries(v: Volunteer): map<string, Option<Json>> {
    map[
      "organization" := SkipNone(v.organization),
      "position" := SkipNone(v.position),
      "url" := SkipNone(v.url),
      "startDate" := SkipNone(v.startDate),
      "endDate" := SkipNone(v.endDate),
      "summary" := SkipNone(v.summary),
      "highlights" := SkipEmpty(v.highlights, EncodeHighlight)]
  }

  function EncodeVolunteer(v: Volunteer): (j: Json)
    ensures j.Obj? && j.fields.Keys <= VolunteerKeys
  {
    Obj(Emitted(VolunteerEntries(v)))
  }

  function DecodeVolunteer(j: Json): Decoded<Volunteer> {
    if !j.Obj? then Mismatch(AStruct("Volunteer"))
    else
      var m := j.fields;
      var organization :- Field(m, "organization", DecodeOptString, DefaultVolunteer.organization);
      var position :- Field(m, "position", DecodeOptString, DefaultVolunteer.position);
      var url :- Field(m, "url", DecodeOptString, DefaultVolunteer.url);
      var startDate :- Field(m, "startDate", DecodeOptString, DefaultVolunteer.startDate);
      var endDate :- Field(m, "endDate", DecodeOptString, DefaultVolunteer.endDate);
      var summary :- Field(m, "summary", DecodeOptString, DefaultVolunteer.summary);
      var highlights :- SeqField(m, "highlights", DecodeHighlight);
      Ok(Volunteer(organization, position, url, startDate, endDate, summary, highlights))
  }

  // ---------------------------------------------------------------------------
  // Education: every field skipped when absent or empty.

  function EducationEntries(e: Education): map<string, Option<Json>> {
    map[
      "institution" := SkipNone(e.institution),
      "url" := SkipNone(e.url),
      "degrees" := SkipEmpty(e.degrees, EncodeString),
      "area" := SkipNone(e.area),
      "studyType" := SkipNone(e.studyType),
      "startDate" := SkipNone(e.startDate),
      "endDate" := SkipNone(e.endDate),
      "score" := SkipNone(e.score),
      "courses" := SkipEmpty(e.courses, EncodeCourse)]
  }

  function EncodeEducation(e: Education): (j: Json)
    ensures j.Obj? && j.fields.Keys <= EducationKeys
  {
    Obj(Emitted(EducationEntries(e)))
  }

  function DecodeEducation(j: Json): Decoded<Education> {
    if !j.Obj? then Mismatch(AStruct("Education"))
    else
      var m := j.fields;
      var institution :- Field(m, "institution", DecodeOptString, DefaultEducation.institution);
      var url :- Field(m, "url", DecodeOptString, DefaultEducation.url);
      var degrees :- SeqField(m, "degrees", DecodeString);
      var area :- Field(m, "area", DecodeOptString, DefaultEducation.area);
      var studyType :- Field(m, "studyType", DecodeOptString, DefaultEducation.studyType);
      var startDate :- Field(m, "startDate", DecodeOptString, DefaultEducation.startDate);
      var endDate :- Field(m, "endDate", DecodeOptString, DefaultEducation.endDate);
      var score :- Field(m, "score", DecodeOptString, DefaultEducation.score);
      var courses :- SeqField(m, "courses", DecodeCourse);
      Ok(Education(institution, url, degrees, area, studyType, startDate, endDate, score, courses))
  }

  // ---------------------------------------------------------------------------
  // Award, Certificate, Publication: no skip attribute, every key always written.

  function EncodeAward(a: Award): (j: Json)
    ensures j.Obj? && j.fields.Keys == AwardKeys
  {
    Obj(map[
      "title" := NullOr(a.title),
      "date" := NullOr(a.date),
      "awarder" := NullOr(a.awarder),
      "summary" := NullOr(a.summary)])
  }

  function DecodeAward(j: Json): Decoded<Award> {
    if !j.Obj? then Mismatch(AStruct("Award"))
    else
      var m := j.fields;
      var title :- Field(m, "title", DecodeOptString, DefaultAward.title);
      var date :- Field(m, "date", DecodeOptString, DefaultAward.date);
      var awarder :- Field(m, "awarder", DecodeOptString, DefaultAward.awarder);
      var summary :- Field(m, "summary", DecodeOptString, DefaultAward.summary);
      Ok(Award(title, date, awarder, summary))
  }

  function EncodeCertificate(c: Certificate): (j: Json)
    ensures j.Obj? && j.fields.Keys == CertificateKeys
  {
    Obj(map[
      "name" := NullOr(c.name),
      "date" := NullOr(c.date),
      "url" := NullOr(c.url),
      "issuer" := NullOr(c.issuer)])
  }

  function DecodeCertificate(j: Json): Decoded<Certificate> {
    if !j.Obj? then Mismatch(AStruct("Certificate"))
    else
      var m := j.fields;
      var name :- Field(m, "name", DecodeOptString, DefaultCertificate.name);
      var date :- Field(m, "date", DecodeOptString, DefaultCertificate.date);
      var url :- Field(m, "url", DecodeOptString, DefaultCertificate.url);
      var issuer :- Field(m, "issuer", DecodeOptString, DefaultCertificate.issuer);
      Ok(Certificate(name, date, url, issuer))
  }

  function EncodePublication(p: Publication): (j: Json)
    ensures j.Obj? && j.fields.Keys == PublicationKeys
  {
    Obj(map[
      "name" := NullOr(p.name),
      "publisher" := NullOr(p.publisher),
      "releaseDate" := NullOr(p.releaseDate),
      "url" := NullOr(p.url),
      "summary" := NullOr(p.summary)])
  }

  function DecodePublication(j: Json): Decoded<Publication> {
    if !j.Obj? then Mismatch(AStruct("Publication"))
    else
      var m := j.fields;
      var name :- Field(m, "name", DecodeOptString, DefaultPublication.name);
      var publisher :- Field(m, "publisher", DecodeOptString, DefaultPublication.publisher);
      var releaseDate :- Field(m, "releaseDate", DecodeOptString, DefaultPublication.releaseDate);
      var url :- Field(m, "url", DecodeOptString, DefaultPublication.url);
      var summary :- Field(m, "summary", DecodeOptString, DefaultPublication.summary);
      Ok(Publication(name, publisher, releaseDate, url, summary))
  }

  // ---------------------------------------------------------------------------
  // Skill: skipped when absent or empty.

  function SkillEntries(s: Skill): map<string, Option<Json>> {
    map[
      "name" := SkipNone(s.name),
      "level" := SkipNone(s.level),
      "keywords" := SkipEmpty(s.keywords, EncodeKeyword)]
  }

  function EncodeSkill(s: Skill): (j: Json)
    ensures j.Obj? && j.fields.Keys <= SkillKeys
  {
    Obj(Emitted(SkillEntries(s)))
  }

  function DecodeSkill(j: Json): Decoded<Skill> {
    if !j.Obj? then Mismatch(AStruct("Skill"))
    else
      var m := j.fields;
      var name :- Field(m, "name", DecodeOptString, DefaultSkill.name);
      var level :- Field(m, "level", DecodeOptString, DefaultSkill.level);
      var keywords :- SeqField(m, "keywords", DecodeKeyword);
      Ok(Skill(name, level, keywords))
  }

  // ---------------------------------------------------------------------------
  // Language, Interest: no skip attribute, every key always written.

  function EncodeLanguage(l: Language): (j: Json)
    ensures j.Obj? && j.fields.Keys == LanguageKeys
  {
    Obj(map[
      "language" := NullOr(l.language),
      "fluency" := NullOr(l.fluency)])
  }

  function DecodeLanguage(j: Json): Decoded<Language> {
    if !j.Obj? then Mismatch(AStruct("Language"))
    else
      var m := j.fields;
      var language :- Field(m, "language", DecodeOptString, DefaultLanguage.language);
      var fluency :- Field(m, "fluency", DecodeOptString, DefaultLanguage.fluency);
      Ok(Language(language, fluency))
  }

  function EncodeInterest(i: Interest): (j: Json)
    ensures j.Obj? && j.fields.Keys == InterestKeys
  {
    Obj(map[
      "name" := NullOr(i.name),
      "keywords" := EncodeSeq(i.keywords, EncodeKeyword)])
  }

  function DecodeInterest(j: Json): Decoded<Interest> {
    if !j.Obj? then Mismatch(AStruct("Interest"))
    else
      var m := j.fields;
      var name :- Field(m, "name", DecodeOptString, DefaultInterest.name);
      var keywords :- SeqField(m, "keywords", DecodeKeyword);
      Ok(Interest(name, keywords))
  }

  // ---------------------------------------------------------------------------
  // Reference: skipped when absent.

  function ReferenceEntries(r: Reference): map<string, Option<Json>> {
    map[
      "name" := SkipNone(r.name),
      "reference" := SkipNone(r.reference)]
  }

  function EncodeReference(r: Reference): (j: Json)
    ensures j.Obj? && j.fields.Keys <= ReferenceKeys
  {
    Obj(Emitted(ReferenceEntries(r)))
  }

  function DecodeReference(j: Json): Decoded<Reference> {
    if !j.Obj? then Mismatch(AStruct("Reference"))
    else
      var m := j.fields;
      var name :- Field(m, "name", DecodeOptString, DefaultReference.name);
      var reference :- Field(m, "reference", DecodeOptString, DefaultReference.reference);
      Ok(Reference(name, reference))
  }

  // ---------------------------------------------------------------------------
  // Feature: no default, so every key is required on decode.

  function EncodeFeature(f: Feature): (j: Json)
    ensures j.Obj? && j.fields.Keys == FeatureKeys
  {
    Obj(map[
      "name" := Str(f.name),
      "situation" := Str(f.situation),
      "task" := Str(f.task),
      "action" := Str(f.action),
      "result" := Str(f.result)])
  }

  function DecodeFeature(j: Json): Decoded<Feature> {
    if !j.Obj? then Mismatch(AStruct("Feature"))
    else
      var m := j.fields;
      var name :- RequiredField(m, "name", DecodeString);
      var situation :- RequiredField(m, "situation", DecodeString);
      var task :- RequiredField(m, "task", DecodeString);
      var action :- RequiredField(m, "action", DecodeString);
      var result :- RequiredField(m, "result", DecodeString);
      Ok(Feature(name, situation, task, action, result))
  }

  // ---------------------------------------------------------------------------
  // Project: the first seven fields have no skip attribute and are always
  // written; the rest are skipped when absent or empty.

  function ProjectEntries(p: Project): map<string, Option<Json>> {
    map[
      "name" := Some(NullOr(p.name)),
      "description" := Some(NullOr(p.description)),
      "highlights" := Some(EncodeSeq(p.highlights, EncodeHighlight)),
      "duties" := Some(EncodeSeq(p.duties, EncodeDuty)),
      "profits" := Some(EncodeSeq(p.profits, EncodeProfit)),
      "features" := Some(EncodeSeq(p.features, EncodeFeature)),
      "keywords" := Some(EncodeSeq(p.keywords, EncodeKeyword)),
      "startDate" := SkipNone(p.startDate),
      "endDate" := SkipNone(p.endDate),
      "url" := SkipNone(p.url),
      "roles" := SkipEmpty(p.roles, EncodeRole),
      "entity" := SkipNone(p.entity),
      "type" := SkipNone(p.kind)]
  }

  function EncodeProject(p: Project): (j: Json)
    ensures j.Obj? && j.fields.Keys <= ProjectKeys
  {
    Obj(Emitted(ProjectEntries(p)))
  }

  function DecodeProject(j: Json): Decoded<Project> {
    if !j.Obj? then Mismatch(AStruct("Project"))
    else
      var m := j.fields;
      var name :- Field(m, "name", DecodeOptString, DefaultProject.name);
      var description :- Field(m, "description", DecodeOptString, DefaultProject.description);
      var highlights :- SeqField(m, "highlights", DecodeHighlight);
      var duties :- SeqField(m, "duties", DecodeDuty);
      var profits :- SeqField(m, "profits", DecodeProfit);
      var features :- SeqField(m, "features", DecodeFeature);
      var keywords :- SeqField(m, "keywords", DecodeKeyword);
      var startDate :- Field(m, "startDate", DecodeOptString, DefaultProject.startDate);
      var endDate :- Field(m, "endDate", DecodeOptString, DefaultProject.endDate);
      var url :- Field(m, "url", DecodeOptString, DefaultProject.url);
      var roles :- SeqField(m, "roles", DecodeRole);
      var entity :- Field(m, "entity", DecodeOptString, DefaultProject.entity);
      var kind :- Field(m, "type", DecodeOptString, DefaultProject.kind);
      Ok(Project(name, description, highlights, duties, profits, features, keywords,
                 startDate, endDate, url, roles, entity, kind))
  }

  // ---------------------------------------------------------------------------
  // Meta: no skip attribute, every key always written.

  function EncodeMeta(m: Meta): (j: Json)
    ensures j.Obj? && j.fields.Keys == MetaKeys
  {
    Obj(map[
      "canonical" := NullOr(m.canonical),
      "version" := NullOr(m.version),
      "lastModified" := NullOr(m.lastModified)])
  }

  function DecodeMeta(j: Json): Decoded<Meta> {
    if !j.Obj? then Mismatch(AStruct("Meta"))
    else
      var m := j.fields;
      var canonical :- Field(m, "canonical", DecodeOptString, DefaultMeta.canonical);
      var version :- Field(m, "version", DecodeOptString, DefaultMeta.version);
      var lastModified :- Field(m, "lastModified", DecodeOptString, DefaultMeta.lastModified);
      Ok(Meta(canonical, version, lastModified))
  }

  // ---------------------------------------------------------------------------
  // Resume: every field skipped when absent or empty; `sideProjects` is read and
  // written only in a build with the `side-projects` feature.

  function DecodeOptBasics(j: Json): Decoded<Option<Basics>> { DecodeNullable(j, DecodeBasics) }
  function DecodeOptMeta(j: Json): Decoded<Option<Meta>> { DecodeNullable(j, DecodeMeta) }

  function ResumeEntries(cfg: Config, r: Resume): map<string, Option<Json>> {
    map[
      "basics" := SkipNoneWith(r.basics, EncodeBasics),
      "work" := SkipEmpty(r.work, EncodeWork),
      "volunteer" := SkipEmpty(r.volunteer, EncodeVolunteer),
      "education" := SkipEmpty(r.education, EncodeEducation),
      "awards" := SkipEmpty(r.awards, EncodeAward),
      "certificates" := SkipEmpty(r.certificates, EncodeCertificate),
      "publications" := SkipEmpty(r.publications, EncodePublication),
      "skills" := SkipEmpty(r.skills, EncodeSkill),
      "languages" := SkipEmpty(r.languages, EncodeLanguage),
      "interests" := SkipEmpty(r.interests, EncodeInterest),
      "references" := SkipEmpty(r.references, EncodeReference),
      "projects" := SkipEmpty(r.projects, EncodeProject),
      "sideProjects" := if cfg.sideProjects then SkipEmpty(r.sideProjects, EncodeProject) else None,
      "meta" := SkipNoneWith(r.meta, EncodeMeta)]
  }

  function EncodeResume(cfg: Config, r: Resume): (j: Json)
    ensures j.Obj? && j.fields.Keys <= ResumeKeys(cfg)
  {
    Obj(Emitted(ResumeEntries(cfg, r)))
  }

  function DecodeResume(cfg: Config, j: Json): Decoded<Resume> {
    if !j.Obj? then Mismatch(AStruct("Resume"))
    else
      var m := j.fields;
      var basics :- Field(m, "basics", DecodeOptBasics, DefaultResume.basics);
      var work :- SeqField(m, "work", DecodeWork);
      var volunteer :- SeqField(m, "volunteer", DecodeVolunteer);
      var education :- SeqField(m, "education", DecodeEducation);
      var awards :- SeqField(m, "awards", DecodeAward);
      var certificates :- SeqField(m, "certificates", DecodeCertificate);
      var publications :- SeqField(m, "publications", DecodePublication);
      var skills :- SeqField(m, "skills", DecodeSkill);
      var languages :- SeqField(m, "languages", DecodeLanguage);
      var interests :- SeqField(m, "interests", DecodeInterest);
      var references :- SeqField(m, "references", DecodeReference);
      var projects :- SeqField(m, "projects", DecodeProject);
      var sideProjects :- if cfg.sideProjects then SeqField(m, "sideProjects", DecodeProject) else Ok([]);
      var meta :- Field(m, "meta", DecodeOptMeta, DefaultResume.meta);
      Ok(Resume(basics, work, volunteer, education, awards, certificates, publications,
                skills, languages, interests, references, projects, sideProjects, meta))
  }
}

/**
 * The wire rules of the schema, stated as properties of the encoder and the
 * decoder: absent values are omitted exactly where a skip attribute says so,
 * missing keys take the record's default, unknown keys are ignored, renamed
 * fields travel under their camelCase (or `type`) key, a `Feature` needs all
 * five of its keys, and `sideProjects` exists only with the `side-projects`
 * feature.
 */
module WireLaws {
  import opened Wrappers
  import opened Json
  import opened Schema
  import opened Codec
  import opened KeyLaws

  // ---------------------------------------------------------------------------
  // Omission on encode

  /** A default résumé has every root field absent or empty, so it encodes as `{}`. */
  lemma DefaultResumeEncodesEmpty(cfg: Config)
    ensures EncodeResume(cfg, DefaultResume) == Obj(map[])
  {
    assert Emitted(ResumeEntries(cfg, DefaultResume)) == map[];
  }

  /** Records whose every field is skipped when absent encode their default as `{}`. */
  lemma DefaultsEncodeEmpty()
    ensures EncodeLocation(DefaultLocation) == Obj(map[])
    ensures EncodeWork(DefaultWork) == Obj(map[])
    ensures EncodeVolunteer(DefaultVolunteer) == Obj(map[])
    ensures EncodeEducation(DefaultEducation) == Obj(map[])
    ensures EncodeSkill(DefaultSkill) == Obj(map[])
    ensures EncodeReference(DefaultReference) == Obj(map[])
  {
    assert Emitted(LocationEntries(DefaultLocation)) == map[];
    assert Emitted(WorkEntries(DefaultWork)) == map[];
    assert Emitted(VolunteerEntries(DefaultVolunteer)) == map[];
    assert Emitted(EducationEntries(DefaultEducation)) == map[];
    assert Emitted(SkillEntries(DefaultSkill)) == map[];
    assert Emitted(ReferenceEntries(DefaultReference)) == map[];
  }

  /** `Basics.location` has no skip attribute: even a default `Basics` carries it. */
  lemma DefaultBasicsEncodesLocation()
    ensures EncodeBasics(DefaultBasics) == Obj(map["location" := Obj(map[])])
  {
    assert EncodeLocation(DefaultLocation) == Obj(map[]) by {
      assert Emitted(LocationEntries(DefaultLocation)) == map[];
    }
    assert Emitted(BasicsEntries(DefaultBasics)) == map["location" := Obj(map[])];
  }

  /**
   * A `Project` emits `name` and `description` (as `null` when absent) and its
   * five lists (even when empty) whatever their values.
   */
  lemma ProjectAlwaysEmits(p: Project)
    ensures var f := EncodeProject(p).fields;
      "name" in f && f["name"] == NullOr(p.name) &&
      "description" in f && f["description"] == NullOr(p.description) &&
      "highlights" in f && "duties" in f && "profits" in f && "features" in f && "keywords" in f
  {
    ProjectEmitsText(p);
    ProjectEmitsLists(p);
  }

  lemma ProjectEmitsText(p: Project)
    ensures var f := Emitted(ProjectEntries(p));
      "name" in f && f["name"] == NullOr(p.name) &&
      "description" in f && f["description"] == NullOr(p.description)
  {
    EmittedEntry(ProjectEntries(p), "name");
    EmittedEntry(ProjectEntries(p), "description");
  }

  lemma ProjectEmitsLists(p: Project)
    ensures var f := Emitted(ProjectEntries(p));
      "highlights" in f && "duties" in f && "profits" in f && "features" in f && "keywords" in f
  {
    var e := ProjectEntries(p);
    EmittedEntry(e, "highlights");
    EmittedEntry(e, "duties");
    EmittedEntry(e, "profits");
    EmittedEntry(e, "features");
    EmittedEntry(e, "keywords");
  }

  // ---------------------------------------------------------------------------
  // Defaults on decode

  /** An empty object decodes to the record's default, for every defaulted record. */
  lemma EmptyObjectDecodesToDefault(cfg: Config)
    ensures DecodeResume(cfg, Obj(map[])) == Ok(DefaultResume)
    ensures DecodeBasics(Obj(map[])) == Ok(DefaultBasics)
    ensures DecodeLocation(Obj(map[])) == Ok(DefaultLocation)
    ensures DecodeProfile(Obj(map[])) == Ok(DefaultProfile)
    ensures DecodeWork(Obj(map[])) == Ok(DefaultWork)
    ensures DecodePosition(Obj(map[])) == Ok(DefaultPosition)
  {
  }

  lemma EmptyObjectDecodesToDefault2()
    ensures DecodeVolunteer(Obj(map[])) == Ok(DefaultVolunteer)
    ensures DecodeEducation(Obj(map[])) == Ok(DefaultEducation)
    ensures DecodeAward(Obj(map[])) == Ok(DefaultAward)
    ensures DecodeCertificate(Obj(map[])) == Ok(DefaultCertificate)
    ensures DecodePublication(Obj(map[])) == Ok(DefaultPublication)
    ensures DecodeSkill(Obj(map[])) == Ok(DefaultSkill)
  {
  }

  lemma EmptyObjectDecodesToDefault3()
    ensures DecodeLanguage(Obj(map[])) == Ok(DefaultLanguage)
    ensures DecodeInterest(Obj(map[])) == Ok(DefaultInterest)
    ensures DecodeReference(Obj(map[])) == Ok(DefaultReference)
    ensures DecodeProject(Obj(map[])) == Ok(DefaultProject)
    ensures DecodeMeta(Obj(map[])) == Ok(DefaultMeta)
  {
  }

  /**
   * A position without `title` gets the empty title; one whose `title` is not a
   * string, `null` included, is rejected at that key.
   */
  lemma PositionTitle(m: map<string, Json>, j: Json)
    ensures "title" !in m && DecodePosition(Obj(m)).Ok? ==> DecodePosition(Obj(m)).value.title == ""
    ensures DecodePosition(Obj(m["title" := Null])) == Err(DecodeError([Key("title")], InvalidType(AString)))
    ensures !j.Str? ==> DecodePosition(Obj(m["title" := j])) == Err(DecodeError([Key("title")], InvalidType(AString)))
  {
    assert [Key("title")] + [] == [Key("title")];
  }

  /**
   * `null` under an optional text field reads as `None`, so the object decodes
   * exactly as if the key were missing; and in this model anything but an
   * object is not a record (serde's array form of a record is left out).
   */
  lemma NullReadsAsNone(cfg: Config, m: map<string, Json>, j: Json)
    ensures DecodeWork(Obj(m["name" := Null])) == DecodeWork(Obj(m - {"name"}))
    ensures !j.Obj? ==> DecodeResume(cfg, j) == Err(DecodeError([], InvalidType(AStruct("Resume"))))
  {
    var m1, m2 := m["name" := Null], m - {"name"};
    var K := WorkKeys - {"name"};
    assert Agree(m1, m2, K);
    FieldAgree(m1, m2, K, "location", DecodeOptString, DefaultWork.location);
    FieldAgree(m1, m2, K, "description", DecodeOptString, DefaultWork.description);
    SeqFieldAgree(m1, m2, K, "positions", DecodePosition);
    FieldAgree(m1, m2, K, "position", DecodeOptString, DefaultWork.position);
    FieldAgree(m1, m2, K, "url", DecodeOptString, DefaultWork.url);
    FieldAgree(m1, m2, K, "startDate", DecodeOptString, DefaultWork.startDate);
    FieldAgree(m1, m2, K, "endDate", DecodeOptString, DefaultWork.endDate);
    SeqFieldAgree(m1, m2, K, "highlights", DecodeHighlight);
  }

  /** An absent `basics` may also be written as `null`: the résumé decodes as if the key were missing. */
  lemma NullBasicsReadsAsNone(cfg: Config, m: map<string, Json>)
    ensures DecodeResume(cfg, Obj(m["basics" := Null])) == DecodeResume(cfg, Obj(m - {"basics"}))
  {
    var m1, m2 := m["basics" := Null], m - {"basics"};
    var K := ResumeKeys(cfg) - {"basics"};
    assert Agree(m1, m2, K);
    ResumeFieldsAgree(cfg, m1, m2, K);
    FieldAgree(m1, m2, K, "meta", DecodeOptMeta, DefaultResume.meta);
  }

  /** An absent `meta` may also be written as `null`: the résumé decodes as if the key were missing. */
  lemma NullMetaReadsAsNone(cfg: Config, m: map<string, Json>)
    ensures DecodeResume(cfg, Obj(m["meta" := Null])) == DecodeResume(cfg, Obj(m - {"meta"}))
  {
    var m1, m2 := m["meta" := Null], m - {"meta"};
    var K := ResumeKeys(cfg) - {"meta"};
    assert Agree(m1, m2, K);
    FieldAgree(m1, m2, K, "basics", DecodeOptBasics, DefaultResume.basics);
    ResumeFieldsAgree(cfg, m1, m2, K);
  }

  /** The section lists of a résumé read alike from two objects that agree on their keys. */
  lemma ResumeFieldsAgree(cfg: Config, m1: map<string, Json>, m2: map<string, Json>, K: set<string>)
    requires Agree(m1, m2, K)
    requires ResumeKeys(cfg) - {"basics", "meta"} <= K
    ensures SeqField(m1, "work", DecodeWork) == SeqField(m2, "work", DecodeWork)
    ensures SeqField(m1, "volunteer", DecodeVolunteer) == SeqField(m2, "volunteer", DecodeVolunteer)
    ensures SeqField(m1, "education", DecodeEducation) == SeqField(m2, "education", DecodeEducation)
    ensures SeqField(m1, "awards", DecodeAward) == SeqField(m2, "awards", DecodeAward)
    ensures SeqField(m1, "certificates", DecodeCertificate) == SeqField(m2, "certificates", DecodeCertificate)
    ensures SeqField(m1, "publications", DecodePublication) == SeqField(m2, "publications", DecodePublication)
    ensures SeqField(m1, "skills", DecodeSkill) == SeqField(m2, "skills", DecodeSkill)
    ensures SeqField(m1, "languages", DecodeLanguage) == SeqField(m2, "languages", DecodeLanguage)
    ensures SeqField(m1, "interests", DecodeInterest) == SeqField(m2, "interests", DecodeInterest)
    ensures SeqField(m1, "references", DecodeReference) == SeqField(m2, "references", DecodeReference)
    ensures SeqField(m1, "projects", DecodeProject) == SeqField(m2, "projects", DecodeProject)
    ensures cfg.sideProjects ==> SeqField(m1, "sideProjects", DecodeProject) == SeqField(m2, "sideProjects", DecodeProject)
  {
    SeqFieldAgree(m1, m2, K, "work", DecodeWork);
    SeqFieldAgree(m1, m2, K, "volunteer", DecodeVolunteer);
    SeqFieldAgree(m1, m2, K, "education", DecodeEducation);
    SeqFieldAgree(m1, m2, K, "awards", DecodeAward);
    SeqFieldAgree(m1, m2, K, "certificates", DecodeCertificate);
    SeqFieldAgree(m1, m2, K, "publications", DecodePublication);
    SeqFieldAgree(m1, m2, K, "skills", DecodeSkill);
    SeqFieldAgree(m1, m2, K, "languages", DecodeLanguage);
    SeqFieldAgree(m1, m2, K, "interests", DecodeInterest);
    SeqFieldAgree(m1, m2, K, "references", DecodeReference);
    SeqFieldAgree(m1, m2, K, "projects", DecodeProject);
    if cfg.sideProjects {
      SeqFieldAgree(m1, m2, K, "sideProjects", DecodeProject);
    }
  }

  /**
   * A `Vec` field rejects `null`: the decode always fails, and when the rest of
   * the object is fine the error names the field.
   */
  lemma NullListRejected(m: map<string, Json>)
    ensures DecodeWork(Obj(m["positions" := Null])).Err?
    ensures DecodeWork(Obj(m - {"positions"})).Ok? ==>
      DecodeWork(Obj(m["positions" := Null])) == Err(DecodeError([Key("positions")], InvalidType(ASequence)))
  {
    var m1, m2 := m["positions" := Null], m - {"positions"};
    var K := WorkKeys - {"positions"};
    assert Agree(m1, m2, K);
    FieldAgree(m1, m2, K, "name", DecodeOptString, DefaultWork.name);
    FieldAgree(m1, m2, K, "location", DecodeOptString, DefaultWork.location);
    FieldAgree(m1, m2, K, "description", DecodeOptString, DefaultWork.description);
    assert [Key("positions")] + [] == [Key("positions")];
  }

  /**
   * A nested record field rejects `null`: the decode always fails, and when the
   * rest of the object is fine the error names the field.
   */
  lemma NullRecordRejected(m: map<string, Json>)
    ensures DecodeBasics(Obj(m["location" := Null])).Err?
    ensures DecodeBasics(Obj(m - {"location"})).Ok? ==>
      DecodeBasics(Obj(m["location" := Null])) == Err(DecodeError([Key("location")], InvalidType(AStruct("Location"))))
  {
    var m1, m2 := m["location" := Null], m - {"location"};
    var K := BasicsKeys - {"location"};
    assert Agree(m1, m2, K);
    FieldAgree(m1, m2, K, "name", DecodeOptString, DefaultBasics.name);
    FieldAgree(m1, m2, K, "label", DecodeOptString, DefaultBasics.labelText);
    FieldAgree(m1, m2, K, "image", DecodeOptString, DefaultBasics.image);
    FieldAgree(m1, m2, K, "email", DecodeOptString, DefaultBasics.email);
    FieldAgree(m1, m2, K, "phone", DecodeOptString, DefaultBasics.phone);
    FieldAgree(m1, m2, K, "url", DecodeOptString, DefaultBasics.url);
    FieldAgree(m1, m2, K, "summary", DecodeOptString, DefaultBasics.summary);
    assert [Key("location")] + [] == [Key("location")];
  }

  // ---------------------------------------------------------------------------
  // Feature: no default, so every key is required

  predicate HasStringAt(m: map<string, Json>, key: string) {
    key in m && m[key].Str?
  }

  /** A feature decodes exactly when all five keys are present and hold strings. */
  lemma FeatureDecodesIff(m: map<string, Json>)
    ensures DecodeFeature(Obj(m)).Ok? <==>
      HasStringAt(m, "name") && HasStringAt(m, "situation") && HasStringAt(m, "task") &&
      HasStringAt(m, "action") && HasStringAt(m, "result")
    ensures DecodeFeature(Obj(m)).Ok? ==>
      DecodeFeature(Obj(m)).value ==
        Feature(m["name"].s, m["situation"].s, m["task"].s, m["action"].s, m["result"].s)
  {
  }

  /** A missing key fails the decode; when it is the only fault, the error names it. */
  lemma FeatureMissingKey(m: map<string, Json>, k: string)
    requires k in FeatureKeys && k !in m
    ensures DecodeFeature(Obj(m)).Err?
    ensures (forall key :: key in FeatureKeys && key != k ==> HasStringAt(m, key)) ==>
      DecodeFeature(Obj(m)) == Err(DecodeError([], MissingField(k)))
  {
    FeatureDecodesIff(m);
  }

  // ---------------------------------------------------------------------------
  // Unknown keys and the side-projects feature

  /** A key outside the résumé's own keys changes nothing about its decode. */
  lemma UnknownKeyIgnored(cfg: Config, m: map<string, Json>, k: string, v: Json)
    requires k !in ResumeKeys(cfg)
    ensures DecodeResume(cfg, Obj(m[k := v])) == DecodeResume(cfg, Obj(m))
  {
    UpdateAgree(m, k, v, ResumeKeys(cfg));
    ResumeReadsOnlyKeys(cfg, m[k := v], m);
  }

  /**
   * Without the feature, `sideProjects` is neither written nor read; with it, a
   * non-empty list is written under that key.
   */
  lemma SideProjectsGated(r: Resume, m: map<string, Json>, v: Json)
    ensures "sideProjects" !in EncodeResume(Config(false), r).fields
    ensures DecodeResume(Config(false), Obj(m["sideProjects" := v])) == DecodeResume(Config(false), Obj(m))
    ensures r.sideProjects != [] ==>
      "sideProjects" in EncodeResume(Config(true), r).fields &&
      EncodeResume(Config(true), r).fields["sideProjects"] == EncodeSeq(r.sideProjects, EncodeProject)
  {
    UnknownKeyIgnored(Config(false), m, "sideProjects", v);
    if r.sideProjects != [] {
      EmittedEntry(ResumeEntries(Config(true), r), "sideProjects");
    }
  }

  // ---------------------------------------------------------------------------
  // Renamed fields and transparent wrappers

  /**
   * Work dates travel as `startDate` and `endDate`, in both directions, and the
   * snake-case `start_date` and `end_date` are unknown keys.
   */
  lemma WorkDateKeys(w: Work, m: map<string, Json>, v: Json)
    ensures w.startDate.Some? ==>
      "startDate" in EncodeWork(w).fields && EncodeWork(w).fields["startDate"] == Str(w.startDate.value)
    ensures w.endDate.Some? ==>
      "endDate" in EncodeWork(w).fields && EncodeWork(w).fields["endDate"] == Str(w.endDate.value)
    ensures DecodeWork(Obj(m["start_date" := v])) == DecodeWork(Obj(m))
    ensures DecodeWork(Obj(m["end_date" := v])) == DecodeWork(Obj(m))
  {
    if w.startDate.Some? {
      EmittedEntry(WorkEntries(w), "startDate");
    }
    if w.endDate.Some? {
      EmittedEntry(WorkEntries(w), "endDate");
    }
    UpdateAgree(m, "start_date", v, WorkKeys);
    WorkReadsOnlyKeys(m["start_date" := v], m);
    UpdateAgree(m, "end_date", v, WorkKeys);
    WorkReadsOnlyKeys(m["end_date" := v], m);
  }

  /** A work entry reads its dates from the `startDate` and `endDate` keys. */
  lemma WorkDateKeysRead(m: map<string, Json>)
    ensures DecodeWork(Obj(m)).Ok? && "startDate" in m && m["startDate"].Str? ==>
      DecodeWork(Obj(m)).value.startDate == Some(m["startDate"].s)
    ensures DecodeWork(Obj(m)).Ok? && "endDate" in m && m["endDate"].Str? ==>
      DecodeWork(Obj(m)).value.endDate == Some(m["endDate"].s)
  {
  }

  /** Location codes travel as `postalCode` and `countryCode`. */
  lemma LocationCodeKeys(l: Location, s: string)
    ensures l.postalCode.Some? ==> EncodeLocation(l).fields["postalCode"] == Str(l.postalCode.value)
    ensures l.countryCode.Some? ==> EncodeLocation(l).fields["countryCode"] == Str(l.countryCode.value)
    ensures DecodeLocation(Obj(map["postalCode" := Str(s), "countryCode" := Str(s)])) ==
      Ok(DefaultLocation.(postalCode := Some(s), countryCode := Some(s)))
    ensures DecodeLocation(Obj(map["postal_code" := Str(s), "country_code" := Str(s)])) == Ok(DefaultLocation)
  {
    if l.postalCode.Some? {
      EmittedEntry(LocationEntries(l), "postalCode");
    }
    if l.countryCode.Some? {
      EmittedEntry(LocationEntries(l), "countryCode");
    }
  }

  /** `study_type` travels as `studyType`. */
  lemma EducationStudyTypeKey(d: Education, s: string)
    ensures d.studyType.Some? ==> EncodeEducation(d).fields["studyType"] == Str(d.studyType.value)
    ensures DecodeEducation(Obj(map["studyType" := Str(s)])) == Ok(DefaultEducation.(studyType := Some(s)))
    ensures DecodeEducation(Obj(map["study_type" := Str(s)])) == Ok(DefaultEducation)
  {
    if d.studyType.Some? {
      EmittedEntry(EducationEntries(d), "studyType");
    }
  }

  /** `release_date` and `last_modified` travel as `releaseDate` and `lastModified`. */
  lemma CamelCaseDateKeys(p: Publication, m: Meta, s: string)
    ensures EncodePublication(p).fields["releaseDate"] == NullOr(p.releaseDate)
    ensures "release_date" !in EncodePublication(p).fields
    ensures EncodeMeta(m).fields["lastModified"] == NullOr(m.lastModified)
    ensures "last_modified" !in EncodeMeta(m).fields
    ensures DecodePublication(Obj(map["releaseDate" := Str(s)])) ==
      Ok(DefaultPublication.(releaseDate := Some(s)))
    ensures DecodeMeta(Obj(map["lastModified" := Str(s)])) == Ok(DefaultMeta.(lastModified := Some(s)))
    ensures DecodeMeta(Obj(map["last_modified" := Str(s)])) == Ok(DefaultMeta)
  {
  }

  /** A project's kind travels under the key `type`, and only when present. */
  lemma ProjectTypeKey(p: Project)
    ensures p.kind.Some? ==> EncodeProject(p).fields["type"] == Str(p.kind.value)
    ensures p.kind.None? ==> "type" !in EncodeProject(p).fields
  {
    if p.kind.Some? {
      EmittedEntry(ProjectEntries(p), "type");
    } else {
      EmittedEntry(ProjectEntries(p), "type");
    }
  }

  lemma ProjectTypeKeyRead(s: string)
    ensures DecodeProject(Obj(map["type" := Str(s)])) == Ok(DefaultProject.(kind := Some(s)))
  {
  }

  /**
   * A wrapper is its string on the wire and in its `Display`; a list of them is
   * a JSON array of strings, and anything but a string is refused.
   */
  lemma WrappersAreTransparent(s: string, j: Json)
    ensures EncodeHighlight(Highlight(s)) == Str(Highlight(s).ToString()) == Str(s)
    ensures EncodeCourse(Course(s)) == Str(Course(s).ToString()) == Str(s)
    ensures EncodeKeyword(Keyword(s)) == Str(Keyword(s).ToString()) == Str(s)
    ensures EncodeDuty(Duty(s)) == Str(Duty(s).ToString()) == Str(s)
    ensures EncodeProfit(Profit(s)) == Str(Profit(s).ToString()) == Str(s)
    ensures EncodeRole(Role(s)) == Str(Role(s).ToString()) == Str(s)
    ensures DecodeHighlight(j).Ok? <==> j.Str?
    ensures DecodeCourse(j).Ok? <==> j.Str?
    ensures DecodeKeyword(j).Ok? <==> j.Str?
    ensures DecodeDuty(j).Ok? <==> j.Str?
    ensures DecodeProfit(j).Ok? <==> j.Str?
    ensures DecodeRole(j).Ok? <==> j.Str?
    ensures EncodeSeq([Highlight("Increased profits by 20%")], EncodeHighlight) ==
      Arr([Str("Increased profits by 20%")])
  {
    assert EncodeItems([Highlight("Increased profits by 20%")], EncodeHighlight)[0] ==
      Str("Increased profits by 20%");
  }
}

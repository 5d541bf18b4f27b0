/**
 * Unknown keys are ignored: each record's decoder looks only at the keys of its
 * own fields, so two objects that agree on those keys decode alike, whatever
 * else they carry.
 */
module KeyLaws {
  import opened Json
  import opened Schema
  import opened Codec

  /** `DecodeLocation` reads only the keys of `LocationKeys`. */
  lemma LocationReadsOnlyKeys(m1: map<string, Json>, m2: map<string, Json>)
    requires Agree(m1, m2, LocationKeys)
    ensures DecodeLocation(Obj(m1)) == DecodeLocation(Obj(m2))
  {
    var K := LocationKeys;
    FieldAgree(m1, m2, K, "address", DecodeOptString, DefaultLocation.address);
    FieldAgree(m1, m2, K, "postalCode", DecodeOptString, DefaultLocation.postalCode);
    FieldAgree(m1, m2, K, "city", DecodeOptString, DefaultLocation.city);
    FieldAgree(m1, m2, K, "countryCode", DecodeOptString, DefaultLocation.countryCode);
    FieldAgree(m1, m2, K, "region", DecodeOptString, DefaultLocation.region);
  }

  /** `DecodeProfile` reads only the keys of `ProfileKeys`. */
  lemma ProfileReadsOnlyKeys(m1: map<string, Json>, m2: map<string, Json>)
    requires Agree(m1, m2, ProfileKeys)
    ensures DecodeProfile(Obj(m1)) == DecodeProfile(Obj(m2))
  {
    var K := ProfileKeys;
    FieldAgree(m1, m2, K, "network", DecodeOptString, DefaultProfile.network);
    FieldAgree(m1, m2, K, "username", DecodeOptString, DefaultProfile.username);
    FieldAgree(m1, m2, K, "url", DecodeOptString, DefaultProfile.url);
  }

  /** `DecodeBasics` reads only the keys of `BasicsKeys`. */
  lemma BasicsReadsOnlyKeys(m1: map<string, Json>, m2: map<string, Json>)
    requires Agree(m1, m2, BasicsKeys)
    ensures DecodeBasics(Obj(m1)) == DecodeBasics(Obj(m2))
  {
    var K := BasicsKeys;
    FieldAgree(m1, m2, K, "name", DecodeOptString, DefaultBasics.name);
    FieldAgree(m1, m2, K, "label", DecodeOptString, DefaultBasics.labelText);
    FieldAgree(m1, m2, K, "image", DecodeOptString, DefaultBasics.image);
    FieldAgree(m1, m2, K, "email", DecodeOptString, DefaultBasics.email);
    FieldAgree(m1, m2, K, "phone", DecodeOptString, DefaultBasics.phone);
    FieldAgree(m1, m2, K, "url", DecodeOptString, DefaultBasics.url);
    FieldAgree(m1, m2, K, "summary", DecodeOptString, DefaultBasics.summary);
    FieldAgree(m1, m2, K, "location", DecodeLocation, DefaultBasics.location);
    SeqFieldAgree(m1, m2, K, "profiles", DecodeProfile);
  }

  /** `DecodePosition` reads only the keys of `PositionKeys`. */
  lemma PositionReadsOnlyKeys(m1: map<string, Json>, m2: map<string, Json>)
    requires Agree(m1, m2, PositionKeys)
    ensures DecodePosition(Obj(m1)) == DecodePosition(Obj(m2))
  {
    var K := PositionKeys;
    FieldAgree(m1, m2, K, "title", DecodeString, DefaultPosition.title);
    FieldAgree(m1, m2, K, "startDate", DecodeOptString, DefaultPosition.startDate);
    FieldAgree(m1, m2, K, "endDate", DecodeOptString, DefaultPosition.endDate);
  }

  /** `DecodeWork` reads only the keys of `WorkKeys`. */
  lemma WorkReadsOnlyKeys(m1: map<string, Json>, m2: map<string, Json>)
    requires Agree(m1, m2, WorkKeys)
    ensures DecodeWork(Obj(m1)) == DecodeWork(Obj(m2))
  {
    var K := WorkKeys;
    FieldAgree(m1, m2, K, "name", DecodeOptString, DefaultWork.name);
    FieldAgree(m1, m2, K, "location", DecodeOptString, DefaultWork.location);
    FieldAgree(m1, m2, K, "description", DecodeOptString, DefaultWork.description);
    SeqFieldAgree(m1, m2, K, "positions", DecodePosition);
    FieldAgree(m1, m2, K, "position", DecodeOptString, DefaultWork.position);
    FieldAgree(m1, m2, K, "url", DecodeOptString, DefaultWork.url);
    FieldAgree(m1, m2, K, "startDate", DecodeOptString, DefaultWork.startDate);
    FieldAgree(m1, m2, K, "endDate", DecodeOptString, DefaultWork.endDate);
    SeqFieldAgree(m1, m2, K, "highlights", DecodeHighlight);
  }

  /** `DecodeVolunteer` reads only the keys of `VolunteerKeys`. */
  lemma VolunteerReadsOnlyKeys(m1: map<string, Json>, m2: map<string, Json>)
    requires Agree(m1, m2, VolunteerKeys)
    ensures DecodeVolunteer(Obj(m1)) == DecodeVolunteer(Obj(m2))
  {
    var K := VolunteerKeys;
    FieldAgree(m1, m2, K, "organization", DecodeOptString, DefaultVolunteer.organization);
    FieldAgree(m1, m2, K, "position", DecodeOptString, DefaultVolunteer.position);
    FieldAgree(m1, m2, K, "url", DecodeOptString, DefaultVolunteer.url);
    FieldAgree(m1, m2, K, "startDate", DecodeOptString, DefaultVolunteer.startDate);
    FieldAgree(m1, m2, K, "endDate", DecodeOptString, DefaultVolunteer.endDate);
    FieldAgree(m1, m2, K, "summary", DecodeOptString, DefaultVolunteer.summary);
    SeqFieldAgree(m1, m2, K, "highlights", DecodeHighlight);
  }

  /** `DecodeEducation` reads only the keys of `EducationKeys`. */
  lemma EducationReadsOnlyKeys(m1: map<string, Json>, m2: map<string, Json>)
    requires Agree(m1, m2, EducationKeys)
    ensures DecodeEducation(Obj(m1)) == DecodeEducation(Obj(m2))
  {
    var K := EducationKeys;
    FieldAgree(m1, m2, K, "institution", DecodeOptString, DefaultEducation.institution);
    FieldAgree(m1, m2, K, "url", DecodeOptString, DefaultEducation.url);
    SeqFieldAgree(m1, m2, K, "degrees", DecodeString);
    FieldAgree(m1, m2, K, "area", DecodeOptString, DefaultEducation.area);
    FieldAgree(m1, m2, K, "studyType", DecodeOptString, DefaultEducation.studyType);
    FieldAgree(m1, m2, K, "startDate", DecodeOptString, DefaultEducation.startDate);
    FieldAgree(m1, m2, K, "endDate", DecodeOptString, DefaultEducation.endDate);
    FieldAgree(m1, m2, K, "score", DecodeOptString, DefaultEducation.score);
    SeqFieldAgree(m1, m2, K, "courses", DecodeCourse);
  }

  /** `DecodeAward` reads only the keys of `AwardKeys`. */
  lemma AwardReadsOnlyKeys(m1: map<string, Json>, m2: map<string, Json>)
    requires Agree(m1, m2, AwardKeys)
    ensures DecodeAward(Obj(m1)) == DecodeAward(Obj(m2))
  {
    var K := AwardKeys;
    FieldAgree(m1, m2, K, "title", DecodeOptString, DefaultAward.title);
    FieldAgree(m1, m2, K, "date", DecodeOptString, DefaultAward.date);
    FieldAgree(m1, m2, K, "awarder", DecodeOptString, DefaultAward.awarder);
    FieldAgree(m1, m2, K, "summary", DecodeOptString, DefaultAward.summary);
  }

  /** `DecodeCertificate` reads only the keys of `CertificateKeys`. */
  lemma CertificateReadsOnlyKeys(m1: map<string, Json>, m2: map<string, Json>)
    requires Agree(m1, m2, CertificateKeys)
    ensures DecodeCertificate(Obj(m1)) == DecodeCertificate(Obj(m2))
  {
    var K := CertificateKeys;
    FieldAgree(m1, m2, K, "name", DecodeOptString, DefaultCertificate.name);
    FieldAgree(m1, m2, K, "date", DecodeOptString, DefaultCertificate.date);
    FieldAgree(m1, m2, K, "url", DecodeOptString, DefaultCertificate.url);
    FieldAgree(m1, m2, K, "issuer", DecodeOptString, DefaultCertificate.issuer);
  }

  /** `DecodePublication` reads only the keys of `PublicationKeys`. */
  lemma PublicationReadsOnlyKeys(m1: map<string, Json>, m2: map<string, Json>)
    requires Agree(m1, m2, PublicationKeys)
    ensures DecodePublication(Obj(m1)) == DecodePublication(Obj(m2))
  {
    var K := PublicationKeys;
    FieldAgree(m1, m2, K, "name", DecodeOptString, DefaultPublication.name);
    FieldAgree(m1, m2, K, "publisher", DecodeOptString, DefaultPublication.publisher);
    FieldAgree(m1, m2, K, "releaseDate", DecodeOptString, DefaultPublication.releaseDate);
    FieldAgree(m1, m2, K, "url", DecodeOptString, DefaultPublication.url);
    FieldAgree(m1, m2, K, "summary", DecodeOptString, DefaultPublication.summary);
  }

  /** `DecodeSkill` reads only the keys of `SkillKeys`. */
  lemma SkillReadsOnlyKeys(m1: map<string, Json>, m2: map<string, Json>)
    requires Agree(m1, m2, SkillKeys)
    ensures DecodeSkill(Obj(m1)) == DecodeSkill(Obj(m2))
  {
    var K := SkillKeys;
    FieldAgree(m1, m2, K, "name", DecodeOptString, DefaultSkill.name);
    FieldAgree(m1, m2, K, "level", DecodeOptString, DefaultSkill.level);
    SeqFieldAgree(m1, m2, K, "keywords", DecodeKeyword);
  }

  /** `DecodeLanguage` reads only the keys of `LanguageKeys`. */
  lemma LanguageReadsOnlyKeys(m1: map<string, Json>, m2: map<string, Json>)
    requires Agree(m1, m2, LanguageKeys)
    ensures DecodeLanguage(Obj(m1)) == DecodeLanguage(Obj(m2))
  {
    var K := LanguageKeys;
    FieldAgree(m1, m2, K, "language", DecodeOptString, DefaultLanguage.language);
    FieldAgree(m1, m2, K, "fluency", DecodeOptString, DefaultLanguage.fluency);
  }

  /** `DecodeInterest` reads only the keys of `InterestKeys`. */
  lemma InterestReadsOnlyKeys(m1: map<string, Json>, m2: map<string, Json>)
    requires Agree(m1, m2, InterestKeys)
    ensures DecodeInterest(Obj(m1)) == DecodeInterest(Obj(m2))
  {
    var K := InterestKeys;
    FieldAgree(m1, m2, K, "name", DecodeOptString, DefaultInterest.name);
    SeqFieldAgree(m1, m2, K, "keywords", DecodeKeyword);
  }

  /** `DecodeReference` reads only the keys of `ReferenceKeys`. */
  lemma ReferenceReadsOnlyKeys(m1: map<string, Json>, m2: map<string, Json>)
    requires Agree(m1, m2, ReferenceKeys)
    ensures DecodeReference(Obj(m1)) == DecodeReference(Obj(m2))
  {
    var K := ReferenceKeys;
    FieldAgree(m1, m2, K, "name", DecodeOptString, DefaultReference.name);
    FieldAgree(m1, m2, K, "reference", DecodeOptString, DefaultReference.reference);
  }

  /** `DecodeFeature` reads only the keys of `FeatureKeys`. */
  lemma FeatureReadsOnlyKeys(m1: map<string, Json>, m2: map<string, Json>)
    requires Agree(m1, m2, FeatureKeys)
    ensures DecodeFeature(Obj(m1)) == DecodeFeature(Obj(m2))
  {
    var K := FeatureKeys;
    RequiredFieldAgree(m1, m2, K, "name", DecodeString);
    RequiredFieldAgree(m1, m2, K, "situation", DecodeString);
    RequiredFieldAgree(m1, m2, K, "task", DecodeString);
    RequiredFieldAgree(m1, m2, K, "action", DecodeString);
    RequiredFieldAgree(m1, m2, K, "result", DecodeString);
  }

  /** `DecodeProject` reads only the keys of `ProjectKeys`. */
  lemma ProjectReadsOnlyKeys(m1: map<string, Json>, m2: map<string, Json>)
    requires Agree(m1, m2, ProjectKeys)
    ensures DecodeProject(Obj(m1)) == DecodeProject(Obj(m2))
  {
    var K := ProjectKeys;
    FieldAgree(m1, m2, K, "name", DecodeOptString, DefaultProject.name);
    FieldAgree(m1, m2, K, "description", DecodeOptString, DefaultProject.description);
    SeqFieldAgree(m1, m2, K, "highlights", DecodeHighlight);
    SeqFieldAgree(m1, m2, K, "duties", DecodeDuty);
    SeqFieldAgree(m1, m2, K, "profits", DecodeProfit);
    SeqFieldAgree(m1, m2, K, "features", DecodeFeature);
    SeqFieldAgree(m1, m2, K, "keywords", DecodeKeyword);
    FieldAgree(m1, m2, K, "startDate", DecodeOptString, DefaultProject.startDate);
    FieldAgree(m1, m2, K, "endDate", DecodeOptString, DefaultProject.endDate);
    FieldAgree(m1, m2, K, "url", DecodeOptString, DefaultProject.url);
    SeqFieldAgree(m1, m2, K, "roles", DecodeRole);
    FieldAgree(m1, m2, K, "entity", DecodeOptString, DefaultProject.entity);
    FieldAgree(m1, m2, K, "type", DecodeOptString, DefaultProject.kind);
  }

  /** `DecodeMeta` reads only the keys of `MetaKeys`. */
  lemma MetaReadsOnlyKeys(m1: map<string, Json>, m2: map<string, Json>)
    requires Agree(m1, m2, MetaKeys)
    ensures DecodeMeta(Obj(m1)) == DecodeMeta(Obj(m2))
  {
    var K := MetaKeys;
    FieldAgree(m1, m2, K, "canonical", DecodeOptString, DefaultMeta.canonical);
    FieldAgree(m1, m2, K, "version", DecodeOptString, DefaultMeta.version);
    FieldAgree(m1, m2, K, "lastModified", DecodeOptString, DefaultMeta.lastModified);
  }

  /** `DecodeResume` reads only the keys of `ResumeKeys(cfg)`. */
  lemma ResumeReadsOnlyKeys(cfg: Config, m1: map<string, Json>, m2: map<string, Json>)
    requires Agree(m1, m2, ResumeKeys(cfg))
    ensures DecodeResume(cfg, Obj(m1)) == DecodeResume(cfg, Obj(m2))
  {
    var K := ResumeKeys(cfg);
    FieldAgree(m1, m2, K, "basics", DecodeOptBasics, DefaultResume.basics);
    SeqFieldAgree(m1, m2, K, "work", DecodeWork);
    SeqFieldAgree(m1, m2, K, "volunteer", DecodeVolunteer);
    SeqFieldAgree(m1, m2, K, "education", DecodeEducation);
    SeqFieldAgree(m1, m2, K, "awards", DecodeAward);
    SeqFieldAgree(m1, m2, K, "certificates", DecodeCertificate);
    SeqFieldAgree(m1, m2, K, "publications", DecodePublication);
    SeqFieldAgree(m1, m2, K, "skills", DecodeSkill);
    SeqFieldAgree(m1, m2, K, "languages", DecodeLanguage);
    SeqFieldAgree(m1, m2, K, "interests", DecodeInterest);
    SeqFieldAgree(m1, m2, K, "references", DecodeReference);
    SeqFieldAgree(m1, m2, K, "projects", DecodeProject);
    FieldAgree(m1, m2, K, "meta", DecodeOptMeta, DefaultResume.meta);
    if cfg.sideProjects {
      SeqFieldAgree(m1, m2, K, "sideProjects", DecodeProject);
    }
  }
}

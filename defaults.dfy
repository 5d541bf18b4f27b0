/**
 * Missing keys take the record's default: every record but `Feature` carries a
 * container-level `#[serde(default)]`, so removing a key from an object that
 * decodes leaves an object that still decodes, to the same record with that
 * one field reset to its default. Stated here for the keys the encoder always
 * writes, whose absence the round trips do not reach.
 */
module DefaultLaws {
  import opened Wrappers
  import opened Json
  import opened Schema
  import opened Codec

  /** Dropping a key from an object that decodes as a `Basics` resets that field to its default. */
  lemma BasicsMissingKeysDefault(m: map<string, Json>)
    ensures DecodeBasics(Obj(m)).Ok? ==>
      DecodeBasics(Obj(m - {"location"})) == Ok(DecodeBasics(Obj(m)).value.(location := DefaultBasics.location))
  {
    var m0 := m - {"location"};
    var K := BasicsKeys - {"location"};
    assert Agree(m0, m, K);
    FieldAgree(m0, m, K, "name", DecodeOptString, DefaultBasics.name);
    FieldAgree(m0, m, K, "label", DecodeOptString, DefaultBasics.labelText);
    FieldAgree(m0, m, K, "image", DecodeOptString, DefaultBasics.image);
    FieldAgree(m0, m, K, "email", DecodeOptString, DefaultBasics.email);
    FieldAgree(m0, m, K, "phone", DecodeOptString, DefaultBasics.phone);
    FieldAgree(m0, m, K, "url", DecodeOptString, DefaultBasics.url);
    FieldAgree(m0, m, K, "summary", DecodeOptString, DefaultBasics.summary);
    SeqFieldAgree(m0, m, K, "profiles", DecodeProfile);
  }

  lemma ProfileMissingNetwork(m: map<string, Json>)
    ensures DecodeProfile(Obj(m)).Ok? ==>
      DecodeProfile(Obj(m - {"network"})) == Ok(DecodeProfile(Obj(m)).value.(network := DefaultProfile.network))
  {
    var m0 := m - {"network"};
    var K := ProfileKeys - {"network"};
    assert Agree(m0, m, K);
    FieldAgree(m0, m, K, "username", DecodeOptString, DefaultProfile.username);
    FieldAgree(m0, m, K, "url", DecodeOptString, DefaultProfile.url);
  }

  lemma ProfileMissingUsername(m: map<string, Json>)
    ensures DecodeProfile(Obj(m)).Ok? ==>
      DecodeProfile(Obj(m - {"username"})) == Ok(DecodeProfile(Obj(m)).value.(username := DefaultProfile.username))
  {
    var m0 := m - {"username"};
    var K := ProfileKeys - {"username"};
    assert Agree(m0, m, K);
    FieldAgree(m0, m, K, "network", DecodeOptString, DefaultProfile.network);
    FieldAgree(m0, m, K, "url", DecodeOptString, DefaultProfile.url);
  }

  lemma ProfileMissingUrl(m: map<string, Json>)
    ensures DecodeProfile(Obj(m)).Ok? ==>
      DecodeProfile(Obj(m - {"url"})) == Ok(DecodeProfile(Obj(m)).value.(url := DefaultProfile.url))
  {
    var m0 := m - {"url"};
    var K := ProfileKeys - {"url"};
    assert Agree(m0, m, K);
    FieldAgree(m0, m, K, "network", DecodeOptString, DefaultProfile.network);
    FieldAgree(m0, m, K, "username", DecodeOptString, DefaultProfile.username);
  }

  /** Dropping a key from an object that decodes as a `Profile` resets that field to its default. */
  lemma ProfileMissingKeysDefault(m: map<string, Json>)
    ensures DecodeProfile(Obj(m)).Ok? ==>
      DecodeProfile(Obj(m - {"network"})) == Ok(DecodeProfile(Obj(m)).value.(network := DefaultProfile.network))
    ensures DecodeProfile(Obj(m)).Ok? ==>
      DecodeProfile(Obj(m - {"username"})) == Ok(DecodeProfile(Obj(m)).value.(username := DefaultProfile.username))
    ensures DecodeProfile(Obj(m)).Ok? ==>
      DecodeProfile(Obj(m - {"url"})) == Ok(DecodeProfile(Obj(m)).value.(url := DefaultProfile.url))
  {
    ProfileMissingNetwork(m);
    ProfileMissingUsername(m);
    ProfileMissingUrl(m);
  }

  /** Dropping a key from an object that decodes as a `Position` resets that field to its default. */
  lemma PositionMissingKeysDefault(m: map<string, Json>)
    ensures DecodePosition(Obj(m)).Ok? ==>
      DecodePosition(Obj(m - {"title"})) == Ok(DecodePosition(Obj(m)).value.(title := DefaultPosition.title))
  {
    var m0 := m - {"title"};
    var K := PositionKeys - {"title"};
    assert Agree(m0, m, K);
    FieldAgree(m0, m, K, "startDate", DecodeOptString, DefaultPosition.startDate);
    FieldAgree(m0, m, K, "endDate", DecodeOptString, DefaultPosition.endDate);
  }

  lemma AwardMissingTitle(m: map<string, Json>)
    ensures DecodeAward(Obj(m)).Ok? ==>
      DecodeAward(Obj(m - {"title"})) == Ok(DecodeAward(Obj(m)).value.(title := DefaultAward.title))
  {
    var m0 := m - {"title"};
    var K := AwardKeys - {"title"};
    assert Agree(m0, m, K);
    FieldAgree(m0, m, K, "date", DecodeOptString, DefaultAward.date);
    FieldAgree(m0, m, K, "awarder", DecodeOptString, DefaultAward.awarder);
    FieldAgree(m0, m, K, "summary", DecodeOptString, DefaultAward.summary);
  }

  lemma AwardMissingDate(m: map<string, Json>)
    ensures DecodeAward(Obj(m)).Ok? ==>
      DecodeAward(Obj(m - {"date"})) == Ok(DecodeAward(Obj(m)).value.(date := DefaultAward.date))
  {
    var m0 := m - {"date"};
    var K := AwardKeys - {"date"};
    assert Agree(m0, m, K);
    FieldAgree(m0, m, K, "title", DecodeOptString, DefaultAward.title);
    FieldAgree(m0, m, K, "awarder", DecodeOptString, DefaultAward.awarder);
    FieldAgree(m0, m, K, "summary", DecodeOptString, DefaultAward.summary);
  }

  lemma AwardMissingAwarder(m: map<string, Json>)
    ensures DecodeAward(Obj(m)).Ok? ==>
      DecodeAward(Obj(m - {"awarder"})) == Ok(DecodeAward(Obj(m)).value.(awarder := DefaultAward.awarder))
  {
    var m0 := m - {"awarder"};
    var K := AwardKeys - {"awarder"};
    assert Agree(m0, m, K);
    FieldAgree(m0, m, K, "title", DecodeOptString, DefaultAward.title);
    FieldAgree(m0, m, K, "date", DecodeOptString, DefaultAward.date);
    FieldAgree(m0, m, K, "summary", DecodeOptString, DefaultAward.summary);
  }

  lemma AwardMissingSummary(m: map<string, Json>)
    ensures DecodeAward(Obj(m)).Ok? ==>
      DecodeAward(Obj(m - {"summary"})) == Ok(DecodeAward(Obj(m)).value.(summary := DefaultAward.summary))
  {
    var m0 := m - {"summary"};
    var K := AwardKeys - {"summary"};
    assert Agree(m0, m, K);
    FieldAgree(m0, m, K, "title", DecodeOptString, DefaultAward.title);
    FieldAgree(m0, m, K, "date", DecodeOptString, DefaultAward.date);
    FieldAgree(m0, m, K, "awarder", DecodeOptString, DefaultAward.awarder);
  }

  /** Dropping a key from an object that decodes as a `Award` resets that field to its default. */
  lemma AwardMissingKeysDefault(m: map<string, Json>)
    ensures DecodeAward(Obj(m)).Ok? ==>
      DecodeAward(Obj(m - {"title"})) == Ok(DecodeAward(Obj(m)).value.(title := DefaultAward.title))
    ensures DecodeAward(Obj(m)).Ok? ==>
      DecodeAward(Obj(m - {"date"})) == Ok(DecodeAward(Obj(m)).value.(date := DefaultAward.date))
    ensures DecodeAward(Obj(m)).Ok? ==>
      DecodeAward(Obj(m - {"awarder"})) == Ok(DecodeAward(Obj(m)).value.(awarder := DefaultAward.awarder))
    ensures DecodeAward(Obj(m)).Ok? ==>
      DecodeAward(Obj(m - {"summary"})) == Ok(DecodeAward(Obj(m)).value.(summary := DefaultAward.summary))
  {
    AwardMissingTitle(m);
    AwardMissingDate(m);
    AwardMissingAwarder(m);
    AwardMissingSummary(m);
  }

  lemma CertificateMissingName(m: map<string, Json>)
    ensures DecodeCertificate(Obj(m)).Ok? ==>
      DecodeCertificate(Obj(m - {"name"})) == Ok(DecodeCertificate(Obj(m)).value.(name := DefaultCertificate.name))
  {
    var m0 := m - {"name"};
    var K := CertificateKeys - {"name"};
    assert Agree(m0, m, K);
    FieldAgree(m0, m, K, "date", DecodeOptString, DefaultCertificate.date);
    FieldAgree(m0, m, K, "url", DecodeOptString, DefaultCertificate.url);
    FieldAgree(m0, m, K, "issuer", DecodeOptString, DefaultCertificate.issuer);
  }

  lemma CertificateMissingDate(m: map<string, Json>)
    ensures DecodeCertificate(Obj(m)).Ok? ==>
      DecodeCertificate(Obj(m - {"date"})) == Ok(DecodeCertificate(Obj(m)).value.(date := DefaultCertificate.date))
  {
    var m0 := m - {"date"};
    var K := CertificateKeys - {"date"};
    assert Agree(m0, m, K);
    FieldAgree(m0, m, K, "name", DecodeOptString, DefaultCertificate.name);
    FieldAgree(m0, m, K, "url", DecodeOptString, DefaultCertificate.url);
    FieldAgree(m0, m, K, "issuer", DecodeOptString, DefaultCertificate.issuer);
  }

  lemma CertificateMissingUrl(m: map<string, Json>)
    ensures DecodeCertificate(Obj(m)).Ok? ==>
      DecodeCertificate(Obj(m - {"url"})) == Ok(DecodeCertificate(Obj(m)).value.(url := DefaultCertificate.url))
  {
    var m0 := m - {"url"};
    var K := CertificateKeys - {"url"};
    assert Agree(m0, m, K);
    FieldAgree(m0, m, K, "name", DecodeOptString, DefaultCertificate.name);
    FieldAgree(m0, m, K, "date", DecodeOptString, DefaultCertificate.date);
    FieldAgree(m0, m, K, "issuer", DecodeOptString, DefaultCertificate.issuer);
  }

  lemma CertificateMissingIssuer(m: map<string, Json>)
    ensures DecodeCertificate(Obj(m)).Ok? ==>
      DecodeCertificate(Obj(m - {"issuer"})) == Ok(DecodeCertificate(Obj(m)).value.(issuer := DefaultCertificate.issuer))
  {
    var m0 := m - {"issuer"};
    var K := CertificateKeys - {"issuer"};
    assert Agree(m0, m, K);
    FieldAgree(m0, m, K, "name", DecodeOptString, DefaultCertificate.name);
    FieldAgree(m0, m, K, "date", DecodeOptString, DefaultCertificate.date);
    FieldAgree(m0, m, K, "url", DecodeOptString, DefaultCertificate.url);
  }

  /** Dropping a key from an object that decodes as a `Certificate` resets that field to its default. */
  lemma CertificateMissingKeysDefault(m: map<string, Json>)
    ensures DecodeCertificate(Obj(m)).Ok? ==>
      DecodeCertificate(Obj(m - {"name"})) == Ok(DecodeCertificate(Obj(m)).value.(name := DefaultCertificate.name))
    ensures DecodeCertificate(Obj(m)).Ok? ==>
      DecodeCertificate(Obj(m - {"date"})) == Ok(DecodeCertificate(Obj(m)).value.(date := DefaultCertificate.date))
    ensures DecodeCertificate(Obj(m)).Ok? ==>
      DecodeCertificate(Obj(m - {"url"})) == Ok(DecodeCertificate(Obj(m)).value.(url := DefaultCertificate.url))
    ensures DecodeCertificate(Obj(m)).Ok? ==>
      DecodeCertificate(Obj(m - {"issuer"})) == Ok(DecodeCertificate(Obj(m)).value.(issuer := DefaultCertificate.issuer))
  {
    CertificateMissingName(m);
    CertificateMissingDate(m);
    CertificateMissingUrl(m);
    CertificateMissingIssuer(m);
  }

  lemma PublicationMissingName(m: map<string, Json>)
    ensures DecodePublication(Obj(m)).Ok? ==>
      DecodePublication(Obj(m - {"name"})) == Ok(DecodePublication(Obj(m)).value.(name := DefaultPublication.name))
  {
    var m0 := m - {"name"};
    var K := PublicationKeys - {"name"};
    assert Agree(m0, m, K);
    FieldAgree(m0, m, K, "publisher", DecodeOptString, DefaultPublication.publisher);
    FieldAgree(m0, m, K, "releaseDate", DecodeOptString, DefaultPublication.releaseDate);
    FieldAgree(m0, m, K, "url", DecodeOptString, DefaultPublication.url);
    FieldAgree(m0, m, K, "summary", DecodeOptString, DefaultPublication.summary);
  }

  lemma PublicationMissingPublisher(m: map<string, Json>)
    ensures DecodePublication(Obj(m)).Ok? ==>
      DecodePublication(Obj(m - {"publisher"})) == Ok(DecodePublication(Obj(m)).value.(publisher := DefaultPublication.publisher))
  {
    var m0 := m - {"publisher"};
    var K := PublicationKeys - {"publisher"};
    assert Agree(m0, m, K);
    FieldAgree(m0, m, K, "name", DecodeOptString, DefaultPublication.name);
    FieldAgree(m0, m, K, "releaseDate", DecodeOptString, DefaultPublication.releaseDate);
    FieldAgree(m0, m, K, "url", DecodeOptString, DefaultPublication.url);
    FieldAgree(m0, m, K, "summary", DecodeOptString, DefaultPublication.summary);
  }

  lemma PublicationMissingReleaseDate(m: map<string, Json>)
    ensures DecodePublication(Obj(m)).Ok? ==>
      DecodePublication(Obj(m - {"releaseDate"})) == Ok(DecodePublication(Obj(m)).value.(releaseDate := DefaultPublication.releaseDate))
  {
    var m0 := m - {"releaseDate"};
    var K := PublicationKeys - {"releaseDate"};
    assert Agree(m0, m, K);
    FieldAgree(m0, m, K, "name", DecodeOptString, DefaultPublication.name);
    FieldAgree(m0, m, K, "publisher", DecodeOptString, DefaultPublication.publisher);
    FieldAgree(m0, m, K, "url", DecodeOptString, DefaultPublication.url);
    FieldAgree(m0, m, K, "summary", DecodeOptString, DefaultPublication.summary);
  }

  lemma PublicationMissingUrl(m: map<string, Json>)
    ensures DecodePublication(Obj(m)).Ok? ==>
      DecodePublication(Obj(m - {"url"})) == Ok(DecodePublication(Obj(m)).value.(url := DefaultPublication.url))
  {
    var m0 := m - {"url"};
    var K := PublicationKeys - {"url"};
    assert Agree(m0, m, K);
    FieldAgree(m0, m, K, "name", DecodeOptString, DefaultPublication.name);
    FieldAgree(m0, m, K, "publisher", DecodeOptString, DefaultPublication.publisher);
    FieldAgree(m0, m, K, "releaseDate", DecodeOptString, DefaultPublication.releaseDate);
    FieldAgree(m0, m, K, "summary", DecodeOptString, DefaultPublication.summary);
  }

  lemma PublicationMissingSummary(m: map<string, Json>)
    ensures DecodePublication(Obj(m)).Ok? ==>
      DecodePublication(Obj(m - {"summary"})) == Ok(DecodePublication(Obj(m)).value.(summary := DefaultPublication.summary))
  {
    var m0 := m - {"summary"};
    var K := PublicationKeys - {"summary"};
    assert Agree(m0, m, K);
    FieldAgree(m0, m, K, "name", DecodeOptString, DefaultPublication.name);
    FieldAgree(m0, m, K, "publisher", DecodeOptString, DefaultPublication.publisher);
    FieldAgree(m0, m, K, "releaseDate", DecodeOptString, DefaultPublication.releaseDate);
    FieldAgree(m0, m, K, "url", DecodeOptString, DefaultPublication.url);
  }

  /** Dropping a key from an object that decodes as a `Publication` resets that field to its default. */
  lemma PublicationMissingKeysDefault(m: map<string, Json>)
    ensures DecodePublication(Obj(m)).Ok? ==>
      DecodePublication(Obj(m - {"name"})) == Ok(DecodePublication(Obj(m)).value.(name := DefaultPublication.name))
    ensures DecodePublication(Obj(m)).Ok? ==>
      DecodePublication(Obj(m - {"publisher"})) == Ok(DecodePublication(Obj(m)).value.(publisher := DefaultPublication.publisher))
    ensures DecodePublication(Obj(m)).Ok? ==>
      DecodePublication(Obj(m - {"releaseDate"})) == Ok(DecodePublication(Obj(m)).value.(releaseDate := DefaultPublication.releaseDate))
    ensures DecodePublication(Obj(m)).Ok? ==>
      DecodePublication(Obj(m - {"url"})) == Ok(DecodePublication(Obj(m)).value.(url := DefaultPublication.url))
    ensures DecodePublication(Obj(m)).Ok? ==>
      DecodePublication(Obj(m - {"summary"})) == Ok(DecodePublication(Obj(m)).value.(summary := DefaultPublication.summary))
  {
    PublicationMissingName(m);
    PublicationMissingPublisher(m);
    PublicationMissingReleaseDate(m);
    PublicationMissingUrl(m);
    PublicationMissingSummary(m);
  }

  lemma LanguageMissingLanguage(m: map<string, Json>)
    ensures DecodeLanguage(Obj(m)).Ok? ==>
      DecodeLanguage(Obj(m - {"language"})) == Ok(DecodeLanguage(Obj(m)).value.(language := DefaultLanguage.language))
  {
    var m0 := m - {"language"};
    var K := LanguageKeys - {"language"};
    assert Agree(m0, m, K);
    FieldAgree(m0, m, K, "fluency", DecodeOptString, DefaultLanguage.fluency);
  }

  lemma LanguageMissingFluency(m: map<string, Json>)
    ensures DecodeLanguage(Obj(m)).Ok? ==>
      DecodeLanguage(Obj(m - {"fluency"})) == Ok(DecodeLanguage(Obj(m)).value.(fluency := DefaultLanguage.fluency))
  {
    var m0 := m - {"fluency"};
    var K := LanguageKeys - {"fluency"};
    assert Agree(m0, m, K);
    FieldAgree(m0, m, K, "language", DecodeOptString, DefaultLanguage.language);
  }

  /** Dropping a key from an object that decodes as a `Language` resets that field to its default. */
  lemma LanguageMissingKeysDefault(m: map<string, Json>)
    ensures DecodeLanguage(Obj(m)).Ok? ==>
      DecodeLanguage(Obj(m - {"language"})) == Ok(DecodeLanguage(Obj(m)).value.(language := DefaultLanguage.language))
    ensures DecodeLanguage(Obj(m)).Ok? ==>
      DecodeLanguage(Obj(m - {"fluency"})) == Ok(DecodeLanguage(Obj(m)).value.(fluency := DefaultLanguage.fluency))
  {
    LanguageMissingLanguage(m);
    LanguageMissingFluency(m);
  }

  lemma InterestMissingName(m: map<string, Json>)
    ensures DecodeInterest(Obj(m)).Ok? ==>
      DecodeInterest(Obj(m - {"name"})) == Ok(DecodeInterest(Obj(m)).value.(name := DefaultInterest.name))
  {
    var m0 := m - {"name"};
    var K := InterestKeys - {"name"};
    assert Agree(m0, m, K);
    SeqFieldAgree(m0, m, K, "keywords", DecodeKeyword);
  }

  lemma InterestMissingKeywords(m: map<string, Json>)
    ensures DecodeInterest(Obj(m)).Ok? ==>
      DecodeInterest(Obj(m - {"keywords"})) == Ok(DecodeInterest(Obj(m)).value.(keywords := DefaultInterest.keywords))
  {
    var m0 := m - {"keywords"};
    var K := InterestKeys - {"keywords"};
    assert Agree(m0, m, K);
    FieldAgree(m0, m, K, "name", DecodeOptString, DefaultInterest.name);
  }

  /** Dropping a key from an object that decodes as a `Interest` resets that field to its default. */
  lemma InterestMissingKeysDefault(m: map<string, Json>)
    ensures DecodeInterest(Obj(m)).Ok? ==>
      DecodeInterest(Obj(m - {"name"})) == Ok(DecodeInterest(Obj(m)).value.(name := DefaultInterest.name))
    ensures DecodeInterest(Obj(m)).Ok? ==>
      DecodeInterest(Obj(m - {"keywords"})) == Ok(DecodeInterest(Obj(m)).value.(keywords := DefaultInterest.keywords))
  {
    InterestMissingName(m);
    InterestMissingKeywords(m);
  }

  lemma ProjectMissingName(m: map<string, Json>)
    ensures DecodeProject(Obj(m)).Ok? ==>
      DecodeProject(Obj(m - {"name"})) == Ok(DecodeProject(Obj(m)).value.(name := DefaultProject.name))
  {
    var m0 := m - {"name"};
    var K := ProjectKeys - {"name"};
    assert Agree(m0, m, K);
    FieldAgree(m0, m, K, "description", DecodeOptString, DefaultProject.description);
    SeqFieldAgree(m0, m, K, "highlights", DecodeHighlight);
    SeqFieldAgree(m0, m, K, "duties", DecodeDuty);
    SeqFieldAgree(m0, m, K, "profits", DecodeProfit);
    SeqFieldAgree(m0, m, K, "features", DecodeFeature);
    SeqFieldAgree(m0, m, K, "keywords", DecodeKeyword);
    FieldAgree(m0, m, K, "startDate", DecodeOptString, DefaultProject.startDate);
    FieldAgree(m0, m, K, "endDate", DecodeOptString, DefaultProject.endDate);
    FieldAgree(m0, m, K, "url", DecodeOptString, DefaultProject.url);
    SeqFieldAgree(m0, m, K, "roles", DecodeRole);
    FieldAgree(m0, m, K, "entity", DecodeOptString, DefaultProject.entity);
    FieldAgree(m0, m, K, "type", DecodeOptString, DefaultProject.kind);
  }

  lemma ProjectMissingDescription(m: map<string, Json>)
    ensures DecodeProject(Obj(m)).Ok? ==>
      DecodeProject(Obj(m - {"description"})) == Ok(DecodeProject(Obj(m)).value.(description := DefaultProject.description))
  {
    var m0 := m - {"description"};
    var K := ProjectKeys - {"description"};
    assert Agree(m0, m, K);
    FieldAgree(m0, m, K, "name", DecodeOptString, DefaultProject.name);
    SeqFieldAgree(m0, m, K, "highlights", DecodeHighlight);
    SeqFieldAgree(m0, m, K, "duties", DecodeDuty);
    SeqFieldAgree(m0, m, K, "profits", DecodeProfit);
    SeqFieldAgree(m0, m, K, "features", DecodeFeature);
    SeqFieldAgree(m0, m, K, "keywords", DecodeKeyword);
    FieldAgree(m0, m, K, "startDate", DecodeOptString, DefaultProject.startDate);
    FieldAgree(m0, m, K, "endDate", DecodeOptString, DefaultProject.endDate);
    FieldAgree(m0, m, K, "url", DecodeOptString, DefaultProject.url);
    SeqFieldAgree(m0, m, K, "roles", DecodeRole);
    FieldAgree(m0, m, K, "entity", DecodeOptString, DefaultProject.entity);
    FieldAgree(m0, m, K, "type", DecodeOptString, DefaultProject.kind);
  }

  lemma ProjectMissingHighlights(m: map<string, Json>)
    ensures DecodeProject(Obj(m)).Ok? ==>
      DecodeProject(Obj(m - {"highlights"})) == Ok(DecodeProject(Obj(m)).value.(highlights := DefaultProject.highlights))
  {
    var m0 := m - {"highlights"};
    var K := ProjectKeys - {"highlights"};
    assert Agree(m0, m, K);
    FieldAgree(m0, m, K, "name", DecodeOptString, DefaultProject.name);
    FieldAgree(m0, m, K, "description", DecodeOptString, DefaultProject.description);
    SeqFieldAgree(m0, m, K, "duties", DecodeDuty);
    SeqFieldAgree(m0, m, K, "profits", DecodeProfit);
    SeqFieldAgree(m0, m, K, "features", DecodeFeature);
    SeqFieldAgree(m0, m, K, "keywords", DecodeKeyword);
    FieldAgree(m0, m, K, "startDate", DecodeOptString, DefaultProject.startDate);
    FieldAgree(m0, m, K, "endDate", DecodeOptString, DefaultProject.endDate);
    FieldAgree(m0, m, K, "url", DecodeOptString, DefaultProject.url);
    SeqFieldAgree(m0, m, K, "roles", DecodeRole);
    FieldAgree(m0, m, K, "entity", DecodeOptString, DefaultProject.entity);
    FieldAgree(m0, m, K, "type", DecodeOptString, DefaultProject.kind);
  }

  lemma ProjectMissingDuties(m: map<string, Json>)
    ensures DecodeProject(Obj(m)).Ok? ==>
      DecodeProject(Obj(m - {"duties"})) == Ok(DecodeProject(Obj(m)).value.(duties := DefaultProject.duties))
  {
    var m0 := m - {"duties"};
    var K := ProjectKeys - {"duties"};
    assert Agree(m0, m, K);
    FieldAgree(m0, m, K, "name", DecodeOptString, DefaultProject.name);
    FieldAgree(m0, m, K, "description", DecodeOptString, DefaultProject.description);
    SeqFieldAgree(m0, m, K, "highlights", DecodeHighlight);
    SeqFieldAgree(m0, m, K, "profits", DecodeProfit);
    SeqFieldAgree(m0, m, K, "features", DecodeFeature);
    SeqFieldAgree(m0, m, K, "keywords", DecodeKeyword);
    FieldAgree(m0, m, K, "startDate", DecodeOptString, DefaultProject.startDate);
    FieldAgree(m0, m, K, "endDate", DecodeOptString, DefaultProject.endDate);
    FieldAgree(m0, m, K, "url", DecodeOptString, DefaultProject.url);
    SeqFieldAgree(m0, m, K, "roles", DecodeRole);
    FieldAgree(m0, m, K, "entity", DecodeOptString, DefaultProject.entity);
    FieldAgree(m0, m, K, "type", DecodeOptString, DefaultProject.kind);
  }

  lemma ProjectMissingProfits(m: map<string, Json>)
    ensures DecodeProject(Obj(m)).Ok? ==>
      DecodeProject(Obj(m - {"profits"})) == Ok(DecodeProject(Obj(m)).value.(profits := DefaultProject.profits))
  {
    var m0 := m - {"profits"};
    var K := ProjectKeys - {"profits"};
    assert Agree(m0, m, K);
    FieldAgree(m0, m, K, "name", DecodeOptString, DefaultProject.name);
    FieldAgree(m0, m, K, "description", DecodeOptString, DefaultProject.description);
    SeqFieldAgree(m0, m, K, "highlights", DecodeHighlight);
    SeqFieldAgree(m0, m, K, "duties", DecodeDuty);
    SeqFieldAgree(m0, m, K, "features", DecodeFeature);
    SeqFieldAgree(m0, m, K, "keywords", DecodeKeyword);
    FieldAgree(m0, m, K, "startDate", DecodeOptString, DefaultProject.startDate);
    FieldAgree(m0, m, K, "endDate", DecodeOptString, DefaultProject.endDate);
    FieldAgree(m0, m, K, "url", DecodeOptString, DefaultProject.url);
    SeqFieldAgree(m0, m, K, "roles", DecodeRole);
    FieldAgree(m0, m, K, "entity", DecodeOptString, DefaultProject.entity);
    FieldAgree(m0, m, K, "type", DecodeOptString, DefaultProject.kind);
  }

  lemma ProjectMissingFeatures(m: map<string, Json>)
    ensures DecodeProject(Obj(m)).Ok? ==>
      DecodeProject(Obj(m - {"features"})) == Ok(DecodeProject(Obj(m)).value.(features := DefaultProject.features))
  {
    var m0 := m - {"features"};
    var K := ProjectKeys - {"features"};
    assert Agree(m0, m, K);
    FieldAgree(m0, m, K, "name", DecodeOptString, DefaultProject.name);
    FieldAgree(m0, m, K, "description", DecodeOptString, DefaultProject.description);
    SeqFieldAgree(m0, m, K, "highlights", DecodeHighlight);
    SeqFieldAgree(m0, m, K, "duties", DecodeDuty);
    SeqFieldAgree(m0, m, K, "profits", DecodeProfit);
    SeqFieldAgree(m0, m, K, "keywords", DecodeKeyword);
    FieldAgree(m0, m, K, "startDate", DecodeOptString, DefaultProject.startDate);
    FieldAgree(m0, m, K, "endDate", DecodeOptString, DefaultProject.endDate);
    FieldAgree(m0, m, K, "url", DecodeOptString, DefaultProject.url);
    SeqFieldAgree(m0, m, K, "roles", DecodeRole);
    FieldAgree(m0, m, K, "entity", DecodeOptString, DefaultProject.entity);
    FieldAgree(m0, m, K, "type", DecodeOptString, DefaultProject.kind);
  }

  lemma ProjectMissingKeywords(m: map<string, Json>)
    ensures DecodeProject(Obj(m)).Ok? ==>
      DecodeProject(Obj(m - {"keywords"})) == Ok(DecodeProject(Obj(m)).value.(keywords := DefaultProject.keywords))
  {
    var m0 := m - {"keywords"};
    var K := ProjectKeys - {"keywords"};
    assert Agree(m0, m, K);
    FieldAgree(m0, m, K, "name", DecodeOptString, DefaultProject.name);
    FieldAgree(m0, m, K, "description", DecodeOptString, DefaultProject.description);
    SeqFieldAgree(m0, m, K, "highlights", DecodeHighlight);
    SeqFieldAgree(m0, m, K, "duties", DecodeDuty);
    SeqFieldAgree(m0, m, K, "profits", DecodeProfit);
    SeqFieldAgree(m0, m, K, "features", DecodeFeature);
    FieldAgree(m0, m, K, "startDate", DecodeOptString, DefaultProject.startDate);
    FieldAgree(m0, m, K, "endDate", DecodeOptString, DefaultProject.endDate);
    FieldAgree(m0, m, K, "url", DecodeOptString, DefaultProject.url);
    SeqFieldAgree(m0, m, K, "roles", DecodeRole);
    FieldAgree(m0, m, K, "entity", DecodeOptString, DefaultProject.entity);
    FieldAgree(m0, m, K, "type", DecodeOptString, DefaultProject.kind);
  }

  /** Dropping a key from an object that decodes as a `Project` resets that field to its default. */
  lemma ProjectMissingKeysDefault(m: map<string, Json>)
    ensures DecodeProject(Obj(m)).Ok? ==>
      DecodeProject(Obj(m - {"name"})) == Ok(DecodeProject(Obj(m)).value.(name := DefaultProject.name))
    ensures DecodeProject(Obj(m)).Ok? ==>
      DecodeProject(Obj(m - {"description"})) == Ok(DecodeProject(Obj(m)).value.(description := DefaultProject.description))
    ensures DecodeProject(Obj(m)).Ok? ==>
      DecodeProject(Obj(m - {"highlights"})) == Ok(DecodeProject(Obj(m)).value.(highlights := DefaultProject.highlights))
    ensures DecodeProject(Obj(m)).Ok? ==>
      DecodeProject(Obj(m - {"duties"})) == Ok(DecodeProject(Obj(m)).value.(duties := DefaultProject.duties))
    ensures DecodeProject(Obj(m)).Ok? ==>
      DecodeProject(Obj(m - {"profits"})) == Ok(DecodeProject(Obj(m)).value.(profits := DefaultProject.profits))
    ensures DecodeProject(Obj(m)).Ok? ==>
      DecodeProject(Obj(m - {"features"})) == Ok(DecodeProject(Obj(m)).value.(features := DefaultProject.features))
    ensures DecodeProject(Obj(m)).Ok? ==>
      DecodeProject(Obj(m - {"keywords"})) == Ok(DecodeProject(Obj(m)).value.(keywords := DefaultProject.keywords))
  {
    ProjectMissingName(m);
    ProjectMissingDescription(m);
    ProjectMissingHighlights(m);
    ProjectMissingDuties(m);
    ProjectMissingProfits(m);
    ProjectMissingFeatures(m);
    ProjectMissingKeywords(m);
  }

  lemma MetaMissingCanonical(m: map<string, Json>)
    ensures DecodeMeta(Obj(m)).Ok? ==>
      DecodeMeta(Obj(m - {"canonical"})) == Ok(DecodeMeta(Obj(m)).value.(canonical := DefaultMeta.canonical))
  {
    var m0 := m - {"canonical"};
    var K := MetaKeys - {"canonical"};
    assert Agree(m0, m, K);
    FieldAgree(m0, m, K, "version", DecodeOptString, DefaultMeta.version);
    FieldAgree(m0, m, K, "lastModified", DecodeOptString, DefaultMeta.lastModified);
  }

  lemma MetaMissingVersion(m: map<string, Json>)
    ensures DecodeMeta(Obj(m)).Ok? ==>
      DecodeMeta(Obj(m - {"version"})) == Ok(DecodeMeta(Obj(m)).value.(version := DefaultMeta.version))
  {
    var m0 := m - {"version"};
    var K := MetaKeys - {"version"};
    assert Agree(m0, m, K);
    FieldAgree(m0, m, K, "canonical", DecodeOptString, DefaultMeta.canonical);
    FieldAgree(m0, m, K, "lastModified", DecodeOptString, DefaultMeta.lastModified);
  }

  lemma MetaMissingLastModified(m: map<string, Json>)
    ensures DecodeMeta(Obj(m)).Ok? ==>
      DecodeMeta(Obj(m - {"lastModified"})) == Ok(DecodeMeta(Obj(m)).value.(lastModified := DefaultMeta.lastModified))
  {
    var m0 := m - {"lastModified"};
    var K := MetaKeys - {"lastModified"};
    assert Agree(m0, m, K);
    FieldAgree(m0, m, K, "canonical", DecodeOptString, DefaultMeta.canonical);
    FieldAgree(m0, m, K, "version", DecodeOptString, DefaultMeta.version);
  }

  /** Dropping a key from an object that decodes as a `Meta` resets that field to its default. */
  lemma MetaMissingKeysDefault(m: map<string, Json>)
    ensures DecodeMeta(Obj(m)).Ok? ==>
      DecodeMeta(Obj(m - {"canonical"})) == Ok(DecodeMeta(Obj(m)).value.(canonical := DefaultMeta.canonical))
    ensures DecodeMeta(Obj(m)).Ok? ==>
      DecodeMeta(Obj(m - {"version"})) == Ok(DecodeMeta(Obj(m)).value.(version := DefaultMeta.version))
    ensures DecodeMeta(Obj(m)).Ok? ==>
      DecodeMeta(Obj(m - {"lastModified"})) == Ok(DecodeMeta(Obj(m)).value.(lastModified := DefaultMeta.lastModified))
  {
    MetaMissingCanonical(m);
    MetaMissingVersion(m);
    MetaMissingLastModified(m);
  }
}

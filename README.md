# json-resume in Dafny

A model of the `json-resume` Rust crate (`src/lib.rs`), which defines the
JSON Resume schema as Rust records. The model covers these pieces:

- The records and their defaults: `Resume`, `Basics`, `Location`, `Profile`,
  `Work`, `Position`, `Volunteer`, `Education`, `Award`, `Certificate`,
  `Publication`, `Skill`, `Language`, `Interest`, `Reference`, `Project`,
  `Feature` and `Meta`.
- The six string wrappers: `Highlight`, `Course`, `Keyword`, `Duty`, `Profit`
  and `Role`, with their `Display`.
- The wire mapping that serde derives from the crate's attributes.
- The date pattern that the `validate` feature attaches to every date field.

The files:

- `wrappers.dfy`: `Option` and `Result`.
- `json.dfy`: JSON values, and the field readers and writers serde uses:
  - a missing key takes the default;
  - a required field reports a missing key;
  - an optional string reads `null` as `None`;
  - a skipped field is left out of the object.
- `schema.dfy`: the records, their `Default` values, and `Config`.
  - `Config` is the `side-projects` cargo feature. `InBuild` says that
    without the feature a résumé has no side projects.
- `codec.dfy`: one encoder and one decoder per record. Both follow the
  crate's attributes:
  - `rename` gives `startDate`, `endDate`, `postalCode`, `countryCode`,
    `studyType`, `releaseDate`, `lastModified` and `sideProjects`;
  - the raw identifier `r#type` travels as `type`;
  - `skip_serializing_if` omits the field only where the attribute appears;
  - a container-level `#[serde(default)]` fills missing keys;
  - `Feature` has no default, so each of its keys is required.
- `roundtrip.dfy`: decoding what the encoder wrote gives back the same value,
  for every record. The `...Reads` and `...FromFields` lemmas are proof
  steps toward each round trip.
- `omission.dfy`: for every value of every record, which keys its encoder
  writes and what it writes under each.
- `keys.dfy`: each decoder reads only its own keys, so unknown keys are
  ignored.
- `defaults.dfy`: for every object that decodes, dropping a key the encoder
  always writes gives the same record with that field reset to its default.
- `wire_laws.dfy`: these wire rules, stated as properties:
  - omission on encode;
  - defaults on decode;
  - `null` handling;
  - renamed keys;
  - the required keys of `Feature`;
  - the `sideProjects` gate;
  - the transparent wrappers.
- `dates.dfy`: the pattern `^([1-2][0-9]{3}(-[0-1][0-9](-[0-3][0-9])?)?)$`
  as a predicate built like the expression, plus a position-wise reference
  definition. A lemma shows the two are the same.
- `validation.dfy`: the validation rules.
  - Per record, the violations are exactly the present date fields that fail
    the pattern. Each is named by its wire key, with the rejected value.
  - A whole-résumé walk collects violations under their paths. Every value
    it reports fails the pattern, and it reports nothing exactly when every
    date in the résumé is valid.

Three points of the code's behaviour that differ from what the JSON Resume
schema alone suggests:

- `Position` carries `#[serde(default)]` (src/lib.rs:195), so a work position
  without `title` decodes with the title `""`. A `title` that is not a
  string, `null` included, is an error (`WireLaws.PositionTitle`).
- A field is omitted on output only where it carries `skip_serializing_if`.
  The following are written out even when absent or empty:
  - every field of `Profile`, `Award`, `Certificate`, `Publication`,
    `Language`, `Interest`, `Feature` and `Meta` (absent values as `null`);
  - `Basics.location`;
  - `Position.title`;
  - `Project.name`, `Project.description` and the five lists of `Project`
    that precede `startDate`.
- `Meta.lastModified` carries no pattern (src/lib.rs:539-541), so it is not
  validated.

## Model

| member | source | states |
|---|---|---|
| Codec.EncodeResume | src/lib.rs:36-80 | the encoding is an object using only the root keys; `sideProjects` is among them only with the `side-projects` feature; which keys are written, and their values, is `Omission.ResumeWritesRecords`, `Omission.ResumeWritesSections1` and `Omission.ResumeWritesSections2` |
| Codec.EncodeBasics | src/lib.rs:82-112 | the encoding is an object that always has `location` (no skip attribute) and only `Basics` keys; which keys are written, and their values, is `Omission.BasicsWrites` |
| Codec.EncodeLocation | src/lib.rs:114-137 | the encoding is an object using only `Location` keys, `postalCode` and `countryCode` renamed; which keys are written, and their values, is `Omission.LocationWrites` |
| Codec.EncodeProfile | src/lib.rs:139-150 | no skip attribute: the encoding has exactly the three `Profile` keys |
| Codec.EncodeWork | src/lib.rs:152-191 | the encoding is an object using only `Work` keys; which keys are written, and their values, is `Omission.WorkWrites` |
| Codec.EncodePosition | src/lib.rs:193-213 | the encoding always has `title` and uses only `Position` keys; which keys are written, and their values, is `Omission.PositionWrites` |
| Codec.EncodeVolunteer | src/lib.rs:226-259 | the encoding is an object using only `Volunteer` keys; which keys are written, and their values, is `Omission.VolunteerWrites` |
| Codec.EncodeEducation | src/lib.rs:261-304 | the encoding is an object using only `Education` keys; which keys are written, and their values, is `Omission.EducationWrites` |
| Codec.EncodeAward | src/lib.rs:317-333 | no skip attribute: the encoding has exactly the four `Award` keys |
| Codec.EncodeCertificate | src/lib.rs:335-352 | no skip attribute: the encoding has exactly the four `Certificate` keys |
| Codec.EncodePublication | src/lib.rs:354-375 | no skip attribute: the encoding has exactly the five `Publication` keys |
| Codec.EncodeSkill | src/lib.rs:377-391 | the encoding is an object using only `Skill` keys; which keys are written, and their values, is `Omission.SkillWrites` |
| Codec.EncodeLanguage | src/lib.rs:404-413 | no skip attribute: the encoding has exactly the two `Language` keys |
| Codec.EncodeInterest | src/lib.rs:415-422 | no skip attribute: the encoding has exactly `name` and `keywords` |
| Codec.EncodeReference | src/lib.rs:424-435 | the encoding is an object using only `Reference` keys; which keys are written, and their values, is `Omission.ReferenceWrites` |
| Codec.EncodeFeature | src/lib.rs:488-496 | the encoding has exactly the five `Feature` keys |
| Codec.EncodeProject | src/lib.rs:437-486 | the encoding is an object using only `Project` keys, `r#type` as `type`; which keys are written, and their values, is `Omission.ProjectWrites` |
| Codec.EncodeMeta | src/lib.rs:528-542 | no skip attribute: the encoding has exactly the three `Meta` keys |
| Omission.ResumeWritesRecords | src/lib.rs:41-42 | `basics` and `meta` are written exactly when present, as their encoded records; `sideProjects` exactly when the feature is on and the list is non-empty, as its encoded array |
| Omission.ResumeWritesSections1 | src/lib.rs:43-57 | each of `work` … `publications` is written exactly when its list is non-empty, as the encoded list |
| Omission.ResumeWritesSections2 | src/lib.rs:58-71 | each of `skills` … `projects` is written exactly when its list is non-empty, as the encoded list |
| Omission.BasicsWrites | src/lib.rs:82-112 | each optional text field is written exactly when present, as its string; `location` always, as the encoded location; `profiles` exactly when non-empty |
| Omission.LocationWrites | src/lib.rs:114-137 | each of the five fields is written exactly when present, as its string |
| Omission.WorkWrites | src/lib.rs:152-191 | each optional text field is written exactly when present; `positions` and `highlights` exactly when non-empty, as their encoded arrays |
| Omission.PositionWrites | src/lib.rs:193-213 | `title` is always written, as its string; each date exactly when present |
| Omission.VolunteerWrites | src/lib.rs:226-259 | each optional text field is written exactly when present; `highlights` exactly when non-empty |
| Omission.EducationWrites | src/lib.rs:261-304 | each optional text field is written exactly when present; `courses` and the degree list exactly when non-empty |
| Omission.SkillWrites | src/lib.rs:377-391 | `name` and `level` are written exactly when present; `keywords` exactly when non-empty |
| Omission.ReferenceWrites | src/lib.rs:424-435 | `name` and `reference` are written exactly when present |
| Omission.ProjectWrites | src/lib.rs:437-486 | `name` and `description` are always written (`null` when absent) and so are the five unskipped lists; dates, `url`, `entity` and `type` exactly when present; `roles` exactly when non-empty |
| Omission.ProfileWrites | src/lib.rs:139-150 | every key is written: an absent value as `null`, a present one as its string |
| Omission.AwardWrites | src/lib.rs:317-333 | every key is written: an absent value as `null`, a present one as its string |
| Omission.CertificateWrites | src/lib.rs:335-352 | every key is written: an absent value as `null`, a present one as its string |
| Omission.PublicationWrites | src/lib.rs:354-375 | every key is written: an absent value as `null`, a present one as its string |
| Omission.LanguageWrites | src/lib.rs:404-413 | both keys are written: an absent value as `null`, a present one as its string |
| Omission.InterestWrites | src/lib.rs:415-422 | `name` is written as `null` or its string; `keywords` always, as the encoded list |
| Omission.FeatureWrites | src/lib.rs:488-496 | each of the five keys is written as its string |
| Omission.MetaWrites | src/lib.rs:528-542 | every key is written: an absent value as `null`, a present one as its string |
| Codec.DecodeResume | src/lib.rs:36-80 | no contract of its own; characterised by `RoundTrip.ResumeRoundTrip`, `KeyLaws.ResumeReadsOnlyKeys`, `WireLaws.UnknownKeyIgnored`, `WireLaws.NullBasicsReadsAsNone` |
| Codec.DecodeBasics | src/lib.rs:82-112 | no contract of its own; characterised by `RoundTrip.BasicsRoundTrip`, `KeyLaws.BasicsReadsOnlyKeys`, `WireLaws.NullRecordRejected`, `DefaultLaws.BasicsMissingKeysDefault` |
| Codec.DecodeLocation | src/lib.rs:114-137 | no contract of its own; characterised by `RoundTrip.LocationRoundTrip`, `KeyLaws.LocationReadsOnlyKeys`, `WireLaws.LocationCodeKeys` |
| Codec.DecodeProfile | src/lib.rs:139-150 | no contract of its own; characterised by `RoundTrip.ProfileRoundTrip`, `KeyLaws.ProfileReadsOnlyKeys`, `DefaultLaws.ProfileMissingKeysDefault` |
| Codec.DecodeWork | src/lib.rs:152-191 | no contract of its own; characterised by `RoundTrip.WorkRoundTrip`, `KeyLaws.WorkReadsOnlyKeys`, `WireLaws.NullReadsAsNone`, `WireLaws.WorkDateKeysRead` |
| Codec.DecodePosition | src/lib.rs:193-213 | no contract of its own; characterised by `RoundTrip.PositionRoundTrip`, `KeyLaws.PositionReadsOnlyKeys`, `WireLaws.PositionTitle`, `DefaultLaws.PositionMissingKeysDefault` |
| Codec.DecodeVolunteer | src/lib.rs:226-259 | no contract of its own; characterised by `RoundTrip.VolunteerRoundTrip`, `KeyLaws.VolunteerReadsOnlyKeys` |
| Codec.DecodeEducation | src/lib.rs:261-304 | no contract of its own; characterised by `RoundTrip.EducationRoundTrip`, `KeyLaws.EducationReadsOnlyKeys`, `WireLaws.EducationStudyTypeKey` |
| Codec.DecodeAward | src/lib.rs:317-333 | no contract of its own; characterised by `RoundTrip.AwardRoundTrip`, `KeyLaws.AwardReadsOnlyKeys`, `DefaultLaws.AwardMissingKeysDefault` |
| Codec.DecodeCertificate | src/lib.rs:335-352 | no contract of its own; characterised by `RoundTrip.CertificateRoundTrip`, `KeyLaws.CertificateReadsOnlyKeys`, `DefaultLaws.CertificateMissingKeysDefault` |
| Codec.DecodePublication | src/lib.rs:354-375 | no contract of its own; characterised by `RoundTrip.PublicationRoundTrip`, `KeyLaws.PublicationReadsOnlyKeys`, `WireLaws.CamelCaseDateKeys`, `DefaultLaws.PublicationMissingKeysDefault` |
| Codec.DecodeSkill | src/lib.rs:377-391 | no contract of its own; characterised by `RoundTrip.SkillRoundTrip`, `KeyLaws.SkillReadsOnlyKeys` |
| Codec.DecodeLanguage | src/lib.rs:404-413 | no contract of its own; characterised by `RoundTrip.LanguageRoundTrip`, `KeyLaws.LanguageReadsOnlyKeys`, `DefaultLaws.LanguageMissingKeysDefault` |
| Codec.DecodeInterest | src/lib.rs:415-422 | no contract of its own; characterised by `RoundTrip.InterestRoundTrip`, `KeyLaws.InterestReadsOnlyKeys`, `DefaultLaws.InterestMissingKeysDefault` |
| Codec.DecodeReference | src/lib.rs:424-435 | no contract of its own; characterised by `RoundTrip.ReferenceRoundTrip`, `KeyLaws.ReferenceReadsOnlyKeys` |
| Codec.DecodeProject | src/lib.rs:437-486 | no contract of its own; characterised by `RoundTrip.ProjectRoundTrip`, `KeyLaws.ProjectReadsOnlyKeys`, `WireLaws.ProjectTypeKeyRead`, `DefaultLaws.ProjectMissingKeysDefault` |
| Codec.DecodeFeature | src/lib.rs:488-496 | no contract of its own; characterised by `WireLaws.FeatureDecodesIff`, `WireLaws.FeatureMissingKey`, `RoundTrip.FeatureRoundTrip` |
| Codec.DecodeMeta | src/lib.rs:528-542 | no contract of its own; characterised by `RoundTrip.MetaRoundTrip`, `KeyLaws.MetaReadsOnlyKeys`, `WireLaws.CamelCaseDateKeys`, `DefaultLaws.MetaMissingKeysDefault` |
| Codec.EncodeHighlight | src/lib.rs:215-224 | no contract of its own; `RoundTrip.NewtypesRoundTrip` and `WireLaws.WrappersAreTransparent` show it writes the bare string |
| Codec.DecodeHighlight | src/lib.rs:215-224 | no contract of its own; `RoundTrip.NewtypesRoundTrip` and `WireLaws.WrappersAreTransparent` show it accepts exactly strings |
| Schema.Highlight.ToString | src/lib.rs:215-224 | no contract of its own; `WireLaws.WrappersAreTransparent` shows it equals the text written on the wire |
| Codec.EncodeCourse | src/lib.rs:306-315 | no contract of its own; `RoundTrip.NewtypesRoundTrip` and `WireLaws.WrappersAreTransparent` show it writes the bare string |
| Codec.DecodeCourse | src/lib.rs:306-315 | no contract of its own; `RoundTrip.NewtypesRoundTrip` and `WireLaws.WrappersAreTransparent` show it accepts exactly strings |
| Schema.Course.ToString | src/lib.rs:306-315 | no contract of its own; `WireLaws.WrappersAreTransparent` shows it equals the text written on the wire |
| Codec.EncodeKeyword | src/lib.rs:393-402 | no contract of its own; `RoundTrip.NewtypesRoundTrip` and `WireLaws.WrappersAreTransparent` show it writes the bare string |
| Codec.DecodeKeyword | src/lib.rs:393-402 | no contract of its own; `RoundTrip.NewtypesRoundTrip` and `WireLaws.WrappersAreTransparent` show it accepts exactly strings |
| Schema.Keyword.ToString | src/lib.rs:393-402 | no contract of its own; `WireLaws.WrappersAreTransparent` shows it equals the text written on the wire |
| Codec.EncodeDuty | src/lib.rs:498-506 | no contract of its own; `RoundTrip.NewtypesRoundTrip` and `WireLaws.WrappersAreTransparent` show it writes the bare string |
| Codec.DecodeDuty | src/lib.rs:498-506 | no contract of its own; `RoundTrip.NewtypesRoundTrip` and `WireLaws.WrappersAreTransparent` show it accepts exactly strings |
| Schema.Duty.ToString | src/lib.rs:498-506 | no contract of its own; `WireLaws.WrappersAreTransparent` shows it equals the text written on the wire |
| Codec.EncodeProfit | src/lib.rs:508-516 | no contract of its own; `RoundTrip.NewtypesRoundTrip` and `WireLaws.WrappersAreTransparent` show it writes the bare string |
| Codec.DecodeProfit | src/lib.rs:508-516 | no contract of its own; `RoundTrip.NewtypesRoundTrip` and `WireLaws.WrappersAreTransparent` show it accepts exactly strings |
| Schema.Profit.ToString | src/lib.rs:508-516 | no contract of its own; `WireLaws.WrappersAreTransparent` shows it equals the text written on the wire |
| Codec.EncodeRole | src/lib.rs:518-526 | no contract of its own; `RoundTrip.NewtypesRoundTrip` and `WireLaws.WrappersAreTransparent` show it writes the bare string |
| Codec.DecodeRole | src/lib.rs:518-526 | no contract of its own; `RoundTrip.NewtypesRoundTrip` and `WireLaws.WrappersAreTransparent` show it accepts exactly strings |
| Schema.Role.ToString | src/lib.rs:518-526 | no contract of its own; `WireLaws.WrappersAreTransparent` shows it equals the text written on the wire |
| RoundTrip.NewtypesRoundTrip | src/lib.rs:215-224 | each wrapper (`Highlight`, `Course`, `Keyword`, `Duty`, `Profit`, `Role`) decodes back from its encoding |
| RoundTrip.ProfileRoundTrip | src/lib.rs:139-150 | decoding an encoded `Profile` gives it back |
| RoundTrip.AwardRoundTrip | src/lib.rs:317-333 | decoding an encoded `Award` gives it back |
| RoundTrip.CertificateRoundTrip | src/lib.rs:335-352 | decoding an encoded `Certificate` gives it back |
| RoundTrip.PublicationRoundTrip | src/lib.rs:354-375 | decoding an encoded `Publication` gives it back |
| RoundTrip.LanguageRoundTrip | src/lib.rs:404-413 | decoding an encoded `Language` gives it back |
| RoundTrip.InterestRoundTrip | src/lib.rs:415-422 | decoding an encoded `Interest` gives it back |
| RoundTrip.FeatureRoundTrip | src/lib.rs:488-496 | decoding an encoded `Feature` gives it back |
| RoundTrip.MetaRoundTrip | src/lib.rs:528-542 | decoding an encoded `Meta` gives it back |
| RoundTrip.NullableBasicsRoundTrip | src/lib.rs:41-42 | a present `basics` decodes back as `Some` |
| RoundTrip.NullableMetaRoundTrip | src/lib.rs:77-79 | a present `meta` decodes back as `Some` |
| RoundTrip.LocationRoundTrip | src/lib.rs:114-137 | decoding an encoded `Location` gives it back; a skipped field returns as its default |
| RoundTrip.BasicsRoundTrip | src/lib.rs:82-112 | decoding an encoded `Basics` gives it back, nested location and profiles included |
| RoundTrip.PositionRoundTrip | src/lib.rs:193-213 | decoding an encoded `Position` gives it back |
| RoundTrip.WorkRoundTrip | src/lib.rs:152-191 | decoding an encoded `Work` gives it back, positions and highlights included |
| RoundTrip.VolunteerRoundTrip | src/lib.rs:226-259 | decoding an encoded `Volunteer` gives it back |
| RoundTrip.EducationRoundTrip | src/lib.rs:261-304 | decoding an encoded `Education` gives it back, degrees and courses included |
| RoundTrip.SkillRoundTrip | src/lib.rs:377-391 | decoding an encoded `Skill` gives it back |
| RoundTrip.ReferenceRoundTrip | src/lib.rs:424-435 | decoding an encoded `Reference` gives it back |
| RoundTrip.ProjectRoundTrip | src/lib.rs:437-486 | decoding an encoded `Project` gives it back, features included |
| RoundTrip.ResumeRoundTrip | src/lib.rs:36-80 | for every résumé the build can hold, decoding its encoding gives it back |
| Json.ItemsRoundTrip | src/lib.rs:43-44 | a vector decodes back item by item from its array, when every item does |
| Json.DecodeItems | src/lib.rs:43-44 | an array decodes exactly when every item does, and then into one value per item |
| Json.OptStringRoundTrip | src/lib.rs:121-122 | an `Option<String>` comes back from `null`/string, and from a skipped-or-string field |
| KeyLaws.ResumeReadsOnlyKeys | src/lib.rs:36-80 | two objects that agree on the root keys decode to the same result |
| KeyLaws.LocationReadsOnlyKeys | src/lib.rs:114-137 | `Location` decoding depends only on its five keys |
| KeyLaws.ProfileReadsOnlyKeys | src/lib.rs:139-150 | `Profile` decoding depends only on its three keys |
| KeyLaws.BasicsReadsOnlyKeys | src/lib.rs:82-112 | `Basics` decoding depends only on its nine keys |
| KeyLaws.PositionReadsOnlyKeys | src/lib.rs:193-213 | `Position` decoding depends only on its three keys |
| KeyLaws.WorkReadsOnlyKeys | src/lib.rs:152-191 | `Work` decoding depends only on its nine keys |
| KeyLaws.VolunteerReadsOnlyKeys | src/lib.rs:226-259 | `Volunteer` decoding depends only on its seven keys |
| KeyLaws.EducationReadsOnlyKeys | src/lib.rs:261-304 | `Education` decoding depends only on its nine keys |
| KeyLaws.AwardReadsOnlyKeys | src/lib.rs:317-333 | `Award` decoding depends only on its four keys |
| KeyLaws.CertificateReadsOnlyKeys | src/lib.rs:335-352 | `Certificate` decoding depends only on its four keys |
| KeyLaws.PublicationReadsOnlyKeys | src/lib.rs:354-375 | `Publication` decoding depends only on its five keys |
| KeyLaws.SkillReadsOnlyKeys | src/lib.rs:377-391 | `Skill` decoding depends only on its three keys |
| KeyLaws.LanguageReadsOnlyKeys | src/lib.rs:404-413 | `Language` decoding depends only on its two keys |
| KeyLaws.InterestReadsOnlyKeys | src/lib.rs:415-422 | `Interest` decoding depends only on its two keys |
| KeyLaws.ReferenceReadsOnlyKeys | src/lib.rs:424-435 | `Reference` decoding depends only on its two keys |
| KeyLaws.FeatureReadsOnlyKeys | src/lib.rs:488-496 | `Feature` decoding depends only on its five keys |
| KeyLaws.ProjectReadsOnlyKeys | src/lib.rs:437-486 | `Project` decoding depends only on its thirteen keys |
| KeyLaws.MetaReadsOnlyKeys | src/lib.rs:528-542 | `Meta` decoding depends only on its three keys |
| WireLaws.UnknownKeyIgnored | src/lib.rs:36-80 | adding a key outside the root keys leaves the résumé's decode unchanged |
| WireLaws.DefaultResumeEncodesEmpty | src/lib.rs:36-80 | the default résumé encodes as `{}`: every root field is skipped when absent or empty |
| WireLaws.DefaultsEncodeEmpty | src/lib.rs:114-137 | the defaults of `Location`, `Work`, `Volunteer`, `Education`, `Skill` and `Reference` encode as `{}` |
| WireLaws.DefaultBasicsEncodesLocation | src/lib.rs:108 | a default `Basics` encodes as `{"location": {}}` |
| WireLaws.ProjectAlwaysEmits | src/lib.rs:442-455 | a project always writes `name` and `description` (as `null` when absent) and its five unskipped lists |
| WireLaws.EmptyObjectDecodesToDefault | src/lib.rs:36-213 | `{}` decodes to the default `Resume`, `Basics`, `Location`, `Profile`, `Work` and `Position` |
| WireLaws.EmptyObjectDecodesToDefault2 | src/lib.rs:226-391 | `{}` decodes to the default `Volunteer`, `Education`, `Award`, `Certificate`, `Publication` and `Skill` |
| WireLaws.EmptyObjectDecodesToDefault3 | src/lib.rs:404-542 | `{}` decodes to the default `Language`, `Interest`, `Reference`, `Project` and `Meta` |
| WireLaws.PositionTitle | src/lib.rs:195-197 | a missing `title` decodes as `""`; a `title` that is not a string, `null` included, is rejected with its path |
| DefaultLaws.BasicsMissingKeysDefault | src/lib.rs:82-112 | for every object that decodes as a `Basics`, removing any one of `location` still decodes, to the same record with that field set to its default |
| DefaultLaws.ProfileMissingKeysDefault | src/lib.rs:139-150 | for every object that decodes as a `Profile`, removing any one of `network`, `username` and `url` still decodes, to the same record with that field set to its default |
| DefaultLaws.PositionMissingKeysDefault | src/lib.rs:193-213 | for every object that decodes as a `Position`, removing any one of `title` still decodes, to the same record with that field set to its default |
| DefaultLaws.AwardMissingKeysDefault | src/lib.rs:317-333 | for every object that decodes as a `Award`, removing any one of `title`, `date`, `awarder` and `summary` still decodes, to the same record with that field set to its default |
| DefaultLaws.CertificateMissingKeysDefault | src/lib.rs:335-352 | for every object that decodes as a `Certificate`, removing any one of `name`, `date`, `url` and `issuer` still decodes, to the same record with that field set to its default |
| DefaultLaws.PublicationMissingKeysDefault | src/lib.rs:354-375 | for every object that decodes as a `Publication`, removing any one of `name`, `publisher`, `releaseDate`, `url` and `summary` still decodes, to the same record with that field set to its default |
| DefaultLaws.LanguageMissingKeysDefault | src/lib.rs:404-413 | for every object that decodes as a `Language`, removing any one of `language` and `fluency` still decodes, to the same record with that field set to its default |
| DefaultLaws.InterestMissingKeysDefault | src/lib.rs:415-422 | for every object that decodes as a `Interest`, removing any one of `name` and `keywords` still decodes, to the same record with that field set to its default |
| DefaultLaws.ProjectMissingKeysDefault | src/lib.rs:437-486 | for every object that decodes as a `Project`, removing any one of `name`, `description`, `highlights`, `duties`, `profits`, `features` and `keywords` still decodes, to the same record with that field set to its default |
| DefaultLaws.MetaMissingKeysDefault | src/lib.rs:528-542 | for every object that decodes as a `Meta`, removing any one of `canonical`, `version` and `lastModified` still decodes, to the same record with that field set to its default |
| WireLaws.NullReadsAsNone | src/lib.rs:155-158 | for every object, `"name": null` in a work entry decodes exactly as a missing `name`; in the model any non-object résumé is rejected at the root (serde's array form of a record is left out) |
| WireLaws.NullBasicsReadsAsNone | src/lib.rs:41-42 | for every object, `"basics": null` decodes exactly as a missing `basics` |
| WireLaws.NullMetaReadsAsNone | src/lib.rs:77-79 | for every object, `"meta": null` decodes exactly as a missing `meta` |
| WireLaws.NullListRejected | src/lib.rs:165-167 | for every object, `"positions": null` fails the work entry's decode; when the rest decodes, the error is at `positions` |
| WireLaws.NullRecordRejected | src/lib.rs:107-108 | for every object, `"location": null` fails the `Basics` decode; when the rest decodes, the error is at `location` |
| WireLaws.FeatureDecodesIff | src/lib.rs:488-496 | a feature decodes exactly when all five keys hold strings, and then from those strings |
| WireLaws.FeatureMissingKey | src/lib.rs:488-496 | a missing feature key fails the decode; when it is the only fault, the error names that key |
| WireLaws.SideProjectsGated | src/lib.rs:72-76 | without the feature `sideProjects` is never written and is ignored on input; with it, a non-empty list is written |
| WireLaws.WorkDateKeys | src/lib.rs:174-187 | for every work entry, a present date is written under `startDate`/`endDate`; for every object, `start_date` and `end_date` change nothing in the decode |
| WireLaws.WorkDateKeysRead | src/lib.rs:174-187 | for every object that decodes, a string under `startDate`/`endDate` becomes that date |
| WireLaws.LocationCodeKeys | src/lib.rs:114-137 | `postalCode` and `countryCode` are the keys written and read; the snake_case spellings are ignored |
| WireLaws.EducationStudyTypeKey | src/lib.rs:261-304 | `studyType` is the key written and read; `study_type` is ignored |
| WireLaws.CamelCaseDateKeys | src/lib.rs:364-369 | `releaseDate` and `lastModified` are the keys written and read, the snake_case spellings never written |
| WireLaws.ProjectTypeKey | src/lib.rs:484-485 | the project kind is written under `type` when present and omitted when absent |
| WireLaws.ProjectTypeKeyRead | src/lib.rs:484-485 | a `type` key is read into the project kind |
| WireLaws.WrappersAreTransparent | src/lib.rs:498-526 | each wrapper encodes as its bare string, equal to its `Display`; only strings decode into one |
| DatePattern.MatchesDatePattern | src/lib.rs:177 | no contract of its own; characterised by `DatePattern.MatchesIffShape`, `DatePattern.MatchLengths` and the example lemmas |
| DatePattern.MatchesIffShape | src/lib.rs:177 | the pattern accepts exactly `[12]ddd`, `[12]ddd-[01]d` and `[12]ddd-[01]d-[0-3]d`, position by position |
| DatePattern.MatchLengths | src/lib.rs:177 | only strings of length 4, 7 or 10 match |
| DatePattern.TruncationMatches | src/lib.rs:177 | a matching date cut back to its year, or to year and month, still matches |
| DatePattern.AcceptedExamples | src/lib.rs:177 | `2021`, `2021-06`, `2021-06-15` and the calendar-invalid `2021-19-39` match |
| DatePattern.RejectedExamples | src/lib.rs:177 | `21-06-15`, `2021/06/15`, `June 2021`, `3021`, a trailing newline and the empty string do not match |
| Validation.DateOk | src/lib.rs:174-187 | no contract of its own: an absent date, or one that matches the pattern; `Validation.Violations` is stated in its terms |
| Validation.Violations | src/lib.rs:174-187 | the violations are exactly the present dates that fail the pattern, each under its key; none means every date is valid |
| Validation.WorkViolations | src/lib.rs:174-187 | a work entry's violations are exactly its failing `startDate`/`endDate`, with their values |
| Validation.PositionViolations | src/lib.rs:199-212 | a position's violations are exactly its failing dates, with their values |
| Validation.VolunteerViolations | src/lib.rs:239-252 | a volunteer entry's violations are exactly its failing dates, with their values |
| Validation.EducationViolations | src/lib.rs:281-294 | an education entry's violations are exactly its failing dates, with their values |
| Validation.AwardViolations | src/lib.rs:323-327 | an award is valid exactly when its `date` is absent or matches; otherwise the one violation names `date` |
| Validation.CertificateViolations | src/lib.rs:342-346 | a certificate is valid exactly when its `date` is absent or matches; otherwise the one violation names `date` |
| Validation.PublicationViolations | src/lib.rs:362-367 | a publication is valid exactly when `releaseDate` is absent or matches; otherwise the one violation names it |
| Validation.ProjectViolations | src/lib.rs:458-471 | a project's violations are exactly its failing dates, with their values |
| Validation.BothDatesReported | src/lib.rs:174-187 | two failing dates of one record are both reported, in field order |
| Validation.WorkTreeViolations | src/lib.rs:152-213 | a work entry and its positions report nothing exactly when all their dates are valid |
| Validation.EachAllFail | src/lib.rs:43-44 | collecting the violations of a list reports only values that fail the pattern |
| Validation.ResumeViolations | src/lib.rs:36-80 | every value the whole-résumé walk reports fails the pattern |
| Validation.ResumeViolationsIffValid | src/lib.rs:36-80 | the walk reports nothing exactly when every date in every dated record is valid |
| Validation.DefaultResumeValid | src/lib.rs:36-80 | a résumé with no dates has no violations |
| Validation.TwoViolationsReported | src/lib.rs:43-48 | a bad work start date and a bad education end date give exactly two violations, with their paths |

## Left out

- JSON text: parsing, printing, whitespace, escapes and key order are left out.
  Objects are maps, so duplicate keys, which serde rejects, cannot be
  expressed.
- Numbers are abstracted to integers, and booleans are kept only as values
  that the decoders refuse. No schema field holds either.
- serde also accepts a record written as a JSON array of its fields in
  order. This form is not modelled.
- When several fields of one object are bad, the decoder reports the first in
  field order. serde's choice of which error comes first is not modelled.
  serde_json reports a line and column and a message; this model reports
  instead a path of keys and the kind of error. The key path is the model's
  own addition, not something serde_json reports.
- The validation library's error type and message format are not modelled. A
  violation is a path of keys and indices plus the rejected value.
- Validation.ResumeViolations and Validation.WorkTreeViolations: the walk into nested records is a modelling
  choice. The crate derives the validator but does not show how far it
  descends into `Vec` and `Option` fields. Per-record validity is the verified
  fact.
- The test module (src/lib.rs:544-572) reads files from disk and is left out.
- The crate-level lint and documentation attributes are left out.
- The `Debug`, `Clone` and `PartialEq` derives are left out. Dafny datatypes
  already have structural equality.
- Codec.EncodeResume: its own contract bounds only the keys written. Which keys
  it writes, and their values, is stated for every input by Omission.ResumeWritesRecords, Omission.ResumeWritesSections1 and Omission.ResumeWritesSections2.
- Codec.EncodeBasics: its own contract bounds only the keys written. Which keys
  it writes, and their values, is stated for every input by Omission.BasicsWrites.
- Codec.EncodeLocation: its own contract bounds only the keys written. Which keys
  it writes, and their values, is stated for every input by Omission.LocationWrites.
- Codec.EncodeWork: its own contract bounds only the keys written. Which keys
  it writes, and their values, is stated for every input by Omission.WorkWrites.
- Codec.EncodePosition: its own contract bounds only the keys written. Which keys
  it writes, and their values, is stated for every input by Omission.PositionWrites.
- Codec.EncodeVolunteer: its own contract bounds only the keys written. Which keys
  it writes, and their values, is stated for every input by Omission.VolunteerWrites.
- Codec.EncodeEducation: its own contract bounds only the keys written. Which keys
  it writes, and their values, is stated for every input by Omission.EducationWrites.
- Codec.EncodeSkill: its own contract bounds only the keys written. Which keys
  it writes, and their values, is stated for every input by Omission.SkillWrites.
- Codec.EncodeReference: its own contract bounds only the keys written. Which keys
  it writes, and their values, is stated for every input by Omission.ReferenceWrites.
- Codec.EncodeProject: its own contract bounds only the keys written. Which keys
  it writes, and their values, is stated for every input by Omission.ProjectWrites.

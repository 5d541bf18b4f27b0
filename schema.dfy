/**
 * The JSON Resume record types. Every record is an immutable value; a Rust
 * `Option<String>` is an `Option<string>`, a `Vec<T>` a `seq<T>`. Field names are
 * Dafny's camel case; the wire keys they map to are fixed in module Codec.
 */
module Schema {
  import opened Wrappers

  // ---------------------------------------------------------------------------
  // Single-string newtypes. Each is its own type; `ToString` is its `Display`.

  /** e.g. `Increased profits by 20% from 2011-2012 through viral advertising` */
  datatype Highlight = Highlight(text: string) {
    function ToString(): string { text }
  }

  /** e.g. `H1302 - Introduction to American history` */
  datatype Course = Course(text: string) {
    function ToString(): string { text }
  }

  /** e.g. `HTML` */
  datatype Keyword = Keyword(text: string) {
    function ToString(): string { text }
  }

  datatype Duty = Duty(text: string) {
    function ToString(): string { text }
  }

  datatype Profit = Profit(text: string) {
    function ToString(): string { text }
  }

  /** e.g. `Team Lead`, `Speaker`, `Writer` */
  datatype Role = Role(text: string) {
    function ToString(): string { text }
  }

  // ---------------------------------------------------------------------------
  // Records

  datatype Location = Location(
    address: Option<string>,
    postalCode: Option<string>,
    city: Option<string>,
    /** ISO-3166-1 ALPHA-2, e.g. `US` */
    countryCode: Option<string>,
    region: Option<string>)

  datatype Profile = Profile(
    network: Option<string>,
    username: Option<string>,
    url: Option<string>)

  datatype Basics = Basics(
    name: Option<string>,
    /** The Rust field `label` (a Dafny keyword), e.g. `Web Developer`. */
    labelText: Option<string>,
    image: Option<string>,
    email: Option<string>,
    phone: Option<string>,
    url: Option<string>,
    summary: Option<string>,
    /** Held by value: always present, though all its fields are optional. */
    location: Location,
    profiles: seq<Profile>)

  /** One position held within a `Work` entry; `title` is a plain string. */
  datatype Position = Position(
    title: string,
    startDate: Option<string>,
    endDate: Option<string>)

  datatype Work = Work(
    name: Option<string>,
    location: Option<string>,
    description: Option<string>,
    positions: seq<Position>,
    position: Option<string>,
    url: Option<string>,
    startDate: Option<string>,
    endDate: Option<string>,
    highlights: seq<Highlight>)

  datatype Volunteer = Volunteer(
    organization: Option<string>,
    position: Option<string>,
    url: Option<string>,
    startDate: Option<string>,
    endDate: Option<string>,
    summary: Option<string>,
    highlights: seq<Highlight>)

  datatype Education = Education(
    institution: Option<string>,
    url: Option<string>,
    degrees: seq<string>,
    area: Option<string>,
    studyType: Option<string>,
    startDate: Option<string>,
    endDate: Option<string>,
    score: Option<string>,
    courses: seq<Course>)

  datatype Award = Award(
    title: Option<string>,
    date: Option<string>,
    awarder: Option<string>,
    summary: Option<string>)

  datatype Certificate = Certificate(
    name: Option<string>,
    date: Option<string>,
    url: Option<string>,
    issuer: Option<string>)

  datatype Publication = Publication(
    name: Option<string>,
    publisher: Option<string>,
    releaseDate: Option<string>,
    url: Option<string>,
    summary: Option<string>)

  datatype Skill = Skill(
    name: Option<string>,
    level: Option<string>,
    keywords: seq<Keyword>)

  datatype Language = Language(
    language: Option<string>,
    fluency: Option<string>)

  datatype Interest = Interest(
    name: Option<string>,
    keywords: seq<Keyword>)

  datatype Reference = Reference(
    name: Option<string>,
    reference: Option<string>)

  /** A structured project feature; every field is required. */
  datatype Feature = Feature(
    name: string,
    situation: string,
    task: string,
    action: string,
    result: string)

  datatype Project = Project(
    name: Option<string>,
    description: Option<string>,
    highlights: seq<Highlight>,
    duties: seq<Duty>,
    profits: seq<Profit>,
    features: seq<Feature>,
    keywords: seq<Keyword>,
    startDate: Option<string>,
    endDate: Option<string>,
    url: Option<string>,
    roles: seq<Role>,
    entity: Option<string>,
    /** The Rust field `r#type`; `type` is a reserved word in both languages. */
    kind: Option<string>)

  datatype Meta = Meta(
    canonical: Option<string>,
    version: Option<string>,
    lastModified: Option<string>)

  datatype Resume = Resume(
    basics: Option<Basics>,
    work: seq<Work>,
    volunteer: seq<Volunteer>,
    education: seq<Education>,
    awards: seq<Award>,
    certificates: seq<Certificate>,
    publications: seq<Publication>,
    skills: seq<Skill>,
    languages: seq<Language>,
    interests: seq<Interest>,
    references: seq<Reference>,
    projects: seq<Project>,
    /** Exists only in a build with the `side-projects` feature; see `Config`. */
    sideProjects: seq<Project>,
    meta: Option<Meta>)

  // ---------------------------------------------------------------------------
  // Build features

  /** The cargo feature `side-projects`, which adds `Resume.sideProjects`. */
  datatype Config = Config(sideProjects: bool)

  /** `r` is a value of the build `cfg`: without the feature the field does not exist. */
  predicate InBuild(cfg: Config, r: Resume) {
    cfg.sideProjects || r.sideProjects == []
  }

  // ---------------------------------------------------------------------------
  // `Default` values: optional fields absent, vectors empty, strings empty.
  // The newtypes and `Feature` have none.

  const DefaultLocation := Location(None, None, None, None, None)
  const DefaultProfile := Profile(None, None, None)
  const DefaultBasics := Basics(None, None, None, None, None, None, None, DefaultLocation, [])
  const DefaultPosition := Position("", None, None)
  const DefaultWork := Work(None, None, None, [], None, None, None, None, [])
  const DefaultVolunteer := Volunteer(None, None, None, None, None, None, [])
  const DefaultEducation := Education(None, None, [], None, None, None, None, None, [])
  const DefaultAward := Award(None, None, None, None)
  const DefaultCertificate := Certificate(None, None, None, None)
  const DefaultPublication := Publication(None, None, None, None, None)
  const DefaultSkill := Skill(None, None, [])
  const DefaultLanguage := Language(None, None)
  const DefaultInterest := Interest(None, [])
  const DefaultReference := Reference(None, None)
  const DefaultProject := Project(None, None, [], [], [], [], [], None, None, None, [], None, None)
  const DefaultMeta := Meta(None, None, None)
  const DefaultResume := Resume(None, [], [], [], [], [], [], [], [], [], [], [], [], None)
}

/** The SRS record the wizard edits (`SRSData` in src/pages/Index.tsx), its initial value,
    and typed names for the fields the step forms address by string. */
module Srs {

  datatype ProjectInfo = ProjectInfo(
    companyName: string, name: string, version: string,
    description: string, stakeholders: string, scope: string)

  datatype FunctionalRequirements = FunctionalRequirements(
    userStories: seq<string>, systemFeatures: seq<string>, businessRules: seq<string>)

  datatype NonFunctionalRequirements = NonFunctionalRequirements(
    performance: string, security: string, usability: string,
    reliability: string, scalability: string)

  datatype SystemArchitecture = SystemArchitecture(
    overview: string, components: seq<string>, dataFlow: string, interfaces: string)

  datatype Constraints = Constraints(
    technical: seq<string>, business: seq<string>, regulatory: seq<string>)

  datatype SrsData = SrsData(
    projectInfo: ProjectInfo,
    functionalRequirements: FunctionalRequirements,
    nonFunctionalRequirements: NonFunctionalRequirements,
    systemArchitecture: SystemArchitecture,
    constraints: Constraints)

  /** The string-list fields, each named by its section and field as the step forms do. */
  datatype ListField =
    | UserStories | SystemFeatures | BusinessRules
    | Components
    | Technical | Business | Regulatory

  /** The flat string fields the step forms replace with `{ ...prev.section, [field]: value }`. */
  datatype ProjectField = CompanyName | Name | Version | Description | Stakeholders | Scope
  datatype NonFunctionalField = Performance | Security | Usability | Reliability | Scalability
  datatype ArchitectureField = Overview | DataFlow | Interfaces

  function GetList(d: SrsData, f: ListField): seq<string> {
    match f
    case UserStories => d.functionalRequirements.userStories
    case SystemFeatures => d.functionalRequirements.systemFeatures
    case BusinessRules => d.functionalRequirements.businessRules
    case Components => d.systemArchitecture.components
    case Technical => d.constraints.technical
    case Business => d.constraints.business
    case Regulatory => d.constraints.regulatory
  }

  /** `{ ...prev, [section]: { ...prev[section], [field]: xs } }` */
  function SetList(d: SrsData, f: ListField, xs: seq<string>): (r: SrsData)
    ensures GetList(r, f) == xs
    ensures forall g :: g != f ==> GetList(r, g) == GetList(d, g)
    ensures SameScalars(r, d)
  {
    match f
    case UserStories => d.(functionalRequirements := d.functionalRequirements.(userStories := xs))
    case SystemFeatures => d.(functionalRequirements := d.functionalRequirements.(systemFeatures := xs))
    case BusinessRules => d.(functionalRequirements := d.functionalRequirements.(businessRules := xs))
    case Components => d.(systemArchitecture := d.systemArchitecture.(components := xs))
    case Technical => d.(constraints := d.constraints.(technical := xs))
    case Business => d.(constraints := d.constraints.(business := xs))
    case Regulatory => d.(constraints := d.constraints.(regulatory := xs))
  }

  /** Two records agree on every field that is not a string list. */
  predicate SameScalars(a: SrsData, b: SrsData) {
    && a.projectInfo == b.projectInfo
    && a.nonFunctionalRequirements == b.nonFunctionalRequirements
    && a.systemArchitecture.overview == b.systemArchitecture.overview
    && a.systemArchitecture.dataFlow == b.systemArchitecture.dataFlow
    && a.systemArchitecture.interfaces == b.systemArchitecture.interfaces
  }

  /** A record is determined by its lists and its other fields. */
  lemma Extensionality(a: SrsData, b: SrsData)
    requires SameScalars(a, b)
    requires forall f :: GetList(a, f) == GetList(b, f)
    ensures a == b
  {
    assert GetList(a, UserStories) == GetList(b, UserStories);
    assert GetList(a, SystemFeatures) == GetList(b, SystemFeatures);
    assert GetList(a, BusinessRules) == GetList(b, BusinessRules);
    assert GetList(a, Components) == GetList(b, Components);
    assert GetList(a, Technical) == GetList(b, Technical);
    assert GetList(a, Business) == GetList(b, Business);
    assert GetList(a, Regulatory) == GetList(b, Regulatory);
  }

  /** The record the wizard starts from: every field blank except the version, every list `['']`. */
  function Initial(): (d: SrsData)
    ensures forall f :: GetList(d, f) == [""]
    ensures d.projectInfo.version == "1.0"
  {
    SrsData(
      ProjectInfo("", "", "1.0", "", "", ""),
      FunctionalRequirements([""], [""], [""]),
      NonFunctionalRequirements("", "", "", "", ""),
      SystemArchitecture("", [""], "", ""),
      Constraints([""], [""], [""]))
  }

  /** Every string list holds at least one entry. */
  predicate ListsNonEmpty(d: SrsData) {
    forall f :: GetList(d, f) != []
  }
}

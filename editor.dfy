/** The record updates of src/pages/Index.tsx: `addArrayItem`, `updateArrayItem`,
    `removeArrayItem` (spread / map / filter over one string list) and the per-section
    `onChange` handlers that replace one flat field. All return a new record. */
module Editor {
  import opened Srs

  /** `xs.map((item, i) => i === index ? value : item)`, where `offset` is the position
      of `xs[0]` in the list being mapped. */
  function MapIndexed(xs: seq<string>, index: int, value: string, offset: int): (r: seq<string>)
    ensures |r| == |xs|
    ensures forall k :: 0 <= k < |xs| ==> r[k] == if offset + k == index then value else xs[k]
  {
    if xs == [] then []
    else [if offset == index then value else xs[0]] + MapIndexed(xs[1..], index, value, offset + 1)
  }

  /** `xs.filter((_, i) => i !== index)`, where `offset` is the position of `xs[0]`. */
  function FilterIndexed(xs: seq<string>, index: int, offset: int): (r: seq<string>)
    ensures offset <= index < offset + |xs| ==>
      r == xs[..index - offset] + xs[index - offset + 1..]
    ensures !(offset <= index < offset + |xs|) ==> r == xs
  {
    if xs == [] then []
    else
      var rest := FilterIndexed(xs[1..], index, offset + 1);
      if offset == index then
        assert rest == xs[1..];
        rest
      else
        assert index != offset && offset <= index < offset + |xs| ==>
          [xs[0]] + xs[1..][..index - offset - 1] == xs[..index - offset];
        [xs[0]] + rest
  }

  /** The list `updateArrayItem` produces. */
  function ReplaceAt(xs: seq<string>, index: int, value: string): seq<string> {
    MapIndexed(xs, index, value, 0)
  }

  /** The list `removeArrayItem` produces. */
  function RemoveAt(xs: seq<string>, index: int): (r: seq<string>)
    ensures 0 <= index < |xs| ==> |r| == |xs| - 1 && r == xs[..index] + xs[index + 1..]
    ensures !(0 <= index < |xs|) ==> r == xs
  {
    FilterIndexed(xs, index, 0)
  }

  /** `updateArrayItem` replaces the entry at `index`, verbatim, and nothing else; an index
      outside the list changes nothing. */
  lemma ReplaceAtMeaning(xs: seq<string>, index: int, value: string)
    ensures |ReplaceAt(xs, index, value)| == |xs|
    ensures 0 <= index < |xs| ==> ReplaceAt(xs, index, value) == xs[index := value]
    ensures !(0 <= index < |xs|) ==> ReplaceAt(xs, index, value) == xs
  {
  }

  /** `addArrayItem(section, field)`: append one empty entry. */
  function AddItem(d: SrsData, f: ListField): (r: SrsData)
    ensures GetList(r, f) == GetList(d, f) + [""]
    ensures forall g :: g != f ==> GetList(r, g) == GetList(d, g)
    ensures SameScalars(r, d)
  {
    SetList(d, f, GetList(d, f) + [""])
  }

  /** `updateArrayItem(section, field, index, value)` */
  function UpdateItem(d: SrsData, f: ListField, index: int, value: string): (r: SrsData)
    ensures |GetList(r, f)| == |GetList(d, f)|
    ensures forall k :: 0 <= k < |GetList(d, f)| ==>
      GetList(r, f)[k] == if k == index then value else GetList(d, f)[k]
    ensures forall g :: g != f ==> GetList(r, g) == GetList(d, g)
    ensures SameScalars(r, d)
  {
    SetList(d, f, ReplaceAt(GetList(d, f), index, value))
  }

  /** `removeArrayItem(section, field, index)`: drop the entry at `index`, keeping the others
      in order. It does not itself refuse to empty a list. */
  function RemoveItem(d: SrsData, f: ListField, index: int): (r: SrsData)
    ensures 0 <= index < |GetList(d, f)| ==>
      GetList(r, f) == GetList(d, f)[..index] + GetList(d, f)[index + 1..]
    ensures !(0 <= index < |GetList(d, f)|) ==> r == d
    ensures forall g :: g != f ==> GetList(r, g) == GetList(d, g)
    ensures SameScalars(r, d)
  {
    var r := SetList(d, f, RemoveAt(GetList(d, f), index));
    if !(0 <= index < |GetList(d, f)|) then
      Extensionality(r, d);
      r
    else r
  }

  /** Removing the entry just added restores the record. */
  lemma AddThenRemoveIsIdentity(d: SrsData, f: ListField)
    ensures RemoveItem(AddItem(d, f), f, |GetList(d, f)|) == d
  {
    var added := AddItem(d, f);
    var n := |GetList(d, f)|;
    var r := RemoveItem(added, f, n);
    assert GetList(added, f)[..n] + GetList(added, f)[n + 1..] == GetList(d, f);
    Extensionality(r, d);
  }

  /** Appending, editing the new entry and removing it again restores the record. */
  lemma AddUpdateRemoveIsIdentity(d: SrsData, f: ListField, value: string)
    ensures
      var n := |GetList(d, f)|;
      RemoveItem(UpdateItem(AddItem(d, f), f, n, value), f, n) == d
  {
    var n := |GetList(d, f)|;
    var updated := UpdateItem(AddItem(d, f), f, n, value);
    var r := RemoveItem(updated, f, n);
    assert GetList(updated, f)[..n] == GetList(d, f);
    assert GetList(r, f) == GetList(d, f);
    Extensionality(r, d);
  }

  /** Removing the only entry of a list leaves it empty: the floor of one entry is kept by the
      forms, which offer the remove button only while a list has more than one entry. */
  lemma RemoveOnlyEntryEmptiesList(d: SrsData, f: ListField)
    requires |GetList(d, f)| == 1
    ensures GetList(RemoveItem(d, f, 0), f) == []
  {
  }

  lemma AddKeepsListsNonEmpty(d: SrsData, f: ListField)
    requires ListsNonEmpty(d)
    ensures ListsNonEmpty(AddItem(d, f))
  {
    var r := AddItem(d, f);
    forall g ensures GetList(r, g) != [] {
      if g != f { assert GetList(r, g) == GetList(d, g); }
    }
  }

  lemma UpdateKeepsListsNonEmpty(d: SrsData, f: ListField, index: int, value: string)
    requires ListsNonEmpty(d)
    ensures ListsNonEmpty(UpdateItem(d, f, index, value))
  {
    var r := UpdateItem(d, f, index, value);
    forall g ensures GetList(r, g) != [] {
      if g != f { assert GetList(r, g) == GetList(d, g); } else { assert |GetList(r, g)| == |GetList(d, g)|; }
    }
  }

  lemma RemoveKeepsListsNonEmpty(d: SrsData, f: ListField, index: int)
    requires ListsNonEmpty(d) && |GetList(d, f)| > 1
    ensures ListsNonEmpty(RemoveItem(d, f, index))
  {
    var r := RemoveItem(d, f, index);
    forall g ensures GetList(r, g) != [] {
      if g != f { assert GetList(r, g) == GetList(d, g); }
    }
  }

  /** Every update the forms can issue keeps every list non-empty. */
  lemma EditsKeepListsNonEmpty(d: SrsData, f: ListField, index: int, value: string)
    requires ListsNonEmpty(d)
    ensures ListsNonEmpty(AddItem(d, f))
    ensures ListsNonEmpty(UpdateItem(d, f, index, value))
    ensures |GetList(d, f)| > 1 ==> ListsNonEmpty(RemoveItem(d, f, index))
  {
    AddKeepsListsNonEmpty(d, f);
    UpdateKeepsListsNonEmpty(d, f, index, value);
    if |GetList(d, f)| > 1 {
      RemoveKeepsListsNonEmpty(d, f, index);
    }
  }

  // ----- flat field replacement -----

  function GetProjectField(p: ProjectInfo, f: ProjectField): string {
    match f
    case CompanyName => p.companyName
    case Name => p.name
    case Version => p.version
    case Description => p.description
    case Stakeholders => p.stakeholders
    case Scope => p.scope
  }

  function GetNonFunctionalField(n: NonFunctionalRequirements, f: NonFunctionalField): string {
    match f
    case Performance => n.performance
    case Security => n.security
    case Usability => n.usability
    case Reliability => n.reliability
    case Scalability => n.scalability
  }

  function GetArchitectureField(a: SystemArchitecture, f: ArchitectureField): string {
    match f
    case Overview => a.overview
    case DataFlow => a.dataFlow
    case Interfaces => a.interfaces
  }

  /** `projectInfo: { ...prev.projectInfo, [field]: value }` */
  function SetProjectField(d: SrsData, f: ProjectField, value: string): (r: SrsData)
    ensures GetProjectField(r.projectInfo, f) == value
    ensures forall g :: g != f ==> GetProjectField(r.projectInfo, g) == GetProjectField(d.projectInfo, g)
    ensures r.functionalRequirements == d.functionalRequirements
    ensures r.nonFunctionalRequirements == d.nonFunctionalRequirements
    ensures r.systemArchitecture == d.systemArchitecture && r.constraints == d.constraints
  {
    var p := d.projectInfo;
    d.(projectInfo := match f
      case CompanyName => p.(companyName := value)
      case Name => p.(name := value)
      case Version => p.(version := value)
      case Description => p.(description := value)
      case Stakeholders => p.(stakeholders := value)
      case Scope => p.(scope := value))
  }

  /** `nonFunctionalRequirements: { ...prev.nonFunctionalRequirements, [field]: value }` */
  function SetNonFunctionalField(d: SrsData, f: NonFunctionalField, value: string): (r: SrsData)
    ensures GetNonFunctionalField(r.nonFunctionalRequirements, f) == value
    ensures forall g :: g != f ==>
      GetNonFunctionalField(r.nonFunctionalRequirements, g) == GetNonFunctionalField(d.nonFunctionalRequirements, g)
    ensures r.projectInfo == d.projectInfo && r.functionalRequirements == d.functionalRequirements
    ensures r.systemArchitecture == d.systemArchitecture && r.constraints == d.constraints
  {
    var n := d.nonFunctionalRequirements;
    d.(nonFunctionalRequirements := match f
      case Performance => n.(performance := value)
      case Security => n.(security := value)
      case Usability => n.(usability := value)
      case Reliability => n.(reliability := value)
      case Scalability => n.(scalability := value))
  }

  /** `systemArchitecture: { ...prev.systemArchitecture, [field]: value }` for its text fields. */
  function SetArchitectureField(d: SrsData, f: ArchitectureField, value: string): (r: SrsData)
    ensures GetArchitectureField(r.systemArchitecture, f) == value
    ensures forall g :: g != f ==>
      GetArchitectureField(r.systemArchitecture, g) == GetArchitectureField(d.systemArchitecture, g)
    ensures r.systemArchitecture.components == d.systemArchitecture.components
    ensures r.projectInfo == d.projectInfo && r.functionalRequirements == d.functionalRequirements
    ensures r.nonFunctionalRequirements == d.nonFunctionalRequirements && r.constraints == d.constraints
  {
    var a := d.systemArchitecture;
    d.(systemArchitecture := match f
      case Overview => a.(overview := value)
      case DataFlow => a.(dataFlow := value)
      case Interfaces => a.(interfaces := value))
  }

  /** Replacing a flat field leaves every list as it was. */
  lemma FieldSettersKeepLists(d: SrsData, pf: ProjectField, nf: NonFunctionalField,
                              af: ArchitectureField, value: string, f: ListField)
    ensures GetList(SetProjectField(d, pf, value), f) == GetList(d, f)
    ensures GetList(SetNonFunctionalField(d, nf, value), f) == GetList(d, f)
    ensures GetList(SetArchitectureField(d, af, value), f) == GetList(d, f)
  {
  }
}

/** What `generatePDF` in src/pages/Index.tsx writes, abstracted from positions and styling:
    the ordered list of pieces of text it draws for a record, which sections and fields it
    includes or skips, the company-name fallback and the name the file is saved under. */
module Document {
  import opened Text
  import opened Srs

  /** One thing the layout draws. `Field` is a caption with its value on the same line, `Label`
      a sub-heading, `Paragraph` a wrapped text block, `Bullet` one `• entry` of a list. */
  datatype Piece =
    | Title(text: string)
    | Subtitle(projectName: string)
    | Rule
    | Heading(text: string)
    | Field(caption: string, value: string)
    | Label(text: string)
    | Paragraph(text: string)
    | Bullet(entry: string)
    | Footer(company: string)

  const DocumentTitle: string := "Software Requirements Specification"
  const Heading1: string := "1. Project Information"
  const Heading2: string := "2. Functional Requirements"
  const Heading3: string := "3. Non-Functional Requirements"
  const Heading4: string := "4. System Architecture"
  const Heading5: string := "5. Constraints & Dependencies"
  const DefaultCompany: string := "SRS Generator Pro"
  const DefaultFileName: string := "SRS_Document.pdf"
  const FileSuffix: string := "_SRS.pdf"

  // ----- header name and file name -----

  /** `companyName || 'SRS Generator Pro'`, used by the page header and the footer. */
  function CompanyOrDefault(companyName: string): (r: string)
    ensures r != ""
    ensures companyName != "" ==> r == companyName
    ensures companyName == "" ==> r == DefaultCompany
  {
    if companyName != "" then companyName else DefaultCompany
  }

  /** A character matched by `[a-z0-9]` under the `i` flag. */
  predicate IsAsciiAlnum(c: char) {
    ('a' <= c <= 'z') || ('A' <= c <= 'Z') || ('0' <= c <= '9')
  }

  /** `s.replace(/[^a-z0-9]/gi, '_')`: every other character becomes one underscore. */
  function Sanitize(s: string): (r: string)
    ensures |r| == |s|
    ensures forall k :: 0 <= k < |s| ==> r[k] == if IsAsciiAlnum(s[k]) then s[k] else '_'
  {
    if s == [] then []
    else [if IsAsciiAlnum(s[0]) then s[0] else '_'] + Sanitize(s[1..])
  }

  /** The name `doc.save` is given. */
  function FileName(projectName: string): (r: string)
    ensures projectName == "" ==> r == DefaultFileName
    ensures projectName != "" ==>
      && |r| == |projectName| + |FileSuffix|
      && r[|projectName|..] == FileSuffix
      && forall k :: 0 <= k < |projectName| ==>
           r[k] == if IsAsciiAlnum(projectName[k]) then projectName[k] else '_'
  {
    if projectName != "" then Sanitize(projectName) + FileSuffix else DefaultFileName
  }

  /** Whatever the project is called, the file name uses only letters, digits, `_` and `.`,
      and ends in `.pdf`. */
  lemma FileNameIsSafe(projectName: string)
    ensures var r := FileName(projectName);
      && |r| >= 4 && r[|r| - 4..] == ".pdf"
      && forall k :: 0 <= k < |r| ==> IsAsciiAlnum(r[k]) || r[k] == '_' || r[k] == '.'
  {
    var r := FileName(projectName);
    if projectName != "" {
      forall k | 0 <= k < |r| ensures IsAsciiAlnum(r[k]) || r[k] == '_' || r[k] == '.' {
        if k >= |projectName| { assert r[k] == FileSuffix[k - |projectName|]; }
      }
    }
  }

  /** Two project names with the same sanitized form share a file name: the mapping is not
      injective, and two distinct project names yield the same file name. */
  lemma FileNamesCanCollide()
    ensures FileName("A B") == FileName("A-B") == "A_B_SRS.pdf"
  {
  }

  // ----- blocks -----

  /** A caption with its value on one line, skipped when the value is empty. */
  function InlineField(caption: string, value: string): seq<Piece> {
    if value != "" then [Field(caption, value)] else []
  }

  /** A sub-heading over a wrapped paragraph, skipped when the value is empty. */
  function TextBlock(caption: string, value: string): seq<Piece> {
    if value != "" then [Label(caption), Paragraph(value)] else []
  }

  function BulletPieces(xs: seq<string>): (r: seq<Piece>)
    ensures |r| == |xs| && forall k {:trigger r[k]} :: 0 <= k < |xs| ==> r[k] == Bullet(xs[k])
  {
    if xs == [] then [] else BulletPieces(xs[..|xs| - 1]) + [Bullet(xs[|xs| - 1])]
  }

  /** A sub-heading over one bullet per entry with text, skipped when no entry has text. */
  function ListBlock(caption: string, xs: seq<string>): seq<Piece> {
    if AnyHasText(xs) then [Label(caption)] + BulletPieces(NonBlank(xs)) else []
  }

  /** `TextBlock(title + ":", value)` for each entry of a `{ key, title }` table, in order. */
  function TextBlocks(entries: seq<(string, string)>): seq<Piece> {
    if entries == [] then []
    else
      var last := entries[|entries| - 1];
      TextBlocks(entries[..|entries| - 1]) + TextBlock(last.0 + ":", last.1)
  }

  /** `ListBlock(title + ":", list)` for each entry of a `{ key, title }` table, in order. */
  function ListBlocks(entries: seq<(string, seq<string>)>): seq<Piece> {
    if entries == [] then []
    else
      var last := entries[|entries| - 1];
      ListBlocks(entries[..|entries| - 1]) + ListBlock(last.0 + ":", last.1)
  }

  // ----- sections -----

  function NonFunctionalEntries(n: NonFunctionalRequirements): seq<(string, string)> {
    [ ("Performance Requirements", n.performance),
      ("Security Requirements", n.security),
      ("Usability Requirements", n.usability),
      ("Reliability Requirements", n.reliability),
      ("Scalability Requirements", n.scalability) ]
  }

  function ConstraintEntries(c: Constraints): seq<(string, seq<string>)> {
    [ ("Technical Constraints", c.technical),
      ("Business Constraints", c.business),
      ("Regulatory Constraints", c.regulatory) ]
  }

  /** Section 4 is drawn only when the overview or the data flow is non-empty. */
  predicate HasArchitecture(a: SystemArchitecture) {
    a.overview != "" || a.dataFlow != ""
  }

  /** Section 5 is drawn only when some constraint list has an entry with text. */
  predicate HasConstraints(c: Constraints) {
    AnyHasText(c.technical) || AnyHasText(c.business) || AnyHasText(c.regulatory)
  }

  function TitlePieces(p: ProjectInfo): (r: seq<Piece>)
    ensures |r| == (if p.name != "" then 3 else 2)
    ensures r[0] == Title(DocumentTitle) && r[|r| - 1] == Rule
  {
    [Title(DocumentTitle)] + (if p.name != "" then [Subtitle(p.name)] else []) + [Rule]
  }

  function ProjectPieces(p: ProjectInfo): seq<Piece> {
    [Heading(Heading1)]
    + InlineField("Company Name:", p.companyName)
    + InlineField("Project Name:", p.name)
    + InlineField("Version:", p.version)
    + TextBlock("Description:", p.description)
    + TextBlock("Stakeholders:", p.stakeholders)
    + TextBlock("Scope:", p.scope)
  }

  function FunctionalPieces(f: FunctionalRequirements): seq<Piece> {
    [Heading(Heading2)]
    + ListBlock("User Stories:", f.userStories)
    + ListBlock("System Features:", f.systemFeatures)
    + ListBlock("Business Rules:", f.businessRules)
  }

  function NonFunctionalPieces(n: NonFunctionalRequirements): seq<Piece> {
    [Heading(Heading3)] + TextBlocks(NonFunctionalEntries(n))
  }

  function ArchitectureBody(a: SystemArchitecture): seq<Piece> {
    TextBlock("Architecture Overview:", a.overview)
    + ListBlock("System Components:", a.components)
    + TextBlock("Data Flow:", a.dataFlow)
    + TextBlock("External Interfaces:", a.interfaces)
  }

  function ArchitecturePieces(a: SystemArchitecture): (r: seq<Piece>)
    ensures r == [] <==> !HasArchitecture(a)
    ensures r != [] ==> r[0] == Heading(Heading4)
  {
    if HasArchitecture(a) then [Heading(Heading4)] + ArchitectureBody(a) else []
  }

  function ConstraintPieces(c: Constraints): (r: seq<Piece>)
    ensures r == [] <==> !HasConstraints(c)
    ensures r != [] ==> r[0] == Heading(Heading5)
  {
    if HasConstraints(c) then [Heading(Heading5)] + ListBlocks(ConstraintEntries(c)) else []
  }

  /** Everything `generatePDF` draws for record `d`, in drawing order (page headers aside). */
  function DocumentContent(d: SrsData): (r: seq<Piece>)
    ensures |r| >= 5 && r[0] == Title(DocumentTitle)
    ensures r[|r| - 1] == Footer(CompanyOrDefault(d.projectInfo.companyName))
  {
    TitlePieces(d.projectInfo)
    + ProjectPieces(d.projectInfo)
    + FunctionalPieces(d.functionalRequirements)
    + NonFunctionalPieces(d.nonFunctionalRequirements)
    + ArchitecturePieces(d.systemArchitecture)
    + ConstraintPieces(d.constraints)
    + [Footer(CompanyOrDefault(d.projectInfo.companyName))]
  }

  // ----- what the content says -----

  /** The section headings among the pieces, in order. */
  function HeadingsOf(ps: seq<Piece>): seq<string> {
    if ps == [] then []
    else HeadingsOf(ps[..|ps| - 1]) + (if ps[|ps| - 1].Heading? then [ps[|ps| - 1].text] else [])
  }

  /** The bullet entries among the pieces, in order. */
  function BulletsOf(ps: seq<Piece>): seq<string> {
    if ps == [] then []
    else BulletsOf(ps[..|ps| - 1]) + (if ps[|ps| - 1].Bullet? then [ps[|ps| - 1].entry] else [])
  }

  lemma {:induction false} HeadingsOfAppend(a: seq<Piece>, b: seq<Piece>)
    ensures HeadingsOf(a + b) == HeadingsOf(a) + HeadingsOf(b)
  {
    if b != [] {
      assert (a + b)[..|a + b| - 1] == a + b[..|b| - 1];
      HeadingsOfAppend(a, b[..|b| - 1]);
    } else {
      assert a + b == a;
    }
  }

  lemma {:induction false} BulletsOfAppend(a: seq<Piece>, b: seq<Piece>)
    ensures BulletsOf(a + b) == BulletsOf(a) + BulletsOf(b)
  {
    if b != [] {
      assert (a + b)[..|a + b| - 1] == a + b[..|b| - 1];
      BulletsOfAppend(a, b[..|b| - 1]);
    } else {
      assert a + b == a;
    }
  }

  /** Both extractions of a concatenation. */
  lemma Append(a: seq<Piece>, b: seq<Piece>)
    ensures HeadingsOf(a + b) == HeadingsOf(a) + HeadingsOf(b)
    ensures BulletsOf(a + b) == BulletsOf(a) + BulletsOf(b)
  {
    HeadingsOfAppend(a, b);
    BulletsOfAppend(a, b);
  }

  /** A piece other than a heading or a bullet contributes to neither extraction. */
  lemma Plain(p: Piece)
    requires !p.Heading? && !p.Bullet?
    ensures HeadingsOf([p]) == [] && BulletsOf([p]) == []
  {
    assert [p][..0] == [];
  }

  lemma {:induction false} BulletPiecesExtract(xs: seq<string>)
    ensures BulletsOf(BulletPieces(xs)) == xs
    ensures HeadingsOf(BulletPieces(xs)) == []
  {
    if xs != [] {
      var init := xs[..|xs| - 1];
      BulletPiecesExtract(init);
      assert BulletPieces(xs)[..|xs| - 1] == BulletPieces(init);
      assert xs == init + [xs[|xs| - 1]];
    }
  }

  /** A list block shows exactly the entries with text, and no heading. */
  lemma ListBlockExtract(caption: string, xs: seq<string>)
    ensures BulletsOf(ListBlock(caption, xs)) == NonBlank(xs)
    ensures HeadingsOf(ListBlock(caption, xs)) == []
  {
    BulletPiecesExtract(NonBlank(xs));
    NonBlankEmptyIff(xs);
    Plain(Label(caption));
    Append([Label(caption)], BulletPieces(NonBlank(xs)));
  }

  lemma TextBlockExtract(caption: string, value: string)
    ensures BulletsOf(TextBlock(caption, value)) == [] == HeadingsOf(TextBlock(caption, value))
    ensures BulletsOf(InlineField(caption, value)) == [] == HeadingsOf(InlineField(caption, value))
  {
    Plain(Label(caption));
    Plain(Paragraph(value));
    Plain(Field(caption, value));
    Append([Label(caption)], [Paragraph(value)]);
    assert [Label(caption), Paragraph(value)] == [Label(caption)] + [Paragraph(value)];
  }

  lemma {:induction false} TextBlocksExtract(entries: seq<(string, string)>)
    ensures BulletsOf(TextBlocks(entries)) == [] == HeadingsOf(TextBlocks(entries))
  {
    if entries != [] {
      var last := entries[|entries| - 1];
      TextBlocksExtract(entries[..|entries| - 1]);
      TextBlockExtract(last.0 + ":", last.1);
      Append(TextBlocks(entries[..|entries| - 1]), TextBlock(last.0 + ":", last.1));
    }
  }

  lemma {:induction false} ListBlocksExtract(entries: seq<(string, seq<string>)>)
    ensures HeadingsOf(ListBlocks(entries)) == []
    ensures entries != [] ==> (BulletsOf(ListBlocks(entries)) ==
      BulletsOf(ListBlocks(entries[..|entries| - 1])) + NonBlank(entries[|entries| - 1].1))
    ensures entries == [] ==> BulletsOf(ListBlocks(entries)) == []
  {
    if entries != [] {
      var last := entries[|entries| - 1];
      ListBlocksExtract(entries[..|entries| - 1]);
      ListBlockExtract(last.0 + ":", last.1);
      Append(ListBlocks(entries[..|entries| - 1]), ListBlock(last.0 + ":", last.1));
    }
  }

  // ----- per section -----

  /** Both extractions of a four-part concatenation, stated over arbitrary parts. */
  lemma Concat4(a: seq<Piece>, b: seq<Piece>, c: seq<Piece>, e: seq<Piece>)
    ensures HeadingsOf(a + b + c + e) == HeadingsOf(a) + HeadingsOf(b) + HeadingsOf(c) + HeadingsOf(e)
    ensures BulletsOf(a + b + c + e) == BulletsOf(a) + BulletsOf(b) + BulletsOf(c) + BulletsOf(e)
  {
    Append(a, b);
    Append(a + b, c);
    Append(a + b + c, e);
  }

  /** The empty sequence is a unit of concatenation. */
  lemma Units<T>(s: seq<T>)
    ensures [] + s == s && s + [] == s
  {
  }

  /** A single heading. */
  lemma HeadingExtract(text: string)
    ensures HeadingsOf([Heading(text)]) == [text] && BulletsOf([Heading(text)]) == []
  {
    assert [Heading(text)][..0] == [];
  }

  lemma TitleExtract(p: ProjectInfo)
    ensures HeadingsOf(TitlePieces(p)) == [] && BulletsOf(TitlePieces(p)) == []
  {
    var sub := if p.name != "" then [Subtitle(p.name)] else [];
    Plain(Title(DocumentTitle));
    Plain(Rule);
    Plain(Subtitle(p.name));
    Concat4([Title(DocumentTitle)], sub, [Rule], []);
    assert TitlePieces(p) == [Title(DocumentTitle)] + sub + [Rule] + [];
  }

  lemma ProjectExtract(p: ProjectInfo)
    ensures HeadingsOf(ProjectPieces(p)) == [Heading1] && BulletsOf(ProjectPieces(p)) == []
  {
    var h := [Heading(Heading1)];
    var a := InlineField("Company Name:", p.companyName);
    var b := InlineField("Project Name:", p.name);
    var c := InlineField("Version:", p.version);
    var e := TextBlock("Description:", p.description);
    var f := TextBlock("Stakeholders:", p.stakeholders);
    var g := TextBlock("Scope:", p.scope);
    HeadingExtract(Heading1);
    TextBlockExtract("Company Name:", p.companyName);
    TextBlockExtract("Project Name:", p.name);
    TextBlockExtract("Version:", p.version);
    TextBlockExtract("Description:", p.description);
    TextBlockExtract("Stakeholders:", p.stakeholders);
    TextBlockExtract("Scope:", p.scope);
    Concat4(h, a, b, c);
    Concat4(h + a + b + c, e, f, g);
  }

  lemma FunctionalExtract(fr: FunctionalRequirements)
    ensures HeadingsOf(FunctionalPieces(fr)) == [Heading2]
    ensures BulletsOf(FunctionalPieces(fr)) ==
      NonBlank(fr.userStories) + NonBlank(fr.systemFeatures) + NonBlank(fr.businessRules)
  {
    HeadingExtract(Heading2);
    ListBlockExtract("User Stories:", fr.userStories);
    ListBlockExtract("System Features:", fr.systemFeatures);
    ListBlockExtract("Business Rules:", fr.businessRules);
    var h, a, b, c := [Heading(Heading2)], ListBlock("User Stories:", fr.userStories),
      ListBlock("System Features:", fr.systemFeatures), ListBlock("Business Rules:", fr.businessRules);
    Concat4(h, a, b, c);
    Units(NonBlank(fr.userStories));
  }

  lemma NonFunctionalExtract(n: NonFunctionalRequirements)
    ensures HeadingsOf(NonFunctionalPieces(n)) == [Heading3] && BulletsOf(NonFunctionalPieces(n)) == []
  {
    HeadingExtract(Heading3);
    TextBlocksExtract(NonFunctionalEntries(n));
    Append([Heading(Heading3)], TextBlocks(NonFunctionalEntries(n)));
  }

  lemma ArchitectureExtract(ar: SystemArchitecture)
    ensures HeadingsOf(ArchitecturePieces(ar)) == if HasArchitecture(ar) then [Heading4] else []
    ensures BulletsOf(ArchitecturePieces(ar)) == if HasArchitecture(ar) then NonBlank(ar.components) else []
  {
    HeadingExtract(Heading4);
    TextBlockExtract("Architecture Overview:", ar.overview);
    ListBlockExtract("System Components:", ar.components);
    TextBlockExtract("Data Flow:", ar.dataFlow);
    TextBlockExtract("External Interfaces:", ar.interfaces);
    Concat4(TextBlock("Architecture Overview:", ar.overview), ListBlock("System Components:", ar.components),
      TextBlock("Data Flow:", ar.dataFlow), TextBlock("External Interfaces:", ar.interfaces));
    Append([Heading(Heading4)], ArchitectureBody(ar));
  }

  // ----- which fields are shown -----

  /** The texts of the paragraphs among the pieces, in order. */
  function ParagraphsOf(ps: seq<Piece>): seq<string> {
    if ps == [] then []
    else ParagraphsOf(ps[..|ps| - 1]) + (if ps[|ps| - 1].Paragraph? then [ps[|ps| - 1].text] else [])
  }

  /** The caption and value of each inline field among the pieces, in order. */
  function FieldsOf(ps: seq<Piece>): seq<(string, string)> {
    if ps == [] then []
    else
      var last := ps[|ps| - 1];
      FieldsOf(ps[..|ps| - 1]) + (if last.Field? then [(last.caption, last.value)] else [])
  }

  /** A value as a paragraph list: itself when non-empty, nothing otherwise. */
  function Given(v: string): seq<string> {
    if v != "" then [v] else []
  }

  /** A captioned value as a field list: the pair when the value is non-empty, nothing otherwise. */
  function GivenField(caption: string, v: string): seq<(string, string)> {
    if v != "" then [(caption, v)] else []
  }

  lemma {:induction false} ParagraphsOfAppend(a: seq<Piece>, b: seq<Piece>)
    ensures ParagraphsOf(a + b) == ParagraphsOf(a) + ParagraphsOf(b)
  {
    if b != [] {
      assert (a + b)[..|a + b| - 1] == a + b[..|b| - 1];
      ParagraphsOfAppend(a, b[..|b| - 1]);
    } else {
      assert a + b == a;
    }
  }

  lemma {:induction false} FieldsOfAppend(a: seq<Piece>, b: seq<Piece>)
    ensures FieldsOf(a + b) == FieldsOf(a) + FieldsOf(b)
  {
    if b != [] {
      assert (a + b)[..|a + b| - 1] == a + b[..|b| - 1];
      FieldsOfAppend(a, b[..|b| - 1]);
    } else {
      assert a + b == a;
    }
  }

  /** Paragraphs and fields of a concatenation are those of its parts. */
  lemma Join(a: seq<Piece>, b: seq<Piece>)
    ensures ParagraphsOf(a + b) == ParagraphsOf(a) + ParagraphsOf(b)
    ensures FieldsOf(a + b) == FieldsOf(a) + FieldsOf(b)
  {
    ParagraphsOfAppend(a, b);
    FieldsOfAppend(a, b);
  }

  lemma {:induction false} BulletPiecesText(xs: seq<string>)
    ensures ParagraphsOf(BulletPieces(xs)) == [] && FieldsOf(BulletPieces(xs)) == []
  {
    if xs != [] {
      BulletPiecesText(xs[..|xs| - 1]);
      assert BulletPieces(xs)[..|xs| - 1] == BulletPieces(xs[..|xs| - 1]);
    }
  }

  /**
   * An inline field shows its value as a field and a text block as a paragraph, each exactly
   * when the value is non-empty; a list block shows neither.
   */
  lemma BlockText(c: string, v: string, xs: seq<string>)
    ensures FieldsOf(InlineField(c, v)) == GivenField(c, v) && ParagraphsOf(InlineField(c, v)) == []
    ensures ParagraphsOf(TextBlock(c, v)) == Given(v) && FieldsOf(TextBlock(c, v)) == []
    ensures ParagraphsOf(ListBlock(c, xs)) == [] && FieldsOf(ListBlock(c, xs)) == []
  {
    assert [Field(c, v)][..0] == [] && [Label(c)][..0] == [];
    assert [Label(c), Paragraph(v)][..1] == [Label(c)];
    BulletPiecesText(NonBlank(xs));
    Join([Label(c)], BulletPieces(NonBlank(xs)));
  }

  /** A heading, three inline fields and three text blocks show the fields, then the paragraphs. */
  lemma FieldsThenParagraphs(h: seq<Piece>, a: seq<Piece>, b: seq<Piece>, c: seq<Piece>,
                             e: seq<Piece>, f: seq<Piece>, g: seq<Piece>)
    requires ParagraphsOf(h) == [] && FieldsOf(h) == []
    requires ParagraphsOf(a) == [] && ParagraphsOf(b) == [] && ParagraphsOf(c) == []
    requires FieldsOf(e) == [] && FieldsOf(f) == [] && FieldsOf(g) == []
    ensures FieldsOf(h + a + b + c + e + f + g) == FieldsOf(a) + FieldsOf(b) + FieldsOf(c)
    ensures ParagraphsOf(h + a + b + c + e + f + g) == ParagraphsOf(e) + ParagraphsOf(f) + ParagraphsOf(g)
  {
    var fs := FieldsOf(a) + FieldsOf(b) + FieldsOf(c);
    var ps := ParagraphsOf(e) + ParagraphsOf(f) + ParagraphsOf(g);
    Units<string>([]);
    Units(FieldsOf(a));
    Join(h, a);
    Join(h + a, b);
    Join(h + a + b, c);
    assert ParagraphsOf(h + a + b + c) == [] && FieldsOf(h + a + b + c) == fs;
    Units(fs);
    Units(ParagraphsOf(e));
    Join(h + a + b + c, e);
    Join(h + a + b + c + e, f);
    Join(h + a + b + c + e + f, g);
  }

  /**
   * Section 1 shows company, project name and version as fields, and description,
   * stakeholders and scope as paragraphs, in that order, each exactly when it is non-empty.
   */
  lemma ProjectFieldsShown(p: ProjectInfo)
    ensures FieldsOf(ProjectPieces(p)) == GivenField("Company Name:", p.companyName)
      + GivenField("Project Name:", p.name) + GivenField("Version:", p.version)
    ensures ParagraphsOf(ProjectPieces(p)) == Given(p.description) + Given(p.stakeholders) + Given(p.scope)
  {
    var h := [Heading(Heading1)];
    assert h[..0] == [];
    BlockText("Company Name:", p.companyName, []);
    BlockText("Project Name:", p.name, []);
    BlockText("Version:", p.version, []);
    BlockText("Description:", p.description, []);
    BlockText("Stakeholders:", p.stakeholders, []);
    BlockText("Scope:", p.scope, []);
    FieldsThenParagraphs(h, InlineField("Company Name:", p.companyName), InlineField("Project Name:", p.name),
      InlineField("Version:", p.version), TextBlock("Description:", p.description),
      TextBlock("Stakeholders:", p.stakeholders), TextBlock("Scope:", p.scope));
  }

  /** The paragraphs of a `{ key, title }` table of texts are exactly its non-empty values. */
  lemma {:induction false} TextBlocksValues(entries: seq<(string, string)>, v: string)
    ensures Paragraph(v) in TextBlocks(entries) <==>
      v != "" && exists k :: 0 <= k < |entries| && entries[k].1 == v
  {
    if entries != [] {
      var init, last := entries[..|entries| - 1], entries[|entries| - 1];
      TextBlocksValues(init, v);
      assert forall k :: 0 <= k < |init| ==> init[k] == entries[k];
      if v != "" && exists k :: 0 <= k < |entries| && entries[k].1 == v {
        var k :| 0 <= k < |entries| && entries[k].1 == v;
        if k < |init| {
          assert init[k].1 == v;
        }
      }
    }
  }

  /** Section 3 shows each requirement exactly when it is non-empty. */
  lemma NonFunctionalValuesShown(n: NonFunctionalRequirements)
    ensures Paragraph(n.performance) in NonFunctionalPieces(n) <==> n.performance != ""
    ensures Paragraph(n.security) in NonFunctionalPieces(n) <==> n.security != ""
    ensures Paragraph(n.usability) in NonFunctionalPieces(n) <==> n.usability != ""
    ensures Paragraph(n.reliability) in NonFunctionalPieces(n) <==> n.reliability != ""
    ensures Paragraph(n.scalability) in NonFunctionalPieces(n) <==> n.scalability != ""
  {
    var e := NonFunctionalEntries(n);
    assert e[0].1 == n.performance && e[1].1 == n.security && e[2].1 == n.usability;
    assert e[3].1 == n.reliability && e[4].1 == n.scalability;
    TextBlocksValues(e, n.performance);
    TextBlocksValues(e, n.security);
    TextBlocksValues(e, n.usability);
    TextBlocksValues(e, n.reliability);
    TextBlocksValues(e, n.scalability);
  }

  /**
   * Section 4 shows the overview, the data flow and the interfaces as paragraphs, in that order,
   * each when it is non-empty and section 4 is drawn at all; it shows no inline field.
   */
  lemma ArchitectureFieldsShown(a: SystemArchitecture)
    ensures ParagraphsOf(ArchitecturePieces(a)) ==
      if HasArchitecture(a) then Given(a.overview) + Given(a.dataFlow) + Given(a.interfaces) else []
    ensures FieldsOf(ArchitecturePieces(a)) == []
  {
    var h := [Heading(Heading4)];
    var o := TextBlock("Architecture Overview:", a.overview);
    var c := ListBlock("System Components:", a.components);
    var d := TextBlock("Data Flow:", a.dataFlow);
    var i := TextBlock("External Interfaces:", a.interfaces);
    assert h[..0] == [];
    BlockText("Architecture Overview:", a.overview, []);
    BlockText("System Components:", "", a.components);
    BlockText("Data Flow:", a.dataFlow, []);
    BlockText("External Interfaces:", a.interfaces, []);
    var po := Given(a.overview);
    Units<(string, string)>([]);
    Units(po);
    Join(o, c);
    Join(o + c, d);
    Join(o + c + d, i);
    assert ParagraphsOf(o + c + d + i) == po + Given(a.dataFlow) + Given(a.interfaces);
    Units<string>([]);
    Join(h, o + c + d + i);
  }

  /** Both extractions of a three-part concatenation, stated over arbitrary parts. */
  lemma Concat3(a: seq<Piece>, b: seq<Piece>, c: seq<Piece>)
    ensures HeadingsOf(a + b + c) == HeadingsOf(a) + HeadingsOf(b) + HeadingsOf(c)
    ensures BulletsOf(a + b + c) == BulletsOf(a) + BulletsOf(b) + BulletsOf(c)
  {
    Append(a, b);
    Append(a + b, c);
  }

  /** A table of three list entries gives three list blocks. */
  lemma ListBlocks3(entries: seq<(string, seq<string>)>)
    requires |entries| == 3
    ensures ListBlocks(entries) ==
      ListBlock(entries[0].0 + ":", entries[0].1) + ListBlock(entries[1].0 + ":", entries[1].1)
      + ListBlock(entries[2].0 + ":", entries[2].1)
  {
    assert entries[..2][..1][..0] == [];
    assert entries[..2][..1] == entries[..1] && entries[..2][1] == entries[1];
    var first := ListBlock(entries[0].0 + ":", entries[0].1);
    assert ListBlocks(entries[..1]) == [] + first;
    assert [] + first == first;
  }

  lemma ConstraintListsExtract(c: Constraints)
    ensures HeadingsOf(ListBlocks(ConstraintEntries(c))) == []
    ensures BulletsOf(ListBlocks(ConstraintEntries(c))) ==
      NonBlank(c.technical) + NonBlank(c.business) + NonBlank(c.regulatory)
  {
    var e := ConstraintEntries(c);
    ListBlocks3(e);
    ListBlockExtract(e[0].0 + ":", e[0].1);
    ListBlockExtract(e[1].0 + ":", e[1].1);
    ListBlockExtract(e[2].0 + ":", e[2].1);
    Concat3(ListBlock(e[0].0 + ":", e[0].1), ListBlock(e[1].0 + ":", e[1].1), ListBlock(e[2].0 + ":", e[2].1));
    Units<string>([]);
  }

  lemma ConstraintExtract(c: Constraints)
    ensures HeadingsOf(ConstraintPieces(c)) == if HasConstraints(c) then [Heading5] else []
    ensures BulletsOf(ConstraintPieces(c)) ==
      NonBlank(c.technical) + NonBlank(c.business) + NonBlank(c.regulatory)
  {
    HeadingExtract(Heading5);
    ConstraintListsExtract(c);
    Append([Heading(Heading5)], ListBlocks(ConstraintEntries(c)));
    if !HasConstraints(c) {
      NonBlankEmptyIff(c.technical);
      NonBlankEmptyIff(c.business);
      NonBlankEmptyIff(c.regulatory);
    }
  }

  /** How the seven parts of the document combine, stated over arbitrary parts: the title,
      section 3 and the footer contribute nothing but heading 3, section 1 only heading 1. */
  lemma Combine(t: seq<Piece>, p: seq<Piece>, f: seq<Piece>, n: seq<Piece>,
                a: seq<Piece>, c: seq<Piece>, z: seq<Piece>)
    requires HeadingsOf(t) == [] && BulletsOf(t) == []
    requires HeadingsOf(p) == [Heading1] && BulletsOf(p) == []
    requires HeadingsOf(n) == [Heading3] && BulletsOf(n) == []
    requires HeadingsOf(z) == [] && BulletsOf(z) == []
    ensures HeadingsOf(t + p + f + n + a + c + z) ==
      [Heading1] + HeadingsOf(f) + [Heading3] + HeadingsOf(a) + HeadingsOf(c)
    ensures BulletsOf(t + p + f + n + a + c + z) == BulletsOf(f) + BulletsOf(a) + BulletsOf(c)
  {
    Concat4(t, p, f, n);
    Concat4(t + p + f + n, a, c, z);
    Units([Heading1]);
    Units(HeadingsOf(c));
    Units<string>([]);
    Units(BulletsOf(f));
    Units(BulletsOf(f) + BulletsOf(a) + BulletsOf(c));
  }

  /** Headings 1 to 3 are always drawn; heading 4 exactly when the overview or the data flow is
      non-empty (components and interfaces alone do not count); heading 5 exactly when some
      constraint, regulatory ones included, has text. */
  lemma DocumentHeadings(d: SrsData)
    ensures HeadingsOf(DocumentContent(d)) ==
      [Heading1, Heading2, Heading3]
      + (if HasArchitecture(d.systemArchitecture) then [Heading4] else [])
      + (if HasConstraints(d.constraints) then [Heading5] else [])
  {
    var p := d.projectInfo;
    var footer := [Footer(CompanyOrDefault(p.companyName))];
    TitleExtract(p);
    ProjectExtract(p);
    FunctionalExtract(d.functionalRequirements);
    NonFunctionalExtract(d.nonFunctionalRequirements);
    ArchitectureExtract(d.systemArchitecture);
    ConstraintExtract(d.constraints);
    Plain(Footer(CompanyOrDefault(p.companyName)));
    Combine(TitlePieces(p), ProjectPieces(p), FunctionalPieces(d.functionalRequirements),
      NonFunctionalPieces(d.nonFunctionalRequirements), ArchitecturePieces(d.systemArchitecture),
      ConstraintPieces(d.constraints), footer);
    Singletons(Heading1, Heading2, Heading3,
      HeadingsOf(ArchitecturePieces(d.systemArchitecture)), HeadingsOf(ConstraintPieces(d.constraints)));
  }

  lemma Singletons(x: string, y: string, z: string, u: seq<string>, v: seq<string>)
    ensures [x] + [y] + [z] + u + v == [x, y, z] + u + v
  {
  }

  /** The bullets are the entries with text of every list, list by list and in list order, except
      that the components are lost whenever section 4 is skipped. */
  lemma DocumentBullets(d: SrsData)
    ensures
      var f, a, c := d.functionalRequirements, d.systemArchitecture, d.constraints;
      BulletsOf(DocumentContent(d)) ==
        NonBlank(f.userStories) + NonBlank(f.systemFeatures) + NonBlank(f.businessRules)
        + (if HasArchitecture(a) then NonBlank(a.components) else [])
        + NonBlank(c.technical) + NonBlank(c.business) + NonBlank(c.regulatory)
  {
    var p := d.projectInfo;
    var footer := [Footer(CompanyOrDefault(p.companyName))];
    TitleExtract(p);
    ProjectExtract(p);
    FunctionalExtract(d.functionalRequirements);
    NonFunctionalExtract(d.nonFunctionalRequirements);
    ArchitectureExtract(d.systemArchitecture);
    ConstraintExtract(d.constraints);
    Plain(Footer(CompanyOrDefault(p.companyName)));
    Combine(TitlePieces(p), ProjectPieces(p), FunctionalPieces(d.functionalRequirements),
      NonFunctionalPieces(d.nonFunctionalRequirements), ArchitecturePieces(d.systemArchitecture),
      ConstraintPieces(d.constraints), footer);
    Regroup(BulletsOf(FunctionalPieces(d.functionalRequirements)),
      BulletsOf(ArchitecturePieces(d.systemArchitecture)),
      NonBlank(d.constraints.technical), NonBlank(d.constraints.business), NonBlank(d.constraints.regulatory));
  }

  lemma Regroup(f: seq<string>, a: seq<string>, t: seq<string>, b: seq<string>, r: seq<string>)
    ensures f + a + (t + b + r) == f + a + t + b + r
  {
  }

  /** A name made of letters and digits only is kept as it is. */
  lemma SanitizeKeepsAlnum(s: string)
    requires forall k :: 0 <= k < |s| ==> IsAsciiAlnum(s[k])
    ensures Sanitize(s) == s
  {
  }

  /** The file name of the project `Portal`. */
  lemma PortalFileName()
    ensures FileName("Portal") == "Portal_SRS.pdf"
  {
    SanitizeKeepsAlnum("Portal");
    assert "Portal" + FileSuffix == "Portal_SRS.pdf";
  }

  /** Section 1 for a project without stakeholders: the three inline fields, the description
      and the scope, and no stakeholders block. */
  lemma PortalProjectSection(p: ProjectInfo)
    requires p == ProjectInfo("Acme", "Portal", "1.0", "A portal.", "", "Internal use.")
    ensures ProjectPieces(p) == [Heading(Heading1), Field("Company Name:", "Acme"),
      Field("Project Name:", "Portal"), Field("Version:", "1.0"), Label("Description:"),
      Paragraph("A portal."), Label("Scope:"), Paragraph("Internal use.")]
  {
    var fields := [Heading(Heading1)] + [Field("Company Name:", p.companyName)]
      + [Field("Project Name:", p.name)] + [Field("Version:", p.version)];
    assert ProjectPieces(p) == fields + [Label("Description:"), Paragraph(p.description)] + []
      + [Label("Scope:"), Paragraph(p.scope)];
    Units(fields + [Label("Description:"), Paragraph(p.description)]);
  }

  /** A record with a project, one user story and one system feature and nothing else has
      three numbered sections: section 3 is drawn although all its fields are empty. */
  lemma PortalHeadings(d: SrsData)
    requires d.projectInfo == ProjectInfo("Acme", "Portal", "1.0", "A portal.", "", "Internal use.")
    requires d.functionalRequirements == FunctionalRequirements(["As a user, I want to log in."], ["Login"], [""])
    requires d.nonFunctionalRequirements == NonFunctionalRequirements("", "", "", "", "")
    requires d.systemArchitecture == SystemArchitecture("", [""], "", "")
    requires d.constraints == Constraints([""], [""], [""])
    ensures HeadingsOf(DocumentContent(d)) == [Heading1, Heading2, Heading3]
  {
    DocumentHeadings(d);
    BlankEntriesHaveNoText();
    Units([Heading1, Heading2, Heading3]);
  }
}

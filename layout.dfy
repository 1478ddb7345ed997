/** `generatePDF` of src/pages/Index.tsx as the sequence of drawing operations it issues: a
    vertical cursor `yPosition` (millimetres from the top of an A4 page), the current page
    number, and every page header and piece of text in the order it is drawn. The text wrapper
    `splitTextToSize` is a parameter that only promises at least one line. */
module Layout {
  import opened Text
  import opened Srs
  import opened Document

  const PageHeight: int := 297
  const Margin: int := 20
  /** Where the cursor starts on every page, below the header. */
  const TopOffset: int := 40
  /** The cursor may not pass this line before a space check breaks the page. */
  const BottomLimit: int := PageHeight - 40
  /** `pageWidth - 2 * margin` and `pageWidth - 2 * margin - 10`, the wrapping widths. */
  const TextWidth: int := 170
  const BulletWidth: int := 160
  /** Every heading is preceded by `checkPageSpace(60)`. */
  const HeadingSpace: int := 60

  /** `splitTextToSize(text, width).length`: how many lines a text takes at a width. */
  type LineCount = n: int | 1 <= n witness 1

  /** One call into the PDF document: the header of a freshly begun page (the company at the
      top; the page number at the bottom when it is above 1), or one piece of text drawn at
      height `y` over `lines` lines. */
  datatype DrawOp =
    | PageHeader(company: string, page: int)
    | Draw(piece: Piece, y: int, lines: int)

  /** Whether a text block is preceded by a space check, and for how much space. */
  datatype Reserve = NoCheck | Check(space: nat)

  /** Whether the space check `reserve` begins a new page when the cursor is at `y`. */
  predicate Breaks(y: int, reserve: Reserve) {
    reserve.Check? && y + reserve.space > BottomLimit
  }

  /** The pieces drawn, in order, without the page headers. */
  function Content(ops: seq<DrawOp>): seq<Piece> {
    if ops == [] then []
    else Content(ops[..|ops| - 1]) + (if ops[|ops| - 1].Draw? then [ops[|ops| - 1].piece] else [])
  }

  /** The page numbers of the headers, in order. */
  function PageNumbers(ops: seq<DrawOp>): seq<int> {
    if ops == [] then []
    else PageNumbers(ops[..|ops| - 1]) + (if ops[|ops| - 1].PageHeader? then [ops[|ops| - 1].page] else [])
  }

  /** `[1, 2, ..., n]` */
  function Pages(n: nat): (r: seq<int>)
    ensures |r| == n && forall i :: 0 <= i < n ==> r[i] == i + 1
  {
    seq(n, i => i + 1)
  }

  lemma Snoc(ops: seq<DrawOp>, op: DrawOp)
    ensures Content(ops + [op]) == Content(ops) + (if op.Draw? then [op.piece] else [])
    ensures PageNumbers(ops + [op]) == PageNumbers(ops) + (if op.PageHeader? then [op.page] else [])
  {
    assert (ops + [op])[..|ops + [op]| - 1] == ops;
  }

  lemma BulletPiecesSnoc(xs: seq<string>, x: string)
    ensures BulletPieces(xs + [x]) == BulletPieces(xs) + [Bullet(x)]
  {
    assert (xs + [x])[..|xs + [x]| - 1] == xs;
  }

  lemma Assoc<T>(a: seq<T>, b: seq<T>, c: seq<T>)
    ensures a + b + c == a + (b + c)
  {
  }

  /** The operations so far are well formed for `company` at page count `page`: the headers
      number the pages 1, 2, ..., `page` in order and all show `company`, nothing is drawn
      above the top offset, and every section heading leaves the 60 units its space check
      asked for. */
  ghost predicate WellFormed(ops: seq<DrawOp>, company: string, page: int) {
    && page >= 1
    && PageNumbers(ops) == Pages(page)
    && (forall i :: 0 <= i < |ops| && ops[i].PageHeader? ==> ops[i].company == company)
    && (forall i :: 0 <= i < |ops| && ops[i].Draw? ==> ops[i].y >= TopOffset)
    && (forall i :: 0 <= i < |ops| && ops[i].Draw? && ops[i].piece.Heading? ==>
          ops[i].y + HeadingSpace <= BottomLimit)
  }

  lemma FirstHeader(company: string)
    ensures WellFormed([PageHeader(company, 1)], company, 1)
    ensures Content([PageHeader(company, 1)]) == []
  {
    Snoc([], PageHeader(company, 1));
    assert [PageHeader(company, 1)] == [] + [PageHeader(company, 1)];
  }

  lemma AppendHeader(ops: seq<DrawOp>, company: string, page: int)
    requires WellFormed(ops, company, page)
    ensures WellFormed(ops + [PageHeader(company, page + 1)], company, page + 1)
    ensures Content(ops + [PageHeader(company, page + 1)]) == Content(ops)
  {
    Snoc(ops, PageHeader(company, page + 1));
    assert Pages(page + 1) == Pages(page) + [page + 1];
  }

  lemma AppendDraw(ops: seq<DrawOp>, company: string, page: int, piece: Piece, y: int, lines: int)
    requires WellFormed(ops, company, page)
    requires y >= TopOffset
    requires piece.Heading? ==> y + HeadingSpace <= BottomLimit
    ensures WellFormed(ops + [Draw(piece, y, lines)], company, page)
    ensures Content(ops + [Draw(piece, y, lines)]) == Content(ops) + [piece]
  {
    Snoc(ops, Draw(piece, y, lines));
  }

  class Layout {
    /** `companyName || 'SRS Generator Pro'`, printed in every page header. */
    const company: string
    const wrap: (string, int) -> LineCount
    var y: int
    var page: int
    var ops: seq<DrawOp>

    /** The cursor never rises above the top offset and the operations are well formed. */
    ghost predicate Valid()
      reads this
    {
      y >= TopOffset && WellFormed(ops, company, page)
    }

    /** `new jsPDF()` followed by `addHeader(1)`. */
    constructor (company: string, wrap: (string, int) -> LineCount)
      ensures Valid()
      ensures this.company == company && this.wrap == wrap
      ensures y == TopOffset && page == 1 && ops == [PageHeader(company, 1)]
    {
      this.company := company;
      this.wrap := wrap;
      y := TopOffset;
      page := 1;
      ops := [PageHeader(company, 1)];
      FirstHeader(company);
    }

    /** `addNewPage`: begin the next page, draw its header and return the cursor to the top. */
    method AddNewPage()
      requires Valid()
      modifies this
      ensures Valid()
      ensures page == old(page) + 1 && y == TopOffset
      ensures ops == old(ops) + [PageHeader(company, page)]
    {
      AppendHeader(ops, company, page);
      ops := ops + [PageHeader(company, page + 1)];
      page := page + 1;
      y := TopOffset;
    }

    /** `checkPageSpace(required)`: break the page when the required space would pass the
        bottom limit. A requirement that fits on an empty page fits after the call. */
    method CheckPageSpace(required: int)
      requires Valid()
      modifies this
      ensures Valid()
      ensures old(y) + required > BottomLimit ==>
        page == old(page) + 1 && y == TopOffset && ops == old(ops) + [PageHeader(company, page)]
      ensures old(y) + required <= BottomLimit ==>
        page == old(page) && y == old(y) && ops == old(ops)
      ensures required <= BottomLimit - TopOffset ==> y + required <= BottomLimit
    {
      if y + required > BottomLimit {
        AddNewPage();
      }
    }

    /** The space check a text block asks for, if any. */
    method Space(reserve: Reserve)
      requires Valid()
      modifies this
      ensures Valid()
      ensures Content(ops) == old(Content(ops))
      ensures Breaks(old(y), reserve) ==> page == old(page) + 1 && y == TopOffset
      ensures !Breaks(old(y), reserve) ==> page == old(page) && y == old(y) && ops == old(ops)
      ensures reserve.Check? && reserve.space <= BottomLimit - TopOffset ==> y + reserve.space <= BottomLimit
    {
      if reserve.Check? {
        CheckPageSpace(reserve.space);
        if old(y) + reserve.space > BottomLimit {
          AppendHeader(old(ops), company, old(page));
        }
      }
    }

    /** Draw one piece at the cursor. */
    method Emit(piece: Piece, lines: int)
      requires Valid()
      requires piece.Heading? ==> y + HeadingSpace <= BottomLimit
      modifies this`ops
      ensures Valid()
      ensures ops == old(ops) + [Draw(piece, y, lines)]
      ensures Content(ops) == old(Content(ops)) + [piece]
    {
      AppendDraw(ops, company, page, piece, y, lines);
      ops := ops + [Draw(piece, y, lines)];
    }

    /** The document title, the optional `Project: name` subtitle and the decorative rule. */
    method DrawTitle(p: ProjectInfo)
      requires Valid()
      modifies this
      ensures Valid() && page == old(page)
      ensures Content(ops) == old(Content(ops)) + TitlePieces(p)
    {
      ghost var c := Content(ops);
      Emit(Title(DocumentTitle), 1);
      y := y + 10;
      ghost var sub: seq<Piece> := [];
      if p.name != "" {
        Emit(Subtitle(p.name), 1);
        y := y + 15;
        sub := [Subtitle(p.name)];
      } else {
        Units([Title(DocumentTitle)]);
      }
      Assoc(c, [Title(DocumentTitle)], sub);
      Emit(Rule, 1);
      Assoc(c, [Title(DocumentTitle)] + sub, [Rule]);
      y := y + 25;
    }

    /** A numbered section heading, after reserving 60 units for it. */
    method DrawHeading(text: string)
      requires Valid()
      modifies this
      ensures Valid()
      ensures Content(ops) == old(Content(ops)) + [Heading(text)]
      ensures var top := if old(y) + HeadingSpace > BottomLimit then TopOffset else old(y);
        && page == (if old(y) + HeadingSpace > BottomLimit then old(page) + 1 else old(page))
        && ops[|ops| - 1] == Draw(Heading(text), top, 1)
        && y == top + 15
    {
      Space(Check(HeadingSpace));
      Emit(Heading(text), 1);
      y := y + 15;
    }

    /** A bold caption and its value on one line; nothing when the value is empty. */
    method DrawField(caption: string, value: string)
      requires Valid()
      modifies this
      ensures Valid() && page == old(page)
      ensures Content(ops) == old(Content(ops)) + InlineField(caption, value)
    {
      if value != "" {
        Emit(Field(caption, value), 1);
        y := y + 10;
      }
    }

    /** A caption over the value wrapped to the text width; nothing when the value is empty. */
    method DrawTextBlock(caption: string, value: string, reserve: Reserve, gap: nat)
      requires Valid()
      modifies this
      ensures Valid()
      ensures Content(ops) == old(Content(ops)) + TextBlock(caption, value)
    {
      if value != "" {
        Space(reserve);
        Emit(Label(caption), 1);
        y := y + 8;
        var lines := wrap(value, TextWidth);
        Emit(Paragraph(value), lines);
        var height: int := lines;
        y := y + height * 6 + gap;
        Assoc(old(Content(ops)), [Label(caption)], [Paragraph(value)]);
        assert [Label(caption)] + [Paragraph(value)] == [Label(caption), Paragraph(value)];
      } else {
        Units(Content(ops));
      }
    }

    /** One `• entry` line group, after a space check, wrapped to the bullet width. */
    method DrawBullet(item: string, reserve: nat)
      requires Valid()
      modifies this
      ensures Valid()
      ensures Content(ops) == old(Content(ops)) + [Bullet(item)]
      ensures var top := if old(y) + reserve > BottomLimit then TopOffset else old(y);
        && page == (if old(y) + reserve > BottomLimit then old(page) + 1 else old(page))
        && ops[|ops| - 1] == Draw(Bullet(item), top, wrap("• " + item, BulletWidth))
        && y == top + wrap("• " + item, BulletWidth) * 6 + 3
    {
      Space(Check(reserve));
      var lines := wrap("• " + item, BulletWidth);
      Emit(Bullet(item), lines);
      var height: int := lines;
      y := y + height * 6 + 3;
    }

    /** The `forEach` over a list: one bullet for each entry with text, in list order. */
    method DrawBullets(items: seq<string>, reserve: nat)
      requires Valid()
      modifies this
      ensures Valid()
      ensures Content(ops) == old(Content(ops)) + BulletPieces(NonBlank(items))
    {
      ghost var c := Content(ops);
      var i := 0;
      while i < |items|
        invariant 0 <= i <= |items|
        invariant Valid()
        invariant Content(ops) == c + BulletPieces(NonBlank(items[..i]))
      {
        ghost var shown := NonBlank(items[..i]);
        assert items[..i + 1] == items[..i] + [items[i]];
        NonBlankSnoc(items[..i], items[i]);
        if HasText(items[i]) {
          DrawBullet(items[i], reserve);
          BulletPiecesSnoc(shown, items[i]);
          Assoc(c, BulletPieces(shown), [Bullet(items[i])]);
        } else {
          Units(shown);
        }
        i := i + 1;
      }
      assert items[..i] == items;
    }

    /** A caption over the bullets of a list, then a gap; nothing when no entry has text. */
    method DrawListBlock(caption: string, items: seq<string>, reserve: Reserve, bulletReserve: nat, gap: nat)
      requires Valid()
      modifies this
      ensures Valid()
      ensures Content(ops) == old(Content(ops)) + ListBlock(caption, items)
    {
      if AnyHasText(items) {
        Space(reserve);
        Emit(Label(caption), 1);
        y := y + 8;
        DrawBullets(items, bulletReserve);
        Assoc(old(Content(ops)), [Label(caption)], BulletPieces(NonBlank(items)));
        y := y + gap;
      }
    }

    /** Section 1. */
    method DrawProject(p: ProjectInfo)
      requires Valid()
      modifies this
      ensures Valid()
      ensures Content(ops) == old(Content(ops)) + ProjectPieces(p)
    {
      ghost var c := Content(ops);
      DrawHeading(Heading1);
      ghost var acc := [Heading(Heading1)];
      DrawField("Company Name:", p.companyName);
      Assoc(c, acc, InlineField("Company Name:", p.companyName));
      acc := acc + InlineField("Company Name:", p.companyName);
      DrawField("Project Name:", p.name);
      Assoc(c, acc, InlineField("Project Name:", p.name));
      acc := acc + InlineField("Project Name:", p.name);
      DrawField("Version:", p.version);
      Assoc(c, acc, InlineField("Version:", p.version));
      acc := acc + InlineField("Version:", p.version);
      DrawTextBlock("Description:", p.description, NoCheck, 5);
      Assoc(c, acc, TextBlock("Description:", p.description));
      acc := acc + TextBlock("Description:", p.description);
      DrawTextBlock("Stakeholders:", p.stakeholders, Check(30), 5);
      Assoc(c, acc, TextBlock("Stakeholders:", p.stakeholders));
      acc := acc + TextBlock("Stakeholders:", p.stakeholders);
      DrawTextBlock("Scope:", p.scope, Check(30), 15);
      Assoc(c, acc, TextBlock("Scope:", p.scope));
    }

    /** Section 2: the user stories (without a space check before their caption), the system
        features and the business rules. */
    method DrawFunctional(f: FunctionalRequirements)
      requires Valid()
      modifies this
      ensures Valid()
      ensures Content(ops) == old(Content(ops)) + FunctionalPieces(f)
    {
      ghost var c := Content(ops);
      DrawHeading(Heading2);
      ghost var acc := [Heading(Heading2)];
      DrawListBlock("User Stories:", f.userStories, NoCheck, 15, 5);
      Assoc(c, acc, ListBlock("User Stories:", f.userStories));
      acc := acc + ListBlock("User Stories:", f.userStories);
      DrawListBlock("System Features:", f.systemFeatures, Check(20), 15, 5);
      Assoc(c, acc, ListBlock("System Features:", f.systemFeatures));
      acc := acc + ListBlock("System Features:", f.systemFeatures);
      DrawListBlock("Business Rules:", f.businessRules, Check(20), 15, 10);
      Assoc(c, acc, ListBlock("Business Rules:", f.businessRules));
    }

    /** The `forEach` over a `{ key, title }` table of text fields: one text block per entry. */
    method DrawTextBlocks(entries: seq<(string, string)>, reserve: Reserve, gap: nat)
      requires Valid()
      modifies this
      ensures Valid()
      ensures Content(ops) == old(Content(ops)) + TextBlocks(entries)
    {
      ghost var c := Content(ops);
      var i := 0;
      while i < |entries|
        invariant 0 <= i <= |entries|
        invariant Valid()
        invariant Content(ops) == c + TextBlocks(entries[..i])
      {
        ghost var block := TextBlock(entries[i].0 + ":", entries[i].1);
        DrawTextBlock(entries[i].0 + ":", entries[i].1, reserve, gap);
        assert entries[..i + 1][..i] == entries[..i];
        Assoc(c, TextBlocks(entries[..i]), block);
        i := i + 1;
      }
      assert entries[..i] == entries;
    }

    /** The `forEach` over a `{ key, title }` table of lists: one list block per entry. */
    method DrawListBlocks(entries: seq<(string, seq<string>)>, reserve: Reserve, bulletReserve: nat, gap: nat)
      requires Valid()
      modifies this
      ensures Valid()
      ensures Content(ops) == old(Content(ops)) + ListBlocks(entries)
    {
      ghost var c := Content(ops);
      var i := 0;
      while i < |entries|
        invariant 0 <= i <= |entries|
        invariant Valid()
        invariant Content(ops) == c + ListBlocks(entries[..i])
      {
        ghost var block := ListBlock(entries[i].0 + ":", entries[i].1);
        DrawListBlock(entries[i].0 + ":", entries[i].1, reserve, bulletReserve, gap);
        assert entries[..i + 1][..i] == entries[..i];
        Assoc(c, ListBlocks(entries[..i]), block);
        i := i + 1;
      }
      assert entries[..i] == entries;
    }

    /** Section 3: every non-empty non-functional field, each after a space check. */
    method DrawNonFunctional(n: NonFunctionalRequirements)
      requires Valid()
      modifies this
      ensures Valid()
      ensures Content(ops) == old(Content(ops)) + NonFunctionalPieces(n)
    {
      ghost var c := Content(ops);
      DrawHeading(Heading3);
      DrawTextBlocks(NonFunctionalEntries(n), Check(25), 8);
      Assoc(c, [Heading(Heading3)], TextBlocks(NonFunctionalEntries(n)));
    }

    /** Section 4, drawn only when the overview or the data flow is non-empty. */
    method DrawArchitecture(a: SystemArchitecture)
      requires Valid()
      modifies this
      ensures Valid()
      ensures Content(ops) == old(Content(ops)) + ArchitecturePieces(a)
    {
      if a.overview != "" || a.dataFlow != "" {
        ghost var c := Content(ops);
        DrawHeading(Heading4);
        ghost var acc := [Heading(Heading4)];
        DrawTextBlock("Architecture Overview:", a.overview, NoCheck, 8);
        ghost var body := TextBlock("Architecture Overview:", a.overview);
        Assoc(c, acc, body);
        DrawListBlock("System Components:", a.components, Check(20), 10, 5);
        Assoc(c, acc + body, ListBlock("System Components:", a.components));
        Assoc(acc, body, ListBlock("System Components:", a.components));
        body := body + ListBlock("System Components:", a.components);
        DrawTextBlock("Data Flow:", a.dataFlow, Check(20), 8);
        Assoc(c, acc + body, TextBlock("Data Flow:", a.dataFlow));
        Assoc(acc, body, TextBlock("Data Flow:", a.dataFlow));
        body := body + TextBlock("Data Flow:", a.dataFlow);
        DrawTextBlock("External Interfaces:", a.interfaces, Check(20), 8);
        Assoc(c, acc + body, TextBlock("External Interfaces:", a.interfaces));
        Assoc(acc, body, TextBlock("External Interfaces:", a.interfaces));
      }
    }

    /** Section 5, drawn only when some constraint list has an entry with text. */
    method DrawConstraints(k: Constraints)
      requires Valid()
      modifies this
      ensures Valid()
      ensures Content(ops) == old(Content(ops)) + ConstraintPieces(k)
    {
      if AnyHasText(k.technical) || AnyHasText(k.business) || AnyHasText(k.regulatory) {
        ghost var c := Content(ops);
        DrawHeading(Heading5);
        DrawListBlocks(ConstraintEntries(k), Check(20), 10, 5);
        Assoc(c, [Heading(Heading5)], ListBlocks(ConstraintEntries(k)));
      }
    }

    /** `Generated by <company>` near the bottom of the last page. */
    method DrawFooter()
      requires Valid()
      modifies this`ops
      ensures Valid()
      ensures ops == old(ops) + [Draw(Footer(company), PageHeight - 15, 1)]
      ensures Content(ops) == old(Content(ops)) + [Footer(company)]
    {
      AppendDraw(ops, company, page, Footer(company), PageHeight - 15, 1);
      ops := ops + [Draw(Footer(company), PageHeight - 15, 1)];
    }
  }

  /** `generatePDF`: lay the record out page by page and name the file. The pieces drawn are
      exactly `DocumentContent(d)`, the headers number the pages consecutively from 1 with the
      company (or its default) on each, and the footer is the last thing drawn, on the last page. */
  method GeneratePdf(d: SrsData, wrap: (string, int) -> LineCount) returns (layout: Layout, fileName: string)
    ensures fresh(layout) && layout.Valid()
    ensures layout.company == CompanyOrDefault(d.projectInfo.companyName)
    ensures Content(layout.ops) == DocumentContent(d)
    ensures PageNumbers(layout.ops) == Pages(layout.page)
    ensures layout.ops[|layout.ops| - 1] == Draw(Footer(layout.company), PageHeight - 15, 1)
    ensures fileName == FileName(d.projectInfo.name)
  {
    layout := new Layout(CompanyOrDefault(d.projectInfo.companyName), wrap);
    FirstHeader(layout.company);
    layout.DrawTitle(d.projectInfo);
    Units(TitlePieces(d.projectInfo));
    layout.DrawProject(d.projectInfo);
    layout.DrawFunctional(d.functionalRequirements);
    layout.DrawNonFunctional(d.nonFunctionalRequirements);
    layout.DrawArchitecture(d.systemArchitecture);
    layout.DrawConstraints(d.constraints);
    layout.DrawFooter();
    fileName := FileName(d.projectInfo.name);
  }
}

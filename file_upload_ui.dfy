/** The upload page (Frontend/Plan2Code/src/pages/file-upload-ui.tsx): it chooses how to
    read a selected file from its extension and type, assembles the text of a PDF page by
    page, and passes non-blank text on to the results page. Reading the file and parsing
    the PDF are outside the model: what they deliver is an input. */
module FileUpload {
  import opened Outcomes
  import opened Strings

  /** The parts of a browser File the page looks at. */
  datatype FileInfo = FileInfo(name: string, mime: string)

  /** How handleFileChange reads a file. */
  datatype Reading = PdfPages | PlainText | NoText

  const Pdf: string := "pdf"
  const TextTypes: seq<string> := ["json", "csv", "md"]
  const TextMime: string := "text"
  const PdfSuffix: string := ".pdf"

  /** `name.split(".").pop()?.toLowerCase() || ""` (line 48): the last piece of the split,
      lowercased. The split is never empty, so `pop` always yields a string. */
  function Extension(name: string): string {
    Lower(LastPiece(Split(name, '.')))
  }

  /** The extension is the lowercased text after the last dot. */
  lemma ExtensionAfterLastDot(name: string)
    ensures Extension(name) == Lower(name[RFind(name, '.') + 1..])
  {
    SplitLast(name, '.');
  }

  /** A name without a dot gives the whole name lowercased; a name ending in a dot gives "";
      the extension never holds a dot. */
  lemma ExtensionCases(name: string)
    ensures (forall i :: 0 <= i < |name| ==> name[i] != '.') ==> Extension(name) == Lower(name)
    ensures |name| > 0 && name[|name| - 1] == '.' ==> Extension(name) == ""
    ensures forall i :: 0 <= i < |Extension(name)| ==> Extension(name)[i] != '.'
  {
    ExtensionAfterLastDot(name);
    var r := RFind(name, '.');
    if forall i :: 0 <= i < |name| ==> name[i] != '.' {
      assert r == -1;
      assert name[0..] == name;
    }
    if |name| > 0 && name[|name| - 1] == '.' {
      assert r == |name| - 1;
    }
    var tail := name[r + 1..];
    forall i | 0 <= i < |tail| ensures Lower(tail)[i] != '.' {
      assert tail[i] == name[r + 1 + i];
    }
  }

  /** The branch handleFileChange takes (lines 51 and 68-71). */
  function Classify(f: FileInfo): Reading {
    var ext := Extension(f.name);
    if ext == Pdf then PdfPages
    else if StartsWith(f.mime, TextMime) || ext in TextTypes then PlainText
    else NoText
  }

  /** The branch read off the name itself: the PDF branch is taken exactly when the text
      after the last dot, lowercased, is "pdf"; otherwise the text branch is taken exactly
      for a "text…" type or a json, csv or md after the last dot. */
  lemma ClassifyByName(f: FileInfo)
    ensures var after := Lower(f.name[RFind(f.name, '.') + 1..]);
      && (Classify(f) == PdfPages <==> after == "pdf")
      && (after != "pdf" ==>
            (Classify(f) == PlainText <==> StartsWith(f.mime, "text") || after in ["json", "csv", "md"]))
  {
    ExtensionAfterLastDot(f.name);
  }

  /** A name without a dot is its own extension: a file called `PDF` is read as a PDF. */
  lemma DotlessPdf(mime: string)
    ensures Classify(FileInfo("PDF", mime)) == PdfPages
  {
    ExtensionCases("PDF");
    assert Lower("PDF") == "pdf";
  }

  /** Whether the preview tab shows the PDF viewer (line 147). */
  predicate ShowsPdfPreview(f: FileInfo) {
    EndsWith(f.name, PdfSuffix)
  }

  /** The preview test is case-sensitive while the extension is lowercased: a file named
      `stem.PDF` is read as a PDF but gets no preview. */
  lemma UpperCasePdf(stem: string, mime: string)
    ensures Classify(FileInfo(stem + ".PDF", mime)) == PdfPages
    ensures !ShowsPdfPreview(FileInfo(stem + ".PDF", mime))
  {
    var name := stem + ".PDF";
    assert name[|stem|] == '.';
    assert forall i :: |stem| < i < |name| ==> name[i] != '.';
    RFindIs(name, '.', |stem|);
    ExtensionAfterLastDot(name);
    assert name[|stem| + 1..] == "PDF";
    assert Lower("PDF") == "pdf";
    assert name[|name| - |PdfSuffix|..] == ".PDF";
  }

  /** Every file that gets the PDF preview is also read as a PDF. */
  lemma PreviewIsPdf(f: FileInfo)
    requires ShowsPdfPreview(f)
    ensures Classify(f) == PdfPages
  {
    var name, k := f.name, |f.name| - 4;
    assert name[k..] == ".pdf";
    assert name[k] == '.';
    assert forall i :: k < i < |name| ==> name[i] != '.' by {
      forall i | k < i < |name| ensures name[i] != '.' {
        assert name[i] == name[k..][i - k];
      }
    }
    RFindIs(name, '.', k);
    ExtensionAfterLastDot(name);
    assert name[k + 1..] == "pdf";
    assert Lower("pdf") == "pdf";
  }

  /** The text of one page: its item strings joined with single spaces. */
  function PageText(items: seq<string>): string {
    Join(items, " ")
  }

  /** The text the PDF branch produces from its pages (lines 56-62): each page's text
      followed by a blank line, pages in order. */
  function PagesText(pages: seq<seq<string>>): string {
    if pages == [] then ""
    else PagesText(pages[..|pages| - 1]) + PageText(pages[|pages| - 1]) + "\n\n"
  }

  /** The pages' texts are laid end to end: the text of two runs of pages is the text of
      the first followed by that of the second. */
  lemma {:induction false} PagesTextAppend(a: seq<seq<string>>, b: seq<seq<string>>)
    ensures PagesText(a + b) == PagesText(a) + PagesText(b)
    decreases |b|
  {
    if b == [] {
      assert a + b == a;
    } else {
      var init, last := b[..|b| - 1], b[|b| - 1];
      PagesSplitLast(a, b);
      PagesTextSnoc(a + init, last);
      PagesTextSnoc(init, last);
      PagesTextAppend(a, init);
      TextAssoc(PagesText(a), PagesText(init), PageText(last) + "\n\n");
    }
  }

  /** A non-empty second run of pages ends with its last page. */
  lemma PagesSplitLast(a: seq<seq<string>>, b: seq<seq<string>>)
    requires b != []
    ensures b == b[..|b| - 1] + [b[|b| - 1]]
    ensures a + b == (a + b[..|b| - 1]) + [b[|b| - 1]]
  {
  }

  lemma TextAssoc(x: string, y: string, z: string)
    ensures x + y + z == x + (y + z)
  {
  }

  /** One more page adds its text and a blank line at the end. */
  lemma PagesTextSnoc(pages: seq<seq<string>>, page: seq<string>)
    ensures PagesText(pages + [page]) == PagesText(pages) + (PageText(page) + "\n\n")
  {
    assert (pages + [page])[..|pages|] == pages;
  }

  /** Each page adds its blank line, so the text is at least two characters per page. */
  lemma {:induction false} PagesTextLength(pages: seq<seq<string>>)
    ensures |PagesText(pages)| >= 2 * |pages|
  {
    if pages != [] {
      PagesTextLength(pages[..|pages| - 1]);
    }
  }

  /** A page without items contributes only its blank line. */
  lemma EmptyPage(pages: seq<seq<string>>)
    ensures PagesText(pages + [[]]) == PagesText(pages) + "\n\n"
  {
    assert (pages + [[]])[..|pages|] == pages;
    assert PageText([]) == "";
  }

  /** The state of TextFileUpload the handlers change. */
  class Uploader {
    var file: Option<FileInfo>
    var textContent: string

    constructor ()
      ensures file == None && textContent == ""
    {
      file := None;
      textContent := "";
    }

    /** handleFileChange up to the reader (lines 39-78): the selection replaces the file
        and the text is reset before anything else; with no file that is all. The reading
        returned is the branch whose reader will deliver the text. */
    method HandleFileChange(selected: Option<FileInfo>) returns (reading: Reading)
      modifies this
      ensures file == selected && textContent == ""
      ensures reading == if selected.None? then NoText else Classify(selected.value)
    {
      file := selected;
      textContent := "";
      if selected.None? {
        return NoText;
      }
      var extension := Extension(selected.value.name);
      if extension == Pdf {
        reading := PdfPages;
      } else if StartsWith(selected.value.mime, TextMime) || extension in TextTypes {
        reading := PlainText;
      } else {
        reading := NoText;
      }
    }

    /** The PDF reader's onload (lines 53-64): page `i` (from 1) has the item strings
        `pages[i - 1]`; the text grows page by page and then replaces the text content. */
    method OnPdfLoaded(pages: seq<seq<string>>)
      modifies this
      ensures textContent == PagesText(pages) && file == old(file)
    {
      var text := "";
      var i := 1;
      while i <= |pages|
        invariant 1 <= i <= |pages| + 1
        invariant text == PagesText(pages[..i - 1])
      {
        var pageText := Join(pages[i - 1], " ");
        text := text + pageText + "\n\n";
        assert pages[..i][..i - 1] == pages[..i - 1];
        i := i + 1;
      }
      assert pages[..|pages|] == pages;
      textContent := text;
    }

    /** The text reader's onload (lines 73-75): the file's text replaces the text content. */
    method OnTextLoaded(result: string)
      modifies this
      ensures textContent == result && file == old(file)
    {
      textContent := result;
    }

    /** handleSubmit (lines 29-33): navigate with the text only when it is not blank. */
    method HandleSubmit() returns (navigation: Option<string>)
      ensures navigation == if Trim(textContent) != "" then Some(textContent) else None
    {
      if Trim(textContent) != "" {
        navigation := Some(textContent);
      } else {
        navigation := None;
      }
    }
  }

  /** The submit button appears for any non-empty text (line 187), but text that is only
      whitespace navigates nowhere; text with a visible character always goes through. */
  lemma SubmitNeedsVisibleText(text: string)
    ensures Trim(text) != "" <==> exists i :: 0 <= i < |text| && !IsJsSpace(text[i])
    ensures Trim(text) != "" ==> text != ""
  {
    TrimNonBlank(text);
  }
}

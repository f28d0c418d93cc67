/** The part of `PyPDF2.PdfWriter` the normaliser uses: an ordered list of pages. */
module PdfWriting {
  import opened TempFiles

  class PdfWriter {
    var pages: seq<Page>

    constructor ()
      ensures pages == []
    {
      pages := [];
    }

    /** `writer.add_page(page)`: appends one page at the end. */
    method AddPage(page: Page)
      modifies this
      ensures pages == old(pages) + [page]
    {
      pages := pages + [page];
    }
  }
}

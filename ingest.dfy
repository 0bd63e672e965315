/** PDF ingestion: the page texts of the uploaded files are numbered and tagged with their
    file name, each page is split into chunks on its own, and the chunks are stored as the
    session's document index together with their `(file, page)` metadata. Text extraction,
    the text splitter and the embedding service are foreign: a file is given by the texts
    its reader extracts from its pages, the splitter is a function parameter, and whether
    embedding and saving succeed is a boolean parameter. */
module Ingest {
  import opened Common
  import opened Store
  import Composer

  /** An uploaded file: its name and the text extracted from each of its pages, in order. */
  datatype PdfFile = PdfFile(filename: string, pages: seq<string>)

  /** One `file_page_mapping` entry `{text, file, page}`. */
  datatype PageEntry = PageEntry(text: string, file: string, page: int)

  /** One chunk `{text, file, page}`. */
  datatype Chunk = Chunk(text: string, file: string, page: int)

  /** The in-order concatenation of some texts. */
  function Concat(ss: seq<string>): string
    decreases |ss|
  {
    if ss == [] then "" else Concat(ss[..|ss| - 1]) + ss[|ss| - 1]
  }

  /** The mapping entries of one file: its pages numbered from 1, tagged with its name. */
  function FileEntries(f: PdfFile): seq<PageEntry>
  {
    seq(|f.pages|, j requires 0 <= j < |f.pages| => PageEntry(f.pages[j], f.filename, j + 1))
  }

  /** The `file_page_mapping` that `get_pdf_text` builds. */
  function PageMapping(files: seq<PdfFile>): seq<PageEntry>
    decreases |files|
  {
    if files == [] then [] else PageMapping(files[..|files| - 1]) + FileEntries(files[|files| - 1])
  }

  /** The raw text that `get_pdf_text` builds. */
  function AllText(files: seq<PdfFile>): string
    decreases |files|
  {
    if files == [] then "" else AllText(files[..|files| - 1]) + Concat(files[|files| - 1].pages)
  }

  /** The number of pages of some files. */
  function TotalPages(files: seq<PdfFile>): nat
    decreases |files|
  {
    if files == [] then 0 else TotalPages(files[..|files| - 1]) + |files[|files| - 1].pages|
  }

  /** The texts of some mapping entries. */
  function PageTexts(m: seq<PageEntry>): seq<string>
  {
    seq(|m|, k requires 0 <= k < |m| => m[k].text)
  }

  /** `get_pdf_text`: one pass over the files and, within each, over its pages, growing the text
      and the mapping. */
  method GetPdfText(pdfFiles: seq<PdfFile>) returns (text: string, fileMapping: seq<PageEntry>)
    ensures text == AllText(pdfFiles)
    ensures fileMapping == PageMapping(pdfFiles)
  {
    text := "";
    fileMapping := [];
    var i := 0;
    while i < |pdfFiles|
      invariant 0 <= i <= |pdfFiles|
      invariant text == AllText(pdfFiles[..i])
      invariant fileMapping == PageMapping(pdfFiles[..i])
    {
      var f := pdfFiles[i];
      var j := 0;
      while j < |f.pages|
        invariant 0 <= j <= |f.pages|
        invariant text == AllText(pdfFiles[..i]) + Concat(f.pages[..j])
        invariant fileMapping == PageMapping(pdfFiles[..i]) + FileEntries(f)[..j]
      {
        var pageText := f.pages[j];
        assert f.pages[..j + 1][..j] == f.pages[..j];
        text := text + pageText;
        assert FileEntries(f)[..j + 1] == FileEntries(f)[..j] + [PageEntry(pageText, f.filename, j + 1)];
        fileMapping := fileMapping + [PageEntry(pageText, f.filename, j + 1)];
        j := j + 1;
      }
      assert f.pages[..j] == f.pages;
      assert FileEntries(f)[..j] == FileEntries(f);
      assert pdfFiles[..i + 1][..i] == pdfFiles[..i];
      i := i + 1;
    }
    assert pdfFiles[..i] == pdfFiles;
  }

  /** The mapping has one entry per page, and the entry of page `j` (from 0) of file `i` sits
      after the pages of the earlier files, holds that page's text and file name, and is
      numbered `j + 1`. */
  lemma {:induction false} PageMappingAt(files: seq<PdfFile>, i: nat, j: nat)
    requires i < |files| && j < |files[i].pages|
    ensures |PageMapping(files)| == TotalPages(files)
    ensures TotalPages(files[..i]) + j < |PageMapping(files)|
    ensures PageMapping(files)[TotalPages(files[..i]) + j]
            == PageEntry(files[i].pages[j], files[i].filename, j + 1)
    decreases |files|
  {
    var init := files[..|files| - 1];
    MappingLength(init);
    if i == |files| - 1 {
      assert files[..i] == init;
    } else {
      PageMappingAt(init, i, j);
      assert init[..i] == files[..i];
    }
  }

  lemma {:induction false} MappingLength(files: seq<PdfFile>)
    ensures |PageMapping(files)| == TotalPages(files)
    decreases |files|
  {
    if files != [] {
      MappingLength(files[..|files| - 1]);
    }
  }

  /** Conversely, every mapping entry is some page of some file, tagged with that file's
      name and numbered by its position from 1. */
  lemma {:induction false} MappingEntryOrigin(files: seq<PdfFile>, k: nat) returns (i: nat, j: nat)
    requires k < |PageMapping(files)|
    ensures i < |files| && j < |files[i].pages|
    ensures PageMapping(files)[k] == PageEntry(files[i].pages[j], files[i].filename, j + 1)
    decreases |files|
  {
    var init := files[..|files| - 1];
    var n := |PageMapping(init)|;
    if k < n {
      i, j := MappingEntryOrigin(init, k);
    } else {
      i, j := |files| - 1, k - n;
    }
  }

  lemma {:induction false} ConcatAppend(a: seq<string>, b: seq<string>)
    ensures Concat(a + b) == Concat(a) + Concat(b)
    decreases |b|
  {
    if b != [] {
      var b' := b[..|b| - 1];
      assert (a + b)[..|a + b| - 1] == a + b';
      ConcatAppend(a, b');
      assert (a + b)[|a + b| - 1] == b[|b| - 1];
      assert Concat(a + b) == Concat(a) + Concat(b') + b[|b| - 1];
      assert Concat(a) + Concat(b') + b[|b| - 1] == Concat(a) + (Concat(b') + b[|b| - 1]);
      assert Concat(b) == Concat(b') + b[|b| - 1];
    } else {
      assert a + b == a;
    }
  }

  /** The raw text is the in-order concatenation of the texts of the mapping's entries. */
  lemma {:induction false} RawTextIsMappingText(files: seq<PdfFile>)
    ensures AllText(files) == Concat(PageTexts(PageMapping(files)))
    decreases |files|
  {
    if files != [] {
      var init, last := files[..|files| - 1], files[|files| - 1];
      RawTextIsMappingText(init);
      assert PageTexts(FileEntries(last)) == last.pages;
      assert PageTexts(PageMapping(files)) == PageTexts(PageMapping(init)) + PageTexts(FileEntries(last));
      ConcatAppend(PageTexts(PageMapping(init)), last.pages);
    }
  }

  /** The chunks `split_text` makes of one page, each tagged with that page's file and number. */
  function PageChunks(e: PageEntry, split: string -> seq<string>): seq<Chunk>
  {
    var pieces := split(e.text);
    seq(|pieces|, k requires 0 <= k < |pieces| => Chunk(pieces[k], e.file, e.page))
  }

  /** The chunk list `get_text_chunks` builds. */
  function Chunks(m: seq<PageEntry>, split: string -> seq<string>): seq<Chunk>
    decreases |m|
  {
    if m == [] then [] else Chunks(m[..|m| - 1], split) + PageChunks(m[|m| - 1], split)
  }

  /** The total number of pieces the splitter makes of the pages. */
  function SplitCount(m: seq<PageEntry>, split: string -> seq<string>): nat
    decreases |m|
  {
    if m == [] then 0 else SplitCount(m[..|m| - 1], split) + |split(m[|m| - 1].text)|
  }

  /** `get_text_chunks`: every page is split on its own and its pieces are appended, tagged. */
  method GetTextChunks(fileMapping: seq<PageEntry>, split: string -> seq<string>)
    returns (chunks: seq<Chunk>)
    ensures chunks == Chunks(fileMapping, split)
  {
    chunks := [];
    var i := 0;
    while i < |fileMapping|
      invariant 0 <= i <= |fileMapping|
      invariant chunks == Chunks(fileMapping[..i], split)
    {
      var item := fileMapping[i];
      var chunkItems := split(item.text);
      var j := 0;
      while j < |chunkItems|
        invariant 0 <= j <= |chunkItems|
        invariant chunks == Chunks(fileMapping[..i], split) + PageChunks(item, split)[..j]
      {
        assert PageChunks(item, split)[..j + 1]
               == PageChunks(item, split)[..j] + [Chunk(chunkItems[j], item.file, item.page)];
        chunks := chunks + [Chunk(chunkItems[j], item.file, item.page)];
        j := j + 1;
      }
      assert PageChunks(item, split)[..j] == PageChunks(item, split);
      assert fileMapping[..i + 1][..i] == fileMapping[..i];
      i := i + 1;
    }
    assert fileMapping[..i] == fileMapping;
  }

  /** The chunk list of a concatenation of mappings is the concatenation of their chunk lists. */
  lemma {:induction false} ChunksAppend(a: seq<PageEntry>, b: seq<PageEntry>, split: string -> seq<string>)
    ensures Chunks(a + b, split) == Chunks(a, split) + Chunks(b, split)
    decreases |b|
  {
    if b != [] {
      var b' := b[..|b| - 1];
      assert (a + b)[..|a + b| - 1] == a + b';
      ChunksAppend(a, b', split);
      assert (a + b)[|a + b| - 1] == b[|b| - 1];
      var last := PageChunks(b[|b| - 1], split);
      assert Chunks(a + b, split) == Chunks(a, split) + Chunks(b', split) + last;
      assert Chunks(a, split) + Chunks(b', split) + last == Chunks(a, split) + (Chunks(b', split) + last);
      assert Chunks(b, split) == Chunks(b', split) + last;
    } else {
      assert a + b == a;
    }
  }

  /** There are as many chunks as the splitter made pieces of all the pages. */
  lemma {:induction false} ChunkCount(m: seq<PageEntry>, split: string -> seq<string>)
    ensures |Chunks(m, split)| == SplitCount(m, split)
    decreases |m|
  {
    if m != [] {
      ChunkCount(m[..|m| - 1], split);
    }
  }

  /** Every chunk is a piece of exactly one page entry and carries that entry's file and page:
      no chunk spans two pages. */
  lemma {:induction false} ChunkOrigin(m: seq<PageEntry>, split: string -> seq<string>, k: nat)
    returns (i: nat)
    requires k < |Chunks(m, split)|
    ensures i < |m|
    ensures Chunks(m, split)[k].file == m[i].file && Chunks(m, split)[k].page == m[i].page
    ensures Chunks(m, split)[k].text in split(m[i].text)
    decreases |m|
  {
    var init := m[..|m| - 1];
    var n := |Chunks(init, split)|;
    if k < n {
      i := ChunkOrigin(init, split, k);
    } else {
      i := |m| - 1;
      assert Chunks(m, split)[k] == PageChunks(m[i], split)[k - n];
    }
  }

  /** `texts` of `get_vector_store`. */
  function Texts(chunks: seq<Chunk>): seq<string>
  {
    seq(|chunks|, i requires 0 <= i < |chunks| => chunks[i].text)
  }

  /** `metadatas` of `get_vector_store`. */
  function Metadatas(chunks: seq<Chunk>): seq<DocMetadata>
  {
    seq(|chunks|, i requires 0 <= i < |chunks| => DocMetadata(Some(chunks[i].file), Some(chunks[i].page)))
  }

  /** The entries `FAISS.from_texts` stores: each text with the metadata at the same position. */
  function FromTexts(texts: seq<string>, metadatas: seq<DocMetadata>): seq<Document>
    requires |texts| == |metadatas|
  {
    seq(|texts|, i requires 0 <= i < |texts| => Document(texts[i], metadatas[i]))
  }

  /** The texts and the metadatas run parallel to the chunk list. */
  lemma ParallelProjections(chunks: seq<Chunk>)
    ensures |Texts(chunks)| == |Metadatas(chunks)| == |chunks|
  {
  }

  /** The chunk a stored document holds, when its metadata has both keys. */
  function ChunkOf(d: Document): Option<Chunk>
  {
    if d.metadata.file.Some? && d.metadata.page.Some?
    then Some(Chunk(d.pageContent, d.metadata.file.value, d.metadata.page.value))
    else None
  }

  /** The documents of the index as built from a chunk list. */
  function IndexedDocuments(chunks: seq<Chunk>): seq<Document>
  {
    FromTexts(Texts(chunks), Metadatas(chunks))
  }

  /** Storing loses nothing: the stored documents give back the chunk list, position by
      position, and each is cited by its chunk's file and page. */
  lemma DocumentsRecoverChunks(chunks: seq<Chunk>)
    ensures |IndexedDocuments(chunks)| == |chunks|
    ensures forall i :: 0 <= i < |chunks| ==> ChunkOf(IndexedDocuments(chunks)[i]) == Some(chunks[i])
    ensures forall i :: 0 <= i < |chunks| ==>
      Composer.Cited(IndexedDocuments(chunks)[i])
      && Composer.CitationOf(IndexedDocuments(chunks)[i]) == Composer.Citation(chunks[i].file, chunks[i].page)
  {
  }

  /** `get_vector_store`: builds the index from the chunks and saves it as the session's
      `faiss_index`, replacing any earlier one. `embedOk` says whether embedding and saving
      succeed; when they do not, the exception leaves the directory as it was. */
  method GetVectorStore(textChunks: seq<Chunk>, sessionId: string, storage: SessionStorage, embedOk: bool)
    returns (r: Option<seq<Document>>)
    modifies storage
    ensures storage.memoryIndexes == old(storage.memoryIndexes)
    ensures embedOk ==>
      && r == Some(IndexedDocuments(textChunks))
      && storage.documentIndexes == old(storage.documentIndexes)[sessionId := IndexedDocuments(textChunks)]
    ensures !embedOk ==> r == None && storage.documentIndexes == old(storage.documentIndexes)
  {
    var texts := Texts(textChunks);
    var metadatas := Metadatas(textChunks);
    if !embedOk {
      return None;
    }
    var vectorStore := FromTexts(texts, metadatas);
    storage.documentIndexes := storage.documentIndexes[sessionId := vectorStore];
    r := Some(vectorStore);
  }

  /** The document index the ingestion of some files builds. */
  function IngestedDocuments(files: seq<PdfFile>, split: string -> seq<string>): seq<Document>
  {
    IndexedDocuments(Chunks(PageMapping(files), split))
  }

  /** `process_pdf_files`: extraction, chunking and indexing in sequence. */
  method ProcessPdfFiles(pdfFiles: seq<PdfFile>, sessionId: string, split: string -> seq<string>,
                         storage: SessionStorage, embedOk: bool)
    returns (r: Option<seq<Document>>)
    modifies storage
    ensures storage.memoryIndexes == old(storage.memoryIndexes)
    ensures embedOk ==>
      && r == Some(IngestedDocuments(pdfFiles, split))
      && storage.documentIndexes == old(storage.documentIndexes)[sessionId := IngestedDocuments(pdfFiles, split)]
    ensures !embedOk ==> r == None && storage.documentIndexes == old(storage.documentIndexes)
  {
    var rawText, fileMapping := GetPdfText(pdfFiles);
    var textChunks := GetTextChunks(fileMapping, split);
    r := GetVectorStore(textChunks, sessionId, storage, embedOk);
  }

  /** Every document ingestion stores is a piece of one page of one uploaded file, and its
      citation names that file and that page's number counted from 1. */
  lemma IngestedDocumentCitesItsPage(files: seq<PdfFile>, split: string -> seq<string>, k: nat)
    returns (i: nat, j: nat)
    requires k < |IngestedDocuments(files, split)|
    ensures i < |files| && j < |files[i].pages|
    ensures var d := IngestedDocuments(files, split)[k];
      && d.metadata == DocMetadata(Some(files[i].filename), Some(j + 1))
      && d.pageContent in split(files[i].pages[j])
      && Composer.Cited(d) && Composer.CitationOf(d) == Composer.Citation(files[i].filename, j + 1)
  {
    var m := PageMapping(files);
    var chunks := Chunks(m, split);
    DocumentsRecoverChunks(chunks);
    var e := ChunkOrigin(m, split, k);
    i, j := MappingEntryOrigin(files, e);
  }
}

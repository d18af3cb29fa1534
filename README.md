# Document question answering: indexing and prompt assembly

This project is a verified Dafny model of the local logic of a small
document question-answering tool. Users upload PDF and DOCX files. Their
text is split into chunks and stored in a persistent vector collection
with the file name as metadata. A question is answered by retrieving
chunks and sending them to a hosted language model in a grounding prompt.
The model covers the two parts of that pipeline that are plain sequential
code:

- **Indexing** (`vectorizer.py`), module `Vectorizer` in `vectorizer.dfy`:
  - extension dispatch and text extraction (`ExtractText`);
  - building the parallel `documents` / `metadatas` lists (`CollectChunks`);
  - numbering the chunks from the collection's current count (`IdRange`);
  - adding them in batches of 512 (`AddInBatches`) and returning the growth
    (`CreateVectorStoreFromFiles`);
  - listing the indexed file names (`AvailableDocuments`).

  The collection is a class whose only field is its records in insertion
  order. `count` is their number and `add` appends to them.
- **Prompt and result assembly** (`chain.py`), module `Chain` in
  `chain.dfy`:
  - the exact layout of the grounding prompt (`BuildPrompt`), with an
    inverse (`ParseQuery`) that reads the question back;
  - the projection of the retrieved documents into the context list
    (`ContextOf`) and the newline-joined distinct source names
    (`ProjectRetrieved`).

Two helper modules give Python's meaning to the operations the core uses,
and to two inverses used only to read results back:

- `Seqs` (`seqs.dfy`): distinctness, and `s[lo:hi]` with clamped bounds.
- `Strings` (`strings.dfy`):
  - `+=` concatenation, `str.endswith`, `sep.join`, and `str(n)` for a
    non-negative integer;
  - `str.split` and `int(s)`, used to read the joined sources text and the
    ids back.

Inputs that belong to third-party code enter the model as parameters:

- The text splitter is the function-valued parameter
  `split: string -> seq<string>`. It is a recursive character splitter with
  window 500 and overlap 50, and nothing is assumed about it.
- The PDF and DOCX readers become the `pages` and `paragraphs` fields of
  `UploadedFile`.
- The self-query retriever becomes the list of `RetrievedDoc` values it
  returns.
- The iteration order of the Python set of file names becomes the
  parameter `order`. The precondition `Enumerates` only says that this
  order lists each name of the set exactly once.

Main results:

- Ids are `str(count)`, …, `str(count + n - 1)`, in document order. They are
  pairwise distinct. They collide with no stored id when the stored ids
  are `"0"`..`str(count - 1)`, and that contiguity is preserved.
- The batches start at 0, 512, 1024, … Every index lies in exactly one
  batch. Every batch holds 1 to 512 items. Ids, texts and metadata are
  sliced with the same bounds and stay aligned. Every `add` is accepted.
- The collection grows by exactly the new records, the earlier records are
  unchanged, and the value returned is the number of chunks.
- Each chunk is tagged with its own file's name, grouped by file in upload
  order. The listed documents grow by the names of the files that produced
  at least one chunk.
- The prompt is the instruction, two spaces, `The question is '<query>'.`,
  a space, `Here is all the context you have:` and the context joined by
  single spaces. For a fixed context, the question can be read back from
  the prompt, and prompts and questions correspond one to one.
- The context list is the page contents in order. Read back line by line,
  the sources text of a non-empty retrieval lists each distinct file name
  exactly once, provided no file name contains a line break. It is empty
  when nothing was retrieved, and the set's iteration order only permutes
  it.

`build_prompt` is total and deterministic by construction: `BuildPrompt` is
a Dafny function of `query` and `context` alone.

## Model

| member | source | states |
|---|---|---|
| `Strings.EndsWith` | vectorizer.py:35 | `s.endswith(suffix)`: the suffix is no longer than `s` and equals its last characters |
| `Strings.Concat` | vectorizer.py:38-39 | the text obtained by `text += part` for each part in order, starting from the empty string |
| `Vectorizer.FileText` | vectorizer.py:33-45 | a name ending in `.pdf` yields the concatenated page texts, else a name ending in `.docx` the concatenated paragraph texts, any other name the empty string |
| `Vectorizer.AppendTexts` | vectorizer.py:38-39 | appending the page (or paragraph) texts one by one with `+=` yields their concatenation in order |
| `Vectorizer.ExtractText` | vectorizer.py:33-45 | the dispatching code with its two `+=` loops computes exactly the extracted text `FileText` of the file |
| `Strings.ConcatAppend` | vectorizer.py:38-39 | the text of a list of pages is the text of its first part followed by the text of the rest, so pages keep their order |
| `Vectorizer.FileChunks` | vectorizer.py:47 | the chunks of one file are what the splitter makes of its extracted text; a file with neither extension is split as the empty text |
| `Vectorizer.Documents` | vectorizer.py:31-50 | the `documents` list is every file's chunks, file after file; a text is in it exactly when it is a chunk of some uploaded file |
| `Vectorizer.Metadatas` | vectorizer.py:47-50 | the `metadatas` list has exactly as many entries as the `documents` list |
| `Vectorizer.CollectChunks` | vectorizer.py:31-50 | the nested loops build exactly the chunk list (every file's chunks, file after file) and the parallel list of `{filename}` tags, of equal length |
| `Vectorizer.DocumentsAppend` | vectorizer.py:33-50 | the chunks of a list of files are the chunks of its first part followed by those of the rest |
| `Vectorizer.MetadatasAppend` | vectorizer.py:33-50 | the tags of a list of files are the tags of its first part followed by those of the rest |
| `Vectorizer.FileChunksInPlace` | vectorizer.py:47-50 | the chunks of the f-th file form one block of `documents`, in the splitter's order, starting where the previous file's block ends; every tag in that block names the f-th file |
| `Vectorizer.NamesOf` | vectorizer.py:27 | a name is in the set exactly when some metadata entry carries it |
| `Vectorizer.ChunkedNames` | vectorizer.py:47-50 | a name is in the set exactly when some uploaded file with that name produced at least one chunk |
| `Vectorizer.MetadataNames` | vectorizer.py:47-50 | the file names in `metadatas` are exactly the names of the files that produced at least one chunk |
| `Strings.NatToString` | vectorizer.py:59 | `str(i)` is a non-empty string of decimal digits with no leading zero unless i is 0 |
| `Strings.ParseNatToString` | vectorizer.py:59 | reading `str(i)` back as a number gives i |
| `Strings.NatToStringInjective` | vectorizer.py:59 | `str(a) == str(b)` exactly when a == b |
| `Vectorizer.IdRange` | vectorizer.py:59 | there are n new ids and the k-th reads back as the number `count + k` |
| `Vectorizer.IdRangeDistinct` | vectorizer.py:59 | the new ids are pairwise distinct |
| `Vectorizer.IdRangeFresh` | vectorizer.py:57-59 | no new id equals `str(m)` for any m below the starting count |
| `Vectorizer.Zip` | vectorizer.py:63-67 | the records `add` stores from parallel lists: the k-th record carries the k-th id, text and metadata |
| `Vectorizer.NewRecords` | vectorizer.py:59-67 | an indexing run appends one record per chunk, in order, whose ids read back as `count`, `count + 1`, … and whose metadata list is `metadatas` unchanged |
| `Vectorizer.IdsContiguous` | vectorizer.py:57-59 | the id layout this indexer produces: the record at position i has id `str(i)` |
| `Vectorizer.NoIdCollision` | vectorizer.py:57-59 | if the stored ids are `"0"`..`str(count-1)`, no new record's id equals a stored record's id |
| `Vectorizer.IndexingKeepsIdsContiguous` | vectorizer.py:57-67 | if the stored ids are `"0"`..`str(count-1)`, after appending the new records the ids are still `"0"`, `"1"`, … in storage order |
| `Vectorizer.BatchStarts` | vectorizer.py:60-61 | `range(0, len(documents), 512)` has one start per batch of 512 needed to cover the documents: ⌈len/512⌉ of them, none for an empty list |
| `Vectorizer.BatchStartAt` | vectorizer.py:60-61 | the j-th batch start is 512·j and lies below `len(documents)` |
| `Vectorizer.BatchStartsEnd` | vectorizer.py:60-61 | there is a batch exactly when there are documents, and the last batch reaches the end of the list |
| `Vectorizer.BatchStartsShape` | vectorizer.py:60-61 | the loop's start indices are 0, 512, 1024, … all below `len(documents)`, and the last batch reaches the end |
| `Vectorizer.BatchOfIndex` | vectorizer.py:60-67 | every document index lies in exactly one batch `[start, start + 512)` |
| `Vectorizer.BatchSizes` | vectorizer.py:63-67 | every batch slice holds at least 1 and at most 512 items |
| `Seqs.Slice` | vectorizer.py:64-66 | Python's slice `s[lo:hi]` is at most `hi - lo` long, and equals the in-range slice when the bounds fit |
| `Seqs.DistinctSlice` | vectorizer.py:64 | a slice of a list of distinct ids has distinct ids |
| `Vectorizer.ZipSlice` | vectorizer.py:63-67 | slicing ids, texts and metadata with the same bounds and pairing them equals slicing the paired records: the i-th id, text and tag stay together |
| `Vectorizer.BatchAtIndex` | vectorizer.py:63-67 | each batch is non-empty, aligned and free of repeated ids, so `add` accepts it, and it stores exactly the next stretch of the new records |
| `Vectorizer.Collection.constructor` | vectorizer.py:53-56 | a newly created collection holds no records |
| `Vectorizer.Collection.Count` | vectorizer.py:57 | `collection.count()` is the number of stored records |
| `Vectorizer.Collection.Add` | vectorizer.py:63-67 | a non-empty, aligned batch without repeated ids is appended in order; any other batch is refused and nothing changes |
| `Vectorizer.AddInBatches` | vectorizer.py:57-67 | returns the count before adding; the collection afterwards is the old records followed by `(str(count + k), documents[k], metadatas[k])` for every k, in order |
| `Vectorizer.CreateVectorStoreFromFiles` | vectorizer.py:29-68 | the earlier records are unchanged and followed by the new records of all chunks of all files; the result equals the number of chunks added |
| `Vectorizer.StoredMetadatas` | vectorizer.py:24 | `collection.get()["metadatas"]` is the metadata of every stored record, in storage order |
| `Vectorizer.FileNames` | vectorizer.py:27 | the set of file names of the stored metadata: a name is listed exactly when some stored record carries it as its file name |
| `Vectorizer.AvailableDocuments` | vectorizer.py:19-27 | empty when the collection holds no metadata, otherwise exactly the set of stored file names |
| `Vectorizer.NamesOfAppend` | vectorizer.py:27 | the names of two metadata lists put together are the union of their names |
| `Vectorizer.AvailableAfterIndexing` | vectorizer.py:24-27 | after indexing, the listed names are the earlier ones plus the name of every uploaded file that produced at least one chunk |
| `Chain.UserPart` | chain.py:42-45 | the user part is ` The question is '<query>'. Here is all the context you have:` followed by the context joined by single spaces |
| `Chain.BuildPrompt` | chain.py:21-50 | the instruction, one space, then the user part; the result is a fixed head, the literal query, and a tail made of the fixed context introduction and the joined context |
| `Chain.ParseQuery` | chain.py:21-50 | reads the query back from between the fixed head and tail; any prompt it accepts is exactly the prompt of the query it returns |
| `Chain.ParseBuiltPrompt` | chain.py:21-50 | reading the query back from a prompt built with the same context returns that query |
| `Chain.InstructionEndsWithFullStop` | chain.py:37-41 | the fixed instruction ends with a full stop |
| `Chain.PromptOpening` | chain.py:37-48 | the prompt starts with the fixed instruction, followed by exactly two spaces and then `The question is '` |
| `Chain.QueryQuoted` | chain.py:43 | right after those two spaces the prompt reads `The question is '<query>'.` with the literal query |
| `Chain.PromptClosing` | chain.py:43-44 | the prompt ends with `Here is all the context you have:` followed directly by the context joined by single spaces; with no context it ends at the colon |
| `Strings.Join` | chain.py:98-100 | `sep.join(parts)`: empty for no parts, the part itself for one, the parts separated by one `sep` otherwise |
| `Strings.Split` | chain.py:98-100 | splitting yields at least one piece and no piece contains the separator |
| `Strings.SplitAfterPlainPrefix` | chain.py:98-100 | splitting text that starts with a separator-free piece glues that piece to the first piece of the rest |
| `Strings.SplitJoin` | chain.py:98-100 | splitting a non-empty joined list undoes the join when no element contains the separator |
| `Chain.ContextOf` | chain.py:97 | the context has one entry per retrieved document, and the i-th is that document's page content |
| `Chain.SourceNames` | chain.py:98-99 | a name is in the set exactly when some retrieved document carries it as its file name |
| `Chain.Enumerates` | chain.py:98-99 | an iteration order of the Python set of file names: no name twice, and exactly the names of the set |
| `Chain.ProjectRetrieved` | chain.py:97-101 | the context has one entry per retrieved document, the i-th being its page content; the sources text joins the set of file names with newlines; with no retrieved documents the context is empty and the sources text is the empty string |
| `Chain.SourcesListEachNameOnce` | chain.py:98-100 | when no file name contains a line break, the lines of the sources text are pairwise distinct, and a line occurs exactly when it is the file name of some retrieved document |
| `Chain.DistinctMultiplicity` | chain.py:98-100 | a list drawn from a set holds each of its elements exactly once |
| `Chain.SourcesOrderIrrelevant` | chain.py:98-100 | any two iteration orders of the set list the same names with the same multiplicities |

## Left out

- The text splitter is an uninterpreted function. Its promises (chunks of
  at most 500 characters, 50 characters of overlap, no chunks of an empty
  text) are not modelled. A file with an unsupported extension therefore
  contributes whatever the splitter makes of the empty string.
- PDF and DOCX parsing is not modelled: pages and paragraphs are given
  texts. A reader failing on a corrupt file, which raises out of
  `create_vector_store_from_files`, is not modelled either.
- The persistent Chroma client, `get_or_create_collection`, the embedding
  functions, environment and `.env` loading: these are I/O and foreign
  calls. The embedding computed for each added record is not modelled.
- `Vectorizer.Collection.Add`: an id that is already stored is not
  modelled; the batch is appended. What the store does with such an id is
  third-party behaviour. `NoIdCollision` shows that the case does not arise
  while the stored ids are contiguous.
- `Vectorizer.AvailableDocuments`: returns an empty set where the source
  returns an empty list. Both are empty, and the caller only iterates over
  the result.
- `get_gemini_response` and the module-level Gemini setup: a hosted model
  call whose answer cannot be specified.
- Lines 70-96 of `retrieve_documents` (the embeddings, the vector store,
  the self-query retriever and its language model): they enter only as the
  list of documents they return.
- The set iteration order in the sources text is an input, not computed.
- The progress bar and the print statements: output only.
- Concurrent writers racing on id assignment: the model is sequential.
- `app.py` (the Streamlit interface and its session transcript) is not
  part of this model.

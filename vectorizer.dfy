/** Indexing of uploaded PDF/DOCX files into an append-only collection of
    `(id, text, filename)` records, and the listing of indexed file names.

    The text splitter (a recursive character splitter with window 500 and
    overlap 50) is library code and enters as the uninterpreted function
    `split`; the PDF and DOCX readers enter as the page and paragraph texts
    they would extract, carried by `UploadedFile`. */
module Vectorizer {
  import opened Seqs
  import opened Strings

  /** Number of records handed to one `add` call. */
  const BatchSize: nat := 512

  /** The metadata attached to every stored chunk: `{"filename": name}`. */
  datatype Metadata = Metadata(filename: string)

  /** One stored record of the collection. */
  datatype Record = Record(id: string, text: string, metadata: Metadata)

  /** An uploaded file: its name, the text of each page a PDF reader would
      extract, and the text of each paragraph a DOCX reader would extract. */
  datatype UploadedFile = UploadedFile(name: string, pages: seq<string>, paragraphs: seq<string>)

  // ---------------------------------------------------------------------
  // Extraction: choose a reader by extension, concatenate its texts
  // ---------------------------------------------------------------------

  /** The text extracted from a file: chosen by the name's extension. */
  function FileText(f: UploadedFile): (text: string)
    ensures EndsWith(f.name, ".pdf") ==> text == Concat(f.pages)
    ensures !EndsWith(f.name, ".pdf") && EndsWith(f.name, ".docx") ==> text == Concat(f.paragraphs)
    ensures !EndsWith(f.name, ".pdf") && !EndsWith(f.name, ".docx") ==> text == ""
  {
    if EndsWith(f.name, ".pdf") then Concat(f.pages)
    else if EndsWith(f.name, ".docx") then Concat(f.paragraphs)
    else ""
  }

  /** `for part in parts: text += part`, starting from the empty string. */
  method AppendTexts(parts: seq<string>) returns (text: string)
    ensures text == Concat(parts)
  {
    text := "";
    var i := 0;
    while i < |parts|
      invariant 0 <= i <= |parts|
      invariant text == Concat(parts[..i])
    {
      assert parts[..i + 1][..i] == parts[..i];
      text := text + parts[i];
      i := i + 1;
    }
    assert parts[..|parts|] == parts;
  }

  method ExtractText(f: UploadedFile) returns (text: string)
    ensures text == FileText(f)
  {
    text := "";
    if EndsWith(f.name, ".pdf") {
      text := AppendTexts(f.pages);
    } else if EndsWith(f.name, ".docx") {
      text := AppendTexts(f.paragraphs);
    }
  }

  // ---------------------------------------------------------------------
  // Accumulation of the parallel `documents` / `metadatas` lists
  // ---------------------------------------------------------------------

  /** The chunks the splitter makes of one file's text; a file with neither
      extension is split as the empty text. */
  function FileChunks(f: UploadedFile, split: string -> seq<string>): (chunks: seq<string>)
    ensures !EndsWith(f.name, ".pdf") && !EndsWith(f.name, ".docx") ==> chunks == split("")
  {
    split(FileText(f))
  }

  /** The `documents` list: every file's chunks, file after file. A text is
      in it exactly when it is a chunk of some file. */
  function Documents(files: seq<UploadedFile>, split: string -> seq<string>): (docs: seq<string>)
    ensures forall f, c :: 0 <= f < |files| && c in FileChunks(files[f], split) ==> c in docs
    ensures forall c :: c in docs ==> exists f :: 0 <= f < |files| && c in FileChunks(files[f], split)
  {
    if files == [] then []
    else
      var pre := files[..|files| - 1];
      assert forall f :: 0 <= f < |pre| ==> pre[f] == files[f];
      Documents(pre, split) + FileChunks(files[|files| - 1], split)
  }

  /** The `metadatas` list: one `{filename}` tag per chunk, parallel to
      `Documents(files, split)`. */
  function Metadatas(files: seq<UploadedFile>, split: string -> seq<string>): (metas: seq<Metadata>)
    ensures |metas| == |Documents(files, split)|
  {
    if files == [] then []
    else
      var last := files[|files| - 1];
      Metadatas(files[..|files| - 1], split) + seq(|FileChunks(last, split)|, _ => Metadata(last.name))
  }

  method CollectChunks(files: seq<UploadedFile>, split: string -> seq<string>)
    returns (documents: seq<string>, metadatas: seq<Metadata>)
    ensures documents == Documents(files, split)
    ensures metadatas == Metadatas(files, split)
    ensures |documents| == |metadatas|
  {
    documents, metadatas := [], [];
    for i := 0 to |files|
      invariant documents == Documents(files[..i], split)
      invariant metadatas == Metadatas(files[..i], split)
    {
      var file := files[i];
      var text := ExtractText(file);
      var docs := split(text);
      for j := 0 to |docs|
        invariant documents == Documents(files[..i], split) + docs[..j]
        invariant metadatas == Metadatas(files[..i], split) + seq(j, _ => Metadata(file.name))
      {
        assert docs[..j + 1] == docs[..j] + [docs[j]];
        assert seq(j + 1, _ => Metadata(file.name)) == seq(j, _ => Metadata(file.name)) + [Metadata(file.name)];
        documents := documents + [docs[j]];
        metadatas := metadatas + [Metadata(file.name)];
      }
      assert files[..i + 1][..i] == files[..i];
      assert docs[..|docs|] == docs;
    }
    assert files[..|files|] == files;
  }

  lemma {:induction false} DocumentsAppend(a: seq<UploadedFile>, b: seq<UploadedFile>, split: string -> seq<string>)
    ensures Documents(a + b, split) == Documents(a, split) + Documents(b, split)
    decreases |b|
  {
    if b == [] {
      assert a + b == a;
    } else {
      var b' := b[..|b| - 1];
      assert (a + b)[..|a + b| - 1] == a + b';
      var last := b[|b| - 1];
      assert (a + b)[|a + b| - 1] == last;
      DocumentsAppend(a, b', split);
      calc {
        Documents(a + b, split);
        Documents(a + b', split) + FileChunks(last, split);
        Documents(a, split) + Documents(b', split) + FileChunks(last, split);
        Documents(a, split) + (Documents(b', split) + FileChunks(last, split));
      }
    }
  }

  lemma {:induction false} MetadatasAppend(a: seq<UploadedFile>, b: seq<UploadedFile>, split: string -> seq<string>)
    ensures Metadatas(a + b, split) == Metadatas(a, split) + Metadatas(b, split)
    decreases |b|
  {
    if b == [] {
      assert a + b == a;
    } else {
      var b' := b[..|b| - 1];
      assert (a + b)[..|a + b| - 1] == a + b';
      var last := b[|b| - 1];
      var tags := seq(|FileChunks(last, split)|, _ => Metadata(last.name));
      assert (a + b)[|a + b| - 1] == last;
      MetadatasAppend(a, b', split);
      calc {
        Metadatas(a + b, split);
        Metadatas(a + b', split) + tags;
        Metadatas(a, split) + Metadatas(b', split) + tags;
        Metadatas(a, split) + (Metadatas(b', split) + tags);
      }
    }
  }

  /** The chunks of file `f` sit, in the splitter's order, in one block of
      `documents` that starts where the chunks of the files before it end,
      and each of them is tagged with `f`'s name. */
  lemma FileChunksInPlace(files: seq<UploadedFile>, split: string -> seq<string>, f: nat)
    requires f < |files|
    ensures var off := |Documents(files[..f], split)|;
            var chunks := FileChunks(files[f], split);
            && |Documents(files[..f + 1], split)| == off + |chunks|
            && off + |chunks| <= |Documents(files, split)|
            && Documents(files, split)[off..off + |chunks|] == chunks
            && forall k :: off <= k < off + |chunks| ==> Metadatas(files, split)[k] == Metadata(files[f].name)
  {
    var pre := files[..f + 1];
    assert files == pre + files[f + 1..];
    DocumentsAppend(pre, files[f + 1..], split);
    MetadatasAppend(pre, files[f + 1..], split);
    assert pre[..|pre| - 1] == files[..f];
  }

  /** The file names in a list of metadata. */
  function NamesOf(metas: seq<Metadata>): (names: set<string>)
    ensures forall name :: name in names <==> exists k :: 0 <= k < |metas| && metas[k].filename == name
  {
    if metas == [] then {} else NamesOf(metas[..|metas| - 1]) + {metas[|metas| - 1].filename}
  }

  lemma {:induction false} NamesOfAppend(a: seq<Metadata>, b: seq<Metadata>)
    ensures NamesOf(a + b) == NamesOf(a) + NamesOf(b)
  {
    if b == [] {
      assert a + b == a;
    } else {
      var b' := b[..|b| - 1];
      assert (a + b)[..|a + b| - 1] == a + b';
      assert (a + b)[|a + b| - 1] == b[|b| - 1];
      NamesOfAppend(a, b');
    }
  }


  /** The names of the files the splitter made at least one chunk of. */
  function ChunkedNames(files: seq<UploadedFile>, split: string -> seq<string>): (names: set<string>)
    ensures forall name :: name in names <==>
              exists f :: 0 <= f < |files| && FileChunks(files[f], split) != [] && files[f].name == name
  {
    if files == [] then {}
    else
      var last := files[|files| - 1];
      ChunkedNames(files[..|files| - 1], split) + (if FileChunks(last, split) != [] then {last.name} else {})
  }

  /** `n` copies of one tag name exactly that file, if any. */
  lemma NamesOfTags(name: string, n: nat)
    ensures NamesOf(seq(n, _ => Metadata(name))) == if n > 0 then {name} else {}
  {
    var tags := seq(n, _ => Metadata(name));
    if n > 0 {
      assert tags[0].filename == name;
    }
  }

  /** The file names occurring in `metadatas` are exactly the names of the
      files the splitter made at least one chunk of. */
  lemma {:induction false} MetadataNames(files: seq<UploadedFile>, split: string -> seq<string>)
    ensures NamesOf(Metadatas(files, split)) == ChunkedNames(files, split)
  {
    if files != [] {
      var pre := files[..|files| - 1];
      var last := files[|files| - 1];
      var n := |FileChunks(last, split)|;
      var tags := seq(n, _ => Metadata(last.name));
      MetadataNames(pre, split);
      NamesOfAppend(Metadatas(pre, split), tags);
      NamesOfTags(last.name, n);
      calc {
        NamesOf(Metadatas(files, split));
        NamesOf(Metadatas(pre, split) + tags);
        ChunkedNames(pre, split) + NamesOf(tags);
        ChunkedNames(pre, split) + (if n > 0 then {last.name} else {});
        ChunkedNames(files, split);
      }
    }
  }

  // ---------------------------------------------------------------------
  // Identifiers
  // ---------------------------------------------------------------------

  /** `[str(i) for i in range(lo, lo + n)]`: `n` ids, the `k`-th reading
      back as the number `lo + k`. */
  function IdRange(lo: nat, n: nat): (ids: seq<string>)
    ensures |ids| == n
    ensures forall k :: 0 <= k < n ==> ParseNat(ids[k]) == lo + k
  {
    var ids := seq(n, k requires 0 <= k < n => NatToString(lo + k));
    assert forall k :: 0 <= k < n ==> ParseNat(ids[k]) == lo + k by {
      forall k | 0 <= k < n ensures ParseNat(ids[k]) == lo + k {
        ParseNatToString(lo + k);
      }
    }
    ids
  }

  /** The new ids are pairwise distinct. */
  lemma IdRangeDistinct(lo: nat, n: nat)
    ensures Distinct(IdRange(lo, n))
  {
    var ids := IdRange(lo, n);
    forall i, j | 0 <= i < j < n ensures ids[i] != ids[j] {
      NatToStringInjective(lo + i, lo + j);
    }
  }

  /** No new id equals `str(m)` for any `m` below the starting count. */
  lemma IdRangeFresh(lo: nat, n: nat)
    ensures forall m, k :: 0 <= m < lo && 0 <= k < n ==> NatToString(m) != IdRange(lo, n)[k]
  {
    forall m, k | 0 <= m < lo && 0 <= k < n ensures NatToString(m) != IdRange(lo, n)[k] {
      NatToStringInjective(m, lo + k);
    }
  }

  /** Records whose ids are `"0"`, `"1"`, ... in storage order, as this
      indexer produces them. */
  predicate IdsContiguous(records: seq<Record>)
  {
    forall i :: 0 <= i < |records| ==> records[i].id == NatToString(i)
  }

  /** The records one `add` call stores: the i-th id, text and metadata
      together. */
  function Zip(ids: seq<string>, documents: seq<string>, metadatas: seq<Metadata>): (rs: seq<Record>)
    requires |documents| == |ids| && |metadatas| == |ids|
  {
    seq(|ids|, k requires 0 <= k < |ids| => Record(ids[k], documents[k], metadatas[k]))
  }

  /** Slicing the three lists with the same bounds and pairing them is the
      same as pairing them and then slicing: entries stay aligned. */
  lemma ZipSlice(ids: seq<string>, documents: seq<string>, metadatas: seq<Metadata>, lo: nat, hi: nat)
    requires |documents| == |ids| && |metadatas| == |ids|
    ensures var s := Slice(ids, lo, hi);
            |Slice(documents, lo, hi)| == |s| && |Slice(metadatas, lo, hi)| == |s|
    ensures Zip(Slice(ids, lo, hi), Slice(documents, lo, hi), Slice(metadatas, lo, hi))
         == Slice(Zip(ids, documents, metadatas), lo, hi)
  {
  }

  /** The records an indexing run appends to a collection holding `count`
      records: one per chunk, with ids reading back as `count`, `count + 1`,
      ... and carrying the `metadatas` list unchanged. */
  function NewRecords(count: nat, documents: seq<string>, metadatas: seq<Metadata>): (rs: seq<Record>)
    requires |metadatas| == |documents|
    ensures |rs| == |documents|
    ensures forall k :: 0 <= k < |rs| ==> ParseNat(rs[k].id) == count + k && rs[k].text == documents[k]
    ensures StoredMetadatas(rs) == metadatas
  {
    Zip(IdRange(count, |documents|), documents, metadatas)
  }

  /** Starting from a collection with ids `"0"`..`str(count-1)`, no new id
      collides with a stored one. */
  lemma NoIdCollision(records: seq<Record>, documents: seq<string>, metadatas: seq<Metadata>)
    requires |metadatas| == |documents|
    requires IdsContiguous(records)
    ensures var appended := NewRecords(|records|, documents, metadatas);
            forall i, k :: 0 <= i < |records| && 0 <= k < |appended| ==> records[i].id != appended[k].id
  {
    IdRangeFresh(|records|, |documents|);
  }

  /** Indexing keeps the ids of a collection contiguous. */
  lemma IndexingKeepsIdsContiguous(records: seq<Record>, documents: seq<string>, metadatas: seq<Metadata>)
    requires |metadatas| == |documents|
    requires IdsContiguous(records)
    ensures IdsContiguous(records + NewRecords(|records|, documents, metadatas))
  {
  }

  // ---------------------------------------------------------------------
  // Batches: `range(0, len(documents), 512)`
  // ---------------------------------------------------------------------

  /** `list(range(lo, n, BatchSize))`: as many starts as it takes batches
      of 512 to cover `lo` to `n`. */
  function BatchStarts(lo: nat, n: nat): (starts: seq<nat>)
    ensures |starts| == if lo < n then (n - lo + BatchSize - 1) / BatchSize else 0
    decreases n - lo
  {
    if lo >= n then [] else [lo] + BatchStarts(lo + BatchSize, n)
  }

  /** The `j`-th batch starts at `lo + 512 * j`, below `n`. */
  lemma {:induction false} BatchStartAt(lo: nat, n: nat, j: nat)
    requires j < |BatchStarts(lo, n)|
    ensures BatchStarts(lo, n)[j] == lo + j * BatchSize < n
    decreases n - lo
  {
    if j > 0 {
      BatchStartAt(lo + BatchSize, n, j - 1);
    }
  }

  /** There is a batch exactly when the range is not empty, and the last
      batch reaches `n`. */
  lemma {:induction false} BatchStartsEnd(lo: nat, n: nat)
    ensures var s := BatchStarts(lo, n);
            && (lo < n <==> |s| > 0)
            && (|s| > 0 ==> n <= s[|s| - 1] + BatchSize)
    decreases n - lo
  {
    if lo < n {
      BatchStartsEnd(lo + BatchSize, n);
    }
  }

  /** The batch starts are `lo`, `lo + 512`, ... each below `n`, and the last
      batch reaches `n`. */
  lemma BatchStartsShape(lo: nat, n: nat)
    ensures var s := BatchStarts(lo, n);
            && (forall j :: 0 <= j < |s| ==> s[j] == lo + j * BatchSize && s[j] < n)
            && (lo < n <==> |s| > 0)
            && (|s| > 0 ==> n <= s[|s| - 1] + BatchSize)
  {
    forall j | 0 <= j < |BatchStarts(lo, n)| ensures BatchStarts(lo, n)[j] == lo + j * BatchSize < n {
      BatchStartAt(lo, n, j);
    }
    BatchStartsEnd(lo, n);
  }

  /** Every index below `n` falls in exactly one batch. */
  lemma BatchOfIndex(n: nat, k: nat) returns (j: nat)
    requires k < n
    ensures var s := BatchStarts(0, n);
            && j < |s| && s[j] <= k < Min(s[j] + BatchSize, n)
            && forall j' :: 0 <= j' < |s| && s[j'] <= k < s[j'] + BatchSize ==> j' == j
  {
    BatchStartsShape(0, n);
    var s := BatchStarts(0, n);
    j := k / BatchSize;
    var last := |s| - 1;
    assert k < last * BatchSize + BatchSize;
    assert j <= last;
  }

  /** Every batch holds between 1 and 512 items of a list of length `n`. */
  lemma BatchSizes<T>(xs: seq<T>, j: nat)
    requires j < |BatchStarts(0, |xs|)|
    ensures var i := BatchStarts(0, |xs|)[j];
            1 <= |Slice(xs, i, i + BatchSize)| <= BatchSize
  {
    BatchStartsShape(0, |xs|);
  }

  // ---------------------------------------------------------------------
  // The collection
  // ---------------------------------------------------------------------

  /** The persistent collection, seen as the list of its records in insertion
      order. */
  class Collection {
    var records: seq<Record>

    /** `get_or_create_collection` on a store that does not hold it yet. */
    constructor ()
      ensures records == []
    {
      records := [];
    }

    /** `collection.count()`. */
    function Count(): nat
      reads this
    {
      |records|
    }

    /** `collection.add(ids=..., documents=..., metadatas=...)`: a non-empty
        batch of parallel lists without a repeated id is stored; anything
        else is refused and stores nothing. */
    method Add(ids: seq<string>, documents: seq<string>, metadatas: seq<Metadata>) returns (ok: bool)
      modifies this
      ensures ok <==> 0 < |ids| && |documents| == |ids| && |metadatas| == |ids| && Distinct(ids)
      ensures ok ==> records == old(records) + Zip(ids, documents, metadatas)
      ensures !ok ==> records == old(records)
    {
      ok := 0 < |ids| && |documents| == |ids| && |metadatas| == |ids| && Distinct(ids);
      if ok {
        records := records + Zip(ids, documents, metadatas);
      }
    }
  }

  /** The batch starting at `i` is one `add` accepts, and what it stores
      after `stored` and the batches before it is the next stretch of the
      aligned records. */
  lemma BatchAtIndex(stored: seq<Record>, ids: seq<string>, documents: seq<string>, metadatas: seq<Metadata>, i: nat)
    requires |documents| == |ids| && |metadatas| == |ids|
    requires Distinct(ids)
    requires i < |ids|
    ensures var batch := Slice(ids, i, i + BatchSize);
            && 0 < |batch| && Distinct(batch)
            && |Slice(documents, i, i + BatchSize)| == |batch| && |Slice(metadatas, i, i + BatchSize)| == |batch|
    ensures stored + Zip(ids, documents, metadatas)[..i]
            + Zip(Slice(ids, i, i + BatchSize), Slice(documents, i, i + BatchSize), Slice(metadatas, i, i + BatchSize))
         == stored + Zip(ids, documents, metadatas)[..Min(i + BatchSize, |ids|)]
  {
    DistinctSlice(ids, i, i + BatchSize);
    ZipSlice(ids, documents, metadatas, i, i + BatchSize);
    PrefixThenSlice(Zip(ids, documents, metadatas), i, i + BatchSize);
  }

  /** Number the chunks on from the collection's current count and add them
      in batches of 512 (`ids[i:i + 512]`, `documents[i:i + 512]`,
      `metadatas[i:i + 512]` for `i` in `range(0, len(documents), 512)`).
      Returns the count before the first batch. */
  method AddInBatches(collection: Collection, documents: seq<string>, metadatas: seq<Metadata>)
    returns (count: nat)
    requires |metadatas| == |documents|
    modifies collection
    ensures count == old(|collection.records|)
    ensures collection.records == old(collection.records) + NewRecords(count, documents, metadatas)
  {
    count := collection.Count();
    var ids := IdRange(count, |documents|);
    IdRangeDistinct(count, |documents|);
    ghost var stored := collection.records;
    ghost var all := Zip(ids, documents, metadatas);
    var starts := BatchStarts(0, |documents|);
    for b := 0 to |starts|
      invariant collection.records == stored + all[..Min(b * BatchSize, |documents|)]
    {
      var i := starts[b];
      BatchStartAt(0, |documents|, b);
      BatchAtIndex(stored, ids, documents, metadatas, i);
      var ok := collection.Add(Slice(ids, i, i + BatchSize), Slice(documents, i, i + BatchSize),
                               Slice(metadatas, i, i + BatchSize));
      assert ok;
    }
    BatchStartsEnd(0, |documents|);
    if starts != [] {
      BatchStartAt(0, |documents|, |starts| - 1);
    }
    assert all[..Min(|starts| * BatchSize, |documents|)] == all;
  }

  /** Index `files`: extract and split each one, tag every chunk with its file
      name, add the chunks under fresh ids and return how much the
      collection grew. */
  method CreateVectorStoreFromFiles(collection: Collection, files: seq<UploadedFile>, split: string -> seq<string>)
    returns (added: int)
    modifies collection
    ensures collection.records
         == old(collection.records) + NewRecords(old(|collection.records|), Documents(files, split), Metadatas(files, split))
    ensures added == |Documents(files, split)|
  {
    var documents, metadatas := CollectChunks(files, split);
    var count := AddInBatches(collection, documents, metadatas);
    added := collection.Count() - count;
  }

  // ---------------------------------------------------------------------
  // Listing the indexed documents
  // ---------------------------------------------------------------------

  /** `collection.get()["metadatas"]`: the stored metadata in storage
      order. */
  function StoredMetadatas(records: seq<Record>): seq<Metadata>
  {
    seq(|records|, i requires 0 <= i < |records| => records[i].metadata)
  }

  /** The set of file names over the stored records. */
  function FileNames(records: seq<Record>): (names: set<string>)
    ensures forall name :: name in names <==>
              exists i :: 0 <= i < |records| && records[i].metadata.filename == name
  {
    var metas := StoredMetadatas(records);
    assert forall i :: 0 <= i < |records| ==> metas[i] == records[i].metadata;
    NamesOf(metas)
  }

  /** `get_available_documents`: nothing when the collection holds no
      metadata, otherwise the set of stored file names. */
  function AvailableDocuments(collection: Collection): (names: set<string>)
    reads collection
    ensures collection.records == [] ==> names == {}
    ensures forall name :: name in names <==>
              exists i :: 0 <= i < |collection.records| && collection.records[i].metadata.filename == name
  {
    if collection.records == [] then {} else FileNames(collection.records)
  }

  /** After indexing `files`, the listed documents are the earlier ones plus
      the name of every file that produced at least one chunk. */
  lemma AvailableAfterIndexing(records: seq<Record>, files: seq<UploadedFile>, split: string -> seq<string>)
    ensures FileNames(records + NewRecords(|records|, Documents(files, split), Metadatas(files, split)))
         == FileNames(records) + ChunkedNames(files, split)
  {
    var metas := Metadatas(files, split);
    var appended := NewRecords(|records|, Documents(files, split), metas);
    assert StoredMetadatas(records + appended) == StoredMetadatas(records) + StoredMetadatas(appended);
    NamesOfAppend(StoredMetadatas(records), metas);
    MetadataNames(files, split);
  }
}

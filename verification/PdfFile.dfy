/**
 The PDF fixture file: numbered objects and a cross-reference table, and a reader that starts at
 `startxref`, follows the table, and goes from the trailer's root through the catalog and the page tree
 to the content streams (ISO 32000-1, sections 7.3.8, 7.5.4, 7.5.5 and 7.7).
 */
module PdfFile {
  import opened Basics
  import opened PdfText
  import opened PdfContent

  /** The fixed texts between the variable parts of the file. */
  datatype Syntax = Syntax(
    obj: string,
    length: string,
    stream: string,
    endStream: string,
    page: string,
    resources: string,
    reference: string,
    kids: string,
    count: string,
    endPages: string,
    catalog: string,
    endCatalog: string,
    font: string,
    header: string,
    xref: string,
    free: string,
    inUse: string,
    trailer: string,
    root: string,
    endTrailer: string,
    start: string,
    endFile: string)

  const PDF: Syntax := Syntax(
    " 0 obj\n",
    "<< /Length ",
    " >>\nstream\n",
    "\nendstream\nendobj\n",
    "<< /Type /Page /Parent 2 0 R /MediaBox [0 0 612 792] /Contents ",
    " 0 R" + " /Resources << /Font << /F1 3 0 R >> >> >>\nendobj\n",
    " 0 R",
    "<< /Type /Pages /Kids [",
    "] /Count ",
    " >>\nendobj\n",
    "<< /Type /Catalog /Pages ",
    " 0 R >>\nendobj\n",
    "<< /Type /Font /Subtype /Type1 /BaseFont /Helvetica >>\nendobj\n",
    "%PDF-1.4\n%" + [0xE2 as char, 0xE3 as char, 0xCF as char, 0xD3 as char] + "\n",
    "xref\n0 ",
    "\n0000000000 65535 f \n",
    " 00000 n \n",
    "trailer\n<< /Size ",
    " /Root ",
    " 0 R >>\n",
    "startxref\n",
    "\n%%EOF\n")

  predicate Separates(text: string) {
    text != "" && !IsDigit(text[0])
  }

  /** What a reader relies on: numbers end where a fixed text begins, and table entries are 20 bytes. */
  predicate Readable(x: Syntax) {
    && Separates(x.obj) && Separates(x.stream) && Separates(x.free)
    && Separates(x.root) && Separates(x.endTrailer) && Separates(x.endCatalog)
    && Separates(x.reference) && Separates(x.resources) && Separates(x.endPages)
    && Separates(x.count) && x.count[0] != ' '
    && |x.inUse| == 10
    && x.start != "" && !IsDigit(x.start[|x.start| - 1])
  }

  lemma PdfIsReadable()
    ensures Readable(PDF)
  {
    assert PDF.obj[0] == ' ' && PDF.stream[0] == ' ' && PDF.free[0] == '\n' && |PDF.inUse| == 10;
    assert PDF.root[0] == ' ' && PDF.endTrailer[0] == ' ' && PDF.endCatalog[0] == ' ' && PDF.reference[0] == ' ';
    assert PDF.resources[0] == " 0 R"[0] == ' ';
    assert PDF.endPages[0] == ' ' && PDF.count[0] == ']';
    assert PDF.start == "startxref\n" && PDF.start[9] == '\n';
  }

  // ---------------------------------------------------------------- objects

  function StreamBody(x: Syntax, content: string): string {
    x.length + Dec(|content|) + x.stream + content + x.endStream
  }

  function PageBody(x: Syntax, contentId: nat): string {
    x.page + Dec(contentId) + x.resources
  }

  function Reference(x: Syntax, id: nat): string {
    Dec(id) + x.reference
  }

  function References(x: Syntax, ids: seq<nat>): seq<string> {
    seq(|ids|, i requires 0 <= i < |ids| => Reference(x, ids[i]))
  }

  function CatalogBody(x: Syntax): string {
    x.catalog + Dec(2) + x.endCatalog
  }

  function PagesBody(x: Syntax, ids: seq<nat>): string {
    x.kids + Join(" ", References(x, ids)) + x.count + Dec(|ids|) + x.endPages
  }

  function Object(x: Syntax, id: nat, body: string): string {
    Dec(id) + x.obj + body
  }

  /** The objects the pages contribute, two for each page, numbered from `id` on. */
  function Blocks(pair: (seq<string>, nat) -> seq<string>, pages: seq<seq<string>>, id: nat): seq<string> {
    if pages == [] then [] else pair(pages[0], id) + Blocks(pair, pages[1..], id + 2)
  }

  /** The content and the page object of one page. */
  function PagePair(x: Syntax, page: seq<string>, id: nat): (r: seq<string>)
    ensures |r| == 2
  {
    [Object(x, id, StreamBody(x, ContentOf(page))), Object(x, id + 1, PageBody(x, id))]
  }

  function PairOf(x: Syntax): (seq<string>, nat) -> seq<string> {
    (lines: seq<string>, id: nat) => PagePair(x, lines, id)
  }

  function PageObjects(x: Syntax, pages: seq<seq<string>>, id: nat): seq<string> {
    Blocks(PairOf(x), pages, id)
  }

  function PageIds(n: nat): seq<nat> {
    seq(n, k => 5 + 2 * k)
  }

  function Objects(x: Syntax, pages: seq<seq<string>>): seq<string> {
    [Object(x, 1, CatalogBody(x)), Object(x, 2, PagesBody(x, PageIds(|pages|))), Object(x, 3, x.font)]
    + PageObjects(x, pages, 4)
  }

  // ---------------------------------------------------------------- the file

  /** Where object `k` (counted from 0) starts; the table starts where object `|objects|` would. */
  function Offset(x: Syntax, objects: seq<string>, k: nat): nat
    requires k <= |objects|
  {
    |x.header| + |Concat(objects[..k])|
  }

  function OffsetList(x: Syntax, objects: seq<string>): (r: seq<nat>)
    ensures |r| == |objects|
  {
    seq(|objects|, k requires 0 <= k < |objects| => Offset(x, objects, k))
  }

  function Entry(x: Syntax, offset: nat): string {
    Pad10(offset) + x.inUse
  }

  function Texts(entry: nat -> string, offsets: seq<nat>): (r: seq<string>)
    ensures |r| == |offsets|
  {
    seq(|offsets|, k requires 0 <= k < |offsets| => entry(offsets[k]))
  }

  function EntryTexts(x: Syntax, offsets: seq<nat>): seq<string> {
    Texts((offset: nat) => Entry(x, offset), offsets)
  }

  function Table(x: Syntax, offsets: seq<nat>): string {
    x.xref + Dec(|offsets| + 1) + x.free + Concat(EntryTexts(x, offsets))
  }

  function Trailer(x: Syntax, size: nat, xref: nat): string {
    x.trailer + Dec(size) + x.root + Dec(1) + x.endTrailer + x.start + Dec(xref) + x.endFile
  }

  function File(x: Syntax, objects: seq<string>): string {
    x.header + Concat(objects) + Table(x, OffsetList(x, objects))
    + Trailer(x, |objects| + 1, Offset(x, objects, |objects|))
  }

  // ---------------------------------------------------------------- the writer

  lemma {:induction false} BlocksAppend(pair: (seq<string>, nat) -> seq<string>, pages: seq<seq<string>>,
                                        page: seq<string>, id: nat)
    ensures Blocks(pair, pages + [page], id) == Blocks(pair, pages, id) + pair(page, id + 2 * |pages|)
  {
    if pages == [] {
      assert (pages + [page])[1..] == [];
      assert Blocks(pair, pages + [page], id) == pair(page, id) + [];
    } else {
      var first, last := pair(pages[0], id), pair(page, id + 2 * |pages|);
      assert (pages + [page])[0] == pages[0] && (pages + [page])[1..] == pages[1..] + [page];
      BlocksAppend(pair, pages[1..], page, id + 2);
      assert first + (Blocks(pair, pages[1..], id + 2) + last) == (first + Blocks(pair, pages[1..], id + 2)) + last;
    }
  }

  method WritePage(x: Syntax, lines: seq<string>, id: nat) returns (stream: string, page: string)
    ensures [stream, page] == PagePair(x, lines, id)
  {
    var text := PageContent(lines);
    var content := Encode(text);
    stream := Object(x, id, StreamBody(x, content));
    page := Object(x, id + 1, PageBody(x, id));
  }

  lemma PageAdded(x: Syntax, start: seq<string>, pages: seq<seq<string>>, i: nat, objects: seq<string>,
                  stream: string, page: string)
    requires i < |pages| && objects == start + PageObjects(x, pages[..i], 4)
    requires [stream, page] == PagePair(x, pages[i], 4 + 2 * i)
    ensures objects + [stream] + [page] == start + PageObjects(x, pages[..i + 1], 4)
  {
    assert pages[..i + 1] == pages[..i] + [pages[i]];
    BlocksAppend(PairOf(x), pages[..i], pages[i], 4);
    assert objects + [stream] + [page] == start + (PageObjects(x, pages[..i], 4) + [stream, page]);
  }

  lemma PageIdAdded(i: nat)
    ensures PageIds(i) + [4 + 2 * i + 1] == PageIds(i + 1)
  {
  }

  /** The page objects, and the numbers of the pages among them. */
  method AddPages(x: Syntax, start: seq<string>, pages: seq<seq<string>>) returns (objects: seq<string>, ids: seq<nat>)
    ensures objects == start + PageObjects(x, pages, 4)
    ensures ids == PageIds(|pages|)
  {
    objects, ids := start, [];
    var nextId := 4;
    for i := 0 to |pages|
      invariant nextId == 4 + 2 * i
      invariant ids == PageIds(i)
      invariant objects == start + PageObjects(x, pages[..i], 4)
    {
      var stream, page := WritePage(x, pages[i], nextId);
      PageAdded(x, start, pages, i, objects, stream, page);
      objects := objects + [stream];
      objects := objects + [page];
      PageIdAdded(i);
      ids := ids + [nextId + 1];
      nextId := nextId + 2;
    }
    assert pages[..|pages|] == pages;
  }

  /** The objects, with the page tree filled in once the page numbers are known. */
  method BuildObjects(x: Syntax, pages: seq<seq<string>>) returns (objects: seq<string>)
    ensures objects == Objects(x, pages)
  {
    var first, third := Object(x, 1, CatalogBody(x)), Object(x, 3, x.font);
    var ids: seq<nat>;
    objects, ids := AddPages(x, [first, "", third], pages);
    ReplaceSecond(first, third, Object(x, 2, PagesBody(x, ids)), PageObjects(x, pages, 4));
    objects := objects[1 := Object(x, 2, PagesBody(x, ids))];
  }

  lemma ReplaceSecond(first: string, third: string, second: string, rest: seq<string>)
    ensures ([first, "", third] + rest)[1 := second] == [first, second, third] + rest
  {
  }

  /** Append every object and note where it starts. */
  method AppendObjects(x: Syntax, objects: seq<string>) returns (out: string, offsets: seq<nat>)
    ensures out == x.header + Concat(objects) && offsets == OffsetList(x, objects)
  {
    out, offsets := x.header, [];
    for i := 0 to |objects|
      invariant out == x.header + Concat(objects[..i])
      invariant |offsets| == i && forall k | 0 <= k < i :: offsets[k] == Offset(x, objects, k)
    {
      assert objects[..i + 1] == objects[..i] + [objects[i]];
      ConcatAppend(objects[..i], objects[i]);
      offsets := offsets + [|out|];
      out := out + objects[i];
    }
    assert objects[..|objects|] == objects;
  }

  lemma EntryTextsLast(x: Syntax, offsets: seq<nat>, i: nat)
    requires i < |offsets|
    ensures Concat(EntryTexts(x, offsets[..i + 1])) == Concat(EntryTexts(x, offsets[..i])) + Entry(x, offsets[i])
  {
    TextsLast((offset: nat) => Entry(x, offset), offsets, i);
  }

  lemma TextsLast(entry: nat -> string, offsets: seq<nat>, i: nat)
    requires i < |offsets|
    ensures Concat(Texts(entry, offsets[..i + 1])) == Concat(Texts(entry, offsets[..i])) + entry(offsets[i])
  {
    assert Texts(entry, offsets[..i + 1]) == Texts(entry, offsets[..i]) + [entry(offsets[i])];
    ConcatAppend(Texts(entry, offsets[..i]), entry(offsets[i]));
  }

  method WriteEntries(x: Syntax, offsets: seq<nat>) returns (entries: string)
    ensures entries == Concat(EntryTexts(x, offsets))
  {
    entries := "";
    for i := 0 to |offsets|
      invariant entries == Concat(EntryTexts(x, offsets[..i]))
    {
      EntryTextsLast(x, offsets, i);
      entries := entries + Entry(x, offsets[i]);
    }
    assert offsets[..|offsets|] == offsets;
  }

  /** `build_pdf`: the objects, then the table of their offsets and the trailer. */
  method BuildPdf(x: Syntax, pages: seq<seq<string>>) returns (out: string)
    ensures out == File(x, Objects(x, pages))
  {
    var objects := BuildObjects(x, pages);
    var body, offsets := AppendObjects(x, objects);
    assert objects[..|objects|] == objects;
    var entries := WriteEntries(x, offsets);
    var table := x.xref + Dec(|offsets| + 1) + x.free + entries;
    return body + table + Trailer(x, |offsets| + 1, |body|);
  }

  // ---------------------------------------------------------------- the reader

  /** The text before a final token. */
  function StripEnd(token: string, input: string): Option<string> {
    if |token| <= |input| && input[|input| - |token|..] == token then Some(input[..|input| - |token|]) else None
  }

  /** The number at the end of the input, with what precedes it. */
  function NumberAtEnd(input: string): Option<(string, nat)> {
    var k := TrailingRun(input);
    if k == 0 then None else Some((input[..|input| - k], Value(input[|input| - k..])))
  }

  /** The number that follows a fixed text, with what follows the number. */
  function NumberAfter(token: string, input: string): Option<(nat, string)> {
    var rest := Skip(token, input);
    if rest.None? then None else Number(rest.value)
  }

  /** The number between `startxref` and the end-of-file marker. */
  function ReadStart(x: Syntax, file: string): Option<nat> {
    var front := StripEnd(x.endFile, file);
    var number := if front.None? then None else NumberAtEnd(front.value);
    if number.None? || StripEnd(x.start, number.value.0).None? then None else Some(number.value.1)
  }

  /** One 20-byte entry for an object in use. */
  function ReadEntry(x: Syntax, input: string): Option<nat> {
    if |input| >= 20 && input[10..20] == x.inUse && AllDigits(input[..10]) then Some(Value(input[..10])) else None
  }

  /** The entries of `n` objects. */
  function ReadEntries(x: Syntax, input: string, n: nat): Option<seq<nat>> {
    if n == 0 then Some([])
    else if ReadEntry(x, input).None? then None
    else
      var rest := ReadEntries(x, input[20..], n - 1);
      if rest.None? then None else Some([ReadEntry(x, input).value] + rest.value)
  }

  /** How many entries the table at the head of the input has, and the text that starts with them. */
  function TableEntries(x: Syntax, input: string): Option<(nat, string)> {
    var size := NumberAfter(x.xref, input);
    if size.None? || size.value.0 == 0 then None
    else
      var entries := Skip(x.free, size.value.1);
      if entries.None? then None else Some((size.value.0 - 1, entries.value))
  }

  /** The offsets of objects 1, 2, ... from the table at the head of the input. */
  function ReadTable(x: Syntax, input: string): Option<seq<nat>> {
    var table := TableEntries(x, input);
    if table.None? then None else ReadEntries(x, table.value.1, table.value.0)
  }

  /** The number of the root object, from the trailer that follows the table. */
  function ReadRootAfter(x: Syntax, input: string): Option<nat> {
    var table := TableEntries(x, input);
    if table.None? || 20 * table.value.0 > |table.value.1| then None
    else
      var size := NumberAfter(x.trailer, table.value.1[20 * table.value.0..]);
      if size.None? then None
      else
        var root := NumberAfter(x.root, size.value.1);
        if root.None? then None else Some(root.value.0)
  }

  function ReadRoot(x: Syntax, file: string): Option<nat> {
    var start := ReadStart(x, file);
    if start.None? || start.value > |file| then None else ReadRootAfter(x, file[start.value..])
  }

  function ReadOffsets(x: Syntax, file: string): Option<seq<nat>> {
    var start := ReadStart(x, file);
    if start.None? || start.value > |file| then None else ReadTable(x, file[start.value..])
  }

  /** The number of the object at the head of the input, with its body. */
  function ReadObject(x: Syntax, input: string): Option<(nat, string)> {
    var id := Number(input);
    if id.None? then None
    else
      var body := Skip(x.obj, id.value.1);
      if body.None? then None else Some((id.value.0, body.value))
  }

  /** The body of object `id`, found through the table. */
  function ReadBody(x: Syntax, file: string, id: nat): Option<string> {
    var offsets := ReadOffsets(x, file);
    if offsets.None? || id == 0 || id > |offsets.value| || offsets.value[id - 1] > |file| then None
    else
      var found := ReadObject(x, file[offsets.value[id - 1]..]);
      if found.None? || found.value.0 != id then None else Some(found.value.1)
  }

  /** The bytes of a stream, as many as its /Length says, if the stream then ends. */
  function ReadStream(x: Syntax, body: string): Option<string> {
    var n := NumberAfter(x.length, body);
    if n.None? then None
    else
      var data := Skip(x.stream, n.value.1);
      if data.None? || n.value.0 > |data.value| then None
      else if Skip(x.endStream, data.value[n.value.0..]).None? then None
      else Some(data.value[..n.value.0])
  }

  /** References up to the end of the list, with the text after it. */
  function ReadReferences(x: Syntax, input: string): Option<(seq<nat>, string)>
    decreases |input|
  {
    if Skip(x.count, input).Some? then Some(([], Skip(x.count, input).value))
    else
      var id := Number(input);
      if id.None? then None
      else
        var after := Skip(x.reference, id.value.1);
        if after.None? then None
        else
          var rest := ReadReferences(x, if after.value != "" && after.value[0] == ' ' then after.value[1..]
                                        else after.value);
          if rest.None? then None else Some(([id.value.0] + rest.value.0, rest.value.1))
  }

  /** The page numbers listed in the page tree, as many as its /Count says. */
  function ReadKids(x: Syntax, body: string): Option<seq<nat>> {
    var kids := Skip(x.kids, body);
    if kids.None? || ReadReferences(x, kids.value).None? then None
    else
      var (ids, after) := ReadReferences(x, kids.value).value;
      var count := Number(after);
      if count.None? || count.value.0 != |ids| then None else Some(ids)
  }

  /** The page numbers, from the root object through the catalog and the page tree. */
  function ReadPageIds(x: Syntax, file: string): Option<seq<nat>> {
    var root := ReadRoot(x, file);
    if root.None? || ReadBody(x, file, root.value).None? then None
    else
      var pages := NumberAfter(x.catalog, ReadBody(x, file, root.value).value);
      if pages.None? || ReadBody(x, file, pages.value.0).None? then None
      else ReadKids(x, ReadBody(x, file, pages.value.0).value)
  }

  /** The lines of the page object with the given number, from the stream its /Contents names. */
  function ReadPageObject(x: Syntax, file: string, id: nat): Option<seq<string>> {
    var page := ReadBody(x, file, id);
    var contents := if page.None? then None else NumberAfter(x.page, page.value);
    var stream := if contents.None? then None else ReadBody(x, file, contents.value.0);
    var content := if stream.None? then None else ReadStream(x, stream.value);
    if content.None? then None else ReadContent(content.value)
  }

  /** The lines of the page at place `p` of the page tree. */
  function ReadPage(x: Syntax, file: string, p: nat): Option<seq<string>> {
    var ids := ReadPageIds(x, file);
    if ids.None? || p >= |ids.value| then None else ReadPageObject(x, file, ids.value[p])
  }

  // ---------------------------------------------------------------- reading back

  lemma {:induction false} ConcatAt(objects: seq<string>, k: nat)
    requires k < |objects|
    ensures Concat(objects) == Concat(objects[..k]) + (objects[k] + Concat(objects[k + 1..]))
  {
    if k == 0 {
      assert objects[..0] == [];
      assert "" + (objects[0] + Concat(objects[1..])) == objects[0] + Concat(objects[1..]);
    } else {
      ConcatAt(objects[1..], k - 1);
      assert objects[..k][1..] == objects[1..][..k - 1] && objects[1..][k..] == objects[k + 1..];
      var tail := objects[k] + Concat(objects[k + 1..]);
      assert objects[0] + (Concat(objects[1..][..k - 1]) + tail) == (objects[0] + Concat(objects[1..][..k - 1])) + tail;
    }
  }

  /** Objects follow one another without gaps. */
  lemma OffsetStep(x: Syntax, objects: seq<string>, k: nat)
    requires k < |objects|
    ensures Offset(x, objects, k + 1) == Offset(x, objects, k) + |objects[k]|
  {
    assert objects[..k + 1] == objects[..k] + [objects[k]];
    ConcatAppend(objects[..k], objects[k]);
  }

  /** Everything after the objects. */
  function Ending(x: Syntax, objects: seq<string>): string {
    Table(x, OffsetList(x, objects)) + Trailer(x, |objects| + 1, Offset(x, objects, |objects|))
  }

  lemma FileParts(x: Syntax, objects: seq<string>)
    ensures File(x, objects) == x.header + Concat(objects) + Ending(x, objects)
  {
  }

  lemma SliceAt(front: string, middle: string, file: string)
    requires file == front + middle
    ensures |front| <= |file| && file[|front|..] == middle
  {
  }

  /** At its offset the file continues with the object. */
  lemma ObjectAt(x: Syntax, objects: seq<string>, k: nat) returns (rest: string)
    requires k < |objects|
    ensures Offset(x, objects, k) <= |File(x, objects)|
    ensures File(x, objects)[Offset(x, objects, k)..] == objects[k] + rest
  {
    FileParts(x, objects);
    ConcatAt(objects, k);
    var front, tail := x.header + Concat(objects[..k]), Concat(objects[k + 1..]);
    rest := tail + Ending(x, objects);
    Regroup(x.header, Concat(objects[..k]), objects[k], tail, Ending(x, objects));
    SliceAt(front, objects[k] + rest, File(x, objects));
  }

  lemma Regroup(a: string, b: string, c: string, d: string, e: string)
    ensures a + (b + (c + d)) + e == (a + b) + (c + (d + e))
  {
  }

  lemma TableAt(x: Syntax, objects: seq<string>)
    ensures Offset(x, objects, |objects|) <= |File(x, objects)|
    ensures File(x, objects)[Offset(x, objects, |objects|)..] == Ending(x, objects)
  {
    FileParts(x, objects);
    assert objects[..|objects|] == objects;
    SliceAt(x.header + Concat(objects), Ending(x, objects), File(x, objects));
  }

  lemma StartRead(x: Syntax, objects: seq<string>)
    requires Readable(x)
    ensures ReadStart(x, File(x, objects)) == Some(Offset(x, objects, |objects|))
  {
    var front := x.header + Concat(objects) + Table(x, OffsetList(x, objects));
    var xref, size := Offset(x, objects, |objects|), |objects| + 1;
    TrailerParts(x, front, size, xref);
    StartFound(x, front + (x.trailer + Dec(size) + x.root + Dec(1) + x.endTrailer), xref);
  }

  lemma TrailerParts(x: Syntax, front: string, size: nat, xref: nat)
    ensures front + Trailer(x, size, xref)
            == front + (x.trailer + Dec(size) + x.root + Dec(1) + x.endTrailer) + x.start + Dec(xref) + x.endFile
  {
  }

  lemma StartFound(x: Syntax, before: string, xref: nat)
    requires Readable(x)
    ensures ReadStart(x, before + x.start + Dec(xref) + x.endFile) == Some(xref)
  {
    var head := before + x.start;
    EndStripped(x.endFile, head + Dec(xref));
    assert head[|head| - 1] == x.start[|x.start| - 1];
    NumberEnds(head, xref);
    EndStripped(x.start, before);
  }

  lemma EndStripped(token: string, front: string)
    ensures StripEnd(token, front + token) == Some(front)
  {
  }

  lemma NumberEnds(front: string, n: nat)
    requires front != "" && !IsDigit(front[|front| - 1])
    ensures NumberAtEnd(front + Dec(n)) == Some((front, n))
  {
    TrailingRunIs(front, Dec(n));
    ValueOfDec(n);
    assert (front + Dec(n))[|front|..] == Dec(n);
  }

  lemma EntryRead(x: Syntax, offset: nat, rest: string)
    requires Readable(x)
    requires offset < Pow10(10)
    ensures |Entry(x, offset)| == 20 && ReadEntry(x, Entry(x, offset) + rest) == Some(offset)
    ensures (Entry(x, offset) + rest)[20..] == rest
  {
    PaddedOffset(offset);
    var input := Entry(x, offset) + rest;
    assert input[..10] == Pad10(offset) && input[10..20] == x.inUse;
  }

  lemma {:induction false} EntriesRead(x: Syntax, offsets: seq<nat>, rest: string)
    requires Readable(x)
    requires forall k | 0 <= k < |offsets| :: offsets[k] < Pow10(10)
    ensures ReadEntries(x, Concat(EntryTexts(x, offsets)) + rest, |offsets|) == Some(offsets)
  {
    if offsets != [] {
      var tail := Concat(EntryTexts(x, offsets[1..])) + rest;
      EntriesRead(x, offsets[1..], rest);
      EntryRead(x, offsets[0], tail);
      EntryTextsHead(x, offsets);
      Regroup3(Entry(x, offsets[0]), Concat(EntryTexts(x, offsets[1..])), rest);
      EntryAndRest(x, Entry(x, offsets[0]) + tail, offsets, tail);
    }
  }

  lemma Regroup3(a: string, b: string, c: string)
    ensures (a + b) + c == a + (b + c)
  {
  }

  lemma EntryAndRest(x: Syntax, input: string, offsets: seq<nat>, tail: string)
    requires offsets != [] && ReadEntry(x, input) == Some(offsets[0]) && |input| >= 20 && input[20..] == tail
    requires ReadEntries(x, tail, |offsets| - 1) == Some(offsets[1..])
    ensures ReadEntries(x, input, |offsets|) == Some(offsets)
  {
    assert offsets == [offsets[0]] + offsets[1..];
  }

  lemma EntryTextsHead(x: Syntax, offsets: seq<nat>)
    requires offsets != []
    ensures Concat(EntryTexts(x, offsets)) == Entry(x, offsets[0]) + Concat(EntryTexts(x, offsets[1..]))
  {
    TextsHead((offset: nat) => Entry(x, offset), offsets);
  }

  lemma TextsHead(entry: nat -> string, offsets: seq<nat>)
    requires offsets != []
    ensures Concat(Texts(entry, offsets)) == entry(offsets[0]) + Concat(Texts(entry, offsets[1..]))
  {
    assert Texts(entry, offsets)[1..] == Texts(entry, offsets[1..]);
  }

  lemma NumberFollows(token: string, n: nat, rest: string)
    requires Separates(rest)
    ensures NumberAfter(token, token + (Dec(n) + rest)) == Some((n, rest))
  {
    SkipToken(token, Dec(n) + rest);
    NumberOf(n, rest);
  }

  lemma SeparatesFront(front: string, rest: string)
    requires Separates(front)
    ensures Separates(front + rest)
  {
  }

  lemma TableHead(x: Syntax, offsets: seq<nat>, rest: string)
    requires Readable(x)
    ensures TableEntries(x, Table(x, offsets) + rest) == Some((|offsets|, Concat(EntryTexts(x, offsets)) + rest))
  {
    var entries := Concat(EntryTexts(x, offsets)) + rest;
    assert Table(x, offsets) + rest == x.xref + (Dec(|offsets| + 1) + (x.free + entries));
    SeparatesFront(x.free, entries);
    NumberFollows(x.xref, |offsets| + 1, x.free + entries);
    SkipToken(x.free, entries);
  }

  lemma TableParsed(x: Syntax, offsets: seq<nat>, rest: string)
    requires Readable(x)
    requires forall k | 0 <= k < |offsets| :: offsets[k] < Pow10(10)
    ensures ReadTable(x, Table(x, offsets) + rest) == Some(offsets)
  {
    TableHead(x, offsets, rest);
    EntriesRead(x, offsets, rest);
  }

  lemma {:induction false} EntriesLength(x: Syntax, offsets: seq<nat>)
    requires Readable(x)
    requires forall k | 0 <= k < |offsets| :: offsets[k] < Pow10(10)
    ensures |Concat(EntryTexts(x, offsets))| == 20 * |offsets|
  {
    if offsets != [] {
      EntriesLength(x, offsets[1..]);
      EntryRead(x, offsets[0], "");
      EntryTextsHead(x, offsets);
    }
  }

  lemma RootParsed(x: Syntax, offsets: seq<nat>, size: nat, xref: nat)
    requires Readable(x)
    requires forall k | 0 <= k < |offsets| :: offsets[k] < Pow10(10)
    ensures ReadRootAfter(x, Table(x, offsets) + Trailer(x, size, xref)) == Some(1)
  {
    var entries, trailer := Concat(EntryTexts(x, offsets)), Trailer(x, size, xref);
    TableHead(x, offsets, trailer);
    EntriesLength(x, offsets);
    assert (entries + trailer)[20 * |offsets|..] == trailer;
    var rest := TrailerRead(x, size, xref);
  }

  lemma TrailerRead(x: Syntax, size: nat, xref: nat) returns (rest: string)
    requires Readable(x)
    ensures Separates(x.root + (Dec(1) + rest)) && Separates(rest)
    ensures NumberAfter(x.trailer, Trailer(x, size, xref)) == Some((size, x.root + (Dec(1) + rest)))
    ensures NumberAfter(x.root, x.root + (Dec(1) + rest)) == Some((1, rest))
  {
    rest := x.endTrailer + (x.start + Dec(xref) + x.endFile);
    SeparatesFront(x.endTrailer, x.start + Dec(xref) + x.endFile);
    SeparatesFront(x.root, Dec(1) + rest);
    assert Trailer(x, size, xref) == x.trailer + (Dec(size) + (x.root + (Dec(1) + rest)));
    NumberFollows(x.trailer, size, x.root + (Dec(1) + rest));
    NumberFollows(x.root, 1, rest);
  }

  /** The table of the file, found through startxref, is the list of the objects' offsets. */
  lemma OffsetsRead(x: Syntax, objects: seq<string>)
    requires Readable(x)
    requires |File(x, objects)| < Pow10(10)
    ensures ReadOffsets(x, File(x, objects)) == Some(OffsetList(x, objects))
  {
    StartRead(x, objects);
    TableAt(x, objects);
    OffsetsFit(x, objects);
    TableParsed(x, OffsetList(x, objects), Trailer(x, |objects| + 1, Offset(x, objects, |objects|)));
  }

  lemma OffsetsFit(x: Syntax, objects: seq<string>)
    requires |File(x, objects)| < Pow10(10)
    ensures forall k | 0 <= k < |objects| :: OffsetList(x, objects)[k] < Pow10(10)
  {
    forall k | 0 <= k < |objects|
      ensures OffsetList(x, objects)[k] < Pow10(10)
    {
      var rest := ObjectAt(x, objects, k);
    }
  }

  /** The trailer behind the table names object 1 as the root. */
  lemma RootRead(x: Syntax, objects: seq<string>)
    requires Readable(x)
    requires |File(x, objects)| < Pow10(10)
    ensures ReadRoot(x, File(x, objects)) == Some(1)
  {
    StartRead(x, objects);
    TableAt(x, objects);
    OffsetsFit(x, objects);
    RootParsed(x, OffsetList(x, objects), |objects| + 1, Offset(x, objects, |objects|));
  }

  /**
   Below 10^10 bytes the cross-reference table leads to every object, in order: entry `k` is where
   object `k` begins, and the object ends where the next one, or the table, begins.
   */
  lemma TableFindsObjects(x: Syntax, objects: seq<string>, k: nat) returns (offsets: seq<nat>, end: nat)
    requires Readable(x)
    requires |File(x, objects)| < Pow10(10) && k < |objects|
    ensures ReadOffsets(x, File(x, objects)) == Some(offsets) && |offsets| == |objects|
    ensures offsets[k] + |objects[k]| == end <= |File(x, objects)|
    ensures File(x, objects)[offsets[k]..end] == objects[k]
    ensures if k + 1 < |objects| then end == offsets[k + 1] else ReadStart(x, File(x, objects)) == Some(end)
  {
    offsets, end := OffsetList(x, objects), Offset(x, objects, k + 1);
    StartRead(x, objects);
    OffsetsRead(x, objects);
    ObjectSlice(x, objects, k);
  }

  lemma ObjectSlice(x: Syntax, objects: seq<string>, k: nat)
    requires k < |objects|
    ensures var at, end := Offset(x, objects, k), Offset(x, objects, k + 1);
            at + |objects[k]| == end <= |File(x, objects)| && File(x, objects)[at..end] == objects[k]
  {
    OffsetStep(x, objects, k);
    var rest := ObjectAt(x, objects, k);
    PrefixSlice(File(x, objects), Offset(x, objects, k), objects[k], rest);
  }

  lemma PrefixSlice(file: string, at: nat, piece: string, rest: string)
    requires at <= |file| && file[at..] == piece + rest
    ensures at + |piece| <= |file| && file[at..at + |piece|] == piece
  {
    assert file[at..at + |piece|] == file[at..][..|piece|];
  }

  lemma {:induction false} BlocksAt(pair: (seq<string>, nat) -> seq<string>, pages: seq<seq<string>>, id: nat, p: nat)
    requires p < |pages| && forall page, i :: |pair(page, i)| == 2
    ensures |Blocks(pair, pages, id)| == 2 * |pages|
    ensures Blocks(pair, pages, id)[2 * p..2 * p + 2] == pair(pages[p], id + 2 * p)
  {
    var rest := Blocks(pair, pages[1..], id + 2);
    if p > 0 {
      BlocksAt(pair, pages[1..], id + 2, p - 1);
      assert Blocks(pair, pages, id)[2 * p..2 * p + 2] == rest[2 * (p - 1)..2 * (p - 1) + 2];
    } else if |pages| > 1 {
      BlocksAt(pair, pages[1..], id + 2, 0);
    }
  }

  /** Objects 4 + 2p and 5 + 2p belong to page `p`. */
  lemma PageObjectsOf(x: Syntax, pages: seq<seq<string>>, p: nat)
    requires p < |pages|
    ensures |Objects(x, pages)| == 3 + 2 * |pages|
    ensures Objects(x, pages)[3 + 2 * p] == Object(x, 4 + 2 * p, StreamBody(x, ContentOf(pages[p])))
    ensures Objects(x, pages)[4 + 2 * p] == Object(x, 5 + 2 * p, PageBody(x, 4 + 2 * p))
  {
    BlocksAt(PairOf(x), pages, 4, p);
    var pair := PageObjects(x, pages, 4)[2 * p..2 * p + 2];
    assert Objects(x, pages)[3 + 2 * p] == PageObjects(x, pages, 4)[2 * p] == pair[0];
    assert Objects(x, pages)[4 + 2 * p] == PageObjects(x, pages, 4)[2 * p + 1] == pair[1];
  }

  lemma ObjectRead(x: Syntax, id: nat, body: string, rest: string)
    requires Readable(x)
    ensures ReadObject(x, Object(x, id, body) + rest) == Some((id, body + rest))
  {
    assert Object(x, id, body) + rest == Dec(id) + (x.obj + (body + rest));
    assert (x.obj + (body + rest))[0] == x.obj[0];
    NumberOf(id, x.obj + (body + rest));
    SkipToken(x.obj, body + rest);
  }

  /** /Length is the number of bytes of the stream. */
  lemma StreamRead(x: Syntax, content: string, rest: string)
    requires Readable(x)
    ensures ReadStream(x, StreamBody(x, content) + rest) == Some(content)
  {
    var tail := x.endStream + rest;
    var data := content + tail;
    assert StreamBody(x, content) + rest == x.length + (Dec(|content|) + (x.stream + data));
    SeparatesFront(x.stream, data);
    NumberFollows(x.length, |content|, x.stream + data);
    SkipToken(x.stream, data);
    assert data[..|content|] == content && data[|content|..] == tail;
    SkipToken(x.endStream, rest);
  }

  lemma NotTheEnd(x: Syntax, id: nat, tail: string)
    requires Readable(x)
    ensures Skip(x.count, Dec(id) + tail).None?
  {
    ValueOfDec(id);
    assert (Dec(id) + tail)[0] == Dec(id)[0];
  }

  /** One reference, whether a blank follows it or not. */
  lemma ReferenceRead(x: Syntax, id: nat, tail: string, next: string)
    requires Readable(x)
    requires tail == " " + next || (tail == next && next != "" && next[0] != ' ')
    ensures ReadReferences(x, Dec(id) + (x.reference + tail))
            == if ReadReferences(x, next).None? then None
               else Some(([id] + ReadReferences(x, next).value.0, ReadReferences(x, next).value.1))
  {
    NotTheEnd(x, id, x.reference + tail);
    SeparatesFront(x.reference, tail);
    NumberOf(id, x.reference + tail);
    SkipToken(x.reference, tail);
    assert tail[0] == ' ' ==> tail[1..] == next;
  }

  lemma JoinedReference(x: Syntax, ids: seq<nat>, end: string)
    requires |ids| > 1
    ensures Join(" ", References(x, ids)) + end
            == Dec(ids[0]) + (x.reference + (" " + (Join(" ", References(x, ids[1..])) + end)))
  {
    var refs := References(x, ids);
    assert refs[1..] == References(x, ids[1..]);
    assert Join(" ", refs) == Dec(ids[0]) + x.reference + " " + Join(" ", refs[1..]);
  }

  lemma LastReference(x: Syntax, ids: seq<nat>, end: string)
    requires |ids| == 1
    ensures Join(" ", References(x, ids)) + end == Dec(ids[0]) + (x.reference + end)
  {
  }

  lemma {:induction false} ReferencesRead(x: Syntax, ids: seq<nat>, end: string, rest: string)
    requires Readable(x) && end == x.count + rest
    ensures ReadReferences(x, Join(" ", References(x, ids)) + end) == Some((ids, rest))
  {
    SkipToken(x.count, rest);
    if ids == [] {
      assert Join(" ", References(x, ids)) + end == end;
    } else {
      assert ids == [ids[0]] + ids[1..];
      ReferencesRead(x, ids[1..], end, rest);
      if |ids| == 1 {
        LastReference(x, ids, end);
        ReferenceRead(x, ids[0], end, end);
      } else {
        JoinedReference(x, ids, end);
        var next := Join(" ", References(x, ids[1..])) + end;
        ReferenceRead(x, ids[0], " " + next, next);
      }
    }
  }

  /** The page tree lists every page, and counts them. */
  lemma KidsRead(x: Syntax, ids: seq<nat>, rest: string)
    requires Readable(x)
    ensures ReadKids(x, PagesBody(x, ids) + rest) == Some(ids)
  {
    var refs, after := Join(" ", References(x, ids)), Dec(|ids|) + (x.endPages + rest);
    assert PagesBody(x, ids) + rest == x.kids + (refs + (x.count + after));
    SkipToken(x.kids, refs + (x.count + after));
    ReferencesRead(x, ids, x.count + after, after);
    SeparatesFront(x.endPages, rest);
    NumberOf(|ids|, x.endPages + rest);
  }

  lemma NumberedBody(x: Syntax, pages: seq<seq<string>>, k: nat) returns (body: string)
    requires k < |Objects(x, pages)|
    ensures Objects(x, pages)[k] == Object(x, k + 1, body)
    ensures |Objects(x, pages)| == 3 + 2 * |pages|
  {
    if pages != [] {
      PageObjectsOf(x, pages, 0);
    }
    if k == 0 {
      body := CatalogBody(x);
    } else if k == 1 {
      body := PagesBody(x, PageIds(|pages|));
    } else if k == 2 {
      body := x.font;
    } else {
      var p := (k - 3) / 2;
      PageObjectsOf(x, pages, p);
      body := if k == 3 + 2 * p then StreamBody(x, ContentOf(pages[p])) else PageBody(x, 4 + 2 * p);
    }
  }

  /** Objects 1, 2, ..., n stand in this order under the table's entries. */
  lemma ObjectsNumbered(x: Syntax, pages: seq<seq<string>>, k: nat)
    requires Readable(x)
    requires |File(x, Objects(x, pages))| < Pow10(10) && k < |Objects(x, pages)|
    ensures var file := File(x, Objects(x, pages));
            && ReadOffsets(x, file).Some? && |ReadOffsets(x, file).value| == |Objects(x, pages)| == 3 + 2 * |pages|
            && ReadOffsets(x, file).value[k] <= |file|
            && ReadObject(x, file[ReadOffsets(x, file).value[k]..]).Some?
            && ReadObject(x, file[ReadOffsets(x, file).value[k]..]).value.0 == k + 1
  {
    var body := NumberedBody(x, pages, k);
    var rest := NumberFound(x, Objects(x, pages), k, body);
  }

  lemma NumberFound(x: Syntax, objects: seq<string>, k: nat, body: string) returns (rest: string)
    requires Readable(x)
    requires |File(x, objects)| < Pow10(10) && k < |objects| && objects[k] == Object(x, k + 1, body)
    ensures ReadOffsets(x, File(x, objects)) == Some(OffsetList(x, objects))
    ensures OffsetList(x, objects)[k] <= |File(x, objects)|
    ensures ReadObject(x, File(x, objects)[OffsetList(x, objects)[k]..]) == Some((k + 1, body + rest))
  {
    OffsetsRead(x, objects);
    rest := ObjectAt(x, objects, k);
    ObjectRead(x, k + 1, body, rest);
  }

  /** The table leads to the body of any object that carries its own number. */
  lemma BodyRead(x: Syntax, objects: seq<string>, id: nat, body: string) returns (rest: string)
    requires Readable(x) && |File(x, objects)| < Pow10(10)
    requires 1 <= id <= |objects| && objects[id - 1] == Object(x, id, body)
    ensures ReadBody(x, File(x, objects), id) == Some(body + rest)
  {
    OffsetsRead(x, objects);
    rest := ObjectAt(x, objects, id - 1);
    ObjectRead(x, id, body, rest);
    assert OffsetList(x, objects)[id - 1] == Offset(x, objects, id - 1);
    BodyFound(x, File(x, objects), OffsetList(x, objects), id, objects[id - 1] + rest, body + rest);
  }

  lemma BodyFound(x: Syntax, file: string, offsets: seq<nat>, id: nat, tail: string, body: string)
    requires ReadOffsets(x, file) == Some(offsets) && 1 <= id <= |offsets| && offsets[id - 1] <= |file|
    requires file[offsets[id - 1]..] == tail && ReadObject(x, tail) == Some((id, body))
    ensures ReadBody(x, file, id) == Some(body)
  {
  }

  lemma CatalogRead(x: Syntax, rest: string)
    requires Readable(x)
    ensures NumberAfter(x.catalog, CatalogBody(x) + rest) == Some((2, x.endCatalog + rest))
  {
    assert CatalogBody(x) + rest == x.catalog + (Dec(2) + (x.endCatalog + rest));
    SeparatesFront(x.endCatalog, rest);
    NumberFollows(x.catalog, 2, x.endCatalog + rest);
  }

  /** From the root through the catalog, the page tree names every page object, in order. */
  lemma PageTreeRead(x: Syntax, pages: seq<seq<string>>)
    requires Readable(x) && |File(x, Objects(x, pages))| < Pow10(10)
    ensures ReadPageIds(x, File(x, Objects(x, pages))) == Some(PageIds(|pages|))
  {
    TreeRead(x, Objects(x, pages), PageIds(|pages|));
  }

  lemma TreeRead(x: Syntax, objects: seq<string>, ids: seq<nat>)
    requires Readable(x) && |File(x, objects)| < Pow10(10) && |objects| >= 2
    requires objects[0] == Object(x, 1, CatalogBody(x)) && objects[1] == Object(x, 2, PagesBody(x, ids))
    ensures ReadPageIds(x, File(x, objects)) == Some(ids)
  {
    RootRead(x, objects);
    var rest := BodyRead(x, objects, 1, CatalogBody(x));
    CatalogRead(x, rest);
    var more := BodyRead(x, objects, 2, PagesBody(x, ids));
    KidsRead(x, ids, more);
  }

  lemma ContentsRead(x: Syntax, id: nat, rest: string)
    requires Readable(x)
    ensures NumberAfter(x.page, PageBody(x, id) + rest) == Some((id, x.resources + rest))
  {
    assert PageBody(x, id) + rest == x.page + (Dec(id) + (x.resources + rest));
    SeparatesFront(x.resources, rest);
    NumberFollows(x.page, id, x.resources + rest);
  }

  lemma PageObjectRead(x: Syntax, objects: seq<string>, id: nat, contents: nat, content: string)
    requires Readable(x) && |File(x, objects)| < Pow10(10)
    requires 1 <= id <= |objects| && objects[id - 1] == Object(x, id, PageBody(x, contents))
    requires 1 <= contents <= |objects| && objects[contents - 1] == Object(x, contents, StreamBody(x, content))
    ensures ReadPageObject(x, File(x, objects), id) == ReadContent(content)
  {
    var rest := BodyRead(x, objects, id, PageBody(x, contents));
    ContentsRead(x, contents, rest);
    rest := BodyRead(x, objects, contents, StreamBody(x, content));
    StreamRead(x, content, rest);
  }

  lemma PageLines(x: Syntax, pages: seq<seq<string>>, objects: seq<string>, p: nat)
    requires Readable(x) && objects == Objects(x, pages)
    requires |File(x, objects)| < Pow10(10) && p < |pages|
    ensures ReadPageObject(x, File(x, objects), 5 + 2 * p) == Some(NormalAll(EncodeAll(pages[p])))
  {
    PageObjectsOf(x, pages, p);
    PageObjectRead(x, objects, 5 + 2 * p, 4 + 2 * p, ContentOf(pages[p]));
    ContentRoundTrip(pages[p]);
  }

  /**
   For every page list whose file stays under 10^10 bytes, following startxref, the table, the trailer's
   root, the catalog, the page tree, /Contents and the stream length recovers the lines of every page, in
   Latin-1 and up to end-of-line markers; the page tree has no further page.
   */
  lemma PdfRoundTrip(x: Syntax, pages: seq<seq<string>>, p: nat)
    requires Readable(x)
    requires |File(x, Objects(x, pages))| < Pow10(10)
    ensures ReadPage(x, File(x, Objects(x, pages)), p)
            == if p < |pages| then Some(NormalAll(EncodeAll(pages[p]))) else None
  {
    PageTreeRead(x, pages);
    if p < |pages| {
      assert PageIds(|pages|)[p] == 5 + 2 * p;
      PageLines(x, pages, Objects(x, pages), p);
    }
  }

  /** The lines themselves come back exactly if they are Latin-1 without carriage returns. */
  lemma PdfPreservesLines(x: Syntax, pages: seq<seq<string>>, p: nat)
    requires Readable(x)
    requires |File(x, Objects(x, pages))| < Pow10(10) && p < |pages|
    ensures ReadPage(x, File(x, Objects(x, pages)), p) == Some(pages[p]) <==>
              forall i | 0 <= i < |pages[p]| :: IsLatin(pages[p][i]) && '\r' !in pages[p][i]
  {
    PdfRoundTrip(x, pages, p);
    LinesPreserved(pages[p]);
  }

  lemma LinesPreserved(lines: seq<string>)
    ensures NormalAll(EncodeAll(lines)) == lines <==>
              forall i | 0 <= i < |lines| :: IsLatin(lines[i]) && '\r' !in lines[i]
  {
    var read := NormalAll(EncodeAll(lines));
    forall i | 0 <= i < |lines|
      ensures read[i] == lines[i] <==> IsLatin(lines[i]) && '\r' !in lines[i]
    {
      LinePreserved(lines[i]);
    }
    if read != lines {
      var i :| 0 <= i < |lines| && read[i] != lines[i];
    }
  }

  /** The fixture's own syntax: whatever pages are written, their plain lines are read back. */
  lemma FixtureRoundTrip(pages: seq<seq<string>>, p: nat)
    requires |File(PDF, Objects(PDF, pages))| < Pow10(10) && p < |pages|
    ensures ReadPage(PDF, File(PDF, Objects(PDF, pages)), p) == Some(NormalAll(EncodeAll(pages[p])))
  {
    PdfIsReadable();
    PdfRoundTrip(PDF, pages, p);
  }
}

/** `ExtractContent` (pkg/utils/extract_content.go): turning an uploaded file into text,
    chosen by the file name's extension. The PDF reader, the HTML parser and the JSON
    decoder/re-encoder are collaborators given as functions. */
module ExtractContent {
  import opened Wrappers
  import opened Text

  // ------------------------------------------------------------ the upload

  /** An uploaded file: its bytes, or the error that reading it reports. */
  datatype Upload = Upload(content: seq<byte>, fault: Option<string>)

  /** `io.ReadAll(file)`. */
  function ReadAll(file: Upload): Result<seq<byte>> {
    if file.fault.Some? then Err(file.fault.value) else Ok(file.content)
  }

  /** `strings.Builder`: text that grows by appending. */
  class Builder {
    var text: string

    constructor ()
      ensures text == []
    {
      text := [];
    }

    method WriteString(s: string)
      modifies this
      ensures text == old(text) + s
    {
      text := text + s;
    }
  }

  function Min(a: int, b: int): int {
    if a <= b then a else b
  }

  // ------------------------------------------------------------ dispatch

  /** `filepath.Ext` scanning `path[..i]` from its end: the text from the last '.' on, or
      nothing when a '/' or the start comes first. */
  function ExtBefore(path: string, i: nat): (ext: string)
    requires i <= |path|
    ensures ext == [] || (ext[0] == '.' && |ext| <= i && ext == path[i - |ext|..i])
    ensures forall k :: 0 < k < |ext| ==> ext[k] != '.' && ext[k] != '/'
  {
    if i == 0 || path[i - 1] == '/' then []
    else if path[i - 1] == '.' then path[i - 1..i]
    else
      var e := ExtBefore(path, i - 1);
      if e == [] then [] else e + [path[i - 1]]
  }

  /** `filepath.Ext`. */
  function Ext(path: string): string {
    ExtBefore(path, |path|)
  }

  /** The four extractors. */
  datatype Extractor = TextFile | Pdf | Html | Json

  /** Lines 16-29: the lower-cased extension picks the extractor; anything unknown, or no
      extension, is read as plain text. */
  function Route(filename: string): Extractor {
    ByExtension(Lower(Ext(filename)))
  }

  /** The switch of lines 18-29 on a lower-cased extension. */
  function ByExtension(ext: string): Extractor {
    if ext == ".pdf" then Pdf
    else if ext == ".html" || ext == ".htm" then Html
    else if ext == ".json" then Json
    else TextFile
  }

  /** Lower-casing a path lower-cases its extension. */
  lemma {:induction false} ExtBeforeLower(path: string, i: nat)
    requires i <= |path|
    ensures ExtBefore(Lower(path), i) == Lower(ExtBefore(path, i))
  {
    var lp := Lower(path);
    if i == 0 || path[i - 1] == '/' {
      assert Lower([]) == [];
    } else if path[i - 1] == '.' {
      assert Lower(path[i - 1..i]) == [lp[i - 1]];
    } else {
      ExtBeforeLower(path, i - 1);
      var e := ExtBefore(path, i - 1);
      assert Lower(e + [path[i - 1]]) == Lower(e) + [lp[i - 1]];
    }
  }

  /** Lower-casing is idempotent. */
  lemma LowerLower(s: string)
    ensures Lower(Lower(s)) == Lower(s)
  {
  }

  /** The routing ignores the case of the file name: "NOTES.PDF" goes where "notes.pdf" goes. */
  lemma RouteIgnoresCase(filename: string)
    ensures Route(Lower(filename)) == Route(filename)
  {
    ExtBeforeLower(filename, |filename|);
    LowerLower(Ext(filename));
  }

  /** A name ending in '.' followed by characters other than '.' and '/' has that ending as
      its extension, whatever comes before it. */
  lemma {:induction false} ExtOfSuffix(base: string, e: string, n: nat)
    requires 1 <= n <= |e| && e[0] == '.'
    requires forall k :: 0 < k < |e| ==> e[k] != '.' && e[k] != '/'
    ensures ExtBefore(base + e, |base| + n) == e[..n]
  {
    var p := base + e;
    assert p[|base| + n - 1] == e[n - 1];
    if n == 1 {
      assert p[|base|..|base| + 1] == e[..1];
    } else {
      ExtOfSuffix(base, e, n - 1);
      assert e[..n - 1] + [e[n - 1]] == e[..n];
    }
  }

  /** `filepath.Ext` of a name ending in such an extension is that extension. */
  lemma ExtOfExtension(base: string, e: string)
    requires |e| >= 1 && e[0] == '.'
    requires forall k :: 0 < k < |e| ==> e[k] != '.' && e[k] != '/'
    ensures Ext(base + e) == e
  {
    ExtOfSuffix(base, e, |e|);
    assert e[..|e|] == e;
  }

  /** Only the extension of a name decides where it goes. */
  lemma RouteBySuffix(base: string, e: string)
    requires |e| >= 1 && e[0] == '.'
    requires forall k :: 0 < k < |e| ==> e[k] != '.' && e[k] != '/'
    ensures Route(base + e) == ByExtension(Lower(e))
  {
    ExtOfExtension(base, e);
  }

  /** ".PDF" and ".pdf" names go to the PDF reader. */
  lemma RoutePdf(base: string)
    ensures Route(base + ".PDF") == Pdf && Route(base + ".pdf") == Pdf
  {
    RouteBySuffix(base, ".PDF");
    RouteBySuffix(base, ".pdf");
    assert Lower(".PDF") == ".pdf";
    assert Lower(".pdf") == ".pdf";
  }

  /** ".Htm" names go to the HTML walk. */
  lemma RouteHtm(base: string)
    ensures Route(base + ".Htm") == Html
  {
    RouteBySuffix(base, ".Htm");
    assert Lower(".Htm") == ".htm";
  }

  /** An extension none of the cases names, such as ".docx", is read as plain text. */
  lemma RouteUnknown(base: string)
    ensures Route(base + ".docx") == TextFile
  {
    RouteBySuffix(base, ".docx");
    assert Lower(".docx") == ".docx";
    assert ".docx" != ".json" && ".docx" != ".html" by {
      assert ".json"[1] == 'j' && ".html"[1] == 'h';
    }
  }

  // ------------------------------------------------------------ PDF

  /** What the PDF reader makes of the bytes: one entry per page, with the page's plain text
      or the error extracting it. */
  datatype PdfDoc = PdfDoc(pages: seq<Result<string>>)

  const MaxPages := 10

  /** The text of the first `n` pages: each page that yields text contributes it and a
      newline, in page order; a page that fails contributes nothing. */
  function PdfText(pages: seq<Result<string>>, n: nat): string
    requires n <= |pages|
  {
    if n == 0 then []
    else PdfText(pages, n - 1) + (if pages[n - 1].Ok? then pages[n - 1].value + "\n" else [])
  }

  /** Page texts concatenate: the text of `a + b` is the text of `a` followed by that of `b`. */
  lemma {:induction false} PdfTextAppend(a: seq<Result<string>>, b: seq<Result<string>>, n: nat)
    requires n <= |b|
    ensures PdfText(a + b, |a| + n) == PdfText(a, |a|) + PdfText(b, n)
  {
    if n == 0 {
      PdfTextPrefix(a + b, a, |a|);
    } else {
      PdfTextAppend(a, b, n - 1);
      assert (a + b)[|a| + n - 1] == b[n - 1];
    }
  }

  /** The text of the first `n` pages depends only on those pages. */
  lemma {:induction false} PdfTextPrefix(pages: seq<Result<string>>, other: seq<Result<string>>, n: nat)
    requires n <= |pages| && n <= |other| && pages[..n] == other[..n]
    ensures PdfText(pages, n) == PdfText(other, n)
  {
    if n > 0 {
      assert pages[..n - 1] == pages[..n][..n - 1] && other[..n - 1] == other[..n][..n - 1];
      assert pages[n - 1] == pages[..n][n - 1] && other[n - 1] == other[..n][n - 1];
      PdfTextPrefix(pages, other, n - 1);
    }
  }

  /** A page that fails is skipped: the text is that of the other pages. */
  lemma FailedPageSkipped(a: seq<Result<string>>, e: string, b: seq<Result<string>>)
    ensures PdfText(a + [Err(e)] + b, |a + [Err(e)] + b|) == PdfText(a + b, |a + b|)
  {
    var a' := a + [Err(e)];
    PdfTextAppend(a', b, |b|);
    PdfTextAppend(a, [Err(e)], 1);
    assert PdfText([Err(e)], 1) == [] by { assert PdfText([Err(e)], 0) == []; }
    assert PdfText(a', |a'|) == PdfText(a, |a|);
    PdfTextAppend(a, b, |b|);
  }

  /** A page that yields text contributes the text and a newline. */
  lemma PageContributes(a: seq<Result<string>>, t: string, b: seq<Result<string>>)
    ensures PdfText(a + [Ok(t)] + b, |a + [Ok(t)] + b|) == PdfText(a, |a|) + t + "\n" + PdfText(b, |b|)
  {
    var a' := a + [Ok(t)];
    PdfTextAppend(a', b, |b|);
    PdfTextAppend(a, [Ok(t)], 1);
    assert PdfText([Ok(t)], 1) == t + "\n" by { assert PdfText([Ok(t)], 0) == []; }
    assert PdfText(a', |a'|) == PdfText(a, |a|) + t + "\n";
  }

  /** The outcome of extracting a PDF: a read or reader error, else the text of at most the
      first ten pages. */
  function PdfResult(file: Upload, openPdf: seq<byte> -> Result<PdfDoc>): Result<string> {
    match ReadAll(file)
    case Err(e) => Err(e)
    case Ok(data) =>
      match openPdf(data)
      case Err(e) => Err(e)
      case Ok(doc) => Ok(PdfText(doc.pages, Min(|doc.pages|, MaxPages)))
  }

  /** Pages after the tenth are never read. */
  lemma PagesAfterTenthIgnored(first: seq<Result<string>>, later: seq<Result<string>>)
    requires |first| == MaxPages
    ensures PdfText(first + later, Min(|first + later|, MaxPages)) == PdfText(first, Min(|first|, MaxPages))
  {
    assert (first + later)[..MaxPages] == first[..MaxPages];
    PdfTextPrefix(first + later, first, MaxPages);
  }

  /** Lines 32-58. */
  method ExtractPdf(file: Upload, openPdf: seq<byte> -> Result<PdfDoc>) returns (r: Result<string>)
    ensures r == PdfResult(file, openPdf)
  {
    var data := ReadAll(file);
    if data.Err? {
      return Err(data.error);
    }
    var doc := openPdf(data.value);
    if doc.Err? {
      return Err(doc.error);
    }
    var pages := doc.value.pages;
    var content := new Builder();
    var last := Min(|pages|, MaxPages);
    var i := 1;
    while i <= last
      invariant 1 <= i <= last + 1
      invariant content.text == PdfText(pages, i - 1)
    {
      var page := pages[i - 1];
      if page.Ok? {
        content.WriteString(page.value);
        content.WriteString("\n");
      }
      i := i + 1;
    }
    return Ok(content.text);
  }

  // ------------------------------------------------------------ HTML

  /** `html.NodeType`. */
  datatype NodeType = ErrorNode | TextNode | DocumentNode | ElementNode | CommentNode | DoctypeNode | RawNode

  /** An `html.Node` with its children in sibling order. */
  datatype HtmlNode = HtmlNode(kind: NodeType, data: string, children: seq<HtmlNode>)

  /** What a node writes itself: a text node's trimmed text and one space, if non-empty. */
  function OwnText(node: HtmlNode): string {
    if node.kind == TextNode && TrimSpace(node.data) != [] then TrimSpace(node.data) + " " else []
  }

  /** The text of a subtree, in pre-order: the node's own text, then its children's. */
  function HtmlText(node: HtmlNode): string
    decreases node, |node.children| + 1
  {
    OwnText(node) + ChildrenText(node, |node.children|)
  }

  /** The text of the first `k` children of `node`. */
  function ChildrenText(node: HtmlNode, k: nat): string
    requires k <= |node.children|
    decreases node, k
  {
    if k == 0 then [] else ChildrenText(node, k - 1) + HtmlText(node.children[k - 1])
  }

  /** The output is a run of words, each followed by exactly one space: it is empty or starts
      with a non-space and ends with a space. */
  lemma {:induction false} HtmlTextShape(node: HtmlNode)
    ensures var t := HtmlText(node); t == [] || (!IsSpace(t[0]) && t[|t| - 1] == ' ')
    decreases node, |node.children| + 1
  {
    ChildrenTextShape(node, |node.children|);
  }

  lemma {:induction false} ChildrenTextShape(node: HtmlNode, k: nat)
    requires k <= |node.children|
    ensures var t := ChildrenText(node, k); t == [] || (!IsSpace(t[0]) && t[|t| - 1] == ' ')
    decreases node, k
  {
    if k > 0 {
      ChildrenTextShape(node, k - 1);
      HtmlTextShape(node.children[k - 1]);
    }
  }

  /** A tree without text nodes writes nothing. */
  lemma {:induction false} NoTextNoOutput(node: HtmlNode)
    requires forall n :: Within(n, node) ==> n.kind != TextNode
    ensures HtmlText(node) == []
    decreases node, |node.children| + 1
  {
    assert Within(node, node);
    NoTextNoOutputChildren(node, |node.children|);
  }

  lemma {:induction false} NoTextNoOutputChildren(node: HtmlNode, k: nat)
    requires k <= |node.children|
    requires forall n :: Within(n, node) ==> n.kind != TextNode
    ensures ChildrenText(node, k) == []
    decreases node, k
  {
    if k > 0 {
      NoTextNoOutputChildren(node, k - 1);
      var c := node.children[k - 1];
      forall n | Within(n, c) ensures n.kind != TextNode {
        WithinChild(n, node, k - 1);
      }
      NoTextNoOutput(c);
    }
  }

  /** `n` is `root` or a node below it. */
  predicate Within(n: HtmlNode, root: HtmlNode)
    decreases root
  {
    n == root || exists i :: 0 <= i < |root.children| && Within(n, root.children[i])
  }

  lemma WithinChild(n: HtmlNode, root: HtmlNode, i: nat)
    requires i < |root.children| && Within(n, root.children[i])
    ensures Within(n, root)
  {
  }

  /** Lines 77-89: the pre-order walk appending to a shared builder. */
  method Walk(node: HtmlNode, content: Builder)
    modifies content
    ensures content.text == old(content.text) + HtmlText(node)
    decreases node
  {
    if node.kind == TextNode {
      var text := TrimSpace(node.data);
      if text != [] {
        content.WriteString(text);
        content.WriteString(" ");
      }
    }
    ghost var start := content.text;
    assert start == old(content.text) + OwnText(node);
    var i := 0;
    while i < |node.children|
      invariant 0 <= i <= |node.children|
      invariant content.text == start + ChildrenText(node, i)
    {
      ghost var done := ChildrenText(node, i);
      ghost var next := HtmlText(node.children[i]);
      Walk(node.children[i], content);
      assert ChildrenText(node, i + 1) == done + next;
      assert content.text == (start + done) + next == start + (done + next);
      i := i + 1;
    }
  }

  function HtmlResult(file: Upload, parse: seq<byte> -> Result<HtmlNode>): Result<string> {
    match ReadAll(file)
    case Err(e) => Err(e)
    case Ok(data) =>
      match parse(data)
      case Err(e) => Err(e)
      case Ok(doc) => Ok(HtmlText(doc))
  }

  /** Lines 60-75. `parse` is `html.Parse`. */
  method ExtractHtml(file: Upload, parse: seq<byte> -> Result<HtmlNode>) returns (r: Result<string>)
    ensures r == HtmlResult(file, parse)
  {
    var data := ReadAll(file);
    if data.Err? {
      return Err(data.error);
    }
    var doc := parse(data.value);
    if doc.Err? {
      return Err(doc.error);
    }
    var content := new Builder();
    Walk(doc.value, content);
    assert content.text == HtmlText(doc.value);
    return Ok(content.text);
  }

  // ------------------------------------------------------------ JSON

  /** `json.Unmarshal` followed by `json.MarshalIndent(_, "", "  ")`: the re-indented bytes,
      or `None` when either step fails. */
  type Reindent = seq<byte> -> Option<seq<byte>>

  function JsonResult(file: Upload, reindent: Reindent): Result<string> {
    match ReadAll(file)
    case Err(e) => Err(e)
    case Ok(data) =>
      match reindent(data)
      case None => Ok(FromBytes(data))
      case Some(formatted) => Ok(FromBytes(formatted))
  }

  /** Lines 91-108. */
  method ExtractJson(file: Upload, reindent: Reindent) returns (r: Result<string>)
    ensures r == JsonResult(file, reindent)
  {
    var data := ReadAll(file);
    if data.Err? {
      return Err(data.error);
    }
    var formatted := reindent(data.value);
    if formatted.None? {
      return Ok(FromBytes(data.value));
    }
    return Ok(FromBytes(formatted.value));
  }

  /** Text that is not JSON comes back unchanged, with no error. */
  lemma InvalidJsonVerbatim(file: Upload, reindent: Reindent)
    requires file.fault.None? && reindent(file.content).None?
    ensures JsonResult(file, reindent) == Ok(FromBytes(file.content))
  {
  }

  // ------------------------------------------------------------ plain text

  const MaxChar := 50000

  /** How one `Read` ends: cleanly, at end of file, or with an error. */
  datatype ReadEnd = Clean | Eof | ReadFailed(error: string)

  /** `file.Read(buf)`: copies as many bytes as fit, at end of file reports `io.EOF`. */
  method Read(file: Upload, buf: array<byte>) returns (n: nat, end: ReadEnd)
    modifies buf
    ensures file.fault.Some? ==> n == 0 && end == ReadFailed(file.fault.value)
    ensures file.fault.None? ==>
      && n == Min(|file.content|, buf.Length)
      && buf[..n] == file.content[..n]
      && end == (if file.content == [] && buf.Length > 0 then Eof else Clean)
  {
    if file.fault.Some? {
      return 0, ReadFailed(file.fault.value);
    }
    n := Min(|file.content|, buf.Length);
    var k := 0;
    while k < n
      invariant 0 <= k <= n
      invariant buf[..k] == file.content[..k]
    {
      buf[k] := file.content[k];
      k := k + 1;
    }
    end := if file.content == [] && buf.Length > 0 then Eof else Clean;
  }

  function TextResult(file: Upload): Result<string> {
    if file.fault.Some? then Err(file.fault.value)
    else Ok(FromBytes(file.content[..Min(|file.content|, MaxChar)]))
  }

  /** The plain text is the start of the file, at most 50 000 bytes of it. */
  lemma TextIsCappedPrefix(file: Upload)
    requires file.fault.None?
    ensures |TextResult(file).value| <= MaxChar
    ensures TextResult(file).value == FromBytes(file.content)[..|TextResult(file).value|]
    ensures |file.content| <= MaxChar ==> TextResult(file).value == FromBytes(file.content)
  {
    assert |file.content| <= MaxChar ==> file.content[..Min(|file.content|, MaxChar)] == file.content;
  }

  /** Lines 110-120: one read into a 50 000-byte buffer; end of file is not an error. */
  method ExtractTextFile(file: Upload) returns (r: Result<string>)
    ensures r == TextResult(file)
  {
    var buf := new byte[MaxChar](_ => 0);
    var n, end := Read(file, buf);
    if end.ReadFailed? {
      return Err(end.error);
    }
    return Ok(FromBytes(buf[..n]));
  }

  // ------------------------------------------------------------ ExtractContent

  /** The collaborators the extractors use. */
  datatype Parsers = Parsers(
    openPdf: seq<byte> -> Result<PdfDoc>,
    parseHtml: seq<byte> -> Result<HtmlNode>,
    reindent: Reindent)

  /** Lines 15-30. */
  method ExtractContent(file: Upload, filename: string, parsers: Parsers) returns (r: Result<string>)
    ensures Route(filename) == Pdf ==> r == PdfResult(file, parsers.openPdf)
    ensures Route(filename) == Html ==> r == HtmlResult(file, parsers.parseHtml)
    ensures Route(filename) == Json ==> r == JsonResult(file, parsers.reindent)
    ensures Route(filename) == TextFile ==> r == TextResult(file)
  {
    var ext := Lower(Ext(filename));
    if ext == ".txt" {
      r := ExtractTextFile(file);
    } else if ext == ".pdf" {
      r := ExtractPdf(file, parsers.openPdf);
    } else if ext == ".html" || ext == ".htm" {
      r := ExtractHtml(file, parsers.parseHtml);
    } else if ext == ".json" {
      r := ExtractJson(file, parsers.reindent);
    } else {
      r := ExtractTextFile(file);
    }
  }
}

/** src/process/pdf_ocr.py: substituting inline image data into the OCR
    markdown, and the chunk arithmetic of `extract_pages`.  Its
    `get_combined_markdown` is the one of `Ocr`. */
module PdfOcr {
  import opened Common

  // ---------------------------------------------------------------------
  // replace_images_in_md

  /** The markdown image link `![name](target)`. */
  function ImageLink(name: string, target: string): (r: string)
    ensures |r| == |name| + |target| + 5
    ensures r[0] == '!'
  {
    "![" + name + "](" + target + ")"
  }

  /** One item of the dict: every link to the image by its own name now
      points at its data. */
  function ReplaceImage(md: string, image: (string, string)): string {
    ReplaceAll(md, ImageLink(image.0, image.0), ImageLink(image.0, image.1))
  }

  /** The items of `images_dict`, in iteration order, replaced one after another. */
  function ReplaceImages(md: string, images: seq<(string, string)>): string
    decreases |images|
  {
    if images == [] then md
    else ReplaceImage(ReplaceImages(md, images[..|images| - 1]), images[|images| - 1])
  }

  /** `replace_images_in_md(md_str, images_dict)`; the dict is given as its
      item sequence. */
  method ReplaceImagesInMd(md: string, images: seq<(string, string)>) returns (r: string)
    ensures r == ReplaceImages(md, images)
  {
    r := md;
    for i := 0 to |images|
      invariant r == ReplaceImages(md, images[..i])
    {
      assert images[..i + 1][..i] == images[..i];
      r := ReplaceImage(r, images[i]);
    }
    assert images[..|images|] == images;
  }

  /** Replacing the items of `a` and then those of `b` is replacing the items of `a + b`. */
  lemma {:induction false} ReplaceImagesAppend(md: string, a: seq<(string, string)>, b: seq<(string, string)>)
    ensures ReplaceImages(md, a + b) == ReplaceImages(ReplaceImages(md, a), b)
    decreases |b|
  {
    if b == [] {
      assert a + b == a;
    } else {
      assert (a + b)[..|a + b| - 1] == a + b[..|b| - 1];
      ReplaceImagesAppend(md, a, b[..|b| - 1]);
    }
  }

  /** Markdown that links no image of the dict by its own name is returned unchanged. */
  lemma {:induction false} ReplaceImagesWithoutLinks(md: string, images: seq<(string, string)>)
    requires forall i :: 0 <= i < |images| ==> !Occurs(md, ImageLink(images[i].0, images[i].0))
    ensures ReplaceImages(md, images) == md
    decreases |images|
  {
    if images != [] {
      var init := images[..|images| - 1];
      assert forall i :: 0 <= i < |init| ==> init[i] == images[i];
      ReplaceImagesWithoutLinks(md, init);
      var last := images[|images| - 1];
      ReplaceAbsent(md, ImageLink(last.0, last.0), ImageLink(last.0, last.1));
    }
  }

  /** An image whose data is its own name leaves the markdown as it was. */
  lemma {:induction false} ReplaceImagesWithOwnNames(md: string, images: seq<(string, string)>)
    requires forall i :: 0 <= i < |images| ==> images[i].1 == images[i].0
    ensures ReplaceImages(md, images) == md
    decreases |images|
  {
    if images != [] {
      var init := images[..|images| - 1];
      assert forall i :: 0 <= i < |init| ==> init[i] == images[i];
      ReplaceImagesWithOwnNames(md, init);
      var last := images[|images| - 1];
      SplitJoinRoundTrip(md, ImageLink(last.0, last.0));
    }
  }

  /** For one image: the markdown is cut at every link to it and rejoined with
      the link to its data, and no piece still holds the old link. */
  lemma ReplaceOneImage(md: string, name: string, data: string)
    ensures ReplaceImages(md, [(name, data)]) == Join(Split(md, ImageLink(name, name)), ImageLink(name, data))
    ensures forall k :: 0 <= k < |Split(md, ImageLink(name, name))| ==>
      !Occurs(Split(md, ImageLink(name, name))[k], ImageLink(name, name))
  {
    assert [(name, data)][..0] == [];
    ReplaceIsJoinOfSplit(md, ImageLink(name, name), ImageLink(name, data));
    SplitPiecesFree(md, ImageLink(name, name));
  }

  // ---------------------------------------------------------------------
  // extract_pages: chunk arithmetic

  /** Python's `a // b`, which rounds toward negative infinity. */
  function FloorDiv(a: int, b: int): (q: int)
    requires b != 0
    ensures b > 0 ==> q * b <= a < q * b + b
    ensures b < 0 ==> q * b >= a > q * b + b
  {
    if b > 0 then a / b else (-a) / (-b)
  }

  /** `range(a, b)` */
  function Range(a: int, b: int): (r: seq<int>)
    ensures |r| == if a < b then b - a else 0
    ensures forall i :: 0 <= i < |r| ==> r[i] == a + i
  {
    if b <= a then [] else seq(b - a, i => a + i)
  }

  lemma RangeAppend(a: int, b: int, c: int)
    requires a <= b <= c
    ensures Range(a, b) + Range(b, c) == Range(a, c)
  {
  }

  function Digit(d: nat): (c: char)
    requires d < 10
    ensures '0' <= c <= '9'
  {
    (('0' as int) + d) as char
  }

  /** The decimal numeral of `k`, as an f-string writes it. */
  function Decimal(k: nat): (r: string)
    ensures |r| > 0
    ensures forall i :: 0 <= i < |r| ==> '0' <= r[i] <= '9'
    ensures |r| == 1 <==> k < 10
  {
    if k < 10 then [Digit(k)] else Decimal(k / 10) + [Digit(k % 10)]
  }

  /** Different numbers have different numerals. */
  lemma {:induction false} DecimalInjective(a: nat, b: nat)
    requires Decimal(a) == Decimal(b)
    ensures a == b
  {
    if a >= 10 && b >= 10 {
      var da := Decimal(a);
      assert da[..|da| - 1] == Decimal(a / 10);
      assert Decimal(b)[..|da| - 1] == Decimal(b / 10);
      DecimalInjective(a / 10, b / 10);
      assert Digit(a % 10) == da[|da| - 1] == Digit(b % 10);
    }
  }

  /** `f"data/chunk_{chunk + 1}_{pdf_name}"` */
  function ChunkPath(chunk: nat, pdfName: string): string {
    "data/chunk_" + Decimal(chunk + 1) + "_" + pdfName
  }

  /** No two chunks of a file are written to the same path. */
  lemma ChunkPathsDistinct(i: nat, j: nat, pdfName: string)
    requires i != j
    ensures ChunkPath(i, pdfName) != ChunkPath(j, pdfName)
  {
    var di, dj := Decimal(i + 1), Decimal(j + 1);
    if ChunkPath(i, pdfName) == ChunkPath(j, pdfName) {
      var p := "data/chunk_";
      var x, y := di + "_" + pdfName, dj + "_" + pdfName;
      assert ChunkPath(i, pdfName) == p + x && ChunkPath(j, pdfName) == p + y;
      assert x == (p + x)[|p|..] == (p + y)[|p|..] == y;
      if |di| == |dj| {
        assert di == x[..|di|] == y[..|dj|] == dj;
        DecimalInjective(i + 1, j + 1);
      }
    }
  }

  /** One output file: its path and the indices of the pages copied into it. */
  datatype Chunk = Chunk(path: string, pages: seq<int>)

  /** `chunk_count = (total_page + n - 1) // n` */
  function ChunkCount(total: nat, n: int): int
    requires n != 0
  {
    FloorDiv(total + n - 1, n)
  }

  /** Chunk `k` holds the pages `range(k * n, min(k * n + n, total))`. */
  function ChunkOf(total: nat, n: int, pdfName: string, k: nat): Chunk {
    Chunk(ChunkPath(k, pdfName), Range(k * n, Min(k * n + n, total)))
  }

  /** What `extract_pages` writes, chunk by chunk. */
  function ChunkPlan(total: nat, n: int, pdfName: string): (r: seq<Chunk>)
    requires n != 0
  {
    var count := if ChunkCount(total, n) < 0 then 0 else ChunkCount(total, n);
    seq(count, k requires 0 <= k => ChunkOf(total, n, pdfName, k))
  }

  /** The chunk arithmetic of `extract_pages(pdf_path, n)` for a PDF of
      `total` pages: the outer loop makes one chunk per step, the inner loop
      collects its pages. */
  method ExtractPages(total: nat, n: int, pdfName: string) returns (r: Outcome<seq<Chunk>>)
    ensures n == 0 ==> r == Raised(Exception(ZeroDivisionError, "integer division or modulo by zero"))
    ensures n != 0 ==> r == Ok(ChunkPlan(total, n, pdfName))
  {
    if n == 0 {
      return Raised(Exception(ZeroDivisionError, "integer division or modulo by zero"));
    }
    var chunkCount := FloorDiv(total + n - 1, n);
    ghost var plan := ChunkPlan(total, n, pdfName);
    assert |plan| == if chunkCount < 0 then 0 else chunkCount;
    var chunks: seq<Chunk> := [];
    var chunk := 0;
    while chunk < chunkCount
      invariant 0 <= chunk <= |plan|
      invariant chunks == plan[..chunk]
    {
      var start := chunk * n;
      var end := Min(start + n, total);
      var pages: seq<int> := [];
      var i := start;
      while i < end
        invariant i == start || start < i <= end
        invariant pages == Range(start, i)
      {
        RangeAppend(start, i, i + 1);
        pages := pages + [i];
        i := i + 1;
      }
      assert plan[chunk] == ChunkOf(total, n, pdfName, chunk);
      assert plan[..chunk + 1] == plan[..chunk] + [plan[chunk]];
      chunks := chunks + [Chunk(ChunkPath(chunk, pdfName), pages)];
      chunk := chunk + 1;
    }
    assert chunks == plan;
    return Ok(chunks);
  }

  /** For a positive size the count is the ceiling of `total / n`. */
  lemma ChunkCountIsCeiling(total: nat, n: int)
    requires n > 0
    ensures var c := ChunkCount(total, n);
      && c >= 0
      && c * n >= total
      && (c > 0 ==> (c - 1) * n < total)
      && (c == 0 <==> total == 0)
  {
    var c := ChunkCount(total, n);
    assert c * n <= total + n - 1 < c * n + n;
  }

  /** All page indices of a list of chunks, in order. */
  function Pages(chunks: seq<Chunk>): seq<int>
    decreases |chunks|
  {
    if chunks == [] then [] else Pages(chunks[..|chunks| - 1]) + chunks[|chunks| - 1].pages
  }

  lemma ProductStep(k: int, n: int)
    ensures k * n == (k - 1) * n + n
  {
  }

  /** Adding chunk `k` to the pages of the chunks before it. */
  lemma AppendChunk(total: nat, n: int, s: int)
    requires n > 0 && s >= 0
    ensures Range(0, Min(s, total)) + Range(s, Min(s + n, total)) == Range(0, Min(s + n, total))
  {
    if s < total {
      RangeAppend(0, s, Min(s + n, total));
    }
  }

  lemma {:induction false} PagesOfPrefix(total: nat, n: int, pdfName: string, k: nat)
    requires n > 0 && k <= |ChunkPlan(total, n, pdfName)|
    ensures Pages(ChunkPlan(total, n, pdfName)[..k]) == Range(0, Min(k * n, total))
  {
    var plan := ChunkPlan(total, n, pdfName);
    if k > 0 {
      var prefix := plan[..k];
      assert prefix[..k - 1] == plan[..k - 1];
      PagesOfPrefix(total, n, pdfName, k - 1);
      var s := (k - 1) * n;
      ProductStep(k, n);
      assert prefix[k - 1].pages == Range(s, Min(s + n, total));
      assert Pages(prefix) == Range(0, Min(s, total)) + Range(s, Min(s + n, total));
      AppendChunk(total, n, s);
    }
  }

  /** For a positive size the chunks partition the pages: read one after the
      other they are exactly pages 0, 1, ..., total - 1, so every page lands in
      one chunk and no page in two. */
  lemma ChunksPartitionPages(total: nat, n: int, pdfName: string)
    requires n > 0
    ensures Pages(ChunkPlan(total, n, pdfName)) == Range(0, total)
  {
    var plan := ChunkPlan(total, n, pdfName);
    ChunkCountIsCeiling(total, n);
    PagesOfPrefix(total, n, pdfName, |plan|);
    assert plan[..|plan|] == plan;
  }

  /** For a positive size every chunk starts at `k * n`, is not empty and
      holds at most `n` pages, and chunk `k` is written to the `k + 1`-th file. */
  lemma ChunkShape(total: nat, n: int, pdfName: string, k: nat)
    requires n > 0 && k < |ChunkPlan(total, n, pdfName)|
    ensures var c := ChunkPlan(total, n, pdfName)[k];
      && 0 < |c.pages| <= n
      && c.pages[0] == k * n
      && c.path == "data/chunk_" + Decimal(k + 1) + "_" + pdfName
  {
    var count := ChunkCount(total, n);
    ChunkCountIsCeiling(total, n);
    assert k <= count - 1;
    assert k * n <= (count - 1) * n;
  }

  /** A negative size writes no page at all, although it may still write
      empty chunk files (for an empty PDF and `n == -1`, two of them). */
  lemma NegativeSizeCopiesNoPage(total: nat, n: int, pdfName: string, k: nat)
    requires n < 0 && k < |ChunkPlan(total, n, pdfName)|
    ensures ChunkPlan(total, n, pdfName)[k].pages == []
  {
    assert k * n <= 0;
  }

  /** An empty PDF still gets empty chunk files for a negative size: two for
      `n == -1`, one for any other. */
  lemma EmptyPdfWithNegativeSize(n: int, pdfName: string)
    requires n < 0
    ensures |ChunkPlan(0, n, pdfName)| == if n == -1 then 2 else 1
  {
    var q := ChunkCount(0, n);
    assert q * n >= n - 1 > q * n + n;
  }
}

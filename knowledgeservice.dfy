/**
 * `addDocumentToKnowledgeBase`: the uploaded file's text is extracted by
 * MIME type, split into paragraphs at blank lines, paragraphs whose
 * trimmed length is at most 20 are dropped, and each remaining chunk
 * becomes one document for the vector store.
 */
module KnowledgeService {
  import opened Wrappers
  import opened Js

  /** The fields of a multer upload that the service reads. */
  datatype UploadedFile = UploadedFile(mimetype: string, buffer: seq<bv8>, originalname: string)

  /**
   * The decoders this model does not contain: `pdf-parse` (which may
   * throw) and `Buffer.toString("utf-8")`.
   */
  datatype Extractors = Extractors(pdfText: seq<bv8> -> Result<string>, utf8: seq<bv8> -> string)

  // ---------------------------------------------------------------------
  // Text extraction

  /** `extractTextFromFile`: PDF and plain text only. */
  function ExtractText(ex: Extractors, file: UploadedFile): (r: Result<string>)
    ensures file.mimetype == "application/pdf" ==> r == ex.pdfText(file.buffer)
    ensures file.mimetype == "text/plain" ==> r == Ok(ex.utf8(file.buffer))
    ensures file.mimetype != "application/pdf" && file.mimetype != "text/plain" ==>
              r == Err(AppError("Unsupported file type: " + file.mimetype))
  {
    if file.mimetype == "application/pdf" then ex.pdfText(file.buffer)
    else if file.mimetype == "text/plain" then Ok(ex.utf8(file.buffer))
    else Err(AppError("Unsupported file type: " + file.mimetype))
  }

  // ---------------------------------------------------------------------
  // `split(/\n\s*\n/)`

  /** The largest index in [lo, hi) holding a newline, or -1. */
  function LastNewlineBelow(s: string, lo: nat, hi: nat): (k: int)
    requires lo <= hi <= |s|
    ensures k == -1 || (lo <= k < hi && s[k] == '\n')
    decreases hi - lo
  {
    if hi == lo then -1
    else if s[hi - 1] == '\n' then hi - 1
    else LastNewlineBelow(s, lo, hi - 1)
  }

  lemma {:induction false} NoNewlineBelow(s: string, lo: nat, hi: nat, m: nat)
    requires lo <= m < hi <= |s| && s[m] == '\n'
    ensures LastNewlineBelow(s, lo, hi) >= m
    decreases hi - lo
  {
    if s[hi - 1] != '\n' {
      NoNewlineBelow(s, lo, hi - 1, m);
    }
  }

  /**
   * Where a match of `\n\s*\n` that starts at `q` ends, or -1. The greedy
   * `\s*` takes the whole whitespace run after the first newline and
   * backs off to the last newline in it.
   */
  function SeparatorEnd(s: string, q: nat): (e: int)
    requires q < |s|
    ensures e == -1 || q + 2 <= e <= |s|
  {
    if s[q] != '\n' then -1
    else
      var k := LastNewlineBelow(s, q + 1, SpacesFrom(s, q + 1));
      if k == -1 then -1 else k + 1
  }

  /** Text the regular expression matches: two newlines with only whitespace between. */
  predicate IsSeparator(t: string) {
    |t| >= 2 && t[0] == '\n' && t[|t| - 1] == '\n' && forall i :: 0 < i < |t| - 1 ==> IsSpace(t[i])
  }

  /** Two newlines of `t` with only whitespace (possibly nothing) between them. */
  predicate HasBlankLine(t: string) {
    exists i, j :: 0 <= i < j < |t| && t[i] == '\n' && t[j] == '\n' && forall m :: i < m < j ==> IsSpace(t[m])
  }

  /** The pieces of a split and the separators matched between them. */
  datatype Pieces = Pieces(pieces: seq<string>, seps: seq<string>)

  /**
   * The split loop of `RegExp.prototype[Symbol.split]`: the current
   * piece starts at `p`, and a match is tried at `q`.
   */
  function SplitFrom(s: string, p: nat, q: nat): (r: Pieces)
    requires p <= q <= |s|
    ensures |r.pieces| == |r.seps| + 1
    decreases |s| - q
  {
    if q == |s| then Pieces([s[p..]], [])
    else
      var e := SeparatorEnd(s, q);
      if e == -1 then SplitFrom(s, p, q + 1)
      else
        var rest := SplitFrom(s, e, e);
        Pieces([s[p..q]] + rest.pieces, [s[q..e]] + rest.seps)
  }

  /** `text.split(/\n\s*\n/)`. */
  function SplitParagraphs(s: string): (r: seq<string>)
    ensures |r| >= 1
  {
    SplitFrom(s, 0, 0).pieces
  }

  /** Pieces and separators put back together, alternately. */
  function Stitch(pieces: seq<string>, seps: seq<string>): string
    requires |pieces| == |seps| + 1
    decreases |seps|
  {
    if seps == [] then pieces[0] else pieces[0] + seps[0] + Stitch(pieces[1..], seps[1..])
  }

  lemma RunIsSpace(s: string, q: nat, m: nat)
    requires q + 1 <= |s| && q + 1 <= m < SpacesFrom(s, q + 1)
    ensures IsSpace(s[m])
  {
    SpacesFromRun(s, q + 1);
  }

  /** What `SeparatorEnd` finds is a separator. */
  lemma SeparatorMatched(s: string, q: nat)
    requires q < |s| && SeparatorEnd(s, q) != -1
    ensures IsSeparator(s[q..SeparatorEnd(s, q)])
  {
    var e := SeparatorEnd(s, q);
    var t := s[q..e];
    assert t[0] == s[q];
    assert t[|t| - 1] == s[e - 1];
    forall i | 0 < i < |t| - 1 ensures IsSpace(t[i]) {
      assert t[i] == s[q + i];
      RunIsSpace(s, q, q + i);
    }
  }

  /** A newline later in the same whitespace run makes a match. */
  lemma {:induction false} SpacesReach(s: string, i: nat, j: nat)
    requires i <= j < |s| && forall m :: i <= m <= j ==> IsSpace(s[m])
    ensures SpacesFrom(s, i) > j
    decreases j - i
  {
    if i < j {
      SpacesReach(s, i + 1, j);
    }
  }

  /** Two newlines with only whitespace between them: a match starts at the first. */
  lemma NewlinePairMatches(s: string, q: nat, m: nat)
    requires q < m < |s| && s[q] == '\n' && s[m] == '\n'
    requires forall k :: q < k < m ==> IsSpace(s[k])
    ensures SeparatorEnd(s, q) != -1
  {
    SpacesReach(s, q + 1, m);
    NoNewlineBelow(s, q + 1, SpacesFrom(s, q + 1), m);
  }

  lemma NoMatchNoBlankLine(s: string, p: nat, q: nat)
    requires p <= q <= |s|
    requires forall i :: p <= i < q ==> SeparatorEnd(s, i) == -1
    ensures !HasBlankLine(s[p..q])
  {
    var t := s[p..q];
    if HasBlankLine(t) {
      var i, j :| 0 <= i < j < |t| && t[i] == '\n' && t[j] == '\n' && forall m :: i < m < j ==> IsSpace(t[m]);
      assert s[p + i] == '\n' && s[p + j] == '\n';
      forall m | p + i < m < p + j ensures IsSpace(s[m]) {
        assert s[m] == t[m - p];
      }
      NewlinePairMatches(s, p + i, p + j);
      assert false;
    }
  }

  /** The split loses nothing: the pieces with the separators between them are the text. */
  lemma {:induction false} SplitFromStitch(s: string, p: nat, q: nat)
    requires p <= q <= |s|
    ensures var r := SplitFrom(s, p, q); Stitch(r.pieces, r.seps) == s[p..]
    decreases |s| - q
  {
    if q < |s| {
      var e := SeparatorEnd(s, q);
      if e == -1 {
        SplitFromStitch(s, p, q + 1);
        assert SplitFrom(s, p, q) == SplitFrom(s, p, q + 1);
      } else {
        var r := SplitFrom(s, p, q);
        var rest := SplitFrom(s, e, e);
        SplitFromStitch(s, e, e);
        assert r.pieces[1..] == rest.pieces && r.seps[1..] == rest.seps;
        assert s[p..] == s[p..q] + (s[q..e] + s[e..]);
      }
    }
  }

  /** Every separator the split consumed is a match of the regular expression. */
  lemma {:induction false} SplitFromSeparators(s: string, p: nat, q: nat)
    requires p <= q <= |s|
    ensures forall i :: 0 <= i < |SplitFrom(s, p, q).seps| ==> IsSeparator(SplitFrom(s, p, q).seps[i])
    decreases |s| - q
  {
    if q < |s| {
      var e := SeparatorEnd(s, q);
      if e == -1 {
        SplitFromSeparators(s, p, q + 1);
        assert SplitFrom(s, p, q) == SplitFrom(s, p, q + 1);
      } else {
        var r := SplitFrom(s, p, q);
        var rest := SplitFrom(s, e, e);
        assert r == Pieces([s[p..q]] + rest.pieces, [s[q..e]] + rest.seps);
        SplitFromSeparators(s, e, e);
        SeparatorMatched(s, q);
        forall i | 0 <= i < |r.seps| ensures IsSeparator(r.seps[i]) {
          if i > 0 { assert r.seps[i] == rest.seps[i - 1]; }
        }
      }
    }
  }

  /** No piece contains a blank line: each was scanned without a match. */
  lemma {:induction false} SplitFromPieces(s: string, p: nat, q: nat)
    requires p <= q <= |s|
    requires forall i :: p <= i < q ==> SeparatorEnd(s, i) == -1
    ensures forall i :: 0 <= i < |SplitFrom(s, p, q).pieces| ==> !HasBlankLine(SplitFrom(s, p, q).pieces[i])
    decreases |s| - q
  {
    if q == |s| {
      NoMatchNoBlankLine(s, p, q);
      assert s[p..q] == s[p..];
    } else {
      var e := SeparatorEnd(s, q);
      if e == -1 {
        SplitFromPieces(s, p, q + 1);
        assert SplitFrom(s, p, q) == SplitFrom(s, p, q + 1);
      } else {
        var r := SplitFrom(s, p, q);
        var rest := SplitFrom(s, e, e);
        assert r == Pieces([s[p..q]] + rest.pieces, [s[q..e]] + rest.seps);
        SplitFromPieces(s, e, e);
        NoMatchNoBlankLine(s, p, q);
        forall i | 0 <= i < |r.pieces| ensures !HasBlankLine(r.pieces[i]) {
          if i > 0 { assert r.pieces[i] == rest.pieces[i - 1]; }
        }
      }
    }
  }

  /**
   * The paragraphs of `s` and the blank-line separators between them make
   * up `s`, and no paragraph holds a blank line. This is soundness only:
   * other decompositions satisfy the same three facts (for "\n\n\n", the
   * pieces "" and "\n" around the separator "\n\n"). The leftmost, greedy
   * match the regular expression makes is fixed by `SplitFrom` and
   * `SeparatorEnd`.
   */
  lemma SplitParagraphsSound(s: string)
    ensures var r := SplitFrom(s, 0, 0);
            r.pieces == SplitParagraphs(s)
            && Stitch(r.pieces, r.seps) == s
            && (forall i :: 0 <= i < |r.seps| ==> IsSeparator(r.seps[i]))
            && (forall i :: 0 <= i < |r.pieces| ==> !HasBlankLine(r.pieces[i]))
  {
    SplitFromStitch(s, 0, 0);
    SplitFromSeparators(s, 0, 0);
    SplitFromPieces(s, 0, 0);
    assert s[0..] == s;
  }

  // ---------------------------------------------------------------------
  // Filtering and documents

  /** `chunk.trim().length > 20`. */
  predicate LongEnough(chunk: string) {
    Utf16Length(Trim(chunk)) > 20
  }

  /** `.filter(chunk => chunk.trim().length > 20)`. */
  function KeepLong(xs: seq<string>): (r: seq<string>)
    ensures |r| <= |xs|
  {
    if xs == [] then []
    else (if LongEnough(xs[0]) then [xs[0]] else []) + KeepLong(xs[1..])
  }

  /** The filter keeps exactly the long enough pieces. */
  lemma {:induction false} KeepLongMembers(xs: seq<string>)
    ensures forall c :: c in KeepLong(xs) <==> c in xs && LongEnough(c)
  {
    if xs != [] {
      KeepLongMembers(xs[1..]);
      assert xs == [xs[0]] + xs[1..];
    }
  }

  /** The filter keeps order: it works piece by piece. */
  lemma {:induction false} KeepLongAppend(xs: seq<string>, ys: seq<string>)
    ensures KeepLong(xs + ys) == KeepLong(xs) + KeepLong(ys)
    decreases |xs|
  {
    if xs != [] {
      var head := if LongEnough(xs[0]) then [xs[0]] else [];
      assert (xs + ys)[0] == xs[0] && (xs + ys)[1..] == xs[1..] + ys;
      assert KeepLong(xs + ys) == head + KeepLong(xs[1..] + ys);
      KeepLongAppend(xs[1..], ys);
      assert KeepLong(xs) == head + KeepLong(xs[1..]);
    } else {
      assert xs + ys == ys;
    }
  }

  /** The chunks of a text: its paragraphs that are long enough. */
  function Chunks(rawText: string): seq<string> {
    KeepLong(SplitParagraphs(rawText))
  }

  /**
   * The chunks are the long enough paragraphs; each holds no blank line.
   */
  lemma ChunksAreParagraphs(rawText: string)
    ensures forall c :: c in Chunks(rawText) <==> c in SplitParagraphs(rawText) && LongEnough(c)
    ensures forall c :: c in Chunks(rawText) ==> !HasBlankLine(c)
  {
    SplitParagraphsSound(rawText);
    KeepLongMembers(SplitParagraphs(rawText));
  }

  /** A document for the vector store; `uploadedAt` is `new Date().toISOString()`. */
  datatype KnowledgeDoc = KnowledgeDoc(id: string, text: string, source: string, uploadedAt: string)

  /**
   * `chunks.map(...)`: one document per chunk; `ids(i)` and `now(i)` are
   * what `uuidv4()` and the clock give for the i-th chunk.
   */
  function Documents(chunks: seq<string>, source: string, ids: nat -> string, now: nat -> string): (r: seq<KnowledgeDoc>)
    ensures |r| == |chunks|
    ensures forall i :: 0 <= i < |chunks| ==> r[i].text == chunks[i] && r[i].source == source
    ensures forall i :: 0 <= i < |chunks| ==> r[i].id == ids(i) && r[i].uploadedAt == now(i)
  {
    seq(|chunks|, i requires 0 <= i < |chunks| => KnowledgeDoc(ids(i), chunks[i], source, now(i)))
  }

  function DocTexts(docs: seq<KnowledgeDoc>): (r: seq<string>)
    ensures |r| == |docs| && forall i :: 0 <= i < |docs| ==> r[i] == docs[i].text
  {
    seq(|docs|, i requires 0 <= i < |docs| => docs[i].text)
  }

  /**
   * `addDocumentToKnowledgeBase(file)`: the documents handed to
   * `upsertDocuments`, None where there is no chunk and nothing is
   * upserted, or the error thrown.
   */
  function AddDocumentToKnowledgeBase(ex: Extractors, file: UploadedFile, ids: nat -> string, now: nat -> string)
    : (r: Result<Option<seq<KnowledgeDoc>>>)
    ensures r.Err? <==> ExtractText(ex, file).Err?
    ensures r.Err? ==> r.error == ExtractText(ex, file).error
  {
    match ExtractText(ex, file)
    case Err(e) => Err(e)
    case Ok(rawText) =>
      var chunks := Chunks(rawText);
      if |chunks| == 0 then Ok(None)
      else Ok(Some(Documents(chunks, file.originalname, ids, now)))
  }

  // ---------------------------------------------------------------------
  // Properties

  /**
   * Nothing is upserted exactly when no chunk survives the filter;
   * otherwise the documents are the chunks, in order, one each, all with
   * the file's name as source.
   */
  lemma UpsertedDocuments(ex: Extractors, file: UploadedFile, ids: nat -> string, now: nat -> string)
    requires ExtractText(ex, file).Ok?
    ensures var chunks := Chunks(ExtractText(ex, file).value);
            var r := AddDocumentToKnowledgeBase(ex, file, ids, now);
            (r == Ok(None) <==> chunks == [])
            && (r.Ok? && r.value.Some? ==>
                  DocTexts(r.value.value) == chunks
                  && forall i :: 0 <= i < |r.value.value| ==> r.value.value[i].source == file.originalname)
  {
    var chunks := Chunks(ExtractText(ex, file).value);
    var r := AddDocumentToKnowledgeBase(ex, file, ids, now);
    if r.Ok? && r.value.Some? {
      assert DocTexts(r.value.value) == chunks;
    }
  }

  /** Every document's text is long enough and holds no blank line. */
  lemma DocumentsAreChunks(ex: Extractors, file: UploadedFile, ids: nat -> string, now: nat -> string)
    ensures var r := AddDocumentToKnowledgeBase(ex, file, ids, now);
            r.Ok? && r.value.Some? ==>
              forall i :: 0 <= i < |r.value.value| ==>
                LongEnough(r.value.value[i].text) && !HasBlankLine(r.value.value[i].text)
  {
    var r := AddDocumentToKnowledgeBase(ex, file, ids, now);
    if r.Ok? && r.value.Some? {
      var chunks := Chunks(ExtractText(ex, file).value);
      ChunksAreParagraphs(ExtractText(ex, file).value);
      forall i | 0 <= i < |r.value.value|
        ensures LongEnough(r.value.value[i].text) && !HasBlankLine(r.value.value[i].text)
      {
        assert r.value.value[i].text == chunks[i];
        assert chunks[i] in chunks;
      }
    }
  }

  /** A text without blank lines is one paragraph, itself. */
  lemma NoBlankLineOnePiece(s: string)
    requires !HasBlankLine(s)
    ensures SplitParagraphs(s) == [s]
  {
    NoSeparatorFrom(s, 0);
  }

  lemma {:induction false} NoSeparatorFrom(s: string, q: nat)
    requires q <= |s| && !HasBlankLine(s)
    ensures SplitFrom(s, 0, q) == Pieces([s], [])
    decreases |s| - q
  {
    if q < |s| {
      if SeparatorEnd(s, q) != -1 {
        SeparatorMatched(s, q);
        var e := SeparatorEnd(s, q);
        var t := s[q..e];
        assert s[q] == '\n' && s[e - 1] == '\n';
        forall m | q < m < e - 1 ensures IsSpace(s[m]) {
          assert s[m] == t[m - q];
        }
        assert false;
      }
      NoSeparatorFrom(s, q + 1);
    } else {
      assert s[0..] == s;
    }
  }
}

/** Text typing on macOS: splitting a text into UTF-16 chunks without splitting a surrogate pair. */
module MacText {
  import opened Results
  import opened Sequences

  // ---- UTF-16 (sections 2.1 and 2.2 of RFC 2781) ----

  type Unit = u: int | 0 <= u < 0x1_0000

  function EncodeChar(c: char): (units: seq<Unit>)
    ensures |units| == 1 || |units| == 2
  {
    var u := c as int;
    if u < 0x1_0000 then [u]
    else [0xD800 + (u - 0x1_0000) / 0x400, 0xDC00 + (u - 0x1_0000) % 0x400]
  }

  function Encode(text: string): (units: seq<Unit>)
    ensures |text| <= |units|
  {
    if text == [] then [] else Encode(text[..|text| - 1]) + EncodeChar(text[|text| - 1])
  }

  function Pair(high: int, low: int): (u: int)
    requires 0xD800 <= high <= 0xDBFF && 0xDC00 <= low <= 0xDFFF
    ensures 0x1_0000 <= u <= 0x10_FFFF
  {
    0x1_0000 + (high - 0xD800) * 0x400 + (low - 0xDC00)
  }

  /** Decoding; None on an unpaired surrogate. */
  function Decode(units: seq<Unit>): Option<string> {
    if units == [] then Some([])
    else
      var u := units[0];
      if u < 0xD800 || 0xDFFF < u then Prepend(u as char, Decode(units[1..]))
      else if |units| == 1 || 0xDBFF < u || !(0xDC00 <= units[1] <= 0xDFFF) then None
      else Prepend(Pair(u, units[1]) as char, Decode(units[2..]))
  }

  function Prepend(c: char, rest: Option<string>): Option<string> {
    if rest.None? then None else Some([c] + rest.value)
  }

  lemma DecodeFirst(c: char, rest: seq<Unit>)
    ensures Decode(EncodeChar(c) + rest) == Prepend(c, Decode(rest))
  {
    var units := EncodeChar(c) + rest;
    assert units[|EncodeChar(c)|..] == rest;
  }

  lemma {:induction false} EncodeConcat(s: string, t: string)
    ensures Encode(s + t) == Encode(s) + Encode(t)
  {
    hide EncodeChar;
    if t == [] {
      Empty(s);
      Empty(Encode(s));
    } else {
      var front, last := t[..|t| - 1], t[|t| - 1];
      EncodeConcat(s, front);
      EncodeAppend(s + front, last);
      Associative(s, front, [last]);
      Associative(Encode(s), Encode(front), EncodeChar(last));
      assert t == front + [last];
    }
  }

  /** Decoding undoes encoding. */
  lemma {:induction false} DecodeEncode(text: string)
    ensures Decode(Encode(text)) == Some(text)
    decreases |text|
  {
    if text != [] {
      DecodeEncode(text[1..]);
      assert text == [text[0]] + text[1..];
      EncodeConcat([text[0]], text[1..]);
      assert Encode([text[0]]) == Encode([]) + EncodeChar(text[0]) == EncodeChar(text[0]);
      DecodeFirst(text[0], Encode(text[1..]));
    }
  }

  // ---- text chunks ----

  const TEXT_CHUNK_UTF16 := 20

  /** A split of a text at character boundaries into pieces of at most 20 UTF-16 units. */
  ghost predicate FitsLimit(pieces: seq<string>) {
    forall i :: 0 <= i < |pieces| ==> |Encode(pieces[i])| <= TEXT_CHUNK_UTF16
  }

  /** A non-empty piece within the limit. */
  ghost predicate IsPiece(piece: string) { piece != [] && |Encode(piece)| <= TEXT_CHUNK_UTF16 }

  /** `piece` has no room for the first character of `next`. */
  ghost predicate Full(piece: string, next: string) {
    next != [] && |Encode(piece)| + |EncodeChar(next[0])| > TEXT_CHUNK_UTF16
  }

  /** No piece is empty or too long, and none has room for the first character of the next. */
  ghost predicate Greedy(pieces: seq<string>) {
    && (forall i :: 0 <= i < |pieces| ==> IsPiece(pieces[i]))
    && (forall i, j :: 0 <= i && j == i + 1 < |pieces| ==> Full(pieces[i], pieces[j]))
  }

  /** `done` is the text so far, `piece` the part not yet flushed from `cur`. */
  ghost predicate Chunked(done: string, chunks: seq<seq<Unit>>, pieces: seq<string>, cur: seq<Unit>, piece: string) {
    && cur == Encode(piece) && Flatten(pieces) + piece == done
    && (piece == [] ==> pieces == [])
    && Greedy(AllPieces(pieces, piece))
    && |chunks| == |pieces| && forall i :: 0 <= i < |chunks| ==> chunks[i] == Encode(pieces[i])
  }

  /** The text so far as finished chunks and the current one. */
  function Fill(text: string): (seq<seq<Unit>>, seq<Unit>) {
    if text == [] then ([], [])
    else
      var (chunks, cur) := Fill(text[..|text| - 1]);
      var units := EncodeChar(text[|text| - 1]);
      if |cur| + |units| > TEXT_CHUNK_UTF16 && cur != [] then (chunks + [cur], [] + units)
      else (chunks, cur + units)
  }

  function Chunks(text: string): seq<seq<Unit>> {
    var (chunks, cur) := Fill(text);
    if cur != [] then chunks + [cur] else chunks
  }

  lemma FillAppend(done: string, c: char)
    ensures var (chunks, cur) := Fill(done);
            var units := EncodeChar(c);
            Fill(done + [c]) ==
              if |cur| + |units| > TEXT_CHUNK_UTF16 && cur != [] then (chunks + [cur], [] + units)
              else (chunks, cur + units)
  {
    assert (done + [c])[..|done|] == done;
  }

  /** `plan_text_chunks`. */
  method PlanTextChunks(text: string) returns (chunks: seq<seq<Unit>>)
    ensures chunks == Chunks(text)
  {
    chunks := [];
    var cur: seq<Unit> := [];
    for n := 0 to |text|
      invariant Fill(text[..n]) == (chunks, cur)
    {
      hide Fill, EncodeChar;
      var units := EncodeChar(text[n]);
      FillAppend(text[..n], text[n]);
      assert text[..n + 1] == text[..n] + [text[n]];
      if |cur| + |units| > TEXT_CHUNK_UTF16 && cur != [] {
        chunks := chunks + [cur];
        cur := [];
      }
      cur := cur + units;
    }
    assert text[..|text|] == text;
    if cur != [] {
      chunks := chunks + [cur];
    }
  }

  lemma NothingChunked()
    ensures Chunked([], [], [], [], []) && Fill([]) == ([], [])
  {
  }

  lemma LastChunk(text: string, chunks: seq<seq<Unit>>, pieces: seq<string>, cur: seq<Unit>, piece: string)
    requires Chunked(text, chunks, pieces, cur, piece)
    ensures var c, p := (if cur == [] then chunks else chunks + [cur]), (if cur == [] then pieces else pieces + [piece]);
            && Flatten(p) == text && Greedy(p)
            && |c| == |p| && forall i :: 0 <= i < |c| ==> c[i] == Encode(p[i])
  {
    FlattenAppend(pieces, piece);
  }

  lemma Chunk(done: string, c: char, chunks: seq<seq<Unit>>, pieces: seq<string>, cur: seq<Unit>, piece: string)
    requires Chunked(done, chunks, pieces, cur, piece)
    ensures if |cur| + |EncodeChar(c)| > TEXT_CHUNK_UTF16 && cur != []
            then Chunked(done + [c], chunks + [cur], pieces + [piece], [] + EncodeChar(c), [] + [c])
            else Chunked(done + [c], chunks, pieces, cur + EncodeChar(c), piece + [c])
  {
    EncodeAppend(piece, c);
    EncodeAppend([], c);
    FlattenAppend(pieces, piece);
    Associative(Flatten(pieces), piece, [c]);
    assert cur == [] <==> piece == [];
    hide Encode, Flatten, Greedy, EncodeChar;
    Empty([c]);
    if |cur| + |EncodeChar(c)| > TEXT_CHUNK_UTF16 && cur != [] {
      StartPiece(pieces, piece, c);
    } else {
      GrowPiece(pieces, piece, c);
    }
  }

  lemma EncodeAppend(piece: string, c: char)
    ensures Encode(piece + [c]) == Encode(piece) + EncodeChar(c)
  {
    assert (piece + [c])[..|piece|] == piece;
  }

  /** The state of the loop: the finished pieces, and the current one unless it is still empty. */
  ghost function AllPieces(pieces: seq<string>, piece: string): seq<string> {
    if piece == [] then pieces else pieces + [piece]
  }

  lemma GrowPiece(pieces: seq<string>, piece: string, c: char)
    requires piece == [] ==> pieces == []
    requires Greedy(AllPieces(pieces, piece))
    requires |Encode(piece)| + |EncodeChar(c)| <= TEXT_CHUNK_UTF16 || piece == []
    ensures Greedy(pieces + [piece + [c]])
  {
    EncodeAppend(piece, c);
    assert |Encode([])| == 0;
    hide Encode, EncodeChar;
    if piece != [] {
      ReplaceLast(pieces, piece, piece + [c]);
    }
  }

  lemma ReplaceLast(pieces: seq<string>, piece: string, piece': string)
    requires Greedy(pieces + [piece]) && piece != [] && IsPiece(piece') && piece'[0] == piece[0]
    ensures Greedy(pieces + [piece'])
  {
    var before, after := pieces + [piece], pieces + [piece'];
    assert before[|pieces|] == piece && after[|pieces|] == piece';
    assert forall i :: 0 <= i < |pieces| ==> before[i] == after[i];
    hide IsPiece;
    forall i, j | 0 <= i && j == i + 1 < |after| ensures Full(after[i], after[j]) {
      assert Full(before[i], before[j]);
    }
  }

  lemma StartPiece(pieces: seq<string>, piece: string, c: char)
    requires piece != [] && Greedy(pieces + [piece])
    requires |Encode(piece)| + |EncodeChar(c)| > TEXT_CHUNK_UTF16
    ensures Greedy((pieces + [piece]) + [[c]])
  {
    EncodeAppend([], c);
    Empty([c]);
    assert IsPiece([c]) && Full(piece, [c]);
    var before, after := pieces + [piece], (pieces + [piece]) + [[c]];
    hide IsPiece, Full;
    assert forall i :: 0 <= i < |before| ==> after[i] == before[i];
    assert before[|pieces|] == piece && after[|before|] == [c];
  }

  /** The chunks are the encodings of the pieces of a greedy split of the text. */
  lemma ChunksAreGreedy(text: string) returns (pieces: seq<string>)
    ensures Flatten(pieces) == text && Greedy(pieces)
    ensures |Chunks(text)| == |pieces| && forall i :: 0 <= i < |pieces| ==> Chunks(text)[i] == Encode(pieces[i])
  {
    var (chunks, cur) := Fill(text);
    var done, piece := FilledIsChunked(text);
    LastChunk(text, chunks, done, cur, piece);
    pieces := if cur == [] then done else done + [piece];
  }

  lemma {:induction false} FilledIsChunked(text: string) returns (pieces: seq<string>, piece: string)
    ensures Chunked(text, Fill(text).0, pieces, Fill(text).1, piece)
  {
    hide *;
    if text == [] {
      NothingChunked();
      pieces, piece := [], [];
    } else {
      var n := |text| - 1;
      pieces, piece := FilledIsChunked(text[..n]);
      pieces, piece := FilledStep(text[..n], text[n], pieces, piece);
      WholeText(text, n);
    }
  }

  lemma WholeText(text: string, n: nat)
    requires |text| == n + 1
    ensures text[..n] + [text[n]] == text
  {
  }

  lemma FilledStep(done: string, c: char, pieces: seq<string>, piece: string)
    returns (pieces': seq<string>, piece': string)
    requires Chunked(done, Fill(done).0, pieces, Fill(done).1, piece)
    ensures Chunked(done + [c], Fill(done + [c]).0, pieces', Fill(done + [c]).1, piece')
  {
    hide *;
    var chunks, cur := Fill(done).0, Fill(done).1;
    FillAppend(done, c);
    Chunk(done, c, chunks, pieces, cur, piece);
    if |cur| + |EncodeChar(c)| > TEXT_CHUNK_UTF16 && cur != [] {
      pieces', piece' := pieces + [piece], [] + [c];
    } else {
      pieces', piece' := pieces, piece + [c];
    }
  }

  /**
   The chunks concatenate to the encoding of the text and decode to it; each is the encoding of a
   non-empty piece of the text and at most 20 units long; and no split into such pieces is shorter.
   */
  lemma ChunksFacts(text: string)
    ensures Flatten(Chunks(text)) == Encode(text) && Decode(Flatten(Chunks(text))) == Some(text)
    ensures forall i :: 0 <= i < |Chunks(text)| ==>
              |Chunks(text)[i]| <= TEXT_CHUNK_UTF16 && exists piece :: piece != [] && Chunks(text)[i] == Encode(piece)
    ensures forall other :: FitsLimit(other) && Flatten(other) == text ==> |Chunks(text)| <= |other|
  {
    var pieces := ChunksAreGreedy(text);
    FlattenEncode(Chunks(text), pieces);
    DecodeEncode(text);
    hide Encode, Chunks, Decode;
    forall i | 0 <= i < |Chunks(text)|
      ensures |Chunks(text)[i]| <= TEXT_CHUNK_UTF16 && exists piece :: piece != [] && Chunks(text)[i] == Encode(piece)
    {
      assert IsPiece(pieces[i]);
    }
    forall other | FitsLimit(other) && Flatten(other) == text ensures |Chunks(text)| <= |other| {
      GreedyIsOptimal(pieces, other);
    }
  }

  lemma {:induction false} FlattenEncode(chunks: seq<seq<Unit>>, pieces: seq<string>)
    requires |chunks| == |pieces| && forall i :: 0 <= i < |chunks| ==> chunks[i] == Encode(pieces[i])
    ensures Flatten(chunks) == Encode(Flatten(pieces))
  {
    if pieces != [] {
      var n := |pieces| - 1;
      FlattenEncode(chunks[..n], pieces[..n]);
      EncodeConcat(Flatten(pieces[..n]), pieces[n]);
    }
  }

  // ---- greedy is optimal ----

  lemma {:induction false} FlattenFirst<T>(parts: seq<seq<T>>)
    requires parts != []
    ensures Flatten(parts) == parts[0] + Flatten(parts[1..])
    decreases |parts|
  {
    var n := |parts| - 1;
    if n > 0 {
      FlattenFirst(parts[..n]);
      assert parts[..n][1..] == parts[1..][..n - 1];
    }
  }

  /** No split of the text into pieces within the limit has fewer pieces than the greedy one. */
  lemma {:induction false} GreedyIsOptimal(greedy: seq<string>, other: seq<string>)
    requires Greedy(greedy) && FitsLimit(other) && Flatten(greedy) == Flatten(other)
    ensures |greedy| <= |other|
  {
    GreedyStaysAhead(greedy, other, []);
  }

  /** The same with `other` covering `extra` characters more at the front. */
  lemma {:induction false} GreedyStaysAhead(greedy: seq<string>, other: seq<string>, extra: string)
    requires Greedy(greedy) && FitsLimit(other) && extra + Flatten(greedy) == Flatten(other)
    ensures |greedy| <= |other|
    decreases |other|
  {
    if greedy != [] {
      FlattenFirst(greedy);
      assert Flatten(other) != [];
      FlattenFirst(other);
      var first, rest := other[0], Flatten(other[1..]);
      if |first| <= |extra| {
        DropBoth(extra, Flatten(greedy), first, rest);
        GreedyStaysAhead(greedy, other[1..], extra[|first|..]);
      } else {
        FirstPieceFits(greedy, first, rest, extra);
        Associative(extra, greedy[0], Flatten(greedy[1..]));
        DropBoth(extra + greedy[0], Flatten(greedy[1..]), first, rest);
        GreedyStaysAhead(greedy[1..], other[1..], (extra + greedy[0])[|first|..]);
      }
    }
  }

  /** A piece within the limit that starts no later than the first greedy piece ends no later. */
  lemma FirstPieceFits(greedy: seq<string>, first: string, rest: string, extra: string)
    requires Greedy(greedy) && greedy != [] && |Encode(first)| <= TEXT_CHUNK_UTF16
    requires extra + Flatten(greedy) == first + rest && |extra| < |first|
    ensures |first| <= |extra| + |greedy[0]|
    ensures |greedy| > 1 ==> Greedy(greedy[1..])
  {
    FlattenFirst(greedy);
    if |greedy| > 1 {
      FlattenFirst(greedy[1..]);
      hide Flatten, Encode;
      GreedyTail(greedy);
      assert Full(greedy[0], greedy[1]);
      var more := Flatten(greedy[1..][1..]);
      if |first| > |extra| + |greedy[0]| {
        Overlap(extra, greedy[0], greedy[1], more, first, rest);
        UnitsWithin(first, extra, greedy[0] + [greedy[1][0]]);
        EncodeAppend(greedy[0], greedy[1][0]);
        assert false;
      }
    }
  }

  lemma GreedyTail(greedy: seq<string>)
    requires Greedy(greedy) && |greedy| > 1
    ensures Greedy(greedy[1..])
  {
    hide IsPiece, Full;
    var tail := greedy[1..];
    assert forall i :: 0 <= i < |tail| ==> tail[i] == greedy[i + 1];
    forall i, j | 0 <= i && j == i + 1 < |tail| ensures Full(tail[i], tail[j]) {
      assert Full(greedy[i + 1], greedy[j + 1]);
    }
  }

  lemma Overlap<T>(extra: seq<T>, g: seq<T>, g': seq<T>, more: seq<T>, first: seq<T>, rest: seq<T>)
    requires extra + (g + (g' + more)) == first + rest && g' != [] && |first| > |extra| + |g|
    ensures extra + (g + [g'[0]]) <= first
  {
    var whole, next := extra + (g + (g' + more)), extra + (g + [g'[0]]);
    assert whole[..|next|] == next;
    assert (first + rest)[..|next|] == first[..|next|];
  }

  lemma UnitsWithin(text: string, front: string, middle: string)
    requires front + middle <= text
    ensures |Encode(middle)| <= |Encode(text)|
  {
    var back := text[|front + middle|..];
    assert text == (front + middle) + back;
    EncodeConcat(front + middle, back);
    EncodeConcat(front, middle);
  }
}

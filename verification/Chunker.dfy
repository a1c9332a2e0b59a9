/// `chunk`, which cuts long text into pieces that the speech model can take.
/// Characters are UTF-16 units.
module Chunker {
  /// Which characters trimming drops, and which the regular expressions take
  /// for white space: the two differ, and differently on the two platforms.
  datatype Charset = Charset(trims: char -> bool, spaces: char -> bool) {
    ghost predicate Valid() {
      && trims(' ') && spaces(' ') && !trims(',') && !spaces(',')
      && forall c :: 'a' <= c <= 'z' ==> !trims(c) && !spaces(c)
    }
  }

  function TrimStart(cs: Charset, s: string): string {
    if s != [] && cs.trims(s[0]) then TrimStart(cs, s[1..]) else s
  }

  function TrimEnd(cs: Charset, s: string): string {
    if s != [] && cs.trims(s[|s| - 1]) then TrimEnd(cs, s[..|s| - 1]) else s
  }

  function Trim(cs: Charset, s: string): string { TrimEnd(cs, TrimStart(cs, s)) }

  ghost predicate AllSpace(cs: Charset, s: string) { forall c :: c in s ==> cs.spaces(c) }

  ghost predicate NoSpace(cs: Charset, s: string) { forall c :: c in s ==> !cs.spaces(c) }

  /// `pieces` are what is left of `text` once some white space between them is
  /// cut out: what splitting at a regular expression that only matches white
  /// space gives.
  ghost predicate Cuts(cs: Charset, text: string, pieces: seq<string>)
    decreases |pieces|
  {
    pieces != [] &&
    if |pieces| == 1 then text == pieces[0]
    else exists n :: |pieces[0]| <= n <= |text| && text[..|pieces[0]|] == pieces[0] && AllSpace(cs, text[|pieces[0]|..n])
           && Cuts(cs, text[n..], pieces[1..])
  }

  ghost predicate Cutter(cs: Charset, split: string -> seq<string>) { forall text :: Cuts(cs, text, split(text)) }

  /// The first run of white space, up to the next other character.
  function SkipSpace(cs: Charset, s: string): string {
    if s != [] && cs.spaces(s[0]) then SkipSpace(cs, s[1..]) else s
  }

  /// `part.split(SPACES)`: an empty first or last piece stays.
  function Words(cs: Charset, s: string): (r: seq<string>)
    ensures r != []
    decreases |s|
  {
    if s == [] then [""]
    else if cs.spaces(s[0]) then (SkipShorter(cs, s[1..]); [""] + Words(cs, SkipSpace(cs, s[1..])))
    else
      var rest := Words(cs, s[1..]);
      [[s[0]] + rest[0]] + rest[1..]
  }

  lemma {:induction false} SkipShorter(cs: Charset, s: string)
    ensures |SkipSpace(cs, s)| <= |s|
  {
    if s != [] && cs.spaces(s[0]) { SkipShorter(cs, s[1..]); }
  }

  /// `sentence.split(",")`.
  function Parts(s: string): (r: seq<string>)
    ensures r != []
  {
    if s == [] then [""]
    else
      var rest := Parts(s[1..]);
      if s[0] == ',' then [""] + rest else [[s[0]] + rest[0]] + rest[1..]
  }

  /// Finished chunks and the one being filled.
  datatype Buffer = Buffer(chunks: seq<string>, current: string)

  function Flush(cs: Charset, b: Buffer): Buffer {
    if b.current == "" then b else Buffer(b.chunks + [Trim(cs, b.current)], "")
  }

  /// What sentences, parts and words have in common: start a new chunk when one
  /// more unit than the piece does not fit, then join with `sep`.
  function Add(cs: Charset, b: Buffer, piece: string, sep: string, maxLen: int): Buffer {
    var room := if |b.current| + |piece| + 1 > maxLen then Flush(cs, b) else b;
    room.(current := if room.current == "" then piece else room.current + sep + piece)
  }

  function AddAll(cs: Charset, b: Buffer, pieces: seq<string>, sep: string, maxLen: int): Buffer {
    if pieces == [] then b
    else Add(cs, AddAll(cs, b, pieces[..|pieces| - 1], sep, maxLen), pieces[|pieces| - 1], sep, maxLen)
  }

  /// A part that is too long goes out word by word, past what is being filled.
  function AddWords(cs: Charset, b: Buffer, part: string, maxLen: int): Buffer {
    Buffer(Flush(cs, AddAll(cs, Buffer(b.chunks, ""), Words(cs, part), " ", maxLen)).chunks, b.current)
  }

  function AddPart(cs: Charset, b: Buffer, raw: string, maxLen: int): Buffer {
    var part := Trim(cs, raw);
    if part == "" then b
    else if |part| > maxLen then AddWords(cs, b, part, maxLen)
    else Add(cs, b, part, ", ", maxLen)
  }

  function AddParts(cs: Charset, b: Buffer, parts: seq<string>, maxLen: int): Buffer {
    if parts == [] then b
    else AddPart(cs, AddParts(cs, b, parts[..|parts| - 1], maxLen), parts[|parts| - 1], maxLen)
  }

  function AddSentence(cs: Charset, b: Buffer, raw: string, maxLen: int): Buffer {
    var sentence := Trim(cs, raw);
    if sentence == "" then b
    else if |sentence| > maxLen then AddParts(cs, Flush(cs, b), Parts(sentence), maxLen)
    else Add(cs, b, sentence, " ", maxLen)
  }

  function AddSentences(cs: Charset, b: Buffer, sentences: seq<string>, maxLen: int): Buffer {
    if sentences == [] then b
    else AddSentence(cs, AddSentences(cs, b, sentences[..|sentences| - 1], maxLen), sentences[|sentences| - 1], maxLen)
  }

  function AddParagraph(cs: Charset, chunks: seq<string>, raw: string, split: string -> seq<string>, maxLen: int): seq<string> {
    var paragraph := Trim(cs, raw);
    if paragraph == "" then chunks
    else if |paragraph| <= maxLen then chunks + [paragraph]
    else Flush(cs, AddSentences(cs, Buffer(chunks, ""), split(paragraph), maxLen)).chunks
  }

  function AddParagraphs(cs: Charset, chunks: seq<string>, paragraphs: seq<string>, split: string -> seq<string>, maxLen: int): seq<string> {
    if paragraphs == [] then chunks
    else AddParagraph(cs, AddParagraphs(cs, chunks, paragraphs[..|paragraphs| - 1], split, maxLen), paragraphs[|paragraphs| - 1], split, maxLen)
  }

  /// What `chunk` returns.
  function Chunks(cs: Charset, text: string, paragraphs: string -> seq<string>, sentences: string -> seq<string>, maxLen: int): seq<string> {
    var trimmed := Trim(cs, text);
    if trimmed == "" then [] else AddParagraphs(cs, [], paragraphs(trimmed), sentences, maxLen)
  }

  /// The innermost loop: one oversized part.
  method PackWords(cs: Charset, chunks: seq<string>, part: string, maxLen: int) returns (r: seq<string>)
    ensures r == AddWords(cs, Buffer(chunks, ""), part, maxLen).chunks
  {
    r := chunks;
    var words, wordChunk, wordChunkLen := Words(cs, part), "", 0;
    for i := 0 to |words|
      invariant Buffer(r, wordChunk) == AddAll(cs, Buffer(chunks, ""), words[..i], " ", maxLen) && wordChunkLen == |wordChunk|
    {
      assert words[..i + 1][..i] == words[..i];
      var wordLen := |words[i]|;
      if wordChunkLen + wordLen + 1 > maxLen && wordChunk != "" {
        r, wordChunk, wordChunkLen := r + [Trim(cs, wordChunk)], "", 0;
      }
      if wordChunk != "" { wordChunk, wordChunkLen := wordChunk + " ", wordChunkLen + 1; }
      wordChunk, wordChunkLen := wordChunk + words[i], wordChunkLen + wordLen;
    }
    assert words[..|words|] == words;
    if wordChunk != "" { r := r + [Trim(cs, wordChunk)]; }
  }

  /// The loop over the parts of one oversized sentence.
  method PackParts(cs: Charset, b: Buffer, sentence: string, maxLen: int) returns (r: Buffer)
    ensures r == AddParts(cs, b, Parts(sentence), maxLen)
  {
    r := b;
    var parts, currentLen := Parts(sentence), |b.current|;
    for i := 0 to |parts|
      invariant r == AddParts(cs, b, parts[..i], maxLen) && currentLen == |r.current|
    {
      assert parts[..i + 1][..i] == parts[..i];
      var part := Trim(cs, parts[i]);
      if part != "" {
        if |part| > maxLen {
          var chunks := PackWords(cs, r.chunks, part, maxLen);
          r := r.(chunks := chunks);
        } else {
          if currentLen + |part| + 1 > maxLen && r.current != "" {
            r, currentLen := Buffer(r.chunks + [Trim(cs, r.current)], ""), 0;
          }
          if r.current != "" { r, currentLen := r.(current := r.current + ", "), currentLen + 2; }
          r, currentLen := r.(current := r.current + part), currentLen + |part|;
        }
      }
    }
    assert parts[..|parts|] == parts;
  }

  /// The loop over the sentences of one oversized paragraph.
  method PackSentences(cs: Charset, chunks: seq<string>, sentences: seq<string>, maxLen: int) returns (r: seq<string>)
    ensures r == Flush(cs, AddSentences(cs, Buffer(chunks, ""), sentences, maxLen)).chunks
  {
    var b, currentLen := Buffer(chunks, ""), 0;
    for i := 0 to |sentences|
      invariant b == AddSentences(cs, Buffer(chunks, ""), sentences[..i], maxLen) && currentLen == |b.current|
    {
      assert sentences[..i + 1][..i] == sentences[..i];
      var sentence := Trim(cs, sentences[i]);
      if sentence != "" {
        if |sentence| > maxLen {
          if b.current != "" { b := Buffer(b.chunks + [Trim(cs, b.current)], ""); }
          b := PackParts(cs, b, sentence, maxLen);
          currentLen := |b.current|;
        } else {
          if currentLen + |sentence| + 1 > maxLen && b.current != "" {
            b, currentLen := Buffer(b.chunks + [Trim(cs, b.current)], ""), 0;
          }
          if b.current != "" { b, currentLen := b.(current := b.current + " "), currentLen + 1; }
          b, currentLen := b.(current := b.current + sentence), currentLen + |sentence|;
        }
      }
    }
    assert sentences[..|sentences|] == sentences;
    r := if b.current != "" then b.chunks + [Trim(cs, b.current)] else b.chunks;
  }

  /// `chunk`.
  method Chunk(cs: Charset, text: string, paragraphs: string -> seq<string>, sentences: string -> seq<string>, maxLen: int)
    returns (chunks: seq<string>)
    ensures chunks == Chunks(cs, text, paragraphs, sentences, maxLen)
  {
    var trimmed := Trim(cs, text);
    chunks := [];
    if trimmed == "" { return; }
    var raws := paragraphs(trimmed);
    for i := 0 to |raws|
      invariant chunks == AddParagraphs(cs, [], raws[..i], sentences, maxLen)
    {
      assert raws[..i + 1][..i] == raws[..i];
      var paragraph := Trim(cs, raws[i]);
      if paragraph != "" {
        if |paragraph| <= maxLen {
          chunks := chunks + [paragraph];
        } else {
          chunks := PackSentences(cs, chunks, sentences(paragraph), maxLen);
        }
      }
    }
    assert raws[..|raws|] == raws;
  }

  lemma {:induction false} TrimStartSlices(cs: Charset, s: string) returns (i: nat)
    ensures i <= |s| && TrimStart(cs, s) == s[i..] && (forall k :: 0 <= k < i ==> cs.trims(s[k]))
    ensures TrimStart(cs, s) != "" ==> !cs.trims(TrimStart(cs, s)[0])
  {
    if s != "" && cs.trims(s[0]) {
      var j := TrimStartSlices(cs, s[1..]);
      i := j + 1;
      assert s[1..][j..] == s[i..];
      forall k | 0 <= k < i ensures cs.trims(s[k]) { if k > 0 { assert s[k] == s[1..][k - 1]; } }
    } else {
      i := 0;
      assert s[0..] == s;
    }
  }

  lemma {:induction false} TrimEndSlices(cs: Charset, s: string) returns (j: nat)
    ensures j <= |s| && TrimEnd(cs, s) == s[..j] && (forall k :: j <= k < |s| ==> cs.trims(s[k]))
    ensures s != "" && !cs.trims(s[0]) ==> TrimEnd(cs, s) != ""
  {
    if s != "" && cs.trims(s[|s| - 1]) {
      j := TrimEndSlices(cs, s[..|s| - 1]);
      assert s[..|s| - 1][..j] == s[..j];
      forall k | j <= k < |s| ensures cs.trims(s[k]) { if k < |s| - 1 { assert s[k] == s[..|s| - 1][k]; } }
    } else {
      j := |s|;
      assert s[..|s|] == s;
    }
  }

  /// Trimming cuts out a slice, which is empty only if nothing else was there.
  lemma TrimSlices(cs: Charset, s: string) returns (i: nat, j: nat)
    ensures i <= j <= |s| && Trim(cs, s) == s[i..j]
    ensures forall k :: 0 <= k < i || j <= k < |s| ==> cs.trims(s[k])
    ensures Trim(cs, s) == "" <==> forall k :: 0 <= k < |s| ==> cs.trims(s[k])
  {
    i := TrimStartSlices(cs, s);
    var n := TrimEndSlices(cs, s[i..]);
    j := i + n;
    assert s[i..][..n] == s[i..j];
    assert forall k :: i <= k < |s| ==> s[k] == s[i..][k - i];
  }

  /// What is neither white space nor a comma.
  function Skeleton(cs: Charset, s: string): string {
    if s == "" then ""
    else (if cs.trims(s[0]) || cs.spaces(s[0]) || s[0] == ',' then "" else [s[0]]) + Skeleton(cs, s[1..])
  }

  lemma {:induction false} SkeletonConcat(cs: Charset, a: string, b: string)
    ensures Skeleton(cs, a + b) == Skeleton(cs, a) + Skeleton(cs, b)
  {
    if a == "" {
      assert a + b == b;
    } else {
      assert (a + b)[1..] == a[1..] + b;
      SkeletonConcat(cs, a[1..], b);
    }
  }

  lemma {:induction false} SkeletonNone(cs: Charset, s: string)
    requires forall k :: 0 <= k < |s| ==> cs.trims(s[k]) || cs.spaces(s[k]) || s[k] == ','
    ensures Skeleton(cs, s) == ""
  {
    if s != "" { SkeletonNone(cs, s[1..]); }
  }

  lemma SkeletonTrim(cs: Charset, s: string)
    ensures Skeleton(cs, Trim(cs, s)) == Skeleton(cs, s)
  {
    var i, j := TrimSlices(cs, s);
    assert s == s[..i] + s[i..j] + s[j..];
    SkeletonNone(cs, s[..i]);
    SkeletonNone(cs, s[j..]);
    SkeletonConcat(cs, s[..i] + s[i..j], s[j..]);
    SkeletonConcat(cs, s[..i], s[i..j]);
  }

  function SkeletonAll(cs: Charset, pieces: seq<string>): string {
    if pieces == [] then "" else SkeletonAll(cs, pieces[..|pieces| - 1]) + Skeleton(cs, pieces[|pieces| - 1])
  }

  lemma SkeletonAdd(cs: Charset, pieces: seq<string>, piece: string)
    ensures SkeletonAll(cs, pieces + [piece]) == SkeletonAll(cs, pieces) + Skeleton(cs, piece)
  {
    assert (pieces + [piece])[..|pieces|] == pieces;
  }

  lemma {:induction false} SkeletonCons(cs: Charset, piece: string, pieces: seq<string>)
    ensures SkeletonAll(cs, [piece] + pieces) == Skeleton(cs, piece) + SkeletonAll(cs, pieces)
  {
    if pieces == [] {
      assert [piece] + pieces == [] + [piece];
      SkeletonAdd(cs, [], piece);
    } else {
      var n := |pieces| - 1;
      SkeletonCons(cs, piece, pieces[..n]);
      assert ([piece] + pieces)[..n + 1] == [piece] + pieces[..n];
    }
  }

  lemma SkeletonCutOnce(cs: Charset, text: string, m: nat, n: nat)
    requires m <= n <= |text| && AllSpace(cs, text[m..n])
    ensures Skeleton(cs, text) == Skeleton(cs, text[..m]) + Skeleton(cs, text[n..])
  {
    hide Skeleton;
    assert text == text[..m] + text[m..];
    assert text[m..] == text[m..n] + text[n..];
    SkeletonConcat(cs, text[..m], text[m..]);
    SkeletonConcat(cs, text[m..n], text[n..]);
    SkeletonNone(cs, text[m..n]);
  }

  /// Cutting, splitting at commas and splitting into words lose nothing.
  lemma {:induction false} SkeletonCuts(cs: Charset, text: string, pieces: seq<string>)
    requires Cuts(cs, text, pieces)
    ensures SkeletonAll(cs, pieces) == Skeleton(cs, text)
    decreases |pieces|
  {
    hide Skeleton, SkeletonAll;
    SkeletonCons(cs, pieces[0], pieces[1..]);
    assert [pieces[0]] + pieces[1..] == pieces;
    if |pieces| == 1 {
      SkeletonEmpty(cs);
    } else {
      var m := |pieces[0]|;
      var n :| m <= n <= |text| && text[..m] == pieces[0] && AllSpace(cs, text[m..n]) && Cuts(cs, text[n..], pieces[1..]);
      SkeletonCuts(cs, text[n..], pieces[1..]);
      SkeletonCutOnce(cs, text, m, n);
    }
  }

  lemma SkeletonEmpty(cs: Charset)
    ensures SkeletonAll(cs, []) == Skeleton(cs, "") == ""
  {}

  /// One more character in front of the first piece.
  lemma SkeletonHead(cs: Charset, c: char, rest: seq<string>)
    requires rest != []
    ensures SkeletonAll(cs, [[c] + rest[0]] + rest[1..]) == Skeleton(cs, [c]) + SkeletonAll(cs, rest)
  {
    hide Skeleton, SkeletonAll;
    SkeletonCons(cs, rest[0], rest[1..]);
    SkeletonCons(cs, [c] + rest[0], rest[1..]);
    assert [rest[0]] + rest[1..] == rest;
    SkeletonConcat(cs, [c], rest[0]);
  }

  lemma SkeletonFirst(cs: Charset, s: string)
    requires s != ""
    ensures Skeleton(cs, s) == Skeleton(cs, [s[0]]) + Skeleton(cs, s[1..])
  {
    assert s == [s[0]] + s[1..];
    SkeletonConcat(cs, [s[0]], s[1..]);
  }

  lemma {:induction false} SkeletonSkip(cs: Charset, s: string)
    ensures Skeleton(cs, SkipSpace(cs, s)) == Skeleton(cs, s)
  {
    if s != "" && cs.spaces(s[0]) { SkeletonSkip(cs, s[1..]); }
  }

  lemma {:induction false} SkeletonWords(cs: Charset, s: string)
    ensures SkeletonAll(cs, Words(cs, s)) == Skeleton(cs, s)
    decreases |s|
  {
    hide Skeleton, SkeletonAll;
    SkeletonEmpty(cs);
    if s == "" {
      SkeletonCons(cs, "", []);
      assert [""] + [] == Words(cs, s);
    } else if cs.spaces(s[0]) {
      var rest := SkipSpace(cs, s[1..]);
      SkipShorter(cs, s[1..]);
      SkeletonWords(cs, rest);
      SkeletonCons(cs, "", Words(cs, rest));
      SkeletonSkip(cs, s[1..]);
      SkeletonFirst(cs, s);
      SkeletonNone(cs, [s[0]]);
    } else {
      SkeletonWords(cs, s[1..]);
      SkeletonHead(cs, s[0], Words(cs, s[1..]));
      SkeletonFirst(cs, s);
    }
  }

  lemma {:induction false} SkeletonParts(cs: Charset, s: string)
    ensures SkeletonAll(cs, Parts(s)) == Skeleton(cs, s)
  {
    hide Skeleton, SkeletonAll;
    SkeletonEmpty(cs);
    if s == "" {
      SkeletonCons(cs, "", []);
      assert [""] + [] == Parts(s);
    } else {
      SkeletonParts(cs, s[1..]);
      SkeletonFirst(cs, s);
      if s[0] == ',' {
        SkeletonCons(cs, "", Parts(s[1..]));
        SkeletonNone(cs, [s[0]]);
      } else {
        SkeletonHead(cs, s[0], Parts(s[1..]));
      }
    }
  }

  /// What a buffer holds, in order.
  function Held(cs: Charset, b: Buffer): string { SkeletonAll(cs, b.chunks) + Skeleton(cs, b.current) }

  lemma FlushHolds(cs: Charset, b: Buffer)
    ensures Held(cs, Flush(cs, b)) == Held(cs, b)
  {
    if b.current != "" {
      SkeletonAdd(cs, b.chunks, Trim(cs, b.current));
      SkeletonTrim(cs, b.current);
    }
  }

  lemma SkeletonJoin(cs: Charset, a: string, sep: string, b: string)
    requires cs.Valid() && (sep == " " || sep == ", ")
    ensures Skeleton(cs, a + sep + b) == Skeleton(cs, a) + Skeleton(cs, b)
  {
    hide Skeleton;
    SkeletonConcat(cs, a + sep, b);
    SkeletonConcat(cs, a, sep);
    SkeletonNone(cs, sep);
  }

  lemma Assoc(a: string, b: string, c: string)
    ensures (a + b) + c == a + (b + c)
  {}

  lemma AddHolds(cs: Charset, b: Buffer, piece: string, sep: string, maxLen: int)
    requires cs.Valid() && (sep == " " || sep == ", ")
    ensures Held(cs, Add(cs, b, piece, sep, maxLen)) == Held(cs, b) + Skeleton(cs, piece)
  {
    hide Skeleton, SkeletonAll, Flush;
    FlushHolds(cs, b);
    SkeletonEmpty(cs);
    var room := if |b.current| + |piece| + 1 > maxLen then Flush(cs, b) else b;
    SkeletonJoin(cs, room.current, sep, piece);
    Assoc(SkeletonAll(cs, room.chunks), Skeleton(cs, room.current), Skeleton(cs, piece));
  }

  lemma {:induction false} AddAllHolds(cs: Charset, b: Buffer, pieces: seq<string>, sep: string, maxLen: int)
    requires cs.Valid() && (sep == " " || sep == ", ")
    ensures Held(cs, AddAll(cs, b, pieces, sep, maxLen)) == Held(cs, b) + SkeletonAll(cs, pieces)
  {
    hide Skeleton, Held, Add;
    if pieces != [] {
      var n := |pieces| - 1;
      AddAllHolds(cs, b, pieces[..n], sep, maxLen);
      AddHolds(cs, AddAll(cs, b, pieces[..n], sep, maxLen), pieces[n], sep, maxLen);
      Assoc(Held(cs, b), SkeletonAll(cs, pieces[..n]), Skeleton(cs, pieces[n]));
    }
  }

  lemma AddWordsHolds(cs: Charset, b: Buffer, part: string, maxLen: int)
    requires cs.Valid()
    ensures Held(cs, AddWords(cs, b, part, maxLen)) == SkeletonAll(cs, b.chunks) + Skeleton(cs, part) + Skeleton(cs, b.current)
  {
    hide Skeleton, SkeletonAll, AddAll, Words;
    var start := Buffer(b.chunks, "");
    var full := AddAll(cs, start, Words(cs, part), " ", maxLen);
    SkeletonEmpty(cs);
    AddAllHolds(cs, start, Words(cs, part), " ", maxLen);
    FlushHolds(cs, full);
    SkeletonWords(cs, part);
    assert Held(cs, Flush(cs, full)) == SkeletonAll(cs, Flush(cs, full).chunks);
  }

  predicate Oversized(cs: Charset, raw: string, maxLen: int) { Trim(cs, raw) != "" && |Trim(cs, raw)| > maxLen }

  /// Nothing is lost or duplicated; the order changes only where an oversized
  /// part meets something held back.
  lemma AddPartHolds(cs: Charset, b: Buffer, raw: string, maxLen: int)
    requires cs.Valid()
    ensures multiset(Held(cs, AddPart(cs, b, raw, maxLen))) == multiset(Held(cs, b)) + multiset(Skeleton(cs, raw))
    ensures b.current == "" || !Oversized(cs, raw, maxLen) ==> Held(cs, AddPart(cs, b, raw, maxLen)) == Held(cs, b) + Skeleton(cs, raw)
  {
    hide Skeleton, SkeletonAll, Add, AddWords, Trim;
    var part := Trim(cs, raw);
    SkeletonTrim(cs, raw);
    SkeletonEmpty(cs);
    if part == "" {
    } else if |part| > maxLen {
      AddWordsHolds(cs, b, part, maxLen);
    } else {
      AddHolds(cs, b, part, ", ", maxLen);
    }
  }

  /// An oversized part is met while a shorter one before it is held back.
  ghost predicate Overtakes(cs: Charset, b: Buffer, parts: seq<string>, maxLen: int) {
    exists k :: 0 <= k < |parts| && OvertakesAt(cs, b, parts, k, maxLen)
  }

  ghost predicate OvertakesAt(cs: Charset, b: Buffer, parts: seq<string>, k: nat, maxLen: int)
    requires k < |parts|
  {
    Oversized(cs, parts[k], maxLen) && AddParts(cs, b, parts[..k], maxLen).current != ""
  }

  lemma OvertakesLess(cs: Charset, b: Buffer, parts: seq<string>, n: nat, maxLen: int)
    requires n <= |parts| && Overtakes(cs, b, parts[..n], maxLen)
    ensures Overtakes(cs, b, parts, maxLen)
  {
    var k :| 0 <= k < n && OvertakesAt(cs, b, parts[..n], k, maxLen);
    assert parts[..n][..k] == parts[..k];
    assert OvertakesAt(cs, b, parts, k, maxLen);
  }

  lemma {:induction false} AddPartsHolds(cs: Charset, b: Buffer, parts: seq<string>, maxLen: int)
    requires cs.Valid()
    ensures multiset(Held(cs, AddParts(cs, b, parts, maxLen))) == multiset(Held(cs, b)) + multiset(SkeletonAll(cs, parts))
    ensures !Overtakes(cs, b, parts, maxLen) ==> Held(cs, AddParts(cs, b, parts, maxLen)) == Held(cs, b) + SkeletonAll(cs, parts)
  {
    hide Skeleton, Held, AddPart, Trim, Overtakes;
    if parts != [] {
      var n := |parts| - 1;
      AddPartsHolds(cs, b, parts[..n], maxLen);
      if Overtakes(cs, b, parts[..n], maxLen) { OvertakesLess(cs, b, parts, n, maxLen); }
      LastOvertakes(cs, b, parts, maxLen);
      AddPartHolds(cs, AddParts(cs, b, parts[..n], maxLen), parts[n], maxLen);
      Assoc(Held(cs, b), SkeletonAll(cs, parts[..n]), Skeleton(cs, parts[n]));
    }
  }

  lemma LastOvertakes(cs: Charset, b: Buffer, parts: seq<string>, maxLen: int)
    requires parts != []
    ensures !Overtakes(cs, b, parts, maxLen) ==> !OvertakesAt(cs, b, parts, |parts| - 1, maxLen)
  {}

  /// Only what is held back matters, not the chunks before.
  lemma {:induction false} CurrentOnly(cs: Charset, b: Buffer, c: Buffer, parts: seq<string>, maxLen: int)
    requires b.current == c.current
    ensures AddParts(cs, b, parts, maxLen).current == AddParts(cs, c, parts, maxLen).current
  {
    if parts != [] { CurrentOnly(cs, b, c, parts[..|parts| - 1], maxLen); }
  }

  lemma OvertakesOnly(cs: Charset, b: Buffer, c: Buffer, parts: seq<string>, maxLen: int)
    requires b.current == c.current && Overtakes(cs, b, parts, maxLen)
    ensures Overtakes(cs, c, parts, maxLen)
  {
    var k :| 0 <= k < |parts| && OvertakesAt(cs, b, parts, k, maxLen);
    CurrentOnly(cs, b, c, parts[..k], maxLen);
    assert OvertakesAt(cs, c, parts, k, maxLen);
  }

  const None := Buffer([], "")

  /// In no sentence that has to be cut at commas does a part overtake another.
  ghost predicate SentenceOrdered(cs: Charset, raw: string, maxLen: int) {
    |Trim(cs, raw)| > maxLen ==> !Overtakes(cs, None, Parts(Trim(cs, raw)), maxLen)
  }

  ghost predicate SentencesOrdered(cs: Charset, raws: seq<string>, maxLen: int) {
    forall i :: 0 <= i < |raws| ==> SentenceOrdered(cs, raws[i], maxLen)
  }

  ghost predicate ParagraphOrdered(cs: Charset, raw: string, split: string -> seq<string>, maxLen: int) {
    |Trim(cs, raw)| > maxLen ==> SentencesOrdered(cs, split(Trim(cs, raw)), maxLen)
  }

  ghost predicate ParagraphsOrdered(cs: Charset, raws: seq<string>, split: string -> seq<string>, maxLen: int) {
    forall i :: 0 <= i < |raws| ==> ParagraphOrdered(cs, raws[i], split, maxLen)
  }

  ghost predicate SliceOf(part: string, text: string) { exists i, j :: 0 <= i <= j <= |text| && part == text[i..j] }

  lemma {:induction false} CutsAreSlices(cs: Charset, text: string, pieces: seq<string>, k: nat)
    requires Cuts(cs, text, pieces) && k < |pieces|
    ensures SliceOf(pieces[k], text)
    decreases |pieces|
  {
    if |pieces| == 1 {
      assert text == text[0..|text|];
    } else {
      var m := |pieces[0]|;
      var n :| m <= n <= |text| && text[..m] == pieces[0] && AllSpace(cs, text[m..n]) && Cuts(cs, text[n..], pieces[1..]);
      if k == 0 {
        assert text[..m] == text[0..m];
      } else {
        CutsAreSlices(cs, text[n..], pieces[1..], k - 1);
        var i, j :| 0 <= i <= j <= |text[n..]| && pieces[k] == text[n..][i..j];
        assert text[n..][i..j] == text[n + i..n + j];
      }
    }
  }

  lemma {:induction false} PartsAreSlices(s: string, k: nat)
    requires k < |Parts(s)|
    ensures SliceOf(Parts(s)[k], s) && ',' !in Parts(s)[k]
    ensures k == 0 ==> |Parts(s)[0]| <= |s| && Parts(s)[0] == s[..|Parts(s)[0]|]
  {
    if s == "" {
      assert s == s[0..0];
    } else {
      var rest := Parts(s[1..]);
      if s[0] == ',' {
        if k == 0 { assert "" == s[0..0]; } else { PartsAreSlices(s[1..], k - 1); Shift(rest[k - 1], s); }
      } else if k == 0 {
        PartsAreSlices(s[1..], 0);
        var n := |rest[0]| + 1;
        assert Parts(s)[0] == s[..n] == s[0..n];
      } else {
        PartsAreSlices(s[1..], k);
        Shift(rest[k], s);
      }
    }
  }

  lemma Shift(part: string, s: string)
    requires s != "" && SliceOf(part, s[1..])
    ensures SliceOf(part, s)
  {
    var i, j :| 0 <= i <= j <= |s[1..]| && part == s[1..][i..j];
    assert part == s[i + 1..j + 1];
  }

  lemma AddSentenceHolds(cs: Charset, b: Buffer, raw: string, maxLen: int)
    requires cs.Valid()
    ensures multiset(Held(cs, AddSentence(cs, b, raw, maxLen))) == multiset(Held(cs, b)) + multiset(Skeleton(cs, raw))
    ensures SentenceOrdered(cs, raw, maxLen) ==> Held(cs, AddSentence(cs, b, raw, maxLen)) == Held(cs, b) + Skeleton(cs, raw)
  {
    var sentence := Trim(cs, raw);
    SkeletonTrim(cs, raw);
    if sentence == "" {
    } else if |sentence| > maxLen {
      FlushHolds(cs, b);
      AddPartsHolds(cs, Flush(cs, b), Parts(sentence), maxLen);
      SkeletonParts(cs, sentence);
      if Overtakes(cs, Flush(cs, b), Parts(sentence), maxLen) { OvertakesOnly(cs, Flush(cs, b), None, Parts(sentence), maxLen); }
    } else {
      AddHolds(cs, b, sentence, " ", maxLen);
    }
  }

  lemma {:induction false} AddSentencesHolds(cs: Charset, b: Buffer, sentences: seq<string>, maxLen: int)
    requires cs.Valid()
    ensures multiset(Held(cs, AddSentences(cs, b, sentences, maxLen))) == multiset(Held(cs, b)) + multiset(SkeletonAll(cs, sentences))
    ensures SentencesOrdered(cs, sentences, maxLen) ==> Held(cs, AddSentences(cs, b, sentences, maxLen)) == Held(cs, b) + SkeletonAll(cs, sentences)
  {
    hide Skeleton, Held, AddSentence, SentenceOrdered;
    if sentences != [] {
      var n := |sentences| - 1;
      AddSentencesHolds(cs, b, sentences[..n], maxLen);
      AddSentenceHolds(cs, AddSentences(cs, b, sentences[..n], maxLen), sentences[n], maxLen);
      Assoc(Held(cs, b), SkeletonAll(cs, sentences[..n]), Skeleton(cs, sentences[n]));
    }
  }

  /// A paragraph that is too long, sentence by sentence.
  lemma LongParagraphHolds(cs: Charset, chunks: seq<string>, paragraph: string, sentences: seq<string>, maxLen: int)
    requires cs.Valid() && Cuts(cs, paragraph, sentences)
    ensures var r := Flush(cs, AddSentences(cs, Buffer(chunks, ""), sentences, maxLen)).chunks;
      && multiset(SkeletonAll(cs, r)) == multiset(SkeletonAll(cs, chunks)) + multiset(Skeleton(cs, paragraph))
      && (SentencesOrdered(cs, sentences, maxLen) ==> SkeletonAll(cs, r) == SkeletonAll(cs, chunks) + Skeleton(cs, paragraph))
  {
    hide Skeleton, SkeletonAll, AddSentences, Trim, SentencesOrdered, Cuts;
    SkeletonEmpty(cs);
    var b := AddSentences(cs, Buffer(chunks, ""), sentences, maxLen);
    AddSentencesHolds(cs, Buffer(chunks, ""), sentences, maxLen);
    FlushHolds(cs, b);
    assert Held(cs, Flush(cs, b)) == SkeletonAll(cs, Flush(cs, b).chunks);
    assert Held(cs, Buffer(chunks, "")) == SkeletonAll(cs, chunks);
    SkeletonCuts(cs, paragraph, sentences);
  }

  lemma AddParagraphHolds(cs: Charset, chunks: seq<string>, raw: string, split: string -> seq<string>, maxLen: int)
    requires cs.Valid() && Cutter(cs, split)
    ensures var r := AddParagraph(cs, chunks, raw, split, maxLen);
      && multiset(SkeletonAll(cs, r)) == multiset(SkeletonAll(cs, chunks)) + multiset(Skeleton(cs, raw))
      && (ParagraphOrdered(cs, raw, split, maxLen) ==> SkeletonAll(cs, r) == SkeletonAll(cs, chunks) + Skeleton(cs, raw))
  {
    hide Skeleton, SkeletonAll, AddSentences, Trim, SentencesOrdered, Cuts, Flush;
    var paragraph := Trim(cs, raw);
    SkeletonTrim(cs, raw);
    SkeletonEmpty(cs);
    if paragraph == "" {
    } else if |paragraph| <= maxLen {
      SkeletonAdd(cs, chunks, paragraph);
    } else {
      LongParagraphHolds(cs, chunks, paragraph, split(paragraph), maxLen);
    }
  }

  lemma {:induction false} AddParagraphsHolds(cs: Charset, paragraphs: seq<string>, split: string -> seq<string>, maxLen: int)
    requires cs.Valid() && Cutter(cs, split)
    ensures var r := AddParagraphs(cs, [], paragraphs, split, maxLen);
      && multiset(SkeletonAll(cs, r)) == multiset(SkeletonAll(cs, paragraphs))
      && (ParagraphsOrdered(cs, paragraphs, split, maxLen) ==> SkeletonAll(cs, r) == SkeletonAll(cs, paragraphs))
  {
    if paragraphs != [] {
      var n := |paragraphs| - 1;
      AddParagraphsHolds(cs, paragraphs[..n], split, maxLen);
      AddParagraphHolds(cs, AddParagraphs(cs, [], paragraphs[..n], split, maxLen), paragraphs[n], split, maxLen);
    }
  }

  /// For every text and limit, the characters other than white space and commas
  /// come out exactly as often as they went in.
  lemma {:induction false} NothingIsLost(cs: Charset, text: string, paragraphs: string -> seq<string>, sentences: string -> seq<string>, maxLen: int)
    requires cs.Valid() && Cutter(cs, paragraphs) && Cutter(cs, sentences)
    ensures multiset(SkeletonAll(cs, Chunks(cs, text, paragraphs, sentences, maxLen))) == multiset(Skeleton(cs, text))
  {
    var trimmed := Trim(cs, text);
    SkeletonTrim(cs, text);
    if trimmed != "" {
      AddParagraphsHolds(cs, paragraphs(trimmed), sentences, maxLen);
      SkeletonCuts(cs, trimmed, paragraphs(trimmed));
    }
  }

  /// And in order, if no oversized part overtakes another in any sentence that
  /// has to be cut at commas.
  lemma {:induction false} OrderIsKept(cs: Charset, text: string, paragraphs: string -> seq<string>, sentences: string -> seq<string>, maxLen: int)
    requires cs.Valid() && Cutter(cs, paragraphs) && Cutter(cs, sentences)
    requires ParagraphsOrdered(cs, paragraphs(Trim(cs, text)), sentences, maxLen)
    ensures SkeletonAll(cs, Chunks(cs, text, paragraphs, sentences, maxLen)) == Skeleton(cs, text)
  {
    hide Skeleton, SkeletonAll, AddParagraph, ParagraphsOrdered, Cuts;
    var trimmed := Trim(cs, text);
    SkeletonTrim(cs, text);
    SkeletonEmpty(cs);
    if trimmed != "" {
      AddParagraphsHolds(cs, paragraphs(trimmed), sentences, maxLen);
      SkeletonCuts(cs, trimmed, paragraphs(trimmed));
    }
  }

  /// No part of a sentence that has to be cut at commas exceeds the limit.
  ghost predicate PartsFit(cs: Charset, text: string, paragraphs: string -> seq<string>, sentences: string -> seq<string>, maxLen: int) {
    forall p, s, part ::
      (p in paragraphs(Trim(cs, text)) && |Trim(cs, p)| > maxLen && s in sentences(Trim(cs, p)) && |Trim(cs, s)| > maxLen && part in Parts(Trim(cs, s)))
        ==> |Trim(cs, part)| <= maxLen
  }

  /// In particular, the order is kept whenever no comma part exceeds the limit.
  lemma ShortPartsKeepOrder(cs: Charset, text: string, paragraphs: string -> seq<string>, sentences: string -> seq<string>, maxLen: int)
    requires cs.Valid() && Cutter(cs, paragraphs) && Cutter(cs, sentences) && PartsFit(cs, text, paragraphs, sentences, maxLen)
    ensures SkeletonAll(cs, Chunks(cs, text, paragraphs, sentences, maxLen)) == Skeleton(cs, text)
  {
    hide Trim, Parts, Skeleton, SkeletonAll, Chunks;
    var raws := paragraphs(Trim(cs, text));
    forall i | 0 <= i < |raws| ensures ParagraphOrdered(cs, raws[i], sentences, maxLen) {
      assert raws[i] in raws;
      forall j | |Trim(cs, raws[i])| > maxLen && 0 <= j < |sentences(Trim(cs, raws[i]))|
        ensures SentenceOrdered(cs, sentences(Trim(cs, raws[i]))[j], maxLen)
      {
        var s := sentences(Trim(cs, raws[i]))[j];
        forall k | |Trim(cs, s)| > maxLen && 0 <= k < |Parts(Trim(cs, s))| ensures !OvertakesAt(cs, None, Parts(Trim(cs, s)), k, maxLen) {
          assert Parts(Trim(cs, s))[k] in Parts(Trim(cs, s));
        }
      }
    }
    OrderIsKept(cs, text, paragraphs, sentences, maxLen);
  }

  /// Short enough, or one word without white space.
  ghost predicate Fits(cs: Charset, chunk: string, maxLen: int) { |chunk| <= maxLen + 1 || NoSpace(cs, chunk) }

  ghost predicate AllFit(cs: Charset, chunks: seq<string>, maxLen: int) {
    forall i :: 0 <= i < |chunks| ==> Fits(cs, chunks[i], maxLen)
  }

  /// Something is left of it when trimmed, if it is anything.
  ghost predicate Inked(cs: Charset, s: string) { s == "" || exists k :: 0 <= k < |s| && !cs.trims(s[k]) }

  ghost predicate AllFull(chunks: seq<string>) { forall i :: 0 <= i < |chunks| ==> chunks[i] != "" }

  /// Every character that trimming drops is white space to the expressions.
  ghost predicate Plain(cs: Charset, s: string) { forall k :: 0 <= k < |s| && cs.trims(s[k]) ==> cs.spaces(s[k]) }

  lemma FlushFits(cs: Charset, b: Buffer, maxLen: int)
    requires AllFit(cs, b.chunks, maxLen) && Fits(cs, b.current, maxLen)
    ensures AllFit(cs, Flush(cs, b).chunks, maxLen) && Fits(cs, Flush(cs, b).current, maxLen)
    ensures Inked(cs, b.current) && AllFull(b.chunks) ==> AllFull(Flush(cs, b).chunks)
  {
    if b.current != "" {
      var i, j := TrimSlices(cs, b.current);
      assert forall c :: c in b.current[i..j] ==> c in b.current;
    } else {
      assert NoSpace(cs, "");
    }
  }

  /// A piece to be joined: it fits by itself, or is one word.
  ghost predicate Joinable(cs: Charset, piece: string, maxLen: int) { |piece| <= maxLen || NoSpace(cs, piece) }

  lemma AddFits(cs: Charset, b: Buffer, piece: string, sep: string, maxLen: int)
    requires AllFit(cs, b.chunks, maxLen) && Fits(cs, b.current, maxLen) && Joinable(cs, piece, maxLen) && |sep| <= 2
    ensures var r := Add(cs, b, piece, sep, maxLen); AllFit(cs, r.chunks, maxLen) && Fits(cs, r.current, maxLen)
    ensures Inked(cs, b.current) && AllFull(b.chunks) && Inked(cs, piece) ==>
              var r := Add(cs, b, piece, sep, maxLen); Inked(cs, r.current) && AllFull(r.chunks)
  {
    FlushFits(cs, b, maxLen);
    var r := Add(cs, b, piece, sep, maxLen);
    var room := if |b.current| + |piece| + 1 > maxLen then Flush(cs, b) else b;
    if room.current != "" && Inked(cs, b.current) {
      var k :| 0 <= k < |room.current| && !cs.trims(room.current[k]);
      assert r.current[k] == room.current[k];
    }
  }

  lemma {:induction false} AddAllFits(cs: Charset, b: Buffer, pieces: seq<string>, sep: string, maxLen: int)
    requires AllFit(cs, b.chunks, maxLen) && Fits(cs, b.current, maxLen) && |sep| <= 2
    requires forall i :: 0 <= i < |pieces| ==> Joinable(cs, pieces[i], maxLen)
    ensures var r := AddAll(cs, b, pieces, sep, maxLen); AllFit(cs, r.chunks, maxLen) && Fits(cs, r.current, maxLen)
    ensures Inked(cs, b.current) && AllFull(b.chunks) && (forall i :: 0 <= i < |pieces| ==> Inked(cs, pieces[i])) ==>
              var r := AddAll(cs, b, pieces, sep, maxLen); Inked(cs, r.current) && AllFull(r.chunks)
  {
    hide Add, Fits, Joinable, Inked;
    if pieces != [] {
      var n := |pieces| - 1;
      AddAllFits(cs, b, pieces[..n], sep, maxLen);
      AddFits(cs, AddAll(cs, b, pieces[..n], sep, maxLen), pieces[n], sep, maxLen);
    }
  }

  lemma {:induction false} SkipIsPlain(cs: Charset, s: string)
    requires Plain(cs, s)
    ensures Plain(cs, SkipSpace(cs, s))
  {
    if s != "" && cs.spaces(s[0]) { SkipIsPlain(cs, s[1..]); }
  }

  /// Words hold no white space; and of plain text, each is inked.
  lemma {:induction false} WordsAreWords(cs: Charset, s: string)
    ensures forall i :: 0 <= i < |Words(cs, s)| ==> NoSpace(cs, Words(cs, s)[i])
    ensures Plain(cs, s) ==> forall i :: 0 <= i < |Words(cs, s)| ==> Inked(cs, Words(cs, s)[i])
    decreases |s|
  {
    if s == "" {
    } else if cs.spaces(s[0]) {
      SkipShorter(cs, s[1..]);
      WordsAreWords(cs, SkipSpace(cs, s[1..]));
      if Plain(cs, s) { SkipIsPlain(cs, s[1..]); }
    } else {
      WordsAreWords(cs, s[1..]);
      var first := Words(cs, s)[0];
      assert first[0] == s[0];
    }
  }

  lemma AddWordsFits(cs: Charset, b: Buffer, part: string, maxLen: int)
    requires AllFit(cs, b.chunks, maxLen)
    ensures AllFit(cs, AddWords(cs, b, part, maxLen).chunks, maxLen)
    ensures AllFull(b.chunks) && Plain(cs, part) ==> AllFull(AddWords(cs, b, part, maxLen).chunks)
  {
    hide Add, Words, Flush, Plain;
    var start := Buffer(b.chunks, "");
    assert NoSpace(cs, "") && Fits(cs, "", maxLen) && Inked(cs, "");
    WordsAreWords(cs, part);
    AddAllFits(cs, start, Words(cs, part), " ", maxLen);
    FlushFits(cs, AddAll(cs, start, Words(cs, part), " ", maxLen), maxLen);
  }

  lemma TrimIsInked(cs: Charset, s: string)
    ensures Inked(cs, Trim(cs, s))
    ensures Plain(cs, s) ==> Plain(cs, Trim(cs, s))
  {
    var i, j := TrimSlices(cs, s);
    var t := s[i..j];
    if t != "" {
      var k :| 0 <= k < |s| && !cs.trims(s[k]);
      assert t[k - i] == s[k];
    }
    if Plain(cs, s) {
      forall k | 0 <= k < |t| && cs.trims(t[k]) ensures cs.spaces(t[k]) { assert t[k] == s[i + k]; }
    }
  }

  /// A buffer whose chunks fit, and when `plain` are not empty.
  ghost predicate Sound(cs: Charset, b: Buffer, maxLen: int, plain: bool) {
    AllFit(cs, b.chunks, maxLen) && Fits(cs, b.current, maxLen) && (plain ==> Inked(cs, b.current) && AllFull(b.chunks))
  }

  lemma AddPartSound(cs: Charset, b: Buffer, raw: string, maxLen: int, plain: bool)
    requires Sound(cs, b, maxLen, plain) && (plain ==> Plain(cs, raw))
    ensures Sound(cs, AddPart(cs, b, raw, maxLen), maxLen, plain)
  {
    hide Trim, Add, AddWords, Plain, Inked, Fits;
    var part := Trim(cs, raw);
    TrimIsInked(cs, raw);
    if part == "" {
    } else if |part| > maxLen {
      AddWordsFits(cs, b, part, maxLen);
      assert AddWords(cs, b, part, maxLen).current == b.current by { WordsKeep(cs, b, part, maxLen); }
    } else {
      AddFits(cs, b, part, ", ", maxLen);
    }
  }

  lemma WordsKeep(cs: Charset, b: Buffer, part: string, maxLen: int)
    ensures AddWords(cs, b, part, maxLen).current == b.current
  {}

  ghost predicate AllPlain(cs: Charset, pieces: seq<string>) { forall i :: 0 <= i < |pieces| ==> Plain(cs, pieces[i]) }

  lemma {:induction false} AddPartsSound(cs: Charset, b: Buffer, parts: seq<string>, maxLen: int, plain: bool)
    requires Sound(cs, b, maxLen, plain) && (plain ==> AllPlain(cs, parts))
    ensures Sound(cs, AddParts(cs, b, parts, maxLen), maxLen, plain)
  {
    hide AddPart, Sound, Plain;
    if parts != [] {
      var n := |parts| - 1;
      AddPartsSound(cs, b, parts[..n], maxLen, plain);
      AddPartSound(cs, AddParts(cs, b, parts[..n], maxLen), parts[n], maxLen, plain);
    }
  }

  lemma PlainSlice(cs: Charset, part: string, text: string)
    requires Plain(cs, text) && SliceOf(part, text)
    ensures Plain(cs, part)
  {
    var i, j :| 0 <= i <= j <= |text| && part == text[i..j];
    forall k | 0 <= k < |part| && cs.trims(part[k]) ensures cs.spaces(part[k]) { assert part[k] == text[i + k]; }
  }

  lemma FlushSound(cs: Charset, b: Buffer, maxLen: int, plain: bool)
    requires Sound(cs, b, maxLen, plain)
    ensures Sound(cs, Flush(cs, b), maxLen, plain) && Flush(cs, b).current == ""
  {
    FlushFits(cs, b, maxLen);
    assert NoSpace(cs, "");
  }

  lemma AddSentenceSound(cs: Charset, b: Buffer, raw: string, maxLen: int, plain: bool)
    requires Sound(cs, b, maxLen, plain) && (plain ==> Plain(cs, raw))
    ensures Sound(cs, AddSentence(cs, b, raw, maxLen), maxLen, plain)
  {
    hide Trim, Add, AddParts, Plain, Inked, Fits, Flush, SliceOf;
    var sentence := Trim(cs, raw);
    TrimIsInked(cs, raw);
    if sentence == "" {
    } else if |sentence| > maxLen {
      FlushSound(cs, b, maxLen, plain);
      forall k | 0 <= k < |Parts(sentence)| ensures plain ==> Plain(cs, Parts(sentence)[k]) {
        PartsAreSlices(sentence, k);
        if plain { PlainSlice(cs, Parts(sentence)[k], sentence); }
      }
      AddPartsSound(cs, Flush(cs, b), Parts(sentence), maxLen, plain);
    } else {
      AddFits(cs, b, sentence, " ", maxLen);
    }
  }

  lemma {:induction false} AddSentencesSound(cs: Charset, b: Buffer, sentences: seq<string>, maxLen: int, plain: bool)
    requires Sound(cs, b, maxLen, plain) && (plain ==> AllPlain(cs, sentences))
    ensures Sound(cs, AddSentences(cs, b, sentences, maxLen), maxLen, plain)
  {
    hide AddSentence, Sound, Plain;
    if sentences != [] {
      var n := |sentences| - 1;
      AddSentencesSound(cs, b, sentences[..n], maxLen, plain);
      AddSentenceSound(cs, AddSentences(cs, b, sentences[..n], maxLen), sentences[n], maxLen, plain);
    }
  }

  lemma CutsArePlain(cs: Charset, text: string, pieces: seq<string>)
    requires Cuts(cs, text, pieces) && Plain(cs, text)
    ensures AllPlain(cs, pieces)
  {
    forall i | 0 <= i < |pieces| ensures Plain(cs, pieces[i]) {
      CutsAreSlices(cs, text, pieces, i);
      PlainSlice(cs, pieces[i], text);
    }
  }

  lemma AddParagraphSound(cs: Charset, chunks: seq<string>, raw: string, split: string -> seq<string>, maxLen: int, plain: bool)
    requires Cutter(cs, split) && AllFit(cs, chunks, maxLen) && (plain ==> AllFull(chunks) && Plain(cs, raw))
    ensures var r := AddParagraph(cs, chunks, raw, split, maxLen); AllFit(cs, r, maxLen) && (plain ==> AllFull(r))
  {
    hide Trim, AddSentences, Plain, Flush, Cuts;
    var paragraph := Trim(cs, raw);
    TrimIsInked(cs, raw);
    if paragraph != "" && |paragraph| > maxLen {
      assert NoSpace(cs, "");
      if plain { CutsArePlain(cs, paragraph, split(paragraph)); }
      AddSentencesSound(cs, Buffer(chunks, ""), split(paragraph), maxLen, plain);
      FlushSound(cs, AddSentences(cs, Buffer(chunks, ""), split(paragraph), maxLen), maxLen, plain);
    }
  }

  lemma {:induction false} AddParagraphsSound(cs: Charset, paragraphs: seq<string>, split: string -> seq<string>, maxLen: int, plain: bool)
    requires Cutter(cs, split) && (plain ==> AllPlain(cs, paragraphs))
    ensures var r := AddParagraphs(cs, [], paragraphs, split, maxLen); AllFit(cs, r, maxLen) && (plain ==> AllFull(r))
  {
    hide AddParagraph, Plain, Fits, Cutter;
    if paragraphs != [] {
      var n := |paragraphs| - 1;
      AddParagraphsSound(cs, paragraphs[..n], split, maxLen, plain);
      AddParagraphSound(cs, AddParagraphs(cs, [], paragraphs[..n], split, maxLen), paragraphs[n], split, maxLen, plain);
    }
  }

  /// For every text and limit, each chunk has at most one unit more than the
  /// limit or is a word without white space.
  lemma ChunksFit(cs: Charset, text: string, paragraphs: string -> seq<string>, sentences: string -> seq<string>, maxLen: int)
    requires Cutter(cs, paragraphs) && Cutter(cs, sentences)
    ensures AllFit(cs, Chunks(cs, text, paragraphs, sentences, maxLen), maxLen)
    ensures Plain(cs, text) ==> AllFull(Chunks(cs, text, paragraphs, sentences, maxLen))
  {
    var trimmed := Trim(cs, text);
    TrimIsInked(cs, text);
    if trimmed != "" {
      var plain := Plain(cs, text);
      if plain { CutsArePlain(cs, trimmed, paragraphs(trimmed)); }
      AddParagraphsSound(cs, paragraphs(trimmed), sentences, maxLen, plain);
    }
  }
}

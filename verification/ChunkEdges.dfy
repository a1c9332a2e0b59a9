/// Where the chunker exceeds its limit, changes the order, or gives an empty
/// chunk: exactly when each happens, with a text for each.
module ChunkEdges {
  import opened Chunker

  /// The parts that went out in finished chunks, in order, and those held back,
  /// by their positions in the sentence.
  datatype Tags = Tags(out: seq<nat>, held: seq<nat>) {
    function All(): seq<nat> { out + held }
  }

  /// What `AddPart` does to the positions: part `k` joins what is held back,
  /// starts anew after it went out, or goes out past it.
  function TagPart(cs: Charset, t: Tags, current: string, raw: string, k: nat, maxLen: int): Tags {
    var part := Trim(cs, raw);
    if part == "" then t
    else if |part| > maxLen then t.(out := t.out + [k])
    else if |current| + |part| + 1 > maxLen then Tags(t.out + t.held, [k])
    else t.(held := t.held + [k])
  }

  function TagParts(cs: Charset, parts: seq<string>, n: nat, maxLen: int): Tags
    requires n <= |parts|
  {
    if n == 0 then Tags([], [])
    else TagPart(cs, TagParts(cs, parts, n - 1, maxLen), AddParts(cs, None, parts[..n - 1], maxLen).current, parts[n - 1], n - 1, maxLen)
  }

  /// The characters of the parts at these positions.
  function Picked(cs: Charset, parts: seq<string>, ids: seq<nat>): string {
    if ids == [] then ""
    else Picked(cs, parts, ids[..|ids| - 1]) + if ids[|ids| - 1] < |parts| then Skeleton(cs, parts[ids[|ids| - 1]]) else ""
  }

  lemma PickedOne(cs: Charset, parts: seq<string>, ids: seq<nat>, k: nat)
    requires k < |parts|
    ensures Picked(cs, parts, ids + [k]) == Picked(cs, parts, ids) + Skeleton(cs, parts[k])
  {
    assert (ids + [k])[..|ids|] == ids;
  }

  lemma {:induction false} PickedMore(cs: Charset, parts: seq<string>, a: seq<nat>, b: seq<nat>)
    ensures Picked(cs, parts, a + b) == Picked(cs, parts, a) + Picked(cs, parts, b)
  {
    hide Skeleton;
    if b == [] {
      assert a + b == a;
    } else {
      var n := |b| - 1;
      PickedMore(cs, parts, a, b[..n]);
      assert (a + b)[..|a + b| - 1] == a + b[..n];
    }
  }

  /// The tags tell the truth: finished chunks hold the parts that are out, in
  /// that order, and the one being filled those held back.
  ghost predicate Tells(cs: Charset, b: Buffer, parts: seq<string>, t: Tags) {
    && SkeletonAll(cs, b.chunks) == Picked(cs, parts, t.out) && Skeleton(cs, b.current) == Picked(cs, parts, t.held)
    && (b.current == "" <==> t.held == [])
  }

  lemma TagsTell(cs: Charset, b: Buffer, parts: seq<string>, t: Tags, k: nat, maxLen: int)
    requires cs.Valid() && k < |parts| && Tells(cs, b, parts, t)
    ensures Tells(cs, AddPart(cs, b, parts[k], maxLen), parts, TagPart(cs, t, b.current, parts[k], k, maxLen))
  {
    hide Skeleton, SkeletonAll, Picked, Trim, AddAll, Words;
    var part := Trim(cs, parts[k]);
    SkeletonTrim(cs, parts[k]);
    SkeletonEmpty(cs);
    PickedNone(cs, parts);
    if part == "" {
    } else if |part| > maxLen {
      AddWordsHolds(cs, b, part, maxLen);
      WordsKeep(cs, b, part, maxLen);
      PickedOne(cs, parts, t.out, k);
      WordsOut(cs, b, part, maxLen);
    } else if |b.current| + |part| + 1 > maxLen {
      FlushHolds(cs, b);
      PickedMore(cs, parts, t.out, t.held);
      PickedOne(cs, parts, [], k);
      assert [] + [k] == [k];
    } else {
      SkeletonJoin(cs, b.current, ", ", part);
      PickedOne(cs, parts, t.held, k);
    }
  }

  lemma PickedNone(cs: Charset, parts: seq<string>)
    ensures Picked(cs, parts, []) == ""
  {}

  lemma WordsOut(cs: Charset, b: Buffer, part: string, maxLen: int)
    requires cs.Valid()
    ensures SkeletonAll(cs, AddWords(cs, b, part, maxLen).chunks) == SkeletonAll(cs, b.chunks) + Skeleton(cs, part)
  {
    hide Skeleton, SkeletonAll, AddAll, Words;
    var alone := Buffer(b.chunks, "");
    AddWordsHolds(cs, alone, part, maxLen);
    SkeletonEmpty(cs);
    WordsKeep(cs, alone, part, maxLen);
    var l, r := SkeletonAll(cs, AddWords(cs, b, part, maxLen).chunks), SkeletonAll(cs, b.chunks) + Skeleton(cs, part);
    assert Held(cs, AddWords(cs, alone, part, maxLen)) == l + "";
    assert l == l + "" == r + "" == r;
  }

  lemma {:induction false} TagsTellAll(cs: Charset, parts: seq<string>, n: nat, maxLen: int)
    requires cs.Valid() && n <= |parts|
    ensures Tells(cs, AddParts(cs, None, parts[..n], maxLen), parts, TagParts(cs, parts, n, maxLen))
  {
    hide Tells, AddPart, TagPart;
    if n == 0 {
      TellsNone(cs, parts);
    } else {
      TagsTellAll(cs, parts, n - 1, maxLen);
      assert parts[..n][..n - 1] == parts[..n - 1];
      TagsTell(cs, AddParts(cs, None, parts[..n - 1], maxLen), parts, TagParts(cs, parts, n - 1, maxLen), n - 1, maxLen);
    }
  }

  lemma TellsNone(cs: Charset, parts: seq<string>)
    ensures Tells(cs, None, parts, Tags([], []))
  {}

  ghost predicate InOrder(ids: seq<nat>) { forall i, j :: 0 <= i < j < |ids| ==> ids[i] < ids[j] }

  ghost predicate Below(ids: seq<nat>, n: nat) { forall i :: 0 <= i < |ids| ==> ids[i] < n }

  lemma Appended(ids: seq<nat>, k: nat)
    requires Below(ids, k)
    ensures Below(ids + [k], k + 1) && (InOrder(ids + [k]) <==> InOrder(ids))
  {
    var more := ids + [k];
    if InOrder(more) {
      forall i, j | 0 <= i < j < |ids| ensures ids[i] < ids[j] { assert more[i] < more[j]; }
    }
  }

  lemma Inserted(out: seq<nat>, held: seq<nat>, k: nat)
    requires Below(out + held, k) && held != []
    ensures Below(out + [k] + held, k + 1) && !InOrder(out + [k] + held)
  {
    var more := out + [k] + held;
    forall i | 0 <= i < |more| ensures more[i] < k + 1 {
      if i < |out| { assert more[i] == (out + held)[i]; } else if i > |out| { assert more[i] == (out + held)[i - 1]; }
    }
    assert more[|out|] == k && more[|out| + 1] == held[0] == (out + held)[|out|];
  }

  /// Only an oversized part that goes out past what is held back spoils the
  /// order, and nothing restores it.
  lemma TagsStep(cs: Charset, t: Tags, current: string, raw: string, k: nat, maxLen: int)
    requires Below(t.All(), k) && (current == "" <==> t.held == [])
    ensures var r := TagPart(cs, t, current, raw, k, maxLen);
      && Below(r.All(), k + 1)
      && (InOrder(r.All()) ==> InOrder(t.All()) && !(Oversized(cs, raw, maxLen) && current != ""))
      && (InOrder(t.All()) && !(Oversized(cs, raw, maxLen) && current != "") ==> InOrder(r.All()))
  {
    hide Trim, InOrder;
    var r := TagPart(cs, t, current, raw, k, maxLen);
    if Oversized(cs, raw, maxLen) && current != "" {
      Inserted(t.out, t.held, k);
    } else if Trim(cs, raw) != "" {
      Appended(t.All(), k);
      assert r.All() == t.All() + [k];
    }
  }

  lemma {:induction false} TagsOrder(cs: Charset, parts: seq<string>, n: nat, maxLen: int)
    requires cs.Valid() && n <= |parts|
    ensures Below(TagParts(cs, parts, n, maxLen).All(), n)
    ensures InOrder(TagParts(cs, parts, n, maxLen).All()) <==> forall k :: 0 <= k < n ==> !OvertakesAt(cs, None, parts, k, maxLen)
  {
    hide TagPart, AddPart;
    if n > 0 {
      TagsOrder(cs, parts, n - 1, maxLen);
      TagsTellAll(cs, parts, n - 1, maxLen);
      TagsStep(cs, TagParts(cs, parts, n - 1, maxLen), AddParts(cs, None, parts[..n - 1], maxLen).current, parts[n - 1], n - 1, maxLen);
      assert OvertakesAt(cs, None, parts, n - 1, maxLen) <==>
             Oversized(cs, parts[n - 1], maxLen) && AddParts(cs, None, parts[..n - 1], maxLen).current != "";
    }
  }

  /// The parts of a sentence come out in order if and only if no oversized one
  /// is met while another is held back.
  lemma OrderIff(cs: Charset, parts: seq<string>, maxLen: int)
    requires cs.Valid()
    ensures Tells(cs, AddParts(cs, None, parts, maxLen), parts, TagParts(cs, parts, |parts|, maxLen))
    ensures InOrder(TagParts(cs, parts, |parts|, maxLen).All()) <==> !Overtakes(cs, None, parts, maxLen)
  {
    TagsTellAll(cs, parts, |parts|, maxLen);
    assert parts[..|parts|] == parts;
    TagsOrder(cs, parts, |parts|, maxLen);
  }

  /// Over the limit, and not because it is one word.
  ghost predicate Over(cs: Charset, chunk: string, maxLen: int) { |chunk| > maxLen && !NoSpace(cs, chunk) }

  ghost predicate AnyOver(cs: Charset, chunks: seq<string>, maxLen: int) { exists i :: 0 <= i < |chunks| && Over(cs, chunks[i], maxLen) }

  ghost predicate BufferOver(cs: Charset, b: Buffer, maxLen: int) { AnyOver(cs, b.chunks, maxLen) || Over(cs, b.current, maxLen) }

  /// Trimming drops nothing of it.
  predicate Edged(cs: Charset, s: string) { s == "" || (!cs.trims(s[0]) && !cs.trims(s[|s| - 1])) }

  /// Part `k` is joined where the test leaves exactly no room for the second
  /// character of the separator.
  ghost predicate JoinsOver(cs: Charset, b: Buffer, parts: seq<string>, k: nat, maxLen: int)
    requires k < |parts|
  {
    var part, current := Trim(cs, parts[k]), AddParts(cs, b, parts[..k], maxLen).current;
    part != "" && current != "" && |current| + |part| + 1 == maxLen
  }

  ghost predicate AnyJoins(cs: Charset, b: Buffer, parts: seq<string>, maxLen: int) {
    exists k :: 0 <= k < |parts| && JoinsOver(cs, b, parts, k, maxLen)
  }

  lemma AnyJoinsMore(cs: Charset, b: Buffer, parts: seq<string>, maxLen: int)
    requires parts != []
    ensures AnyJoins(cs, b, parts, maxLen) <==> AnyJoins(cs, b, parts[..|parts| - 1], maxLen) || JoinsOver(cs, b, parts, |parts| - 1, maxLen)
  {
    hide Trim, AddParts;
    var n := |parts| - 1;
    forall k | 0 <= k < n ensures JoinsOver(cs, b, parts[..n], k, maxLen) <==> JoinsOver(cs, b, parts, k, maxLen) {
      assert parts[..n][..k] == parts[..k];
    }
    if AnyJoins(cs, b, parts[..n], maxLen) {
      var k :| 0 <= k < n && JoinsOver(cs, b, parts[..n], k, maxLen);
      assert JoinsOver(cs, b, parts, k, maxLen);
    }
  }

  ghost predicate PartsOver(cs: Charset, parts: seq<string>, maxLen: int) { AnyJoins(cs, None, parts, maxLen) }

  ghost predicate SentenceOver(cs: Charset, raw: string, maxLen: int) {
    |Trim(cs, raw)| > maxLen && PartsOver(cs, Parts(Trim(cs, raw)), maxLen)
  }

  ghost predicate SentencesOver(cs: Charset, raws: seq<string>, maxLen: int) { exists i :: 0 <= i < |raws| && SentenceOver(cs, raws[i], maxLen) }

  ghost predicate ParagraphOver(cs: Charset, raw: string, split: string -> seq<string>, maxLen: int) {
    |Trim(cs, raw)| > maxLen && SentencesOver(cs, split(Trim(cs, raw)), maxLen)
  }

  lemma {:induction false} TrimEndEdges(cs: Charset, s: string)
    ensures var t := TrimEnd(cs, s); t != "" ==> !cs.trims(t[|t| - 1]) && t[0] == s[0]
  {
    if s != "" && cs.trims(s[|s| - 1]) { TrimEndEdges(cs, s[..|s| - 1]); }
  }

  lemma TrimEdges(cs: Charset, s: string)
    ensures Edged(cs, Trim(cs, s))
  {
    var _ := TrimStartSlices(cs, s);
    TrimEndEdges(cs, TrimStart(cs, s));
  }

  lemma EdgedStays(cs: Charset, s: string)
    requires Edged(cs, s)
    ensures Trim(cs, s) == s
  {
    if s != "" { TrimSame(cs, s); }
  }

  lemma OverMore(cs: Charset, chunks: seq<string>, chunk: string, maxLen: int)
    ensures AnyOver(cs, chunks + [chunk], maxLen) <==> AnyOver(cs, chunks, maxLen) || Over(cs, chunk, maxLen)
  {
    var more := chunks + [chunk];
    assert more[|chunks|] == chunk;
    if i :| 0 <= i < |chunks| && Over(cs, chunks[i], maxLen) { assert more[i] == chunks[i]; }
    if i :| 0 <= i < |more| && Over(cs, more[i], maxLen) { assert i < |chunks| ==> more[i] == chunks[i]; }
  }

  lemma NothingIsNotOver(cs: Charset, maxLen: int)
    ensures !Over(cs, "", maxLen)
  {
    assert NoSpace(cs, "");
  }

  lemma FlushOver(cs: Charset, b: Buffer, maxLen: int)
    requires Edged(cs, b.current)
    ensures AnyOver(cs, Flush(cs, b).chunks, maxLen) <==> BufferOver(cs, b, maxLen)
    ensures Flush(cs, b).current == ""
  {
    hide Trim, Over, AnyOver;
    NothingIsNotOver(cs, maxLen);
    if b.current != "" {
      EdgedStays(cs, b.current);
      OverMore(cs, b.chunks, b.current, maxLen);
    }
  }

  lemma SpaceInside(cs: Charset, a: string, sep: string, b: string)
    requires cs.Valid() && (sep == " " || sep == ", ")
    ensures !NoSpace(cs, a + sep + b)
  {
    assert (a + sep + b)[|a| + |sep| - 1] == ' ';
  }

  /// A join overflows exactly if the separator is the longer one and the test
  /// passed without a unit to spare.
  lemma AddOver(cs: Charset, b: Buffer, piece: string, sep: string, maxLen: int)
    requires cs.Valid() && (sep == " " || sep == ", ") && Edged(cs, b.current) && Edged(cs, piece) && piece != "" && |piece| <= maxLen
    ensures var r := Add(cs, b, piece, sep, maxLen);
      && Edged(cs, r.current)
      && (BufferOver(cs, r, maxLen) <==>
            BufferOver(cs, b, maxLen) || (sep == ", " && b.current != "" && |b.current| + |piece| + 1 == maxLen))
  {
    hide Trim, AnyOver, NoSpace;
    FlushOver(cs, b, maxLen);
    NothingIsNotOver(cs, maxLen);
    SpaceInside(cs, b.current, sep, piece);
    var joined := b.current + sep + piece;
    assert joined[0] == (if b.current != "" then b.current[0] else sep[0]) && joined[|joined| - 1] == piece[|piece| - 1];
  }

  /// A chunk of words is short enough, or one word.
  lemma WordsNotOver(cs: Charset, b: Buffer, part: string, maxLen: int)
    ensures AnyOver(cs, AddWords(cs, b, part, maxLen).chunks, maxLen) <==> AnyOver(cs, b.chunks, maxLen)
  {
    hide Trim, Add, Words, Over;
    WordsAreWords(cs, part);
    var start := Buffer(b.chunks, "");
    assert Tight(cs, "", maxLen) by { assert NoSpace(cs, ""); }
    AddAllTight(cs, start, Words(cs, part), maxLen);
    FlushTight(cs, AddAll(cs, start, Words(cs, part), " ", maxLen), maxLen);
  }

  ghost predicate Tight(cs: Charset, s: string, maxLen: int) { |s| <= maxLen || NoSpace(cs, s) }

  lemma FlushTight(cs: Charset, b: Buffer, maxLen: int)
    requires Tight(cs, b.current, maxLen)
    ensures AnyOver(cs, Flush(cs, b).chunks, maxLen) <==> AnyOver(cs, b.chunks, maxLen)
    ensures Flush(cs, b).current == ""
  {
    hide Trim, AnyOver;
    if b.current != "" {
      var i, j := TrimSlices(cs, b.current);
      assert forall c :: c in b.current[i..j] ==> c in b.current;
      OverMore(cs, b.chunks, Trim(cs, b.current), maxLen);
    }
  }

  lemma {:induction false} AddAllTight(cs: Charset, b: Buffer, words: seq<string>, maxLen: int)
    requires Tight(cs, b.current, maxLen) && forall i :: 0 <= i < |words| ==> NoSpace(cs, words[i])
    ensures var r := AddAll(cs, b, words, " ", maxLen);
      Tight(cs, r.current, maxLen) && (AnyOver(cs, r.chunks, maxLen) <==> AnyOver(cs, b.chunks, maxLen))
  {
    hide Add, Tight, AnyOver, NoSpace;
    if words != [] {
      var n := |words| - 1;
      AddAllTight(cs, b, words[..n], maxLen);
      AddTight(cs, AddAll(cs, b, words[..n], " ", maxLen), words[n], maxLen);
    }
  }

  lemma AddTight(cs: Charset, b: Buffer, word: string, maxLen: int)
    requires Tight(cs, b.current, maxLen) && NoSpace(cs, word)
    ensures var r := Add(cs, b, word, " ", maxLen);
      Tight(cs, r.current, maxLen) && (AnyOver(cs, r.chunks, maxLen) <==> AnyOver(cs, b.chunks, maxLen))
  {
    hide Trim, AnyOver;
    FlushTight(cs, b, maxLen);
  }

  lemma AddPartOver(cs: Charset, b: Buffer, raw: string, maxLen: int)
    requires cs.Valid() && Edged(cs, b.current)
    ensures var r, part := AddPart(cs, b, raw, maxLen), Trim(cs, raw);
      && Edged(cs, r.current)
      && (BufferOver(cs, r, maxLen) <==> BufferOver(cs, b, maxLen) || (part != "" && b.current != "" && |b.current| + |part| + 1 == maxLen))
  {
    hide Trim, Add, AddAll, AnyOver, Over, Edged;
    var part := Trim(cs, raw);
    TrimEdges(cs, raw);
    if part == "" {
    } else if |part| > maxLen {
      WordsNotOver(cs, b, part, maxLen);
      WordsKeep(cs, b, part, maxLen);
    } else {
      AddOver(cs, b, part, ", ", maxLen);
    }
  }

  lemma {:induction false} AddPartsOver(cs: Charset, b: Buffer, parts: seq<string>, maxLen: int)
    requires cs.Valid() && Edged(cs, b.current)
    ensures var r := AddParts(cs, b, parts, maxLen);
      && Edged(cs, r.current)
      && (BufferOver(cs, r, maxLen) <==> BufferOver(cs, b, maxLen) || AnyJoins(cs, b, parts, maxLen))
  {
    hide Trim, AddPart, BufferOver, Edged, AnyJoins;
    if parts == [] {
      assert !AnyJoins(cs, b, parts, maxLen) by { NoJoins(cs, b, maxLen); }
    } else {
      var n := |parts| - 1;
      AddPartsOver(cs, b, parts[..n], maxLen);
      AddPartOver(cs, AddParts(cs, b, parts[..n], maxLen), parts[n], maxLen);
      AnyJoinsMore(cs, b, parts, maxLen);
    }
  }

  lemma NoJoins(cs: Charset, b: Buffer, maxLen: int)
    ensures !AnyJoins(cs, b, [], maxLen)
  {}

  lemma SentenceStartsAnew(cs: Charset, b: Buffer, parts: seq<string>, maxLen: int)
    requires b.current == ""
    ensures PartsOver(cs, parts, maxLen) <==> AnyJoins(cs, b, parts, maxLen)
  {
    forall k | 0 <= k < |parts| ensures JoinsOver(cs, b, parts, k, maxLen) <==> JoinsOver(cs, None, parts, k, maxLen) {
      CurrentOnly(cs, b, None, parts[..k], maxLen);
    }
  }

  lemma AddSentenceOver(cs: Charset, b: Buffer, raw: string, maxLen: int)
    requires cs.Valid() && Edged(cs, b.current)
    ensures var r := AddSentence(cs, b, raw, maxLen);
      && Edged(cs, r.current) && (BufferOver(cs, r, maxLen) <==> BufferOver(cs, b, maxLen) || SentenceOver(cs, raw, maxLen))
  {
    hide Trim, Add, AddParts, Parts, AnyOver, Over, PartsOver, AnyJoins, Flush;
    var sentence := Trim(cs, raw);
    TrimEdges(cs, raw);
    if sentence == "" {
      if |sentence| > maxLen { NoParts(cs, maxLen); }
    } else if |sentence| > maxLen {
      FlushOver(cs, b, maxLen);
      NothingIsNotOver(cs, maxLen);
      AddPartsOver(cs, Flush(cs, b), Parts(sentence), maxLen);
      SentenceStartsAnew(cs, Flush(cs, b), Parts(sentence), maxLen);
    } else {
      AddOver(cs, b, sentence, " ", maxLen);
    }
  }

  lemma NoParts(cs: Charset, maxLen: int)
    ensures !PartsOver(cs, Parts(""), maxLen)
  {
    forall k | 0 <= k < |Parts("")| ensures !JoinsOver(cs, None, Parts(""), k, maxLen) { assert Trim(cs, Parts("")[k]) == ""; }
  }

  lemma {:induction false} AddSentencesOver(cs: Charset, b: Buffer, raws: seq<string>, maxLen: int)
    requires cs.Valid() && Edged(cs, b.current)
    ensures var r := AddSentences(cs, b, raws, maxLen);
      && Edged(cs, r.current) && (BufferOver(cs, r, maxLen) <==> BufferOver(cs, b, maxLen) || SentencesOver(cs, raws, maxLen))
  {
    hide AddSentence, BufferOver, Edged, SentenceOver;
    if raws != [] {
      var n := |raws| - 1;
      AddSentencesOver(cs, b, raws[..n], maxLen);
      AddSentenceOver(cs, AddSentences(cs, b, raws[..n], maxLen), raws[n], maxLen);
      assert SentencesOver(cs, raws, maxLen) <==> SentencesOver(cs, raws[..n], maxLen) || SentenceOver(cs, raws[n], maxLen) by {
        forall i | 0 <= i < n ensures raws[..n][i] == raws[i] {}
      }
    }
  }

  lemma AddParagraphOver(cs: Charset, chunks: seq<string>, raw: string, split: string -> seq<string>, maxLen: int)
    requires cs.Valid()
    ensures AnyOver(cs, AddParagraph(cs, chunks, raw, split, maxLen), maxLen) <==>
            AnyOver(cs, chunks, maxLen) || (Trim(cs, raw) != "" && ParagraphOver(cs, raw, split, maxLen))
  {
    hide Trim, AddSentences, AnyOver, Over, SentencesOver, Flush;
    var paragraph := Trim(cs, raw);
    if paragraph == "" {
    } else if |paragraph| <= maxLen {
      OverMore(cs, chunks, paragraph, maxLen);
      assert !Over(cs, paragraph, maxLen) by { ShortIsNotOver(cs, paragraph, maxLen); }
    } else {
      NothingIsNotOver(cs, maxLen);
      AddSentencesOver(cs, Buffer(chunks, ""), split(paragraph), maxLen);
      FlushOver(cs, AddSentences(cs, Buffer(chunks, ""), split(paragraph), maxLen), maxLen);
    }
  }

  lemma ShortIsNotOver(cs: Charset, s: string, maxLen: int)
    requires |s| <= maxLen
    ensures !Over(cs, s, maxLen)
  {}

  lemma {:induction false} AddParagraphsOver(cs: Charset, raws: seq<string>, split: string -> seq<string>, maxLen: int)
    requires cs.Valid()
    ensures AnyOver(cs, AddParagraphs(cs, [], raws, split, maxLen), maxLen) <==>
            exists i :: 0 <= i < |raws| && Trim(cs, raws[i]) != "" && ParagraphOver(cs, raws[i], split, maxLen)
  {
    hide AddParagraph, ParagraphOver, Over, Trim;
    if raws != [] {
      var n := |raws| - 1;
      AddParagraphsOver(cs, raws[..n], split, maxLen);
      AddParagraphOver(cs, AddParagraphs(cs, [], raws[..n], split, maxLen), raws[n], split, maxLen);
      forall i | 0 <= i < n ensures raws[..n][i] == raws[i] {}
    }
  }

  /// In some sentence that has to be cut at commas, a part is joined to what is
  /// held back although both and one unit are exactly `maxLen`.
  ghost predicate JoinsSomewhere(cs: Charset, text: string, paragraphs: string -> seq<string>, sentences: string -> seq<string>, maxLen: int) {
    exists i :: 0 <= i < |paragraphs(Trim(cs, text))| && Trim(cs, paragraphs(Trim(cs, text))[i]) != ""
      && ParagraphOver(cs, paragraphs(Trim(cs, text))[i], sentences, maxLen)
  }

  /// For every text and limit: a chunk over the limit that is not one word
  /// comes out if and only if some comma join happens without a unit to spare.
  lemma OverIff(cs: Charset, text: string, paragraphs: string -> seq<string>, sentences: string -> seq<string>, maxLen: int)
    requires cs.Valid()
    ensures AnyOver(cs, Chunks(cs, text, paragraphs, sentences, maxLen), maxLen) <==>
            Trim(cs, text) != "" && JoinsSomewhere(cs, text, paragraphs, sentences, maxLen)
  {
    hide Trim, AddParagraphs, ParagraphOver, Over;
    if Trim(cs, text) != "" { AddParagraphsOver(cs, paragraphs(Trim(cs, text)), sentences, maxLen); }
  }

  /// So a text whose oversized sentences hold no comma keeps the limit, but for
  /// single words.
  lemma LimitKept(cs: Charset, text: string, paragraphs: string -> seq<string>, sentences: string -> seq<string>, maxLen: int)
    requires cs.Valid()
    requires forall p, s :: p in paragraphs(Trim(cs, text)) && s in sentences(Trim(cs, p)) && |Trim(cs, s)| > maxLen ==> ',' !in Trim(cs, s)
    ensures forall chunk :: chunk in Chunks(cs, text, paragraphs, sentences, maxLen) ==> |chunk| <= maxLen || NoSpace(cs, chunk)
  {
    hide Trim, Chunks, Parts;
    OverIff(cs, text, paragraphs, sentences, maxLen);
    var raws := paragraphs(Trim(cs, text));
    forall i | 0 <= i < |raws| ensures !ParagraphOver(cs, raws[i], sentences, maxLen) {
      assert raws[i] in raws;
      var inner := sentences(Trim(cs, raws[i]));
      forall j | 0 <= j < |inner| ensures !SentenceOver(cs, inner[j], maxLen) {
        assert inner[j] in inner;
        if |Trim(cs, inner[j])| > maxLen { NoComma(cs, Trim(cs, inner[j]), maxLen); }
      }
    }
    var chunks := Chunks(cs, text, paragraphs, sentences, maxLen);
    forall chunk | chunk in chunks ensures |chunk| <= maxLen || NoSpace(cs, chunk) {
      var i :| 0 <= i < |chunks| && chunks[i] == chunk;
      assert !Over(cs, chunks[i], maxLen);
    }
  }

  lemma NoComma(cs: Charset, sentence: string, maxLen: int)
    requires ',' !in sentence
    ensures !PartsOver(cs, Parts(sentence), maxLen)
  {
    hide Trim;
    OnePart(sentence);
    forall k | 0 <= k < |Parts(sentence)| ensures !JoinsOver(cs, None, Parts(sentence), k, maxLen) {
      assert Parts(sentence)[..k] == [];
    }
  }

  /// Neither expression matches anywhere.
  function Whole(text: string): seq<string> { [text] }

  lemma TrimSame(cs: Charset, s: string)
    requires s != "" && !cs.trims(s[0]) && !cs.trims(s[|s| - 1])
    ensures Trim(cs, s) == s
  {}

  /// The expression does not match anywhere in `text`.
  predicate Leaves(split: string -> seq<string>, text: string) { split(text) == [text] }

  /// One paragraph of one sentence.
  lemma OneSentence(cs: Charset, text: string, paragraphs: string -> seq<string>, sentences: string -> seq<string>, maxLen: int)
    requires cs.Valid() && text != "" && !cs.trims(text[0]) && !cs.trims(text[|text| - 1]) && |text| > maxLen
    requires Leaves(paragraphs, text) && Leaves(sentences, text)
    ensures Chunks(cs, text, paragraphs, sentences, maxLen) == Flush(cs, AddParts(cs, None, Parts(text), maxLen)).chunks
  {
    TrimSame(cs, text);
    assert [text][..0] == [];
    assert AddSentences(cs, None, [], maxLen) == None;
    assert AddSentences(cs, None, [text], maxLen) == AddSentence(cs, None, text, maxLen);
    assert AddParagraphs(cs, [], [], sentences, maxLen) == [];
    assert AddParagraphs(cs, [], [text], sentences, maxLen) == AddParagraph(cs, [], text, sentences, maxLen);
  }

  lemma {:induction false} OnePart(s: string)
    requires ',' !in s
    ensures Parts(s) == [s]
  {
    if s != "" {
      OnePart(s[1..]);
      assert [s[0]] + s[1..] == s;
    }
  }

  lemma {:induction false} NextPart(a: string, b: string)
    requires ',' !in a
    ensures Parts(a + "," + b) == [a] + Parts(b)
  {
    var s := a + "," + b;
    if a == "" {
      assert s[1..] == b;
    } else {
      NextPart(a[1..], b);
      assert s[1..] == a[1..] + "," + b && [a[0]] + a[1..] == a;
    }
  }

  lemma {:induction false} OneWord(cs: Charset, s: string)
    requires NoSpace(cs, s)
    ensures Words(cs, s) == [s]
  {
    if s != "" {
      OneWord(cs, s[1..]);
      assert [s[0]] + s[1..] == s;
    }
  }

  lemma {:induction false} NextWord(cs: Charset, a: string, b: string)
    requires cs.spaces(' ') && NoSpace(cs, a) && b != "" && !cs.spaces(b[0])
    ensures Words(cs, a + " " + b) == [a] + Words(cs, b)
  {
    var s := a + " " + b;
    if a == "" {
      assert s[1..] == b && SkipSpace(cs, b) == b;
    } else {
      NextWord(cs, a[1..], b);
      assert s[1..] == a[1..] + " " + b && [a[0]] + a[1..] == a;
    }
  }

  lemma PartsSnoc(cs: Charset, b: Buffer, parts: seq<string>, part: string, maxLen: int)
    ensures AddParts(cs, b, parts + [part], maxLen) == AddPart(cs, AddParts(cs, b, parts, maxLen), part, maxLen)
  {
    assert (parts + [part])[..|parts|] == parts;
  }

  lemma AllSnoc(cs: Charset, b: Buffer, pieces: seq<string>, piece: string, maxLen: int)
    ensures AddAll(cs, b, pieces + [piece], " ", maxLen) == Add(cs, AddAll(cs, b, pieces, " ", maxLen), piece, " ", maxLen)
  {
    assert (pieces + [piece])[..|pieces|] == pieces;
  }

  /// A word as long as the limit, the character `c` alone, and the word again.
  function Wedge(c: char, maxLen: int): string { Long(maxLen) + " " + ([c] + " " + Long(maxLen)) }

  function Long(maxLen: int): string { seq(if maxLen < 1 then 1 else maxLen, _ => 'a') }

  lemma WedgeChunks(cs: Charset, c: char, maxLen: int)
    requires cs.Valid() && cs.trims(c) && !cs.spaces(c)
    ensures AddAll(cs, None, [] + [Long(maxLen)] + [[c]] + [Long(maxLen)], " ", maxLen) == Buffer([Long(maxLen), ""], Long(maxLen))
  {
    hide Trim;
    var w := Long(maxLen);
    TrimSame(cs, w);
    var _, _ := TrimSlices(cs, [c]);
    AllSnoc(cs, None, [], w, maxLen);
    AllSnoc(cs, None, [] + [w], [c], maxLen);
    AllSnoc(cs, None, [] + [w] + [[c]], w, maxLen);
  }

  /// A character that is trimmed but is not white space to the expressions can
  /// be a word of its own, and that word's chunk is empty, whatever the limit.
  lemma EmptyChunk(cs: Charset, c: char, paragraphs: string -> seq<string>, sentences: string -> seq<string>, maxLen: int)
    requires cs.Valid() && cs.trims(c) && !cs.spaces(c)
    requires Leaves(paragraphs, Wedge(c, maxLen)) && Leaves(sentences, Wedge(c, maxLen))
    ensures Chunks(cs, Wedge(c, maxLen), paragraphs, sentences, maxLen) == [Long(maxLen), "", Long(maxLen)]
  {
    hide Trim, Words, Parts, AddAll;
    var text, w := Wedge(c, maxLen), Long(maxLen);
    assert text[0] == 'a' && text[|text| - 1] == 'a' && |text| > maxLen;
    OneSentence(cs, text, paragraphs, sentences, maxLen);
    OnePart(text);
    TrimSame(cs, text);
    TrimSame(cs, w);
    PartsSnoc(cs, None, [], text, maxLen);
    assert [] + [text] == [text];
    NextWord(cs, w, [c] + " " + w);
    NextWord(cs, [c], w);
    OneWord(cs, w);
    assert Words(cs, text) == [] + [w] + [[c]] + [w];
    WedgeChunks(cs, c, maxLen);
  }

  /// For every limit, and expressions that leave such words alone: no text gives
  /// an empty chunk if and only if whatever trimming drops is white space to
  /// the expressions.
  lemma EmptyIff(cs: Charset, paragraphs: string -> seq<string>, sentences: string -> seq<string>, maxLen: int)
    requires cs.Valid() && Cutter(cs, paragraphs) && Cutter(cs, sentences)
    requires forall c :: cs.trims(c) && !cs.spaces(c) ==> Leaves(paragraphs, Wedge(c, maxLen)) && Leaves(sentences, Wedge(c, maxLen))
    ensures (forall c :: cs.trims(c) ==> cs.spaces(c)) <==>
            forall text :: AllFull(Chunks(cs, text, paragraphs, sentences, maxLen))
  {
    if forall c :: cs.trims(c) ==> cs.spaces(c) {
      forall text ensures AllFull(Chunks(cs, text, paragraphs, sentences, maxLen)) {
        assert Plain(cs, text);
        ChunksFit(cs, text, paragraphs, sentences, maxLen);
      }
    } else {
      var c :| cs.trims(c) && !cs.spaces(c);
      EmptyChunk(cs, c, paragraphs, sentences, maxLen);
      assert Chunks(cs, Wedge(c, maxLen), paragraphs, sentences, maxLen)[1] == "";
    }
  }

  /// The limit can be exceeded by one: the test leaves room for one unit, and
  /// the join takes two.
  lemma OneOver(cs: Charset)
    requires cs.Valid()
    ensures var text := "ab" + "," + ("cd" + "," + "ef"); Chunks(cs, text, Whole, Whole, 5) == ["ab, cd", "ef"]
    ensures |"ab, cd"| == 5 + 1 && !NoSpace(cs, "ab, cd")
  {
    var text := "ab" + "," + ("cd" + "," + "ef");
    assert |text| == 8 && text[7] == 'f';
    OneSentence(cs, text, Whole, Whole, 5);
    NextPart("ab", "cd" + "," + "ef");
    NextPart("cd", "ef");
    OnePart("ef");
    TrimSame(cs, "ab");
    TrimSame(cs, "cd");
    TrimSame(cs, "ef");
    TrimSame(cs, "ab, cd");
    assert Parts(text) == [] + ["ab"] + ["cd"] + ["ef"];
    PartsSnoc(cs, None, [], "ab", 5);
    PartsSnoc(cs, None, [] + ["ab"], "cd", 5);
    PartsSnoc(cs, None, [] + ["ab"] + ["cd"], "ef", 5);
    assert "ab" + ", " + "cd" == "ab, cd";
    assert AddPart(cs, Buffer([], "ab"), "cd", 5) == Buffer([], "ab, cd");
    assert "ab, cd"[3] == ' ';
  }

  /// An oversized part overtakes a short one before it.
  lemma OutOfOrder(cs: Charset)
    requires cs.Valid()
    ensures Chunks(cs, "a" + "," + "bcde", Whole, Whole, 3) == ["bcde", "a"]
  {
    hide Trim, Words, Parts;
    var text := "a" + "," + "bcde";
    assert |text| == 6 && text[5] == 'e';
    OneSentence(cs, text, Whole, Whole, 3);
    NextPart("a", "bcde");
    OnePart("bcde");
    TrimSame(cs, "a");
    TrimSame(cs, "bcde");
    assert Parts(text) == [] + ["a"] + ["bcde"];
    PartsSnoc(cs, None, [], "a", 3);
    PartsSnoc(cs, None, [] + ["a"], "bcde", 3);
    OneWord(cs, "bcde");
    AllSnoc(cs, None, [], "bcde", 3);
    assert [] + ["bcde"] == ["bcde"];
    assert AddAll(cs, None, ["bcde"], " ", 3) == Buffer([], "bcde");
  }
}

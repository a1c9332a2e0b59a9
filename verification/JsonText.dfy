/// JSON texts by the grammar of RFC 8259, sections 2 to 7, and what the reader
/// makes of each.
module JsonText {
  import opened Json

  /// One unit of a string: itself, a two-character escape, or `\u` and four
  /// hexadecimal digits.
  datatype Piece = Plain(c: Unit) | Short(e: Unit) | Code(digits: Text)

  /// Members and elements carry the white space around them.
  datatype Tree =
    | TNull
    | TTrue
    | TFalse
    | TInteger(lexeme: Text)
    | TDouble(lexeme: Text)
    | TString(pieces: seq<Piece>)
    | TEmptyArray(space: Text)
    | TArray(items: Items)
    | TEmptyObject(space: Text)
    | TObject(members: Members)

  datatype Items = LastItem(before: Text, value: Tree, after: Text) | MoreItems(before: Text, value: Tree, after: Text, rest: Items)

  datatype Member = Member(before: Text, key: seq<Piece>, between: Text, gap: Text, value: Tree, after: Text)

  datatype Members = LastMember(m: Member) | MoreMembers(m: Member, rest: Members)

  predicate Space(s: Text) { forall k :: 0 <= k < |s| ==> White(s[k]) }

  predicate GoodPiece(p: Piece) {
    match p
    case Plain(c) => c >= 0x20 && c != QUOTE && c != BACKSLASH
    case Short(e) => Escape(e) >= 0
    case Code(digits) => |digits| == 4 && forall k :: 0 <= k < 4 ==> HexDigit(digits[k]) >= 0
  }

  predicate GoodPieces(ps: seq<Piece>) { forall k :: 0 <= k < |ps| ==> GoodPiece(ps[k]) }

  /// `int` of section 6, with an optional minus: no leading zeros.
  predicate IntegerText(s: Text) {
    var digits := Unsigned(s);
    digits != [] && AllDigits(digits) && (|digits| > 1 ==> digits[0] != ZERO)
  }

  predicate Fraction(f: Text) { |f| >= 2 && f[0] == DOT && AllDigits(f[1..]) }

  predicate Exponent(e: Text) {
    && |e| >= 2 && (e[0] == LOWER_E || e[0] == UPPER_E)
    && (AllDigits(e[1..]) || (|e| >= 3 && (e[1] == PLUS || e[1] == MINUS) && AllDigits(e[2..])))
  }

  ghost predicate DoubleText(s: Text) {
    exists a, f, e :: s == a + f + e && IntegerText(a) && (f == [] || Fraction(f)) && (e == [] || Exponent(e)) && f + e != []
  }

  ghost predicate Good(t: Tree) {
    match t
    case TInteger(lexeme) => IntegerText(lexeme) && ToLong(lexeme).Long?
    case TDouble(lexeme) => DoubleText(lexeme)
    case TString(pieces) => GoodPieces(pieces)
    case TEmptyArray(space) => Space(space)
    case TArray(items) => GoodItems(items)
    case TEmptyObject(space) => Space(space)
    case TObject(members) => GoodMembers(members)
    case _ => true
  }

  ghost predicate GoodItems(items: Items) {
    Space(items.before) && Good(items.value) && Space(items.after) && (items.MoreItems? ==> GoodItems(items.rest))
  }

  ghost predicate GoodMembers(ms: Members) {
    var m := ms.m;
    && Space(m.before) && GoodPieces(m.key) && Space(m.between) && Space(m.gap) && Good(m.value) && Space(m.after)
    && (ms.MoreMembers? ==> GoodMembers(ms.rest))
  }

  function RenderPiece(p: Piece): Text {
    match p
    case Plain(c) => [c]
    case Short(e) => [BACKSLASH, e]
    case Code(digits) => [BACKSLASH, LOWER_U] + digits
  }

  function RenderPieces(ps: seq<Piece>): Text {
    if ps == [] then [] else RenderPiece(ps[0]) + RenderPieces(ps[1..])
  }

  function Quoted(ps: seq<Piece>): Text { [QUOTE] + (RenderPieces(ps) + [QUOTE]) }

  function Render(t: Tree): Text {
    match t
    case TNull => NULL
    case TTrue => TRUE
    case TFalse => FALSE
    case TInteger(lexeme) => lexeme
    case TDouble(lexeme) => lexeme
    case TString(pieces) => Quoted(pieces)
    case TEmptyArray(space) => [OPEN_BRACKET] + (space + [CLOSE_BRACKET])
    case TArray(items) => [OPEN_BRACKET] + RenderItems(items)
    case TEmptyObject(space) => [OPEN_BRACE] + (space + [CLOSE_BRACE])
    case TObject(members) => [OPEN_BRACE] + RenderMembers(members)
  }

  /// The elements and the closing bracket.
  function RenderItems(items: Items): Text {
    items.before + (Render(items.value) + (items.after +
      if items.LastItem? then [CLOSE_BRACKET] else [COMMA] + RenderItems(items.rest)))
  }

  function RenderMember(m: Member): Text {
    m.before + (Quoted(m.key) + (m.between + ([COLON] + (m.gap + (Render(m.value) + m.after)))))
  }

  /// The members and the closing brace.
  function RenderMembers(ms: Members): Text {
    RenderMember(ms.m) + if ms.LastMember? then [CLOSE_BRACE] else [COMMA] + RenderMembers(ms.rest)
  }

  function MeaningOfPiece(p: Piece): Unit
    requires GoodPiece(p)
  {
    match p
    case Plain(c) => c
    case Short(e) => Escape(e)
    case Code(digits) => HexBelow(digits); HexDigits(digits)
  }

  function MeaningOfPieces(ps: seq<Piece>): Text
    requires GoodPieces(ps)
  {
    if ps == [] then [] else [MeaningOfPiece(ps[0])] + MeaningOfPieces(ps[1..])
  }

  ghost function Meaning(t: Tree): Value
    requires Good(t)
  {
    match t
    case TNull => Null
    case TTrue => Bool(true)
    case TFalse => Bool(false)
    case TInteger(lexeme) => ToLong(lexeme)
    case TDouble(lexeme) => Double(lexeme)
    case TString(pieces) => Str(MeaningOfPieces(pieces))
    case TEmptyArray(_) => Arr([])
    case TArray(items) => Arr(MeaningOfItems(items))
    case TEmptyObject(_) => Obj(map[])
    case TObject(members) => Obj(MeaningOfMembers(members, map[]))
  }

  ghost function MeaningOfItems(items: Items): seq<Value>
    requires GoodItems(items)
  {
    [Meaning(items.value)] + if items.LastItem? then [] else MeaningOfItems(items.rest)
  }

  /// Members in order, over what came before them.
  ghost function MeaningOfMembers(ms: Members, read: map<Text, Value>): map<Text, Value>
    requires GoodMembers(ms)
  {
    var now := read[MeaningOfPieces(ms.m.key) := Meaning(ms.m.value)];
    if ms.LastMember? then now else MeaningOfMembers(ms.rest, now)
  }

  lemma {:induction false} HexBelow(digits: Text)
    requires |digits| <= 4 && forall k :: 0 <= k < |digits| ==> HexDigit(digits[k]) >= 0
    ensures 0 <= HexDigits(digits) < (if |digits| == 0 then 1 else if |digits| == 1 then 0x10 else if |digits| == 2 then 0x100 else if |digits| == 3 then 0x1000 else 0x1_0000)
  {
    if digits != [] { HexBelow(digits[..|digits| - 1]); }
  }

  lemma StartsSplit(t: Text, i: nat, a: Text, b: Text)
    requires Starts(t, i, a + b)
    ensures Starts(t, i, a) && Starts(t, i + |a|, b)
  {
    var s := t[i..i + |a + b|];
    assert s[..|a|] == a && s[|a|..] == b;
    assert t[i..i + |a|] == s[..|a|] && t[i + |a|..i + |a| + |b|] == s[|a|..];
  }

  lemma StartsAt(t: Text, i: nat, a: Text, k: nat)
    requires Starts(t, i, a) && k < |a|
    ensures i + k < |t| && t[i + k] == a[k]
  {
    assert t[i..i + |a|][k] == a[k];
  }

  lemma {:induction false} SkipsSpace(t: Text, i: nat, space: Text)
    requires Starts(t, i, space) && Space(space)
    requires i + |space| < |t| ==> !White(t[i + |space|])
    ensures Skip(t, i) == i + |space|
    decreases |space|
  {
    if space != [] {
      StartsAt(t, i, space, 0);
      assert space == [space[0]] + space[1..];
      StartsSplit(t, i, [space[0]], space[1..]);
      SkipsSpace(t, i + 1, space[1..]);
    }
  }

  lemma PieceReads(t: Text, i: nat, p: Piece, read: Text)
    requires GoodPiece(p) && Starts(t, i, RenderPiece(p))
    ensures String(t, i, read) == String(t, i + |RenderPiece(p)|, read + [MeaningOfPiece(p)])
  {
    var word := RenderPiece(p);
    StartsAt(t, i, word, 0);
    match p
    case Plain(_) =>
    case Short(_) => StartsAt(t, i, word, 1);
    case Code(digits) =>
      StartsAt(t, i, word, 1);
      StartsSplit(t, i, [BACKSLASH, LOWER_U], digits);
      HexBelow(digits);
  }

  lemma {:induction false} StringReads(t: Text, i: nat, ps: seq<Piece>, read: Text)
    requires GoodPieces(ps) && Starts(t, i, RenderPieces(ps) + [QUOTE])
    ensures String(t, i, read) == Read.Good(read + MeaningOfPieces(ps), i + |RenderPieces(ps)| + 1)
    decreases |ps|
  {
    hide Skip, Any, Element, Elements, Field, Fields, Braced, Bracketed, Dispatch, Number, Starts, GoodPiece, RenderPiece, MeaningOfPiece;
    if ps == [] {
      assert RenderPieces(ps) + [QUOTE] == [QUOTE];
      StartsAt(t, i, [QUOTE], 0);
      assert read + MeaningOfPieces(ps) == read;
    } else {
      var first, rest := RenderPiece(ps[0]), RenderPieces(ps[1..]) + [QUOTE];
      assert RenderPieces(ps) + [QUOTE] == first + rest;
      StartsSplit(t, i, first, rest);
      PieceReads(t, i, ps[0], read);
      StringReads(t, i + |first|, ps[1..], read + [MeaningOfPiece(ps[0])]);
      assert read + MeaningOfPieces(ps) == read + [MeaningOfPiece(ps[0])] + MeaningOfPieces(ps[1..]);
    }
  }

  /// Nothing that could go on a number.
  predicate Stops(t: Text, j: nat) { j >= |t| || !NumberUnit(t[j]) }

  predicate AllNumberUnits(s: Text) { forall k :: 0 <= k < |s| ==> NumberUnit(s[k]) }

  lemma {:induction false} NumberEnds(t: Text, i: nat, s: Text)
    requires Starts(t, i, s) && AllNumberUnits(s) && Stops(t, i + |s|)
    ensures NumberEnd(t, i) == i + |s|
    decreases |s|
  {
    if s != [] {
      StartsAt(t, i, s, 0);
      assert s == [s[0]] + s[1..];
      StartsSplit(t, i, [s[0]], s[1..]);
      NumberEnds(t, i + 1, s[1..]);
    }
  }

  lemma NumberReads(t: Text, i: nat, s: Text, doubles: Text -> bool)
    requires s != [] && AllNumberUnits(s) && (s[0] == MINUS || Digit(s[0])) && Starts(t, i, s) && Stops(t, i + |s|)
    ensures i < |t| && t[i] == s[0]
    ensures Number(t, i, doubles) ==
      if AllDigits(Unsigned(s)) then if ToLong(s).Long? then Read.Good(ToLong(s), i + |s|) else Bad
      else if doubles(s) then Read.Good(Double(s), i + |s|) else Bad
  {
    StartsAt(t, i, s, 0);
    assert s == [s[0]] + s[1..];
    StartsSplit(t, i, [s[0]], s[1..]);
    NumberEnds(t, i + 1, s[1..]);
  }

  lemma IntegerUnits(s: Text)
    requires IntegerText(s)
    ensures s != [] && AllNumberUnits(s) && (s[0] == MINUS || Digit(s[0]))
  {
    forall k | 0 <= k < |s| ensures NumberUnit(s[k]) {
      if s[0] == MINUS { if k > 0 { assert s[k] == s[1..][k - 1]; } } else { assert s[k] == Unsigned(s)[k]; }
    }
  }

  lemma DoubleUnits(s: Text)
    requires DoubleText(s)
    ensures s != [] && AllNumberUnits(s) && (s[0] == MINUS || Digit(s[0])) && !AllDigits(Unsigned(s))
  {
    var a, f, e :| s == a + f + e && IntegerText(a) && (f == [] || Fraction(f)) && (e == [] || Exponent(e)) && f + e != [];
    IntegerUnits(a);
    assert AllNumberUnits(f) by { if f != [] { forall k | 1 <= k < |f| ensures Digit(f[k]) { assert f[k] == f[1..][k - 1]; } } }
    assert AllNumberUnits(e) by { if e != [] { ExponentUnits(e); } }
    var k := |a|;
    assert s[k] == (f + e)[0] && !Digit(s[k]);
    var u := Unsigned(s);
    assert s[0] == a[0];
    assert u[if s[0] == MINUS then k - 1 else k] == s[k] by { assert s[0] == MINUS ==> Unsigned(a) == a[1..]; }
  }

  lemma ExponentUnits(e: Text)
    requires Exponent(e)
    ensures AllNumberUnits(e)
  {
    if AllDigits(e[1..]) {
      forall k | 1 <= k < |e| ensures Digit(e[k]) { assert e[k] == e[1..][k - 1]; }
    } else {
      forall k | 2 <= k < |e| ensures Digit(e[k]) { assert e[k] == e[2..][k - 2]; }
    }
  }

  /// A rendering starts with a character that is not white space.
  lemma RenderHead(t: Tree)
    requires Good(t)
    ensures Render(t) != [] && !White(Render(t)[0])
  {
    match t
    case TInteger(lexeme) => IntegerUnits(lexeme);
    case TDouble(lexeme) => DoubleUnits(lexeme);
    case _ =>
  }

  /// Which doubles the platform must read: all that the grammar allows.
  ghost predicate TakesDoubles(doubles: Text -> bool) { forall s :: DoubleText(s) ==> doubles(s) }

  /// What is rendered is read back, with anything around it.
  lemma {:induction false} AnyReads(t: Text, i: nat, before: Text, tree: Tree, doubles: Text -> bool)
    requires Good(tree) && Space(before) && TakesDoubles(doubles)
    requires Starts(t, i, before) && Starts(t, i + |before|, Render(tree)) && Stops(t, i + |before| + |Render(tree)|)
    ensures Any(t, i, doubles) == Read.Good(Meaning(tree), i + |before| + |Render(tree)|)
    decreases tree, 2
  {
    hide Skip, String, Element, Elements, Field, Fields, Braced, Bracketed, Dispatch, Number, Starts, Good, Render, Meaning;
    var j := i + |before|;
    RenderHead(tree);
    StartsAt(t, j, Render(tree), 0);
    SkipsSpace(t, i, before);
    TreeReads(t, j, tree, doubles);
  }

  lemma {:induction false} TreeReads(t: Text, j: nat, tree: Tree, doubles: Text -> bool)
    requires Good(tree) && TakesDoubles(doubles) && j < |t| && Starts(t, j, Render(tree)) && Stops(t, j + |Render(tree)|)
    ensures Dispatch(t, j, doubles) == Read.Good(Meaning(tree), j + |Render(tree)|)
    decreases tree, 1
  {
    hide Dispatch, Starts, Stops, TakesDoubles, IntegerText, DoubleText, Quoted, GoodPieces, MeaningOfPieces, Space, ToLong;
    match tree
    case TInteger(lexeme) => IntegerReads(t, j, lexeme, doubles);
    case TDouble(lexeme) => DoubleReads(t, j, lexeme, doubles);
    case TString(pieces) => QuotedReads(t, j, pieces, doubles);
    case TEmptyArray(space) => EmptyArrayReads(t, j, space, doubles);
    case TEmptyObject(space) => EmptyObjectReads(t, j, space, doubles);
    case TArray(items) => ArrayReads(t, j, items, doubles);
    case TObject(members) => ObjectReads(t, j, members, doubles);
    case TNull => WordReads(t, j, doubles);
    case TTrue => WordReads(t, j, doubles);
    case TFalse => WordReads(t, j, doubles);
  }

  lemma WordReads(t: Text, j: nat, doubles: Text -> bool)
    requires j < |t|
    ensures Starts(t, j, NULL) ==> Dispatch(t, j, doubles) == Read.Good(Null, j + |NULL|)
    ensures Starts(t, j, TRUE) ==> Dispatch(t, j, doubles) == Read.Good(Bool(true), j + |TRUE|)
    ensures Starts(t, j, FALSE) ==> Dispatch(t, j, doubles) == Read.Good(Bool(false), j + |FALSE|)
  {
    hide Starts, Number, String, Braced, Bracketed;
    if Starts(t, j, NULL) { StartsAt(t, j, NULL, 0); }
    if Starts(t, j, TRUE) { StartsAt(t, j, TRUE, 0); }
    if Starts(t, j, FALSE) { StartsAt(t, j, FALSE, 0); }
  }

  lemma IntegerReads(t: Text, j: nat, lexeme: Text, doubles: Text -> bool)
    requires IntegerText(lexeme) && ToLong(lexeme).Long? && j < |t| && Starts(t, j, lexeme) && Stops(t, j + |lexeme|)
    ensures Dispatch(t, j, doubles) == Read.Good(ToLong(lexeme), j + |lexeme|)
  {
    hide Starts, Number, String, Braced, Bracketed, ToLong, Stops;
    IntegerUnits(lexeme);
    NumberReads(t, j, lexeme, doubles);
  }

  lemma DoubleReads(t: Text, j: nat, lexeme: Text, doubles: Text -> bool)
    requires DoubleText(lexeme) && TakesDoubles(doubles) && j < |t| && Starts(t, j, lexeme) && Stops(t, j + |lexeme|)
    ensures Dispatch(t, j, doubles) == Read.Good(Double(lexeme), j + |lexeme|)
  {
    hide Starts, Number, String, Braced, Bracketed, ToLong, Stops, DoubleText, AllDigits;
    DoubleUnits(lexeme);
    NumberReads(t, j, lexeme, doubles);
  }

  lemma QuotedReads(t: Text, j: nat, pieces: seq<Piece>, doubles: Text -> bool)
    requires GoodPieces(pieces) && j < |t| && Starts(t, j, Quoted(pieces))
    ensures Dispatch(t, j, doubles) == Read.Good(Str(MeaningOfPieces(pieces)), j + |Quoted(pieces)|)
  {
    hide Starts, Number, String, Braced, Bracketed, GoodPieces, MeaningOfPieces, RenderPieces;
    StartsAt(t, j, Quoted(pieces), 0);
    StartsSplit(t, j, [QUOTE], RenderPieces(pieces) + [QUOTE]);
    StringReads(t, j + 1, pieces, []);
    assert [] + MeaningOfPieces(pieces) == MeaningOfPieces(pieces);
  }

  lemma EmptyArrayReads(t: Text, j: nat, space: Text, doubles: Text -> bool)
    requires Space(space) && j < |t| && Starts(t, j, [OPEN_BRACKET] + (space + [CLOSE_BRACKET]))
    ensures Dispatch(t, j, doubles) == Read.Good(Arr([]), j + |[OPEN_BRACKET] + (space + [CLOSE_BRACKET])|)
  {
    hide Skip, Any, String, Elements, Fields, Braced, Number, Starts;
    StartsAt(t, j, [OPEN_BRACKET] + (space + [CLOSE_BRACKET]), 0);
    ClosesEmpty(t, j, OPEN_BRACKET, space, CLOSE_BRACKET);
  }

  lemma EmptyObjectReads(t: Text, j: nat, space: Text, doubles: Text -> bool)
    requires Space(space) && j < |t| && Starts(t, j, [OPEN_BRACE] + (space + [CLOSE_BRACE]))
    ensures Dispatch(t, j, doubles) == Read.Good(Obj(map[]), j + |[OPEN_BRACE] + (space + [CLOSE_BRACE])|)
  {
    hide Skip, Any, String, Elements, Fields, Bracketed, Number, Starts;
    StartsAt(t, j, [OPEN_BRACE] + (space + [CLOSE_BRACE]), 0);
    ClosesEmpty(t, j, OPEN_BRACE, space, CLOSE_BRACE);
  }

  lemma ClosesEmpty(t: Text, j: nat, open: Unit, space: Text, close: Unit)
    requires Space(space) && !White(close) && Starts(t, j, [open] + (space + [close]))
    ensures j + 1 + |space| < |t| && Skip(t, j + 1) == j + 1 + |space| && t[j + 1 + |space|] == close
  {
    StartsSplit(t, j, [open], space + [close]);
    StartsSplit(t, j + 1, space, [close]);
    StartsAt(t, j + 1 + |space|, [close], 0);
    SkipsSpace(t, j + 1, space);
  }

  /// Skipping white space first makes no difference to what follows.
  lemma {:induction false} SkipTwice(t: Text, i: nat)
    requires i <= |t|
    ensures Skip(t, Skip(t, i)) == Skip(t, i)
    decreases |t| - i
  {
    if i < |t| && White(t[i]) { SkipTwice(t, i + 1); }
  }

  lemma SkipAny(t: Text, i: nat, doubles: Text -> bool)
    requires i <= |t|
    ensures Any(t, Skip(t, i), doubles) == Any(t, i, doubles)
  {
    hide Skip, String, Element, Elements, Field, Fields, Braced, Bracketed, Dispatch, Number, Starts;
    SkipTwice(t, i);
  }

  lemma SkipElements(t: Text, i: nat, doubles: Text -> bool)
    requires i <= |t|
    ensures Elements(t, Skip(t, i), [], doubles) == Elements(t, i, [], doubles)
  {
    hide Skip, Any, String, Field, Fields, Braced, Bracketed, Dispatch, Number, Starts;
    SkipAny(t, i, doubles);
    assert Element(t, Skip(t, i), doubles) == Element(t, i, doubles);
  }

  lemma SkipFields(t: Text, i: nat, doubles: Text -> bool)
    requires i <= |t|
    ensures Fields(t, Skip(t, i), map[], doubles) == Fields(t, i, map[], doubles)
  {
    hide Skip, Any, String, Element, Elements, Field, Braced, Bracketed, Dispatch, Number, Starts;
    SkipField(t, i, doubles);
  }

  lemma ArrayReads(t: Text, j: nat, items: Items, doubles: Text -> bool)
    requires GoodItems(items) && TakesDoubles(doubles) && j < |t| && Starts(t, j, [OPEN_BRACKET] + RenderItems(items))
    ensures Dispatch(t, j, doubles) == Read.Good(Arr(MeaningOfItems(items)), j + |[OPEN_BRACKET] + RenderItems(items)|)
    decreases items, 4
  {
    hide Skip, Any, String, Element, Elements, Fields, Braced, Number, Starts, Good, Meaning, Render;
    StartsAt(t, j, [OPEN_BRACKET] + RenderItems(items), 0);
    StartsSplit(t, j, [OPEN_BRACKET], RenderItems(items));
    ItemsRead(t, j + 1, items, [], doubles);
    assert [] + MeaningOfItems(items) == MeaningOfItems(items);
    ItemHead(t, j + 1, items);
    SkipElements(t, j + 1, doubles);
  }

  /// Where the first element starts, and that it is no closing bracket.
  lemma ItemHead(t: Text, i: nat, items: Items)
    requires GoodItems(items) && Starts(t, i, RenderItems(items))
    ensures Skip(t, i) < |t| && t[Skip(t, i)] != CLOSE_BRACKET
  {
    hide Skip, Any, String, Element, Elements, Field, Fields, Braced, Bracketed, Dispatch, Number, Starts, Render, Good;
    var tail := items.after + if items.LastItem? then [CLOSE_BRACKET] else [COMMA] + RenderItems(items.rest);
    StartsSplit(t, i, items.before, Render(items.value) + tail);
    StartsSplit(t, i + |items.before|, Render(items.value), tail);
    RenderHead(items.value);
    StartsAt(t, i + |items.before|, Render(items.value), 0);
    SkipsSpace(t, i, items.before);
    FirstUnit(items.value);
  }

  lemma FirstUnit(tree: Tree)
    requires Good(tree)
    ensures Render(tree) != [] && Render(tree)[0] != CLOSE_BRACKET && Render(tree)[0] != CLOSE_BRACE
  {
    match tree
    case TInteger(lexeme) => IntegerUnits(lexeme);
    case TDouble(lexeme) => DoubleUnits(lexeme);
    case _ =>
  }

  lemma {:induction false} ItemsRead(t: Text, i: nat, items: Items, read: seq<Value>, doubles: Text -> bool)
    requires GoodItems(items) && TakesDoubles(doubles) && Starts(t, i, RenderItems(items))
    ensures Elements(t, i, read, doubles) == Read.Good(Arr(read + MeaningOfItems(items)), i + |RenderItems(items)|)
    decreases items, 3
  {
    hide Skip, Any, String, Element, Field, Fields, Braced, Bracketed, Dispatch, Number, Starts, Good, Meaning, Render;
    var end := if items.LastItem? then [CLOSE_BRACKET] else [COMMA] + RenderItems(items.rest);
    ItemReads(t, i, items.before, items.value, items.after, end, doubles);
    var m := i + |items.before| + |Render(items.value)| + |items.after|;
    StartsAt(t, m, end, 0);
    if items.LastItem? {
      assert MeaningOfItems(items) == [Meaning(items.value)];
    } else {
      StartsSplit(t, m, [COMMA], RenderItems(items.rest));
      ItemsRead(t, m + 1, items.rest, read + [Meaning(items.value)], doubles);
      assert read + MeaningOfItems(items) == read + [Meaning(items.value)] + MeaningOfItems(items.rest);
    }
  }

  lemma ItemReads(t: Text, i: nat, before: Text, value: Tree, after: Text, end: Text, doubles: Text -> bool)
    requires Space(before) && Good(value) && Space(after) && TakesDoubles(doubles)
    requires end != [] && !White(end[0]) && !NumberUnit(end[0])
    requires Starts(t, i, before + (Render(value) + (after + end)))
    ensures Starts(t, i + |before| + |Render(value)| + |after|, end)
    ensures Element(t, i, doubles) == Read.Good(Meaning(value), i + |before| + |Render(value)| + |after|)
    decreases value, 3
  {
    hide Skip, Any, String, Elements, Field, Fields, Braced, Bracketed, Dispatch, Number, Starts, Good, Render, Meaning;
    var a := i + |before|;
    var z := a + |Render(value)|;
    StartsSplit(t, i, before, Render(value) + (after + end));
    StartsSplit(t, a, Render(value), after + end);
    StartsSplit(t, z, after, end);
    StartsAt(t, z + |after|, end, 0);
    if after != [] { StartsAt(t, z, after, 0); }
    AnyReads(t, i, before, value, doubles);
    SkipsSpace(t, z, after);
  }

  lemma ObjectReads(t: Text, j: nat, members: Members, doubles: Text -> bool)
    requires GoodMembers(members) && TakesDoubles(doubles) && j < |t| && Starts(t, j, [OPEN_BRACE] + RenderMembers(members))
    ensures Dispatch(t, j, doubles) == Read.Good(Obj(MeaningOfMembers(members, map[])), j + |[OPEN_BRACE] + RenderMembers(members)|)
    decreases members, 4
  {
    hide Skip, Any, String, Element, Elements, Fields, Bracketed, Number, Starts, Good, Meaning, Render, RenderMember;
    StartsAt(t, j, [OPEN_BRACE] + RenderMembers(members), 0);
    StartsSplit(t, j, [OPEN_BRACE], RenderMembers(members));
    MembersRead(t, j + 1, members, map[], doubles);
    MemberHead(t, j + 1, members);
    SkipFields(t, j + 1, doubles);
  }

  lemma SkipField(t: Text, i: nat, doubles: Text -> bool)
    requires i <= |t|
    ensures Field(t, Skip(t, i), doubles) == Field(t, i, doubles)
  {
    hide Skip, FieldAt;
    SkipTwice(t, i);
  }

  lemma MemberHead(t: Text, i: nat, members: Members)
    requires GoodMembers(members) && Starts(t, i, RenderMembers(members))
    ensures Skip(t, i) < |t| && t[Skip(t, i)] == QUOTE
  {
    hide Skip, Starts, Good, Render, RenderMember, GoodPieces, RenderPieces;
    var m := members.m;
    StartsSplit(t, i, RenderMember(m), if members.LastMember? then [CLOSE_BRACE] else [COMMA] + RenderMembers(members.rest));
    MemberParts(t, i, m);
    StartsAt(t, i + |m.before|, Quoted(m.key), 0);
    SkipsSpace(t, i, m.before);
  }

  lemma {:induction false} MembersRead(t: Text, i: nat, members: Members, read: map<Text, Value>, doubles: Text -> bool)
    requires GoodMembers(members) && TakesDoubles(doubles) && Starts(t, i, RenderMembers(members))
    ensures Fields(t, i, read, doubles) == Read.Good(Obj(MeaningOfMembers(members, read)), i + |RenderMembers(members)|)
    decreases members, 3
  {
    hide Skip, Any, String, Element, Elements, Field, Braced, Bracketed, Dispatch, Number, Starts, RenderMember, Good, Meaning;
    var m := members.m;
    var end := if members.LastMember? then [CLOSE_BRACE] else [COMMA] + RenderMembers(members.rest);
    StartsSplit(t, i, RenderMember(m), end);
    var j := i + |RenderMember(m)|;
    StartsAt(t, j, end, 0);
    MemberReads(t, i, m, doubles);
    if members.MoreMembers? {
      StartsSplit(t, j, [COMMA], RenderMembers(members.rest));
      MembersRead(t, j + 1, members.rest, read[MeaningOfPieces(m.key) := Meaning(m.value)], doubles);
    }
  }

  ghost predicate GoodMember(m: Member) {
    Space(m.before) && GoodPieces(m.key) && Space(m.between) && Space(m.gap) && Good(m.value) && Space(m.after)
  }

  lemma FieldIs(t: Text, i: nat, j: nat, key: Text, k: nat, colon: nat, value: Value, n: nat, doubles: Text -> bool)
    requires i <= |t| && Skip(t, i) == j < |t| && t[j] == QUOTE && String(t, j + 1, []) == Read.Good(key, k)
    requires k <= |t| && Skip(t, k) == colon < |t| && t[colon] == COLON && Element(t, colon + 1, doubles) == Read.Good(value, n)
    ensures Field(t, i, doubles) == Read.Good(Entry(key, value), n)
  {
    hide Skip, Any, String, Element;
  }

  /// Where the colon of a member is.
  function ColonAt(i: nat, m: Member): nat { i + |m.before| + |Quoted(m.key)| + |m.between| }

  lemma MemberParts(t: Text, i: nat, m: Member)
    requires Starts(t, i, RenderMember(m))
    ensures Starts(t, i, m.before) && Starts(t, i + |m.before|, Quoted(m.key))
    ensures Starts(t, i + |m.before| + |Quoted(m.key)|, m.between) && ColonAt(i, m) < |t| && t[ColonAt(i, m)] == COLON
    ensures Starts(t, ColonAt(i, m) + 1, m.gap + (Render(m.value) + m.after))
    ensures i + |RenderMember(m)| == ColonAt(i, m) + 1 + |m.gap| + |Render(m.value)| + |m.after|
  {
    hide Quoted, Render, Starts;
    var value := m.gap + (Render(m.value) + m.after);
    var tail := m.between + ([COLON] + value);
    StartsSplit(t, i, m.before, Quoted(m.key) + tail);
    StartsSplit(t, i + |m.before|, Quoted(m.key), tail);
    var k := i + |m.before| + |Quoted(m.key)|;
    StartsSplit(t, k, m.between, [COLON] + value);
    StartsSplit(t, k + |m.between|, [COLON], value);
    StartsAt(t, k + |m.between|, [COLON], 0);
    assert Starts(t, k + |m.between|, [COLON]) ==> k + |m.between| < |t| by { StartsInside(t, k + |m.between|, [COLON]); }
  }

  lemma StartsInside(t: Text, i: nat, a: Text)
    ensures Starts(t, i, a) ==> i + |a| <= |t|
  {}

  lemma MemberReads(t: Text, i: nat, m: Member, doubles: Text -> bool)
    requires GoodMember(m) && TakesDoubles(doubles) && Starts(t, i, RenderMember(m))
    requires var j := i + |RenderMember(m)|; j < |t| && !White(t[j]) && !NumberUnit(t[j])
    ensures Field(t, i, doubles) == Read.Good(Entry(MeaningOfPieces(m.key), Meaning(m.value)), i + |RenderMember(m)|)
    decreases m, 2
  {
    hide Skip, Any, String, Element, Elements, Field, Fields, Braced, Bracketed, Dispatch, Number, Starts, Quoted, Render, RenderMember, Good, Meaning;
    MemberParts(t, i, m);
    KeyReads(t, i, m.before, m.key);
    SkipsSpace(t, i + |m.before| + |Quoted(m.key)|, m.between);
    ValueReads(t, ColonAt(i, m) + 1, m, doubles);
    FieldIs(t, i, i + |m.before|, MeaningOfPieces(m.key), i + |m.before| + |Quoted(m.key)|, ColonAt(i, m), Meaning(m.value), i + |RenderMember(m)|, doubles);
  }

  lemma KeyReads(t: Text, i: nat, before: Text, key: seq<Piece>)
    requires Space(before) && GoodPieces(key) && Starts(t, i, before) && Starts(t, i + |before|, Quoted(key))
    ensures Skip(t, i) == i + |before| < |t| && t[i + |before|] == QUOTE
    ensures String(t, i + |before| + 1, []) == Read.Good(MeaningOfPieces(key), i + |before| + |Quoted(key)|)
  {
    hide Skip, Any, String, Element, Elements, Field, Fields, Braced, Bracketed, Dispatch, Number, Starts, RenderPieces;
    var a := i + |before|;
    StartsAt(t, a, Quoted(key), 0);
    StartsSplit(t, a, [QUOTE], RenderPieces(key) + [QUOTE]);
    StringReads(t, a + 1, key, []);
    SkipsSpace(t, i, before);
    assert [] + MeaningOfPieces(key) == MeaningOfPieces(key);
  }

  lemma ValueReads(t: Text, i: nat, m: Member, doubles: Text -> bool)
    requires GoodMember(m) && TakesDoubles(doubles) && Starts(t, i, m.gap + (Render(m.value) + m.after))
    requires var j := i + |m.gap| + |Render(m.value)| + |m.after|; j < |t| && !White(t[j]) && !NumberUnit(t[j])
    ensures Element(t, i, doubles) == Read.Good(Meaning(m.value), i + |m.gap| + |Render(m.value)| + |m.after|)
    decreases m, 1
  {
    hide Skip, Any, String, Elements, Field, Fields, Braced, Bracketed, Dispatch, Number, Starts, Good, Render, Meaning, Quoted;
    var a := i + |m.gap|;
    var z := a + |Render(m.value)|;
    StartsSplit(t, i, m.gap, Render(m.value) + m.after);
    StartsSplit(t, a, Render(m.value), m.after);
    if m.after != [] { StartsAt(t, z, m.after, 0); }
    AnyReads(t, i, m.gap, m.value, doubles);
    SkipsSpace(t, z, m.after);
  }

  /// Every text of RFC 8259 whose integers are in the range of a Long, with any
  /// white space and any choice of escapes, is read as what it means.
  lemma ParseReads(before: Text, tree: Tree, after: Text, doubles: Text -> bool)
    requires Good(tree) && Space(before) && Space(after) && TakesDoubles(doubles)
    ensures var t := before + (Render(tree) + after); Parse(t, doubles) == Read.Good(Meaning(tree), |t|)
  {
    hide Skip, Any, String, Element, Elements, Field, Fields, Braced, Bracketed, Dispatch, Number, Render, Good, Meaning;
    var t := before + (Render(tree) + after);
    assert t[0..0 + |t|] == t;
    StartsSplit(t, 0, before, Render(tree) + after);
    StartsSplit(t, |before|, Render(tree), after);
    var z := |before| + |Render(tree)|;
    if after != [] { StartsAt(t, z, after, 0); }
    AnyReads(t, 0, before, tree, doubles);
    SkipAny(t, 0, doubles);
    SkipsSpace(t, z, after);
  }

  /// The last of the members with this key, if any.
  ghost function LastNamed(ms: Members, key: Text): seq<Tree>
    requires GoodMembers(ms)
  {
    var later := if ms.LastMember? then [] else LastNamed(ms.rest, key);
    if later != [] then later else if MeaningOfPieces(ms.m.key) == key then [ms.m.value] else []
  }

  /// The last duplicate key wins.
  lemma {:induction false} LastKeyWins(ms: Members, read: map<Text, Value>, key: Text)
    requires GoodMembers(ms)
    ensures var now := MeaningOfMembers(ms, read); var last := LastNamed(ms, key);
      if last == [] then (key in now <==> key in read) && (key in now ==> now[key] == read[key])
      else |last| == 1 && Good(last[0]) && key in now && now[key] == Meaning(last[0])
  {
    if ms.MoreMembers? {
      LastKeyWins(ms.rest, read[MeaningOfPieces(ms.m.key) := Meaning(ms.m.value)], key);
    }
  }

  /// A value with integers in the range of a Long, and doubles as written.
  ghost predicate Storable(v: Value) {
    match v
    case Long(n) => MIN_LONG <= n <= MAX_LONG
    case Double(lexeme) => DoubleText(lexeme)
    case Arr(items) => forall k :: 0 <= k < |items| ==> Storable(items[k])
    case Obj(fields) => forall key :: key in fields ==> Storable(fields[key])
    case _ => true
  }

  function Shown(n: nat): Text { if n < 10 then [ZERO + n] else Shown(n / 10) + [ZERO + n % 10] }

  lemma {:induction false} ShownReads(n: nat)
    ensures AllDigits(Shown(n)) && Decimal(Shown(n)) == n && Shown(n) != []
    ensures n > 0 ==> Shown(n)[0] != ZERO
    ensures n < 10 ==> |Shown(n)| == 1
  {
    if n >= 10 {
      ShownReads(n / 10);
      assert Shown(n)[..|Shown(n)| - 1] == Shown(n / 10);
    } else {
      assert [ZERO + n][..0] == [];
      assert Decimal([]) == 0;
    }
  }

  lemma LongIsWritten(n: int) returns (lexeme: Text)
    requires MIN_LONG <= n <= MAX_LONG
    ensures IntegerText(lexeme) && ToLong(lexeme) == Long(n)
  {
    var size := if n < 0 then -n else n;
    ShownReads(size);
    lexeme := if n < 0 then [MINUS] + Shown(size) else Shown(size);
    assert Unsigned(lexeme) == Shown(size);
  }

  function HexUnit(d: nat): Unit
    requires d < 16
  {
    if d < 10 then ZERO + d else 0x61 + d - 10
  }

  function HexOf(c: Unit): Text { [HexUnit(c / 0x1000), HexUnit(c / 0x100 % 16), HexUnit(c / 16 % 16), HexUnit(c % 16)] }

  lemma HexUnits(c: Unit)
    ensures |HexOf(c)| == 4 && HexDigit(HexOf(c)[0]) == c / 0x1000 && HexDigit(HexOf(c)[1]) == c / 0x100 % 16
    ensures HexDigit(HexOf(c)[2]) == c / 16 % 16 && HexDigit(HexOf(c)[3]) == c % 16
  {}

  lemma HexIsRead(c: Unit)
    ensures GoodPiece(Code(HexOf(c))) && MeaningOfPiece(Code(HexOf(c))) == c
  {
    hide HexDigit, HexOf;
    HexUnits(c);
    var h := HexOf(c);
    assert h[..3][..2][..1][..0] == [] && h[..3][..2][..1] == [h[0]] && h[..3][..2] == [h[0], h[1]] && h[..3] == [h[0], h[1], h[2]];
    assert HexDigits([h[0]]) == c / 0x1000;
    assert HexDigits([h[0], h[1]]) == c / 0x100;
    assert HexDigits([h[0], h[1], h[2]]) == c / 16;
  }

  function Escaped(s: Text): seq<Piece> { if s == [] then [] else [Code(HexOf(s[0]))] + Escaped(s[1..]) }

  lemma {:induction false} EscapedReads(s: Text)
    ensures GoodPieces(Escaped(s)) && MeaningOfPieces(Escaped(s)) == s
  {
    hide GoodPiece, MeaningOfPiece, HexOf;
    if s != [] {
      HexIsRead(s[0]);
      EscapedReads(s[1..]);
      assert Escaped(s)[1..] == Escaped(s[1..]);
      assert s == [s[0]] + s[1..];
    }
  }

  /// Every storable value is the meaning of some text, so the round trip
  /// reaches all of them.
  lemma {:induction false} ValueIsWritten(v: Value) returns (t: Tree)
    requires Storable(v)
    ensures Good(t) && Meaning(t) == v
    decreases v, 1
  {
    match v
    case Null => t := TNull;
    case Bool(b) => t := if b then TTrue else TFalse;
    case Long(n) =>
      var lexeme := LongIsWritten(n);
      t := TInteger(lexeme);
    case Double(lexeme) => t := TDouble(lexeme);
    case Str(s) =>
      EscapedReads(s);
      t := TString(Escaped(s));
    case Arr(items) =>
      if items == [] {
        t := TEmptyArray([]);
      } else {
        var written := ItemsAreWritten(v, 0);
        assert items[0..] == items;
        t := TArray(written);
      }
    case Obj(fields) =>
      if fields.Keys == {} {
        t := TEmptyObject([]);
        assert fields == map[];
      } else {
        var written := MembersAreWritten(v, fields.Keys, map[]);
        assert map[] + Only(fields, fields.Keys) == fields;
        t := TObject(written);
      }
  }

  lemma {:induction false} ItemsAreWritten(v: Value, k: nat) returns (items: Items)
    requires v.Arr? && Storable(v) && k < |v.items|
    ensures GoodItems(items) && MeaningOfItems(items) == v.items[k..]
    decreases v, 0, |v.items| - k
  {
    var t := ValueIsWritten(v.items[k]);
    if k + 1 == |v.items| {
      items := LastItem([], t, []);
    } else {
      var rest := ItemsAreWritten(v, k + 1);
      items := MoreItems([], t, [], rest);
    }
  }

  function Only(fields: map<Text, Value>, keys: set<Text>): map<Text, Value> {
    map k | k in keys && k in fields :: fields[k]
  }

  lemma MergeOne(read: map<Text, Value>, fields: map<Text, Value>, keys: set<Text>, key: Text)
    requires key in keys && key in fields
    ensures read[key := fields[key]] + Only(fields, keys - {key}) == read + Only(fields, keys)
    ensures Only(fields, {}) == map[]
  {}

  lemma {:induction false} MembersAreWritten(v: Value, keys: set<Text>, read: map<Text, Value>) returns (ms: Members)
    requires v.Obj? && Storable(v) && keys != {} && keys <= v.fields.Keys
    ensures GoodMembers(ms) && MeaningOfMembers(ms, read) == read + Only(v.fields, keys)
    decreases v, 0, |keys|
  {
    hide Meaning, Good, GoodPieces, MeaningOfPieces, Escaped;
    var key :| key in keys;
    var t := ValueIsWritten(v.fields[key]);
    EscapedReads(key);
    var m := Member([], Escaped(key), [], [], t, []);
    var rest := keys - {key};
    var now := read[key := v.fields[key]];
    MergeOne(read, v.fields, keys, key);
    if rest == {} {
      ms := LastMember(m);
    } else {
      var others := MembersAreWritten(v, rest, now);
      ms := MoreMembers(m, others);
    }
  }
}

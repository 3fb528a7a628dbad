/**
 The byte-level tokenizer end to end: added tokens are cut out first, the rest is pre-tokenized, every
 byte becomes the token of its printable symbol, and pairs are merged. Decoding undoes it on every
 well-formed text.
 */
module Tokenizer {
  import opened Lists
  import opened Utf8
  import Bpe
  import PreTokenizer

  type Id = Bpe.Id

  /** `text` is the string stored for each id: symbols of the byte alphabet, or an added token as it is. */
  datatype Vocab = Vocab(
    byteId: seq<Id>,
    text: map<Id, seq<Byte>>,
    merges: Bpe.Merges,
    added: seq<(seq<Byte>, Id)>,
    tables: PreTokenizer.Tables)

  // ---- the byte alphabet ----

  predicate Printable(b: nat) { 0x21 <= b <= 0x7E || 0xA1 <= b <= 0xAC || 0xAE <= b <= 0xFF }

  /** Printable bytes stand for themselves; the others are numbered from 256 on. */
  function Symbol(b: Byte): (cp: Cp)
    ensures cp < 0x200
  {
    if Printable(b) then b
    else if b <= 0x20 then 0x100 + b
    else if b <= 0xA0 then 0x121 + (b - 0x7F)
    else 0x143
  }

  lemma SymbolInjective(a: Byte, b: Byte)
    requires Symbol(a) == Symbol(b)
    ensures a == b
  {
  }

  /** The table as the constructor builds it: a counter runs over the bytes that are not printable. */
  method BuildByteTable() returns (table: seq<Cp>)
    ensures |table| == 256 && forall b: Byte :: table[b] == Symbol(b)
  {
    table := [];
    var n := 0;
    for b := 0 to 256
      invariant |table| == b && forall k: Byte :: k < b ==> table[k] == Symbol(k)
      invariant n == if b <= 0x21 then b else if b <= 0x7F then 0x21 else if b <= 0xA1 then 0x21 + (b - 0x7F) else if b <= 0xAD then 0x43 else 0x44
    {
      if Printable(b) {
        table := table + [b];
      } else {
        table := table + [256 + n];
        n := n + 1;
      }
    }
  }

  function SymbolText(b: Byte): seq<Byte> { EncodeCp(Symbol(b)) }

  /** The byte whose symbol is `x`, searched among the first `n`. */
  function FindByte(x: seq<Byte>, n: nat): Option<Byte>
    requires n <= 256
  {
    if n == 0 then None else if SymbolText(n - 1) == x then Some(n - 1) else FindByte(x, n - 1)
  }

  lemma SymbolTextInjective(a: Byte, b: Byte)
    requires SymbolText(a) == SymbolText(b)
    ensures a == b
  {
    hide EncodeCp;
    var x := SymbolText(a);
    assert x[0..0 + |x|] == x;
    DecodeEncoded(x, 0, Symbol(a));
    DecodeEncoded(x, 0, Symbol(b));
    SymbolInjective(a, b);
  }

  lemma {:induction false} FindSymbol(b: Byte, n: nat)
    requires b < n <= 256
    ensures FindByte(SymbolText(b), n) == Some(b)
  {
    hide SymbolText;
    if SymbolText(n - 1) == SymbolText(b) {
      SymbolTextInjective(n - 1, b);
    } else {
      FindSymbol(b, n - 1);
    }
  }

  /** The symbols of a byte string. */
  function Symbols(w: seq<Byte>): seq<Byte> {
    if w == [] then [] else SymbolText(w[0]) + Symbols(w[1..])
  }

  lemma {:induction false} SymbolsConcat(a: seq<Byte>, b: seq<Byte>)
    ensures Symbols(a + b) == Symbols(a) + Symbols(b)
  {
    hide SymbolText;
    if a == [] {
      assert a + b == b;
    } else {
      SymbolsConcat(a[1..], b);
      assert (a + b)[1..] == a[1..] + b;
    }
  }

  // ---- decoding ----

  /** Turn a stored string back into bytes, symbol by symbol. */
  function DecodeText(tok: seq<Byte>, i: nat): seq<Byte>
    requires i <= |tok|
    decreases |tok| - i
  {
    if i == |tok| then []
    else
      var len := DecodeAt(tok, i).1;
      var b := match FindByte(tok[i..i + len], 256) case Some(b) => b case None => 0x3F;
      [b] + DecodeText(tok, i + len)
  }

  lemma {:induction false} DecodeSymbols(tok: seq<Byte>, i: nat, w: seq<Byte>)
    requires i <= |tok| && tok[i..] == Symbols(w)
    ensures DecodeText(tok, i) == w
    decreases |w|
  {
    hide DecodeAt, EncodeCp, FindByte;
    if w != [] {
      var e := SymbolText(w[0]);
      assert tok[i..i + |e|] == tok[i..][..|e|] == e;
      DecodeEncoded(tok, i, Symbol(w[0]));
      FindSymbol(w[0], 256);
      assert tok[i + |e|..] == tok[i..][|e|..] == Symbols(w[1..]);
      DecodeSymbols(tok, i + |e|, w[1..]);
    }
  }

  predicate IsAdded(v: Vocab, id: Id) {
    exists k :: 0 <= k < |v.added| && v.added[k].1 == id
  }

  function DecodeToken(v: Vocab, id: Id): seq<Byte> {
    if id !in v.text then [] else if IsAdded(v, id) then v.text[id] else DecodeText(v.text[id], 0)
  }

  function Decode(v: Vocab, ids: seq<Id>): seq<Byte> {
    if ids == [] then [] else DecodeToken(v, ids[0]) + Decode(v, ids[1..])
  }

  lemma {:induction false} DecodeConcat(v: Vocab, a: seq<Id>, b: seq<Id>)
    ensures Decode(v, a + b) == Decode(v, a) + Decode(v, b)
  {
    hide DecodeToken;
    if a == [] {
      assert a + b == b;
    } else {
      DecodeConcat(v, a[1..], b);
      assert (a + b)[1..] == a[1..] + b;
    }
  }

  // ---- what a vocabulary must satisfy ----

  /** Every byte has a token; a merge's result is the concatenation of its parts; added tokens have ids of their own. */
  ghost predicate ValidVocab(v: Vocab) {
    && |v.byteId| == 256 && (forall b: Byte :: Stored(v, v.byteId[b], SymbolText(b)))
    && Bpe.ValidMerges(v.merges) && (forall p :: p in v.merges ==> Concatenates(v, p))
    && (forall k :: 0 <= k < |v.added| ==> AddedOk(v, v.added[k]))
    && PreTokenizer.ValidTables(v.tables)
  }

  ghost predicate Stored(v: Vocab, id: Id, x: seq<Byte>) {
    id in v.text && v.text[id] == x && !IsAdded(v, id)
  }

  ghost predicate Concatenates(v: Vocab, p: (Id, Id))
    requires p in v.merges
  {
    p.0 in v.text && p.1 in v.text && Stored(v, v.merges[p].id, v.text[p.0] + v.text[p.1])
  }

  ghost predicate AddedOk(v: Vocab, a: (seq<Byte>, Id)) {
    a.0 != [] && WellFormed(a.0) && a.1 in v.text && v.text[a.1] == a.0
  }

  // ---- merging keeps what the tokens spell ----

  /** A token that spells some bytes. */
  ghost predicate Spells(v: Vocab, id: Id) {
    exists w :: Stored(v, id, Symbols(w))
  }

  lemma SpelledDecodes(v: Vocab, id: Id, w: seq<Byte>)
    requires Stored(v, id, Symbols(w))
    ensures DecodeToken(v, id) == w && Spells(v, id)
  {
    hide DecodeText;
    var tok := v.text[id];
    assert tok[0..] == tok;
    DecodeSymbols(tok, 0, w);
  }

  lemma PairSpells(v: Vocab, a: Id, b: Id)
    requires (a, b) in v.merges && Concatenates(v, (a, b)) && Spells(v, a) && Spells(v, b)
    ensures Spells(v, v.merges[(a, b)].id)
    ensures DecodeToken(v, v.merges[(a, b)].id) == DecodeToken(v, a) + DecodeToken(v, b)
  {
    hide DecodeToken, Symbols;
    var wa :| Stored(v, a, Symbols(wa));
    var wb :| Stored(v, b, Symbols(wb));
    SymbolsConcat(wa, wb);
    SpelledDecodes(v, a, wa);
    SpelledDecodes(v, b, wb);
    SpelledDecodes(v, v.merges[(a, b)].id, wa + wb);
  }

  ghost predicate AllSpell(v: Vocab, ids: seq<Id>) {
    forall i :: 0 <= i < |ids| ==> Spells(v, ids[i])
  }

  lemma {:induction false} MergeAllKeeps(v: Vocab, s: seq<Id>, a: Id, b: Id)
    requires (a, b) in v.merges && Concatenates(v, (a, b)) && AllSpell(v, s)
    ensures var r := Bpe.MergeAll(s, a, b, v.merges[(a, b)].id); AllSpell(v, r) && Decode(v, r) == Decode(v, s)
  {
    hide Spells, Concatenates, DecodeToken;
    var c := v.merges[(a, b)].id;
    if |s| >= 2 {
      if s[0] == a && s[1] == b {
        assert Spells(v, s[0]) && Spells(v, s[1]);
        PairSpells(v, a, b);
        MergeAllKeeps(v, s[2..], a, b);
        assert s[1..][1..] == s[2..];
        var rest := Bpe.MergeAll(s[2..], a, b, c);
        assert ([c] + rest)[1..] == rest;
        assert Decode(v, s) == DecodeToken(v, a) + (DecodeToken(v, b) + Decode(v, s[2..]));
      } else {
        MergeAllKeeps(v, s[1..], a, b);
        var rest := Bpe.MergeAll(s[1..], a, b, c);
        assert ([s[0]] + rest)[1..] == rest;
      }
    }
  }

  lemma {:induction false} BpeKeeps(v: Vocab, s: seq<Id>)
    requires ValidVocab(v) && AllSpell(v, s)
    ensures Decode(v, Bpe.AllAtOnce(v.merges, s)) == Decode(v, s)
    decreases |s|
  {
    hide AllSpell, Decode, Bpe.MergeAll, WellFormed;
    var best := Bpe.BestAt(v.merges, s, |s|);
    if best.Some? {
      var i := best.value;
      assert Concatenates(v, (s[i], s[i + 1]));
      MergeAllKeeps(v, s, s[i], s[i + 1]);
      BpeKeeps(v, Bpe.Pass(v.merges, s, i));
    }
  }

  // ---- encoding ----

  function ByteIds(v: Vocab, w: seq<Byte>): seq<Id>
    requires |v.byteId| == 256
  {
    if w == [] then [] else [v.byteId[w[0]]] + ByteIds(v, w[1..])
  }

  lemma {:induction false} ByteIdsSpell(v: Vocab, w: seq<Byte>)
    requires ValidVocab(v)
    ensures AllSpell(v, ByteIds(v, w)) && Decode(v, ByteIds(v, w)) == w
  {
    hide Spells, DecodeToken, WellFormed, SymbolText;
    if w != [] {
      ByteIdsSpell(v, w[1..]);
      ByteSpells(v, w[0]);
      assert ByteIds(v, w)[1..] == ByteIds(v, w[1..]);
    }
  }

  lemma ByteSpells(v: Vocab, b: Byte)
    requires ValidVocab(v)
    ensures Spells(v, v.byteId[b]) && DecodeToken(v, v.byteId[b]) == [b]
  {
    hide WellFormed, DecodeToken, SymbolText;
    assert Symbols([b]) == SymbolText(b) + [] by { assert [b][1..] == []; }
    assert Stored(v, v.byteId[b], Symbols([b]));
    SpelledDecodes(v, v.byteId[b], [b]);
  }

  /** One word: its bytes' tokens, merged. */
  method EncodeWord(v: Vocab, word: seq<Byte>) returns (ids: seq<Id>)
    requires ValidVocab(v)
    ensures ids == Bpe.AllAtOnce(v.merges, ByteIds(v, word)) && Decode(v, ids) == word
  {
    hide Decode, AllSpell, WellFormed, Stored;
    ids := [];
    assert word[0..] == word;
    for i := 0 to |word|
      invariant ids + ByteIds(v, word[i..]) == ByteIds(v, word)
    {
      assert word[i..][1..] == word[i + 1..];
      ids := ids + [v.byteId[word[i]]];
    }
    assert word[|word|..] == [];
    assert ids == ByteIds(v, word);
    ByteIdsSpell(v, word);
    BpeKeeps(v, ByteIds(v, word));
    ids := Bpe.BpeMerge(v.merges, ids);
  }

  method ToCodePoints(s: seq<Byte>) returns (cps: seq<Cp>)
    ensures cps == ToCps(s, 0)
  {
    hide DecodeAt;
    cps := [];
    var i := 0;
    while i < |s|
      invariant i <= |s| && cps + ToCps(s, i) == ToCps(s, 0)
      decreases |s| - i
    {
      var (cp, len) := DecodeAt(s, i);
      cps := cps + [cp];
      i := i + len;
    }
  }

  /** All pieces, encoded again, in a row. */
  ghost function EncodePieces(pieces: seq<seq<Cp>>, n: nat): seq<Byte>
    requires n <= |pieces| && forall k :: 0 <= k < |pieces| ==> AllCps(pieces[k])
  {
    if n == 0 then [] else EncodePieces(pieces, n - 1) + EncodeAll(pieces[n - 1])
  }

  lemma {:induction false} ConcatCps(pieces: seq<seq<Cp>>)
    requires AllCps(PreTokenizer.Concat(pieces))
    ensures forall k :: 0 <= k < |pieces| ==> AllCps(pieces[k])
  {
    if pieces != [] {
      var rest := PreTokenizer.Concat(pieces[1..]);
      var all := pieces[0] + rest;
      assert forall i :: 0 <= i < |pieces[0]| ==> pieces[0][i] == all[i];
      assert forall i :: 0 <= i < |rest| ==> rest[i] == all[|pieces[0]| + i];
      ConcatCps(pieces[1..]);
      forall k | 0 <= k < |pieces| ensures AllCps(pieces[k]) {
        if k > 0 { assert pieces[k] == pieces[1..][k - 1]; }
      }
    }
  }

  lemma {:induction false} PiecesFrom(pieces: seq<seq<Cp>>, n: nat)
    requires n <= |pieces| && (forall k :: 0 <= k < |pieces| ==> AllCps(pieces[k])) && AllCps(PreTokenizer.Concat(pieces[n..]))
    ensures EncodePieces(pieces, |pieces|) == EncodePieces(pieces, n) + EncodeAll(PreTokenizer.Concat(pieces[n..]))
    decreases |pieces| - n
  {
    hide EncodeAll;
    if n == |pieces| {
      assert EncodeAll([]) == [] by { NoCps(); }
    } else {
      assert pieces[n..][1..] == pieces[n + 1..];
      var rest := PreTokenizer.Concat(pieces[n + 1..]);
      var all := pieces[n] + rest;
      assert forall i :: 0 <= i < |rest| ==> rest[i] == all[|pieces[n]| + i];
      EncodeConcat(pieces[n], rest);
      PiecesFrom(pieces, n + 1);
    }
  }

  lemma NoCps()
    ensures EncodeAll([]) == []
  {
  }

  /** The tokens of one piece: those of its bytes, merged. */
  ghost function WordIds(v: Vocab, piece: seq<Cp>): seq<Id>
    requires ValidVocab(v)
  {
    if AllCps(piece) then Bpe.AllAtOnce(v.merges, ByteIds(v, EncodeAll(piece))) else []
  }

  /** The tokens of the first `n` pieces, in a row. */
  ghost function PieceIds(v: Vocab, pieces: seq<seq<Cp>>, n: nat): seq<Id>
    requires ValidVocab(v) && n <= |pieces|
  {
    if n == 0 then [] else PieceIds(v, pieces, n - 1) + WordIds(v, pieces[n - 1])
  }

  /** The tokens of a chunk: those of the pieces that the pattern cuts its code points into. */
  ghost function ChunkIds(v: Vocab, chunk: seq<Byte>): seq<Id>
    requires ValidVocab(v)
  {
    var pieces := PreTokenizer.Pieces(v.tables, ToCps(chunk, 0), 0);
    PieceIds(v, pieces, |pieces|)
  }

  /** A chunk without added tokens. */
  method EncodeChunk(v: Vocab, chunk: seq<Byte>) returns (out: seq<Id>)
    requires ValidVocab(v) && WellFormed(chunk)
    ensures out == ChunkIds(v, chunk) && Decode(v, out) == chunk
  {
    hide ValidVocab, EncodeAll, Decode, PreTokenizer.Pieces, Bpe.AllAtOnce, ByteIds;
    ghost var want :| AllCps(want) && chunk == EncodeAll(want);
    assert chunk[0..] == chunk;
    DecodeAll(chunk, 0, want);
    VocabTables(v);
    var cps := ToCodePoints(chunk);
    var pieces := PreTokenizer.PreTokenize(v.tables, cps);
    ConcatCps(pieces);
    out := [];
    assert Decode(v, []) == [] by { DecodeNothing(v); }
    for k := 0 to |pieces|
      invariant Decode(v, out) == EncodePieces(pieces, k) && out == PieceIds(v, pieces, k)
    {
      var ids := EncodeWord(v, EncodeAll(pieces[k]));
      DecodeConcat(v, out, ids);
      out := out + ids;
    }
    assert pieces[0..] == pieces;
    PiecesFrom(pieces, 0);
  }

  lemma DecodeNothing(v: Vocab)
    ensures Decode(v, []) == []
  {
  }

  lemma VocabTables(v: Vocab)
    requires ValidVocab(v)
    ensures PreTokenizer.ValidTables(v.tables)
  {
  }

  /** The first occurrence of `x` at or after `pos`. */
  method FindIn(text: seq<Byte>, x: seq<Byte>, pos: nat) returns (r: Option<nat>)
    requires pos <= |text|
    ensures r.Some? ==> pos <= r.value && StandsAt(x, text, r.value) && forall i :: pos <= i < r.value ==> !StandsAt(x, text, i)
    ensures r.None? ==> forall i :: pos <= i ==> !StandsAt(x, text, i)
  {
    var i := pos;
    while i + |x| <= |text|
      invariant pos <= i && forall k :: pos <= k < i ==> !StandsAt(x, text, k)
      decreases |text| - i
    {
      if text[i..i + |x|] == x {
        return Some(i);
      }
      i := i + 1;
    }
    return None;
  }

  datatype Hit = NoHit | Hit(at: nat, k: nat)

  /** No added token among the first `n` stands earlier than the hit, none that stands there is longer, and none before it in the list as long. */
  ghost predicate BestHit(v: Vocab, text: seq<Byte>, pos: nat, n: nat, hit: Hit) {
    match hit
    case NoHit => forall k, i :: 0 <= k < n <= |v.added| && pos <= i ==> !StandsAt(v.added[k].0, text, i)
    case Hit(at, best) =>
      && best < n <= |v.added| && pos <= at && StandsAt(v.added[best].0, text, at)
      && (forall k, i :: 0 <= k < n && pos <= i < at ==> !StandsAt(v.added[k].0, text, i))
      && (forall k :: 0 <= k < n && StandsAt(v.added[k].0, text, at) ==> |v.added[k].0| <= |v.added[best].0|)
      && (forall k :: 0 <= k < best && StandsAt(v.added[k].0, text, at) ==> |v.added[k].0| < |v.added[best].0|)
  }

  /** The hit is determined. */
  lemma OneBestHit(v: Vocab, text: seq<Byte>, pos: nat, hit: Hit, hit1: Hit)
    requires BestHit(v, text, pos, |v.added|, hit) && BestHit(v, text, pos, |v.added|, hit1)
    ensures hit == hit1
  {
    hide StandsAt;
  }

  method FindAdded(v: Vocab, text: seq<Byte>, pos: nat) returns (hit: Hit)
    requires pos <= |text|
    ensures BestHit(v, text, pos, |v.added|, hit)
  {
    hide StandsAt;
    hit := NoHit;
    for k := 0 to |v.added|
      invariant BestHit(v, text, pos, k, hit)
    {
      var r := FindIn(text, v.added[k].0, pos);
      if r.Some? && (hit.NoHit? || r.value < hit.at || (r.value == hit.at && |v.added[k].0| > |v.added[hit.k].0|)) {
        hit := Hit(r.value, k);
      }
    }
  }

  // ---- what the whole encoding is ----

  /** Where the text goes on after the first `n` hits. */
  function CutEnd(v: Vocab, hits: seq<Hit>, n: nat): nat
    requires n <= |hits|
  {
    if n > 0 && hits[n - 1].Hit? && hits[n - 1].k < |v.added| then hits[n - 1].at + |v.added[hits[n - 1].k].0| else 0
  }

  /** Each of the first `n` hits is the best one from where the one before it ends, and lies in the text. */
  ghost predicate Cuts(v: Vocab, text: seq<Byte>, hits: seq<Hit>, n: nat)
    requires n <= |hits|
  {
    forall j :: 0 <= j < n ==> CutAfter(v, text, hits, j)
  }

  ghost predicate CutAfter(v: Vocab, text: seq<Byte>, hits: seq<Hit>, j: nat)
    requires j < |hits|
  {
    hits[j].Hit? && BestHit(v, text, CutEnd(v, hits, j), |v.added|, hits[j]) && CutEnd(v, hits, j) <= hits[j].at && CutEnd(v, hits, j + 1) <= |text|
  }

  /** For each of the first `n` hits in order: the tokens of the text in front of it, then the added token. */
  ghost function Joined(v: Vocab, text: seq<Byte>, hits: seq<Hit>, n: nat): seq<Id>
    requires ValidVocab(v) && n <= |hits| && Cuts(v, text, hits, n)
  {
    if n == 0 then []
    else
      assert CutAfter(v, text, hits, n - 1);
      Joined(v, text, hits, n - 1) + ChunkIds(v, text[CutEnd(v, hits, n - 1)..hits[n - 1].at]) + [v.added[hits[n - 1].k].1]
  }

  /** The hits cut the whole text, and `out` is its encoding. */
  ghost predicate EncodedBy(v: Vocab, text: seq<Byte>, hits: seq<Hit>, out: seq<Id>)
    requires ValidVocab(v)
  {
    var end := CutEnd(v, hits, |hits|);
    && Cuts(v, text, hits, |hits|) && end <= |text| && BestHit(v, text, end, |v.added|, NoHit)
    && out == Joined(v, text, hits, |hits|) + ChunkIds(v, text[end..])
  }

  lemma {:induction false} SameCuts(v: Vocab, text: seq<Byte>, hits: seq<Hit>, hits1: seq<Hit>, n: nat)
    requires n <= |hits| && n <= |hits1| && Cuts(v, text, hits, n) && Cuts(v, text, hits1, n)
    ensures hits[..n] == hits1[..n] && CutEnd(v, hits, n) == CutEnd(v, hits1, n)
    ensures ValidVocab(v) ==> Joined(v, text, hits, n) == Joined(v, text, hits1, n)
  {
    hide BestHit, ValidVocab, ChunkIds;
    if n > 0 {
      SameCuts(v, text, hits, hits1, n - 1);
      assert CutAfter(v, text, hits, n - 1) && CutAfter(v, text, hits1, n - 1);
      OneBestHit(v, text, CutEnd(v, hits, n - 1), hits[n - 1], hits1[n - 1]);
      assert hits[..n] == hits[..n - 1] + [hits[n - 1]] && hits1[..n] == hits1[..n - 1] + [hits1[n - 1]];
    }
  }

  /** A text has one encoding. */
  lemma EncodedOnce(v: Vocab, text: seq<Byte>, hits: seq<Hit>, out: seq<Id>, hits1: seq<Hit>, out1: seq<Id>)
    requires ValidVocab(v) && EncodedBy(v, text, hits, out) && EncodedBy(v, text, hits1, out1)
    ensures out == out1
  {
    hide BestHit, ValidVocab, ChunkIds, Joined;
    if |hits| < |hits1| {
      CutsStop(v, text, hits, hits1);
    } else if |hits1| < |hits| {
      CutsStop(v, text, hits1, hits);
    } else {
      SameCuts(v, text, hits, hits1, |hits|);
      assert hits == hits[..|hits|] && hits1 == hits1[..|hits|];
    }
  }

  lemma CutsStop(v: Vocab, text: seq<Byte>, hits: seq<Hit>, hits1: seq<Hit>)
    requires |hits| < |hits1| && Cuts(v, text, hits, |hits|) && Cuts(v, text, hits1, |hits1|)
    ensures !BestHit(v, text, CutEnd(v, hits, |hits|), |v.added|, NoHit)
  {
    hide BestHit;
    SameCuts(v, text, hits, hits1, |hits|);
    assert CutAfter(v, text, hits1, |hits|);
    if BestHit(v, text, CutEnd(v, hits, |hits|), |v.added|, NoHit) {
      OneBestHit(v, text, CutEnd(v, hits, |hits|), NoHit, hits1[|hits|]);
    }
  }

  lemma NoChunk(v: Vocab)
    requires ValidVocab(v)
    ensures ChunkIds(v, []) == []
  {
  }

  /** Past the end of the text there is nothing to hit. */
  lemma NoHitAtEnd(v: Vocab, text: seq<Byte>)
    requires ValidVocab(v)
    ensures BestHit(v, text, |text|, |v.added|, NoHit)
  {
    hide WellFormed, Stored;
    forall k, i: nat | 0 <= k < |v.added| && |text| <= i ensures !StandsAt(v.added[k].0, text, i) {
      assert AddedOk(v, v.added[k]);
    }
  }

  /** One more hit. */
  lemma NextCut(v: Vocab, text: seq<Byte>, hits: seq<Hit>, hit: Hit)
    requires ValidVocab(v) && Cuts(v, text, hits, |hits|) && hit.Hit? && BestHit(v, text, CutEnd(v, hits, |hits|), |v.added|, hit)
    requires CutEnd(v, hits, |hits|) <= hit.at && hit.k < |v.added| && hit.at + |v.added[hit.k].0| <= |text|
    ensures var hits1 := hits + [hit];
            && Cuts(v, text, hits1, |hits1|) && CutEnd(v, hits1, |hits1|) == hit.at + |v.added[hit.k].0|
            && Joined(v, text, hits1, |hits1|) ==
               Joined(v, text, hits, |hits|) + ChunkIds(v, text[CutEnd(v, hits, |hits|)..hit.at]) + [v.added[hit.k].1]
  {
    hide BestHit, ValidVocab, ChunkIds;
    var hits1 := hits + [hit];
    forall n: nat | n <= |hits| ensures CutEnd(v, hits1, n) == CutEnd(v, hits, n) {
    }
    forall j | 0 <= j < |hits1| ensures CutAfter(v, text, hits1, j) {
      assert j < |hits| ==> CutAfter(v, text, hits, j);
    }
    SameCuts(v, text, hits, hits1, |hits|);
  }

  /** The encoding of every well-formed text, which decodes to the text again. */
  method Encode(v: Vocab, text: seq<Byte>) returns (out: seq<Id>, ghost hits: seq<Hit>)
    requires ValidVocab(v) && WellFormed(text)
    ensures EncodedBy(v, text, hits, out) && Decode(v, out) == text
  {
    hide ValidVocab, WellFormed, Decode, StandsAt, ChunkIds, Joined, Cuts, CutEnd, BestHit;
    out, hits := [], [];
    DecodeNothing(v);
    NoChunk(v);
    NoCuts(v, text);
    var pos := 0;
    assert text[0..] == text;
    while pos < |text|
      invariant pos <= |text| && Decode(v, out) == text[..pos] && WellFormed(text[pos..])
      invariant Cuts(v, text, hits, |hits|) && CutEnd(v, hits, |hits|) <= pos
      invariant out == Joined(v, text, hits, |hits|) + ChunkIds(v, text[CutEnd(v, hits, |hits|)..pos])
      invariant pos != CutEnd(v, hits, |hits|) ==> pos == |text| && BestHit(v, text, CutEnd(v, hits, |hits|), |v.added|, NoHit)
      decreases |text| - pos
    {
      assert text[pos..pos] == [];
      var hit := FindAdded(v, text, pos);
      if hit.NoHit? {
        var ids := EncodeChunk(v, text[pos..]);
        DecodeConcat(v, out, ids);
        out := out + ids;
        pos := |text|;
        assert text[pos..] == [];
        NothingIsWellFormed();
      } else {
        HitFacts(v, text, pos, hit);
        var x, id := v.added[hit.k].0, v.added[hit.k].1;
        CutAt(v, text, pos, hit.at, hit.k);
        if hit.at > pos {
          var ids := EncodeChunk(v, text[pos..hit.at]);
          DecodeConcat(v, out, ids);
          out := out + ids;
        }
        assert Decode(v, out) == text[..hit.at];
        AddedDecodes(v, hit.k);
        DecodeConcat(v, out, [id]);
        out := out + [id];
        NextCut(v, text, hits, hit);
        assert text[..hit.at + |x|] == text[..hit.at] + x by { StandsIs(x, text, hit.at); }
        pos := hit.at + |x|;
        hits := hits + [hit];
        assert text[pos..pos] == [];
      }
    }
    assert text[..pos] == text;
    NoHitAtEnd(v, text);
  }

  lemma HitFacts(v: Vocab, text: seq<Byte>, pos: nat, hit: Hit)
    requires hit.Hit? && BestHit(v, text, pos, |v.added|, hit)
    ensures hit.k < |v.added| && pos <= hit.at && StandsAt(v.added[hit.k].0, text, hit.at)
  {
    hide StandsAt;
  }

  lemma NoCuts(v: Vocab, text: seq<Byte>)
    requires ValidVocab(v)
    ensures Cuts(v, text, [], 0) && CutEnd(v, [], 0) == 0 && Joined(v, text, [], 0) == []
  {
  }

  lemma NothingIsWellFormed()
    ensures WellFormed([])
  {
    NoCps();
  }

  lemma StandsIs(x: seq<Byte>, s: seq<Byte>, i: nat)
    requires StandsAt(x, s, i)
    ensures i + |x| <= |s| && s[i..i + |x|] == x
  {
  }

  lemma CutAt(v: Vocab, text: seq<Byte>, pos: nat, at: nat, k: nat)
    requires ValidVocab(v) && pos <= at && k < |v.added| && StandsAt(v.added[k].0, text, at) && pos <= |text| && WellFormed(text[pos..])
    ensures var x := v.added[k].0; x != [] && at + |x| <= |text| && WellFormed(text[pos..at]) && WellFormed(text[at + |x|..])
  {
    hide WellFormed, Stored;
    var x := v.added[k].0;
    assert AddedOk(v, v.added[k]);
    var rest := text[pos..];
    assert rest[at - pos..at - pos + |x|] == text[at..at + |x|];
    CutAround(rest, x, at - pos);
    assert rest[..at - pos] == text[pos..at] && rest[at - pos + |x|..] == text[at + |x|..];
  }

  lemma AddedDecodes(v: Vocab, k: nat)
    requires ValidVocab(v) && k < |v.added|
    ensures Decode(v, [v.added[k].1]) == v.added[k].0
  {
    hide WellFormed, Stored;
    assert AddedOk(v, v.added[k]);
    assert IsAdded(v, v.added[k].1);
    assert [v.added[k].1][1..] == [];
  }
}

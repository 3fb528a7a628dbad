/**
 UTF-8 as the tokenizer encodes and decodes it, and the two facts the tokenizer rests on: decoding undoes
 encoding, and encoded text can be cut at any occurrence of another encoded text without splitting a
 code point.
 */
module Utf8 {

  type Byte = b: nat | b < 256
  type Cp = nat

  const Limit: nat := 0x11_0000

  function EncodeCp(cp: Cp): (r: seq<Byte>)
    requires cp < Limit
    ensures 1 <= |r| <= 4 && IsLead(r[0]) && forall i :: 1 <= i < |r| ==> !IsLead(r[i])
  {
    if cp < 0x80 then [cp]
    else if cp < 0x800 then [0xC0 + cp / 64, 0x80 + cp % 64]
    else if cp < 0x1_0000 then [0xE0 + cp / 4096, 0x80 + (cp / 64) % 64, 0x80 + cp % 64]
    else [0xF0 + cp / 262144, 0x80 + (cp / 4096) % 64, 0x80 + (cp / 64) % 64, 0x80 + cp % 64]
  }

  /** Not a continuation byte. */
  predicate IsLead(b: Byte) { b < 0x80 || b >= 0xC0 }

  /** Six more bits from a continuation byte. */
  function Extend(hi: nat, b: nat): nat { hi * 64 + b % 64 }

  /** The code point at `i` and its length; a stray or truncated byte gives U+FFFD. */
  function DecodeAt(s: seq<Byte>, i: nat): (r: (Cp, nat))
    requires i < |s|
    ensures 1 <= r.1 <= |s| - i
  {
    var c: nat := s[i];
    var len := if c >= 0xF0 then 4 else if c >= 0xE0 then 3 else if c >= 0xC0 then 2 else 1;
    if c < 0x80 then (c, 1)
    else if len == 1 || i + len > |s| then
      var bad: nat := 0xFFFD;
      (bad, 1)
    else if len == 2 then (Extend(c % 32, s[i + 1]), 2)
    else if len == 3 then (Extend(Extend(c % 16, s[i + 1]), s[i + 2]), 3)
    else (Extend(Extend(Extend(c % 8, s[i + 1]), s[i + 2]), s[i + 3]), 4)
  }

  /** `x` stands at position `i` of `s`. */
  predicate StandsAt(x: seq<Byte>, s: seq<Byte>, i: nat) {
    i + |x| <= |s| && s[i..i + |x|] == x
  }

  lemma TwoBytes(cp: nat)
    requires cp < 0x800
    ensures Extend((0xC0 + cp / 64) % 32, 0x80 + cp % 64) == cp
  {
  }

  lemma ThreeBytes(cp: nat)
    requires cp < 0x1_0000
    ensures Extend(Extend((0xE0 + cp / 4096) % 16, 0x80 + (cp / 64) % 64), 0x80 + cp % 64) == cp
  {
    var q := cp / 64;
    assert cp / 4096 == q / 64;
    assert Extend((0xE0 + q / 64) % 16, 0x80 + q % 64) == q;
  }

  lemma FourBytes(cp: nat)
    requires cp < Limit
    ensures Extend(Extend(Extend((0xF0 + cp / 262144) % 8, 0x80 + (cp / 4096) % 64), 0x80 + (cp / 64) % 64), 0x80 + cp % 64) == cp
  {
    var q := cp / 64;
    var r := q / 64;
    assert cp / 4096 == r && cp / 262144 == r / 64;
    assert Extend((0xF0 + r / 64) % 8, 0x80 + r % 64) == r;
    assert Extend(r, 0x80 + q % 64) == q;
  }

  lemma DecodeEncoded(s: seq<Byte>, i: nat, cp: Cp)
    requires cp < Limit && StandsAt(EncodeCp(cp), s, i)
    ensures DecodeAt(s, i) == (cp, |EncodeCp(cp)|)
  {
    hide Extend;
    var e := EncodeCp(cp);
    assert s[i] == s[i..i + |e|][0] == e[0];
    assert |e| > 1 ==> s[i + 1] == s[i..i + |e|][1] == e[1];
    assert |e| > 2 ==> s[i + 2] == s[i..i + |e|][2] == e[2];
    assert |e| > 3 ==> s[i + 3] == s[i..i + |e|][3] == e[3];
    if 0x80 <= cp < 0x800 {
      TwoBytes(cp);
    } else if 0x800 <= cp < 0x1_0000 {
      ThreeBytes(cp);
    } else if 0x1_0000 <= cp {
      FourBytes(cp);
    }
  }

  predicate AllCps(cps: seq<Cp>) {
    forall i :: 0 <= i < |cps| ==> cps[i] < Limit
  }

  function EncodeAll(cps: seq<Cp>): seq<Byte>
    requires AllCps(cps)
  {
    if cps == [] then [] else EncodeCp(cps[0]) + EncodeAll(cps[1..])
  }

  /** Every code point is encoded as UTF-8; this includes the well-formed texts of section 4 of RFC 3629. */
  ghost predicate WellFormed(s: seq<Byte>) {
    exists cps :: AllCps(cps) && s == EncodeAll(cps)
  }

  lemma {:induction false} EncodeConcat(a: seq<Cp>, b: seq<Cp>)
    requires AllCps(a) && AllCps(b)
    ensures AllCps(a + b) && EncodeAll(a + b) == EncodeAll(a) + EncodeAll(b)
  {
    hide EncodeCp;
    if a == [] {
      assert a + b == b;
    } else {
      EncodeConcat(a[1..], b);
      assert (a + b)[1..] == a[1..] + b;
    }
  }

  /** Decode everything from `i` on. */
  function ToCps(s: seq<Byte>, i: nat): seq<Cp>
    requires i <= |s|
    decreases |s| - i
  {
    if i == |s| then [] else [DecodeAt(s, i).0] + ToCps(s, i + DecodeAt(s, i).1)
  }

  lemma {:induction false} DecodeAll(s: seq<Byte>, i: nat, cps: seq<Cp>)
    requires i <= |s| && AllCps(cps) && s[i..] == EncodeAll(cps)
    ensures ToCps(s, i) == cps
    decreases |cps|
  {
    hide DecodeAt;
    if cps != [] {
      var e := EncodeCp(cps[0]);
      assert s[i..i + |e|] == s[i..][..|e|] == e;
      DecodeEncoded(s, i, cps[0]);
      assert s[i + |e|..] == s[i..][|e|..] == EncodeAll(cps[1..]);
      DecodeAll(s, i + |e|, cps[1..]);
    }
  }

  // ---- cutting text ----

  /** A lead byte starts a code point. */
  lemma {:induction false} LeadIsBoundary(cps: seq<Cp>, at: nat) returns (k: nat)
    requires AllCps(cps) && at < |EncodeAll(cps)| && IsLead(EncodeAll(cps)[at])
    ensures k <= |cps| && at == |EncodeAll(cps[..k])|
    decreases |cps|
  {
    var e := EncodeCp(cps[0]);
    if at == 0 {
      k := 0;
    } else {
      if at < |e| {
        assert false;
      }
      var m := LeadIsBoundary(cps[1..], at - |e|);
      k := m + 1;
      assert cps[..k][1..] == cps[1..][..m];
    }
  }

  /** An encoded text that begins another one is a prefix of it in code points. */
  lemma {:induction false} PrefixInCps(ts: seq<Cp>, cps: seq<Cp>)
    requires AllCps(ts) && AllCps(cps) && EncodeAll(ts) <= EncodeAll(cps)
    ensures ts <= cps
    decreases |ts|
  {
    hide DecodeAt;
    if ts != [] {
      var s := EncodeAll(cps);
      var e := EncodeCp(ts[0]);
      assert cps != [];
      var f := EncodeCp(cps[0]);
      assert s[..|e|] == EncodeAll(ts)[..|e|] == e && s[0..|e|] == s[..|e|];
      DecodeEncoded(s, 0, ts[0]);
      assert s[0..|f|] == f;
      DecodeEncoded(s, 0, cps[0]);
      assert s[|e|..] == EncodeAll(cps[1..]);
      assert EncodeAll(ts)[|e|..] == EncodeAll(ts[1..]);
      assert EncodeAll(ts[1..]) <= EncodeAll(cps[1..]) by {
        var n := |EncodeAll(ts)|;
        assert s[..n][|e|..] == s[|e|..][..n - |e|];
      }
      PrefixInCps(ts[1..], cps[1..]);
      assert ts == [ts[0]] + ts[1..] && cps == [cps[0]] + cps[1..];
    }
  }

  /** Cutting well-formed text around an occurrence of well-formed text leaves well-formed text on both sides. */
  lemma CutAround(s: seq<Byte>, x: seq<Byte>, at: nat)
    requires WellFormed(s) && WellFormed(x) && x != [] && StandsAt(x, s, at)
    ensures WellFormed(s[..at]) && WellFormed(s[at + |x|..])
  {
    hide EncodeCp;
    var cps :| AllCps(cps) && s == EncodeAll(cps);
    var ts :| AllCps(ts) && x == EncodeAll(ts);
    assert s[at] == s[at..at + |x|][0] == x[0];
    FirstByte(ts);
    var k := LeadIsBoundary(cps, at);
    CutCps(s, cps, x, ts, k);
  }

  lemma FirstByte(ts: seq<Cp>)
    requires AllCps(ts) && ts != []
    ensures EncodeAll(ts) != [] && IsLead(EncodeAll(ts)[0])
  {
  }

  lemma CutCps(s: seq<Byte>, cps: seq<Cp>, x: seq<Byte>, ts: seq<Cp>, k: nat)
    requires AllCps(cps) && AllCps(ts) && s == EncodeAll(cps) && x == EncodeAll(ts) && k <= |cps| && StandsAt(x, s, |EncodeAll(cps[..k])|)
    ensures var at := |EncodeAll(cps[..k])|; WellFormed(s[..at]) && WellFormed(s[at + |x|..])
  {
    hide EncodeAll;
    var front, back := cps[..k], cps[k..];
    var at := |EncodeAll(front)|;
    assert cps == front + back;
    EncodeConcat(front, back);
    assert s[..at] == EncodeAll(front) && s[at..] == EncodeAll(back);
    assert s[at..][..|x|] == x;
    PrefixInCps(ts, back);
    var rest := back[|ts|..];
    assert back == ts + rest;
    EncodeConcat(ts, rest);
    assert s[at + |x|..] == s[at..][|x|..] == EncodeAll(rest);
  }
}

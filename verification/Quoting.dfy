/** String literals, quoted, scanned and unescaped. */
module Quoting {
  // How a text is quoted, and how the tokenizer reads it back.

  import opened Text

  const BACKSLASH := '\\'
  const QUOTE := '\"'

  /** quote(): backslashes doubled, then quotation marks escaped, then wrapped. */
  function Quote(s: string): string {
    [QUOTE] + Replace(Replace(s, [BACKSLASH], [BACKSLASH, BACKSLASH]), [QUOTE], [BACKSLASH, QUOTE]) + [QUOTE]
  }

  /** What the tokenizer makes of the text between the quotation marks: two global replacements. */
  function ReadBody(body: string): string {
    Replace(Replace(body, [BACKSLASH, QUOTE], [QUOTE]), [BACKSLASH, BACKSLASH], [BACKSLASH])
  }

  /** Length of the literal's body at the head of s, up to its closing quotation mark. */
  function ScanBody(s: string): (n: Option<nat>)
    ensures n.Some? ==> n.value < |s| && s[n.value] == QUOTE
  {
    if s == [] then None
    else if s[0] == QUOTE then Some(0)
    else if s[0] == BACKSLASH then
      if |s| < 2 || s[1] == '\n' then None
      else
        var n := ScanBody(s[2..]);
        if n.Some? then Some(n.value + 2) else None
    else
      var n := ScanBody(s[1..]);
      if n.Some? then Some(n.value + 1) else None
  }

  /** The bodies the tokenizer accepts: escapes of one character, no bare quotation mark. */
  predicate ValidBody(b: string) {
    b == [] ||
    if b[0] == BACKSLASH then |b| >= 2 && b[1] != '\n' && ValidBody(b[2..])
    else b[0] != QUOTE && ValidBody(b[1..])
  }

  /** One left-to-right pass: an escaped quotation mark or backslash stands for itself. */
  function Unescape(b: string): string {
    if b == [] then []
    else if b[0] == BACKSLASH && |b| >= 2 then
      (if b[1] == QUOTE || b[1] == BACKSLASH then [b[1]] else [b[0], b[1]]) + Unescape(b[2..])
    else [b[0]] + Unescape(b[1..])
  }

  function Escape(s: string): string {
    if s == [] then []
    else (if s[0] == BACKSLASH || s[0] == QUOTE then [BACKSLASH, s[0]] else [s[0]]) + Escape(s[1..])
  }

  /** What ScanBody accepts is a valid body, and every valid body is accepted. */
  lemma {:induction false} ScanFindsValid(s: string)
    ensures ScanBody(s).Some? ==> ValidBody(s[..ScanBody(s).value])
  {
    if s != [] && s[0] != QUOTE && ScanBody(s).Some? {
      var k := if s[0] == BACKSLASH then 2 else 1;
      var n := ScanBody(s).value;
      ScanFindsValid(s[k..]);
      assert s[..n][k..] == s[k..][..n - k];
    }
  }

  lemma {:induction false} ValidIsScanned(b: string, rest: string)
    requires ValidBody(b)
    ensures ScanBody(b + [QUOTE] + rest) == Some(|b|)
  {
    if b != [] {
      var k := if b[0] == BACKSLASH then 2 else 1;
      assert (b + [QUOTE] + rest)[k..] == b[k..] + [QUOTE] + rest;
      ValidIsScanned(b[k..], rest);
    }
  }

  lemma ReplaceCons(c: char, s: string, before: string, after: string)
    requires before != [] && c != before[0]
    ensures Replace([c] + s, before, after) == [c] + Replace(s, before, after)
  {
    assert ([c] + s)[1..] == s;
  }

  lemma ReplaceCons2(c: char, s: string, before: string, after: string)
    requires |before| == 2 && (s == [] || s[0] != before[1])
    ensures Replace([c] + s, before, after) == [c] + Replace(s, before, after)
  {
    assert ([c] + s)[1..] == s;
    if s != [] {
      assert ([c] + s)[..2][1] == s[0];
    }
  }

  lemma ReplaceHit(s: string, before: string, after: string)
    requires before != []
    ensures Replace(before + s, before, after) == after + Replace(s, before, after)
  {
    assert (before + s)[..|before|] == before && (before + s)[|before|..] == s;
  }

  /** On every valid body the two replacements are the single pass. */
  lemma {:induction false} TwoReplacementsUnescape(b: string)
    requires ValidBody(b)
    ensures ReadBody(b) == Unescape(b)
  {
    var esc, bs := [BACKSLASH, QUOTE], [BACKSLASH, BACKSLASH];
    if b == [] {
    } else if b[0] == BACKSLASH {
      var x, t := b[1], b[2..];
      TwoReplacementsUnescape(t);
      var r := Replace(t, esc, [QUOTE]);
      if x == QUOTE {
        assert b == esc + t;
        ReplaceHit(t, esc, [QUOTE]);
        ReplaceCons(QUOTE, r, bs, [BACKSLASH]);
      } else {
        assert b == [BACKSLASH] + ([x] + t);
        ReplaceCons2(BACKSLASH, [x] + t, esc, [QUOTE]);
        if x == BACKSLASH {
          ReplaceCons2(BACKSLASH, t, esc, [QUOTE]);
          assert Replace(b, esc, [QUOTE]) == bs + r;
          ReplaceHit(r, bs, [BACKSLASH]);
        } else {
          ReplaceCons(x, t, esc, [QUOTE]);
          ReplaceCons2(BACKSLASH, [x] + r, bs, [BACKSLASH]);
          ReplaceCons(x, r, bs, [BACKSLASH]);
          assert ReadBody(b) == [BACKSLASH, x] + ReadBody(t);
        }
      }
    } else {
      var t := b[1..];
      assert b == [b[0]] + t;
      TwoReplacementsUnescape(t);
      ReplaceCons(b[0], t, esc, [QUOTE]);
      ReplaceCons(b[0], Replace(t, esc, [QUOTE]), bs, [BACKSLASH]);
    }
  }

  lemma {:induction false} EscapeIsValid(s: string)
    ensures ValidBody(Escape(s)) && Unescape(Escape(s)) == s
  {
    if s != [] {
      EscapeIsValid(s[1..]);
      var e := Escape(s);
      var k := if s[0] == BACKSLASH || s[0] == QUOTE then 2 else 1;
      assert e[k..] == Escape(s[1..]);
      assert s == [s[0]] + s[1..];
    }
  }

  lemma {:induction false} QuoteEscapes(s: string)
    ensures Replace(Replace(s, [BACKSLASH], [BACKSLASH, BACKSLASH]), [QUOTE], [BACKSLASH, QUOTE]) == Escape(s)
  {
    if s != [] {
      var t := s[1..];
      QuoteEscapes(t);
      assert s == [s[0]] + t;
      var d := Replace(t, [BACKSLASH], [BACKSLASH, BACKSLASH]);
      if s[0] == BACKSLASH {
        ReplaceHit(t, [BACKSLASH], [BACKSLASH, BACKSLASH]);
        assert [BACKSLASH, BACKSLASH] + d == [BACKSLASH] + ([BACKSLASH] + d);
        ReplaceCons(BACKSLASH, [BACKSLASH] + d, [QUOTE], [BACKSLASH, QUOTE]);
        ReplaceCons(BACKSLASH, d, [QUOTE], [BACKSLASH, QUOTE]);
      } else {
        ReplaceCons(s[0], t, [BACKSLASH], [BACKSLASH, BACKSLASH]);
        if s[0] == QUOTE {
          ReplaceHit(d, [QUOTE], [BACKSLASH, QUOTE]);
        } else {
          ReplaceCons(s[0], d, [QUOTE], [BACKSLASH, QUOTE]);
        }
      }
    }
  }

  /** Every text, quoted and followed by anything, is read back as that text: the literal ends
      at the closing mark Quote put there, and its body reads as s. */
  lemma QuoteReadsBack(s: string, rest: string)
    ensures Quote(s) == [QUOTE] + Escape(s) + [QUOTE]
    ensures ScanBody((Quote(s) + rest)[1..]) == Some(|Quote(s)| - 2)
    ensures ReadBody(Quote(s)[1..|Quote(s)| - 1]) == s
  {
    QuoteEscapes(s);
    EscapeIsValid(s);
    ValidIsScanned(Escape(s), rest);
    assert (Quote(s) + rest)[1..] == Escape(s) + [QUOTE] + rest;
    assert Quote(s)[1..|Quote(s)| - 1] == Escape(s);
    TwoReplacementsUnescape(Escape(s));
  }
}

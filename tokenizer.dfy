/**
 * The splitting step of `_create_command_line`: every "--flag value" string
 * is cut with `re.split` on the pattern `(["'].+?["'])|\s` and the empty
 * pieces are discarded.
 *
 * The scanner below follows the regular-expression engine: at each position
 * it first tries the quoted alternative (a quote, at least one character
 * other than a newline, chosen as few as possible, then a quote of either
 * kind), then a single whitespace character. The text between two matches
 * is a piece; the captured group of a quoted match is a piece of its own,
 * quotes included; a whitespace match captures nothing.
 */
module Tokenizer {
  import opened Outcomes

  predicate IsQuote(c: char) { c == '"' || c == '\'' }

  /** `\s` on a str pattern: the characters for which Python's `str.isspace` holds. */
  predicate IsSpace(c: char)
  {
    || c == ' ' || c == '\t' || c == '\n' || c == '\r' || c == '\U{000B}' || c == '\U{000C}'
    || ('\U{001C}' <= c <= '\U{001F}') || c == '\U{0085}' || c == '\U{00A0}' || c == '\U{1680}'
    || ('\U{2000}' <= c <= '\U{200A}') || c == '\U{2028}' || c == '\U{2029}' || c == '\U{202F}'
    || c == '\U{205F}' || c == '\U{3000}'
  }

  predicate NoNewline(s: string, lo: int, hi: int)
    requires 0 <= lo <= hi <= |s|
  {
    forall j :: lo <= j < hi ==> s[j] != '\n'
  }

  predicate QuoteFree(s: string) { forall j :: 0 <= j < |s| ==> !IsQuote(s[j]) }

  /** A piece that holds no whitespace character. */
  predicate Bare(t: string) { forall j :: 0 <= j < |t| ==> !IsSpace(t[j]) }

  /** A captured quoted run: two quotes around at least one character, no newline inside. */
  predicate QuotedRun(t: string)
  {
    |t| >= 3 && IsQuote(t[0]) && IsQuote(t[|t| - 1]) && forall j :: 1 <= j < |t| - 1 ==> t[j] != '\n'
  }

  /**
   * The lazy `.+?["']` part of the quoted alternative when the opening quote
   * is rest[0]: the first position k >= p holding a quote such that no
   * newline lies between the opening quote and k. The search starts at p = 2,
   * since `.+?` takes at least one character.
   */
  function CloseFrom(rest: string, p: nat): (r: Option<nat>)
    requires 1 <= p
    ensures r.Some? ==> p <= r.value < |rest| && IsQuote(rest[r.value]) && NoNewline(rest, p - 1, r.value)
    ensures r.Some? ==> forall q :: p <= q < r.value ==> !IsQuote(rest[q])
    ensures r.None? ==> forall q :: p <= q < |rest| && IsQuote(rest[q]) ==> !NoNewline(rest, p - 1, q)
    decreases |rest| - p
  {
    if p >= |rest| then None
    else if rest[p - 1] == '\n' then None
    else if IsQuote(rest[p]) then Some(p)
    else CloseFrom(rest, p + 1)
  }

  /** Where the quoted alternative ends (its closing quote) when it matches at the start of rest. */
  function QuotedEnd(rest: string): (r: Option<nat>)
    requires rest != []
    ensures r.Some? ==> 2 <= r.value < |rest| && QuotedRun(rest[..r.value + 1])
  {
    if IsQuote(rest[0]) then CloseFrom(rest, 2) else None
  }

  /** An empty piece is discarded (the `if x` of the comprehension). */
  function Keep(piece: string): seq<string>
  {
    if piece == [] then [] else [piece]
  }

  /**
   * `re.split` on what is left of the string, `rest`, with the text gathered
   * since the last match in `piece`. Every token produced is non-empty, and is
   * either a quoted run or holds no whitespace.
   */
  function Scan(piece: string, rest: string): (r: seq<string>)
    requires Bare(piece)
    ensures forall t :: t in r ==> t != [] && (QuotedRun(t) || Bare(t))
    decreases |rest|
  {
    if rest == [] then Keep(piece)
    else match QuotedEnd(rest)
      case Some(k) => Keep(piece) + [rest[..k + 1]] + Scan([], rest[k + 1..])
      case None =>
        if IsSpace(rest[0]) then Keep(piece) + Scan([], rest[1..])
        else Scan(piece + [rest[0]], rest[1..])
  }

  /** The non-empty pieces of one string of the command list, in order. */
  function Split(s: string): (r: seq<string>)
    ensures forall t :: t in r ==> t != [] && (QuotedRun(t) || Bare(t))
  {
    Scan([], s)
  }

  /** The non-empty pieces of every string of the command list, string after string. */
  function SplitAll(args: seq<string>): (r: seq<string>)
    ensures forall t :: t in r ==> t != [] && (QuotedRun(t) || Bare(t))
  {
    if args == [] then [] else Split(args[0]) + SplitAll(args[1..])
  }

  function Concat(ts: seq<string>): string
  {
    if ts == [] then [] else ts[0] + Concat(ts[1..])
  }

  /** The characters of s other than whitespace, in order. */
  function NonSpace(s: string): string
  {
    if s == [] then [] else (if IsSpace(s[0]) then [] else [s[0]]) + NonSpace(s[1..])
  }

  /** The split never yields an empty token. */
  lemma {:induction false} SplitAllNonEmpty(args: seq<string>)
    ensures forall t :: t in SplitAll(args) ==> t != []
  {
    if args != [] {
      SplitAllNonEmpty(args[1..]);
    }
  }

  /** The tokens of successive list elements are concatenated in list order. */
  lemma {:induction false} SplitAllAppend(a: seq<string>, b: seq<string>)
    ensures SplitAll(a + b) == SplitAll(a) + SplitAll(b)
  {
    if a == [] {
      assert a + b == b;
    } else {
      assert (a + b)[0] == a[0];
      assert (a + b)[1..] == a[1..] + b;
      SplitAllAppend(a[1..], b);
    }
  }

  /**
   * A whitespace character after a quote-free text separates tokens: the
   * text and what follows are split independently, the text first.
   */
  lemma {:induction false} ScanAfterSpace(piece: string, a: string, c: char, b: string)
    requires Bare(piece) && QuoteFree(a) && IsSpace(c) && !IsQuote(c)
    ensures Scan(piece, a + [c] + b) == Scan(piece, a) + Scan([], b)
    decreases |a|
  {
    var s := a + [c] + b;
    if a == [] {
      assert s[0] == c && s[1..] == b;
    } else {
      assert s[0] == a[0] && s[1..] == a[1..] + [c] + b;
      assert !IsQuote(a[0]);
      if IsSpace(a[0]) {
        ScanAfterSpace([], a[1..], c, b);
      } else {
        ScanAfterSpace(piece + [a[0]], a[1..], c, b);
      }
    }
  }

  lemma SplitAfterSpace(a: string, c: char, b: string)
    requires QuoteFree(a) && IsSpace(c) && !IsQuote(c)
    ensures Split(a + [c] + b) == Split(a) + Split(b)
  {
    ScanAfterSpace([], a, c, b);
  }

  /** A text without quotes or whitespace is gathered into the current piece. */
  lemma {:induction false} ScanWord(piece: string, w: string)
    requires Bare(piece) && QuoteFree(w) && Bare(w)
    ensures Scan(piece, w) == Keep(piece + w)
    decreases |w|
  {
    if w == [] {
      assert piece + w == piece;
    } else {
      assert !IsQuote(w[0]) && !IsSpace(w[0]);
      ScanWord(piece + [w[0]], w[1..]);
      assert piece + [w[0]] + w[1..] == piece + w;
    }
  }

  /** A word: non-empty, no quote, no whitespace. */
  predicate Word(w: string) { w != [] && QuoteFree(w) && Bare(w) }

  /** A word is one token, itself. */
  lemma SplitWord(w: string)
    requires Word(w)
    ensures Split(w) == [w]
  {
    ScanWord([], w);
    assert [] + w == w;
  }

  /** Without quotes, the tokens hold exactly the non-whitespace characters, in order. */
  lemma {:induction false} ScanQuoteFreeKeepsText(piece: string, rest: string)
    requires Bare(piece) && QuoteFree(rest)
    ensures Concat(Scan(piece, rest)) == piece + NonSpace(rest)
    decreases |rest|
  {
    if rest == [] {
      assert Concat(Keep(piece)) == piece by {
        if piece != [] { assert Concat([piece]) == piece + Concat([]); }
      }
      assert piece + [] == piece;
    } else {
      assert !IsQuote(rest[0]);
      if IsSpace(rest[0]) {
        ScanQuoteFreeKeepsText([], rest[1..]);
        ConcatAppend(Keep(piece), Scan([], rest[1..]));
        assert Concat(Keep(piece)) == piece by {
          if piece != [] { assert Concat([piece]) == piece + Concat([]); }
        }
        assert [] + NonSpace(rest[1..]) == NonSpace(rest[1..]);
      } else {
        ScanQuoteFreeKeepsText(piece + [rest[0]], rest[1..]);
        assert piece + [rest[0]] + NonSpace(rest[1..]) == piece + ([rest[0]] + NonSpace(rest[1..]));
      }
    }
  }

  lemma {:induction false} ConcatAppend(x: seq<string>, y: seq<string>)
    ensures Concat(x + y) == Concat(x) + Concat(y)
  {
    if x == [] {
      assert x + y == y;
    } else {
      assert (x + y)[0] == x[0];
      assert (x + y)[1..] == x[1..] + y;
      ConcatAppend(x[1..], y);
    }
  }

  /** Without quotes, joining the tokens gives back the string with its whitespace removed. */
  lemma SplitQuoteFreeKeepsText(s: string)
    requires QuoteFree(s)
    ensures Concat(Split(s)) == NonSpace(s)
  {
    ScanQuoteFreeKeepsText([], s);
    assert [] + NonSpace(s) == NonSpace(s);
  }

  lemma {:induction false} CloseFromPlainInner(t: string, p: nat)
    requires 2 <= p <= |t| - 1 && IsQuote(t[|t| - 1])
    requires forall j :: 1 <= j < |t| - 1 ==> !IsQuote(t[j]) && t[j] != '\n'
    ensures CloseFrom(t, p) == Some(|t| - 1)
    decreases |t| - p
  {
    if p < |t| - 1 {
      CloseFromPlainInner(t, p + 1);
    }
  }

  /**
   * Two quotes around a non-empty text holding no quote and no newline make
   * one token, quotes included, whatever whitespace the text holds.
   */
  lemma SplitQuoted(t: string)
    requires |t| >= 3 && IsQuote(t[0]) && IsQuote(t[|t| - 1])
    requires forall j :: 1 <= j < |t| - 1 ==> !IsQuote(t[j]) && t[j] != '\n'
    ensures Split(t) == [t]
  {
    CloseFromPlainInner(t, 2);
    assert QuotedEnd(t) == Some(|t| - 1);
    assert t[..|t|] == t && t[|t|..] == [];
    assert Scan([], t) == Keep([]) + [t] + Scan([], []);
  }

  lemma {:induction false} CloseFromPlainRun(q: string, b: string, p: nat)
    requires 2 <= p <= |q| - 1 && IsQuote(q[|q| - 1])
    requires forall j :: 1 <= j < |q| - 1 ==> !IsQuote(q[j]) && q[j] != '\n'
    ensures CloseFrom(q + b, p) == Some(|q| - 1)
    decreases |q| - p
  {
    assert (q + b)[p - 1] == q[p - 1] && (q + b)[p] == q[p];
    if p < |q| - 1 {
      CloseFromPlainRun(q, b, p + 1);
    }
  }

  /**
   * Two quotes around a non-empty text holding no quote and no newline are
   * one token, quotes included, wherever they stand after quote-free text:
   * the text before is split on its own, then the run, then what follows.
   */
  lemma {:induction false} ScanQuotedRun(piece: string, a: string, q: string, b: string)
    requires Bare(piece) && QuoteFree(a)
    requires |q| >= 3 && IsQuote(q[0]) && IsQuote(q[|q| - 1])
    requires forall j :: 1 <= j < |q| - 1 ==> !IsQuote(q[j]) && q[j] != '\n'
    ensures Scan(piece, a + q + b) == Scan(piece, a) + [q] + Scan([], b)
    decreases |a|
  {
    var s := a + q + b;
    if a == [] {
      assert s == q + b;
      CloseFromPlainRun(q, b, 2);
      assert QuotedEnd(s) == Some(|q| - 1);
      assert s[..|q|] == q && s[|q|..] == b;
      assert Scan(piece, s) == Keep(piece) + [q] + Scan([], b);
    } else {
      assert s[0] == a[0] && s[1..] == a[1..] + q + b;
      assert !IsQuote(a[0]);
      assert QuotedEnd(s).None?;
      if IsSpace(a[0]) {
        ScanQuotedRun([], a[1..], q, b);
        assert Scan(piece, s) == Keep(piece) + (Scan([], a[1..]) + [q] + Scan([], b));
      } else {
        ScanQuotedRun(piece + [a[0]], a[1..], q, b);
      }
    }
  }

  /** `--flag="a b" rest`: the flag text, the quoted run with its quotes, then the tokens of the rest. */
  lemma SplitQuotedRun(a: string, q: string, b: string)
    requires QuoteFree(a)
    requires |q| >= 3 && IsQuote(q[0]) && IsQuote(q[|q| - 1])
    requires forall j :: 1 <= j < |q| - 1 ==> !IsQuote(q[j]) && q[j] != '\n'
    ensures Split(a + q + b) == Split(a) + [q] + Split(b)
  {
    ScanQuotedRun([], a, q, b);
  }

  /**
   * `--flag value` yields `--flag` and `value`; `--flag "a b"` yields
   * `--flag` and `"a b"`: a quoted value stays one token, quotes kept.
   */
  lemma SplitFlagValue(flag: string, value: string)
    requires Word(flag)
    requires Word(value) || (|value| >= 3 && IsQuote(value[0]) && IsQuote(value[|value| - 1]) &&
                             forall j :: 1 <= j < |value| - 1 ==> !IsQuote(value[j]) && value[j] != '\n')
    ensures Split(flag + " " + value) == [flag, value]
  {
    if Word(value) { SplitWord(value); } else { SplitQuoted(value); }
    SplitWord(flag);
    SplitAfterSpace(flag, ' ', value);
  }
}

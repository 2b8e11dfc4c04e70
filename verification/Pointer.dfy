/** JSON Pointers as RFC 6901 defines them, and the way the policy gate builds them. */
module Pointer {
  import opened Strings

  // ---------------------------------------------------------------- array indices

  function Digit(d: nat): char
    requires d < 10
  {
    ('0' as int + d) as char
  }

  predicate IsDigit(c: char) {
    '0' <= c <= '9'
  }

  predicate AllDigits(s: string) {
    forall i | 0 <= i < |s| :: IsDigit(s[i])
  }

  function DigitValue(c: char): nat
    requires IsDigit(c)
  {
    c as int - '0' as int
  }

  /** fmt's `%d` of a non-negative number. */
  function Decimal(n: nat): (s: string)
    ensures s != [] && AllDigits(s)
  {
    if n < 10 then [Digit(n)] else Decimal(n / 10) + [Digit(n % 10)]
  }

  function Value(s: string): nat
    requires AllDigits(s)
  {
    if s == [] then 0 else 10 * Value(s[..|s| - 1]) + DigitValue(s[|s| - 1])
  }

  /** The array-index grammar of RFC 6901 section 4: digits without leading zeros. */
  function ParseIndex(s: string): Option<nat> {
    if Canonical(s) then Some(Value(s)) else None
  }

  lemma ValueSnoc(front: string, c: char)
    requires AllDigits(front) && IsDigit(c)
    ensures AllDigits(front + [c]) && Value(front + [c]) == 10 * Value(front) + DigitValue(c)
  {
    var s := front + [c];
    assert s[..|s| - 1] == front;
  }

  lemma {:induction false} ParseOfDecimal(n: nat)
    ensures ParseIndex(Decimal(n)) == Some(n)
    ensures n > 0 ==> Decimal(n)[0] != '0'
  {
    var front := if n < 10 then "" else Decimal(n / 10);
    assert Decimal(n) == front + [Digit(n % 10)];
    ValueSnoc(front, Digit(n % 10));
    if n >= 10 {
      ParseOfDecimal(n / 10);
    }
  }

  predicate Canonical(s: string) {
    s != [] && AllDigits(s) && (|s| == 1 || s[0] != '0')
  }

  lemma DecimalSnoc(v: nat, c: char)
    requires IsDigit(c)
    ensures var n := 10 * v + DigitValue(c); Decimal(n) == if v == 0 then [c] else Decimal(v) + [c]
  {
    var d := DigitValue(c);
    assert Digit(d) == c;
    assert (10 * v + d) / 10 == v && (10 * v + d) % 10 == d;
  }

  lemma CanonicalFront(s: string)
    requires Canonical(s) && |s| > 1
    ensures Canonical(s[..|s| - 1]) && s[..|s| - 1][0] == s[0] != '0'
    ensures s == s[..|s| - 1] + [s[|s| - 1]]
  {
  }

  lemma ValueOfDigit(c: char)
    requires IsDigit(c)
    ensures Value([c]) == DigitValue(c) && Decimal(DigitValue(c)) == [c]
  {
    assert [c] == "" + [c];
    ValueSnoc("", c);
    DecimalSnoc(0, c);
  }

  lemma {:induction false} ValueOfCanonical(s: string)
    requires Canonical(s)
    ensures Decimal(Value(s)) == s
    ensures s[0] != '0' ==> Value(s) > 0
  {
    if |s| == 1 {
      assert s == [s[0]];
      ValueOfDigit(s[0]);
    } else {
      CanonicalFront(s);
      ValueOfCanonical(s[..|s| - 1]);
      DecimalSnoc(Value(s[..|s| - 1]), s[|s| - 1]);
    }
  }

  lemma ParseIndexIffDecimal(s: string, n: nat)
    ensures ParseIndex(s) == Some(n) <==> s == Decimal(n)
  {
    ParseOfDecimal(n);
    if ParseIndex(s) == Some(n) {
      ValueOfCanonical(s);
    }
  }

  // ---------------------------------------------------------------- reference tokens

  /** gate.go's escape: every `~` first, then every `/`. */
  function Escape(segment: string): string {
    ReplaceAll(ReplaceAll(segment, '~', "~0"), '/', "~1")
  }

  /** Left-to-right replacement of the two characters `c d` by `r`. */
  function ReplacePair(s: string, c: char, d: char, r: char): string {
    if |s| >= 2 && s[0] == c && s[1] == d then [r] + ReplacePair(s[2..], c, d, r)
    else if s == [] then []
    else [s[0]] + ReplacePair(s[1..], c, d, r)
  }

  /** The decoding of RFC 6901 section 4: `~1` first, then `~0`. */
  function Unescape(token: string): string {
    ReplacePair(ReplacePair(token, '~', '1', '/'), '~', '0', '~')
  }

  function EscapeChar(c: char): string {
    if c == '~' then "~0" else if c == '/' then "~1" else [c]
  }

  lemma EscapeStep(s: string)
    requires s != []
    ensures Escape(s) == EscapeChar(s[0]) + Escape(s[1..])
  {
    var head := if s[0] == '~' then "~0" else [s[0]];
    ReplaceAllConcat(head, ReplaceAll(s[1..], '~', "~0"), '/', "~1");
    assert ReplaceAll(head, '/', "~1") == EscapeChar(s[0]) by {
      assert head[1..] == if s[0] == '~' then "0" else "";
      assert ReplaceAll("0", '/', "~1") == "0";
    }
  }

  lemma {:induction false} UndoSlashes(s: string)
    ensures ReplacePair(Escape(s), '~', '1', '/') == ReplaceAll(s, '~', "~0")
  {
    if s != [] {
      UndoSlashes(s[1..]);
      EscapeStep(s);
      var rest := Escape(s[1..]);
      if s[0] == '~' {
        assert ("~0" + rest)[1..] == "0" + rest && ("0" + rest)[1..] == rest;
      } else if s[0] == '/' {
        assert ("~1" + rest)[2..] == rest;
      } else {
        assert ([s[0]] + rest)[1..] == rest;
      }
    }
  }

  lemma {:induction false} UndoTildes(s: string)
    ensures ReplacePair(ReplaceAll(s, '~', "~0"), '~', '0', '~') == s
  {
    if s != [] {
      UndoTildes(s[1..]);
      var rest := ReplaceAll(s[1..], '~', "~0");
      if s[0] == '~' {
        assert ("~0" + rest)[2..] == rest;
      } else {
        assert ([s[0]] + rest)[1..] == rest;
      }
    }
  }

  /** Decoding undoes escaping, so escaping is injective. */
  lemma UnescapeOfEscape(s: string)
    ensures Unescape(Escape(s)) == s
  {
    UndoSlashes(s);
    UndoTildes(s);
  }

  /** An escaped token never holds a raw separator. */
  lemma {:induction false} EscapeHidesSlash(s: string)
    ensures '/' !in Escape(s)
  {
    if s != [] {
      EscapeStep(s);
      EscapeHidesSlash(s[1..]);
    }
  }

  lemma {:induction false} EscapeOfPlain(s: string)
    requires '~' !in s && '/' !in s
    ensures Escape(s) == s
  {
    if s != [] {
      EscapeStep(s);
      EscapeOfPlain(s[1..]);
    }
  }

  lemma EscapeOfDecimal(n: nat)
    ensures Escape(Decimal(n)) == Decimal(n)
  {
    EscapeOfPlain(Decimal(n));
  }

  // ---------------------------------------------------------------- whole pointers

  /** A location in a tree: the unescaped tokens from the root. */
  type Location = seq<string>

  /** The pointer string diff accumulates while descending to `loc`. */
  function Render(loc: Location): string {
    if loc == [] then "" else ['/'] + (Escape(loc[0]) + Render(loc[1..]))
  }

  function EscapeAll(loc: Location): seq<string> {
    if loc == [] then [] else [Escape(loc[0])] + EscapeAll(loc[1..])
  }

  function UnescapeAll(parts: seq<string>): Location {
    if parts == [] then [] else [Unescape(parts[0])] + UnescapeAll(parts[1..])
  }

  /** Evaluation-side reading of a pointer string, RFC 6901 sections 3 and 4. */
  function Parse(path: string): Option<Location> {
    if path == "" then Some([])
    else if path[0] != '/' then None
    else
      Some(UnescapeAll(Split(path[1..], '/')))
  }

  lemma RenderBody(loc: Location)
    requires loc != []
    ensures Render(loc) != [] && Render(loc)[0] == '/'
    ensures Render(loc)[1..] == Escape(loc[0]) + Render(loc[1..])
  {
    Tail('/', Escape(loc[0]) + Render(loc[1..]));
  }

  lemma {:induction false} RenderSplits(loc: Location, body: string)
    requires loc != [] && body == Escape(loc[0]) + Render(loc[1..])
    ensures Split(body, '/') == EscapeAll(loc)
  {
    var head := Escape(loc[0]);
    EscapeHidesSlash(loc[0]);
    if |loc| == 1 {
      assert loc[1..] == [];
      assert body == head;
      assert IndexOf(head, '/') == |head|;
    } else {
      var rest := Escape(loc[1..][0]) + Render(loc[1..][1..]);
      RenderSplits(loc[1..], rest);
      SplitCons(head, '/', rest);
    }
  }

  lemma {:induction false} UnescapeAllOfEscapeAll(loc: Location)
    ensures UnescapeAll(EscapeAll(loc)) == loc
  {
    if loc != [] {
      UnescapeOfEscape(loc[0]);
      UnescapeAllOfEscapeAll(loc[1..]);
      assert EscapeAll(loc)[1..] == EscapeAll(loc[1..]);
      assert loc == [loc[0]] + loc[1..];
    }
  }

  /** A path calculated by the gate determines the tree location it was calculated for. */
  lemma ParseOfRender(loc: Location)
    ensures Parse(Render(loc)) == Some(loc)
  {
    if loc != [] {
      RenderBody(loc);
      RenderSplits(loc, Render(loc)[1..]);
      UnescapeAllOfEscapeAll(loc);
    }
  }

  lemma RenderInjective(a: Location, b: Location)
    requires Render(a) == Render(b)
    ensures a == b
  {
    ParseOfRender(a);
    ParseOfRender(b);
  }

  lemma {:induction false} RenderConcat(a: Location, b: Location)
    ensures Render(a + b) == Render(a) + Render(b)
  {
    if a == [] {
      assert a + b == b;
      assert Render(a) + Render(b) == Render(b);
    } else {
      RenderConcat(a[1..], b);
      assert (a + b)[1..] == a[1..] + b;
      var e := Escape(a[0]);
      Assoc(['/'], e + Render(a[1..]), Render(b));
      Assoc(e, Render(a[1..]), Render(b));
    }
  }

  /**
   * The textual test `path == p || HasPrefix(path, p + "/")` of isHighRisk is exactly the
   * ancestor-or-self test on locations.
   */
  lemma {:induction false} TextualPrefixIsAncestor(loc: Location, ancestor: Location)
    ensures Render(loc) == Render(ancestor) || HasPrefix(Render(loc), Render(ancestor) + "/") <==> ancestor <= loc
  {
    var path, p := Render(loc), Render(ancestor);
    if ancestor <= loc {
      var rest := loc[|ancestor|..];
      assert loc == ancestor + rest;
      RenderConcat(ancestor, rest);
      if rest != [] {
        assert Render(rest)[0] == '/';
        assert path[..|p| + 1] == p + "/";
      }
    } else if path == p {
      RenderInjective(loc, ancestor);
    } else if HasPrefix(path, p + "/") {
      var tail := path[|p|..];
      assert path == p + tail && tail[0] == '/';
      PrefixParts(loc, ancestor, tail);
    }
  }

  lemma {:induction false} PrefixParts(loc: Location, ancestor: Location, tail: string)
    requires Render(loc) == Render(ancestor) + tail
    requires tail != "" && tail[0] == '/'
    ensures ancestor <= loc
  {
    if ancestor != [] {
      assert loc != [];
      EscapeHidesSlash(loc[0]);
      EscapeHidesSlash(ancestor[0]);
      var e, f := Escape(loc[0]), Escape(ancestor[0]);
      var x, y := Render(loc[1..]), Render(ancestor[1..]) + tail;
      RenderBody(loc);
      RenderBody(ancestor);
      Assoc(f, Render(ancestor[1..]), tail);
      assert (Render(ancestor) + tail)[1..] == Render(ancestor)[1..] + tail;
      if |loc| > 1 { RenderBody(loc[1..]); }
      if |ancestor| > 1 { RenderBody(ancestor[1..]); }
      SameHead(e, x, f, y);
      UnescapeOfEscape(loc[0]);
      UnescapeOfEscape(ancestor[0]);
      PrefixParts(loc[1..], ancestor[1..], tail);
      assert ancestor == [ancestor[0]] + ancestor[1..];
      assert loc == [loc[0]] + loc[1..];
    }
  }

  lemma SameHead(e: string, x: string, f: string, y: string)
    requires e + x == f + y && '/' !in e && '/' !in f
    requires (x == "" || x[0] == '/') && y != "" && y[0] == '/'
    ensures e == f && x == y
  {
    HeadLength(e, x);
    HeadLength(f, y);
    assert (e + x)[..|e|] == e && (f + y)[..|f|] == f;
    assert (e + x)[|e|..] == x && (f + y)[|f|..] == y;
  }

  lemma HeadLength(e: string, x: string)
    requires '/' !in e && (x == "" || x[0] == '/')
    ensures IndexOf(e + x, '/') == |e|
  {
    if x == "" {
      assert e + x == e;
    } else {
      assert x == ['/'] + x[1..];
      FirstOccurrence(e, '/', x[1..]);
    }
  }
}

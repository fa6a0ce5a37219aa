/** `format_nvec`: the text label of a Fourier frequency, either one integer
    or a vector of integers.  Integers are written in Python's decimal form;
    in a vector each non-negative entry gets one leading space, so that signed
    and unsigned entries line up, and the entries are joined by single spaces. */
module FourierFormat {

  /** A frequency: a single integer or a tuple of integers. */
  datatype NVec = Scalar(n: int) | Vector(ns: seq<int>)

  predicate IsDigit(c: char) {
    '0' <= c <= '9'
  }

  predicate AllDigits(s: string) {
    forall i :: 0 <= i < |s| ==> IsDigit(s[i])
  }

  /** No character of `s` is a space. */
  predicate NoSpace(s: string) {
    forall i :: 0 <= i < |s| ==> s[i] != ' '
  }

  function DigitChar(d: nat): (c: char)
    requires d < 10
    ensures IsDigit(c)
  {
    ('0' as int + d) as char
  }

  function DigitValue(c: char): (d: nat)
    requires IsDigit(c)
    ensures d < 10
  {
    c as int - '0' as int
  }

  /** The decimal digits of `n`, most significant first, without leading zeros. */
  function NatString(n: nat): (s: string)
    ensures |s| >= 1 && AllDigits(s)
    ensures s[0] == '0' <==> n == 0
  {
    if n < 10 then [DigitChar(n)] else NatString(n / 10) + [DigitChar(n % 10)]
  }

  /** Python's `str` of an integer: a minus sign for negatives, then the digits. */
  function IntString(n: int): string {
    if n < 0 then "-" + NatString(-n) else NatString(n)
  }

  /** The value of a string of decimal digits. */
  function ParseNat(s: string): nat
    requires AllDigits(s)
  {
    if s == [] then 0 else ParseNat(s[..|s| - 1]) * 10 + DigitValue(s[|s| - 1])
  }

  /** `s` reads as an integer: at least one digit, optionally after one minus
      sign.  (Python's `int` also takes a `+` sign, surrounding whitespace and
      `_` separators, which labels never contain.) */
  predicate IntText(s: string) {
    if |s| > 0 && s[0] == '-' then |s| >= 2 && AllDigits(s[1..]) else |s| >= 1 && AllDigits(s)
  }

  /** `s` is the form `str` gives an integer: no leading zero except in `"0"`
      itself, and no `"-0"`. */
  predicate CanonicalInt(s: string) {
    IntText(s) &&
    if s[0] == '-' then s[1] != '0' else (s[0] == '0' ==> |s| == 1)
  }

  /** The value of digits `s` that start with a non-zero digit. */
  lemma {:induction false} LeadingDigitPositive(s: string)
    requires |s| >= 1 && AllDigits(s) && s[0] != '0'
    ensures ParseNat(s) >= 1
  {
    if |s| > 1 {
      LeadingDigitPositive(s[..|s| - 1]);
    }
  }

  /** Digits without a leading zero are the decimal string of their value. */
  lemma {:induction false} CanonicalNat(s: string)
    requires |s| >= 1 && AllDigits(s) && (s[0] == '0' ==> |s| == 1)
    ensures s == NatString(ParseNat(s))
  {
    var m := ParseNat(s);
    var p := s[..|s| - 1];
    var d := DigitValue(s[|s| - 1]);
    assert m == ParseNat(p) * 10 + d;
    assert DigitChar(d) == s[|s| - 1];
    assert s == p + [DigitChar(d)];
    if |s| == 1 {
      assert p == [] && m == d;
    } else {
      LeadingDigitPositive(p);
      CanonicalNat(p);
      assert m / 10 == ParseNat(p) && m % 10 == d;
    }
  }

  /** A label in `str` form is determined by the integer it reads as. */
  lemma CanonicalUnique(s: string)
    requires CanonicalInt(s)
    ensures s == IntString(ParseInt(s))
  {
    if s[0] == '-' {
      var t := s[1..];
      CanonicalNat(t);
      assert t[0] != '0';
      LeadingDigitPositive(t);
      assert s == "-" + t;
    } else {
      CanonicalNat(s);
    }
  }

  /** Python's `int` of a decimal string. */
  function ParseInt(s: string): int
    requires IntText(s)
  {
    if |s| > 0 && s[0] == '-' then -(ParseNat(s[1..]) as int) else ParseNat(s)
  }

  lemma {:induction false} NatStringRoundTrip(n: nat)
    ensures ParseNat(NatString(n)) == n
  {
    if n >= 10 {
      NatStringRoundTrip(n / 10);
      var s := NatString(n);
      assert s[..|s| - 1] == NatString(n / 10);
    }
  }

  /** `str` then `int` gives the integer back; the text holds no space. */
  lemma IntStringRoundTrip(n: int)
    ensures CanonicalInt(IntString(n)) && NoSpace(IntString(n)) && |IntString(n)| >= 1
    ensures ParseInt(IntString(n)) == n
  {
    if n < 0 {
      NatStringRoundTrip(-n);
      assert IntString(n)[1..] == NatString(-n);
    } else {
      NatStringRoundTrip(n);
    }
  }

  /** One entry of a vector label: a leading space unless the entry is negative. */
  function Render(n: int): string {
    if n < 0 then IntString(n) else " " + IntString(n)
  }

  function Renders(ns: seq<int>): (r: seq<string>)
    ensures |r| == |ns|
  {
    if ns == [] then [] else [Render(ns[0])] + Renders(ns[1..])
  }

  /** Python's `" ".join(parts)`. */
  function Join(parts: seq<string>): string {
    if parts == [] then ""
    else if |parts| == 1 then parts[0]
    else parts[0] + " " + Join(parts[1..])
  }

  /** The label of a frequency.  A scalar label is the integer's `str` form
      (`CanonicalUnique` shows that form is fixed by the value); a vector
      label splits at its spaces into `Pieces`, which fixes it (`SplitInjective`). */
  function FormatNVec(v: NVec): (r: string)
    ensures v.Scalar? ==> CanonicalInt(r) && NoSpace(r) && ParseInt(r) == v.n
    ensures v.Vector? && v.ns == [] ==> r == ""
    ensures v.Vector? && v.ns != [] ==> SplitOn(r) == Pieces(v.ns)
    ensures v.Vector? ==> (forall t :: t in Tokens(r) ==> CanonicalInt(t)) && ParseAll(Tokens(r)) == v.ns
    ensures v.Scalar? ==> Spaces(r) == 0
    ensures v.Vector? ==> Spaces(r) == (if v.ns == [] then 0 else |v.ns| - 1) + NonNegatives(v.ns)
  {
    match v
    case Scalar(n) =>
      IntStringRoundTrip(n);
      NoSpaceHasNoSpaces(IntString(n));
      IntString(n)
    case Vector(ns) =>
      VectorPieces(ns);
      VectorTokens(ns);
      ParseIntStrings(ns);
      VectorSpaces(ns);
      Join(Renders(ns))
  }

  // ---- counting the spaces ----

  function Spaces(s: string): nat {
    if s == [] then 0 else (if s[0] == ' ' then 1 else 0) + Spaces(s[1..])
  }

  /** How many entries of `ns` are non-negative. */
  function NonNegatives(ns: seq<int>): nat {
    if ns == [] then 0 else (if ns[0] >= 0 then 1 else 0) + NonNegatives(ns[1..])
  }

  lemma {:induction false} SpacesConcat(a: string, b: string)
    ensures Spaces(a + b) == Spaces(a) + Spaces(b)
  {
    if a != [] {
      assert (a + b)[0] == a[0] && (a + b)[1..] == a[1..] + b;
      SpacesConcat(a[1..], b);
    } else {
      assert a + b == b;
    }
  }

  lemma {:induction false} NoSpaceHasNoSpaces(s: string)
    requires NoSpace(s)
    ensures Spaces(s) == 0
  {
    if s != [] {
      NoSpaceHasNoSpaces(s[1..]);
    }
  }

  lemma RenderSpaces(n: int)
    ensures Spaces(Render(n)) == if n >= 0 then 1 else 0
  {
    IntStringRoundTrip(n);
    NoSpaceHasNoSpaces(IntString(n));
    SpacesConcat(" ", IntString(n));
  }

  lemma {:induction false} VectorSpaces(ns: seq<int>)
    ensures Spaces(Join(Renders(ns))) == (if ns == [] then 0 else |ns| - 1) + NonNegatives(ns)
  {
    if ns != [] {
      RenderSpaces(ns[0]);
      if |ns| > 1 {
        VectorSpaces(ns[1..]);
        SpacesConcat(Render(ns[0]), " ");
        SpacesConcat(Render(ns[0]) + " ", Join(Renders(ns[1..])));
      }
    }
  }

  // ---- reading a label back ----

  /** Python's `s.split(" ")`: the pieces between single spaces, empty pieces kept. */
  function SplitOn(s: string): (r: seq<string>)
    ensures |r| >= 1
  {
    if s == [] then [""]
    else
      var rest := SplitOn(s[1..]);
      if s[0] == ' ' then [""] + rest else [[s[0]] + rest[0]] + rest[1..]
  }

  /** The non-empty pieces: for single-space separated text, Python's `s.split()`. */
  function NonEmpty(pieces: seq<string>): seq<string> {
    if pieces == [] then []
    else (if pieces[0] == "" then [] else [pieces[0]]) + NonEmpty(pieces[1..])
  }

  function Tokens(s: string): seq<string> {
    NonEmpty(SplitOn(s))
  }

  /** The decimal strings of the entries, in order. */
  function IntStrings(ns: seq<int>): (r: seq<string>)
    ensures |r| == |ns|
    ensures forall i :: 0 <= i < |ns| ==> r[i] == IntString(ns[i])
  {
    if ns == [] then [] else [IntString(ns[0])] + IntStrings(ns[1..])
  }

  /** Python's `[int(t) for t in ts]`. */
  function ParseAll(ts: seq<string>): (r: seq<int>)
    requires forall t :: t in ts ==> IntText(t)
    ensures |r| == |ts|
  {
    if ts == [] then [] else [ParseInt(ts[0])] + ParseAll(ts[1..])
  }

  lemma {:induction false} SplitNoSpace(w: string)
    requires NoSpace(w)
    ensures SplitOn(w) == [w]
  {
    if w != [] {
      SplitNoSpace(w[1..]);
      assert [w[0]] + w[1..] == w;
    }
  }

  /** Splitting at one space splits the two sides independently. */
  lemma {:induction false} SplitConcat(a: string, b: string)
    ensures SplitOn(a + " " + b) == SplitOn(a) + SplitOn(b)
  {
    if a == [] {
      assert a + " " + b == " " + b;
      assert (" " + b)[1..] == b;
    } else {
      assert (a + " " + b)[1..] == a[1..] + " " + b;
      SplitConcat(a[1..], b);
    }
  }

  lemma {:induction false} NonEmptyConcat(a: seq<string>, b: seq<string>)
    ensures NonEmpty(a + b) == NonEmpty(a) + NonEmpty(b)
  {
    if a != [] {
      assert (a + b)[0] == a[0] && (a + b)[1..] == a[1..] + b;
      NonEmptyConcat(a[1..], b);
    } else {
      assert a + b == b;
    }
  }

  /** The pieces a vector label splits into at its single spaces: an empty
      piece before each non-negative entry (its leading space), then the
      entry's `str` form. */
  function Pieces(ns: seq<int>): seq<string> {
    if ns == [] then [] else (if ns[0] < 0 then [] else [""]) + [IntString(ns[0])] + Pieces(ns[1..])
  }

  lemma RenderPieces(n: int)
    ensures SplitOn(Render(n)) == (if n < 0 then [] else [""]) + [IntString(n)]
  {
    IntStringRoundTrip(n);
    SplitNoSpace(IntString(n));
    if n >= 0 {
      SplitConcat("", IntString(n));
      assert "" + " " + IntString(n) == Render(n);
      assert SplitOn("") == [""];
    }
  }

  /** A non-empty vector label splits into the pieces of its entries. */
  lemma {:induction false} VectorPieces(ns: seq<int>)
    ensures ns != [] ==> SplitOn(Join(Renders(ns))) == Pieces(ns)
  {
    if ns == [] {
    } else if |ns| > 1 {
      RenderPieces(ns[0]);
      VectorPieces(ns[1..]);
      assert Renders(ns)[1..] == Renders(ns[1..]);
      assert Join(Renders(ns)) == Render(ns[0]) + " " + Join(Renders(ns[1..]));
      SplitConcat(Render(ns[0]), Join(Renders(ns[1..])));
    } else {
      RenderPieces(ns[0]);
      assert Pieces(ns[1..]) == [];
    }
  }

  /** Joining the pieces at single spaces gives the text back. */
  lemma {:induction false} JoinSplit(s: string)
    ensures Join(SplitOn(s)) == s
  {
    if s != [] {
      var rest := SplitOn(s[1..]);
      JoinSplit(s[1..]);
      if s[0] == ' ' {
        assert SplitOn(s) == [""] + rest;
        assert ([""] + rest)[1..] == rest;
      } else {
        var first := [s[0]] + rest[0];
        assert SplitOn(s) == [first] + rest[1..];
        if |rest| == 1 {
          assert Join(rest) == rest[0];
        } else {
          assert Join(rest) == rest[0] + " " + Join(rest[1..]);
          assert ([first] + rest[1..])[1..] == rest[1..];
        }
      }
    }
  }

  /** Two texts with the same pieces are equal. */
  lemma SplitInjective(a: string, b: string)
    requires SplitOn(a) == SplitOn(b)
    ensures a == b
  {
    JoinSplit(a);
    JoinSplit(b);
  }

  lemma RenderTokens(n: int)
    ensures NonEmpty(SplitOn(Render(n))) == [IntString(n)]
  {
    RenderPieces(n);
    IntStringRoundTrip(n);
    assert NonEmpty([IntString(n)]) == [IntString(n)];
    if n >= 0 {
      NonEmptyConcat([""], [IntString(n)]);
    }
  }

  /** The tokens of a vector label are the entries' decimal strings, in order. */
  lemma {:induction false} VectorTokens(ns: seq<int>)
    ensures Tokens(Join(Renders(ns))) == IntStrings(ns)
  {
    if ns == [] {
    } else if |ns| == 1 {
      RenderTokens(ns[0]);
    } else {
      RenderTokens(ns[0]);
      VectorTokens(ns[1..]);
      SplitConcat(Render(ns[0]), Join(Renders(ns[1..])));
      NonEmptyConcat(SplitOn(Render(ns[0])), SplitOn(Join(Renders(ns[1..]))));
    }
  }

  lemma {:induction false} ParseIntStrings(ns: seq<int>)
    ensures forall t :: t in IntStrings(ns) ==> CanonicalInt(t)
    ensures ParseAll(IntStrings(ns)) == ns
  {
    var ts := IntStrings(ns);
    forall t | t in ts ensures IntText(t) {
      var i :| 0 <= i < |ts| && ts[i] == t;
      IntStringRoundTrip(ns[i]);
    }
    if ns != [] {
      IntStringRoundTrip(ns[0]);
      ParseIntStrings(ns[1..]);
      assert ts[1..] == seq(|ns[1..]|, i requires 0 <= i < |ns[1..]| => IntString(ns[1..][i]));
    }
  }

  /** A vector label lines up signed and unsigned entries; a single integer has
      no leading space. */
  lemma FormatExample()
    ensures FormatNVec(Vector([1, -2, 0])) == " 1 -2  0"
    ensures FormatNVec(Scalar(-3)) == "-3" && FormatNVec(Scalar(12)) == "12"
  {
    VectorLabelExample();
    ScalarLabelExample();
  }

  lemma VectorLabelExample()
    ensures Join(Renders([1, -2, 0])) == " 1 -2  0"
  {
    assert NatString(1) == "1" && NatString(2) == "2" && NatString(0) == "0";
    assert Render(1) == " 1" && Render(-2) == "-2" && Render(0) == " 0";
    var ns := [1, -2, 0];
    assert ns[1..] == [-2, 0] && ns[1..][1..] == [0] && ns[1..][1..][1..] == [];
    assert Renders([0]) == [" 0"];
    assert Renders([-2, 0]) == ["-2", " 0"];
    assert Renders(ns) == [" 1", "-2", " 0"];
    var ps := [" 1", "-2", " 0"];
    assert ps[1..] == ["-2", " 0"] && ps[1..][1..] == [" 0"];
  }

  lemma ScalarLabelExample()
    ensures IntString(-3) == "-3" && IntString(12) == "12"
  {
    assert NatString(3) == "3" && NatString(12) == "12";
  }
}

/** The pieces of Go's standard library that the iPXE handler relies on to
    build its kernel arguments: strings.Fields, net.JoinHostPort and
    strconv.Itoa, over Dafny strings (sequences of Unicode scalar values). */
module Text {

  /** White space as Go's unicode.IsSpace defines it: the ASCII controls
      '\t' to '\r', ' ', U+0085, U+00A0 and the other Unicode White_Space
      characters. */
  predicate IsSpace(c: char) {
    var n := c as int;
    (0x09 <= n <= 0x0D) || n == 0x20 || n == 0x85 || n == 0xA0 || n == 0x1680
    || (0x2000 <= n <= 0x200A) || n == 0x2028 || n == 0x2029 || n == 0x202F
    || n == 0x205F || n == 0x3000
  }

  /** Among ASCII characters, the white space is exactly Go's asciiSpace
      table: tab, newline, vertical tab, form feed, carriage return and
      space; among the Latin-1 supplement, NEL and no-break space. */
  lemma SpaceCharacters(c: char)
    ensures c as int < 0x80 ==>
      (IsSpace(c) <==> c == '\t' || c == '\n' || c == '\U{B}' || c == '\U{C}' || c == '\r' || c == ' ')
    ensures 0x80 <= c as int < 0x100 ==> (IsSpace(c) <==> c == '\U{85}' || c == '\U{A0}')
  {
  }

  /** A field: a non-empty run of characters none of which is white space. */
  predicate IsField(w: string) {
    |w| > 0 && forall i :: 0 <= i < |w| ==> !IsSpace(w[i])
  }

  /** The characters of s that are not white space, in their order. */
  function NonSpace(s: string): string {
    if s == [] then [] else (if IsSpace(s[0]) then [] else [s[0]]) + NonSpace(s[1..])
  }

  function Concat(ws: seq<string>): string {
    if ws == [] then [] else ws[0] + Concat(ws[1..])
  }

  /** ws joined with sep between consecutive elements (Go's strings.Join). */
  function Join(ws: seq<string>, sep: string): string {
    if ws == [] then [] else if |ws| == 1 then ws[0] else ws[0] + sep + Join(ws[1..], sep)
  }

  lemma {:induction false} NonSpaceAppend(a: string, b: string)
    ensures NonSpace(a + b) == NonSpace(a) + NonSpace(b)
  {
    if a == [] {
      assert a + b == b;
    } else {
      var head := if IsSpace(a[0]) then [] else [a[0]];
      assert (a + b)[0] == a[0];
      assert (a + b)[1..] == a[1..] + b;
      assert NonSpace(a + b) == head + NonSpace(a[1..] + b);
      assert NonSpace(a) == head + NonSpace(a[1..]);
      NonSpaceAppend(a[1..], b);
    }
  }

  lemma {:induction false} NonSpaceOfSpaceFree(w: string)
    requires forall i :: 0 <= i < |w| ==> !IsSpace(w[i])
    ensures NonSpace(w) == w
  {
    if w != [] {
      NonSpaceOfSpaceFree(w[1..]);
    }
  }

  /** Length of the run of non-space characters that starts s. */
  function WordLength(s: string): (n: nat)
    ensures n <= |s|
    ensures forall i :: 0 <= i < n ==> !IsSpace(s[i])
    ensures n < |s| ==> IsSpace(s[n])
  {
    if s == [] || IsSpace(s[0]) then 0 else 1 + WordLength(s[1..])
  }

  /** Go's strings.Fields: s split around each run of white space. Every
      element is a field, and together they hold exactly the non-space
      characters of s, in order. */
  function Fields(s: string): (r: seq<string>)
    ensures forall k :: 0 <= k < |r| ==> IsField(r[k])
    ensures Concat(r) == NonSpace(s)
    decreases |s|
  {
    if s == [] then []
    else if IsSpace(s[0]) then Fields(s[1..])
    else
      var n := WordLength(s);
      assert s == s[..n] + s[n..];
      NonSpaceAppend(s[..n], s[n..]);
      NonSpaceOfSpaceFree(s[..n]);
      [s[..n]] + Fields(s[n..])
  }

  /** A string with no field splits into nothing, and only such a string. */
  lemma FieldsEmpty(s: string)
    ensures Fields(s) == [] <==> NonSpace(s) == []
  {
    var r := Fields(s);
    if r != [] {
      assert Concat(r) == r[0] + Concat(r[1..]);
    }
  }

  lemma {:induction false} WordLengthOfField(w: string, t: string)
    requires forall i :: 0 <= i < |w| ==> !IsSpace(w[i])
    requires t == [] || IsSpace(t[0])
    ensures WordLength(w + t) == |w|
  {
    if w != [] {
      assert (w + t)[1..] == w[1..] + t;
      WordLengthOfField(w[1..], t);
    }
  }

  /** A field followed by white space (or by nothing) is the first field. */
  lemma FieldsOfFieldThen(w: string, t: string)
    requires IsField(w)
    requires t == [] || IsSpace(t[0])
    ensures Fields(w + t) == [w] + Fields(t)
  {
    WordLengthOfField(w, t);
    assert (w + t)[0] == w[0];
    assert (w + t)[..|w|] == w;
    assert (w + t)[|w|..] == t;
  }

  /** Fields splits only at white space, and at every run of it: a white
      space character separates the fields before it from those after it.
      With FieldsEmpty and FieldsOfJoin([w]) this fixes Fields on every
      string. */
  lemma {:induction false} FieldsSplitAtSpace(a: string, c: char, b: string)
    requires IsSpace(c)
    ensures Fields(a + [c] + b) == Fields(a) + Fields(b)
    decreases |a|, 1
  {
    var s := a + [c] + b;
    if a == [] {
      assert s == [c] + b;
      assert s[1..] == b;
    } else if IsSpace(a[0]) {
      assert s[0] == a[0];
      assert s[1..] == a[1..] + [c] + b;
      FieldsSplitAtSpace(a[1..], c, b);
    } else {
      FieldsSplitAfterWord(a, c, b);
    }
  }

  /** The case of FieldsSplitAtSpace where a starts with a field. */
  lemma {:induction false} FieldsSplitAfterWord(a: string, c: char, b: string)
    requires IsSpace(c)
    requires a != [] && !IsSpace(a[0])
    ensures Fields(a + [c] + b) == Fields(a) + Fields(b)
    decreases |a|, 0
  {
    var n := WordLength(a);
    var w, rest := a[..n], a[n..] + [c] + b;
    assert Fields(a) == [w] + Fields(a[n..]) by {
      assert a == w + a[n..];
      FieldsOfFieldThen(w, a[n..]);
    }
    assert Fields(a + [c] + b) == [w] + Fields(rest) by {
      assert a + [c] + b == w + rest;
      if n < |a| {
        assert rest[0] == a[n];
      } else {
        assert rest[0] == c;
      }
      FieldsOfFieldThen(w, rest);
    }
    assert Fields(rest) == Fields(a[n..]) + Fields(b) by {
      FieldsSplitAtSpace(a[n..], c, b);
    }
  }

  /** Splitting undoes joining with a single space: Fields(Join(ws, " "))
      gives back ws whenever every element of ws is a field. */
  lemma {:induction false} FieldsOfJoin(ws: seq<string>)
    requires forall k :: 0 <= k < |ws| ==> IsField(ws[k])
    ensures Fields(Join(ws, " ")) == ws
  {
    if ws == [] {
    } else if |ws| == 1 {
      WordLengthOfField(ws[0], []);
      assert ws[0] + [] == ws[0];
      assert ws[0][|ws[0]|..] == [];
    } else {
      var w, rest := ws[0], Join(ws[1..], " ");
      var s := w + " " + rest;
      assert s == w + (" " + rest);
      WordLengthOfField(w, " " + rest);
      assert s[..|w|] == w;
      assert s[|w|..] == " " + rest;
      assert (" " + rest)[1..] == rest;
      FieldsOfJoin(ws[1..]);
    }
  }

  /** Go's net.JoinHostPort: "host:port", with the host in brackets when it
      contains a colon (an IPv6 literal). */
  function JoinHostPort(host: string, port: string): (r: string)
    ensures |r| > |port| && r[|r| - |port| - 1..] == ":" + port
    ensures r[..|r| - |port| - 1] == if ':' in host then "[" + host + "]" else host
  {
    if ':' in host then "[" + host + "]:" + port else host + ":" + port
  }

  function DigitChar(d: nat): (c: char)
    requires d < 10
    ensures '0' <= c <= '9'
  {
    "0123456789"[d]
  }

  /** Decimal digits of n, most significant first, without leading zeros. */
  function NatToDecimal(n: nat): (r: string)
    ensures |r| > 0 && forall i :: 0 <= i < |r| ==> '0' <= r[i] <= '9'
    ensures n > 0 ==> r[0] != '0'
    decreases n
  {
    if n < 10 then [DigitChar(n)] else NatToDecimal(n / 10) + [DigitChar(n % 10)]
  }

  /** The number a string of decimal digits denotes. */
  function DecimalValue(s: string): nat
    requires forall i :: 0 <= i < |s| ==> '0' <= s[i] <= '9'
  {
    if s == [] then 0 else 10 * DecimalValue(s[..|s| - 1]) + (s[|s| - 1] as int - '0' as int)
  }

  /** Reading the digits back gives the number: NatToDecimal is injective
      and denotes what it formats. */
  lemma {:induction false} DecimalRoundTrip(n: nat)
    ensures DecimalValue(NatToDecimal(n)) == n
    decreases n
  {
    var r := NatToDecimal(n);
    if n >= 10 {
      assert r[..|r| - 1] == NatToDecimal(n / 10);
      DecimalRoundTrip(n / 10);
    }
  }

  /** Go's strconv.Itoa: the decimal digits of i, after a '-' when i is
      negative. */
  function Itoa(i: int): (r: string)
    ensures i >= 0 ==> r == NatToDecimal(i) && DecimalValue(r) == i
    ensures i < 0 ==> |r| > 1 && r[0] == '-' && r[1..] == NatToDecimal(-i) && DecimalValue(r[1..]) == -i
  {
    if i < 0 then
      DecimalRoundTrip(-i);
      "-" + NatToDecimal(-i)
    else
      DecimalRoundTrip(i);
      NatToDecimal(i)
  }
}

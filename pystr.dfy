/**
 * The parts of Python's `str` behaviour that the room server relies on:
 * `split()` with no separator, slicing with negative indices, `upper()`,
 * formatting a non-negative `int` with `str()`/`format`, and the `[:-1]`
 * that drops the last character of a reply.
 */
module PyStr {

  /** Python's `str.isspace()` for one character. */
  predicate IsSpace(c: char)
  {
    c == ' ' || c == '\t' || c == '\n' || c == '\r' || c == '\U{B}' || c == '\U{C}'
    || ('\U{1C}' <= c <= '\U{1F}') || c == '\U{85}' || c == '\U{A0}' || c == '\U{1680}'
    || ('\U{2000}' <= c <= '\U{200A}') || c == '\U{2028}' || c == '\U{2029}'
    || c == '\U{202F}' || c == '\U{205F}' || c == '\U{3000}'
  }

  predicate NoSpace(s: string)
  {
    forall i :: 0 <= i < |s| ==> !IsSpace(s[i])
  }

  predicate AllSpace(s: string)
  {
    forall i :: 0 <= i < |s| ==> IsSpace(s[i])
  }

  /** A word as `split()` produces it: non-empty, no whitespace. */
  predicate IsWord(w: string)
  {
    |w| > 0 && NoSpace(w)
  }

  predicate AllWords(ws: seq<string>)
  {
    forall k :: 0 <= k < |ws| ==> IsWord(ws[k])
  }

  /**
   * `split()` over the rest `s` of a string, with `cur` the word read so far:
   * maximal runs of non-whitespace characters, in order.
   */
  function SplitFrom(s: string, cur: string): (r: seq<string>)
    requires NoSpace(cur)
    ensures AllWords(r)
    ensures cur != [] ==> r != []
    decreases |s|
  {
    if s == [] then
      (if cur == [] then [] else [cur])
    else if IsSpace(s[0]) then
      (if cur == [] then SplitFrom(s[1..], []) else [cur] + SplitFrom(s[1..], []))
    else
      SplitFrom(s[1..], cur + [s[0]])
  }

  /** `s.split()`. */
  function Words(s: string): (r: seq<string>)
    ensures AllWords(r)
  {
    SplitFrom(s, [])
  }

  /** The words joined by single spaces, `' '.join(ws)`. */
  function Unwords(ws: seq<string>): string
  {
    if ws == [] then ""
    else if |ws| == 1 then ws[0]
    else ws[0] + " " + Unwords(ws[1..])
  }

  lemma {:induction false} SplitFromAllSpace(s: string, cur: string)
    requires NoSpace(cur)
    ensures SplitFrom(s, cur) == [] <==> cur == [] && AllSpace(s)
    decreases |s|
  {
    if s != [] {
      if IsSpace(s[0]) {
        SplitFromAllSpace(s[1..], []);
        if cur == [] && AllSpace(s[1..]) {
          assert AllSpace(s) by {
            forall i | 0 <= i < |s| ensures IsSpace(s[i]) {
              if i > 0 { assert s[i] == s[1..][i - 1]; }
            }
          }
        }
      } else {
        SplitFromAllSpace(s[1..], cur + [s[0]]);
      }
    }
  }

  /** `s.split()` is empty exactly when `s` is all whitespace (the empty string included). */
  lemma WordsEmpty(s: string)
    ensures Words(s) == [] <==> AllSpace(s)
  {
    SplitFromAllSpace(s, []);
  }

  /** Reading the characters of a whitespace-free `w` just extends the current word. */
  lemma {:induction false} SplitFromNoSpace(w: string, rest: string, cur: string)
    requires NoSpace(cur) && NoSpace(w)
    ensures NoSpace(cur + w)
    ensures SplitFrom(w + rest, cur) == SplitFrom(rest, cur + w)
    decreases |w|
  {
    if w == [] {
      assert w + rest == rest;
      assert cur + w == cur;
    } else {
      assert (w + rest)[0] == w[0];
      assert (w + rest)[1..] == w[1..] + rest;
      assert NoSpace(w[1..]) by {
        forall i | 0 <= i < |w[1..]| ensures !IsSpace(w[1..][i]) { assert w[1..][i] == w[i + 1]; }
      }
      SplitFromNoSpace(w[1..], rest, cur + [w[0]]);
      assert cur + [w[0]] + w[1..] == cur + w;
    }
  }

  lemma Assoc(a: string, b: string, c: string)
    ensures a + (b + c) == a + b + c
  {
  }

  /** After a space, reading starts a fresh word: the word read so far is emitted. */
  lemma SplitFromSpace(s: string, cur: string)
    requires NoSpace(cur)
    requires s != [] && IsSpace(s[0])
    ensures SplitFrom(s, cur) == (if cur == [] then [] else [cur]) + Words(s[1..])
  {
  }

  /** A single word followed by text that is empty or begins with whitespace. */
  lemma WordsAppendOne(w: string, t: string)
    requires IsWord(w)
    requires t == [] || IsSpace(t[0])
    ensures Words(w + t) == [w] + Words(t)
  {
    SplitFromNoSpace(w, t, []);
    assert [] + w == w;
    if t != [] {
      SplitFromSpace(t, w);
      SplitFromSpace(t, []);
    }
  }

  /**
   * Splitting words joined by spaces, followed by text that is empty or
   * begins with whitespace, gives back the words and then the text's words.
   */
  lemma {:induction false} WordsAppend(ws: seq<string>, t: string)
    requires AllWords(ws)
    requires t == [] || IsSpace(t[0])
    ensures Words(Unwords(ws) + t) == ws + Words(t)
    decreases |ws|
  {
    if ws == [] {
      assert Unwords(ws) + t == t;
    } else if |ws| == 1 {
      assert Unwords(ws) + t == ws[0] + t;
      WordsAppendOne(ws[0], t);
    } else {
      var u := Unwords(ws[1..]);
      var rest := u + t;
      assert AllWords(ws[1..]) by {
        forall k | 0 <= k < |ws[1..]| ensures IsWord(ws[1..][k]) { assert ws[1..][k] == ws[k + 1]; }
      }
      calc {
        Words(Unwords(ws) + t);
        Words(ws[0] + " " + u + t);
        { Assoc(ws[0] + " ", u, t); Assoc(ws[0], " ", rest); }
        Words(ws[0] + (" " + rest));
        { WordsAppendOne(ws[0], " " + rest); }
        [ws[0]] + Words(" " + rest);
        { SplitFromSpace(" " + rest, []); assert (" " + rest)[1..] == rest; }
        [ws[0]] + Words(rest);
        { WordsAppend(ws[1..], t); }
        [ws[0]] + (ws[1..] + Words(t));
        { assert ws == [ws[0]] + ws[1..]; }
        ws + Words(t);
      }
    }
  }

  /** `split()` inverts `' '.join` on words. */
  lemma WordsUnwords(ws: seq<string>)
    requires AllWords(ws)
    ensures Words(Unwords(ws)) == ws
  {
    WordsAppend(ws, "");
    assert Unwords(ws) + "" == Unwords(ws);
    assert Words("") == [];
    assert ws + [] == ws;
  }

  /** A line `"w1 w2\n"` as a client sends it splits into `[w1, w2]`. */
  lemma WordsOfLine(ws: seq<string>, t: string)
    requires AllWords(ws) && AllSpace(t)
    requires t == [] || IsSpace(t[0])
    ensures Words(Unwords(ws) + t) == ws
  {
    WordsAppend(ws, t);
    WordsEmpty(t);
    assert ws + [] == ws;
  }

  /** Python's normalisation of a slice bound against a length `n`. */
  function SliceBound(i: int, n: nat): (r: nat)
    ensures r <= n
    ensures 0 <= i <= n ==> r == i
    ensures i < 0 && -i <= n ==> r == n + i
  {
    if i < 0 then (if n + i < 0 then 0 else n + i)
    else if i > n then n
    else i
  }

  /** `s[start:stop]`. */
  function Slice(s: string, start: int, stop: int): (r: string)
    ensures |r| <= |s|
  {
    var a, b := SliceBound(start, |s|), SliceBound(stop, |s|);
    if a < b then s[a..b] else []
  }

  /** `s[:-1]`: everything but the last character, and `""` for `""`. */
  function DropLast(s: string): (r: string)
    ensures s != [] ==> r + [s[|s| - 1]] == s
    ensures s == [] ==> r == []
  {
    Slice(s, 0, -1)
  }

  /** `message[4:-1]` of `p + t + [c]` with a four-character prefix `p` is `t`. */
  lemma SliceMiddle(p: string, t: string, c: char)
    requires |p| == 4
    ensures Slice(p + t + [c], 4, -1) == t
  {
    var s := p + t + [c];
    assert SliceBound(-1, |s|) == |s| - 1;
    assert s[4..|s| - 1] == t;
  }

  /** `message[4:-1]` of a message of at most five characters is empty. */
  lemma SliceShort(s: string)
    requires |s| <= 5
    ensures Slice(s, 4, -1) == []
  {
  }

  /** Every character is ASCII. */
  predicate IsAscii(s: string)
  {
    forall i :: 0 <= i < |s| ==> s[i] < '\U{80}'
  }

  function UpperAscii(c: char): char
  {
    if 'a' <= c <= 'z' then (c as int - 32) as char else c
  }

  /**
   * `c.upper()`. ASCII letters, and the ten other characters whose upper
   * case consists of ASCII letters only (sharp s, dotless i, long s and the
   * Latin ligatures), are mapped as Python maps them; every other character
   * is kept.
   */
  function UpperChar(c: char): (r: string)
    ensures |r| > 0
    ensures forall i :: 0 <= i < |r| ==> !('a' <= r[i] <= 'z')
  {
    if c < '\U{80}' then [UpperAscii(c)]
    else if c == '\U{DF}' then "SS"
    else if c == '\U{131}' then "I"
    else if c == '\U{17F}' then "S"
    else if c == '\U{FB00}' then "FF"
    else if c == '\U{FB01}' then "FI"
    else if c == '\U{FB02}' then "FL"
    else if c == '\U{FB03}' then "FFI"
    else if c == '\U{FB04}' then "FFL"
    else if c == '\U{FB05}' || c == '\U{FB06}' then "ST"
    else [c]
  }

  /**
   * `s.upper()`: the upper case of each character, in order. No lower-case
   * ASCII letter is left, and on ASCII text it is the letter-by-letter map.
   */
  function Upper(s: string): (r: string)
    ensures forall i :: 0 <= i < |r| ==> !('a' <= r[i] <= 'z')
    ensures IsAscii(s) ==> |r| == |s| && forall i :: 0 <= i < |s| ==> r[i] == UpperAscii(s[i])
    decreases |s|
  {
    if s == [] then []
    else
      assert IsAscii(s) ==> IsAscii(s[1..]) by {
        if IsAscii(s) {
          forall i | 0 <= i < |s[1..]| ensures s[1..][i] < '\U{80}' { assert s[1..][i] == s[i + 1]; }
        }
      }
      UpperChar(s[0]) + Upper(s[1..])
  }

  /** Upper-casing a concatenation upper-cases each part. */
  lemma {:induction false} UpperAppend(s: string, t: string)
    ensures Upper(s + t) == Upper(s) + Upper(t)
    decreases |s|
  {
    if s == [] {
      assert s + t == t;
    } else {
      assert (s + t)[0] == s[0] && (s + t)[1..] == s[1..] + t;
      UpperAppend(s[1..], t);
    }
  }

  /** `Upper` of ASCII text given character by character. */
  lemma UpperIs(w: string, u: string)
    requires IsAscii(w) && |u| == |w| && forall i :: 0 <= i < |w| ==> u[i] == UpperAscii(w[i])
    ensures Upper(w) == u
  {
  }

  /** A long s upper-cases to S, so "\u017fouth" upper-cases to SOUTH. */
  lemma UpperLongS()
    ensures Upper("\U{17F}outh") == "SOUTH"
  {
    var w := "\U{17F}outh";
    assert w[1..] == "outh";
    UpperIs("outh", "OUTH");
    assert Upper(w) == UpperChar(w[0]) + Upper(w[1..]);
  }

  /** The long-s-t ligature upper-cases to ST, so "we\ufb05" upper-cases to WEST. */
  lemma UpperLongSTLigature()
    ensures Upper("we\U{FB05}") == "WEST"
  {
    var w := "we\U{FB05}";
    assert w[1..][1..] == ['\U{FB05}'] && ['\U{FB05}'][1..] == [];
    assert Upper(w[1..][1..]) == "ST";
    assert Upper(w[1..]) == "E" + "ST";
    assert Upper(w) == "W" + "EST";
  }

  /** The s-t ligature upper-cases to ST, so "ea\ufb06" upper-cases to EAST. */
  lemma UpperSTLigature()
    ensures Upper("ea\U{FB06}") == "EAST"
  {
    var w := "ea\U{FB06}";
    assert w[1..][1..] == ['\U{FB06}'] && ['\U{FB06}'][1..] == [];
    assert Upper(w[1..][1..]) == "ST";
    assert Upper(w[1..]) == "A" + "ST";
    assert Upper(w) == "E" + "AST";
  }

  function DigitChar(d: nat): (c: char)
    requires d < 10
    ensures '0' <= c <= '9'
  {
    "0123456789"[d]
  }

  predicate IsDigits(s: string)
  {
    forall i :: 0 <= i < |s| ==> '0' <= s[i] <= '9'
  }

  /** `str(n)` for a non-negative `n`: its decimal digits, no leading zero. */
  function NatToString(n: nat): (r: string)
    ensures |r| > 0 && IsDigits(r)
    ensures NoSpace(r)
    ensures |r| > 1 ==> r[0] != '0'
    decreases n
  {
    if n < 10 then [DigitChar(n)] else NatToString(n / 10) + [DigitChar(n % 10)]
  }

  /** The value of a string of decimal digits, the partner of `NatToString`. */
  function ParseNat(s: string): nat
    requires IsDigits(s)
    decreases |s|
  {
    if s == [] then 0 else 10 * ParseNat(s[..|s| - 1]) + (s[|s| - 1] as int - '0' as int)
  }

  lemma {:induction false} ParseNatToString(n: nat)
    ensures ParseNat(NatToString(n)) == n
    decreases n
  {
    var s := NatToString(n);
    if n < 10 {
      assert s[..|s| - 1] == [];
    } else {
      ParseNatToString(n / 10);
      assert s[..|s| - 1] == NatToString(n / 10);
    }
  }
}

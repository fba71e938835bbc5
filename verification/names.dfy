/** The file-name rules of the decruncher: `std::filesystem::path`'s
    `extension()` and `stem()` on a plain file name (the `.SND` test of
    lastbeer_decrunch.cpp:126 and the stem of line 149), and the output
    name of each sample, `stem_%02d.WAV` or `stem.WAV` (lines 149-154). */
module Names {

  /** The index of the last '.' in `name`, or -1 when there is none. */
  function LastDot(name: string): (k: int)
    ensures -1 <= k < |name|
    ensures k >= 0 ==> name[k] == '.'
    ensures forall j :: k < j < |name| ==> name[j] != '.'
    decreases |name|
  {
    if name == [] then -1
    else if name[|name| - 1] == '.' then |name| - 1
    else LastDot(name[..|name| - 1])
  }

  /** Where `extension()` starts: at the last '.', except in "." and ".."
      and when the only '.' leads the name (".profile" has no extension). */
  function ExtensionStart(name: string): (k: nat)
    ensures k <= |name|
  {
    if name == "." || name == ".." then |name|
    else
      var d := LastDot(name);
      if d <= 0 then |name| else d
  }

  /** `extension()`: a suffix of the name, empty or starting with '.'. */
  function Extension(name: string): (x: string)
    ensures |x| <= |name| && x == name[|name| - |x|..]
    ensures x == [] || x[0] == '.'
  {
    name[ExtensionStart(name)..]
  }

  /** `stem()`: a prefix of the name, cut at the extension's '.'. */
  function Stem(name: string): (t: string)
    ensures |t| <= |name| && t == name[..|t|]
    ensures |t| < |name| ==> name[|t|] == '.'
  {
    name[..ExtensionStart(name)]
  }

  /** The stem and the extension split the name. An extension is empty or
      one '.' followed by no other '.', and the stem is never empty when
      the extension is not. */
  lemma StemExtension(name: string)
    ensures Stem(name) + Extension(name) == name
    ensures Extension(name) == [] || (Extension(name)[0] == '.' && forall j :: 1 <= j < |Extension(name)| ==> Extension(name)[j] != '.')
    ensures Extension(name) != [] ==> Stem(name) != []
  {
    assert name[..ExtensionStart(name)] + name[ExtensionStart(name)..] == name;
  }

  /** A dotted extension without further dots: ".SND", ".WAV". */
  predicate SimpleExtension(ext: string)
  {
    |ext| >= 2 && ext[0] == '.' && forall j :: 1 <= j < |ext| ==> ext[j] != '.'
  }

  /** A name has such an extension exactly when it ends with it and
      something comes before it. */
  lemma ExtensionIsSuffix(name: string, ext: string)
    requires SimpleExtension(ext)
    ensures Extension(name) == ext <==> |name| > |ext| && name[|name| - |ext|..] == ext
  {
    var n := |name| - |ext|;
    if |name| > |ext| && name[n..] == ext {
      assert name[n] == '.';
      var d := LastDot(name);
      assert forall j :: n < j < |name| ==> name[j] == ext[j - n];
      assert d == n;
      assert name != "." && name != "..";
    }
    if Extension(name) == ext {
      assert ExtensionStart(name) == |name| - |ext|;
    }
  }

  /** The character for a digit 0..9. */
  function Digit(d: nat): char
    requires d < 10
  {
    ('0' as int + d) as char
  }

  /** `n` in decimal, without leading zeros. */
  function Decimal(n: nat): (s: string)
    ensures |s| >= 1
    decreases n
  {
    if n < 10 then [Digit(n)] else Decimal(n / 10) + [Digit(n % 10)]
  }

  /** `%02d`: decimal, padded with zeros to at least two digits. */
  function Pad2(n: nat): (s: string)
    ensures |s| >= 2
  {
    if n < 10 then "0" + Decimal(n) else Decimal(n)
  }

  predicate IsDigits(s: string)
  {
    forall j :: 0 <= j < |s| ==> '0' <= s[j] <= '9'
  }

  /** The value of a string of decimal digits; its reader. */
  function DigitsValue(s: string): nat
    requires IsDigits(s)
    decreases |s|
  {
    if s == [] then 0 else 10 * DigitsValue(s[..|s| - 1]) + (s[|s| - 1] as int - '0' as int)
  }

  /** One more digit multiplies the value read so far by ten and adds its own. */
  lemma DigitsAppend(s: string, c: char)
    requires IsDigits(s) && '0' <= c <= '9'
    ensures IsDigits(s + [c]) && DigitsValue(s + [c]) == 10 * DigitsValue(s) + (c as int - '0' as int)
  {
    assert (s + [c])[..|s|] == s;
  }

  lemma {:induction false} DecimalReadsBack(n: nat)
    ensures IsDigits(Decimal(n)) && DigitsValue(Decimal(n)) == n
    decreases n
  {
    if n >= 10 {
      DecimalReadsBack(n / 10);
      DigitsAppend(Decimal(n / 10), Digit(n % 10));
    }
  }

  /** `%02d` reads back as the number it prints, and takes exactly two
      characters below 100. */
  lemma Pad2ReadsBack(n: nat)
    ensures IsDigits(Pad2(n)) && DigitsValue(Pad2(n)) == n
    ensures n < 100 ==> |Pad2(n)| == 2
  {
    DecimalReadsBack(n);
    if n < 10 {
      var s := Pad2(n);
      assert s[..|s| - 1] == "0";
      assert DigitsValue("0") == 0;
    } else if n < 100 {
      assert Decimal(n) == Decimal(n / 10) + [Digit(n % 10)];
    }
  }

  /** The name of sample `s` of `count` in a sound file with stem `stem`. */
  function WavName(stem: string, s: nat, count: nat): (w: string)
    ensures |w| >= |stem| + 4 && w[..|stem|] == stem && w[|w| - 4..] == ".WAV"
  {
    if count > 1 then stem + "_" + Pad2(s) + ".WAV" else stem + ".WAV"
  }

  /** The output name keeps the sound file's stem, numbered when the file
      holds several samples, and always has the extension ".WAV". */
  lemma WavNameParts(stem: string, s: nat, count: nat)
    requires stem != []
    ensures Extension(WavName(stem, s, count)) == ".WAV"
    ensures Stem(WavName(stem, s, count)) == if count > 1 then stem + "_" + Pad2(s) else stem
  {
    var w := WavName(stem, s, count);
    var base := if count > 1 then stem + "_" + Pad2(s) else stem;
    assert w == base + ".WAV";
    assert w[|w| - 4..] == ".WAV";
    ExtensionIsSuffix(w, ".WAV");
    StemExtension(w);
    assert Stem(w) == w[..|w| - 4];
  }

  /** The samples of one sound file get pairwise different names. */
  lemma WavNamesDistinct(stem: string, s: nat, t: nat, count: nat)
    requires s < count && t < count && s != t
    ensures WavName(stem, s, count) != WavName(stem, t, count)
  {
    var a, b := Pad2(s), Pad2(t);
    if WavName(stem, s, count) == WavName(stem, t, count) {
      var w := WavName(stem, s, count);
      assert |a| == |b|;
      assert w[|stem| + 1..|stem| + 1 + |a|] == a;
      assert WavName(stem, t, count)[|stem| + 1..|stem| + 1 + |b|] == b;
      Pad2ReadsBack(s);
      Pad2ReadsBack(t);
      assert false;
    }
  }
}

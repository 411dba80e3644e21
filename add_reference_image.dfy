/**
 * The argument checks of the command-line tool that installs a reference face
 * image (express-backend/add_reference_image.js): argument count, person id,
 * existence of the source file, extension whitelist, and the target file name.
 * The file copy and `process.exit` are not part of this model; whether the
 * source file exists is an input.
 */
module AddReferenceImage {
  import opened Wrappers
  import opened Text

  /** Why the tool gives up, in the order its checks run. */
  datatype CliError = Usage | InvalidPersonId | MissingSource | UnsupportedFormat

  /**
   * `parseInt(s, 10)`: skip leading white space, read an optional sign, then
   * as many decimal digits as there are; no digit at all is `NaN` (`None`).
   */
  function ParseInt(s: string): Option<int> {
    ReadSigned(TrimStart(s))
  }

  /** What `parseInt` reads once the white space is skipped: an optional sign, then digits. */
  function ReadSigned(t: string): Option<int> {
    if |t| > 0 && t[0] == '-' then
      match ReadDigits(t[1..])
      case None => None
      case Some(m) => Some(-m)
    else if |t| > 0 && t[0] == '+' then ReadDigits(t[1..])
    else ReadDigits(t)
  }

  /** The decimal digits at the start of `t`, as many as there are; `None` without one. */
  function ReadDigits(t: string): Option<int> {
    var n := DigitRun(t, 0);
    if n == 0 then None else Some(DecimalValue(t[..n]))
  }

  /** A printed number followed by anything that is not a digit parses back to that number. */
  lemma ParseIntOfPrintedNumber(n: nat, rest: string)
    requires rest == "" || !IsDigit(rest[0])
    ensures ParseInt(NatToString(n) + rest) == Some(n)
  {
    DecimalOfNatToString(n);
    ParseIntOfSignedDigits("", "", NatToString(n), rest, n);
    NoPrefix(NatToString(n), rest);
  }

  /**
   * `parseInt` over every input with digits: white space, an optional sign,
   * then digits up to the first non-digit give their value `v`, negated after `-`.
   */
  lemma ParseIntOfSignedDigits(w: string, g: string, d: string, rest: string, v: int)
    requires IsBlank(w) && (g == "" || g == "-" || g == "+")
    requires |d| > 0 && AllDigits(d) && (rest == "" || !IsDigit(rest[0]))
    requires v == DecimalValue(d)
    ensures ParseInt(w + g + d + rest) == Some(if g == "-" then -v else v)
  {
    Regroup(w, g, d, rest);
    ParseIntAfterBlank(w, g + (d + rest));
    ReadDigitsOf(d, rest);
    ReadSignedOf(g, d + rest, v);
  }

  /** No white space and no sign in front. */
  lemma NoPrefix(d: string, rest: string)
    ensures "" + "" + d + rest == d + rest && "" + "" + rest == rest
  {
  }

  /** The input split after the white space: the sign or the first digit comes next. */
  lemma Regroup(w: string, g: string, d: string, rest: string)
    requires (g == "" || g == "-" || g == "+") && |d| > 0 && IsDigit(d[0])
    ensures w + g + d + rest == w + (g + (d + rest))
    ensures !IsJsSpace((g + (d + rest))[0])
  {
    var t := g + (d + rest);
    assert t[0] == if g == "" then d[0] else g[0];
  }

  /** `parseInt` skips the leading white space and reads what follows it. */
  lemma ParseIntAfterBlank(w: string, t: string)
    requires IsBlank(w) && (t == "" || !IsJsSpace(t[0]))
    ensures ParseInt(w + t) == ReadSigned(t)
  {
    SpaceRunOfPrefix(w, t);
  }

  /** The digits are read up to the first non-digit. */
  lemma ReadDigitsOf(d: string, rest: string)
    requires |d| > 0 && AllDigits(d) && (rest == "" || !IsDigit(rest[0]))
    ensures ReadDigits(d + rest) == Some(DecimalValue(d) as int)
  {
    DigitRunOfPrefix(d, rest);
    assert (d + rest)[..|d|] == d;
  }

  /** A sign in front of the digits negates (`-`) or keeps (`+`) their value. */
  lemma ReadSignedOf(g: string, u: string, v: int)
    requires g == "" || g == "-" || g == "+"
    requires ReadDigits(u) == Some(v)
    ensures ReadSigned(g + u) == Some(if g == "-" then -v else v)
  {
    if g == "" {
      assert g + u == u;
    } else {
      assert (g + u)[1..] == u;
    }
  }

  /** ... and every input with no digit right after the white space and the sign is `NaN`. */
  lemma ParseIntWithoutDigits(w: string, g: string, rest: string)
    requires IsBlank(w) && (g == "" || g == "-" || g == "+")
    requires rest == "" || !IsDigit(rest[0])
    requires g == "" && rest != "" ==> !IsJsSpace(rest[0]) && rest[0] != '-' && rest[0] != '+'
    ensures ParseInt(w + g + rest) == None
  {
    var t := g + rest;
    assert t == "" || !IsJsSpace(t[0]) by {
      if g != "" {
        assert t[0] == g[0];
      } else if rest != "" {
        assert t[0] == rest[0];
      }
    }
    assert w + g + rest == w + t;
    SpaceRunOfPrefix(w, t);
    if g == "" {
      assert t == rest;
      if rest != "" {
        assert !(t[0] == '-' || t[0] == '+');
      }
    } else {
      assert t[0] == g[0];
      assert t[1..] == rest;
    }
  }

  /** The id check: a number, and between 1 and 4. */
  predicate ValidId(id: Option<int>) {
    id.Some? && 1 <= id.value <= 4
  }

  /** `path.extname` with the trailing separators ignored: the path without them. */
  function DropTrailingSlashes(p: string): (r: string)
    ensures |r| <= |p| && r == p[..|r|]
    ensures r == [] || r[|r| - 1] != '/'
    decreases |p|
  {
    if |p| > 0 && p[|p| - 1] == '/' then DropTrailingSlashes(p[..|p| - 1]) else p
  }

  /** The last path segment: everything after the last `/`. */
  function LastSegment(p: string): (r: string)
    ensures |r| <= |p| && r == p[|p| - |r|..]
    ensures '/' !in r
    decreases |p|
  {
    if |p| == 0 || p[|p| - 1] == '/' then "" else LastSegment(p[..|p| - 1]) + [p[|p| - 1]]
  }

  /** The index of the last `c` in `s`, if any. */
  function LastIndexOf(s: string, c: char): (r: Option<nat>)
    ensures r.Some? ==> r.value < |s| && s[r.value] == c && c !in s[r.value + 1..]
    ensures r.None? ==> c !in s
    decreases |s|
  {
    if |s| == 0 then None
    else if s[|s| - 1] == c then Some(|s| - 1)
    else
      var r := LastIndexOf(s[..|s| - 1], c);
      assert s == s[..|s| - 1] + [s[|s| - 1]];
      r
  }

  /**
   * Node's POSIX `path.extname`: from the last dot of the last segment to its
   * end, except that a segment with no dot, a segment whose only dot-free
   * prefix is empty (`.bashrc`), and the segment `..` have no extension.
   */
  function Extname(p: string): (ext: string)
    ensures ext == "" || (ext[0] == '.' && '.' !in ext[1..] && '/' !in ext)
  {
    var base := LastSegment(DropTrailingSlashes(p));
    match LastIndexOf(base, '.')
    case None => ""
    case Some(d) =>
      if d == 0 || base == ".." then ""
      else
        assert base[d..][1..] == base[d + 1..];
        base[d..]
  }

  /** The extension is a tail of the path once its trailing separators are dropped. */
  lemma ExtnameIsSuffix(p: string)
    ensures var q := DropTrailingSlashes(p);
      |Extname(p)| <= |q| && Extname(p) == q[|q| - |Extname(p)|..]
  {
    var q := DropTrailingSlashes(p);
    var base := LastSegment(q);
    var ext := Extname(p);
    if ext != "" {
      var d := LastIndexOf(base, '.').value;
      assert ext == base[d..];
      TailOfTail(q, base, d);
    }
  }

  /** A tail of a tail is a tail. */
  lemma TailOfTail(q: string, base: string, d: nat)
    requires |base| <= |q| && base == q[|q| - |base|..] && d <= |base|
    ensures base[d..] == q[|q| - |base| + d..]
  {
  }

  /** A name with a dot-free tail after its last dot, in any directory, has that tail as its extension. */
  lemma ExtnameOfName(dir: string, stem: string, x: string)
    requires dir == "" || dir[|dir| - 1] == '/'
    requires stem != "" && x != "" && '/' !in stem && '/' !in x && '.' !in x
    ensures Extname(dir + stem + "." + x) == "." + x
  {
    var p := dir + stem + "." + x;
    var name := stem + "." + x;
    NameParts(dir, stem, x);
    assert DropTrailingSlashes(p) == p;
    LastSegmentAfterSlash(dir, name);
    LastIndexOfBefore(stem, '.', x);
    ExtnameOfBase(p, name, |stem|);
  }

  /** Where the stem, the dot and the tail sit in a path `dir + stem + "." + x`. */
  lemma NameParts(dir: string, stem: string, x: string)
    requires x != "" && '/' !in stem && '/' !in x && '.' !in x
    ensures var name := stem + "." + x;
      && dir + stem + "." + x == dir + name
      && name[|stem|..] == "." + x
      && '/' !in name && name[|name| - 1] != '.'
      && (dir + name)[|dir + name| - 1] != '/'
  {
    var name := stem + "." + x;
    assert name[|stem|..] == "." + x;
    assert name[|name| - 1] == x[|x| - 1];
    assert (dir + name)[|dir + name| - 1] == x[|x| - 1];
    forall k | 0 <= k < |name| ensures name[k] != '/' {
      if k < |stem| {
        assert name[k] == stem[k];
      } else if k > |stem| {
        assert name[k] == x[k - |stem| - 1];
      }
    }
  }

  /** `Extname` from the last segment and the position of its last dot. */
  lemma ExtnameOfBase(p: string, name: string, d: nat)
    requires LastSegment(DropTrailingSlashes(p)) == name
    requires LastIndexOf(name, '.') == Some(d) && d != 0
    requires name[|name| - 1] != '.'
    ensures Extname(p) == name[d..]
  {
    assert name != "..";
  }

  /** After a separator (or from the start), a separator-free tail is the last segment. */
  lemma {:induction false} LastSegmentAfterSlash(dir: string, b: string)
    requires dir == "" || dir[|dir| - 1] == '/'
    requires '/' !in b
    ensures LastSegment(dir + b) == b
    decreases |b|
  {
    if |b| > 0 {
      DropLast(dir, b);
      LastSegmentAfterSlash(dir, b[..|b| - 1]);
    } else {
      assert dir + b == dir;
    }
  }

  /** Dropping the last character of `dir + b` drops it from `b`. */
  lemma DropLast(dir: string, b: string)
    requires |b| > 0
    ensures var p := dir + b;
      && p[..|p| - 1] == dir + b[..|b| - 1] && p[|p| - 1] == b[|b| - 1]
      && b == b[..|b| - 1] + [b[|b| - 1]]
      && ('/' !in b ==> '/' !in b[..|b| - 1])
  {
    var p := dir + b;
    assert p[..|p| - 1] == dir + b[..|b| - 1];
    assert b == b[..|b| - 1] + [b[|b| - 1]];
  }

  /** The last `c` is the one with no `c` after it. */
  lemma {:induction false} LastIndexOfBefore(a: string, c: char, b: string)
    requires c !in b
    ensures LastIndexOf(a + [c] + b, c) == Some(|a|)
    decreases |b|
  {
    var s := a + [c] + b;
    if |b| > 0 {
      assert s[|s| - 1] == b[|b| - 1];
      assert s[..|s| - 1] == a + [c] + b[..|b| - 1];
      LastIndexOfBefore(a, c, b[..|b| - 1]);
    }
  }

  /** `x` equals `a` up to the case of ASCII letters: each character is the same, or its upper-case form. */
  predicate SameIgnoringAsciiCase(x: string, a: string) {
    |x| == |a| &&
    forall i :: 0 <= i < |x| ==>
      x[i] == a[i] || ('A' <= x[i] <= 'Z' && a[i] as int - x[i] as int == 'a' as int - 'A' as int)
  }

  predicate NoAsciiUpper(a: string) {
    forall i :: 0 <= i < |a| ==> !('A' <= a[i] <= 'Z')
  }

  /** Lower-casing gives a lower-case `a` exactly when the text equals `a` up to case. */
  lemma LowerEqualsIff(x: string, a: string)
    requires NoAsciiUpper(a)
    ensures ToLowerAscii(x) == a <==> SameIgnoringAsciiCase(x, a)
  {
    var l := ToLowerAscii(x);
    if SameIgnoringAsciiCase(x, a) {
      forall i | 0 <= i < |x| ensures l[i] == a[i] {
        assert !('A' <= a[i] <= 'Z');
      }
    }
  }

  /** The lower-cased extensions the tool accepts. */
  const AllowedExtensions: set<string> := {".jpg", ".jpeg", ".png"}

  /** The extension as the tool compares it: lower-cased. */
  function LowerExtension(path: string): string {
    ToLowerAscii(Extname(path))
  }

  /** An extension is accepted exactly when it is `.jpg`, `.jpeg` or `.png` in any mix of cases. */
  lemma ExtensionAcceptedIgnoringCase(path: string)
    ensures LowerExtension(path) in AllowedExtensions <==>
      || SameIgnoringAsciiCase(Extname(path), ".jpg")
      || SameIgnoringAsciiCase(Extname(path), ".jpeg")
      || SameIgnoringAsciiCase(Extname(path), ".png")
  {
    LowerAcceptedIff(Extname(path));
  }

  lemma LowerAcceptedIff(x: string)
    ensures ToLowerAscii(x) in AllowedExtensions <==>
      SameIgnoringAsciiCase(x, ".jpg") || SameIgnoringAsciiCase(x, ".jpeg") || SameIgnoringAsciiCase(x, ".png")
  {
    assert NoAsciiUpper(".jpg") && NoAsciiUpper(".jpeg") && NoAsciiUpper(".png");
    LowerEqualsIff(x, ".jpg");
    LowerEqualsIff(x, ".jpeg");
    LowerEqualsIff(x, ".png");
  }

  /** An upper-case `.JPG` in a directory is accepted. */
  lemma UpperCaseJpgAccepted()
    ensures Extname("photos/face.JPG") == ".JPG"
    ensures LowerExtension("photos/face.JPG") in AllowedExtensions
  {
    UpperCaseJpgExtname();
    LowerJpg();
  }

  lemma UpperCaseJpgExtname()
    ensures Extname("photos/face.JPG") == ".JPG"
  {
    assert "photos/face.JPG" == "photos/" + "face" + "." + "JPG";
    ExtnameOfName("photos/", "face", "JPG");
  }

  lemma LowerJpg()
    ensures ToLowerAscii(".JPG") == ".jpg"
  {
    assert SameIgnoringAsciiCase(".JPG", ".jpg");
    LowerAcceptedIff(".JPG");
  }

  /**
   * The tool's checks, in order; the first that fails decides the error.
   * On success the result is the file name `person<id><ext>` the image is
   * copied to.
   */
  function Validate(args: seq<string>, sourceExists: bool): (r: Result<string, CliError>)
    ensures r == Err(Usage) <==> |args| != 2
    ensures r == Err(InvalidPersonId) <==> |args| == 2 && !ValidId(ParseInt(args[0]))
    ensures r == Err(MissingSource) <==> |args| == 2 && ValidId(ParseInt(args[0])) && !sourceExists
    ensures r.Ok? <==>
      |args| == 2 && ValidId(ParseInt(args[0])) && sourceExists && LowerExtension(args[1]) in AllowedExtensions
  {
    if |args| != 2 then Err(Usage)
    else
      var id := ParseInt(args[0]);
      if !ValidId(id) then Err(InvalidPersonId)
      else if !sourceExists then Err(MissingSource)
      else
        var ext := LowerExtension(args[1]);
        if ext !in AllowedExtensions then Err(UnsupportedFormat)
        else Ok("person" + NatToString(id.value) + ext)
  }

  /**
   * The target name reads back as the tool's inputs: `person`, then the one
   * digit of the parsed id, then an accepted lower-case extension.
   */
  lemma TargetNameDecodes(args: seq<string>, sourceExists: bool)
    requires Validate(args, sourceExists).Ok?
    ensures var name := Validate(args, sourceExists).value;
      && |name| >= 8 && name[..6] == "person"
      && IsDigit(name[6]) && DigitValue(name[6]) == ParseInt(args[0]).value
      && name[7..] == LowerExtension(args[1]) && name[7..] in AllowedExtensions
  {
    ValidateOk(args, sourceExists);
    TargetNameParts(ParseInt(args[0]).value, LowerExtension(args[1]));
  }

  /** Where the id digit and the extension sit in `person<id><ext>`. */
  lemma TargetNameParts(id: int, ext: string)
    requires 1 <= id <= 4
    ensures var name := "person" + NatToString(id) + ext;
      && |name| == 7 + |ext| && name[..6] == "person"
      && IsDigit(name[6]) && DigitValue(name[6]) == id && name[7..] == ext
  {
    SmallIdPrintsOneDigit(id);
    ThreeParts("person", NatToString(id), ext);
  }

  /** What an accepted call returns, with the checks it passed. */
  lemma ValidateOk(args: seq<string>, sourceExists: bool)
    requires Validate(args, sourceExists).Ok?
    ensures |args| == 2 && ValidId(ParseInt(args[0]))
    ensures LowerExtension(args[1]) in AllowedExtensions
    ensures Validate(args, sourceExists).value
      == "person" + NatToString(ParseInt(args[0]).value) + LowerExtension(args[1])
  {
  }

  /** An id from 1 to 4 prints as its single digit. */
  lemma SmallIdPrintsOneDigit(id: int)
    requires 1 <= id <= 4
    ensures NatToString(id) == [DigitChar(id)]
    ensures IsDigit(DigitChar(id)) && DigitValue(DigitChar(id)) == id
  {
  }

  /** Where the pieces of a three-part concatenation sit. */
  lemma ThreeParts(a: string, b: string, c: string)
    ensures var s := a + b + c;
      && s[..|a|] == a && s[|a| + |b|..] == c
      && (|b| > 0 ==> s[|a|] == b[0])
  {
    var s := a + b + c;
    assert s[..|a|] == a;
    assert s[|a| + |b|..] == c;
  }

  /** `parseInt` reads a leading number and ignores what follows, so `"2x"` is person 2. */
  lemma TrailingJunkIgnored()
    ensures ParseInt("2x") == Some(2)
    ensures ParseInt("abc") == None
  {
    ParseIntOfPrintedNumber(2, "x");
    assert NatToString(2) + "x" == "2x";
    ParseIntWithoutDigits("", "", "abc");
    NoPrefix("", "abc");
  }
}

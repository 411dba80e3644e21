/**
 * How the result panel shows the server's summary (frontend ResultDisplay.js):
 * `formatNumericInfo` classifies the text as missing, "no measurements",
 * a numbered list or plain lines, and splits it accordingly; the panel shows
 * that rendering on success and the error text otherwise.
 */
module ResultDisplay {
  import opened Wrappers
  import opened Text
  import opened Api

  /** The rendering `formatNumericInfo` returns. */
  datatype Summary =
    | Nothing                              // `null`
    | NoMeasurementsNote                   // the fixed "no measurements" paragraph
    | NumberedList(items: seq<string>)     // an `<ol>`, one entry per item
    | BulletList(lines: seq<string>)       // a `<ul>`, one entry per kept line

  /** The panel: the formatted summary and the log file name, or the failure text. */
  datatype View =
    | SuccessView(summary: Summary, summaryFile: string)
    | FailureView(error: string)

  const NoMeasurements: string := "No medical measurements recorded"

  /** `/^\d+\.\s/` at the start of `t`: one or more digits, a dot, one white-space character. */
  predicate IsMarker(t: string) {
    var n := DigitRun(t, 0);
    n > 0 && n + 1 < |t| && t[n] == '.' && IsJsSpace(t[n + 1])
  }

  /** How many characters that marker takes. */
  function MarkerLen(t: string): (n: nat)
    requires IsMarker(t)
    ensures 3 <= n <= |t|
    ensures AllDigits(t[..n - 2]) && t[n - 2] == '.' && IsJsSpace(t[n - 1])
  {
    DigitRun(t, 0) + 2
  }

  /** Where `^` matches under the `m` flag: the start of the text or just after a line terminator. */
  predicate AtLineStart(s: string, i: int) {
    i == 0 || (0 < i <= |s| && IsLineTerminator(s[i - 1]))
  }

  /** A line of `s` starts at `i` with a list marker. */
  predicate NumberedLineAt(s: string, i: int) {
    0 <= i <= |s| && AtLineStart(s, i) && IsMarker(s[i..])
  }

  /** `/^\d+\.\s/m` run from position `i` onwards. */
  predicate ScanNumbered(s: string, i: nat)
    requires i <= |s|
    decreases |s| - i
  {
    NumberedLineAt(s, i) || (i < |s| && ScanNumbered(s, i + 1))
  }

  /** The scan succeeds exactly when some line at or after `i` starts with a marker. */
  lemma {:induction false} ScanNumberedIff(s: string, i: nat)
    requires i <= |s|
    ensures ScanNumbered(s, i) <==> exists j :: i <= j && NumberedLineAt(s, j)
    decreases |s| - i
  {
    if i < |s| {
      ScanNumberedIff(s, i + 1);
      forall j | i <= j && NumberedLineAt(s, j) ensures ScanNumbered(s, i) {
        if j > i {
          assert i + 1 <= j;
        }
      }
    } else {
      forall j | i <= j && NumberedLineAt(s, j) ensures j == i {
      }
    }
  }

  /** `s.split(/\n(?=\d+\.\s)/)`: cut at each line feed that a marker follows. */
  function SplitNumbered(s: string): (items: seq<string>)
    ensures |items| >= 1
    decreases |s|
  {
    if |s| == 0 then [""]
    else
      var rest := SplitNumbered(s[1..]);
      if s[0] == '\n' && IsMarker(s[1..]) then [""] + rest
      else [[s[0]] + rest[0]] + rest[1..]
  }

  /** Joining the items with line feeds gives back the text: the split loses only the separators. */
  lemma {:induction false} JoinSplitNumbered(s: string)
    ensures Join(SplitNumbered(s), "\n") == s
    decreases |s|
  {
    if |s| > 0 {
      var rest := SplitNumbered(s[1..]);
      JoinSplitNumbered(s[1..]);
      var items := SplitNumbered(s);
      if s[0] == '\n' && IsMarker(s[1..]) {
        assert items[1..] == rest;
      } else if |rest| == 1 {
        assert Join(items, "\n") == [s[0]] + rest[0];
      } else {
        assert items[1..] == rest[1..];
        assert Join(rest, "\n") == rest[0] + "\n" + Join(rest[1..], "\n");
      }
    }
  }

  /** Every cut is at a line feed followed by a marker: the text from each later item onwards starts with one. */
  lemma {:induction false} SplitNumberedCutsAtMarkers(s: string)
    ensures forall k :: 1 <= k < |SplitNumbered(s)| ==> IsMarker(Join(SplitNumbered(s)[k..], "\n"))
    decreases |s|
  {
    if |s| > 0 {
      var rest := SplitNumbered(s[1..]);
      SplitNumberedCutsAtMarkers(s[1..]);
      var items := SplitNumbered(s);
      if s[0] == '\n' && IsMarker(s[1..]) {
        forall k | 1 <= k < |items| ensures IsMarker(Join(items[k..], "\n")) {
          if k == 1 {
            assert items[1..] == rest;
            JoinSplitNumbered(s[1..]);
          } else {
            assert items[k..] == rest[k - 1..];
          }
        }
      } else {
        forall k | 1 <= k < |items| ensures IsMarker(Join(items[k..], "\n")) {
          assert items[k..] == rest[k..];
          assert IsMarker(Join(rest[k..], "\n"));
        }
      }
    }
  }

  /** A line feed at `p` that a marker follows: where the split cuts. */
  predicate CutAt(s: string, p: int) {
    0 <= p < |s| && s[p] == '\n' && IsMarker(s[p + 1..])
  }

  /** Where item `k` starts in the joined text. */
  function Offset(items: seq<string>, k: nat): nat
    requires k <= |items|
    decreases k
  {
    if k == 0 then 0 else |items[0]| + 1 + Offset(items[1..], k - 1)
  }

  /** Position `p` of the joined text lies inside item `k`. */
  predicate InItem(items: seq<string>, k: int, p: int) {
    0 <= k < |items| && Offset(items, k) <= p < Offset(items, k) + |items[k]|
  }

  /** Position `p` of the joined text is the line feed put before some item after the first. */
  predicate SeparatorAt(items: seq<string>, p: int) {
    exists k :: 1 <= k < |items| && Offset(items, k) == p + 1
  }

  /**
   * The split cuts at a line feed exactly when a marker follows it: those
   * line feeds, and no others, are the separators between the items.
   */
  lemma {:induction false} SplitNumberedCutsExactlyAtMarkers(s: string)
    ensures forall p :: CutAt(s, p) <==> SeparatorAt(SplitNumbered(s), p)
    decreases |s|
  {
    if |s| > 0 {
      var rest := SplitNumbered(s[1..]);
      var items := SplitNumbered(s);
      var cut := s[0] == '\n' && IsMarker(s[1..]);
      SplitNumberedCutsExactlyAtMarkers(s[1..]);
      if cut {
        assert items == [""] + rest && items[1..] == rest;
      } else {
        assert items[1..] == rest[1..];
      }
      forall p | CutAt(s, p) ensures SeparatorAt(items, p) {
        if p == 0 {
          assert s[1..] == s[p + 1..];
          assert 1 < |items| && Offset(items, 1) == 1;
        } else {
          CutShift(s, p);
          var k :| 1 <= k < |rest| && Offset(rest, k) == p;
          if cut {
            assert 1 <= k + 1 < |items| && Offset(items, k + 1) == p + 1;
          } else {
            assert 1 <= k < |items| && Offset(items, k) == 1 + Offset(rest, k);
          }
        }
      }
      forall p | SeparatorAt(items, p) ensures CutAt(s, p) {
        var k :| 1 <= k < |items| && Offset(items, k) == p + 1;
        if cut && k == 1 {
          assert p == 0 && s[1..] == s[p + 1..];
        } else if cut {
          assert Offset(rest, k - 1) == p;
          assert SeparatorAt(rest, p - 1);
          CutShift(s, p);
        } else {
          assert Offset(items, k) == 1 + Offset(rest, k);
          assert SeparatorAt(rest, p - 1);
          CutShift(s, p);
        }
      }
    }
  }

  /** No item keeps a line feed that a marker follows. */
  lemma {:induction false} SplitNumberedItemsHoldNoCut(s: string)
    ensures forall k, p :: InItem(SplitNumbered(s), k, p) ==> !CutAt(s, p)
    decreases |s|
  {
    if |s| > 0 {
      var rest := SplitNumbered(s[1..]);
      var items := SplitNumbered(s);
      SplitNumberedItemsHoldNoCut(s[1..]);
      forall k, p | InItem(items, k, p) ensures !CutAt(s, p) {
        if s[0] == '\n' && IsMarker(s[1..]) {
          assert items[1..] == rest;
          assert InItem(rest, k - 1, p - 1);
        } else if k == 0 && p == 0 {
          assert s[1..] == s[p + 1..];
        } else if k == 0 {
          assert InItem(rest, 0, p - 1);
        } else {
          assert items[1..] == rest[1..];
          assert Offset(items, k) == 1 + Offset(rest, k);
          assert InItem(rest, k, p - 1);
        }
        if p > 0 {
          CutShift(s, p);
        }
      }
    }
  }

  /** A cut at `p > 0` in `s` is a cut at `p - 1` in `s` without its first character. */
  lemma CutShift(s: string, p: int)
    requires 0 < p && |s| > 0
    ensures CutAt(s, p) <==> CutAt(s[1..], p - 1)
  {
    if p < |s| {
      assert s[p + 1..] == s[1..][p..];
    }
  }

  /** `item.replace(/^\d+\.\s/, '')`: drops one leading marker, if there is one. */
  function Clean(item: string): (r: string)
    ensures |r| <= |item| && r == item[|item| - |r|..]
    ensures r == item <==> !IsMarker(item)
    ensures r != item ==>
      var p := item[..|item| - |r|];
      |p| >= 3 && AllDigits(p[..|p| - 2]) && p[|p| - 2] == '.' && IsJsSpace(p[|p| - 1])
  {
    if IsMarker(item) then item[MarkerLen(item)..] else item
  }

  /** `text.split('\n').filter(line => line.trim())`: the non-blank lines, untrimmed, in order. */
  function NonBlank(lines: seq<string>): (r: seq<string>)
    ensures forall k :: 0 <= k < |r| ==> !IsBlank(r[k])
    decreases |lines|
  {
    if |lines| == 0 then []
    else if IsBlank(lines[0]) then NonBlank(lines[1..])
    else [lines[0]] + NonBlank(lines[1..])
  }

  /** `sub` is `lines` with some entries removed and the rest in order. */
  predicate IsSubsequence(sub: seq<string>, lines: seq<string>)
    decreases |lines|
  {
    if |sub| == 0 then true
    else if |lines| == 0 then false
    else if sub[0] == lines[0] then IsSubsequence(sub[1..], lines[1..])
    else IsSubsequence(sub, lines[1..])
  }

  /**
   * The filter keeps the order, and keeps every non-blank line, each as often
   * as it occurs, and no blank one.
   */
  lemma {:induction false} NonBlankKeepsOrderAndLines(lines: seq<string>)
    ensures IsSubsequence(NonBlank(lines), lines)
    ensures forall k :: 0 <= k < |lines| && !IsBlank(lines[k]) ==> lines[k] in NonBlank(lines)
    ensures forall x :: multiset(NonBlank(lines))[x] == if IsBlank(x) then 0 else multiset(lines)[x]
    decreases |lines|
  {
    if |lines| > 0 {
      NonBlankKeepsOrderAndLines(lines[1..]);
      assert lines == [lines[0]] + lines[1..];
      forall k | 0 <= k < |lines| && !IsBlank(lines[k]) ensures lines[k] in NonBlank(lines) {
        if k > 0 {
          assert lines[k] == lines[1..][k - 1];
        }
      }
    }
  }

  /** `formatNumericInfo(text)`; `None` is a missing summary. */
  function FormatNumericInfo(text: Option<string>): (r: Summary)
    ensures r == Nothing <==> text == None || text.value == ""
    ensures r == NoMeasurementsNote <==>
      text.Some? && text.value != "" && exists i :: OccursAt(text.value, NoMeasurements, i)
    ensures r.NumberedList? <==>
      && text.Some? && text.value != ""
      && !(exists i :: OccursAt(text.value, NoMeasurements, i))
      && exists i :: NumberedLineAt(text.value, i)
    ensures r.NumberedList? ==>
      var items := SplitNumbered(text.value);
      |r.items| == |items| && forall k :: 0 <= k < |items| ==> r.items[k] == Clean(items[k])
    ensures r.BulletList? ==> r.lines == NonBlank(SplitOn(text.value, '\n'))
  {
    if text == None || text.value == "" then Nothing
    else
      var s := text.value;
      ContainsIffOccurs(s, NoMeasurements);
      ScanNumberedIff(s, 0);
      if Contains(s, NoMeasurements) then NoMeasurementsNote
      else if ScanNumbered(s, 0) then
        var items := SplitNumbered(s);
        NumberedList(seq(|items|, k requires 0 <= k < |items| => Clean(items[k])))
      else BulletList(NonBlank(SplitOn(s, '\n')))
  }

  /** The panel shows the formatted summary on success and the error text on failure. */
  function Display(body: Body): (v: View)
    ensures v.FailureView? <==> body.ErrorBody?
    ensures body.ErrorBody? ==> v.error == body.error
    ensures body.SuccessBody? ==>
      v.summary == FormatNumericInfo(Some(body.summary)) && v.summaryFile == body.summaryFile
  {
    match body
    case SuccessBody(summary, file) => SuccessView(FormatNumericInfo(Some(summary)), file)
    case ErrorBody(error) => FailureView(error)
  }
}

/**
 * The log digest of the scheduled mail (service/MailService.java, `sortLog`): how many lines of
 * the day's log report each of six batch outcomes.
 */
module MailLog {
  import opened Strings
  import opened Numerals

  /** The six outcome markers, in report order. */
  const HolidaySuccess: string := "공휴일 갱신완료"
  const PriceSuccess: string := "가격정보 반영 완료"
  const ProcessSuccess: string := "생산 데이터 저장 완료"
  const ProcessFailure: string := "생산 데이터 저장 실패"
  const FinalSuccess: string := "집계 데이터 저장 완료"
  const FinalFailure: string := "집계 데이터 저장 실패"

  const Markers: seq<string> := [HolidaySuccess, PriceSuccess, ProcessSuccess, ProcessFailure, FinalSuccess, FinalFailure]

  const Header: string := "=== 로그 분석 결과 ==="

  /** The number of lines that contain the marker. */
  function CountLines(lines: seq<string>, marker: string): nat
    decreases |lines|
  {
    if |lines| == 0 then 0
    else CountLines(lines[..|lines| - 1], marker) + (if Contains(lines[|lines| - 1], marker) then 1 else 0)
  }

  /** One line of the digest: the marker, the count and "회". */
  function Line(marker: string, n: nat): string
  {
    marker + ": " + ShowNat(n) + "회"
  }

  /** The digest for the six counts, each line ended by a newline. */
  function Digest(counts: seq<nat>): string
    requires |counts| == |Markers|
  {
    Header + "\n"
    + Line(Markers[0], counts[0]) + "\n" + Line(Markers[1], counts[1]) + "\n"
    + Line(Markers[2], counts[2]) + "\n" + Line(Markers[3], counts[3]) + "\n"
    + Line(Markers[4], counts[4]) + "\n" + Line(Markers[5], counts[5]) + "\n"
  }

  /** The counts of the six markers over the lines. */
  function Counts(lines: seq<string>): (c: seq<nat>)
    ensures |c| == |Markers|
  {
    seq(|Markers|, k requires 0 <= k < |Markers| => CountLines(lines, Markers[k]))
  }

  /** `sortLog`: one pass over the lines of the log with six counters. */
  method SortLog(log: string) returns (digest: string)
    ensures digest == Digest(Counts(JavaSplit(log, '\n')))
  {
    var lines := JavaSplit(log, '\n');
    var successHoliday, successPrice, successProcess, failedProcess, successFinal, failedFinal := 0, 0, 0, 0, 0, 0;
    for i := 0 to |lines|
      invariant successHoliday == CountLines(lines[..i], HolidaySuccess)
      invariant successPrice == CountLines(lines[..i], PriceSuccess)
      invariant successProcess == CountLines(lines[..i], ProcessSuccess)
      invariant failedProcess == CountLines(lines[..i], ProcessFailure)
      invariant successFinal == CountLines(lines[..i], FinalSuccess)
      invariant failedFinal == CountLines(lines[..i], FinalFailure)
    {
      var s := lines[i];
      assert lines[..i + 1][..i] == lines[..i];
      if Contains(s, HolidaySuccess) {
        successHoliday := successHoliday + 1;
      }
      if Contains(s, PriceSuccess) {
        successPrice := successPrice + 1;
      }
      if Contains(s, ProcessSuccess) {
        successProcess := successProcess + 1;
      }
      if Contains(s, ProcessFailure) {
        failedProcess := failedProcess + 1;
      }
      if Contains(s, FinalSuccess) {
        successFinal := successFinal + 1;
      }
      if Contains(s, FinalFailure) {
        failedFinal := failedFinal + 1;
      }
    }
    assert lines[..|lines|] == lines;
    var counts := [successHoliday, successPrice, successProcess, failedProcess, successFinal, failedFinal];
    assert counts == Counts(lines);
    digest := Digest(counts);
  }

  // ---------------------------------------------------------------------------------------------
  // Properties

  /** No counter exceeds the number of lines. */
  lemma {:induction false} CountBound(lines: seq<string>, marker: string)
    ensures CountLines(lines, marker) <= |lines|
    decreases |lines|
  {
    if |lines| > 0 {
      CountBound(lines[..|lines| - 1], marker);
    }
  }

  /** A log in which no line holds the marker counts 0 for it. */
  lemma {:induction false} CountAbsent(lines: seq<string>, marker: string)
    requires forall i :: 0 <= i < |lines| ==> !Contains(lines[i], marker)
    ensures CountLines(lines, marker) == 0
    decreases |lines|
  {
    if |lines| > 0 {
      CountAbsent(lines[..|lines| - 1], marker);
    }
  }

  /** Every line that holds the marker counts once, every other line not at all. */
  lemma {:induction false} CountAppend(xs: seq<string>, ys: seq<string>, marker: string)
    ensures CountLines(xs + ys, marker) == CountLines(xs, marker) + CountLines(ys, marker)
    decreases |ys|
  {
    if |ys| == 0 {
      assert xs + ys == xs;
    } else {
      assert (xs + ys)[..|xs + ys| - 1] == xs + ys[..|ys| - 1];
      CountAppend(xs, ys[..|ys| - 1], marker);
    }
  }

  lemma {:induction false} ContainsSuffix(a: string, b: string)
    ensures Contains(a + b, b)
    decreases |a|
  {
    if |a| > 0 {
      assert (a + b)[1..] == a[1..] + b;
      ContainsSuffix(a[1..], b);
    }
  }

  /** The counters are not exclusive: a line holding two markers counts for both. */
  lemma TwoMarkersOneLine()
    ensures CountLines([ProcessSuccess + FinalFailure], ProcessSuccess) == 1
    ensures CountLines([ProcessSuccess + FinalFailure], FinalFailure) == 1
  {
    var line := ProcessSuccess + FinalFailure;
    assert [line][..0] == [];
    assert Contains(line, ProcessSuccess) by { assert ProcessSuccess <= line; }
    ContainsSuffix(ProcessSuccess, FinalFailure);
  }

  lemma {:induction false} SplitSeparated(a: string, b: string, c: char)
    ensures Split(a + [c] + b, c) == Split(a, c) + Split(b, c)
    decreases |a|
  {
    if |a| == 0 {
      assert a + [c] + b == [c] + b;
      assert ([c] + b)[1..] == b;
    } else {
      assert (a + [c] + b)[1..] == a[1..] + [c] + b;
      SplitSeparated(a[1..], b, c);
    }
  }

  lemma {:induction false} SplitWhole(a: string, c: char)
    requires c !in a
    ensures Split(a, c) == [a]
    decreases |a|
  {
    if |a| > 0 {
      SplitWhole(a[1..], c);
      assert [a[0]] + a[1..] == a;
    }
  }

  lemma LineHasNoNewline(marker: string, n: nat)
    requires '\n' !in marker
    ensures '\n' !in Line(marker, n)
  {
    var digits := ShowNat(n);
    assert forall i :: 0 <= i < |digits| ==> IsDigit(digits[i]);
    assert '\n' !in digits;
  }

  /** Seven newline-free lines, each ended by a newline, split back into the lines and a final "". */
  lemma SplitSevenLines(h: string, l0: string, l1: string, l2: string, l3: string, l4: string, l5: string)
    requires '\n' !in h && '\n' !in l0 && '\n' !in l1 && '\n' !in l2 && '\n' !in l3 && '\n' !in l4 && '\n' !in l5
    ensures Split(h + "\n" + l0 + "\n" + l1 + "\n" + l2 + "\n" + l3 + "\n" + l4 + "\n" + l5 + "\n", '\n')
            == [h, l0, l1, l2, l3, l4, l5, ""]
  {
    SplitWhole(h, '\n');
    var x1 := h + "\n" + l0;
    SplitAppendLine(h, l0, [h]);
    var x2 := x1 + "\n" + l1;
    SplitAppendLine(x1, l1, [h, l0]);
    var x3 := x2 + "\n" + l2;
    SplitAppendLine(x2, l2, [h, l0, l1]);
    var x4 := x3 + "\n" + l3;
    SplitAppendLine(x3, l3, [h, l0, l1, l2]);
    var x5 := x4 + "\n" + l4;
    SplitAppendLine(x4, l4, [h, l0, l1, l2, l3]);
    var x6 := x5 + "\n" + l5;
    SplitAppendLine(x5, l5, [h, l0, l1, l2, l3, l4]);
    assert x6 + "\n" == x6 + "\n" + "";
    SplitAppendLine(x6, "", [h, l0, l1, l2, l3, l4, l5]);
  }

  /** A text already split into `lines`, followed by a newline and one more newline-free line. */
  lemma SplitAppendLine(x: string, l: string, lines: seq<string>)
    requires '\n' !in l && Split(x, '\n') == lines
    ensures Split(x + "\n" + l, '\n') == lines + [l]
  {
    SplitSeparated(x, l, '\n');
    SplitWhole(l, '\n');
  }

  /** The digest reads back, line by line, as the header and the six marker lines in order. */
  lemma DigestLines(counts: seq<nat>)
    requires |counts| == |Markers|
    ensures Split(Digest(counts), '\n')
            == [Header, Line(Markers[0], counts[0]), Line(Markers[1], counts[1]), Line(Markers[2], counts[2]),
                Line(Markers[3], counts[3]), Line(Markers[4], counts[4]), Line(Markers[5], counts[5]), ""]
  {
    LineHasNoNewline(Markers[0], counts[0]);
    LineHasNoNewline(Markers[1], counts[1]);
    LineHasNoNewline(Markers[2], counts[2]);
    LineHasNoNewline(Markers[3], counts[3]);
    LineHasNoNewline(Markers[4], counts[4]);
    LineHasNoNewline(Markers[5], counts[5]);
    SplitSevenLines(Header, Line(Markers[0], counts[0]), Line(Markers[1], counts[1]), Line(Markers[2], counts[2]),
                    Line(Markers[3], counts[3]), Line(Markers[4], counts[4]), Line(Markers[5], counts[5]));
  }
}

/**
The progress one attempt reports (worker/processing.py, worker/demucs_process.py and the
upload loop of worker/storage.py). Fractions are exact rationals; Python's round is
round-half-even, the rounding of section 4.3.1 of IEEE 754-2019.
*/
module Progress {

  /** round(n / d). */
  function Round(n: int, d: int): int
    requires d > 0
  {
    var q, twice := n / d, 2 * (n % d);
    if twice < d then q
    else if twice > d then q + 1
    else if q % 2 == 0 then q else q + 1
  }

  /** `r` is a nearest integer to n / d, and the even one when two are nearest. */
  predicate IsRounded(n: int, d: int, r: int)
    requires d > 0
  {
    && -d <= 2 * (n - r * d) <= d
    && (2 * (n - r * d) == d || 2 * (n - r * d) == -d ==> r % 2 == 0)
  }

  lemma RoundIsNearestEven(n: int, d: int)
    requires d > 0
    ensures IsRounded(n, d, Round(n, d))
  {
    var q := n / d;
    assert n == q * d + n % d;
    assert (q + 1) * d == q * d + d;
  }

  lemma RoundedDiffer(d: int, a: int, b: int)
    requires d > 0 && a < b
    ensures b * d >= a * d + d
    ensures b > a + 1 ==> b * d >= a * d + 2 * d
  {
    var k := b - a;
    assert b * d == a * d + k * d;
    assert k >= 1 ==> k * d >= d;
    assert k >= 2 ==> k * d >= 2 * d;
  }

  /** A larger fraction never rounds to a smaller integer; in particular the rounding is unique. */
  lemma RoundedIsMonotone(n: int, m: int, d: int, r: int, s: int)
    requires d > 0 && n <= m && IsRounded(n, d, r) && IsRounded(m, d, s)
    ensures r <= s
  {
    if r > s {
      RoundedDiffer(d, s, r);
    }
  }

  lemma RoundIsMonotone(n: int, m: int, d: int)
    requires d > 0 && n <= m
    ensures Round(n, d) <= Round(m, d)
  {
    RoundIsNearestEven(n, d);
    RoundIsNearestEven(m, d);
    RoundedIsMonotone(n, m, d, Round(n, d), Round(m, d));
  }

  lemma RoundOfWhole(k: int, d: int)
    requires d > 0
    ensures Round(k * d, d) == k
  {
    RoundIsNearestEven(k * d, d);
    RoundedIsMonotone(k * d, k * d, d, Round(k * d, d), k);
    RoundedIsMonotone(k * d, k * d, d, k, Round(k * d, d));
  }

  /** A share part / total of seven points, 0 <= part <= total. */
  lemma SevenPoints(part: int, total: int)
    requires 0 <= part <= total && total > 0
    ensures 0 <= Round(7 * part, total) <= 7
    ensures part == total ==> Round(7 * part, total) == 7
  {
    RoundOfWhole(0, total);
    RoundOfWhole(7, total);
    assert 0 * total <= 7 * part <= 7 * total;
    RoundIsMonotone(0 * total, 7 * part, total);
    RoundIsMonotone(7 * part, 7 * total, total);
  }

  // ------------------------------------------------------------- status writes

  predicate NonDecreasing(s: seq<int>) {
    forall i, j | 0 <= i < j < |s| :: s[i] <= s[j]
  }

  predicate Within(s: seq<int>, low: int, high: int) {
    forall i | 0 <= i < |s| :: low <= s[i] <= high
  }

  /** Later writes of a higher band continue a lower band. */
  lemma BandsJoin(a: seq<int>, b: seq<int>, low: int, mid: int, high: int)
    requires NonDecreasing(a) && NonDecreasing(b) && Within(a, low, mid) && Within(b, mid, high) && low <= mid <= high
    ensures NonDecreasing(a + b) && Within(a + b, low, high)
  {}

  /** update_job_status and the checkpoints: at some call the job is cancelled or the lease is gone. */
  class StatusWriter {
    var writes: seq<int>
    var callsLeft: nat

    constructor (calls: nat)
      ensures writes == [] && callsLeft == calls
    {
      writes, callsLeft := [], calls;
    }

    /** False is an exception; nothing was written then. */
    method Write(progress: int) returns (ok: bool)
      modifies this
      ensures writes == if ok then old(writes) + [progress] else old(writes)
      ensures ok <==> old(callsLeft) > 0
      ensures callsLeft == if ok then old(callsLeft) - 1 else 0
    {
      ok := callsLeft > 0;
      if ok {
        callsLeft := callsLeft - 1;
        writes := writes + [progress];
      }
    }

    /** raise_if_job_cancelled, and every other call that may fail without writing. */
    method Checkpoint() returns (ok: bool)
      modifies this`callsLeft
      ensures ok <==> old(callsLeft) > 0
      ensures callsLeft == if ok then old(callsLeft) - 1 else 0
    {
      ok := callsLeft > 0;
      if ok {
        callsLeft := callsLeft - 1;
      }
    }
  }

  /** A line of the Demucs child: two kinds of progress event, anything else. */
  datatype ChildLine = Separation(n: int, d: int) | StemSaved(completed: int, total: int) | OtherLine

  /** What demucs_runner.py emits: a value with a positive denominator, stems counted from 1. */
  predicate WellFormed(line: ChildLine) {
    && (line.Separation? ==> line.d > 0)
    && (line.StemSaved? ==> 1 <= line.completed <= line.total)
  }

  function Min(a: int, b: int): int { if a <= b then a else b }

  /** The application progress of one line; None is a line that reports none. */
  function LineProgress(line: ChildLine): int
    requires WellFormed(line) && !line.OtherLine?
  {
    match line
    case Separation(n, d) => Min(84, 25 + Round(59 * n, d))
    case StemSaved(completed, total) => 85 + Round(7 * completed, total)
  }

  /** Separation stays below the stem band, whatever value the child reports; stems stay within 85..92. */
  lemma LineBands(line: ChildLine)
    requires WellFormed(line) && !line.OtherLine?
    ensures line.Separation? ==> LineProgress(line) <= 84
    ensures line.StemSaved? ==> 85 <= LineProgress(line) <= 92
    ensures line.StemSaved? && line.completed == line.total ==> LineProgress(line) == 92
  {
    if line.StemSaved? {
      SevenPoints(line.completed, line.total);
    }
  }

  /** handle_output_line, then the check for a cancellation: a line that moves progress forward is written. */
  method HandleOutputLine(status: StatusWriter, line: ChildLine, lastProgress: int)
    returns (ok: bool, reached: int, ghost written: seq<int>)
    requires WellFormed(line)
    modifies status
    ensures status.writes == old(status.writes) + written
    ensures written == if reached > lastProgress then [reached] else []
    ensures lastProgress <= reached && (reached > lastProgress ==> !line.OtherLine? && reached == LineProgress(line))
    ensures ok && !line.OtherLine? ==> LineProgress(line) <= reached
    ensures !ok ==> status.callsLeft == 0
  {
    ok, reached, written := true, lastProgress, [];
    if !line.OtherLine? && LineProgress(line) > lastProgress {
      ok := status.Write(LineProgress(line));
      if !ok {
        return;
      }
      reached := LineProgress(line);
      written := [reached];
    }
    ok := status.Checkpoint();
  }

  lemma OneMore(s: seq<int>, x: int, low: int, high: int)
    requires NonDecreasing(s) && Within(s, low, high) && low <= x <= high && (s != [] ==> s[|s| - 1] <= x)
    ensures NonDecreasing(s + [x]) && Within(s + [x], low, high)
  {}

  predicate AllWellFormed(lines: seq<ChildLine>) { forall i | 0 <= i < |lines| :: WellFormed(lines[i]) }

  /** The highest progress the lines report, 24 at the start. */
  function Peak(lines: seq<ChildLine>): int
    requires AllWellFormed(lines)
  {
    if lines == [] then 24
    else
      var before, line := Peak(lines[..|lines| - 1]), lines[|lines| - 1];
      if !line.OtherLine? && LineProgress(line) > before then LineProgress(line) else before
  }

  /** The progress of every line that goes beyond all lines before it. */
  function Peaks(lines: seq<ChildLine>): seq<int>
    requires AllWellFormed(lines)
  {
    if lines == [] then []
    else
      var before, line := lines[..|lines| - 1], lines[|lines| - 1];
      Peaks(before) + if !line.OtherLine? && LineProgress(line) > Peak(before) then [LineProgress(line)] else []
  }

  /** What is written for these lines: 25, then the peaks. */
  function DemucsWrites(lines: seq<ChildLine>): seq<int>
    requires AllWellFormed(lines)
  {
    [25] + Peaks(lines)
  }

  predicate WellShaped(written: seq<int>, peak: int) {
    && NonDecreasing(written) && Within(written, 25, 92) && peak >= 24
    && written != [] && written[|written| - 1] == if peak < 25 then 25 else peak
  }

  lemma ShapeNext(written: seq<int>, peak: int, x: int)
    requires WellShaped(written, peak) && peak < x <= 92
    ensures WellShaped(written + [x], x)
  {
    OneMore(written, x, 25, 92);
  }

  lemma DemucsWritesNext(before: seq<ChildLine>, line: ChildLine)
    requires AllWellFormed(before + [line])
    ensures AllWellFormed(before) && WellFormed(line)
    ensures var forward := !line.OtherLine? && LineProgress(line) > Peak(before);
      && Peak(before + [line]) == (if forward then LineProgress(line) else Peak(before))
      && DemucsWrites(before + [line]) == DemucsWrites(before) + if forward then [LineProgress(line)] else []
  {
    var lines := before + [line];
    assert lines[|lines| - 1] == line;
    assert forall i | 0 <= i < |before| :: before[i] == lines[i];
    assert lines[..|lines| - 1] == before;
  }

  /** They never go back, stay within 25..92, and end at or above every reported line. */
  lemma {:induction false} DemucsWritesShape(lines: seq<ChildLine>)
    requires AllWellFormed(lines)
    ensures WellShaped(DemucsWrites(lines), Peak(lines))
    decreases |lines|
  {
    if lines != [] {
      var before, line := lines[..|lines| - 1], lines[|lines| - 1];
      assert before + [line] == lines;
      DemucsWritesNext(before, line);
      DemucsWritesShape(before);
      if !line.OtherLine? && LineProgress(line) > Peak(before) {
        LineBands(line);
        ShapeNext(DemucsWrites(before), Peak(before), LineProgress(line));
      } else {
        assert DemucsWrites(lines) == DemucsWrites(before);
      }
    }
  }

  /** The next line of a list: what it adds, and the shape before and after it. */
  lemma DemucsWritesUpTo(lines: seq<ChildLine>, i: nat)
    requires AllWellFormed(lines) && i < |lines|
    ensures var before, line := lines[..i], lines[i];
      var forward := !line.OtherLine? && LineProgress(line) > Peak(before);
      && Peak(lines[..i + 1]) == (if forward then LineProgress(line) else Peak(before))
      && DemucsWrites(lines[..i + 1]) == DemucsWrites(before) + (if forward then [LineProgress(line)] else [])
      && WellShaped(DemucsWrites(before), Peak(before))
      && WellShaped(DemucsWrites(lines[..i + 1]), Peak(lines[..i + 1]))
  {
    assert lines[..i + 1] == lines[..i] + [lines[i]];
    DemucsWritesNext(lines[..i], lines[i]);
    DemucsWritesShape(lines[..i]);
    DemucsWritesShape(lines[..i + 1]);
  }

  lemma {:induction false} PeakCovers(lines: seq<ChildLine>, k: nat)
    requires AllWellFormed(lines) && k < |lines| && !lines[k].OtherLine?
    ensures LineProgress(lines[k]) <= Peak(lines)
    decreases |lines|
  {
    if k < |lines| - 1 {
      PeakCovers(lines[..|lines| - 1], k);
    }
  }

  /**
  run_demucs: the first write of 25, then every line that moves progress forward. Whenever
  it stops, what it wrote is non-decreasing and within 25..92. Only a cancelled job, a lost
  lease, or a child that exits with an error ends it early.
  */
  method RunDemucs(status: StatusWriter, lines: seq<ChildLine>, exitedNormally: bool)
    returns (ok: bool, ghost written: seq<int>)
    requires AllWellFormed(lines)
    modifies status
    ensures status.writes == old(status.writes) + written
    ensures NonDecreasing(written) && Within(written, 25, 92)
    ensures ok ==> exitedNormally && written == DemucsWrites(lines)
    ensures ok ==> forall i | 0 <= i < |lines| && !lines[i].OtherLine? ::
      LineProgress(lines[i]) <= written[|written| - 1]
    ensures !ok ==> status.callsLeft == 0 || !exitedNormally
  {
    written := [];
    var lastProgress := 24;
    ok := status.Write(25);
    if !ok {
      return;
    }
    written := [25];
    for i := 0 to |lines|
      invariant ok && status.writes == old(status.writes) + written
      invariant lastProgress == Peak(lines[..i]) && written == DemucsWrites(lines[..i])
    {
      DemucsWritesUpTo(lines, i);
      ghost var more;
      var reached;
      ok, reached, more := HandleOutputLine(status, lines[i], lastProgress);
      assert written + [] == written;
      written, lastProgress := written + more, reached;
      if !ok {
        return;
      }
    }
    assert lines[..|lines|] == lines;
    DemucsWritesShape(lines);
    forall k | 0 <= k < |lines| && !lines[k].OtherLine?
      ensures LineProgress(lines[k]) <= Peak(lines)
    {
      PeakCovers(lines, k);
    }
    ok := exitedNormally;
  }

  /**
  The formulas of the two bands, by their meaning: separation is 25 plus the nearest whole
  part of 59 points, cut off at 84; stems are 85 plus the nearest whole part of 7 points.
  */
  lemma LineIsNearest(line: ChildLine)
    requires WellFormed(line) && !line.OtherLine?
    ensures line.Separation? ==>
      || IsRounded(59 * line.n, line.d, LineProgress(line) - 25)
      || (LineProgress(line) == 84 && 2 * (59 * line.n - 59 * line.d) >= line.d)
    ensures line.StemSaved? ==> IsRounded(7 * line.completed, line.total, LineProgress(line) - 85)
  {
    match line
    case Separation(n, d) =>
      RoundIsNearestEven(59 * n, d);
      if Round(59 * n, d) > 59 {
        RoundedDiffer(d, 59, Round(59 * n, d));
      }
    case StemSaved(completed, total) => RoundIsNearestEven(7 * completed, total);
  }

  /** A full separation is 84, none is 25. */
  lemma SeparationSpan(d: int)
    requires d > 0
    ensures LineProgress(Separation(0, d)) == 25 && LineProgress(Separation(d, d)) == 84
  {
    RoundOfWhole(0, d);
    RoundOfWhole(59, d);
  }

  /** Upload progress is 92 plus the nearest whole part of 7 points. */
  lemma UploadIsNearest(index: int, total: int)
    requires total > 0
    ensures IsRounded(7 * index, total, UploadProgress(index, total) - 92)
  {
    RoundIsNearestEven(7 * index, total);
  }

  /** What the callback reports after `index` of `total` stems. */
  function UploadProgress(index: int, total: int): int
    requires total > 0
  {
    92 + Round(7 * index, total)
  }

  /**
  upload_demucs_results with its callback: non-decreasing within 92..99, and when every stem
  is uploaded the last write is exactly 99. No stems at all is an error.
  */
  method UploadStems(status: StatusWriter, total: nat) returns (ok: bool, ghost written: seq<int>)
    modifies status
    ensures status.writes == old(status.writes) + written
    ensures NonDecreasing(written) && Within(written, 92, 99)
    ensures ok ==> |written| == total >= 1 && written[total - 1] == 99
    ensures ok ==> forall i | 1 <= i <= total :: written[i - 1] == UploadProgress(i, total)
    ensures !ok ==> status.callsLeft == 0 || total == 0
  {
    ok, written := true, [];
    if total == 0 {
      return false, [];
    }
    for index := 1 to total + 1
      invariant ok && |written| == index - 1 && status.writes == old(status.writes) + written
      invariant forall i | 1 <= i < index :: written[i - 1] == UploadProgress(i, total)
      invariant NonDecreasing(written) && Within(written, 92, 99)
    {
      ok := status.Checkpoint();
      if !ok {
        return;
      }
      SevenPoints(index, total);
      forall i | 1 <= i < index
        ensures UploadProgress(i, total) <= UploadProgress(index, total)
      {
        RoundIsMonotone(7 * i, 7 * index, total);
      }
      forall i | 0 <= i < |written|
        ensures written[i] <= UploadProgress(index, total)
      {
        assert written[(i + 1) - 1] == UploadProgress(i + 1, total);
      }
      ok := status.Write(UploadProgress(index, total));
      if !ok {
        return;
      }
      written := written + [UploadProgress(index, total)];
    }
    SevenPoints(total, total);
    assert written[total - 1] == UploadProgress(total, total);
  }

  /** The mock stages: 30, 40, up to 90. */
  method RunMock(status: StatusWriter) returns (ok: bool, ghost written: seq<int>)
    modifies status
    ensures status.writes == old(status.writes) + written
    ensures NonDecreasing(written) && Within(written, 30, 90)
    ensures ok ==> written == [30, 40, 50, 60, 70, 80, 90]
    ensures !ok ==> status.callsLeft == 0
  {
    ok, written := true, [];
    var progress := 30;
    while progress < 91
      invariant 30 <= progress <= 100 && progress % 10 == 0
      invariant ok && status.writes == old(status.writes) + written
      invariant |written| == (progress - 30) / 10 && forall i | 0 <= i < |written| :: written[i] == 30 + 10 * i
    {
      ok := status.Checkpoint();
      if ok {
        ok := status.Write(progress);
      }
      if !ok {
        return;
      }
      written := written + [progress];
      progress := progress + 10;
    }
    ok := status.Checkpoint();
  }

  /** The download stage: 15 before it, 20 after it. */
  method Download(status: StatusWriter) returns (ok: bool, ghost written: seq<int>)
    modifies status
    ensures status.writes == old(status.writes) + written
    ensures NonDecreasing(written) && Within(written, 15, 20)
    ensures ok ==> written == [15, 20]
    ensures !ok ==> status.callsLeft == 0
  {
    written := [];
    ok := status.Write(15);
    if ok {
      written := [15];
      ok := status.Checkpoint();
      if ok {
        ok := status.Write(20);
        if ok {
          written := [15, 20];
          ok := status.Checkpoint();
        }
      }
    }
  }

  /** Demucs, then the uploads. */
  method SeparateAndUpload(status: StatusWriter, lines: seq<ChildLine>, exitedNormally: bool, stems: nat)
    returns (ok: bool, ghost written: seq<int>)
    requires AllWellFormed(lines)
    modifies status
    ensures status.writes == old(status.writes) + written
    ensures NonDecreasing(written) && Within(written, 25, 99)
    ensures ok ==> written != [] && written[0] == 25 && written[|written| - 1] == 99
    ensures !ok ==> status.callsLeft == 0 || !exitedNormally || stems == 0
  {
    ghost var separated, uploaded;
    ok, separated := RunDemucs(status, lines, exitedNormally);
    written := separated;
    if ok {
      ok, uploaded := UploadStems(status, stems);
      BandsJoin(separated, uploaded, 25, 92, 99);
      written := separated + uploaded;
    }
  }

  /** process_audio_job: download within 15..20, then Demucs and uploads, or the mock stages. */
  method ProcessAudioJob(
    status: StatusWriter, demucs: bool, lines: seq<ChildLine>, exitedNormally: bool, stems: nat)
    returns (ok: bool, ghost written: seq<int>)
    requires AllWellFormed(lines)
    modifies status
    ensures status.writes == old(status.writes) + written
    ensures NonDecreasing(written) && Within(written, 15, 99)
    ensures ok ==> |written| > 2 && written[0] == 15 && written[1] == 20
    ensures ok && demucs ==> written[|written| - 1] == 99
    ensures ok && !demucs ==> written == [15, 20, 30, 40, 50, 60, 70, 80, 90]
    ensures !ok ==> status.callsLeft == 0 || (demucs && (!exitedNormally || stems == 0))
  {
    ghost var downloaded, rest;
    ok, downloaded := Download(status);
    written := downloaded;
    if ok {
      if demucs {
        ok, rest := SeparateAndUpload(status, lines, exitedNormally, stems);
      } else {
        ok, rest := RunMock(status);
      }
      BandsJoin(downloaded, rest, 15, 25, 99);
      written := downloaded + rest;
    }
  }

  /**
  One attempt from begin_job_attempt (10) to the COMPLETED write (100): progress never goes
  back, wherever the attempt ends, and a completed attempt runs from 10 to 100. It completes
  unless the job is cancelled, the lease is lost, or the model fails or leaves no stems.
  */
  method RunAttempt(
    status: StatusWriter, demucs: bool, lines: seq<ChildLine>, exitedNormally: bool, stems: nat)
    returns (completed: bool, ghost written: seq<int>)
    requires AllWellFormed(lines)
    modifies status
    ensures status.writes == old(status.writes) + written
    ensures NonDecreasing(written) && Within(written, 10, 100)
    ensures completed ==> written != [] && written[0] == 10 && written[|written| - 1] == 100
    ensures !completed ==> status.callsLeft == 0 || (demucs && (!exitedNormally || stems == 0))
  {
    written := [];
    completed := status.Write(10);
    if !completed {
      return;
    }
    ghost var processed;
    completed, processed := ProcessAudioJob(status, demucs, lines, exitedNormally, stems);
    BandsJoin([10], processed, 10, 15, 99);
    written := [10] + processed;
    if !completed {
      return;
    }
    completed := status.Write(100);
    if completed {
      BandsJoin(written, [100], 10, 99, 100);
      written := written + [100];
    }
  }
}

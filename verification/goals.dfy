/** Goal detection: the scan over a started container's log stream that
    decides whether the worker reached its final goal, and the timed wait
    around it. The stream is the finite sequence of decoded lines the
    engine delivers; the clock is abstracted to the number of stream events
    (lines, and finally the end of the stream) that arrive before the
    deadline. */
module Goals {
  import opened Outcomes
  import opened Text

  const ErrorMarker := "[ERROR"
  const SuccessMarker := "[SUCCESS 4]"
  const NotReachedDetail := "Did not reach final goal"

  /** The pair `(reached, detail)` the scan yields. */
  datatype GoalOutcome = GoalOutcome(reached: bool, detail: string)

  /** How a scan of the stream ends: with an outcome, or by an exception
      raised while taking a marker line apart. */
  datatype ScanResult =
    | Concluded(outcome: GoalOutcome)
    | Crashed(line: string)

  /** How the timed wait on the scan ends. */
  datatype Watch = Finished(result: ScanResult) | TimedOut

  predicate HasError(line: string) {
    Contains(line, ErrorMarker)
  }

  predicate HasSuccess(line: string) {
    Contains(line, SuccessMarker)
  }

  /** A line the scan stops at. */
  predicate IsMarker(line: string) {
    HasError(line) || HasSuccess(line)
  }

  /** The detail of an error line: its second `]`-separated segment. */
  function ErrorDetail(line: string): (d: string)
    requires ']' in line
    ensures ']' !in d
  {
    SplitHasSecond(line, ']');
    Split(line, ']')[1]
  }

  /** What the scan concludes from a marker line. */
  function MarkerVerdict(line: string): (r: ScanResult)
    requires IsMarker(line)
    ensures r.Crashed? <==> HasError(line) && ']' !in line
    ensures r.Crashed? ==> r.line == line
    ensures r.Concluded? ==> (r.outcome.reached <==> !HasError(line))
    ensures r.Concluded? && r.outcome.reached ==> r.outcome.detail == ""
    ensures r.Concluded? && !r.outcome.reached ==> ']' !in r.outcome.detail
  {
    if HasError(line) then
      if ']' in line then Concluded(GoalOutcome(false, ErrorDetail(line)))
      else Crashed(line)
    else Concluded(GoalOutcome(true, ""))
  }

  /** The scan: stop at the first marker line, or report that the stream
      ended without one. */
  function Scan(lines: seq<string>): (r: ScanResult)
    ensures r.Concluded? && r.outcome.reached ==> r.outcome.detail == ""
  {
    if |lines| == 0 then Concluded(GoalOutcome(false, NotReachedDetail))
    else if IsMarker(lines[0]) then MarkerVerdict(lines[0])
    else Scan(lines[1..])
  }

  ghost predicate Unmarked(lines: seq<string>) {
    forall j :: 0 <= j < |lines| ==> !IsMarker(lines[j])
  }

  /** Line `i` is the first marker line of the stream. */
  ghost predicate FirstMarkerAt(lines: seq<string>, i: int) {
    0 <= i < |lines| && IsMarker(lines[i]) && Unmarked(lines[..i])
  }

  /** The error detail is the `]`-free run right after the first `]` of the
      line, ending at the next `]` or at the end of the line. */
  lemma ErrorDetailShape(line: string)
    requires ']' in line
    ensures var i := IndexOf(line, ']').value;
      var d := ErrorDetail(line);
      && i + 1 + |d| <= |line|
      && line[i + 1..i + 1 + |d|] == d
      && ']' !in d
      && (i + 1 + |d| == |line| || line[i + 1 + |d|] == ']')
  {
    var i := IndexOf(line, ']').value;
    var rest := line[i + 1..];
    var parts := Split(line, ']');
    assert parts == [line[..i]] + Split(rest, ']');
    assert parts[1] == Split(rest, ']')[0];
    SplitFirstSegment(rest, ']');
    var d := Split(rest, ']')[0];
    assert d == rest[..|d|];
    assert line[i + 1..i + 1 + |d|] == rest[..|d|];
  }

  /** The scan is a left-to-right fold: a prefix with no marker line is
      skipped, and once a prefix holds one, nothing after it is read. */
  lemma {:induction false} ScanAppend(a: seq<string>, b: seq<string>)
    ensures Scan(a + b) == if Unmarked(a) then Scan(b) else Scan(a)
    decreases |a|
  {
    if |a| == 0 {
      assert a + b == b;
    } else {
      assert (a + b)[0] == a[0];
      assert (a + b)[1..] == a[1..] + b;
      if !IsMarker(a[0]) {
        ScanAppend(a[1..], b);
        assert Unmarked(a) <==> Unmarked(a[1..]) by {
          if Unmarked(a[1..]) {
            forall j | 0 <= j < |a| ensures !IsMarker(a[j]) {
              if j > 0 { assert a[j] == a[1..][j - 1]; }
            }
          }
        }
      }
    }
  }

  /** The first marker line alone decides the scan. */
  lemma {:induction false} ScanAtFirstMarker(lines: seq<string>, i: int)
    requires FirstMarkerAt(lines, i)
    ensures Scan(lines) == MarkerVerdict(lines[i])
  {
    assert lines == lines[..i] + lines[i..];
    ScanAppend(lines[..i], lines[i..]);
    assert lines[i..][0] == lines[i];
  }

  /** A stream with no marker line ends the scan with "Did not reach final goal". */
  lemma {:induction false} ScanUnmarked(lines: seq<string>)
    requires Unmarked(lines)
    ensures Scan(lines) == Concluded(GoalOutcome(false, NotReachedDetail))
  {
    assert lines + [] == lines;
    ScanAppend(lines, []);
  }

  /** Every stream either has no marker line or a first one. */
  lemma FirstMarkerExists(lines: seq<string>)
    requires !Unmarked(lines)
    ensures exists i :: FirstMarkerAt(lines, i)
  {
    var k :| 0 <= k < |lines| && IsMarker(lines[k]);
    var i := 0;
    while i < k && !IsMarker(lines[i])
      invariant 0 <= i <= k
      invariant Unmarked(lines[..i])
    {
      assert lines[..i + 1] == lines[..i] + [lines[i]];
      i := i + 1;
    }
    assert FirstMarkerAt(lines, i);
  }

  /** A stream has at most one first marker line. */
  lemma FirstMarkerUnique(lines: seq<string>, i: int, k: int)
    requires FirstMarkerAt(lines, i) && FirstMarkerAt(lines, k)
    ensures i == k
  {
    assert forall j :: 0 <= j < i ==> lines[..i][j] == lines[j];
    assert forall j :: 0 <= j < k ==> lines[..k][j] == lines[j];
  }

  /** The first line with an error marker ends the scan with its detail, and
      whatever follows it in the stream is never examined. */
  lemma ErrorLineEndsScan(lines: seq<string>, i: int, later: seq<string>)
    requires FirstMarkerAt(lines, i) && HasError(lines[i]) && ']' in lines[i]
    ensures Scan(lines) == Concluded(GoalOutcome(false, ErrorDetail(lines[i])))
    ensures Scan(lines[..i + 1] + later) == Scan(lines)
  {
    ScanAtFirstMarker(lines, i);
    var head := lines[..i + 1];
    assert head[..i] == lines[..i];
    assert FirstMarkerAt(head, i);
    ScanAtFirstMarker(head, i);
    assert !Unmarked(head) by { assert IsMarker(head[i]); }
    ScanAppend(head, later);
  }

  /** A line carrying both markers is a failure: the error check comes first. */
  lemma ErrorBeatsSuccess(line: string, later: seq<string>)
    requires HasError(line) && HasSuccess(line)
    ensures match Scan([line] + later)
      case Concluded(o) => !o.reached
      case Crashed(l) => l == line
  {
    assert ([line] + later)[0] == line;
  }

  /** The scan reports success exactly when its first marker line carries the
      success marker and no error marker. */
  lemma ScanReachedIff(lines: seq<string>)
    ensures Scan(lines) == Concluded(GoalOutcome(true, ""))
      <==> exists i :: FirstMarkerAt(lines, i) && !HasError(lines[i])
  {
    if Unmarked(lines) {
      ScanUnmarked(lines);
    } else {
      FirstMarkerExists(lines);
      var i :| FirstMarkerAt(lines, i);
      ScanAtFirstMarker(lines, i);
      forall k | FirstMarkerAt(lines, k) ensures k == i {
        FirstMarkerUnique(lines, i, k);
      }
    }
  }

  /** Stream events the scan consumes before it returns: the lines up to and
      including the first marker line, or every line plus the end of stream. */
  function Events(lines: seq<string>): (n: nat)
    ensures 1 <= n <= |lines| + 1
    ensures n <= |lines| ==> IsMarker(lines[n - 1]) && Unmarked(lines[..n - 1])
    ensures n == |lines| + 1 ==> Unmarked(lines)
  {
    if |lines| == 0 then 1
    else if IsMarker(lines[0]) then 1
    else
      var n := Events(lines[1..]);
      assert lines[..n] == [lines[0]] + lines[1..][..n - 1];
      assert forall j :: 0 <= j < n ==> lines[..n][j] == lines[j];
      assert n == |lines| ==> lines == [lines[0]] + lines[1..];
      n + 1
  }

  /** The event count is the position of the first marker line plus one. */
  lemma EventsAtFirstMarker(lines: seq<string>, i: int)
    requires FirstMarkerAt(lines, i)
    ensures Events(lines) == i + 1
  {
    var n := Events(lines);
    if n <= |lines| {
      FirstMarkerUnique(lines, n - 1, i);
    }
  }

  /** The scan under the deadline: it finishes when the events it needs
      arrive in time, and times out otherwise. */
  function WatchLogs(lines: seq<string>, inTime: nat): (w: Watch)
    ensures w.Finished? ==> w.result == Scan(lines)
    ensures inTime > |lines| ==> w.Finished?
    ensures inTime == 0 ==> w.TimedOut?
  {
    if Events(lines) <= inTime then Finished(Scan(lines)) else TimedOut
  }

  /** The wait read the stream to its end: every line arrived in time and
      none was a marker line. A followed stream ends only once its
      container has exited. */
  function StreamEnded(lines: seq<string>, inTime: nat): (ended: bool)
    ensures ended <==> WatchLogs(lines, inTime).Finished? && Unmarked(lines)
    ensures ended ==> WatchLogs(lines, inTime) == Finished(Concluded(GoalOutcome(false, NotReachedDetail)))
  {
    var n := Events(lines);
    if n == |lines| + 1 && n <= inTime then
      ScanUnmarked(lines);
      true
    else
      false
  }

  /** More time never turns a finished watch into a timeout. */
  lemma WatchMonotone(lines: seq<string>, t: nat, t': nat)
    requires t <= t' && WatchLogs(lines, t).Finished?
    ensures WatchLogs(lines, t') == WatchLogs(lines, t)
  {
  }

  /** A success line that arrives in time makes the wait finish with success,
      whatever the stream holds later. */
  lemma SuccessInTime(lines: seq<string>, i: int, later: seq<string>, inTime: nat)
    requires FirstMarkerAt(lines, i) && !HasError(lines[i]) && i < inTime
    ensures WatchLogs(lines[..i + 1] + later, inTime) == Finished(Concluded(GoalOutcome(true, "")))
  {
    var s := lines[..i + 1] + later;
    assert s[..i] == lines[..i];
    assert s[i] == lines[i];
    assert FirstMarkerAt(s, i);
    ScanAtFirstMarker(s, i);
    EventsAtFirstMarker(s, i);
  }

  /** A line lacks a marker when some character of the marker never occurs in it. */
  lemma AbsentCharNoMarker(line: string, marker: string, ch: char)
    requires ch in marker && ch !in line
    ensures !Contains(line, marker)
  {
    var j :| 0 <= j < |marker| && marker[j] == ch;
    forall i ensures !OccursAt(line, marker, i) {
      if 0 <= i && i + |marker| <= |line| {
        assert line[i..i + |marker|][j] == line[i + j];
        assert line[i + j] in line;
      }
    }
    ContainsIffOccurs(line, marker);
  }

  /** The success line of a worker that started streaming. */
  lemma SuccessLineScan()
    ensures Scan(["[SUCCESS 4] ready"]) == Concluded(GoalOutcome(true, ""))
  {
    var line := "[SUCCESS 4] ready";
    assert line[..|SuccessMarker|] == SuccessMarker;
    assert forall i :: 0 <= i < |line| ==> line[i] != 'R';
    assert ErrorMarker[2] == 'R';
    AbsentCharNoMarker(line, ErrorMarker, 'R');
    assert ["[SUCCESS 4] ready"][0] == line;
  }

  /** Text after the only `]` of a line is its whole detail. */
  lemma ErrorDetailAfterBracket(head: string, d: string)
    requires ']' !in head && ']' !in d
    ensures ']' in head + "]" + d
    ensures ErrorDetail(head + "]" + d) == d
  {
    SplitOnce(head, ']', d);
    assert (head + "]" + d)[|head|] == ']';
  }

  /** The detail of an error line keeps the space after the bracket. */
  lemma ErrorDetailExample()
    ensures ']' in "[ERROR] bad weights"
    ensures ErrorDetail("[ERROR] bad weights") == " bad weights"
  {
    var head, d := "[ERROR", " bad weights";
    assert forall i :: 0 <= i < |head| ==> head[i] != ']';
    assert forall i :: 0 <= i < |d| ==> d[i] != ']';
    assert "[ERROR] bad weights" == head + "]" + d;
    ErrorDetailAfterBracket(head, d);
  }

  /** An error line ends the scan with a failure carrying that detail. */
  lemma ErrorLineScan()
    ensures Scan(["[ERROR] bad weights"]) == Concluded(GoalOutcome(false, " bad weights"))
  {
    var line := "[ERROR] bad weights";
    assert line[..|ErrorMarker|] == ErrorMarker;
    assert HasError(line);
    ErrorDetailExample();
    assert ["[ERROR] bad weights"][0] == line;
  }
}

/** The client's event pump: it reads the log in chunks, hands on the complete lines of each, and
    moves on by what it has consumed. */
module Pump {
  import opened Text
  import opened Framing
  import opened EventLog

  type Line = seq<byte>

  predicate Plain(line: Line) {
    NEWLINE !in line
  }

  predicate AllPlain(lines: seq<Line>) {
    forall i :: 0 <= i < |lines| ==> Plain(lines[i])
  }

  /** The log as lines, each with its newline. */
  function Joined(lines: seq<Line>): seq<byte> {
    if lines == [] then [] else lines[0] + [NEWLINE] + Joined(lines[1..])
  }

  // ---------------------------------------------------------------------------
  // A chunk's complete lines
  // ---------------------------------------------------------------------------

  function NewlineAt(data: seq<byte>): (i: nat)
    ensures i <= |data| && Plain(data[..i]) && (i < |data| ==> data[i] == NEWLINE)
  {
    if data == [] || data[0] == NEWLINE then 0 else 1 + NewlineAt(data[1..])
  }

  function Complete(data: seq<byte>): seq<Line>
    decreases |data|
  {
    var i := NewlineAt(data);
    if i == |data| then [] else [data[..i]] + Complete(data[i + 1..])
  }

  /** `lines` are the complete lines of the first `consumed` bytes. */
  ghost predicate Consumed(data: seq<byte>, lines: seq<Line>, consumed: nat) {
    && consumed <= |data|
    && Complete(data) == lines + Complete(data[consumed..])
    && AllPlain(lines) && data[..consumed] == Joined(lines)
  }

  lemma SliceSplits(data: seq<byte>, a: nat, b: nat)
    requires a <= b < |data|
    ensures data[..b + 1] == data[..a] + data[a..b] + [data[b]]
  {
  }

  lemma CompleteUnfolds(data: seq<byte>, consumed: nat, nl: nat)
    requires consumed <= |data| && nl == NewlineAt(data[consumed..]) < |data| - consumed
    ensures Complete(data[consumed..]) == [data[consumed..consumed + nl]] + Complete(data[consumed + nl + 1..])
    ensures Plain(data[consumed..consumed + nl]) && data[consumed + nl] == NEWLINE
  {
    assert data[consumed..][..nl] == data[consumed..consumed + nl];
    assert data[consumed..][nl + 1..] == data[consumed + nl + 1..];
  }

  lemma OneMoreLine(data: seq<byte>, lines: seq<Line>, consumed: nat, nl: nat)
    requires Consumed(data, lines, consumed) && nl == NewlineAt(data[consumed..]) < |data| - consumed
    ensures Consumed(data, lines + [data[consumed..consumed + nl]], consumed + nl + 1)
  {
    var line, rest := data[consumed..consumed + nl], Complete(data[consumed + nl + 1..]);
    CompleteUnfolds(data, consumed, nl);
    assert lines + ([line] + rest) == lines + [line] + rest;
    JoinedGrows(lines, line);
    SliceSplits(data, consumed, consumed + nl);
  }

  /** What is handed on of some lines: each without the space around it, and no blank ones. */
  function Kept(trim: Line -> Line, lines: seq<Line>): seq<Line> {
    if lines == [] then []
    else
      var line := trim(lines[|lines| - 1]);
      Kept(trim, lines[..|lines| - 1]) + if line == [] then [] else [line]
  }

  lemma {:induction false} KeptOfBoth(trim: Line -> Line, a: seq<Line>, b: seq<Line>)
    ensures Kept(trim, a + b) == Kept(trim, a) + Kept(trim, b)
  {
    if b == [] {
      assert a + b == a;
    } else {
      var n := |b| - 1;
      assert (a + b)[..|a| + n] == a + b[..n];
      KeptOfBoth(trim, a, b[..n]);
    }
  }

  /** The lines of a chunk, trimmed, in order and without blanks, and how many of its bytes all of
      its lines take. */
  method DispatchLines(data: seq<byte>, trim: Line -> Line) returns (handed: seq<Line>, consumed: nat)
    ensures handed == Kept(trim, Complete(data))
    ensures AllPlain(Complete(data)) && consumed <= |data| && data[..consumed] == Joined(Complete(data))
    ensures Plain(data[consumed..])
  {
    handed, consumed := [], 0;
    ghost var lines: seq<Line> := [];
    assert data[0..] == data && data[..0] == [];
    var nl := NewlineAt(data);
    while consumed + nl < |data|
      invariant Consumed(data, lines, consumed) && nl == NewlineAt(data[consumed..])
      invariant handed == Kept(trim, lines)
      decreases |data| - consumed
    {
      OneMoreLine(data, lines, consumed, nl);
      lines := lines + [data[consumed..consumed + nl]];
      var line := trim(data[consumed..consumed + nl]);
      consumed := consumed + nl + 1;
      nl := NewlineAt(data[consumed..]);
      if |line| == 0 {
        continue;
      }
      handed := handed + [line];
    }
    assert data[consumed..][..nl] == data[consumed..];
    assert lines + [] == lines;
  }

  lemma {:induction false} JoinedGrows(lines: seq<Line>, line: Line)
    ensures Joined(lines + [line]) == Joined(lines) + line + [NEWLINE]
  {
    if lines == [] {
      assert [line][1..] == [];
    } else {
      assert (lines + [line])[1..] == lines[1..] + [line];
      JoinedGrows(lines[1..], line);
    }
  }

  lemma {:induction false} NewlineAfter(line: Line, rest: seq<byte>)
    requires Plain(line)
    ensures NewlineAt(line + [NEWLINE] + rest) == |line|
  {
    if line != [] {
      assert line[0] in line && Plain(line[1..]);
      assert (line + [NEWLINE] + rest)[1..] == line[1..] + [NEWLINE] + rest;
      NewlineAfter(line[1..], rest);
    }
  }

  lemma {:induction false} NoNewline(tail: seq<byte>)
    requires Plain(tail)
    ensures NewlineAt(tail) == |tail|
  {
    if tail != [] {
      assert tail[0] in tail && Plain(tail[1..]);
      NoNewline(tail[1..]);
    }
  }

  /** Lines followed by a piece of a line split into exactly those lines. */
  lemma {:induction false} CompleteLines(lines: seq<Line>, tail: seq<byte>)
    requires AllPlain(lines) && Plain(tail)
    ensures Complete(Joined(lines) + tail) == lines
  {
    if lines == [] {
      assert Joined(lines) + tail == tail;
      NoNewline(tail);
    } else {
      var data := Joined(lines) + tail;
      var rest := Joined(lines[1..]) + tail;
      assert data == lines[0] + [NEWLINE] + rest;
      NewlineAfter(lines[0], rest);
      assert data[|lines[0]| + 1..] == rest && data[..|lines[0]|] == lines[0];
      CompleteLines(lines[1..], tail);
    }
  }

  // ---------------------------------------------------------------------------
  // One round of the pump
  // ---------------------------------------------------------------------------

  /** How many whole lines the first `n` bytes of the log hold. */
  function WholeIn(lines: seq<Line>, n: nat): (k: nat)
    ensures k <= |lines|
    ensures k > 0 <==> lines != [] && |lines[0]| + 1 <= n
  {
    if lines == [] || n < |lines[0]| + 1 then 0 else 1 + WholeIn(lines[1..], n - |lines[0]| - 1)
  }

  /** The first `n` bytes are whole lines and a piece of the next line. */
  lemma {:induction false} CutIsWholeLines(lines: seq<Line>, n: nat)
    requires AllPlain(lines) && n <= |Joined(lines)|
    ensures var k := WholeIn(lines, n);
            && |Joined(lines[..k])| <= n
            && Joined(lines)[..n] == Joined(lines[..k]) + Joined(lines)[|Joined(lines[..k])|..n]
            && Plain(Joined(lines)[|Joined(lines[..k])|..n])
            && (k == |lines| ==> n == |Joined(lines)|)
  {
    if lines == [] {
    } else {
      var first := lines[0] + [NEWLINE];
      assert Joined(lines) == first + Joined(lines[1..]);
      if n < |first| {
        assert Joined(lines)[..n] == lines[0][..n];
        assert lines[..0] == [];
      } else {
        CutIsWholeLines(lines[1..], n - |first|);
        var k := WholeIn(lines[1..], n - |first|);
        assert lines[..k + 1][1..] == lines[1..][..k] && lines[..k + 1][0] == lines[0];
        assert Joined(lines[..k + 1]) == first + Joined(lines[1..][..k]);
        assert Joined(lines)[..n] == first + Joined(lines[1..])[..n - |first|];
        assert Joined(lines)[|Joined(lines[..k + 1])|..n] == Joined(lines[1..])[|Joined(lines[1..][..k])|..n - |first|];
      }
    }
  }

  /** The pump's offset in the stream and the lines it has handed on. */
  datatype State = State(offset: nat, out: seq<Line>)

  /** A round that read the given bytes: a chunk without a complete line is skipped. */
  function Moved(s: State, trim: Line -> Line, data: seq<byte>): State {
    var lines := Complete(data);
    State(s.offset + if lines != [] then |Joined(lines)| else |data|, s.out + Kept(trim, lines))
  }

  /** What a round reads from the bytes from its offset on. */
  function Chunk(rest: seq<byte>, max: nat): seq<byte> {
    if |rest| <= max then rest else rest[..max]
  }

  /** The complete lines of what a round reads. */
  lemma ChunkIsWholeLines(ahead: seq<Line>, max: nat)
    requires AllPlain(ahead)
    ensures Complete(Chunk(Joined(ahead), max)) == ahead[..WholeIn(ahead, max)]
    ensures ahead != [] && WholeIn(ahead, max) == 0 ==> |Chunk(Joined(ahead), max)| == max
  {
    var all, k := Joined(ahead), WholeIn(ahead, max);
    if |all| <= max {
      WholeInAll(ahead, max);
      assert all + [] == all && ahead[..|ahead|] == ahead;
      CompleteLines(ahead, []);
    } else {
      CutIsWholeLines(ahead, max);
      CompleteLines(ahead[..k], all[|Joined(ahead[..k])|..max]);
    }
  }

  /** A round that starts at the beginning of a line and finds the lines `ahead` in the log deals
      with a non-empty run of them, whole and in order, and stops at the beginning of a line, exactly
      when the next line and its newline fit in what it may read. */
  lemma RoundIsWholeExactlyWhen(s: State, trim: Line -> Line, ahead: seq<Line>, max: nat)
    requires AllPlain(ahead) && ahead != [] && max > 0
    ensures var k := WholeIn(ahead, max);
            && (|ahead[0]| + 1 <= max <==> k > 0)
            && (k > 0 ==> Moved(s, trim, Chunk(Joined(ahead), max)) == State(s.offset + |Joined(ahead[..k])|, s.out + Kept(trim, ahead[..k])))
            && (k == 0 ==> Moved(s, trim, Chunk(Joined(ahead), max)) == State(s.offset + max, s.out))
  {
    ChunkIsWholeLines(ahead, max);
    assert s.out + [] == s.out;
  }

  lemma {:induction false} WholeInAll(lines: seq<Line>, n: nat)
    requires |Joined(lines)| <= n
    ensures WholeIn(lines, n) == |lines|
  {
    if lines != [] {
      WholeInAll(lines[1..], n - |lines[0]| - 1);
    }
  }

  lemma RestOfLongLine(ahead: seq<Line>, max: nat)
    requires AllPlain(ahead) && ahead != [] && max <= |ahead[0]|
    ensures Complete(Joined(ahead)[max..]) == [ahead[0][max..]] + ahead[1..]
  {
    var left := [ahead[0][max..]] + ahead[1..];
    assert left[1..] == ahead[1..];
    assert Joined(ahead)[max..] == ahead[0][max..] + [NEWLINE] + Joined(ahead[1..]);
    assert Joined(left) + [] == Joined(ahead)[max..];
    CompleteLines(left, []);
  }

  /** A line that does not fit is torn: the round hands on nothing and leaves the pump inside the
      line, and the next complete line that it hands on is what is left of it. */
  lemma LongLineIsTorn(s: State, trim: Line -> Line, ahead: seq<Line>, max: nat)
    requires AllPlain(ahead) && ahead != [] && 0 < max <= |ahead[0]|
    ensures Moved(s, trim, Chunk(Joined(ahead), max)) == State(s.offset + max, s.out)
    ensures Complete(Joined(ahead)[max..]) == [ahead[0][max..]] + ahead[1..]
  {
    RoundIsWholeExactlyWhen(s, trim, ahead, max);
    RestOfLongLine(ahead, max);
  }

  // ---------------------------------------------------------------------------
  // Whole runs
  // ---------------------------------------------------------------------------

  /** A round of the pump: it finds the first lines of the log there, or its read fails and it
      tries again, perhaps on a new connection. */
  datatype Round = Sees(lines: nat) | Fails

  /** The log only grows, line by line, between the rounds. */
  ghost predicate Growing(lines: seq<Line>, rounds: seq<Round>) {
    && (forall i :: 0 <= i < |rounds| && rounds[i].Sees? ==> rounds[i].lines <= |lines|)
    && (forall i, j :: 0 <= i < j < |rounds| && rounds[i].Sees? && rounds[j].Sees? ==> rounds[i].lines <= rounds[j].lines)
  }

  function RoundOf(lines: seq<Line>, trim: Line -> Line, s: State, round: Round, max: nat): State {
    match round
    case Fails => s
    case Sees(m) =>
      var log := Joined(if m <= |lines| then lines[..m] else lines);
      if s.offset >= |log| then s else Moved(s, trim, Chunk(log[s.offset..], max))
  }

  function Run(lines: seq<Line>, trim: Line -> Line, rounds: seq<Round>, max: nat): (s: State) {
    if rounds == [] then State(0, [])
    else RoundOf(lines, trim, Run(lines, trim, rounds[..|rounds| - 1], max), rounds[|rounds| - 1], max)
  }

  /** The pump stands at the beginning of line `k` and has handed on exactly the lines before it. */
  predicate AtLine(lines: seq<Line>, trim: Line -> Line, s: State, k: nat) {
    k <= |lines| && s.offset == |Joined(lines[..k])| && s.out == Kept(trim, lines[..k])
  }

  lemma {:induction false} JoinedSplits(lines: seq<Line>, k: nat)
    requires k <= |lines|
    ensures Joined(lines) == Joined(lines[..k]) + Joined(lines[k..])
  {
    if k == 0 {
      assert lines[..0] == [] && lines[0..] == lines;
    } else {
      JoinedSplits(lines[1..], k - 1);
      assert lines[..k][1..] == lines[1..][..k - 1] && lines[1..][k - 1..] == lines[k..];
    }
  }

  lemma {:induction false} JoinedLength(lines: seq<Line>, m: nat, k: nat)
    requires k <= m <= |lines|
    ensures |Joined(lines[..k])| <= |Joined(lines[..m])|
    ensures k < m ==> |Joined(lines[..k])| < |Joined(lines[..m])|
  {
    JoinedSplits(lines[..m], k);
    assert lines[..m][..k] == lines[..k];
  }

  lemma AheadOf(lines: seq<Line>, k: nat, m: nat)
    requires AllPlain(lines) && k <= m <= |lines|
    ensures AllPlain(lines[..m][k..]) && |Joined(lines[..k])| <= |Joined(lines[..m])|
    ensures Joined(lines[..m])[|Joined(lines[..k])|..] == Joined(lines[..m][k..])
  {
    JoinedSplits(lines[..m], k);
    assert lines[..m][..k] == lines[..k];
    assert forall i :: 0 <= i < m - k ==> lines[..m][k..][i] == lines[k + i];
  }

  lemma AdvanceTo(lines: seq<Line>, trim: Line -> Line, k: nat, m: nat, n: nat)
    requires k <= m <= |lines| && n <= m - k
    ensures |Joined(lines[..k])| + |Joined(lines[..m][k..][..n])| == |Joined(lines[..k + n])|
    ensures Kept(trim, lines[..k]) + Kept(trim, lines[..m][k..][..n]) == Kept(trim, lines[..k + n])
  {
    JoinedSplits(lines[..k + n], k);
    assert lines[..k + n][..k] == lines[..k];
    assert lines[..k + n][k..] == lines[..m][k..][..n];
    KeptOfBoth(trim, lines[..k], lines[..m][k..][..n]);
    assert lines[..k] + lines[..m][k..][..n] == lines[..k + n];
  }

  /** No line that is whole within a number of bytes is longer than that. */
  lemma {:induction false} WholeLinesFit(lines: seq<Line>, n: nat, i: nat)
    requires i < WholeIn(lines, n)
    ensures |lines[i]| < n
  {
    if i > 0 {
      WholeLinesFit(lines[1..], n - |lines[0]| - 1, i - 1);
    }
  }

  /** What is ahead of a pump that stands at a line. */
  lemma AheadOfLine(lines: seq<Line>, trim: Line -> Line, s: State, k: nat, m: nat)
    requires AllPlain(lines) && AtLine(lines, trim, s, k) && k < m <= |lines|
    ensures s.offset < |Joined(lines[..m])| && Joined(lines[..m])[s.offset..] == Joined(lines[..m][k..])
    ensures AllPlain(lines[..m][k..]) && lines[..m][k..][0] == lines[k]
  {
    AheadOf(lines, k, m);
    JoinedLength(lines, m, k);
  }

  /** A round at a line that fits moves on by the whole lines of its chunk. */
  lemma RoundLands(lines: seq<Line>, trim: Line -> Line, s: State, k: nat, m: nat, max: nat)
    requires AllPlain(lines) && AtLine(lines, trim, s, k) && k < m <= |lines| && |lines[k]| < max
    ensures 0 < WholeIn(lines[..m][k..], max)
    ensures AtLine(lines, trim, RoundOf(lines, trim, s, Sees(m), max), k + WholeIn(lines[..m][k..], max))
  {
    var ahead := lines[..m][k..];
    AheadOfLine(lines, trim, s, k, m);
    RoundIsWholeExactlyWhen(s, trim, ahead, max);
    AdvanceTo(lines, trim, k, m, WholeIn(ahead, max));
  }

  lemma DealtWithFit(lines: seq<Line>, k: nat, m: nat, max: nat)
    requires k <= m <= |lines|
    ensures forall i :: k <= i < k + WholeIn(lines[..m][k..], max) ==> |lines[i]| < max
  {
    var ahead := lines[..m][k..];
    forall i | k <= i < k + WholeIn(ahead, max) ensures |lines[i]| < max {
      WholeLinesFit(ahead, max, i - k);
      assert ahead[i - k] == lines[i];
    }
  }

  /** From the beginning of a line that fits, a round gets to a later one, past lines that fit. */
  lemma RoundFromLine(lines: seq<Line>, trim: Line -> Line, s: State, k: nat, m: nat, max: nat) returns (j: nat)
    requires AllPlain(lines) && AtLine(lines, trim, s, k) && k < m <= |lines| && |lines[k]| < max
    ensures k < j <= m && AtLine(lines, trim, RoundOf(lines, trim, s, Sees(m), max), j)
    ensures forall i :: k <= i < j ==> |lines[i]| < max
  {
    j := k + WholeIn(lines[..m][k..], max);
    RoundLands(lines, trim, s, k, m, max);
    DealtWithFit(lines, k, m, max);
  }

  /** If every line fits, every round ends at the beginning of a line. */
  lemma {:induction false} FittingLinesStayWhole(lines: seq<Line>, trim: Line -> Line, rounds: seq<Round>, max: nat) returns (k: nat)
    requires AllPlain(lines) && (forall i :: 0 <= i < |lines| ==> |lines[i]| < max) && Growing(lines, rounds)
    ensures AtLine(lines, trim, Run(lines, trim, rounds, max), k)
  {
    if rounds == [] {
      k := 0;
      assert lines[..0] == [];
    } else {
      var n := |rounds| - 1;
      k := FittingLinesStayWhole(lines, trim, rounds[..n], max);
      var s := Run(lines, trim, rounds[..n], max);
      if rounds[n].Sees? {
        var m := rounds[n].lines;
        if m <= k {
          JoinedLength(lines, k, m);
        } else {
          k := RoundFromLine(lines, trim, s, k, m, max);
        }
      }
    }
  }

  /** Rounds that see the whole log bring the pump to the first line that does not fit. */
  lemma {:induction false} ReachesTheLongLine(lines: seq<Line>, trim: Line -> Line, k: nat, long: nat, rounds: seq<Round>, max: nat)
    returns (more: seq<Round>)
    requires AllPlain(lines) && k <= long < |lines| && |lines[long]| >= max && forall i :: 0 <= i < long ==> |lines[i]| < max
    requires AtLine(lines, trim, Run(lines, trim, rounds, max), k) && forall i :: 0 <= i < |rounds| ==> rounds[i] == Sees(|lines|)
    ensures AtLine(lines, trim, Run(lines, trim, more, max), long) && forall i :: 0 <= i < |more| ==> more[i] == Sees(|lines|)
    decreases long - k
  {
    more := rounds;
    if k < long {
      var longer := rounds + [Sees(|lines|)];
      assert longer[..|longer| - 1] == rounds;
      var j := RoundFromLine(lines, trim, Run(lines, trim, rounds, max), k, |lines|, max);
      more := ReachesTheLongLine(lines, trim, j, long, longer, max);
    }
  }

  /** A round at a line that does not fit leaves the pump inside it. */
  lemma LongLineLeavesNoLine(lines: seq<Line>, trim: Line -> Line, s: State, long: nat, max: nat, k: nat)
    requires AllPlain(lines) && long < |lines| && 0 < max <= |lines[long]| && AtLine(lines, trim, s, long)
    ensures !AtLine(lines, trim, RoundOf(lines, trim, s, Sees(|lines|), max), k)
  {
    var n := |lines|;
    AheadOfLine(lines, trim, s, long, n);
    LongLineIsTorn(s, trim, lines[..n][long..], max);
    assert RoundOf(lines, trim, s, Sees(n), max).offset == s.offset + max;
    JoinedGrows(lines[..long], lines[long]);
    assert lines[..long] + [lines[long]] == lines[..long + 1];
    if k <= long {
      JoinedLength(lines, long, k);
    } else if k <= n {
      JoinedLength(lines, k, long + 1);
    }
  }

  ghost predicate WholeAfter(lines: seq<Line>, trim: Line -> Line, rounds: seq<Round>, max: nat) {
    exists k :: AtLine(lines, trim, Run(lines, trim, rounds, max), k)
  }

  lemma FirstLongLine(lines: seq<Line>, max: nat) returns (long: nat)
    requires exists i :: 0 <= i < |lines| && |lines[i]| >= max
    ensures long < |lines| && |lines[long]| >= max && forall i :: 0 <= i < long ==> |lines[i]| < max
  {
    long := 0;
    while |lines[long]| < max
      invariant long < |lines| && forall i :: 0 <= i < long ==> |lines[i]| < max
      decreases |lines| - long
    {
      long := long + 1;
    }
  }

  /** However the log grows line by line and whichever reads fail, the pump always stands at the
      beginning of a line and has handed on exactly the lines before it, each once, in order, trimmed
      and without blanks, exactly when every line with its newline fits in what a round may read. */
  lemma PumpIsWholeExactlyWhen(lines: seq<Line>, trim: Line -> Line, max: nat)
    requires AllPlain(lines) && max > 0
    ensures (forall rounds: seq<Round> :: Growing(lines, rounds) ==> WholeAfter(lines, trim, rounds, max)) <==>
            (forall i :: 0 <= i < |lines| ==> |lines[i]| + 1 <= max)
  {
    if forall i :: 0 <= i < |lines| ==> |lines[i]| + 1 <= max {
      forall rounds: seq<Round> | Growing(lines, rounds) ensures WholeAfter(lines, trim, rounds, max) {
        var k := FittingLinesStayWhole(lines, trim, rounds, max);
      }
    } else {
      var long := FirstLongLine(lines, max);
      assert lines[..0] == [];
      assert AtLine(lines, trim, Run(lines, trim, [], max), 0);
      var rounds := ReachesTheLongLine(lines, trim, 0, long, [], max);
      var torn := rounds + [Sees(|lines|)];
      assert torn[..|torn| - 1] == rounds;
      forall k ensures !AtLine(lines, trim, Run(lines, trim, torn, max), k) {
        LongLineLeavesNoLine(lines, trim, Run(lines, trim, rounds, max), long, max, k);
      }
      assert !WholeAfter(lines, trim, torn, max);
      assert Growing(lines, torn);
    }
  }
}

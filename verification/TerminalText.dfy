/**
 The terminal-sequence normaliser of the secret scrubber. Text is accepted exactly when it can be read as
 clean characters and whole SGR or OSC sequences (ECMA-48, section 5.4, and the OSC string form), and what
 comes out is the clean characters; anything else that could move the cursor makes the field malformed.
 */
module TerminalTexts {
  import opened Outcomes
  import opened Utf16

  const ESCAPE := 0x1b
  const BELL := 0x07
  const STRING_TERMINATOR := 0x9c
  const MAX_SEQUENCE := 8_192

  // ---- The reading -------------------------------------------------------------------------------

  /** No control character, except tab, newline, and a return that a newline follows. */
  predicate CleanAt(s: Text, i: nat)
    requires i < |s|
  {
    var c := s[i];
    if c == 0x0d then i + 1 < |s| && s[i + 1] == 0x0a
    else (c >= 0x20 || c == 0x09 || c == 0x0a) && c != 0x7f && !(0x80 <= c <= 0x9f)
  }

  /** The length of the introducer, in its one-byte or its escaped form; zero when there is none. */
  function Introducer(s: Text, single: int, escaped: int): nat {
    if |s| >= 1 && s[0] == single then 1
    else if |s| >= 2 && s[0] == ESCAPE && s[1] == escaped then 2
    else 0
  }

  /** A select-graphic-rendition sequence: parameters, then the final letter m. */
  predicate IsSgr(s: Text) {
    var p := Introducer(s, 0x9b, 0x5b);
    && p > 0 && p < |s| <= MAX_SEQUENCE && s[|s| - 1] == 0x6d
    && (forall i :: p <= i < |s| - 1 ==> 0x30 <= s[i] <= 0x3f)
  }

  predicate TerminatesAt(s: Text, i: nat)
    requires i < |s|
  {
    s[i] == BELL || s[i] == STRING_TERMINATOR || (s[i] == ESCAPE && i + 1 < |s| && s[i + 1] == 0x5c)
  }

  /** An operating-system command, up to and including its first terminator. */
  predicate IsOsc(s: Text) {
    var p := Introducer(s, 0x9d, 0x5d);
    && p > 0 && |s| <= MAX_SEQUENCE
    && (exists i :: p <= i < |s| && TerminatesAt(s, i) && |s| == i + (if s[i] == ESCAPE then 2 else 1)
          && forall j :: p <= j < i ==> !TerminatesAt(s, j))
  }

  predicate IsSequence(s: Text) {
    IsSgr(s) || IsOsc(s)
  }

  /** The text reads as clean characters, which are kept, and whole sequences, which are not. */
  ghost predicate Reads(s: Text, kept: Text)
    decreases |s|
  {
    if s == [] then kept == []
    else if CleanAt(s, 0) then kept != [] && kept[0] == s[0] && Reads(s[1..], kept[1..])
    else exists n :: 0 < n <= |s| && IsSequence(s[..n]) && Reads(s[n..], kept)
  }

  predicate AllClean(s: Text) {
    forall i :: 0 <= i < |s| ==> CleanAt(s, i)
  }

  /** A whole sequence is not the beginning of a longer one. */
  lemma LongerIsNone(s: Text, n: nat, m: nat)
    requires n < m <= |s| && IsSequence(s[..n])
    ensures !IsSequence(s[..m])
  {
    var a, b := s[..n], s[..m];
    assert forall i :: 0 <= i < n ==> a[i] == b[i];
    assert |a| >= 2;
    if IsSgr(a) {
      assert b[n - 1] == 0x6d;
    } else {
      var p := Introducer(a, 0x9d, 0x5d);
      var i :| p <= i < |a| && TerminatesAt(a, i) && |a| == i + (if a[i] == ESCAPE then 2 else 1);
      assert TerminatesAt(b, i);
    }
  }

  /** No sequence starts with a clean character, and a position starts at most one sequence. */
  lemma SequenceUnique(s: Text, n: nat, m: nat)
    requires n <= |s| && m <= |s| && IsSequence(s[..n]) && IsSequence(s[..m])
    ensures n == m && n > 0 && !CleanAt(s, 0)
  {
    if n < m { LongerIsNone(s, n, m); }
    if m < n { LongerIsNone(s, m, n); }
    FirstUnclean(s, n);
  }

  lemma FirstUnclean(s: Text, n: nat)
    requires n <= |s| && IsSequence(s[..n])
    ensures n > 0 && !CleanAt(s, 0)
  {
    assert s[..n][0] == s[0];
  }

  /** Every rendition sequence of the standard is one: either introducer, any parameters. */
  lemma SgrIs(introducer: Text, parameters: Text)
    requires introducer == [0x9b] || introducer == [ESCAPE, 0x5b]
    requires |introducer| + |parameters| + 1 <= MAX_SEQUENCE && forall i :: 0 <= i < |parameters| ==> 0x30 <= parameters[i] <= 0x3f
    ensures IsSequence(introducer + parameters + [0x6d])
  {
    var s := introducer + parameters + [0x6d];
    assert Introducer(s, 0x9b, 0x5b) == |introducer|;
    assert forall i :: |introducer| <= i < |s| - 1 ==> s[i] == parameters[i - |introducer|];
  }

  /** And so is every command string: either introducer, any text, any of the three terminators. */
  lemma OscIs(introducer: Text, body: Text, terminator: Text)
    requires introducer == [0x9d] || introducer == [ESCAPE, 0x5d]
    requires terminator == [BELL] || terminator == [STRING_TERMINATOR] || terminator == [ESCAPE, 0x5c]
    requires |introducer| + |body| + |terminator| <= MAX_SEQUENCE
    requires forall i :: 0 <= i < |body| ==> body[i] != BELL && body[i] != STRING_TERMINATOR && body[i] != ESCAPE
    ensures IsSequence(introducer + body + terminator)
  {
    var s, p, i := introducer + body + terminator, |introducer|, |introducer| + |body|;
    assert Introducer(s, 0x9d, 0x5d) == p;
    assert s[i] == terminator[0] && (|terminator| == 2 ==> s[i + 1] == terminator[1]);
    assert TerminatesAt(s, i);
    assert forall j :: p <= j < i ==> s[j] == body[j - p];
    assert forall j :: p <= j < i ==> !TerminatesAt(s, j);
  }

  /** A sequence in front of a text changes nothing about what is kept of it. */
  lemma SequenceIsDropped(q: Text, s: Text, kept: Text)
    requires IsSequence(q) && Reads(s, kept)
    ensures Reads(q + s, kept)
  {
    assert (q + s)[..|q|] == q && (q + s)[|q|..] == s;
    FirstUnclean(q + s, |q|);
  }

  /** Text that reads at all reads in one way. */
  lemma {:induction false} ReadsUniquely(s: Text, a: Text, b: Text)
    requires Reads(s, a) && Reads(s, b)
    ensures a == b
    decreases |s|
  {
    if s == [] {
    } else if CleanAt(s, 0) {
      ReadsUniquely(s[1..], a[1..], b[1..]);
      assert a == [a[0]] + a[1..] && b == [b[0]] + b[1..];
    } else {
      var n :| 0 < n <= |s| && IsSequence(s[..n]) && Reads(s[n..], a);
      var m :| 0 < m <= |s| && IsSequence(s[..m]) && Reads(s[m..], b);
      SequenceUnique(s, n, m);
      ReadsUniquely(s[n..], a, b);
    }
  }

  /** What is kept is clean throughout. */
  lemma {:induction false} KeptIsClean(s: Text, kept: Text)
    requires Reads(s, kept)
    ensures AllClean(kept)
    decreases |s|
  {
    if s == [] {
    } else if CleanAt(s, 0) {
      KeptIsClean(s[1..], kept[1..]);
      forall i | 0 <= i < |kept| ensures CleanAt(kept, i) {
        if i > 0 { assert CleanAt(kept[1..], i - 1); }
      }
    } else {
      var n :| 0 < n <= |s| && IsSequence(s[..n]) && Reads(s[n..], kept);
      KeptIsClean(s[n..], kept);
    }
  }

  /** Clean text reads as itself. */
  lemma {:induction false} CleanReadsAsItself(s: Text)
    requires AllClean(s)
    ensures Reads(s, s)
    decreases |s|
  {
    if s != [] {
      forall i | 0 <= i < |s[1..]| ensures CleanAt(s[1..], i) { assert CleanAt(s, i + 1); }
      CleanReadsAsItself(s[1..]);
    }
  }

  // ---- The scan ----------------------------------------------------------------------------------

  /** Where a sequence ends, or that what begins here is none that may be removed. */
  datatype Sequence = Whole(end: nat) | Malformed

  /** What the scanners promise about the text from `start` on. */
  ghost predicate Scanned(s: Text, start: nat, r: Sequence) {
    && start <= |s|
    && (r.Whole? ==> start < r.end <= |s| && IsSequence(s[start..r.end]))
    && (r.Malformed? ==> forall n :: start < n <= |s| ==> !IsSequence(s[start..n]))
  }

  method ControlSequenceEnd(s: Text, start: nat, content: nat) returns (r: Sequence)
    requires start < content <= |s| && content - start == Introducer(s[start..], 0x9b, 0x5b)
    ensures Scanned(s, start, r)
  {
    var cursor, intermediate, malformed := content, false, false;
    ghost var p := content - start;
    while cursor < |s|
      invariant content <= cursor <= |s|
      invariant forall i :: content <= i < cursor ==> !(0x40 <= s[i] <= 0x7e)
      invariant !malformed && !intermediate <==> forall i :: content <= i < cursor ==> 0x30 <= s[i] <= 0x3f
    {
      if cursor - start >= MAX_SEQUENCE {
        NoSgr(s, start, content, cursor);
        return Malformed;
      }
      var code := s[cursor];
      if 0x40 <= code <= 0x7e {
        var end := cursor + 1;
        SgrAt(s, start, content, cursor);
        return if malformed || intermediate || code != 0x6d || end - start > MAX_SEQUENCE then Malformed else Whole(end);
      }
      if 0x20 <= code <= 0x2f { intermediate := true; }
      else if code < 0x30 || code > 0x3f || intermediate { malformed := true; }
      cursor := cursor + 1;
    }
    NoSgr(s, start, content, cursor);
    return Malformed;
  }

  /** The first final byte decides: the sequence is an SGR sequence up to it or nothing is. */
  lemma SgrAt(s: Text, start: nat, content: nat, cursor: nat)
    requires start < content <= cursor < |s| && content - start == Introducer(s[start..], 0x9b, 0x5b)
    requires cursor - start < MAX_SEQUENCE && 0x40 <= s[cursor] <= 0x7e
    requires forall i :: content <= i < cursor ==> !(0x40 <= s[i] <= 0x7e)
    ensures var whole := s[cursor] == 0x6d && forall i :: content <= i < cursor ==> 0x30 <= s[i] <= 0x3f;
      if whole then IsSequence(s[start..cursor + 1]) else forall n :: start < n <= |s| ==> !IsSequence(s[start..n])
  {
    var whole := s[cursor] == 0x6d && forall i :: content <= i < cursor ==> 0x30 <= s[i] <= 0x3f;
    if whole {
      var t := s[start..cursor + 1];
      assert forall i :: 0 <= i < |t| ==> t[i] == s[start + i];
      assert IsSgr(t);
    } else {
      forall n | start < n <= |s| ensures !IsSequence(s[start..n]) {
        var t := s[start..n];
        assert forall i :: 0 <= i < |t| ==> t[i] == s[start + i];
        assert content <= cursor < n ==> t[cursor - start] == s[cursor];
        assert forall i :: content <= i < cursor && i < n ==> t[i - start] == s[i];
      }
    }
  }

  lemma NoSgr(s: Text, start: nat, content: nat, cursor: nat)
    requires start < content <= cursor <= |s| && content - start == Introducer(s[start..], 0x9b, 0x5b)
    requires forall i :: content <= i < cursor ==> !(0x40 <= s[i] <= 0x7e)
    requires cursor == |s| || cursor - start >= MAX_SEQUENCE
    ensures forall n :: start < n <= |s| ==> !IsSequence(s[start..n])
  {
    forall n | start < n <= |s| ensures !IsSequence(s[start..n]) {
      var t := s[start..n];
      assert forall i :: 0 <= i < |t| ==> t[i] == s[start + i];
    }
  }

  method TerminalStringEnd(s: Text, start: nat, content: nat) returns (r: Sequence)
    requires start < content <= |s| && content - start == Introducer(s[start..], 0x9d, 0x5d)
    ensures Scanned(s, start, r)
  {
    var cursor := content;
    while cursor < |s|
      invariant content <= cursor <= |s|
      invariant forall i :: content <= i < cursor ==> !TerminatesAt(s, i)
    {
      if cursor - start >= MAX_SEQUENCE {
        NoOsc(s, start, content, cursor);
        return Malformed;
      }
      var code := s[cursor];
      if code == BELL || code == STRING_TERMINATOR {
        OscAt(s, start, content, cursor);
        return if cursor + 1 - start > MAX_SEQUENCE then Malformed else Whole(cursor + 1);
      }
      if code == ESCAPE && cursor + 1 < |s| && s[cursor + 1] == 0x5c {
        OscAt(s, start, content, cursor);
        return if cursor + 2 - start > MAX_SEQUENCE then Malformed else Whole(cursor + 2);
      }
      cursor := cursor + 1;
    }
    NoOsc(s, start, content, cursor);
    return Malformed;
  }

  /** The first terminator decides. */
  lemma OscAt(s: Text, start: nat, content: nat, cursor: nat)
    requires start < content <= cursor < |s| && content - start == Introducer(s[start..], 0x9d, 0x5d)
    requires TerminatesAt(s, cursor) && forall i :: content <= i < cursor ==> !TerminatesAt(s, i)
    ensures var end := cursor + if s[cursor] == ESCAPE then 2 else 1;
      if end - start <= MAX_SEQUENCE then IsSequence(s[start..end]) else forall n :: start < n <= |s| ==> !IsSequence(s[start..n])
  {
    var end := cursor + if s[cursor] == ESCAPE then 2 else 1;
    if end - start <= MAX_SEQUENCE {
      var t := s[start..end];
      assert forall i :: 0 <= i < |t| ==> t[i] == s[start + i];
      assert TerminatesAt(t, cursor - start);
      assert forall j :: content - start <= j < cursor - start ==> (TerminatesAt(t, j) ==> TerminatesAt(s, start + j));
      assert IsOsc(t);
    } else {
      forall n | start < n <= |s| ensures !IsSequence(s[start..n]) {
        EndsAtTerminator(s, start, content, cursor, n);
      }
    }
  }

  /** Whatever OSC sequence begins at `start` does not end before the first terminator's end. */
  lemma EndsAtTerminator(s: Text, start: nat, content: nat, cursor: nat, n: nat)
    requires start < content <= cursor <= |s| && content - start == Introducer(s[start..], 0x9d, 0x5d) && start < n <= |s|
    requires forall i :: content <= i < cursor ==> !TerminatesAt(s, i)
    ensures IsSequence(s[start..n]) ==> cursor < |s| && n >= cursor + (if s[cursor] == ESCAPE && TerminatesAt(s, cursor) then 2 else 1)
  {
    var t := s[start..n];
    assert forall i :: 0 <= i < |t| ==> t[i] == s[start + i];
    if IsOsc(t) {
      var p := Introducer(t, 0x9d, 0x5d);
      var i :| p <= i < |t| && TerminatesAt(t, i) && |t| == i + (if t[i] == ESCAPE then 2 else 1);
      assert TerminatesAt(s, start + i);
    }
  }

  lemma NoOsc(s: Text, start: nat, content: nat, cursor: nat)
    requires start < content <= cursor <= |s| && content - start == Introducer(s[start..], 0x9d, 0x5d)
    requires forall i :: content <= i < cursor ==> !TerminatesAt(s, i)
    requires cursor == |s| || cursor - start >= MAX_SEQUENCE
    ensures forall n :: start < n <= |s| ==> !IsSequence(s[start..n])
  {
    forall n | start < n <= |s| ensures !IsSequence(s[start..n]) {
      EndsAtTerminator(s, start, content, cursor, n);
      var t := s[start..n];
      assert IsSequence(t) ==> |t| <= MAX_SEQUENCE;
    }
  }

  /** What follows an escape: a control sequence, a command string, or something never removed. */
  method EscapeSequenceEnd(s: Text, start: nat) returns (r: Sequence)
    requires start < |s| && s[start] == ESCAPE
    ensures Scanned(s, start, r)
  {
    if start + 1 < |s| && s[start + 1] == 0x5b {
      r := ControlSequenceEnd(s, start, start + 2);
    } else if start + 1 < |s| && s[start + 1] == 0x5d {
      r := TerminalStringEnd(s, start, start + 2);
    } else {
      NoIntroducer(s, start);
      r := Malformed;
    }
  }

  lemma NoIntroducer(s: Text, start: nat)
    requires start < |s| && Introducer(s[start..], 0x9b, 0x5b) == 0 && Introducer(s[start..], 0x9d, 0x5d) == 0
    ensures forall n :: start < n <= |s| ==> !IsSequence(s[start..n])
  {
    forall n | start < n <= |s| ensures !IsSequence(s[start..n]) {
      var t := s[start..n];
      assert forall i :: 0 <= i < |t| ==> t[i] == s[start + i] == s[start..][i];
    }
  }

  /** None when the character is clean. */
  method TerminalSequenceAt(s: Text, start: nat) returns (r: Option<Sequence>)
    requires start < |s|
    ensures r.None? <==> CleanAt(s, start)
    ensures r.Some? ==> Scanned(s, start, r.value)
  {
    var code := s[start];
    if code == ESCAPE {
      var sequence := EscapeSequenceEnd(s, start);
      return Some(sequence);
    }
    if code == 0x9b {
      var sequence := ControlSequenceEnd(s, start, start + 1);
      return Some(sequence);
    }
    if code == 0x9d {
      var sequence := TerminalStringEnd(s, start, start + 1);
      return Some(sequence);
    }
    NoIntroducer(s, start);
    if code == 0x0d {
      return if start + 1 < |s| && s[start + 1] == 0x0a then None else Some(Malformed);
    }
    if (code < 0x20 && code != 0x09 && code != 0x0a) || code == 0x7f || 0x80 <= code <= 0x9f {
      return Some(Malformed);
    }
    return None;
  }

  /** The scan finds the reading of the text when there is one, and only then. */
  method NormalizeTerminalText(value: Text) returns (r: Option<Text>)
    ensures forall kept :: Reads(value, kept) <==> r == Some(kept)
    ensures r.Some? ==> AllClean(r.value)
  {
    hide Reads, Resumes, CleanAt, AllClean, IsSequence;
    var chunks: Text, copiedUntil: nat, cursor: nat := [], 0, 0;
    ResumesAtStart(value);
    assert chunks + value[copiedUntil..cursor] == [];
    while cursor < |value|
      invariant copiedUntil <= cursor <= |value|
      invariant Resumes(value, chunks + value[copiedUntil..cursor], cursor)
    {
      ghost var done := chunks + value[copiedUntil..cursor];
      var sequence := TerminalSequenceAt(value, cursor);
      if sequence.None? {
        ResumesAfterClean(value, done, cursor);
        assert chunks + value[copiedUntil..cursor + 1] == done + [value[cursor]];
        cursor := cursor + 1;
        continue;
      }
      if sequence.value.Malformed? {
        ReadsNothing(value, done, cursor);
        return None;
      }
      ResumesAfterSequence(value, done, cursor, sequence.value.end);
      if copiedUntil < cursor { chunks := chunks + value[copiedUntil..cursor]; }
      cursor := sequence.value.end;
      copiedUntil := cursor;
      assert chunks + value[copiedUntil..cursor] == done;
    }
    ghost var all := chunks + value[copiedUntil..cursor];
    if copiedUntil < |value| { chunks := chunks + value[copiedUntil..]; }
    assert chunks == all;
    ReadsAs(value, chunks);
    return Some(chunks);
  }

  lemma ReadsAs(value: Text, kept: Text)
    requires Resumes(value, kept, |value|)
    ensures AllClean(kept) && forall other :: Reads(value, other) <==> other == kept
  {
    assert value[|value|..] == [] && kept + [] == kept;
    assert Reads(value, kept);
    KeptIsClean(value, kept);
    forall other | Reads(value, other) ensures other == kept { ReadsUniquely(value, other, kept); }
  }

  /** Having kept `done`, the whole reads exactly when the rest does. */
  ghost predicate Resumes(value: Text, done: Text, cursor: nat)
    requires cursor <= |value|
  {
    && (forall rest :: Reads(value[cursor..], rest) ==> Reads(value, done + rest))
    && (Readable(value) ==> Readable(value[cursor..]))
  }

  ghost predicate Readable(s: Text) {
    exists kept :: Reads(s, kept)
  }

  lemma ResumesAtStart(value: Text)
    ensures Resumes(value, [], 0)
  {
    assert value[0..] == value;
    forall rest: Text ensures [] + rest == rest {}
  }

  lemma ResumesAfterClean(value: Text, done: Text, cursor: nat)
    requires cursor < |value| && Resumes(value, done, cursor) && CleanAt(value, cursor)
    ensures Resumes(value, done + [value[cursor]], cursor + 1)
  {
    var s := value[cursor..];
    assert CleanAt(s, 0) && s[1..] == value[cursor + 1..];
    forall rest | Reads(value[cursor + 1..], rest) ensures Reads(value, done + [value[cursor]] + rest) {
      var whole := [value[cursor]] + rest;
      assert whole[1..] == rest && Reads(s, whole);
      assert done + whole == done + [value[cursor]] + rest;
    }
    if Readable(value) {
      var rest :| Reads(s, rest);
      assert Reads(value[cursor + 1..], rest[1..]);
    }
  }

  lemma ResumesAfterSequence(value: Text, done: Text, cursor: nat, end: nat)
    requires cursor < end <= |value| && Resumes(value, done, cursor) && !CleanAt(value, cursor) && IsSequence(value[cursor..end])
    ensures Resumes(value, done, end)
  {
    var s, n := value[cursor..], end - cursor;
    assert !CleanAt(s, 0) && s[..n] == value[cursor..end] && s[n..] == value[end..];
    forall rest | Reads(value[end..], rest) ensures Reads(value, done + rest) {
      assert Reads(s, rest);
    }
    if Readable(value) {
      var rest :| Reads(s, rest);
      var m :| 0 < m <= |s| && IsSequence(s[..m]) && Reads(s[m..], rest);
      SequenceUnique(s, n, m);
    }
  }

  lemma ReadsNothing(value: Text, done: Text, cursor: nat)
    requires cursor < |value| && Resumes(value, done, cursor) && !CleanAt(value, cursor)
    requires forall n :: cursor < n <= |value| ==> !IsSequence(value[cursor..n])
    ensures forall kept :: !Reads(value, kept)
  {
    var s := value[cursor..];
    assert !CleanAt(s, 0);
    forall rest ensures !Reads(s, rest) {
      forall n | 0 < n <= |s| ensures !IsSequence(s[..n]) { assert s[..n] == value[cursor..cursor + n]; }
    }
    assert !Readable(s);
  }

  /** Input validation: whether any character is not clean. */
  method HasRejectedInputControl(value: Text) returns (rejected: bool)
    ensures rejected <==> !AllClean(value)
  {
    var cursor := 0;
    while cursor < |value|
      invariant cursor <= |value| && forall i :: 0 <= i < cursor ==> CleanAt(value, i)
    {
      var code := value[cursor];
      if code == 0x0d {
        if cursor + 1 >= |value| || value[cursor + 1] != 0x0a {
          assert !CleanAt(value, cursor);
          return true;
        }
        cursor := cursor + 2;
      } else if code == 0x09 || code == 0x0a {
        cursor := cursor + 1;
      } else if code < 0x20 || code == 0x7f || 0x80 <= code <= 0x9f {
        assert !CleanAt(value, cursor);
        return true;
      } else {
        cursor := cursor + 1;
      }
    }
    return false;
  }

  /** What the normaliser gives passes the input check and is left alone by a second pass. */
  lemma FixedPoint(value: Text, kept: Text)
    requires Reads(value, kept)
    ensures AllClean(kept) && forall again :: Reads(kept, again) <==> again == kept
  {
    KeptIsClean(value, kept);
    CleanReadsAsItself(kept);
    forall again | Reads(kept, again) ensures again == kept { ReadsUniquely(kept, again, kept); }
  }
}

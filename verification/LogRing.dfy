/**
 The log tail kept for support bundles: a ring of the newest complete log lines, fed by writes
 that may split lines anywhere.
 */
module LogRing {

  /* -------------------------------------------------------- what a byte stream says */

  const NEWLINE: char := '\n'

  // IndexByte: the first newline, or -1.
  function FirstNewline(s: string): (i: int)
    ensures -1 <= i < |s|
    ensures i < 0 ==> NEWLINE !in s
    ensures i >= 0 ==> s[i] == NEWLINE && NEWLINE !in s[..i]
  {
    if s == "" then -1
    else if s[0] == NEWLINE then 0
    else
      var i := FirstNewline(s[1..]);
      if i < 0 then -1 else
      assert s[..i + 1] == [s[0]] + s[1..][..i];
      i + 1
  }

  // The complete lines of a stream and the unfinished one, byte by byte: a newline ends a line.
  ghost function Lines(s: string): seq<string> {
    if s == "" then []
    else
      var before := s[..|s| - 1];
      if s[|s| - 1] == NEWLINE then Lines(before) + [Rest(before)] else Lines(before)
  }

  ghost function Rest(s: string): string {
    if s == "" || s[|s| - 1] == NEWLINE then "" else Rest(s[..|s| - 1]) + [s[|s| - 1]]
  }

  lemma NextByte(s: string, c: char)
    ensures Lines(s + [c]) == if c == NEWLINE then Lines(s) + [Rest(s)] else Lines(s)
    ensures Rest(s + [c]) == if c == NEWLINE then "" else Rest(s) + [c]
  {
    assert (s + [c])[..|s|] == s;
  }

  ghost function Joined(lines: seq<string>): string {
    if lines == [] then "" else Joined(lines[..|lines| - 1]) + lines[|lines| - 1] + [NEWLINE]
  }

  // Lines and rest, put back together, are the stream.
  lemma {:induction false} LinesCutTheStream(s: string)
    ensures Joined(Lines(s)) + Rest(s) == s
  {
    if s != "" {
      var before := s[..|s| - 1];
      LinesCutTheStream(before);
      assert s == before + [s[|s| - 1]];
      if s[|s| - 1] == NEWLINE {
        assert Lines(s)[..|Lines(s)| - 1] == Lines(before);
      }
    }
  }

  lemma {:induction false} LinesHoldNoNewline(s: string)
    ensures NEWLINE !in Rest(s) && forall i | 0 <= i < |Lines(s)| :: NEWLINE !in Lines(s)[i]
  {
    if s != "" {
      LinesHoldNoNewline(s[..|s| - 1]);
    }
  }

  lemma {:induction false} NoNewline(s: string)
    requires NEWLINE !in s
    ensures Lines(s) == [] && Rest(s) == s
  {
    if s != "" {
      NoNewline(s[..|s| - 1]);
      assert s == s[..|s| - 1] + [s[|s| - 1]];
    }
  }

  lemma LastByte(s: string, t: string)
    requires t != ""
    ensures s + t == (s + t[..|t| - 1]) + [t[|t| - 1]]
  {}

  // What one more byte does to a list of lines does not depend on the lines before.
  lemma SameFeed(done: seq<string>, lines: seq<string>, rest: string, c: char)
    ensures (if c == NEWLINE then (done + lines) + [rest] else done + lines)
            == done + if c == NEWLINE then lines + [rest] else lines
  {}

  // More bytes extend the unfinished line and whatever follows it; finished lines stay.
  lemma {:induction false} LinesExtend(s: string, t: string)
    ensures Lines(s + t) == Lines(s) + Lines(Rest(s) + t)
    ensures Rest(s + t) == Rest(Rest(s) + t)
  {
    if t == "" {
      LinesHoldNoNewline(s);
      NoNewline(Rest(s));
      assert s + t == s && Rest(s) + t == Rest(s);
    } else {
      var before, c := t[..|t| - 1], t[|t| - 1];
      LinesExtend(s, before);
      LastByte(s, t);
      LastByte(Rest(s), t);
      NextByte(s + before, c);
      NextByte(Rest(s) + before, c);
      SameFeed(Lines(s), Lines(Rest(s) + before), Rest(Rest(s) + before), c);
    }
  }

  // A line ended by a newline is the first, and the others follow.
  lemma FirstLine(line: string, tail: string)
    requires NEWLINE !in line
    ensures Lines(line + [NEWLINE] + tail) == [line] + Lines(tail) && Rest(line + [NEWLINE] + tail) == Rest(tail)
  {
    NoNewline(line);
    NextByte(line, NEWLINE);
    LinesExtend(line + [NEWLINE], tail);
    assert "" + tail == tail;
  }

  // A newline ends the unfinished line, and bytes without one begin the next.
  lemma CloseLine(head: string, rest: string)
    requires NEWLINE !in rest
    ensures Lines(head + [NEWLINE] + rest) == Lines(head) + [Rest(head)] && Rest(head + [NEWLINE] + rest) == rest
  {
    NextByte(head, NEWLINE);
    LinesExtend(head + [NEWLINE], rest);
    NoNewline(rest);
    assert "" + rest == rest;
  }

  // No other lines and rest make up the same stream.
  lemma {:induction false} CutIsUnique(lines: seq<string>, rest: string)
    requires NEWLINE !in rest && forall i | 0 <= i < |lines| :: NEWLINE !in lines[i]
    ensures Lines(Joined(lines) + rest) == lines && Rest(Joined(lines) + rest) == rest
    decreases |lines|
  {
    if lines == [] {
      assert Joined(lines) + rest == rest;
      NoNewline(rest);
    } else {
      var last := lines[|lines| - 1];
      var head := Joined(lines[..|lines| - 1]) + last;
      CutIsUnique(lines[..|lines| - 1], last);
      CloseLine(head, rest);
      assert lines == lines[..|lines| - 1] + [last];
    }
  }

  /* ------------------------------------------------------------------------ records */

  function Digits(n: nat): (r: string)
    ensures |r| >= 1
  {
    var c := ('0' as int + n % 10) as char;
    if n < 10 then [c] else Digits(n / 10) + [c]
  }

  const FALLBACK := "{\"truncated\":true}"

  // What stands in for a line over the limit.
  function BoundedLine(originalBytes: nat, limit: int): string {
    var line := "{\"truncated\":true,\"original_bytes\":" + Digits(originalBytes) + "}";
    if |line| <= limit then line else FALLBACK
  }

  // The replacement keeps the limit exactly when the limit leaves room for the fallback.
  lemma BoundedLineFits(originalBytes: nat, limit: int)
    ensures |BoundedLine(originalBytes, limit)| <= limit <==> limit >= 18
  {
    assert |FALLBACK| == 18;
  }

  function Record(line: string, limit: int): string {
    if limit > 0 && |line| > limit then BoundedLine(|line|, limit) else line
  }

  // The number a string of decimal digits stands for.
  ghost function ValueOf(d: string): int {
    if d == "" then 0 else 10 * ValueOf(d[..|d| - 1]) + (d[|d| - 1] as int - '0' as int)
  }

  ghost predicate Numeral(d: string, n: int) {
    && d != "" && (forall i | 0 <= i < |d| :: '0' <= d[i] <= '9')
    && (|d| > 1 ==> d[0] != '0') && ValueOf(d) == n
  }

  lemma {:induction false} DigitsReadBack(n: nat)
    ensures Numeral(Digits(n), n)
  {
    if n >= 10 {
      DigitsReadBack(n / 10);
      assert Digits(n)[..|Digits(n)| - 1] == Digits(n / 10);
      LeadingDigit(n / 10);
    } else {
      assert Digits(n)[..0] == "";
    }
  }

  lemma {:induction false} LeadingDigit(n: nat)
    requires n > 0
    ensures Digits(n)[0] != '0'
  {
    if n >= 10 {
      LeadingDigit(n / 10);
    }
  }

  // A line within the limit stands for itself; one over it is replaced by a note of its length,
  // or by a bare note where that would not fit either.
  ghost predicate StandsFor(record: string, line: string, limit: int) {
    if limit <= 0 || |line| <= limit then record == line
    else
      exists d | Numeral(d, |line|) ::
        record == if 36 + |d| <= limit then "{\"truncated\":true,\"original_bytes\":" + d + "}"
                  else "{\"truncated\":true}"
  }

  lemma RecordStandsFor(line: string, limit: int)
    ensures StandsFor(Record(line, limit), line, limit)
  {
    DigitsReadBack(|line|);
    var d := Digits(|line|);
    assert |"{\"truncated\":true,\"original_bytes\":" + d + "}"| == 36 + |d|;
  }

  // The records are, in order, what f makes of the lines at these places: all that are not empty.
  ghost predicate FiledBy(f: string -> string, records: seq<string>, lines: seq<string>, at: seq<nat>) {
    && |at| == |records|
    && (forall j | 0 <= j < |at| :: at[j] < |lines| && lines[at[j]] != "" && records[j] == f(lines[at[j]]))
    && (forall i, j | 0 <= i < j < |at| :: at[i] < at[j])
    && (forall i | 0 <= i < |lines| && lines[i] != "" :: i in at)
  }

  lemma OneMoreFiled(f: string -> string, records: seq<string>, lines: seq<string>, at: seq<nat>, line: string)
    requires FiledBy(f, records, lines, at) && line != ""
    ensures FiledBy(f, records + [f(line)], lines + [line], at + [|lines|])
  {
    var more, places := lines + [line], at + [|lines|];
    assert more[|lines|] == line && places[|at|] == |lines|;
    forall i | 0 <= i < |more| && more[i] != "" ensures i in places {
      assert i < |lines| ==> more[i] == lines[i];
    }
  }

  lemma NoneMoreFiled(f: string -> string, records: seq<string>, lines: seq<string>, at: seq<nat>)
    requires FiledBy(f, records, lines, at)
    ensures FiledBy(f, records, lines + [""], at)
  {
    var more := lines + [""];
    assert more[|lines|] == "";
    forall i | 0 <= i < |more| && more[i] != "" ensures i in at {
      assert more[i] == lines[i];
    }
  }

  ghost function Recording(limit: int): string -> string {
    line => Record(line, limit)
  }

  // Every line that is not empty has its record, in order, and there are no others.
  lemma {:induction false} EveryLineIsFiled(lines: seq<string>, limit: int) returns (at: seq<nat>)
    ensures FiledBy(Recording(limit), Records(lines, limit), lines, at)
  {
    at := [];
    if lines != [] {
      var n := |lines| - 1;
      at := EveryLineIsFiled(lines[..n], limit);
      LastRecord(lines, limit);
      if lines[n] == "" {
        NoneMoreFiled(Recording(limit), Records(lines[..n], limit), lines[..n], at);
      } else {
        OneMoreFiled(Recording(limit), Records(lines[..n], limit), lines[..n], at, lines[n]);
        at := at + [n];
      }
    }
  }

  lemma LastRecord(lines: seq<string>, limit: int)
    requires lines != []
    ensures var n := |lines| - 1;
            && lines == lines[..n] + [lines[n]]
            && Records(lines, limit) == Records(lines[..n], limit) + if lines[n] == "" then [] else [Recording(limit)(lines[n])]
  {
    var n := |lines| - 1;
    assert lines == lines[..n] + [lines[n]];
    RecordsConcat(lines[..n], [lines[n]], limit);
    RecordsOne(lines[n], limit);
  }

  lemma RecordsOne(line: string, limit: int)
    ensures Records([line], limit) == Filed(line, limit)
  {
    assert Records([], limit) == [];
  }

  // An empty line is no record.
  ghost function Filed(line: string, limit: int): seq<string> {
    if line == "" then [] else [Record(line, limit)]
  }

  ghost function Records(lines: seq<string>, limit: int): seq<string> {
    if lines == [] then []
    else Filed(lines[0], limit) + Records(lines[1..], limit)
  }

  lemma {:induction false} RecordsConcat(a: seq<string>, b: seq<string>, limit: int)
    ensures Records(a + b, limit) == Records(a, limit) + Records(b, limit)
  {
    if a == [] {
      assert a + b == b;
    } else {
      assert (a + b)[1..] == a[1..] + b;
      RecordsConcat(a[1..], b, limit);
    }
  }

  // What has been filed and what the waiting bytes still bring.
  ghost function Expected(filed: seq<string>, pending: string, limit: int): seq<string> {
    filed + Records(Lines(pending), limit)
  }

  lemma LineTaken(filed: seq<string>, pending: string, limit: int)
    requires FirstNewline(pending) >= 0
    ensures var i := FirstNewline(pending);
            && Rest(pending) == Rest(pending[i + 1..])
            && Expected(filed, pending, limit) == Expected(filed + Filed(pending[..i], limit), pending[i + 1..], limit)
  {
    var i := FirstNewline(pending);
    assert pending == pending[..i] + [NEWLINE] + pending[i + 1..];
    FirstLine(pending[..i], pending[i + 1..]);
    RecordsCons(filed, pending[..i], Lines(pending[i + 1..]), limit);
  }

  lemma RecordsCons(filed: seq<string>, line: string, tail: seq<string>, limit: int)
    ensures filed + Records([line] + tail, limit) == (filed + Filed(line, limit)) + Records(tail, limit)
  {
    assert ([line] + tail)[1..] == tail;
  }

  ghost function Newest(s: seq<string>, n: nat): seq<string> {
    if |s| <= n then s else s[|s| - n..]
  }

  /* --------------------------------------------------------------------------- ring */

  // The slot of the i-th oldest entry.
  ghost function Slot(next: nat, size: nat, length: nat, i: nat): int {
    if next + i < size then next + i - size + length else next + i - size
  }

  // The entries of a ring, oldest first.
  ghost function Ordered(buffer: seq<string>, next: nat, size: nat): seq<string>
    requires next < |buffer| && size <= |buffer|
  {
    seq(size, i requires 0 <= i < size => buffer[Slot(next, size, |buffer|, i)])
  }

  lemma Overwrite(buffer: seq<string>, next: nat, size: nat, line: string)
    requires next < |buffer| && size <= |buffer|
    ensures Ordered(buffer[next := line], Wrap(next + 1, |buffer|), if size < |buffer| then size + 1 else size)
            == Newest(Ordered(buffer, next, size) + [line], |buffer|)
  {
    var was := Ordered(buffer, next, size);
    if size < |buffer| {
      var now := Ordered(buffer[next := line], Wrap(next + 1, |buffer|), size + 1);
      assert forall i | 0 <= i < size :: now[i] == was[i];
      assert now == was + [line];
    } else {
      var now := Ordered(buffer[next := line], Wrap(next + 1, |buffer|), size);
      assert forall i | 0 <= i < size - 1 :: now[i] == was[i + 1];
      assert now == was[1..] + [line];
      assert (was + [line])[1..] == was[1..] + [line];
    }
  }

  lemma Modulo(x: nat, length: nat)
    requires 0 < length && x < 2 * length
    ensures x % length == if x < length then x else x - length
  {
    if x >= length {
      assert x == length * 1 + (x - length);
      assert x / length == 1;
    }
  }

  // An index that has run at most once past the end.
  function Wrap(x: nat, length: nat): (r: nat)
    requires 0 < length && x < 2 * length
    ensures r == if x < length then x else x - length
  {
    Modulo(x, length);
    x % length
  }

  class Ring {
    const entries: array<string>
    const maxEntryBytes: int
    var next: nat
    var size: nat
    var pending: string
    ghost var stream: string

    ghost predicate Shaped()
      reads this
    {
      next < entries.Length && size <= entries.Length
    }

    ghost function Contents(): seq<string>
      requires Shaped()
      reads this, entries
    {
      Ordered(entries[..], next, size)
    }

    // The ring holds the newest records of everything written so far.
    ghost predicate Valid()
      reads this, entries
    {
      && Shaped()
      && pending == Rest(stream)
      && Contents() == Newest(Records(Lines(stream), maxEntryBytes), entries.Length)
    }

    // A ring is only ever made with room for at least one entry.
    constructor (capacity: nat, limit: int)
      requires capacity > 0
      ensures Valid() && fresh(entries) && entries.Length == capacity && maxEntryBytes == limit && stream == ""
    {
      entries := new string[capacity];
      maxEntryBytes := limit;
      next, size, pending, stream := 0, 0, "", "";
    }

    method Push(line: string)
      requires Shaped()
      modifies this`next, this`size, entries
      ensures Shaped() && Contents() == Newest(old(Contents()) + [line], entries.Length)
    {
      Overwrite(entries[..], next, size, line);
      entries[next] := line;
      next := Wrap(next + 1, entries.Length);
      if size < entries.Length {
        size := size + 1;
      }
      assert entries[..] == old(entries[..])[old(next) := line];
    }

    // The lines ended by these bytes enter the ring; what is left waits for the next write.
    method Write(p: string) returns (n: nat)
      requires Valid()
      modifies this`next, this`size, this`pending, this`stream, entries
      ensures Valid() && stream == old(stream) + p && n == |p|
    {
      LinesExtend(stream, p);
      RecordsConcat(Lines(stream), Lines(pending + p), maxEntryBytes);
      ghost var filed := Records(Lines(stream), maxEntryBytes);
      pending := pending + p;
      FileLines(filed);
      stream := stream + p;
      return |p|;
    }

    method FileLines(ghost before: seq<string>)
      requires Shaped() && Contents() == Newest(before, entries.Length)
      modifies this`next, this`size, this`pending, entries
      ensures Shaped() && pending == Rest(old(pending))
      ensures Contents() == Newest(before + Records(Lines(old(pending)), maxEntryBytes), entries.Length)
    {
      ghost var filed := before;
      while true
        invariant Shaped() && Rest(pending) == Rest(old(pending))
        invariant Expected(before, old(pending), maxEntryBytes) == Expected(filed, pending, maxEntryBytes)
        invariant Contents() == Newest(filed, entries.Length)
        decreases |pending|
      {
        var i := FirstNewline(pending);
        if i < 0 {
          break;
        }
        filed := TakeLine(i, filed);
      }
      NoNewline(pending);
      assert filed + Records([], maxEntryBytes) == filed;
    }

    method TakeLine(i: nat, ghost before: seq<string>) returns (ghost filed: seq<string>)
      requires Shaped() && Contents() == Newest(before, entries.Length) && FirstNewline(pending) == i
      modifies this`next, this`size, this`pending, entries
      ensures Shaped() && Rest(pending) == Rest(old(pending)) && |pending| < |old(pending)|
      ensures Expected(before, old(pending), maxEntryBytes) == Expected(filed, pending, maxEntryBytes)
      ensures Contents() == Newest(filed, entries.Length)
    {
      var line := pending[..i];
      LineTaken(before, pending, maxEntryBytes);
      NewestConcat(before, Filed(line, maxEntryBytes), entries.Length);
      filed := before + Filed(line, maxEntryBytes);
      pending := pending[i + 1..];
      FileLine(line);
    }

    method FileLine(text: string)
      requires Shaped()
      modifies this`next, this`size, entries
      ensures Shaped() && Contents() == Newest(old(Contents()) + Filed(text, maxEntryBytes), entries.Length)
    {
      var line := text;
      if line == "" {
        assert Contents() + [] == Contents();
        return;
      }
      if maxEntryBytes > 0 && |line| > maxEntryBytes {
        line := BoundedLine(|line|, maxEntryBytes);
      }
      Push(line);
    }

    // The newest records, oldest first.
    method Snapshot() returns (out: seq<string>)
      requires Valid()
      ensures out == Newest(Records(Lines(stream), maxEntryBytes), entries.Length)
    {
      if size == 0 {
        return [];
      }
      var length := entries.Length;
      var start := Wrap(next + length - size, length);
      out := [];
      for i := 0 to size
        invariant |out| == i && forall k | 0 <= k < i :: out[k] == entries[Slot(next, size, length, k)]
      {
        out := out + [entries[Wrap(start + i, length)]];
      }
    }
  }

  lemma NewestConcat(s: seq<string>, x: seq<string>, n: nat)
    requires |x| <= n
    ensures Newest(Newest(s, n) + x, n) == Newest(s + x, n)
  {
  }

  /* ----------------------------------------------------------------- whole write runs */

  ghost function Flatten(ps: seq<string>): string {
    if ps == [] then "" else Flatten(ps[..|ps| - 1]) + ps[|ps| - 1]
  }

  // Any two ways of cutting the same bytes into writes leave the same tail.
  method WriteAll(r: Ring, ps: seq<string>) returns (out: seq<string>)
    requires r.Valid() && r.stream == ""
    modifies r`next, r`size, r`pending, r`stream, r.entries
    ensures r.Valid() && r.stream == Flatten(ps)
    ensures out == Newest(Records(Lines(Flatten(ps)), r.maxEntryBytes), r.entries.Length)
  {
    for i := 0 to |ps|
      invariant r.Valid() && r.stream == Flatten(ps[..i])
    {
      assert ps[..i + 1][..i] == ps[..i];
      var n := r.Write(ps[i]);
    }
    assert ps[..|ps|] == ps;
    out := r.Snapshot();
  }
}

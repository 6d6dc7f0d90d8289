/**
 The tail loop of handleLogsStream (api/logs.go:140-151): lines are put together
 again from whatever pieces the polls find.
 */
module LogLines {
  predicate HasNewline(s: string) {
    '\n' in s
  }

  /** The position just after the first newline; the length when there is none. */
  function AfterNewline(s: string): (n: nat)
    ensures n <= |s|
    ensures !HasNewline(s) ==> n == |s|
    ensures HasNewline(s) ==> n > 0 && s[n - 1] == '\n' && '\n' !in s[..n - 1]
  {
    if s == "" then 0
    else if s[0] == '\n' then 1
    else
      var n := AfterNewline(s[1..]);
      assert HasNewline(s) ==> n > 0 && s[..n] == [s[0]] + s[1..][..n - 1];
      1 + n
  }

  /** The newline-terminated lines of s, without their newlines. */
  function Raw(s: string): seq<string> {
    if !HasNewline(s) then []
    else
      var n := AfterNewline(s);
      [s[..n - 1]] + Raw(s[n..])
  }

  /** What follows the last newline. */
  function Rest(s: string): string {
    if !HasNewline(s) then s else Rest(s[AfterNewline(s)..])
  }

  /** strings.TrimRight(s, "\r\n") */
  function TrimRight(s: string): string {
    if s != "" && (s[|s| - 1] == '\r' || s[|s| - 1] == '\n') then TrimRight(s[..|s| - 1]) else s
  }

  /** TrimRight cuts off carriage returns and newlines, all that the line ends with
      and nothing else. */
  lemma {:induction false} TrimRightMeans(s: string)
    ensures TrimRight(s) <= s
    ensures forall i :: |TrimRight(s)| <= i < |s| ==> s[i] == '\r' || s[i] == '\n'
    ensures TrimRight(s) != "" ==> TrimRight(s)[|TrimRight(s)| - 1] != '\r' && TrimRight(s)[|TrimRight(s)| - 1] != '\n'
    ensures TrimRight(s) == "" <==> forall i :: 0 <= i < |s| ==> s[i] == '\r' || s[i] == '\n'
  {
    if s != "" && (s[|s| - 1] == '\r' || s[|s| - 1] == '\n') {
      TrimRightMeans(s[..|s| - 1]);
    }
  }

  /** The lines that are emitted: trimmed, and only those that are not empty. */
  function Shown(raw: seq<string>): seq<string> {
    if raw == [] then []
    else (if TrimRight(raw[0]) == "" then [] else [TrimRight(raw[0])]) + Shown(raw[1..])
  }

  /** Nothing but carriage returns and newlines. */
  predicate IsBlank(s: string) {
    forall i :: 0 <= i < |s| ==> s[i] == '\r' || s[i] == '\n'
  }

  /** `shown` consists, line by line and in order, of the lines of `raw` that have any
      other character, each without the CRs and LFs it ends with. */
  ghost predicate ShowsLines(raw: seq<string>, shown: seq<string>)
    decreases |raw|
  {
    if raw == [] then shown == []
    else if IsBlank(raw[0]) then ShowsLines(raw[1..], shown)
    else
      && shown != [] && shown[0] != "" && shown[0] <= raw[0] && IsBlank(raw[0][|shown[0]|..])
      && !IsBlank(shown[0][|shown[0]| - 1..])
      && ShowsLines(raw[1..], shown[1..])
  }

  lemma {:induction false} ShownMeans(raw: seq<string>)
    ensures ShowsLines(raw, Shown(raw))
  {
    if raw != [] {
      var t, rest := TrimRight(raw[0]), Shown(raw[1..]);
      TrimRightMeans(raw[0]);
      ShownMeans(raw[1..]);
      if t == "" {
        assert [] + rest == rest;
      } else {
        assert ([t] + rest)[1..] == rest;
      }
    }
  }

  /** A line with any character other than CR and LF is shown. */
  lemma {:induction false} NoLineIsLost(raw: seq<string>, i: nat)
    requires i < |raw| && !IsBlank(raw[i])
    ensures exists t :: t in Shown(raw) && t != "" && t <= raw[i] && IsBlank(raw[i][|t|..])
  {
    if i == 0 {
      TrimRightMeans(raw[0]);
      assert TrimRight(raw[0]) in Shown(raw);
    } else {
      NoLineIsLost(raw[1..], i - 1);
      assert forall t :: t in Shown(raw[1..]) ==> t in Shown(raw);
    }
  }

  function Lines(s: string): seq<string> {
    Shown(Raw(s))
  }

  function Unraw(raw: seq<string>): string {
    if raw == [] then "" else raw[0] + "\n" + Unraw(raw[1..])
  }

  ghost predicate NoNewlines(raw: seq<string>) {
    forall i :: 0 <= i < |raw| ==> !HasNewline(raw[i])
  }

  /** Raw and Rest take a text apart completely. */
  lemma {:induction false} RawSplits(s: string)
    ensures s == Unraw(Raw(s)) + Rest(s)
    decreases |s|
  {
    if HasNewline(s) {
      var n := AfterNewline(s);
      var line, more := s[..n - 1], s[n..];
      RawSplits(more);
      UnrawCons(line, Raw(more), Rest(more));
      SplitAt(s, n - 1);
    }
  }

  lemma SplitAt(s: string, i: nat)
    requires i < |s| && s[i] == '\n'
    ensures s == s[..i] + "\n" + s[i + 1..]
  {
  }

  lemma UnrawCons(line: string, raw: seq<string>, r: string)
    ensures Unraw([line] + raw) + r == line + "\n" + (Unraw(raw) + r)
  {
    assert ([line] + raw)[1..] == raw;
    Associate(line, Unraw(raw), r);
  }

  lemma {:induction false} PartsHaveNoNewline(s: string)
    ensures NoNewlines(Raw(s)) && !HasNewline(Rest(s))
    decreases |s|
  {
    if HasNewline(s) {
      PartsHaveNoNewline(s[AfterNewline(s)..]);
    }
  }

  lemma Associate(line: string, u: string, r: string)
    ensures (line + "\n" + u) + r == line + "\n" + (u + r)
  {
  }

  /** ... and in only one way: they are the newline-terminated lines. */
  lemma {:induction false} RawUnique(raw: seq<string>, rest: string)
    requires NoNewlines(raw) && !HasNewline(rest)
    ensures Raw(Unraw(raw) + rest) == raw && Rest(Unraw(raw) + rest) == rest
  {
    if raw == [] {
      assert Unraw(raw) + rest == rest;
    } else {
      var more := Unraw(raw[1..]) + rest;
      RawUnique(raw[1..], rest);
      Associate(raw[0], Unraw(raw[1..]), rest);
      FirstLine(raw[0], more);
    }
  }

  lemma FirstLine(line: string, more: string)
    requires !HasNewline(line)
    ensures Raw(line + "\n" + more) == [line] + Raw(more)
    ensures Rest(line + "\n" + more) == Rest(more)
  {
    var s := line + "\n" + more;
    assert s[|line|] == '\n';
    NewlineAt(s, |line|);
    assert s[..|line|] == line && s[|line| + 1..] == more;
  }

  lemma {:induction false} NewlineAt(s: string, i: nat)
    requires i < |s| && s[i] == '\n' && '\n' !in s[..i]
    ensures HasNewline(s) && AfterNewline(s) == i + 1
  {
    if i > 0 {
      assert s[0] == s[..i][0];
      assert s[1..][..i - 1] == s[..i][1..];
      NewlineAt(s[1..], i - 1);
    }
  }

  lemma {:induction false} ShownAppend(a: seq<string>, b: seq<string>)
    ensures Shown(a + b) == Shown(a) + Shown(b)
  {
    if a == [] {
      assert a + b == b;
    } else {
      assert (a + b)[1..] == a[1..] + b;
      ShownAppend(a[1..], b);
    }
  }

  lemma {:induction false} RawCut(a: string, b: string)
    ensures Raw(a + b) == Raw(a) + Raw(Rest(a) + b)
    ensures Rest(a + b) == Rest(Rest(a) + b)
    decreases |a|
  {
    if HasNewline(a) {
      var n := AfterNewline(a);
      var line, more := a[..n - 1], a[n..];
      SplitAt(a, n - 1);
      assert a + b == line + "\n" + (more + b);
      FirstLine(line, more + b);
      RawCut(more, b);
    }
  }

  /** Cutting a text anywhere changes nothing: what follows the last newline of
      the first piece is completed by the second. */
  lemma CutAnywhere(a: string, b: string)
    ensures Lines(a + b) == Lines(a) + Lines(Rest(a) + b)
    ensures Rest(a + b) == Rest(Rest(a) + b)
  {
    RawCut(a, b);
    ShownAppend(Raw(a), Raw(Rest(a) + b));
  }

  // --------------------------------------------------------- many polls

  function Concat(chunks: seq<string>): string {
    if chunks == [] then "" else chunks[0] + Concat(chunks[1..])
  }

  /** What a tailer that holds `partial` emits over a sequence of polls, and what
      it holds afterwards. */
  function Polled(partial: string, chunks: seq<string>): seq<string>
    decreases |chunks|
  {
    if chunks == [] then []
    else Lines(partial + chunks[0]) + Polled(Rest(partial + chunks[0]), chunks[1..])
  }

  function Held(partial: string, chunks: seq<string>): string
    decreases |chunks|
  {
    if chunks == [] then partial else Held(Rest(partial + chunks[0]), chunks[1..])
  }

  /** However the appended bytes are split across polls, the emitted lines and the
      held part are those of the whole text. */
  lemma {:induction false} ChunkIndependence(partial: string, chunks: seq<string>)
    requires !HasNewline(partial)
    ensures Polled(partial, chunks) == Lines(partial + Concat(chunks))
    ensures Held(partial, chunks) == Rest(partial + Concat(chunks))
    decreases |chunks|
  {
    if chunks == [] {
      assert partial + "" == partial;
    } else {
      var head, tail := partial + chunks[0], Concat(chunks[1..]);
      PartsHaveNoNewline(head);
      ChunkIndependence(Rest(head), chunks[1..]);
      CutAnywhere(head, tail);
      assert partial + (chunks[0] + tail) == head + tail;
    }
  }

  /** One line: what the tailer held, completed by a chunk that ends in the first
      newline. */
  lemma LineCompleted(held: string, chunk: string, left: string)
    requires !HasNewline(held) && chunk != "" && chunk[|chunk| - 1] == '\n' && !HasNewline(chunk[..|chunk| - 1])
    ensures var line := TrimRight(held + chunk);
            Lines(held + (chunk + left)) == (if line == "" then [] else [line]) + Lines("" + left)
    ensures Rest(held + (chunk + left)) == Rest("" + left)
  {
    var raw := held + chunk[..|chunk| - 1];
    assert held + chunk == raw + "\n";
    assert held + (chunk + left) == raw + "\n" + left;
    assert "" + left == left;
    FirstLine(raw, left);
    assert (raw + "\n")[..|raw|] == raw;
    assert ([raw] + Raw(left))[1..] == Raw(left);
  }

  lemma {:induction false} TrimRightNoNewline(s: string)
    ensures TrimRight(s) <= s
    ensures !HasNewline(s) ==> !HasNewline(TrimRight(s))
  {
    if s != "" && (s[|s| - 1] == '\r' || s[|s| - 1] == '\n') {
      TrimRightNoNewline(s[..|s| - 1]);
    }
  }

  lemma {:induction false} ShownNoNewlines(raw: seq<string>)
    requires NoNewlines(raw)
    ensures NoNewlines(Shown(raw)) && forall i :: 0 <= i < |Shown(raw)| ==> Shown(raw)[i] != ""
  {
    if raw != [] {
      TrimRightNoNewline(raw[0]);
      assert NoNewlines(raw[1..]) by {
        assert forall i :: 0 <= i < |raw[1..]| ==> raw[1..][i] == raw[i + 1];
      }
      ShownNoNewlines(raw[1..]);
    }
  }
}

module LogTail {
  import opened LogLines

  /** bufio.Reader.ReadString('\n') over the bytes the file holds: up to and
      including the next newline, or everything and the end-of-file error. */
  method ReadString(unread: string) returns (chunk: string, eof: bool, left: string)
    ensures unread == chunk + left
    ensures eof <==> !HasNewline(unread)
    ensures eof ==> left == ""
    ensures !eof ==> chunk != "" && chunk[|chunk| - 1] == '\n' && !HasNewline(chunk[..|chunk| - 1])
  {
    var n := AfterNewline(unread);
    chunk, left := unread[..n], unread[n..];
    eof := !HasNewline(unread);
  }

  class Tailer {
    var partial: string

    constructor ()
      ensures partial == ""
    {
      partial := "";
    }

    /** One poll: `appended` is what the file gained since the last one, `writes`
        how many more writes to the client succeed. */
    method Poll(appended: string, writes: nat) returns (emitted: seq<string>, alive: bool)
      requires !HasNewline(partial)
      modifies this
      ensures !HasNewline(partial)
      ensures alive <==> |Lines(old(partial) + appended)| <= writes
      ensures alive ==> emitted == Lines(old(partial) + appended) && partial == Rest(old(partial) + appended)
      ensures !alive ==> emitted == Lines(old(partial) + appended)[..writes]
    {
      ghost var all := Lines(partial + appended);
      ghost var rest := Rest(partial + appended);
      emitted := [];
      var unread := appended;
      while true
        invariant !HasNewline(partial)
        invariant all == emitted + Lines(partial + unread) && rest == Rest(partial + unread)
        invariant |emitted| <= writes
        decreases |unread|
      {
        ghost var held := partial;
        var chunk, eof, left := ReadString(unread);
        partial := partial + chunk;
        if eof {
          assert chunk + left == chunk;
          break;
        }
        LineCompleted(held, chunk, left);
        var line := TrimRight(partial);
        partial := "";
        unread := left;
        ghost var more := Lines("" + left);
        if line != "" {
          AppendLine(emitted, line, more);
          if |emitted| == writes {
            return emitted, false;
          }
          emitted := emitted + [line];
        } else {
          assert [] + more == more;
        }
      }
      assert emitted + [] == emitted;
      alive := true;
    }
  }

  lemma AppendLine(emitted: seq<string>, line: string, more: seq<string>)
    ensures emitted + ([line] + more) == emitted + [line] + more
    ensures (emitted + ([line] + more))[..|emitted|] == emitted
    ensures |emitted + ([line] + more)| > |emitted|
  {
  }
}

/** The script reader the server's `execute_script` drives: a stack of open
    script files, each with the lines not read yet, and the process-wide
    file-mode flag the band builder consults. */
module Scripts {
  import opened Base

  /** An open script: its path and the lines still to be read. */
  datatype Frame = Frame(path: string, lines: seq<string>)

  /** `b` is a tail of `a`. */
  predicate IsSuffix(b: seq<string>, a: seq<string>)
  {
    |b| <= |a| && b == a[|a| - |b|..]
  }

  /** `after` is what reading can leave of `before`: no new frames, and
      each remaining frame is the same file with fewer or as many lines. */
  predicate Consumed(before: seq<Frame>, after: seq<Frame>)
  {
    |after| <= |before|
    && forall i :: 0 <= i < |after| ==>
         after[i].path == before[i].path && IsSuffix(after[i].lines, before[i].lines)
  }

  /** `after` is what reading, possibly after opening one more script that
      is still open, can leave of `before`. */
  predicate Descends(before: seq<Frame>, after: seq<Frame>)
  {
    Consumed(before, after)
    || (|after| == |before| + 1 && Consumed(before, after[..|before|]))
  }

  /** A script with this path is open. */
  predicate IsOpen(frames: seq<Frame>, path: string)
  {
    exists i :: 0 <= i < |frames| && frames[i].path == path
  }

  /** The lines left in the top script; none when no script is open. */
  function TopLines(frames: seq<Frame>): seq<string>
  {
    if frames == [] then [] else frames[|frames| - 1].lines
  }

  /** The open scripts after up to `n` more lines of the top script have
      been read. */
  function DropTop(frames: seq<Frame>, n: nat): (r: seq<Frame>)
    ensures Consumed(frames, r)
    ensures |r| == |frames|
    ensures TopLines(r) == if n <= |TopLines(frames)| then TopLines(frames)[n..] else []
    ensures forall p :: IsOpen(r, p) <==> IsOpen(frames, p)
  {
    if frames == [] then frames
    else
      var top := frames[|frames| - 1];
      var k := if n <= |top.lines| then n else |top.lines|;
      var r := frames[..|frames| - 1] + [Frame(top.path, top.lines[k..])];
      assert forall i :: 0 <= i < |frames| - 1 ==> r[i] == frames[i];
      assert top.lines[k..] == top.lines[|top.lines| - |top.lines[k..]|..];
      assert forall p :: IsOpen(frames, p) ==> IsOpen(r, p) by {
        forall p | IsOpen(frames, p) ensures IsOpen(r, p) {
          var i :| 0 <= i < |frames| && frames[i].path == p;
          assert r[i].path == p;
        }
      }
      r
  }

  /** The lines still to be read in all open scripts. */
  function Pending(frames: seq<Frame>): nat
  {
    if frames == [] then 0 else Pending(frames[..|frames| - 1]) + |frames[|frames| - 1].lines|
  }

  lemma {:induction false} ConsumedTransitive(a: seq<Frame>, b: seq<Frame>, c: seq<Frame>)
    requires Consumed(a, b) && Consumed(b, c)
    ensures Consumed(a, c)
  {
    forall i | 0 <= i < |c|
      ensures c[i].path == a[i].path && IsSuffix(c[i].lines, a[i].lines)
    {
      var x, y, z := a[i].lines, b[i].lines, c[i].lines;
      assert y == x[|x| - |y|..];
      assert z == y[|y| - |z|..];
      assert z == x[|x| - |z|..];
    }
  }

  lemma {:induction false} PendingPrefix(fs: seq<Frame>, n: nat)
    requires n <= |fs|
    ensures Pending(fs[..n]) <= Pending(fs)
    decreases |fs|
  {
    if n < |fs| {
      assert fs[..|fs| - 1][..n] == fs[..n];
      PendingPrefix(fs[..|fs| - 1], n);
    } else {
      assert fs[..n] == fs;
    }
  }

  lemma {:induction false} PendingPointwise(a: seq<Frame>, b: seq<Frame>)
    requires |a| == |b|
    requires forall i :: 0 <= i < |a| ==> |a[i].lines| <= |b[i].lines|
    ensures Pending(a) <= Pending(b)
    decreases |a|
  {
    if a != [] {
      PendingPointwise(a[..|a| - 1], b[..|b| - 1]);
    }
  }

  lemma ConsumedReflexive(frames: seq<Frame>)
    ensures Consumed(frames, frames)
  {
    forall i | 0 <= i < |frames| ensures IsSuffix(frames[i].lines, frames[i].lines) {
      assert frames[i].lines[0..] == frames[i].lines;
    }
  }

  /** Closing the top script after a nested script ran leaves what reading
      alone could have left. */
  lemma DescendsThenPop(before: seq<Frame>, after: seq<Frame>)
    requires Descends(before, after) && after != []
    ensures Consumed(before, after[..|after| - 1])
  {
  }

  /** Reading a script just opened on top of `before` leaves what opening
      one more script and reading can leave. */
  lemma PushedThenConsumed(before: seq<Frame>, pushed: Frame, after: seq<Frame>)
    requires Consumed(before + [pushed], after)
    ensures Descends(before, after)
  {
    var start := before + [pushed];
    if |after| <= |before| {
      assert forall i :: 0 <= i < |after| ==> start[i] == before[i];
    } else {
      assert after[..|before|] == after[..|before|];
      assert forall i :: 0 <= i < |before| ==> start[i] == before[i] && after[..|before|][i] == after[i];
    }
  }

  /** Reading never adds lines to be read. */
  lemma ConsumedPending(before: seq<Frame>, after: seq<Frame>)
    requires Consumed(before, after)
    ensures Pending(after) <= Pending(before)
  {
    PendingPointwise(after, before[..|after|]);
    PendingPrefix(before, |after|);
  }

  /** The manager of open scripts. `files` is the file system: the lines of
      every script that can be opened. */
  class ScriptFiles {
    const files: map<string, seq<string>>
    var frames: seq<Frame>

    constructor (files: map<string, seq<string>>)
      ensures this.files == files && frames == []
    {
      this.files := files;
      frames := [];
    }

    /** `IsRepeat`: a script with this path is already open. */
    predicate IsRepeat(path: string)
      reads this
      ensures IsRepeat(path) <==> exists i :: 0 <= i < |frames| && frames[i].path == path
    {
      IsOpen(frames, path)
    }

    /** `pushFile`: opens the script on top of the stack; a missing file is
        a FileNotFoundException, here `false`, and nothing is opened. */
    method PushFile(path: string) returns (found: bool)
      modifies this`frames
      ensures found <==> path in files
      ensures found ==> frames == old(frames) + [Frame(path, files[path])] && IsRepeat(path)
      ensures !found ==> frames == old(frames)
    {
      if path !in files {
        return false;
      }
      frames := frames + [Frame(path, files[path])];
      assert frames[|frames| - 1].path == path;
      return true;
    }

    /** `readfile`: the next line of the top script, or null when it is
        exhausted or no script is open. */
    method ReadLine() returns (line: Option<string>)
      modifies this`frames
      ensures old(frames) == [] || old(frames)[|old(frames)| - 1].lines == [] ==>
        line == None && frames == old(frames)
      ensures old(frames) != [] && old(frames)[|old(frames)| - 1].lines != [] ==>
        var top := old(frames)[|old(frames)| - 1];
        line == Some(top.lines[0])
        && frames == old(frames)[..|old(frames)| - 1] + [Frame(top.path, top.lines[1..])]
      ensures Consumed(old(frames), frames)
      ensures line.Some? ==> Pending(frames) + 1 == Pending(old(frames))
      ensures line.Some? ==> frames == DropTop(old(frames), 1)
    {
      if frames == [] || frames[|frames| - 1].lines == [] {
        return None;
      }
      var top := frames[|frames| - 1];
      line := Some(top.lines[0]);
      ghost var before := frames;
      frames := frames[..|frames| - 1] + [Frame(top.path, top.lines[1..])];
      assert frames[..|frames| - 1] == before[..|before| - 1];
      assert top.lines[1..] == top.lines[|top.lines| - |top.lines[1..]|..];
    }

    /** The band builder reading `n` lines of the top script (fewer when
        the script ends first). */
    method Skip(n: nat)
      modifies this`frames
      ensures frames == DropTop(old(frames), n)
    {
      if frames == [] {
        return;
      }
      var top := frames[|frames| - 1];
      var k := if n <= |top.lines| then n else |top.lines|;
      frames := frames[..|frames| - 1] + [Frame(top.path, top.lines[k..])];
    }

    /** `popfile`: closes the top script; on an empty stack a
        NoSuchElementException, here `false`. */
    method PopFile() returns (closed: bool)
      modifies this`frames
      ensures closed <==> old(frames) != []
      ensures closed ==> frames == old(frames)[..|old(frames)| - 1]
      ensures !closed ==> frames == old(frames)
    {
      if frames == [] {
        return false;
      }
      frames := frames[..|frames| - 1];
      return true;
    }
  }

  /** `FileMode`: whether commands are being read from a script. */
  class FileMode {
    var isFileMode: bool

    constructor ()
      ensures !isFileMode
    {
      isFileMode := false;
    }
  }
}

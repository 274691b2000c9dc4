/** A log that is followed: its reader goes on from where it stopped. */
module LogFollower {
  import opened Conversation
  import opened LogFeed
  import opened LogGrowth
  import opened LogLines

  /** A read leaves nothing to read. */
  lemma {:induction false} FeedSettles(d: seq<byte>, h: Heard, valid: seq<byte> -> bool, more: seq<seq<byte>> -> bool)
    requires h.wants && !valid([])
    ensures var r := Feed(d, h, valid, more); r.0.wants ==> Feed(d[r.1..], r.0, valid, more) == (r.0, 0)
    decreases |d|
  {
    hide Trim, LineRead, Hear;
    var k := NewlineAt(d);
    var r := Feed(d, h, valid, more);
    if k < 0 {
      assert r.1 == 0 ==> d[0..] == d;
    } else {
      var next := Hear(h, LineRead(d[..k]), more);
      if next.wants {
        FeedSettles(d[k + 1..], next, valid, more);
        Dropped(d, k + 1, r.1 - k - 1);
      }
    }
  }

  /** The state of following one log that only grows; a file that shrank or was
      replaced or rewritten, which starts over with a new reader, is not modelled. */
  class Follower {
    const valid: seq<byte> -> bool
    const more: seq<seq<byte>> -> bool
    var reader: LogReader?
    /** The reader wants no more. */
    var done: bool
    var offset: nat
    /** The file as it was when last read. */
    var size: nat
    var modTime: int
    ghost var file: seq<byte>

    ghost predicate Valid()
      reads this, reader
    {
      && !valid([])
      && (reader == null ==> Fresh())
      && (reader != null ==>
            && reader.more == more && done == !reader.wants
            && offset <= |file| && size == |file|
            && (!done ==> Feed(file[offset..], reader.View(), valid, more) == (reader.View(), 0)))
    }

    ghost predicate Fresh()
      reads this
    {
      file == [] && offset == 0 && !done
    }

    ghost function View(): Place
      reads this, reader
    {
      Place(if reader == null then Start.h else reader.View(), offset)
    }

    constructor (valid: seq<byte> -> bool, more: seq<seq<byte>> -> bool)
      requires !valid([])
      ensures Valid() && View() == Start && file == [] && this.valid == valid && this.more == more && reader == null
    {
      this.valid, this.more := valid, more;
      reader, done, offset, size, modTime, file := null, false, 0, 0, 0, [];
    }

    /** Reads what was appended: now is the file's content and at its modification time. */
    method Update(now: seq<byte>, at: int)
      requires Valid() && file <= now
      modifies this, reader
      ensures Valid() && file == now && (reader == old(reader) || fresh(reader))
      ensures View() == Next(old(View()), now, valid, more)
    {
      hide Feed;
      if reader == null {
        reader := new LogReader(more);
        done, offset := false, 0;
      } else if |now| == size && at == modTime {
        // As long as what was read, and it begins with that.
        assert now == file;
        return;
      }
      size, modTime, file := |now|, at, now;
      if done {
        return;
      }
      ghost var h := reader.View();
      FeedSettles(now[offset..], h, valid, more);
      var consumed, wants := FeedReader(now[offset..], reader, valid);
      Dropped(now, offset, consumed);
      offset := offset + consumed;
      done := !wants;
    }

    /** Follows the log as it grows through files: its reader hears what one read of the last gives. */
    method Follow(files: seq<seq<byte>>, times: seq<int>)
      requires Valid() && View() == Start && file == [] && files != [] && |times| == |files|
      requires Grows(files, files[|files| - 1]) && LinesOk(files[|files| - 1], valid)
      modifies this, reader
      ensures Valid() && View().h == Reads([files[|files| - 1]], valid, more).h
    {
      hide Feed, LinesOk, Next;
      ghost var log := files[|files| - 1];
      var i := 0;
      while i < |files|
        invariant 0 <= i <= |files| && Valid()
        invariant i > 0 ==> GrowsTo(files[..i], files[i - 1])
        invariant View() == Reads(files[..i], valid, more) && file == if i == 0 then [] else files[i - 1]
        invariant reader == old(reader) || fresh(reader)
      {
        StartGrows(files, i + 1);
        assert files[..i + 1][..i] == files[..i];
        Update(files[i], times[i]);
        i := i + 1;
      }
      assert files[..i] == files;
      GrowthMakesNoDifference(files, log, valid, more);
    }
  }

  lemma {:induction false} StartGrows(files: seq<seq<byte>>, n: nat)
    requires 0 < n <= |files| && GrowsTo(files, files[|files| - 1])
    ensures GrowsTo(files[..n], files[n - 1]) && (n > 1 ==> files[n - 2] <= files[n - 1])
    decreases |files|
  {
    Shorter(files);
    var last := |files| - 1;
    if n <= last {
      StartGrows(files[..last], n);
      assert files[..last][..n] == files[..n];
    } else {
      assert files[..n] == files;
    }
  }
}

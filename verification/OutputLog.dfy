/** The server output kept for requests answered through a completion: a bounded log that keeps the
    start of the output and counts the rest. */
module OutputLog {
  import opened Events

  /** A line of text as its bytes; only its length matters to the bound. */
  type Line = seq<bv8>

  const MAX_RETAINED_LINES: nat := 10_000
  const MAX_RETAINED_BYTES: nat := 1_048_576

  datatype Taken = Taken(lines: seq<Line>, dropped: nat)

  function Bytes(lines: seq<Line>): nat {
    if lines == [] then 0 else |lines[0]| + Bytes(lines[1..])
  }

  /** Whether this much output may be kept at all. */
  predicate Fits(lines: seq<Line>) {
    |lines| <= MAX_RETAINED_LINES && Bytes(lines) <= MAX_RETAINED_BYTES
  }

  /** The log is the longest prefix of the output that fits, and counts everything after it. */
  predicate Summarises(log: Taken, offered: seq<Line>) {
    && log.lines <= offered
    && (forall k | 0 <= k <= |offered| :: Fits(offered[..k]) <==> k <= |log.lines|)
    && log.dropped == Clip(|offered| - |log.lines|)
  }

  /** Everything offered is kept if and only if it is at most ten thousand lines and one megabyte. */
  lemma KeepsEverythingExactlyWhen(log: Taken, offered: seq<Line>)
    requires Summarises(log, offered)
    ensures log.lines == offered <==> |offered| <= 10_000 && Bytes(offered) <= 0x10_0000
    ensures log.lines == offered ==> log.dropped == 0
  {
    assert offered[..|offered|] == offered;
  }

  lemma {:induction false} BytesConcat(a: seq<Line>, b: seq<Line>)
    ensures Bytes(a + b) == Bytes(a) + Bytes(b)
  {
    if a == [] {
      assert a + b == b;
    } else {
      assert (a + b)[1..] == a[1..] + b;
      BytesConcat(a[1..], b);
    }
  }

  lemma BytesAppend(a: seq<Line>, line: Line)
    ensures Bytes(a + [line]) == Bytes(a) + |line|
  {
    BytesConcat(a, [line]);
    assert [line][1..] == [];
  }

  /** Output that does not fit does not fit with more after it. */
  lemma FitsIsPrefixClosed(a: seq<Line>, b: seq<Line>)
    requires a <= b && Fits(b)
    ensures Fits(a)
  {
    assert b == a + b[|a|..];
    BytesConcat(a, b[|a|..]);
  }

  /** One more line: kept if the whole output so far, with it, still fits. */
  lemma OneMoreLine(log: Taken, offered: seq<Line>, line: Line)
    requires Summarises(log, offered)
    ensures var longer := offered + [line];
            var kept := |log.lines| == |offered| && Fits(longer);
            Summarises(if kept then log.(lines := log.lines + [line])
                       else log.(dropped := SaturatingAdd(log.dropped, 1)), longer)
  {
    var longer := offered + [line];
    assert longer[..|longer|] == longer && offered[..|offered|] == offered;
    forall k | 0 <= k <= |offered| ensures longer[..k] == offered[..k] {
    }
    if Fits(longer) && |log.lines| < |offered| {
      FitsIsPrefixClosed(offered, longer);
    }
  }

  /** The log is determined by the output alone: how the output was cut into reads cannot be seen. */
  lemma SummaryIsUnique(a: Taken, b: Taken, offered: seq<Line>)
    requires Summarises(a, offered) && Summarises(b, offered)
    ensures a == b
  {
    assert Fits(offered[..|a.lines|]) && Fits(offered[..|b.lines|]);
    assert a.lines == offered[..|a.lines|] && b.lines == offered[..|b.lines|];
  }

  /** Nothing is lost without being counted. */
  lemma KeptPlusDropped(log: Taken, offered: seq<Line>)
    requires Summarises(log, offered)
    ensures |log.lines| + log.dropped <= |offered|
    ensures |log.lines| + log.dropped == |offered| <==> |offered| - |log.lines| <= U32_MAX
    ensures |log.lines| <= MAX_RETAINED_LINES && Bytes(log.lines) <= MAX_RETAINED_BYTES
  {
    assert Fits(offered[..|log.lines|]) && offered[..|log.lines|] == log.lines;
  }

  class CollectedOutput {
    var lines: seq<Line>
    var dropped: nat
    var bytes: nat
    var refusing: bool
    ghost var offered: seq<Line>     // everything pushed since the last take

    ghost predicate Valid()
      reads this
    {
      && Summarises(Taken(lines, dropped), offered)
      && bytes == Bytes(lines)
      && (refusing <==> |lines| < |offered|)
    }

    constructor ()
      ensures Valid() && offered == []
    {
      lines, dropped, bytes, refusing, offered := [], 0, 0, false, [];
    }

    method Push(line: Line)
      requires Valid()
      modifies this
      ensures Valid() && offered == old(offered) + [line]
    {
      OneMoreLine(Taken(lines, dropped), offered, line);
      BytesAppend(lines, line);
      assert !refusing ==> lines == offered;
      assert lines == offered[..|lines|] && Fits(offered[..|lines|]);
      offered := offered + [line];
      if !refusing {
        if |lines| < MAX_RETAINED_LINES && bytes + |line| <= MAX_RETAINED_BYTES {
          bytes := bytes + |line|;
          lines := lines + [line];
          return;
        }
        refusing := true;
      }
      dropped := SaturatingAdd(dropped, 1);
    }

    /** One read's worth of output. */
    method Collect(more: seq<Line>)
      requires Valid()
      modifies this
      ensures Valid() && offered == old(offered) + more
    {
      for i := 0 to |more|
        invariant Valid() && offered == old(offered) + more[..i]
      {
        Push(more[i]);
        assert more[..i + 1] == more[..i] + [more[i]];
      }
      assert more[..|more|] == more;
    }

    /** Hands the log over and starts again. */
    method Take() returns (taken: Taken)
      requires Valid()
      modifies this
      ensures Summarises(taken, old(offered))
      ensures Valid() && offered == []
    {
      taken := Taken(lines, dropped);
      lines, dropped, bytes, refusing, offered := [], 0, 0, false, [];
    }
  }
}

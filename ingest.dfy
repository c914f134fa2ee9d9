/** Reading the samples of Software/filtering.py (lines 9-13): every line of
    the readings file is `sample,value`; values outside the validity window are
    dropped, the others kept in the order they were read. */
module Ingest {
  import opened Wrappers

  /** One line of the readings file after `strip().split(',')` and `float` on
      each field: `None` marks a field that `float` rejects. */
  type Line = seq<Option<real>>

  /** A parsed `sample,value` record; the script unpacks the sample number
      but never uses it. */
  datatype Reading = Reading(sample: real, value: real)

  /** An inclusive range of admissible values. */
  datatype Window = Window(lo: real, hi: real)

  /** The bounds the script hard-codes: 10000 <= value <= 30000. */
  const ReadingWindow := Window(10000.0, 30000.0)

  predicate InWindow(w: Window, v: real) {
    w.lo <= v <= w.hi
  }

  /** `sample, value = map(float, ...)` succeeds exactly when the line has two
      fields and both convert. */
  predicate WellFormed(line: Line) {
    |line| == 2 && line[0].Some? && line[1].Some?
  }

  function ParseLine(line: Line): (r: Option<Reading>)
    ensures r.Some? <==> WellFormed(line)
    ensures r.Some? ==> r.value.value == line[1].value
  {
    if WellFormed(line) then Some(Reading(line[0].value, line[1].value)) else None
  }

  /** The value column of a file whose every line is well formed: the value
      of each line's parsed reading. */
  function Values(lines: seq<Line>): (vs: seq<real>)
    requires forall i :: 0 <= i < |lines| ==> WellFormed(lines[i])
  {
    seq(|lines|, i requires 0 <= i < |lines| && WellFormed(lines[i]) => ParseLine(lines[i]).value.value)
  }

  /** Reference definition of the kept values: those of `vs` inside `w`, in
      their original order. */
  function Filtered(w: Window, vs: seq<real>): (kept: seq<real>)
    ensures |kept| <= |vs|
    ensures forall i :: 0 <= i < |kept| ==> InWindow(w, kept[i])
  {
    if vs == [] then []
    else
      var rest := Filtered(w, vs[..|vs| - 1]);
      var v := vs[|vs| - 1];
      if InWindow(w, v) then rest + [v] else rest
  }

  /** Filtering distributes over concatenation: whatever is kept from an
      earlier part of the input comes before whatever is kept from a later
      part, so relative order is preserved. */
  lemma {:induction false} FilteredAppend(w: Window, a: seq<real>, b: seq<real>)
    ensures Filtered(w, a + b) == Filtered(w, a) + Filtered(w, b)
    decreases |b|
  {
    if b == [] {
      assert a + b == a;
    } else {
      var b' := b[..|b| - 1];
      assert (a + b)[..|a + b| - 1] == a + b';
      FilteredAppend(w, a, b');
    }
  }

  /** Each value occurs in the output exactly as often as in the input when it
      lies inside the window, and never when it lies outside. */
  lemma {:induction false} FilteredCounts(w: Window, vs: seq<real>, v: real)
    ensures multiset(Filtered(w, vs))[v] == if InWindow(w, v) then multiset(vs)[v] else 0
    decreases |vs|
  {
    if vs != [] {
      var init := vs[..|vs| - 1];
      var last := vs[|vs| - 1];
      assert vs == init + [last];
      FilteredCounts(w, init, v);
    }
  }

  /** A value appears in the output exactly when it appears in the input and
      lies inside the window. */
  lemma FilteredMembership(w: Window, vs: seq<real>, v: real)
    ensures v in Filtered(w, vs) <==> v in vs && InWindow(w, v)
  {
    FilteredCounts(w, vs, v);
  }

  /** Filtering keeps an input unchanged exactly when all of it is inside the
      window. */
  lemma {:induction false} FilteredIdentity(w: Window, vs: seq<real>)
    ensures Filtered(w, vs) == vs <==> forall i :: 0 <= i < |vs| ==> InWindow(w, vs[i])
    decreases |vs|
  {
    if vs != [] {
      var init := vs[..|vs| - 1];
      FilteredIdentity(w, init);
      if Filtered(w, vs) == vs {
        forall i | 0 <= i < |vs| ensures InWindow(w, vs[i]) {
          assert vs[i] == Filtered(w, vs)[i];
        }
      }
      if forall i :: 0 <= i < |vs| ==> InWindow(w, vs[i]) {
        assert forall i :: 0 <= i < |init| ==> InWindow(w, init[i]) by {
          forall i | 0 <= i < |init| ensures InWindow(w, init[i]) {
            assert init[i] == vs[i];
          }
        }
        assert vs == init + [vs[|vs| - 1]];
      }
    }
  }

  /** The loop of lines 9-13: parse each line, append its value when it lies in
      the window; the first malformed line aborts with its index. */
  method ReadMeasurements(lines: seq<Line>, w: Window) returns (r: Result<seq<real>, nat>)
    ensures r.Failure? ==>
      && r.error < |lines|
      && !WellFormed(lines[r.error])
      && forall i :: 0 <= i < r.error ==> WellFormed(lines[i])
    ensures r.Success? ==>
      && (forall i :: 0 <= i < |lines| ==> WellFormed(lines[i]))
      && r.value == Filtered(w, Values(lines))
  {
    var measurements: seq<real> := [];
    var i := 0;
    while i < |lines|
      invariant 0 <= i <= |lines|
      invariant forall j :: 0 <= j < i ==> WellFormed(lines[j])
      invariant measurements == Filtered(w, Values(lines[..i]))
    {
      var reading := ParseLine(lines[i]);
      if reading.None? {
        return Failure(i);
      }
      var value := reading.value.value;
      assert Values(lines[..i + 1]) == Values(lines[..i]) + [value];
      if InWindow(w, value) {
        measurements := measurements + [value];
      }
      i := i + 1;
    }
    assert lines[..i] == lines;
    return Success(measurements);
  }

  /** A four-line sample file: the reading at index 2 (50000) is
      dropped and the other three are kept in order. */
  lemma ExampleFile()
    ensures var lines := [[Some(0.0), Some(24010.0)], [Some(1.0), Some(23990.0)],
                          [Some(2.0), Some(50000.0)], [Some(3.0), Some(24005.0)]];
      && (forall i :: 0 <= i < |lines| ==> WellFormed(lines[i]))
      && Filtered(ReadingWindow, Values(lines)) == [24010.0, 23990.0, 24005.0]
  {
    var lines := [[Some(0.0), Some(24010.0)], [Some(1.0), Some(23990.0)],
                  [Some(2.0), Some(50000.0)], [Some(3.0), Some(24005.0)]];
    var vs := Values(lines);
    assert vs == [24010.0, 23990.0, 50000.0, 24005.0];
    assert vs[..3][..2][..1][..0] == [];
    assert Filtered(ReadingWindow, vs[..3][..2][..1]) == [24010.0];
    assert vs[..3][..2] == vs[..3][..2][..1] + [23990.0];
    assert Filtered(ReadingWindow, vs[..3][..2]) == [24010.0, 23990.0];
    assert Filtered(ReadingWindow, vs[..3]) == [24010.0, 23990.0];
  }
}

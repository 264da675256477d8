/**
 * Time-window normalisation (utils/time_utils.py). A stored window is a list
 * of integers; a pair whose start is below 24 and whose end is at most 24 is
 * read as legacy hours and converted to minutes of the day.
 */
module TimeUtils {
  import opened Wrappers

  /** The legacy-hours test of the source: `start < 24 and end <= 24`. */
  predicate IsLegacyHours(start: int, end: int) {
    start < 24 && end <= 24
  }

  /**
   * `migrate_time_window`: None for a missing window or one with fewer than
   * two elements, the pair times 60 for legacy hours, otherwise the stored
   * list itself (extra elements included).
   */
  function MigrateTimeWindow(tw: Option<seq<int>>): (r: Option<seq<int>>)
    ensures r.None? <==> tw.None? || |tw.value| < 2
    ensures r.Some? ==> |r.value| >= 2
  {
    if tw.None? || |tw.value| < 2 then None
    else
      var start, end := tw.value[0], tw.value[1];
      if IsLegacyHours(start, end) then Some([start * 60, end * 60]) else tw
  }

  /** `parse_time_window`: the first two elements of the migrated window. */
  function ParseTimeWindow(tw: Option<seq<int>>): (r: Option<(int, int)>)
    ensures r.None? <==> tw.None? || |tw.value| < 2
    ensures r.Some? ==> r.value == (MigrateTimeWindow(tw).value[0], MigrateTimeWindow(tw).value[1])
  {
    var migrated := MigrateTimeWindow(tw);
    if migrated.None? then None else Some((migrated.value[0], migrated.value[1]))
  }

  /** Hours pairs become minutes; [14,16] becomes [840,960]. */
  lemma MigrateLegacy(start: int, end: int, rest: seq<int>)
    requires IsLegacyHours(start, end)
    ensures MigrateTimeWindow(Some([start, end] + rest)) == Some([start * 60, end * 60])
    ensures ParseTimeWindow(Some([start, end] + rest)) == Some((start * 60, end * 60))
  {
  }

  /**
   * Every other window of two or more elements is returned unchanged; in
   * particular [24,24] (start is not below 24) and [1380,1500].
   */
  lemma MigrateMinutesUnchanged(tw: seq<int>)
    requires |tw| >= 2 && !IsLegacyHours(tw[0], tw[1])
    ensures MigrateTimeWindow(Some(tw)) == Some(tw)
    ensures ParseTimeWindow(Some(tw)) == Some((tw[0], tw[1]))
  {
  }

  lemma MigrateExamples()
    ensures MigrateTimeWindow(Some([14, 16])) == Some([840, 960])
    ensures MigrateTimeWindow(Some([24, 24])) == Some([24, 24])
    ensures MigrateTimeWindow(Some([1380, 1500])) == Some([1380, 1500])
    ensures MigrateTimeWindow(Some([5])) == None && ParseTimeWindow(None) == None
  {
  }

  /**
   * For non-negative windows a migrated window is no longer read as hours,
   * except [0,0], which is its own conversion; so migrating twice changes
   * nothing.
   */
  lemma {:induction false} MigrateIdempotent(tw: seq<int>)
    requires |tw| >= 2 && tw[0] >= 0 && tw[1] >= 0
    ensures var m := MigrateTimeWindow(Some(tw)).value;
      (m[0] >= 24 || m[1] > 24 || (m[0] == 0 && m[1] == 0))
      && MigrateTimeWindow(Some(m)) == Some(m)
  {
    var m := MigrateTimeWindow(Some(tw)).value;
    if IsLegacyHours(tw[0], tw[1]) {
      assert m == [tw[0] * 60, tw[1] * 60];
      if tw[0] >= 1 {
        assert m[0] >= 60;
      } else if tw[1] >= 1 {
        assert m[1] >= 60;
      } else {
        assert m == [0, 0];
      }
    }
  }
}

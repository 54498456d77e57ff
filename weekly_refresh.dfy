/**
 * The weekly LDRZ refresh's own logic: reading the suburb list, choosing
 * this week's batch of suburbs round-robin from the saved position, and
 * the price and sewerage columns of the candidate export.  Reading and
 * writing the files is left to the caller: the suburb file arrives as its
 * lines, or None when it does not exist.
 */
module WeeklyRefresh {
  import opened Wrappers
  import opened Text

  // ---------------------------------------------------------------------
  // The suburb list.
  // ---------------------------------------------------------------------

  /** A line that names a suburb: not blank and not a comment once stripped. */
  predicate Wanted(line: string)
  {
    Strip(line) != "" && !StartsWith(Strip(line), "#")
  }

  /** The suburbs kept from the lines so far, and their lower-cased keys. */
  function LoadFold(lines: seq<string>): (seq<string>, set<string>)
  {
    if lines == [] then ([], {})
    else
      var (out, seen) := LoadFold(lines[..|lines| - 1]);
      var line := Strip(lines[|lines| - 1]);
      if line == "" || StartsWith(line, "#") || Lower(line) in seen then (out, seen)
      else (out + [line], seen + {Lower(line)})
  }

  /** The lower-cased keys of the suburbs kept. */
  function Keys(out: seq<string>): set<string>
  {
    set i | 0 <= i < |out| :: Lower(out[i])
  }

  lemma KeysSnoc(out: seq<string>, line: string)
    ensures Keys(out + [line]) == Keys(out) + {Lower(line)}
  {
    var out' := out + [line];
    forall x | x in Keys(out) ensures x in Keys(out') {
      var i :| 0 <= i < |out| && Lower(out[i]) == x;
      assert out'[i] == out[i];
    }
    assert out'[|out|] == line;
  }

  /**
   * The keys seen are exactly the kept suburbs' keys, and no two kept
   * suburbs share a key: the list has each suburb once, ignoring case.
   */
  lemma {:induction false} LoadFoldDistinct(lines: seq<string>)
    ensures LoadFold(lines).1 == Keys(LoadFold(lines).0)
    ensures var out := LoadFold(lines).0;
      forall i, j | 0 <= i < j < |out| :: Lower(out[i]) != Lower(out[j])
  {
    if lines != [] {
      var init := lines[..|lines| - 1];
      LoadFoldDistinct(init);
      var (out0, seen0) := LoadFold(init);
      var line := Strip(lines[|lines| - 1]);
      if !(line == "" || StartsWith(line, "#") || Lower(line) in seen0) {
        KeysSnoc(out0, line);
        var out := out0 + [line];
        forall i, j | 0 <= i < j < |out| ensures Lower(out[i]) != Lower(out[j]) {
          assert out[i] == out0[i];
          if j < |out0| {
            assert out[j] == out0[j];
          } else {
            assert Lower(out0[i]) in Keys(out0);
          }
        }
      }
    }
  }

  /** Every wanted line's key is among the keys seen: no suburb is lost. */
  lemma {:induction false} LoadFoldCovers(lines: seq<string>)
    ensures forall j | 0 <= j < |lines| && Wanted(lines[j]) :: Lower(Strip(lines[j])) in LoadFold(lines).1
  {
    if lines != [] {
      var init := lines[..|lines| - 1];
      LoadFoldCovers(init);
      assert LoadFold(init).1 <= LoadFold(lines).1;
      forall j | 0 <= j < |init| ensures lines[j] == init[j] { }
    }
  }

  /** s is the stripped form of a wanted line, and no earlier wanted line has its key. */
  predicate FirstSpelling(lines: seq<string>, s: string)
  {
    exists j | 0 <= j < |lines| ::
      && Wanted(lines[j]) && s == Strip(lines[j])
      && forall k | 0 <= k < j && Wanted(lines[k]) :: Lower(Strip(lines[k])) != Lower(s)
  }

  /** A first spelling among the earlier lines stays one when a line is added. */
  lemma FirstSpellingSnoc(init: seq<string>, last: string, s: string)
    requires FirstSpelling(init, s)
    ensures FirstSpelling(init + [last], s)
  {
    var lines := init + [last];
    var j :| 0 <= j < |init| && Wanted(init[j]) && s == Strip(init[j])
      && forall k | 0 <= k < j && Wanted(init[k]) :: Lower(Strip(init[k])) != Lower(s);
    assert lines[j] == init[j];
    forall k | 0 <= k < j && Wanted(lines[k]) ensures Lower(Strip(lines[k])) != Lower(s) {
      assert lines[k] == init[k];
    }
  }

  /** A wanted last line whose key no earlier wanted line has is a first spelling. */
  lemma FirstSpellingLast(init: seq<string>, last: string)
    requires Wanted(last)
    requires forall k | 0 <= k < |init| && Wanted(init[k]) :: Lower(Strip(init[k])) != Lower(Strip(last))
    ensures FirstSpelling(init + [last], Strip(last))
  {
    var lines := init + [last];
    var j := |init|;
    assert lines[j] == last;
    forall k | 0 <= k < j && Wanted(lines[k]) ensures Lower(Strip(lines[k])) != Lower(Strip(last)) {
      assert lines[k] == init[k];
    }
  }

  /**
   * Every kept suburb is a stripped wanted line, and no earlier wanted
   * line has its key: the first spelling is the one kept.
   */
  lemma {:induction false} LoadFoldFirstSpelling(lines: seq<string>)
    ensures var out := LoadFold(lines).0;
      forall i | 0 <= i < |out| :: FirstSpelling(lines, out[i])
  {
    if lines != [] {
      var init := lines[..|lines| - 1];
      var last := lines[|lines| - 1];
      assert lines == init + [last];
      LoadFoldFirstSpelling(init);
      LoadFoldCovers(init);
      var (out0, seen0) := LoadFold(init);
      var line := Strip(last);
      var out := LoadFold(lines).0;
      forall i | 0 <= i < |out| ensures FirstSpelling(lines, out[i]) {
        if i < |out0| {
          assert out[i] == out0[i];
          assert out0 == LoadFold(init).0;
          FirstSpellingSnoc(init, last, out0[i]);
        } else {
          assert out == out0 + [line] && Lower(line) !in seen0;
          assert Wanted(last);
          forall k | 0 <= k < |init| && Wanted(init[k]) ensures Lower(Strip(init[k])) != Lower(line) {
            assert Lower(Strip(init[k])) in seen0;
          }
          FirstSpellingLast(init, last);
        }
      }
    }
  }

  /** load_suburbs: the stripped suburb lines, duplicates (ignoring case) and comments dropped. */
  method LoadSuburbs(file: Option<seq<string>>) returns (suburbs: seq<string>)
    ensures file.None? ==> suburbs == []
    ensures file.Some? ==> suburbs == LoadFold(file.value).0
  {
    if file.None? {
      return [];
    }
    var lines := file.value;
    suburbs := [];
    var seen: set<string> := {};
    var i := 0;
    while i < |lines|
      invariant 0 <= i <= |lines|
      invariant (suburbs, seen) == LoadFold(lines[..i])
    {
      assert lines[..i + 1][..i] == lines[..i];
      var line := Strip(lines[i]);
      if line != "" && !StartsWith(line, "#") {
        var key := Lower(line);
        if key !in seen {
          seen := seen + {key};
          suburbs := suburbs + [line];
        }
      }
      i := i + 1;
    }
    assert lines[..i] == lines;
  }

  // ---------------------------------------------------------------------
  // This week's batch.
  // ---------------------------------------------------------------------

  /**
   * The batch from the saved position: `batchSize` suburbs from
   * index mod n, wrapping to the front, and the position after it.  Past a
   * whole lap the front slice stops at the end of the list, as a Python
   * slice does.
   */
  function BatchOf(suburbs: seq<string>, batchSize: nat, index: int): (r: (seq<string>, int))
    requires suburbs != []
  {
    var n := |suburbs|;
    var start := index % n;
    var end := start + batchSize;
    if end <= n then (suburbs[start..end], end % n)
    else (suburbs[start..] + suburbs[..if end - n <= n then end - n else n], end % n)
  }

  /**
   * Up to a whole lap, the batch is exactly `batchSize` suburbs read
   * cyclically from the position, and the new position is where it stops,
   * modulo the list length.
   */
  lemma BatchWraps(suburbs: seq<string>, batchSize: nat, index: int)
    requires suburbs != [] && batchSize <= |suburbs|
    ensures var n := |suburbs|; var r := BatchOf(suburbs, batchSize, index);
      && |r.0| == batchSize
      && (forall k | 0 <= k < batchSize :: r.0[k] == suburbs[(index % n + k) % n])
      && r.1 == (index % n + batchSize) % n
      && 0 <= r.1 < n
  {
    var n := |suburbs|;
    var start := index % n;
    var r := BatchOf(suburbs, batchSize, index);
    forall k | 0 <= k < batchSize
      ensures r.0[k] == suburbs[(start + k) % n]
    {
      if start + k < n {
        ModBelow(start + k, n);
      } else {
        ModOneLap(start + k, n);
      }
    }
  }

  lemma ModBelow(x: int, n: int)
    requires 0 <= x < n
    ensures x % n == x
  {
  }

  lemma ModOneLap(x: int, n: int)
    requires 0 < n <= x < 2 * n
    ensures x % n == x - n
  {
  }

  /** The saved refresh state: the position of the next batch, None when the state has none. */
  class RefreshState {
    var index: Option<int>

    /** The state of a first run: position 0. */
    constructor ()
      ensures index == Some(0)
    {
      index := Some(0);
    }

    /** select_batch: no suburbs leaves the state alone; otherwise the batch, and the position moves past it. */
    method SelectBatch(suburbs: seq<string>, batchSize: nat) returns (batch: seq<string>)
      modifies this
      ensures suburbs == [] ==> batch == [] && index == old(index)
      ensures suburbs != [] ==>
        var r := BatchOf(suburbs, batchSize, if old(index).Some? then old(index).value else 0);
        batch == r.0 && index == Some(r.1)
    {
      if suburbs == [] {
        return [];
      }
      var n := |suburbs|;
      var start := (if index.Some? then index.value else 0) % n;
      var end := start + batchSize;
      if end <= n {
        batch := suburbs[start..end];
      } else {
        batch := suburbs[start..] + suburbs[..if end - n <= n then end - n else n];
      }
      index := Some(end % n);
    }
  }

  // ---------------------------------------------------------------------
  // Export columns.
  // ---------------------------------------------------------------------

  /** _price_estimate: the price guide, else the midpoint of a low and high price, else nothing. */
  function PriceEstimate(priceGuide: Option<real>, priceLow: Option<real>, priceHigh: Option<real>): (r: Option<real>)
    ensures priceGuide.Some? && priceGuide.value != 0.0 ==> r == priceGuide
    ensures (priceGuide.None? || priceGuide.value == 0.0) && priceLow.Some? && priceLow.value != 0.0 &&
            priceHigh.Some? && priceHigh.value != 0.0 ==>
      r.Some? && r.value * 2.0 == priceLow.value + priceHigh.value
    ensures r.None? <==>
      ((priceGuide.None? || priceGuide.value == 0.0) &&
       (priceLow.None? || priceLow.value == 0.0 || priceHigh.None? || priceHigh.value == 0.0))
  {
    if priceGuide.Some? && priceGuide.value != 0.0 then priceGuide
    else if priceLow.Some? && priceLow.value != 0.0 && priceHigh.Some? && priceHigh.value != 0.0 then
      Some((priceLow.value + priceHigh.value) / 2.0)
    else None
  }

  datatype SewerLabel = LikelySewered | LikelyUnsewered | Partial | UnknownSewer

  /** _sewer_status. */
  function SewerStatus(note: Option<string>, likelySewered: Option<bool>): SewerLabel
  {
    match likelySewered
    case Some(true) => LikelySewered
    case Some(false) => LikelyUnsewered
    case None => if Contains(Lower(if note.Some? then note.value else ""), "partial") then Partial else UnknownSewer
  }

  /**
   * The sewer estimate decides when there is one; only without one does a
   * note mentioning "partial" (in any case) give the partial label.
   */
  lemma SewerStatusCases(note: Option<string>, likelySewered: Option<bool>)
    ensures SewerStatus(note, likelySewered) == LikelySewered <==> likelySewered == Some(true)
    ensures SewerStatus(note, likelySewered) == LikelyUnsewered <==> likelySewered == Some(false)
    ensures SewerStatus(note, likelySewered) == Partial <==>
      likelySewered.None? && note.Some? && Contains(Lower(note.value), "partial")
    ensures SewerStatus(note, likelySewered) == UnknownSewer <==>
      likelySewered.None? && !(note.Some? && Contains(Lower(note.value), "partial"))
  {
    if note.None? {
      assert !Contains("", "partial");
    }
  }
}

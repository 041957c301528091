/**
 * The shape shared by every block parser of the assembler
 * (`parse_extern`, `parse_label`, `parse_variables` in src/core/IR/parser.rs and
 * `parse_label` in src/core/parser.rs): walk the lines after a header, skip the
 * empty ones, stop at the first line that ends the block and return its index,
 * and turn every other line into one item, in order. A line whose item cannot
 * be built panics, which aborts the scan.
 *
 * `Scan` is the reference meaning of such a parser; each parser's loop is
 * proved equal to it, and the lemmas below say what it computes.
 */
module Blocks {
  import opened RustStd

  /** What a block parser returns when no line ends the block. */
  datatype Exhausted =
    | LenMinusOne   // `lines.len() - 1` (panics on an empty slice)
    | Len           // `lines.len()`

  /** Index of the first line that ends the block, if any. */
  function FirstEnd(lines: seq<string>, isEnd: string -> bool): (r: Option<nat>)
    ensures r.Some? ==> r.value < |lines| && isEnd(lines[r.value])
    ensures r.Some? ==> forall j :: 0 <= j < r.value ==> !isEnd(lines[j])
    ensures r.None? ==> forall j :: 0 <= j < |lines| ==> !isEnd(lines[j])
  {
    if lines == [] then None
    else
      match FirstEnd(lines[..|lines| - 1], isEnd)
      case Some(k) => Some(k)
      case None => if isEnd(lines[|lines| - 1]) then Some(|lines| - 1) else None
  }

  /** The non-empty lines, in their original order. */
  function NonEmpty(lines: seq<string>): (r: seq<string>)
    ensures |r| <= |lines|
    ensures forall k :: 0 <= k < |r| ==> r[k] != []
  {
    if lines == [] then []
    else
      var last := lines[|lines| - 1];
      NonEmpty(lines[..|lines| - 1]) + (if last == [] then [] else [last])
  }

  /** One item per non-empty line, in order, or the panic of the first line that has none. */
  function Collect<T>(lines: seq<string>, item: string -> Outcome<T>): (r: Outcome<seq<T>>)
  {
    if lines == [] then Done([])
    else
      match Collect(lines[..|lines| - 1], item)
      case Panicked(p) => Panicked(p)
      case Done(items) =>
        var last := lines[|lines| - 1];
        if last == [] then Done(items)
        else
          match item(last)
          case Panicked(p) => Panicked(p)
          case Done(x) => Done(items + [x])
  }

  /**
   * The result of a block parser: the items of the lines before the first line
   * that ends the block, with that line's index; or, when no line ends it, the
   * items of all lines with the index `whenExhausted` gives.
   */
  function Scan<T>(lines: seq<string>, isEnd: string -> bool, item: string -> Outcome<T>,
                   whenExhausted: Exhausted): (r: Outcome<(seq<T>, nat)>)
    ensures r.Done? ==> r.value.1 <= |lines|
    ensures r.Done? && r.value.1 == |lines| ==> whenExhausted == Len
  {
    var stop := FirstEnd(lines, isEnd);
    var upTo := if stop.Some? then stop.value else |lines|;
    match Collect(lines[..upTo], item)
    case Panicked(p) => Panicked(p)
    case Done(items) =>
      if stop.Some? then Done((items, stop.value))
      else if whenExhausted == Len then Done((items, |lines|))
      else if |lines| == 0 then Panicked(SubtractWithOverflow)
      else Done((items, |lines| - 1))
  }

  /** A line that ends the block at index `i` is the first such line of every longer block. */
  lemma FirstEndExtends(lines: seq<string>, isEnd: string -> bool, i: nat)
    requires i < |lines|
    requires FirstEnd(lines[..i], isEnd) == None && isEnd(lines[i])
    ensures FirstEnd(lines, isEnd) == Some(i)
  {
    forall j | 0 <= j < i
      ensures !isEnd(lines[j])
    {
      assert lines[..i][j] == lines[j];
    }
    var r := FirstEnd(lines, isEnd);
    assert r.Some?;
  }

  /** A block whose lines are all scanned without meeting an end has no end. */
  lemma FirstEndAll(lines: seq<string>, isEnd: string -> bool)
    requires FirstEnd(lines[..|lines|], isEnd) == None
    ensures FirstEnd(lines, isEnd) == None
  {
    assert lines[..|lines|] == lines;
  }

  /**
   * `Collect` yields exactly one item per non-empty line, each the item of that
   * line, in order; when it fails, it fails with the panic of the first
   * non-empty line that has no item.
   */
  lemma {:induction false} CollectInOrder<T>(lines: seq<string>, item: string -> Outcome<T>)
    ensures var ne, r := NonEmpty(lines), Collect(lines, item);
            r.Done? ==> |r.value| == |ne| && forall k :: 0 <= k < |ne| ==> item(ne[k]) == Done(r.value[k])
    ensures var ne, r := NonEmpty(lines), Collect(lines, item);
            r.Panicked? ==> exists k :: 0 <= k < |ne| && item(ne[k]) == Panicked(r.panic) &&
                                         forall j :: 0 <= j < k ==> item(ne[j]).Done?
    decreases |lines|
  {
    if lines != [] {
      var front, last := lines[..|lines| - 1], lines[|lines| - 1];
      CollectInOrder(front, item);
      var ne0 := NonEmpty(front);
      var ne := NonEmpty(lines);
      assert ne == ne0 + (if last == [] then [] else [last]);
      assert forall k :: 0 <= k < |ne0| ==> ne[k] == ne0[k];
      var r := Collect(lines, item);
      match Collect(front, item)
      case Panicked(p) =>
        var k :| 0 <= k < |ne0| && item(ne0[k]) == Panicked(p) &&
                 forall j :: 0 <= j < k ==> item(ne0[j]).Done?;
        assert r == Panicked(p);
        assert k < |ne| && item(ne[k]) == Panicked(p);
      case Done(items) =>
        if last == [] {
          assert r == Done(items) && ne == ne0;
        } else {
          assert ne[|ne0|] == last;
          match item(last)
          case Panicked(p) =>
            assert r == Panicked(p);
            assert item(ne[|ne0|]) == Panicked(p);
          case Done(x) =>
            assert r == Done(items + [x]);
        }
    }
  }

  /** Empty lines contribute nothing: the non-empty lines of a prefix extend by one line at a time. */
  lemma NonEmptyOneMore(lines: seq<string>, i: nat)
    requires i < |lines|
    ensures NonEmpty(lines[..i + 1]) == NonEmpty(lines[..i]) + (if lines[i] == [] then [] else [lines[i]])
  {
    assert lines[..i + 1][..i] == lines[..i];
  }

  /**
   * What a block parser returns: the index of the first line that ends the
   * block (or, when none does, `len` or `len - 1`), and one item per non-empty
   * line before it, each the item of that line, in order.
   */
  lemma ScanInOrder<T>(lines: seq<string>, isEnd: string -> bool, item: string -> Outcome<T>,
                       whenExhausted: Exhausted)
    requires Scan(lines, isEnd, item, whenExhausted).Done?
    ensures var (items, k) := Scan(lines, isEnd, item, whenExhausted).value;
            var ends := exists j :: 0 <= j < |lines| && isEnd(lines[j]);
            var upTo := if ends then k else |lines|;
            (ends ==> k < |lines| && isEnd(lines[k]) && forall j :: 0 <= j < k ==> !isEnd(lines[j])) &&
            (!ends ==> k == if whenExhausted == Len then |lines| else |lines| - 1) &&
            |items| == |NonEmpty(lines[..upTo])| &&
            forall m :: 0 <= m < |items| ==> item(NonEmpty(lines[..upTo])[m]) == Done(items[m])
  {
    var stop := FirstEnd(lines, isEnd);
    var upTo := if stop.Some? then stop.value else |lines|;
    CollectInOrder(lines[..upTo], item);
  }

  /** Every non-empty line kept is a line of the block. */
  lemma {:induction false} NonEmptyFrom(lines: seq<string>, x: string)
    requires x in NonEmpty(lines)
    ensures x in lines
    decreases |lines|
  {
    var front := lines[..|lines| - 1];
    if x in NonEmpty(front) {
      NonEmptyFrom(front, x);
      assert x in front;
    } else {
      assert x == lines[|lines| - 1];
    }
  }

  /**
   * A block parser panics only when the item of a line before the end of the
   * block panics, or when `len - 1` is taken of no lines at all.
   */
  lemma ScanPanics<T>(lines: seq<string>, isEnd: string -> bool, item: string -> Outcome<T>,
                      whenExhausted: Exhausted)
    requires Scan(lines, isEnd, item, whenExhausted).Panicked?
    ensures var p := Scan(lines, isEnd, item, whenExhausted).panic;
            (|lines| == 0 && whenExhausted == LenMinusOne && p == SubtractWithOverflow) ||
            exists j :: 0 <= j < |lines| && item(lines[j]) == Panicked(p) &&
                        forall i :: 0 <= i < j ==> !isEnd(lines[i])
  {
    var stop := FirstEnd(lines, isEnd);
    var upTo := if stop.Some? then stop.value else |lines|;
    var prefix := lines[..upTo];
    var c := Collect(prefix, item);
    if c.Panicked? {
      CollectInOrder(prefix, item);
      var ne := NonEmpty(prefix);
      var k :| 0 <= k < |ne| && item(ne[k]) == Panicked(c.panic) &&
               forall j :: 0 <= j < k ==> item(ne[j]).Done?;
      NonEmptyFrom(prefix, ne[k]);
      var j :| 0 <= j < |prefix| && prefix[j] == ne[k];
      assert lines[j] == ne[k];
    }
  }

  // ---------------------------------------------------------------------
  // One step of a block parser's loop, in terms of `Scan`

  /** Examining one more line that does not end the block extends the scanned prefix by that line. */
  lemma StepOver<T>(lines: seq<string>, isEnd: string -> bool, item: string -> Outcome<T>, i: nat)
    requires i < |lines| && !isEnd(lines[i])
    requires FirstEnd(lines[..i], isEnd) == None
    ensures FirstEnd(lines[..i + 1], isEnd) == None
    ensures Collect(lines[..i + 1], item) ==
            match Collect(lines[..i], item)
            case Panicked(p) => Panicked(p)
            case Done(items) =>
              if lines[i] == [] then Done(items)
              else match item(lines[i])
                   case Panicked(p) => Panicked(p)
                   case Done(x) => Done(items + [x])
  {
    assert lines[..i + 1][..i] == lines[..i];
    assert lines[..i + 1][i] == lines[i];
  }

  /** Once the scanned prefix has panicked, every longer prefix panics the same way. */
  lemma {:induction false} PanicPersists<T>(lines: seq<string>, item: string -> Outcome<T>, i: nat, j: nat)
    requires i <= j <= |lines|
    requires Collect(lines[..i], item).Panicked?
    ensures Collect(lines[..j], item) == Collect(lines[..i], item)
    decreases j - i
  {
    if i < j {
      PanicPersists(lines, item, i, j - 1);
      assert lines[..j][..j - 1] == lines[..j - 1];
    }
  }

  /** The parser that stops at line `i` returns what `Scan` describes. */
  lemma ScanStopsAt<T>(lines: seq<string>, isEnd: string -> bool, item: string -> Outcome<T>,
                       whenExhausted: Exhausted, i: nat, items: seq<T>)
    requires i < |lines| && isEnd(lines[i])
    requires FirstEnd(lines[..i], isEnd) == None && Collect(lines[..i], item) == Done(items)
    ensures Scan(lines, isEnd, item, whenExhausted) == Done((items, i))
  {
    FirstEndExtends(lines, isEnd, i);
  }

  /** The parser that panics on line `i` panics as `Scan` describes. */
  lemma ScanPanicsAt<T>(lines: seq<string>, isEnd: string -> bool, item: string -> Outcome<T>,
                        whenExhausted: Exhausted, i: nat)
    requires i < |lines|
    requires FirstEnd(lines[..i + 1], isEnd) == None && Collect(lines[..i + 1], item).Panicked?
    ensures Scan(lines, isEnd, item, whenExhausted) == Panicked(Collect(lines[..i + 1], item).panic)
  {
    var stop := FirstEnd(lines, isEnd);
    if stop.Some? {
      assert stop.value > i;
      PanicPersists(lines, item, i + 1, stop.value);
    } else {
      PanicPersists(lines, item, i + 1, |lines|);
    }
  }

  /** The parser that runs off the end returns what `Scan` describes. */
  lemma ScanExhausted<T>(lines: seq<string>, isEnd: string -> bool, item: string -> Outcome<T>,
                         whenExhausted: Exhausted, items: seq<T>)
    requires FirstEnd(lines[..|lines|], isEnd) == None && Collect(lines[..|lines|], item) == Done(items)
    ensures Scan(lines, isEnd, item, whenExhausted) ==
            if whenExhausted == Len then Done((items, |lines|))
            else if |lines| == 0 then Panicked(SubtractWithOverflow)
            else Done((items, |lines| - 1))
  {
    assert lines[..|lines|] == lines;
  }

  /** A block parser stops at the first line that ends the block. */
  lemma ScanStopsAtFirst<T>(lines: seq<string>, isEnd: string -> bool, item: string -> Outcome<T>,
                            whenExhausted: Exhausted, k: nat)
    requires k < |lines| && isEnd(lines[k]) && forall m :: 0 <= m < k ==> !isEnd(lines[m])
    requires Scan(lines, isEnd, item, whenExhausted).Done?
    ensures Scan(lines, isEnd, item, whenExhausted).value.1 == k
  {
    var stop := FirstEnd(lines, isEnd);
    assert stop.Some? && stop.value == k;
  }

  /** A block parser over lines none of which ends the block returns `len` or `len - 1`. */
  lemma ScanRunsOut<T>(lines: seq<string>, isEnd: string -> bool, item: string -> Outcome<T>,
                       whenExhausted: Exhausted)
    requires forall m :: 0 <= m < |lines| ==> !isEnd(lines[m])
    requires Scan(lines, isEnd, item, whenExhausted).Done?
    ensures Scan(lines, isEnd, item, whenExhausted).value.1 == if whenExhausted == Len then |lines| else |lines| - 1
  {
    assert FirstEnd(lines, isEnd).None?;
  }

  /** An item at index `i` put before items at increasing indices from `later > i` on keeps them increasing. */
  lemma PrependAt<T>(at: (int, T) -> bool, i: int, later: int, x: T, xs: seq<T>, js: seq<int>)
    requires i < later && at(i, x) && |js| == |xs|
    requires forall k :: 0 <= k < |js| ==> later <= js[k] && at(js[k], xs[k])
    requires forall k1, k2 :: 0 <= k1 < k2 < |js| ==> js[k1] < js[k2]
    ensures var all, js2 := [x] + xs, [i] + js;
            (forall k :: 0 <= k < |js2| ==> i <= js2[k] && at(js2[k], all[k])) &&
            (forall k1, k2 :: 0 <= k1 < k2 < |js2| ==> js2[k1] < js2[k2])
  {
    var all, js2 := [x] + xs, [i] + js;
    forall k | 0 < k < |js2|
      ensures js2[k] == js[k - 1] && all[k] == xs[k - 1]
    {
    }
  }
}

/** The fixed-size, inclusive layer windows both sharders walk: a window
    starts at 0, ends at `min(start + k, total) - 1`, and the next starts
    right after it. */
module LayerWindows {
  import opened Seqs

  datatype Window = Window(start: nat, end: nat)

  function Min(a: nat, b: nat): nat {
    if a <= b then a else b
  }

  /** `chunk_end = (chunk_start + layers_per_chunk).min(total_layers) - 1`. */
  function WindowAt(start: nat, total: nat, k: nat): (w: Window)
    requires k >= 1 && start < total
    ensures w.start == start && start <= w.end < total
    ensures w.end + 1 == Min(start + k, total)
  {
    Window(start, Min(start + k, total) - 1)
  }

  /** The windows visited from `start` on, each next one starting at the
      previous end plus one. */
  function WindowsFrom(start: nat, total: nat, k: nat): seq<Window>
    requires k >= 1
    decreases total - start
  {
    if start >= total then []
    else
      var w := WindowAt(start, total, k);
      [w] + WindowsFrom(w.end + 1, total, k)
  }

  function Windows(total: nat, k: nat): seq<Window>
    requires k >= 1
  {
    WindowsFrom(0, total, k)
  }

  /** Stepping the start by `k` (Python's `range(0, total, k)`) visits the
      same windows as stepping to `end + 1`. */
  lemma WindowsStep(start: nat, total: nat, k: nat)
    requires k >= 1 && start < total
    ensures WindowsFrom(start, total, k) == [WindowAt(start, total, k)] + WindowsFrom(start + k, total, k)
  {
  }

  /** The windows from `start` tile `[start, total)`: the first starts at
      `start`, each next one starts right after the previous end, each holds
      `k` layers except possibly the last, and the last ends at `total - 1`. */
  lemma {:induction false} WindowsTile(start: nat, total: nat, k: nat)
    requires k >= 1 && start < total
    ensures var ws := WindowsFrom(start, total, k);
      && |ws| >= 1
      && ws[0].start == start
      && ws[|ws| - 1].end == total - 1
      && (forall i :: 0 <= i < |ws| ==> start <= ws[i].start <= ws[i].end < total)
      && (forall i :: 0 <= i < |ws| - 1 ==> ws[i + 1].start == ws[i].end + 1)
      && (forall i :: 0 <= i < |ws| - 1 ==> ws[i].end + 1 - ws[i].start == k)
      && (forall i :: 0 <= i < |ws| ==> ws[i].end + 1 - ws[i].start <= k)
    decreases total - start
  {
    var w := WindowAt(start, total, k);
    if w.end + 1 < total {
      WindowsTile(w.end + 1, total, k);
    }
  }

  /** Every layer below `total` lies in exactly one window. */
  lemma WindowsPartition(total: nat, k: nat, layer: nat)
    requires k >= 1 && layer < total
    ensures var ws := Windows(total, k);
      && (exists i :: 0 <= i < |ws| && ws[i].start <= layer <= ws[i].end)
      && (forall i, j ::
            0 <= i < |ws| && 0 <= j < |ws| && ws[i].start <= layer <= ws[i].end && ws[j].start <= layer <= ws[j].end
            ==> i == j)
  {
    var ws := Windows(total, k);
    WindowsTile(0, total, k);
    WindowsOrdered(ws, total, k);
    WindowsCover(ws, total, k, layer);
  }

  lemma {:induction false} WindowsOrdered(ws: seq<Window>, total: nat, k: nat)
    requires forall i :: 0 <= i < |ws| ==> ws[i].start <= ws[i].end
    requires forall i :: 0 <= i < |ws| - 1 ==> ws[i + 1].start == ws[i].end + 1
    ensures forall i, j :: 0 <= i < j < |ws| ==> ws[i].end < ws[j].start
  {
    if |ws| > 1 {
      var init := ws[..|ws| - 1];
      WindowsOrdered(init, total, k);
      forall i | 0 <= i < |ws| - 1
        ensures ws[i].end < ws[|ws| - 1].start
      {
        var last := |ws| - 1;
        if i < last - 1 {
          assert init[i].end < init[last - 1].start;
        }
      }
    }
  }

  lemma {:induction false} WindowsCover(ws: seq<Window>, total: nat, k: nat, layer: nat)
    requires |ws| >= 1 && ws[0].start == 0 && ws[|ws| - 1].end == total - 1 && layer < total
    requires forall i :: 0 <= i < |ws| - 1 ==> ws[i + 1].start == ws[i].end + 1
    ensures exists i :: 0 <= i < |ws| && ws[i].start <= layer <= ws[i].end
  {
    if ws[|ws| - 1].start <= layer {
      assert ws[|ws| - 1].start <= layer <= ws[|ws| - 1].end;
    } else {
      var init := ws[..|ws| - 1];
      assert |init| >= 1;
      WindowsCover(init, ws[|ws| - 1].start, k, layer);
      var i :| 0 <= i < |init| && init[i].start <= layer <= init[i].end;
      assert ws[i] == init[i];
    }
  }

  /** Window `i` starts at `start + i * k`: the starts Python's
      `range(0, total, k)` produces. */
  lemma {:induction false} WindowStarts(start: nat, total: nat, k: nat)
    requires k >= 1
    ensures var ws := WindowsFrom(start, total, k);
      forall i :: 0 <= i < |ws| ==> ws[i].start == start + i * k
    decreases total - start
  {
    if start < total {
      WindowsStep(start, total, k);
      WindowStarts(start + k, total, k);
      var ws := WindowsFrom(start, total, k);
      forall i | 1 <= i < |ws|
        ensures ws[i].start == start + i * k
      {
        assert ws[i] == WindowsFrom(start + k, total, k)[i - 1];
      }
    }
  }

  function Get<T>(m: map<nat, seq<T>>, key: nat): seq<T> {
    if key in m then m[key] else []
  }

  /** The lists of layers `lo .. hi-1` appended in ascending layer order;
      an absent layer contributes nothing. */
  function CollectRange<T>(layers: map<nat, seq<T>>, lo: nat, hi: nat): seq<T>
    decreases hi
  {
    if hi <= lo then [] else CollectRange(layers, lo, hi - 1) + Get(layers, hi - 1)
  }

  lemma {:induction false} CollectSplit<T>(layers: map<nat, seq<T>>, lo: nat, mid: nat, hi: nat)
    requires lo <= mid <= hi
    ensures CollectRange(layers, lo, hi) == CollectRange(layers, lo, mid) + CollectRange(layers, mid, hi)
    decreases hi
  {
    if mid < hi {
      CollectSplit(layers, lo, mid, hi - 1);
    }
  }

  /** What the windows `ws` collect, window after window. */
  function Collected<T>(layers: map<nat, seq<T>>, ws: seq<Window>): seq<T> {
    if ws == [] then [] else CollectRange(layers, ws[0].start, ws[0].end + 1) + Collected(layers, ws[1..])
  }

  lemma {:induction false} CollectedAppend<T>(layers: map<nat, seq<T>>, ws: seq<Window>, w: Window)
    ensures Collected(layers, ws + [w]) == Collected(layers, ws) + CollectRange(layers, w.start, w.end + 1)
  {
    if ws != [] {
      assert (ws + [w])[1..] == ws[1..] + [w];
      CollectedAppend(layers, ws[1..], w);
    } else {
      assert ([w])[1..] == [];
    }
  }

  /** Draining the windows in order hands out every layer's list exactly
      once, in ascending layer order: what the windows collect, put
      together, is everything in `[start, total)`. */
  lemma {:induction false} DrainAll<T>(layers: map<nat, seq<T>>, start: nat, total: nat, k: nat)
    requires k >= 1 && start <= total
    ensures Collected(layers, WindowsFrom(start, total, k)) == CollectRange(layers, start, total)
    decreases total - start
  {
    if start < total {
      var w := WindowAt(start, total, k);
      var ws, rest := WindowsFrom(start, total, k), WindowsFrom(w.end + 1, total, k);
      assert ws == [w] + rest;
      assert ws[0] == w && ws[1..] == rest;
      DrainAll(layers, w.end + 1, total, k);
      CollectSplit(layers, start, w.end + 1, total);
      assert Collected(layers, ws) == CollectRange(layers, start, w.end + 1) + Collected(layers, rest);
    }
  }
}

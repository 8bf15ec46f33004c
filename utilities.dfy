/** The file-name and row helpers of the analysis notebooks: pod ids and
    metric types read back from the names the per-pod frames are saved
    under, the pod list file, and the per-type, per-pod collection of saved
    frames cut to a time window and bucketed by minute. Files are given as
    their lines or rows. */
module Utilities {
  import opened Basics
  import opened PyStr

  // ---------------------------------------------------------------------
  // File names

  /** The characters of a pod id such as `load-model-service-7d9c8b5f4d-x2k9q`. */
  const POD_ID_LENGTH: nat := 35

  /** The name `persist_pod_dfs` saves one frame under:
      `<base>_<metric type>_<pod id>.csv`, where `base` is the experiment
      directory and the minute stamp. */
  function PodFileName(base: string, metricType: string, podId: string): string
  {
    base + "_" + metricType + "_" + podId + ".csv"
  }

  /** `extract_pod_id(fn)`, the slice `fn[-39:-4]`. */
  function ExtractPodId(fn: string): string
  {
    Slice(fn, -39, -4)
  }

  /** The pod id is the 35 characters before a four-character extension,
      clamped to what there is in a shorter name. */
  lemma ExtractPodIdSlice(fn: string)
    ensures 39 <= |fn| ==> ExtractPodId(fn) == fn[|fn| - 39..|fn| - 4] && |ExtractPodId(fn)| == POD_ID_LENGTH
    ensures 4 <= |fn| < 39 ==> ExtractPodId(fn) == fn[..|fn| - 4]
    ensures |fn| <= 4 ==> ExtractPodId(fn) == []
  {
  }

  /** The three characters `fn[-43:-40]` that end the metric type. */
  function MetricTypeTail(fn: string): string
  {
    Slice(fn, -43, -40)
  }

  /** `extract_metric_type(fn)`: "cpu", "memory" (recognised by its tail
      "ory"), or nothing (the source prints a warning and returns None). */
  function ExtractMetricType(fn: string): Option<string>
  {
    var tail := MetricTypeTail(fn);
    if tail == "cpu" then Some("cpu")
    else if tail == "ory" then Some("memory")
    else None
  }

  /** Which metric type a name gives, by the three characters ending 40
      before its end. */
  lemma ExtractMetricTypeCases(fn: string)
    ensures 43 <= |fn| ==> MetricTypeTail(fn) == fn[|fn| - 43..|fn| - 40]
    ensures |fn| <= 40 ==> MetricTypeTail(fn) == []
    ensures ExtractMetricType(fn) == Some("cpu") <==> MetricTypeTail(fn) == "cpu"
    ensures ExtractMetricType(fn) == Some("memory") <==> MetricTypeTail(fn) == "ory"
    ensures ExtractMetricType(fn).None? <==> MetricTypeTail(fn) != "cpu" && MetricTypeTail(fn) != "ory"
  {
  }

  /** Reading a saved file's name back gives the pod id and the metric type
      it was saved under, whatever the directory and minute stamp. */
  lemma FileNameRoundTrip(base: string, metricType: string, podId: string)
    requires metricType == "cpu" || metricType == "memory"
    requires |podId| == POD_ID_LENGTH
    ensures ExtractPodId(PodFileName(base, metricType, podId)) == podId
    ensures ExtractMetricType(PodFileName(base, metricType, podId)) == Some(metricType)
  {
    var fn := PodFileName(base, metricType, podId);
    ExtractPodIdSlice(fn);
    ExtractMetricTypeCases(fn);
    var front := base + "_" + metricType;
    assert fn == front + ("_" + podId + ".csv");
    assert fn[|fn| - 39..|fn| - 4] == podId;
    assert fn[|fn| - 43..|fn| - 40] == front[|front| - 3..];
    if metricType == "cpu" {
      assert front[|front| - 3..] == "cpu";
    } else {
      assert front[|front| - 3..] == "ory";
    }
  }

  // ---------------------------------------------------------------------
  // Pod list

  /** The pod ids a pod list file holds: every line that is not blank,
      stripped, in file order. */
  function PodIdsOf(lines: seq<string>): (ids: seq<string>)
    ensures |ids| <= |lines|
  {
    if lines == [] then []
    else
      var id := Strip(lines[|lines| - 1]);
      PodIdsOf(lines[..|lines| - 1]) + (if id != "" then [id] else [])
  }

  /** One more line of the file. */
  lemma PodIdsOfNext(lines: seq<string>, i: nat)
    requires i < |lines|
    ensures PodIdsOf(lines[..i + 1])
         == PodIdsOf(lines[..i]) + (if Strip(lines[i]) != "" then [Strip(lines[i])] else [])
    ensures Strip(Strip(lines[i])) == Strip(lines[i])
  {
    assert lines[..i + 1][..i] == lines[..i];
    StripIdempotent(lines[i]);
  }

  /** `read_pod_id_list`, on the lines of the pod list file. */
  method ReadPodIdList(lines: seq<string>) returns (podIds: seq<string>)
    ensures podIds == PodIdsOf(lines)
  {
    podIds := [];
    var i := 0;
    while i < |lines|
      invariant 0 <= i <= |lines|
      invariant podIds == PodIdsOf(lines[..i])
    {
      PodIdsOfNext(lines, i);
      var x := Strip(lines[i]);
      if x != "" {
        podIds := podIds + [Strip(x)];
      }
      i := i + 1;
    }
    assert lines[..i] == lines;
  }

  /** Every listed id is a non-blank line with its surrounding whitespace
      removed. */
  lemma {:induction false} PodIdsAreStripped(lines: seq<string>)
    ensures forall k :: 0 <= k < |PodIdsOf(lines)| ==>
      PodIdsOf(lines)[k] != "" && Trimmed(PodIdsOf(lines)[k])
  {
    if lines != [] {
      var init := lines[..|lines| - 1];
      PodIdsAreStripped(init);
      var ids := PodIdsOf(lines);
      forall k | 0 <= k < |ids| ensures ids[k] != "" && Trimmed(ids[k]) {
        if k < |PodIdsOf(init)| {
          assert ids[k] == PodIdsOf(init)[k];
        }
      }
    }
  }

  /** Each id comes from a line of the file. */
  lemma {:induction false} PodIdFromLine(lines: seq<string>, k: nat)
    requires k < |PodIdsOf(lines)|
    ensures exists j :: 0 <= j < |lines| && Strip(lines[j]) == PodIdsOf(lines)[k]
  {
    var init := lines[..|lines| - 1];
    var ids := PodIdsOf(lines);
    if k < |PodIdsOf(init)| {
      PodIdFromLine(init, k);
      assert ids[k] == PodIdsOf(init)[k];
      var j :| 0 <= j < |init| && Strip(init[j]) == PodIdsOf(init)[k];
      assert lines[j] == init[j];
    } else {
      var j := |lines| - 1;
      assert Strip(lines[j]) == ids[k];
    }
  }

  /** Every non-blank line gives an id, right after the ids of the lines
      before it. */
  lemma NonBlankLinesListed(lines: seq<string>, j: nat)
    requires j < |lines| && Strip(lines[j]) != ""
    ensures var at := |PodIdsOf(lines[..j])|;
      at < |PodIdsOf(lines)| && PodIdsOf(lines)[at] == Strip(lines[j])
  {
    var front, back := lines[..j + 1], lines[j + 1..];
    assert front + back == lines;
    PodIdsInFileOrder(front, back);
    PodIdsOfNext(lines, j);
  }

  /** The ids keep file order: the ids of two consecutive parts of the file
      are those of the first part followed by those of the second. */
  lemma {:induction false} PodIdsInFileOrder(first: seq<string>, second: seq<string>)
    ensures PodIdsOf(first + second) == PodIdsOf(first) + PodIdsOf(second)
    decreases |second|
  {
    if second == [] {
      assert first + second == first;
    } else {
      var init, line := second[..|second| - 1], second[|second| - 1];
      assert second == init + [line];
      assert first + second == (first + init) + [line];
      PodIdsOfSnoc(first + init, line);
      PodIdsOfSnoc(init, line);
      PodIdsInFileOrder(first, init);
      AppendAssoc(PodIdsOf(first), PodIdsOf(init), if Strip(line) != "" then [Strip(line)] else []);
    }
  }

  /** One line appended to the file. */
  lemma PodIdsOfSnoc(lines: seq<string>, line: string)
    ensures PodIdsOf(lines + [line]) == PodIdsOf(lines) + (if Strip(line) != "" then [Strip(line)] else [])
  {
    assert (lines + [line])[..|lines|] == lines;
  }

  // ---------------------------------------------------------------------
  // Time windows and minute buckets

  /** One row of a saved frame: its timestamp and its value. */
  datatype Row = Row(timestamp: real, value: real)

  /** One row after bucketing: the minute it falls in and its value. */
  datatype BucketRow = BucketRow(minute: int, value: real)

  /** Both bounds are optional, and both are inclusive. */
  predicate InWindow(t: real, tmin: Option<real>, tmax: Option<real>)
  {
    (tmin.None? || tmin.value <= t) && (tmax.None? || t <= tmax.value)
  }

  /** The rows the `tmin` and `tmax` filters keep, in order. */
  function Window(rows: seq<Row>, tmin: Option<real>, tmax: Option<real>): (kept: seq<Row>)
    ensures |kept| <= |rows|
  {
    if rows == [] then []
    else
      var r := rows[|rows| - 1];
      Window(rows[..|rows| - 1], tmin, tmax) + (if InWindow(r.timestamp, tmin, tmax) then [r] else [])
  }

  /** A row survives the window exactly when it is in the input and its
      timestamp is within both given bounds; without bounds nothing goes. */
  lemma {:induction false} WindowKeepsExactly(rows: seq<Row>, tmin: Option<real>, tmax: Option<real>)
    ensures forall r :: r in Window(rows, tmin, tmax) <==> r in rows && InWindow(r.timestamp, tmin, tmax)
    ensures tmin.None? && tmax.None? ==> Window(rows, tmin, tmax) == rows
  {
    if rows != [] {
      var init := rows[..|rows| - 1];
      WindowKeepsExactly(init, tmin, tmax);
      assert rows == init + [rows[|rows| - 1]];
    }
  }

  /** `int(60 * int(x / 60.))`: the timestamp rounded to its minute. */
  function MinuteBucket(x: real): int
  {
    60 * Trunc(x / 60.0)
  }

  /** A bucket is a whole number of minutes within the minute before the
      timestamp (after it, for a negative timestamp, as `int` truncates
      toward zero). */
  lemma MinuteBucketBounds(x: real)
    ensures MinuteBucket(x) % 60 == 0
    ensures 0.0 <= x ==> x - 60.0 < MinuteBucket(x) as real <= x
    ensures x < 0.0 ==> x <= MinuteBucket(x) as real < x + 60.0
  {
  }

  /** Each row with its timestamp replaced by its minute bucket. */
  function Bucketed(rows: seq<Row>): (b: seq<BucketRow>)
    ensures |b| == |rows|
    ensures forall k :: 0 <= k < |rows| ==>
      b[k] == BucketRow(MinuteBucket(rows[k].timestamp), rows[k].value)
  {
    seq(|rows|, k requires 0 <= k < |rows| => BucketRow(MinuteBucket(rows[k].timestamp), rows[k].value))
  }

  // ---------------------------------------------------------------------
  // read_pod_df_list

  /** The collected frames: metric type (or None for an unrecognised name),
      then pod id, then the windowed, bucketed rows. */
  type PodDfs = map<Option<string>, map<string, seq<BucketRow>>>

  /** What one matched file contributes: its metric type, its pod id and
      its rows, windowed and bucketed. */
  datatype FileEntry = FileEntry(ty: Option<string>, pid: string, frame: seq<BucketRow>)

  function EntryOf(fn: string, rows: seq<Row>, tmin: Option<real>, tmax: Option<real>): FileEntry
  {
    FileEntry(ExtractMetricType(fn), ExtractPodId(fn), Bucketed(Window(rows, tmin, tmax)))
  }

  /** The entries of all matched files, in glob order. */
  function Entries(fileNames: seq<string>, frames: seq<seq<Row>>, tmin: Option<real>, tmax: Option<real>): (es: seq<FileEntry>)
    requires |fileNames| == |frames|
    ensures |es| == |fileNames|
  {
    if fileNames == [] then []
    else
      var n := |fileNames| - 1;
      Entries(fileNames[..n], frames[..n], tmin, tmax) + [EntryOf(fileNames[n], frames[n], tmin, tmax)]
  }

  /** The `k`th entry is the `k`th file's. */
  lemma {:induction false} EntryAt(fileNames: seq<string>, frames: seq<seq<Row>>, tmin: Option<real>, tmax: Option<real>, k: nat)
    requires k < |fileNames| == |frames|
    ensures Entries(fileNames, frames, tmin, tmax)[k] == EntryOf(fileNames[k], frames[k], tmin, tmax)
    decreases |fileNames|
  {
    var n := |fileNames| - 1;
    if k < n {
      EntryAt(fileNames[..n], frames[..n], tmin, tmax, k);
    }
  }

  /** What the loop of `read_pod_df_list` does with one file: the metric type
      key always, the pod's frame only when the pod is listed. */
  function AddEntry(res: PodDfs, e: FileEntry, podIds: seq<string>): PodDfs
  {
    var withType := if e.ty in res then res else res[e.ty := map[]];
    if e.pid in podIds then withType[e.ty := withType[e.ty][e.pid := e.frame]]
    else withType
  }

  /** The frames collected from the first `n` entries. */
  function Collect(es: seq<FileEntry>, podIds: seq<string>, n: nat): PodDfs
    requires n <= |es|
  {
    if n == 0 then map[] else AddEntry(Collect(es, podIds, n - 1), es[n - 1], podIds)
  }

  /** The frames collected from the first `n` files. */
  function PodDfsOf(fileNames: seq<string>, frames: seq<seq<Row>>, podIds: seq<string>,
                    tmin: Option<real>, tmax: Option<real>, n: nat): PodDfs
    requires n <= |fileNames| == |frames|
  {
    Collect(Entries(fileNames, frames, tmin, tmax), podIds, n)
  }

  /** The loop step of `read_pod_df_list`: the frames of one more file. */
  lemma PodDfsOfNext(fileNames: seq<string>, frames: seq<seq<Row>>, podIds: seq<string>,
                     tmin: Option<real>, tmax: Option<real>, i: nat, before: PodDfs, after: PodDfs)
    requires i < |fileNames| == |frames| && before == PodDfsOf(fileNames, frames, podIds, tmin, tmax, i)
    requires after == AddEntry(before, FileEntry(ExtractMetricType(fileNames[i]), ExtractPodId(fileNames[i]),
                                                 Bucketed(Window(frames[i], tmin, tmax))), podIds)
    ensures after == PodDfsOf(fileNames, frames, podIds, tmin, tmax, i + 1)
  {
    EntryAt(fileNames, frames, tmin, tmax, i);
  }

  /** The four ways one file's step can go, written as the loop writes them. */
  lemma AddEntryCases(res: PodDfs, ty: Option<string>, pid: string, frame: seq<BucketRow>, podIds: seq<string>)
    ensures var withType := if ty !in res then res[ty := map[]] else res;
      AddEntry(res, FileEntry(ty, pid, frame), podIds)
        == if pid in podIds then withType[ty := withType[ty][pid := frame]] else withType
  {
  }

  /** `read_pod_df_list(experiment, tmin, tmax)` on the matched file names,
      in glob order, the rows each of them holds and the pod list. */
  method ReadPodDfList(fileNames: seq<string>, frames: seq<seq<Row>>, podIds: seq<string>,
                       tmin: Option<real>, tmax: Option<real>) returns (res: PodDfs)
    requires |fileNames| == |frames|
    ensures res == PodDfsOf(fileNames, frames, podIds, tmin, tmax, |fileNames|)
  {
    res := map[];
    var i := 0;
    while i < |fileNames|
      invariant 0 <= i <= |fileNames|
      invariant res == PodDfsOf(fileNames, frames, podIds, tmin, tmax, i)
    {
      var fn := fileNames[i];
      ghost var before := res;
      var pid := ExtractPodId(fn);
      var podMetricType := ExtractMetricType(fn);
      AddEntryCases(res, podMetricType, pid, Bucketed(Window(frames[i], tmin, tmax)), podIds);
      if podMetricType !in res {
        res := res[podMetricType := map[]];
      }
      if pid in podIds {
        var kept := Window(frames[i], tmin, tmax);
        res := res[podMetricType := res[podMetricType][pid := Bucketed(kept)]];
      }
      PodDfsOfNext(fileNames, frames, podIds, tmin, tmax, i, before, res);
      i := i + 1;
    }
  }

  /** One entry adds its metric type as a key, and at most its own pod's frame. */
  lemma AddEntryEffect(res: PodDfs, e: FileEntry, podIds: seq<string>)
    ensures AddEntry(res, e, podIds).Keys == res.Keys + {e.ty}
    ensures var after := AddEntry(res, e, podIds);
      forall ty, pid :: ty in after && pid in after[ty] ==>
        || (ty == e.ty && pid == e.pid && pid in podIds && after[ty][pid] == e.frame)
        || (ty in res && pid in res[ty] && after[ty][pid] == res[ty][pid])
  {
  }

  /** An entry leaves the frames of every other (type, pod) pair as they were. */
  lemma AddEntryKeeps(res: PodDfs, e: FileEntry, podIds: seq<string>, ty: Option<string>, pid: string)
    requires ty in res && pid in res[ty]
    requires ty != e.ty || pid != e.pid
    ensures var after := AddEntry(res, e, podIds);
      ty in after && pid in after[ty] && after[ty][pid] == res[ty][pid]
  {
  }

  /** The keys after `n` entries are the types of those entries. */
  lemma {:induction false} CollectTypes(es: seq<FileEntry>, podIds: seq<string>, n: nat)
    requires n <= |es|
    ensures Collect(es, podIds, n).Keys == set k | 0 <= k < n :: es[k].ty
  {
    if n > 0 {
      CollectTypes(es, podIds, n - 1);
      AddEntryEffect(Collect(es, podIds, n - 1), es[n - 1], podIds);
      TypesOfPrefix(es, n);
    }
  }

  /** The types of the first `n` entries: those of the first `n - 1`, and
      the last one's. */
  lemma TypesOfPrefix(es: seq<FileEntry>, n: nat)
    requires 0 < n <= |es|
    ensures (set k | 0 <= k < n :: es[k].ty) == (set k | 0 <= k < n - 1 :: es[k].ty) + {es[n - 1].ty}
  {
    var all := set k | 0 <= k < n :: es[k].ty;
    var before := set k | 0 <= k < n - 1 :: es[k].ty;
    forall t | t in all ensures t in before + {es[n - 1].ty} {
      var k :| 0 <= k < n && es[k].ty == t;
      if k < n - 1 {
        assert t in before;
      }
    }
    forall t | t in before ensures t in all {
      var k :| 0 <= k < n - 1 && es[k].ty == t;
      assert t in all;
    }
    assert es[n - 1].ty in all;
  }

  /** Each collected frame is the frame of one of the first `n` entries
      with that type and pod, and that pod is listed. */
  lemma {:induction false} CollectFrames(es: seq<FileEntry>, podIds: seq<string>, n: nat, ty: Option<string>, pid: string)
    returns (k: nat)
    requires n <= |es|
    requires var res := Collect(es, podIds, n); ty in res && pid in res[ty]
    ensures pid in podIds
    ensures k < n && es[k].ty == ty && es[k].pid == pid && es[k].frame == Collect(es, podIds, n)[ty][pid]
  {
    var before := Collect(es, podIds, n - 1);
    AddEntryEffect(before, es[n - 1], podIds);
    if ty in before && pid in before[ty] && Collect(es, podIds, n)[ty][pid] == before[ty][pid] {
      k := CollectFrames(es, podIds, n - 1, ty, pid);
    } else {
      k := n - 1;
    }
  }

  /** A listed entry's frame survives to the end unless a later entry has
      the same type and pod. */
  lemma {:induction false} CollectLastWins(es: seq<FileEntry>, podIds: seq<string>, n: nat, k: nat)
    requires k < n <= |es| && es[k].pid in podIds
    requires forall j :: k < j < n ==> es[j].ty != es[k].ty || es[j].pid != es[k].pid
    ensures var res := Collect(es, podIds, n);
      es[k].ty in res && es[k].pid in res[es[k].ty] && res[es[k].ty][es[k].pid] == es[k].frame
  {
    var before := Collect(es, podIds, n - 1);
    if k < n - 1 {
      CollectLastWins(es, podIds, n - 1, k);
      AddEntryKeeps(before, es[n - 1], podIds, es[k].ty, es[k].pid);
    } else {
      AddEntryEffect(before, es[n - 1], podIds);
    }
  }

  /** Every matched file makes its metric type a key, even when its pod is
      not listed; no other key appears. */
  lemma PodDfsTypes(fileNames: seq<string>, frames: seq<seq<Row>>, podIds: seq<string>,
                    tmin: Option<real>, tmax: Option<real>, n: nat)
    requires n <= |fileNames| == |frames|
    ensures PodDfsOf(fileNames, frames, podIds, tmin, tmax, n).Keys
         == set k | 0 <= k < n :: ExtractMetricType(fileNames[k])
  {
    var es := Entries(fileNames, frames, tmin, tmax);
    CollectTypes(es, podIds, n);
    forall k | 0 <= k < n ensures es[k].ty == ExtractMetricType(fileNames[k]) {
      EntryAt(fileNames, frames, tmin, tmax, k);
    }
    assert (set k | 0 <= k < n :: es[k].ty) == set k | 0 <= k < n :: ExtractMetricType(fileNames[k]);
  }

  /** `frame` is what one of the first `n` files, of type `ty` and pod
      `pid`, contributes. */
  predicate FrameFromFile(fileNames: seq<string>, frames: seq<seq<Row>>, tmin: Option<real>, tmax: Option<real>,
                          n: nat, ty: Option<string>, pid: string, frame: seq<BucketRow>)
    requires n <= |fileNames| == |frames|
  {
    exists k :: 0 <= k < n && FileGives(fileNames[k], frames[k], tmin, tmax, ty, pid, frame)
  }

  predicate FileGives(fn: string, rows: seq<Row>, tmin: Option<real>, tmax: Option<real>,
                      ty: Option<string>, pid: string, frame: seq<BucketRow>)
  {
    ExtractMetricType(fn) == ty && ExtractPodId(fn) == pid && frame == Bucketed(Window(rows, tmin, tmax))
  }

  /** Only listed pods get a frame, and each frame is the window of the rows
      of a file naming that type and pod, bucketed by minute. */
  lemma PodDfsFrames(fileNames: seq<string>, frames: seq<seq<Row>>, podIds: seq<string>,
                     tmin: Option<real>, tmax: Option<real>, n: nat,
                     ty: Option<string>, pid: string)
    requires n <= |fileNames| == |frames|
    requires var res := PodDfsOf(fileNames, frames, podIds, tmin, tmax, n);
      ty in res && pid in res[ty]
    ensures pid in podIds
    ensures FrameFromFile(fileNames, frames, tmin, tmax, n, ty, pid,
                          PodDfsOf(fileNames, frames, podIds, tmin, tmax, n)[ty][pid])
  {
    var es := Entries(fileNames, frames, tmin, tmax);
    var k := CollectFrames(es, podIds, n, ty, pid);
    EntryAt(fileNames, frames, tmin, tmax, k);
    assert FileGives(fileNames[k], frames[k], tmin, tmax, ty, pid, es[k].frame);
  }

  /** The frame a listed pod ends with comes from the LAST file naming that
      type and pod: a later file overwrites an earlier one. */
  lemma PodDfsLastFileWins(fileNames: seq<string>, frames: seq<seq<Row>>, podIds: seq<string>,
                           tmin: Option<real>, tmax: Option<real>, n: nat, k: nat)
    requires n <= |fileNames| == |frames| && k < n
    requires ExtractPodId(fileNames[k]) in podIds
    requires forall j :: k < j < n ==>
      ExtractMetricType(fileNames[j]) != ExtractMetricType(fileNames[k])
      || ExtractPodId(fileNames[j]) != ExtractPodId(fileNames[k])
    ensures var res := PodDfsOf(fileNames, frames, podIds, tmin, tmax, n);
      var ty, pid := ExtractMetricType(fileNames[k]), ExtractPodId(fileNames[k]);
      ty in res && pid in res[ty] && res[ty][pid] == Bucketed(Window(frames[k], tmin, tmax))
  {
    var es := Entries(fileNames, frames, tmin, tmax);
    EntryAt(fileNames, frames, tmin, tmax, k);
    forall j | k < j < n ensures es[j].ty != es[k].ty || es[j].pid != es[k].pid {
      EntryAt(fileNames, frames, tmin, tmax, j);
    }
    CollectLastWins(es, podIds, n, k);
  }

  /** A frame in the collection holds only rows of its window, each at the
      start of its minute. */
  lemma FrameRowsInWindow(rows: seq<Row>, tmin: Option<real>, tmax: Option<real>)
    ensures forall b :: b in Bucketed(Window(rows, tmin, tmax)) ==>
      b.minute % 60 == 0 && exists r :: (r in rows && InWindow(r.timestamp, tmin, tmax)
        && b == BucketRow(MinuteBucket(r.timestamp), r.value))
  {
    var kept := Window(rows, tmin, tmax);
    WindowKeepsExactly(rows, tmin, tmax);
    forall b | b in Bucketed(kept)
      ensures b.minute % 60 == 0 && exists r :: (r in rows && InWindow(r.timestamp, tmin, tmax)
        && b == BucketRow(MinuteBucket(r.timestamp), r.value))
    {
      var k :| 0 <= k < |kept| && Bucketed(kept)[k] == b;
      MinuteBucketBounds(kept[k].timestamp);
      assert kept[k] in kept;
    }
  }
}

/** Which calls of codex sub-threads the reconciliation anchors and to what, read off the rows
    and the reports: the latest started row of the thread decides, else its agent path. */
module CodexAnchors {
  import opened Llm
  import opened DeriveModel
  import opened DeriverModel
  import opened ReconcileModel
  import opened CodexSpawns

  // ---------------------------------------------------------------- the reference

  /** Row i names a spawn of a codex thread. */
  ghost predicate SpawnRow(files: seq<TranscriptFile>, i: int)
    ensures SpawnRow(files, i) ==> 0 <= i < |files|
  {
    0 <= i < |files| && files[i].session.harness == "codex" && files[i].agentId != "" && files[i].toolUseId != ""
  }

  /** Row i is the latest started row of the thread. */
  ghost predicate LatestRow(files: seq<TranscriptFile>, thread: Key, i: int)
    ensures LatestRow(files, thread, i) ==> 0 <= i < |files|
  {
    && SpawnRow(files, i) && files[i].started && files[i].session == thread.session && files[i].agentId == thread.id
    && forall j | i < j < |files| && SpawnRow(files, j) && files[j].started ::
         files[j].session != thread.session || files[j].agentId != thread.id
  }

  /** The thread's metadata names a path for which one spawn id, and no other, was reported. */
  ghost predicate PathGives(rs: Reported, threads: map<Key, ThreadMeta>, thread: Key, id: string) {
    && thread in threads && threads[thread].path != ""
    && OnlyId(rs, Key(thread.session, threads[thread].path), id)
  }

  /** What a thread resolves to: its latest row's tool, else its path's spawn id, else nothing. */
  ghost predicate Resolves(rs: Reported, files: seq<TranscriptFile>, threads: map<Key, ThreadMeta>, thread: Key, a: string) {
    if exists i :: LatestRow(files, thread, i) then exists i :: LatestRow(files, thread, i) && a == files[i].toolUseId
    else if exists id :: PathGives(rs, threads, thread, id) then PathGives(rs, threads, thread, a)
    else a == ""
  }

  /** A wire call of a codex sub-thread takes what its thread resolves to, if anything; every
      other call, and everything else about this one, stays. */
  ghost predicate AnchorTold(rs: Reported, files: seq<TranscriptFile>, threads: map<Key, ThreadMeta>, s: Source, r: Source) {
    if s.wire && s.session.harness == "codex" && s.thread != "" then
      exists a :: Resolves(rs, files, threads, Key(s.session, s.thread), a) && r == s.(anchor := if a != "" then a else s.anchor)
    else r == s
  }

  // ---------------------------------------------------------------- the anchor row

  lemma {:induction false} RowMeans(files: seq<TranscriptFile>, thread: Key)
    ensures var row := AnchorRow(files, thread);
            && (row.None? <==> !exists i :: LatestRow(files, thread, i))
            && (row.Some? ==> exists i :: LatestRow(files, thread, i) && files[i] == row.value)
  {
    if files != [] {
      var n := |files| - 1;
      var f := files[n];
      RowMeans(files[..n], thread);
      if IsAnchor(f) && f.started && Key(f.session, f.agentId) == thread {
        assert LatestRow(files, thread, n);
      } else {
        forall i ensures LatestRow(files, thread, i) <==> LatestRow(files[..n], thread, i) {
          RowEarlier(files, thread, i);
        }
      }
    }
  }

  lemma RowEarlier(files: seq<TranscriptFile>, thread: Key, i: int)
    requires files != []
    requires var f := files[|files| - 1]; !(IsAnchor(f) && f.started && Key(f.session, f.agentId) == thread)
    ensures LatestRow(files, thread, i) <==> LatestRow(files[..|files| - 1], thread, i)
  {
    var n := |files| - 1;
    forall j ensures SpawnRow(files, j) <==> SpawnRow(files[..n], j) || (j == n && IsAnchor(files[n])) {
    }
    assert forall j | 0 <= j < n :: files[..n][j] == files[j];
  }

  lemma LatestIsOne(files: seq<TranscriptFile>, thread: Key, i: int, j: int)
    requires LatestRow(files, thread, i) && LatestRow(files, thread, j)
    ensures i == j
  {
  }

  /** What the code resolves a thread to is what the rows and the reports say. */
  lemma AnchorResolves(d: Derived, name: TaskName, files: seq<TranscriptFile>, threads: map<Key, ThreadMeta>, thread: Key)
    requires Aligned(d.sources)
    ensures Resolves(AllReports(d, name, d.sources), files, threads, thread,
                     SpawnAnchor(files, JoinAll(d, name, d.sources), threads, thread))
  {
    hide LatestRow, AllReports, JoinAll, OnlyId, AnchorRow;
    RowMeans(files, thread);
    if thread in threads { PathJoinsIffSingleton(d, name, d.sources, Key(thread.session, threads[thread].path)); }
  }

  /** And nothing else is. */
  lemma ResolvesOnce(rs: Reported, files: seq<TranscriptFile>, threads: map<Key, ThreadMeta>, thread: Key, a: string, b: string)
    requires Resolves(rs, files, threads, thread, a) && Resolves(rs, files, threads, thread, b)
    ensures a == b
  {
    hide LatestRow;
    forall i, j | LatestRow(files, thread, i) && LatestRow(files, thread, j) ensures i == j { LatestIsOne(files, thread, i, j); }
  }

  /** Every call after the join, read off the calls before it, the rows and the reports. */
  lemma EveryAnchorIsDecided(d: Derived, name: TaskName, files: seq<TranscriptFile>, threads: map<Key, ThreadMeta>, k: nat)
    requires Aligned(d.sources) && k < |d.sources|
    ensures AnchorTold(AllReports(d, name, d.sources), files, threads, d.sources[k],
                       AnchoredAll(files, JoinAll(d, name, d.sources), threads, d.sources)[k])
  {
    hide AllReports, JoinAll, SpawnAnchor, Resolves;
    var s := d.sources[k];
    AnchorResolves(d, name, files, threads, Key(s.session, s.thread));
  }

  // ---------------------------------------------------------------- the rows left out

  ghost function InteractedRows(files: seq<TranscriptFile>): set<int> {
    set i | 0 <= i < |files| && SpawnRow(files, i) && !files[i].started
  }

  /** The rows counted as interacted are the spawn rows that did not start a thread. */
  lemma {:induction false} InteractedCounts(files: seq<TranscriptFile>)
    ensures Interacted(files) == |InteractedRows(files)|
  {
    if files == [] {
      assert InteractedRows(files) == {};
    } else {
      var n := |files| - 1;
      InteractedCounts(files[..n]);
      assert forall j | 0 <= j < n :: files[..n][j] == files[j];
      assert InteractedRows(files) == InteractedRows(files[..n]) + if IsAnchor(files[n]) && !files[n].started then {n} else {};
    }
  }
}

/** Garbage collection of the working directories under one parent directory. */
module WorkDir {
  import opened Common

  datatype Kind = File | Directory

  datatype FileInfo = FileInfo(name: string, isDir: bool)

  datatype Outcome = Collected | ListFailed | ReadDirFailed | CouldNotDelete(paths: seq<string>)

  /** A directory listing: every entry once, in the order it was read. */
  predicate Lists(fis: seq<FileInfo>, entries: map<string, Kind>) {
    && (forall i, j :: 0 <= i < j < |fis| ==> fis[i].name != fis[j].name)
    && (forall i :: 0 <= i < |fis| ==> fis[i].name in entries && fis[i].isDir == (entries[fis[i].name] == Directory))
    && (forall name :: name in entries ==> exists i :: 0 <= i < |fis| && fis[i].name == name)
  }

  lemma ListsOneMore(fis: seq<FileInfo>, entries: map<string, Kind>, name: string, kind: Kind)
    requires Lists(fis, entries) && name !in entries
    ensures Lists(fis + [FileInfo(name, kind == Directory)], entries[name := kind])
  {
    var more, bigger := fis + [FileInfo(name, kind == Directory)], entries[name := kind];
    forall n | n in bigger
      ensures exists i :: 0 <= i < |more| && more[i].name == n
    {
      if n == name {
        assert more[|fis|].name == n;
      } else {
        var i :| 0 <= i < |fis| && fis[i].name == n;
        assert more[i].name == n;
      }
    }
  }

  /** A pass goes for directories with a UUID's name that it has not seen listed. */
  predicate Garbage(name: string, kind: Kind, isUUID: string -> bool, uids: seq<string>) {
    kind == Directory && isUUID(name) && name !in uids
  }

  predicate Stays(name: string, kind: Kind, isUUID: string -> bool, uids: seq<string>, stuck: set<string>) {
    Garbage(name, kind, isUUID, uids) ==> name in stuck
  }

  /** What one pass leaves: everything but garbage, and garbage it could not remove. */
  function Survivors(entries: map<string, Kind>, isUUID: string -> bool, uids: seq<string>, stuck: set<string>)
    : map<string, Kind>
  {
    map name | name in entries && Stays(name, entries[name], isUUID, uids, stuck) :: entries[name]
  }

  /** The garbage that could not be removed, by path, in the order of the listing. */
  function StuckPaths(parent: string, fis: seq<FileInfo>, isUUID: string -> bool, uids: seq<string>, stuck: set<string>)
    : seq<string>
  {
    if fis == [] then []
    else
      var fi := fis[|fis| - 1];
      StuckPaths(parent, fis[..|fis| - 1], isUUID, uids, stuck)
      + (if fi.isDir && isUUID(fi.name) && fi.name !in uids && fi.name in stuck then [parent + "/" + fi.name] else [])
  }

  predicate Goes(fi: FileInfo, isUUID: string -> bool, uids: seq<string>, stuck: set<string>) {
    fi.isDir && isUUID(fi.name) && fi.name !in uids && fi.name !in stuck
  }

  /** The entries after removing what goes among the first ones listed. */
  function Removed(entries: map<string, Kind>, fis: seq<FileInfo>, isUUID: string -> bool, uids: seq<string>,
                   stuck: set<string>)
    : map<string, Kind>
  {
    if fis == [] then entries
    else
      var before, fi := Removed(entries, fis[..|fis| - 1], isUUID, uids, stuck), fis[|fis| - 1];
      if Goes(fi, isUUID, uids, stuck) then before - {fi.name} else before
  }

  lemma {:induction false} RemovedMembers(entries: map<string, Kind>, fis: seq<FileInfo>, isUUID: string -> bool,
                                          uids: seq<string>, stuck: set<string>, name: string)
    ensures name in Removed(entries, fis, isUUID, uids, stuck) <==>
      name in entries && forall i :: 0 <= i < |fis| && fis[i].name == name ==> !Goes(fis[i], isUUID, uids, stuck)
    ensures name in Removed(entries, fis, isUUID, uids, stuck) ==>
      Removed(entries, fis, isUUID, uids, stuck)[name] == entries[name]
  {
    if fis != [] {
      var before := fis[..|fis| - 1];
      RemovedMembers(entries, before, isUUID, uids, stuck, name);
      assert forall i :: 0 <= i < |before| ==> before[i] == fis[i];
    }
  }

  /** Going through a whole listing removes exactly the garbage that can be removed. */
  lemma RemovedAll(entries: map<string, Kind>, fis: seq<FileInfo>, isUUID: string -> bool, uids: seq<string>,
                   stuck: set<string>)
    requires Lists(fis, entries)
    ensures Removed(entries, fis, isUUID, uids, stuck) == Survivors(entries, isUUID, uids, stuck)
  {
    var left, right := Removed(entries, fis, isUUID, uids, stuck), Survivors(entries, isUUID, uids, stuck);
    forall name
      ensures name in left <==> name in right
      ensures name in left ==> left[name] == right[name]
    {
      RemovedMembers(entries, fis, isUUID, uids, stuck, name);
      if name in entries {
        var i :| 0 <= i < |fis| && fis[i].name == name;
        assert Goes(fis[i], isUUID, uids, stuck) <==> !Stays(name, entries[name], isUUID, uids, stuck);
      }
    }
  }

  class GarbageCollector {
    const parentDir: string
    const isUUID: string -> bool  // uuid.Parse succeeds
    var entries: map<string, Kind>  // what parentDir holds

    constructor (parentDir: string, isUUID: string -> bool, entries: map<string, Kind>)
      ensures this.parentDir == parentDir && this.isUUID == isUUID && this.entries == entries
    {
      this.parentDir, this.isUUID, this.entries := parentDir, isUUID, entries;
    }

    method ReadDir() returns (fis: seq<FileInfo>)
      ensures Lists(fis, entries)
    {
      fis := [];
      var rest := entries.Keys;
      while rest != {}
        invariant rest <= entries.Keys
        invariant Lists(fis, map name | name in entries && name !in rest :: entries[name])
        decreases |rest|
      {
        var name :| name in rest;
        ghost var done := map n | n in entries && n !in rest :: entries[n];
        ListsOneMore(fis, done, name, entries[name]);
        fis := fis + [FileInfo(name, entries[name] == Directory)];
        rest := rest - {name};
        assert (map n | n in entries && n !in rest :: entries[n]) == done[name := entries[name]];
      }
      assert (map name | name in entries && name !in rest :: entries[name]) == entries;
    }

    /** The set of listed UIDs, as the map the source builds. */
    method Known(uids: seq<string>) returns (known: map<string, bool>)
      ensures forall u :: u in known <==> u in uids
    {
      known := map[];
      var k := 0;
      while k < |uids|
        invariant 0 <= k <= |uids|
        invariant forall u :: u in known <==> u in uids[..k]
      {
        known := known[uids[k] := true];
        k := k + 1;
      }
      assert uids[..k] == uids;
    }

    /** The removal loop: it goes on past failures and remembers their paths. */
    method RemoveGarbage(fis: seq<FileInfo>, ghost uids: seq<string>, known: map<string, bool>, stuck: set<string>)
      returns (failed: seq<string>)
      requires Lists(fis, entries)
      requires forall u :: u in known <==> u in uids
      modifies this
      ensures entries == Survivors(old(entries), isUUID, uids, stuck)
      ensures failed == StuckPaths(parentDir, fis, isUUID, uids, stuck)
    {
      ghost var before := entries;
      failed := [];
      var i := 0;
      while i < |fis|
        invariant 0 <= i <= |fis|
        invariant failed == StuckPaths(parentDir, fis[..i], isUUID, uids, stuck)
        invariant entries == Removed(before, fis[..i], isUUID, uids, stuck)
      {
        var fi := fis[i];
        assert fis[..i + 1][..i] == fis[..i];
        if fi.isDir && isUUID(fi.name) && fi.name !in known {
          var path := parentDir + "/" + fi.name;
          if fi.name in stuck {
            failed := failed + [path];
          } else {
            entries := entries - {fi.name};
          }
        }
        i := i + 1;
      }
      assert fis[..i] == fis;
      RemovedAll(before, fis, isUUID, uids, stuck);
    }

    /**
    One pass of either kind. A list that cannot be read, or a directory that cannot, ends the
    pass with nothing changed; a removal that fails does not end it.
    */
    method Collect(namespaced: bool, clusterList: Option<seq<string>>, namespacedList: Option<seq<string>>,
                   readable: bool, stuck: set<string>)
      returns (r: Outcome, fis: seq<FileInfo>)
      modifies this
      ensures var list := if namespaced then namespacedList else clusterList;
        if list.None? then r == ListFailed && entries == old(entries)
        else if !readable then r == ReadDirFailed && entries == old(entries)
        else
          && Lists(fis, old(entries))
          && entries == Survivors(old(entries), isUUID, list.value, stuck)
          && r == (var paths := StuckPaths(parentDir, fis, isUUID, list.value, stuck);
                   if paths == [] then Collected else CouldNotDelete(paths))
    {
      fis := [];
      var list := if namespaced then namespacedList else clusterList;
      if list.None? {
        return ListFailed, fis;
      }
      var uids := list.value;
      var known := Known(uids);
      if !readable {
        return ReadDirFailed, fis;
      }
      fis := ReadDir();
      var failed := RemoveGarbage(fis, uids, known, stuck);
      r := if |failed| > 0 then CouldNotDelete(failed) else Collected;
    }

    /** The ticker loop of both collectors up to some tick; a failed pass is logged and the next tick comes. */
    method RunTicks(ticks: seq<Tick>)
      modifies this
      ensures entries == AfterTicks(old(entries), isUUID, ticks)
    {
      var i := 0;
      while i < |ticks|
        invariant 0 <= i <= |ticks|
        invariant entries == AfterTicks(old(entries), isUUID, ticks[..i])
      {
        assert ticks[..i + 1][..i] == ticks[..i];
        var t := ticks[i];
        var r, fis := Collect(t.namespaced, if t.namespaced then None else t.list,
                              if t.namespaced then t.list else None,
                              t.readable, t.stuck);
        i := i + 1;
      }
      assert ticks[..i] == ticks;
    }
  }

  /** What one tick of a collector meets: its list of UIDs, or none if listing fails. */
  datatype Tick = Tick(namespaced: bool, list: Option<seq<string>>, readable: bool, stuck: set<string>)

  function AfterTick(entries: map<string, Kind>, isUUID: string -> bool, t: Tick): map<string, Kind> {
    if t.list.None? || !t.readable then entries else Survivors(entries, isUUID, t.list.value, t.stuck)
  }

  function AfterTicks(entries: map<string, Kind>, isUUID: string -> bool, ticks: seq<Tick>): map<string, Kind> {
    if ticks == [] then entries
    else AfterTick(AfterTicks(entries, isUUID, ticks[..|ticks| - 1]), isUUID, ticks[|ticks| - 1])
  }

  // ---- One pass -----------------------------------------------------------------------

  /** The error names exactly the garbage that is still there. */
  lemma {:induction false} ErrorNamesWhatIsLeft(parent: string, fis: seq<FileInfo>, isUUID: string -> bool,
                                                uids: seq<string>, stuck: set<string>)
    ensures forall path :: path in StuckPaths(parent, fis, isUUID, uids, stuck) <==>
      exists i :: 0 <= i < |fis| && fis[i].isDir && isUUID(fis[i].name) && fis[i].name !in uids
        && fis[i].name in stuck && path == parent + "/" + fis[i].name
  {
    if fis != [] {
      var before, n := fis[..|fis| - 1], |fis| - 1;
      ErrorNamesWhatIsLeft(parent, before, isUUID, uids, stuck);
      assert forall i :: 0 <= i < n ==> before[i] == fis[i];
    }
  }

  /** The listing order is kept, whatever part of the listing one looks at. */
  lemma {:induction false} ErrorKeepsOrder(parent: string, fis: seq<FileInfo>, k: nat, isUUID: string -> bool,
                                           uids: seq<string>, stuck: set<string>)
    requires k <= |fis|
    ensures StuckPaths(parent, fis, isUUID, uids, stuck)
         == StuckPaths(parent, fis[..k], isUUID, uids, stuck) + StuckPaths(parent, fis[k..], isUUID, uids, stuck)
    decreases |fis|
  {
    if k == |fis| {
      assert fis[..k] == fis;
    } else {
      var before := fis[..|fis| - 1];
      ErrorKeepsOrder(parent, before, k, isUUID, uids, stuck);
      assert before[..k] == fis[..k] && fis[k..][..|fis| - k - 1] == before[k..];
    }
  }

  // ---- Many passes --------------------------------------------------------------------

  predicate Smooth(t: Tick) {
    t.list.Some? && t.readable && t.stuck == {}
  }

  predicate AllSmooth(ticks: seq<Tick>) {
    forall i :: 0 <= i < |ticks| ==> Smooth(ticks[i])
  }

  predicate ListedInAll(name: string, ticks: seq<Tick>)
    requires AllSmooth(ticks)
  {
    forall i :: 0 <= i < |ticks| ==> name in ticks[i].list.value
  }

  /** Kept by every pass: not a directory, not a UUID, or listed every time. */
  lemma {:induction false} SurvivorsExact(entries: map<string, Kind>, isUUID: string -> bool, ticks: seq<Tick>,
                                          name: string)
    requires AllSmooth(ticks)
    ensures name in AfterTicks(entries, isUUID, ticks) <==>
      name in entries && (entries[name] == Directory && isUUID(name) ==> ListedInAll(name, ticks))
    ensures name in AfterTicks(entries, isUUID, ticks) ==> AfterTicks(entries, isUUID, ticks)[name] == entries[name]
  {
    if ticks != [] {
      var before := ticks[..|ticks| - 1];
      SurvivorsExact(entries, isUUID, before, name);
      assert forall i :: 0 <= i < |before| ==> before[i] == ticks[i];
    }
  }

  /** Only which lists were read matters: not their order, number or kind. */
  lemma PassOrderIrrelevant(entries: map<string, Kind>, isUUID: string -> bool, ticks: seq<Tick>, others: seq<Tick>)
    requires AllSmooth(ticks) && AllSmooth(others)
    requires forall name :: ListedInAll(name, ticks) <==> ListedInAll(name, others)
    ensures AfterTicks(entries, isUUID, ticks) == AfterTicks(entries, isUUID, others)
  {
    forall name
      ensures name in AfterTicks(entries, isUUID, ticks) <==> name in AfterTicks(entries, isUUID, others)
      ensures name in AfterTicks(entries, isUUID, ticks) ==>
        AfterTicks(entries, isUUID, ticks)[name] == AfterTicks(entries, isUUID, others)[name]
    {
      SurvivorsExact(entries, isUUID, ticks, name);
      SurvivorsExact(entries, isUUID, others, name);
    }
  }

  lemma PermutedTicks(entries: map<string, Kind>, isUUID: string -> bool, ticks: seq<Tick>, others: seq<Tick>)
    requires AllSmooth(ticks) && multiset(ticks) == multiset(others)
    ensures AfterTicks(entries, isUUID, ticks) == AfterTicks(entries, isUUID, others)
  {
    forall t
      ensures t in ticks <==> t in others
    {
      assert t in ticks <==> t in multiset(ticks);
      assert t in others <==> t in multiset(others);
    }
    assert forall i :: 0 <= i < |ticks| ==> ticks[i] in others;
    assert forall i :: 0 <= i < |others| ==> others[i] in ticks;
    PassOrderIrrelevant(entries, isUUID, ticks, others);
  }

  /** Repeating a pass with a list already used changes nothing. */
  lemma RepeatedPassIsNoOp(entries: map<string, Kind>, isUUID: string -> bool, ticks: seq<Tick>, k: nat)
    requires AllSmooth(ticks) && k < |ticks|
    ensures AfterTicks(entries, isUUID, ticks + [ticks[k]]) == AfterTicks(entries, isUUID, ticks)
  {
    var more := ticks + [ticks[k]];
    assert AllSmooth(more);
    forall name
      ensures ListedInAll(name, more) <==> ListedInAll(name, ticks)
    {
      assert more[|ticks|] == ticks[k];
      assert forall i :: 0 <= i < |ticks| ==> more[i] == ticks[i];
    }
    PassOrderIrrelevant(entries, isUUID, more, ticks);
  }

  /**
  Both collectors work under the same parent. The directory of a workspace that only the
  collector of its own kind can list is gone after any run in which the other has passed.
  */
  lemma OtherKindRemovesLiveDirectory(entries: map<string, Kind>, isUUID: string -> bool, ticks: seq<Tick>,
                                      uid: string, namespaced: bool)
    requires AllSmooth(ticks)
    requires isUUID(uid) && uid in entries && entries[uid] == Directory
    requires forall i :: 0 <= i < |ticks| ==> (uid in ticks[i].list.value <==> ticks[i].namespaced == namespaced)
    ensures uid in AfterTicks(entries, isUUID, ticks)
       <==> forall i :: 0 <= i < |ticks| ==> ticks[i].namespaced == namespaced
  {
    SurvivorsExact(entries, isUUID, ticks, uid);
  }
}

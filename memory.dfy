/** The per-agent conversation memory (`MemoryService`): one JSON file per
    agent in the memory directory, holding at most the 50 most recent
    lines. */
module Memory {
  import opened Common

  /** How many lines a record keeps. */
  const MemoryCap: nat := 50
  const MemoryExtension := "json"

  /** A directory entry: base name and extension. */
  datatype FileName = FileName(base: string, ext: string)

  /** `MemoryData` as decoded from a file (the timestamp is not modelled). */
  datatype MemoryData = MemoryData(agentId: Uuid, messages: seq<string>)

  /** The memory directory: every file in it and what it decodes to. */
  type Directory = map<FileName, Payload<MemoryData>>

  /** `<uuidString>.json`: the file of one agent. */
  function FileFor(agentId: Uuid): FileName {
    FileName(agentId, MemoryExtension)
  }

  /** Different agents never share a file. */
  lemma FileForInjective(a: Uuid, b: Uuid)
    ensures FileFor(a) == FileFor(b) <==> a == b
  {
  }

  /** The part of `old + [m]` that `removeFirst(count - 50)` keeps. */
  function KeepLast(s: seq<string>): (r: seq<string>)
    ensures |r| == if |s| <= MemoryCap then |s| else MemoryCap
    ensures r == s[|s| - |r|..]
  {
    if |s| > MemoryCap then s[|s| - MemoryCap..] else s
  }

  /** `loadMemory(for:)` read against a directory: the record's lines, or
      nothing when the file is absent or does not decode. */
  function Load(dir: Directory, agentId: Uuid): seq<string> {
    var name := FileFor(agentId);
    if name in dir && dir[name].WellFormed? then dir[name].value.messages else []
  }

  /** `saveMemory(for:memory:)`: (over)write the agent's file. */
  function Save(dir: Directory, agentId: Uuid, memory: seq<string>): Directory {
    dir[FileFor(agentId) := WellFormed(MemoryData(agentId, memory))]
  }

  /** `addToMemory(for:message:)`: load, append, keep the last 50, save. */
  function Added(dir: Directory, agentId: Uuid, line: string): Directory {
    Save(dir, agentId, KeepLast(Load(dir, agentId) + [line]))
  }

  /** `clearMemory(for:)`: remove the agent's file if there is one. */
  function Cleared(dir: Directory, agentId: Uuid): Directory {
    dir - {FileFor(agentId)}
  }

  /** Saving then loading gives back what was saved. */
  lemma SaveThenLoad(dir: Directory, agentId: Uuid, memory: seq<string>)
    ensures Load(Save(dir, agentId, memory), agentId) == memory
  {
  }

  /** After adding a line the record ends with it and holds at most 50
      lines; below the cap nothing is evicted, at the cap exactly the
      oldest line goes and the order of the rest is kept. */
  lemma AddThenLoad(dir: Directory, agentId: Uuid, line: string)
    ensures var before, after := Load(dir, agentId), Load(Added(dir, agentId, line), agentId);
      && 0 < |after| <= MemoryCap
      && after[|after| - 1] == line
      && (|before| < MemoryCap ==> after == before + [line])
      && (|before| >= MemoryCap ==> after == before[|before| + 1 - MemoryCap..] + [line])
  {
    var before := Load(dir, agentId);
    var s := before + [line];
    SaveThenLoad(dir, agentId, KeepLast(s));
    if |before| >= MemoryCap {
      assert s[|s| - MemoryCap..] == before[|before| + 1 - MemoryCap..] + [line];
    }
  }

  /** Writing one agent's record leaves every other agent's record as it
      was. */
  lemma SaveLeavesOthers(dir: Directory, agentId: Uuid, other: Uuid, memory: seq<string>, line: string)
    requires other != agentId
    ensures Load(Save(dir, agentId, memory), other) == Load(dir, other)
    ensures Load(Added(dir, agentId, line), other) == Load(dir, other)
  {
    FileForInjective(agentId, other);
  }

  /** Capping a list that ends with `first` and then `second` keeps both. */
  lemma KeepLastKeepsLastTwo(s: seq<string>, first: string, second: string)
    requires |s| > 0 && s[|s| - 1] == first
    ensures var r := KeepLast(s + [second]); |r| >= 2 && r[|r| - 2..] == [first, second]
  {
    var t := s + [second];
    var r := KeepLast(t);
    assert r[|r| - 2] == t[|t| - 2];
    assert r[|r| - 1] == t[|t| - 1];
  }

  /** Two additions in a row leave both lines at the end of the record, in
      the order they were added. */
  lemma AddedTwiceEndsWithBoth(dir: Directory, agentId: Uuid, first: string, second: string)
    ensures var after := Load(Added(Added(dir, agentId, first), agentId, second), agentId);
      |after| >= 2 && after[|after| - 2..] == [first, second]
  {
    var middle := Added(dir, agentId, first);
    LoadAdded(dir, agentId, first);
    LoadAdded(middle, agentId, second);
    KeepLastKeepsLastTwo(Load(middle, agentId), first, second);
  }

  /** After a clear the record reads as empty; clearing an agent with no file
      changes nothing; other agents are untouched. */
  lemma ClearThenLoad(dir: Directory, agentId: Uuid, other: Uuid)
    ensures Load(Cleared(dir, agentId), agentId) == []
    ensures FileFor(agentId) !in dir ==> Cleared(dir, agentId) == dir
    ensures other != agentId ==> Load(Cleared(dir, agentId), other) == Load(dir, other)
  {
    FileForInjective(agentId, other);
  }

  /** `addToMemory` called once per line, in order. */
  function AddedAll(dir: Directory, agentId: Uuid, lines: seq<string>): Directory
    decreases |lines|
  {
    if |lines| == 0 then dir
    else Added(AddedAll(dir, agentId, lines[..|lines| - 1]), agentId, lines[|lines| - 1])
  }

  /** What one addition does to the agent's record. */
  lemma LoadAdded(dir: Directory, agentId: Uuid, line: string)
    ensures Load(Added(dir, agentId, line), agentId) == KeepLast(Load(dir, agentId) + [line])
  {
    SaveThenLoad(dir, agentId, KeepLast(Load(dir, agentId) + [line]));
  }

  /** Capping, then appending and capping again, is capping once. */
  lemma KeepLastAbsorbs(s: seq<string>, t: seq<string>)
    ensures KeepLast(KeepLast(s) + t) == KeepLast(s + t)
  {
    if |s| > MemoryCap {
      var k := KeepLast(s);
      assert k + t == (s + t)[|s| - MemoryCap..];
    }
  }

  lemma KeepLastStep(before: seq<string>, init: seq<string>, last: string, lines: seq<string>)
    requires lines == init + [last]
    ensures KeepLast(KeepLast(before + init) + [last]) == KeepLast(before + lines)
  {
    KeepLastAbsorbs(before + init, [last]);
    assert before + init + [last] == before + lines;
  }

  /** However many lines are added, the record holds the last 50 of the old
      lines followed by the new ones, in their original order. */
  lemma {:induction false} AddedAllKeepsLast(dir: Directory, agentId: Uuid, lines: seq<string>)
    requires |lines| > 0
    ensures Load(AddedAll(dir, agentId, lines), agentId) == KeepLast(Load(dir, agentId) + lines)
    decreases |lines|
  {
    var init, last := lines[..|lines| - 1], lines[|lines| - 1];
    assert lines == init + [last];
    var prev := AddedAll(dir, agentId, init);
    LoadAdded(prev, agentId, last);
    if |init| == 0 {
      assert prev == dir;
    } else {
      AddedAllKeepsLast(dir, agentId, init);
      KeepLastStep(Load(dir, agentId), init, last, lines);
    }
  }

  /** Starting from no record, after more than 50 additions the record is
      exactly the last 50 lines added. */
  lemma ManyAdditions(dir: Directory, agentId: Uuid, lines: seq<string>)
    requires FileFor(agentId) !in dir && |lines| > MemoryCap
    ensures Load(AddedAll(dir, agentId, lines), agentId) == lines[|lines| - MemoryCap..]
  {
    AddedAllKeepsLast(dir, agentId, lines);
    EmptyBefore(Load(dir, agentId), lines);
  }

  lemma EmptyBefore(before: seq<string>, lines: seq<string>)
    requires before == [] && |lines| > MemoryCap
    ensures KeepLast(before + lines) == lines[|lines| - MemoryCap..]
  {
    assert before + lines == lines;
  }

  /** The files `getAllMemories` reports: every `.json` file that decodes. */
  function Readable(dir: Directory): set<FileName> {
    set f | f in dir && f.ext == MemoryExtension && dir[f].WellFormed?
  }

  /** An agent's own record is reported exactly when it decodes. */
  lemma ReadableHoldsOwnRecord(dir: Directory, agentId: Uuid, memory: seq<string>)
    ensures FileFor(agentId) in Readable(Save(dir, agentId, memory))
    ensures FileFor(agentId) !in Readable(Cleared(dir, agentId))
  {
  }

  class MemoryService {
    /** The "AgentMemory" directory under the documents directory. */
    var directory: Directory

    constructor (directory: Directory)
      ensures this.directory == directory
    {
      this.directory := directory;
    }

    /** `saveMemory(for:memory:)`. */
    method SaveMemory(agentId: Uuid, memory: seq<string>)
      modifies this
      ensures directory == Save(old(directory), agentId, memory)
      ensures Load(directory, agentId) == memory
    {
      directory := directory[FileFor(agentId) := WellFormed(MemoryData(agentId, memory))];
      SaveThenLoad(old(directory), agentId, memory);
    }

    /** `loadMemory(for:)`: no file, or a file that does not decode, reads as
        an empty record. */
    method LoadMemory(agentId: Uuid) returns (memory: seq<string>)
      ensures memory == Load(directory, agentId)
      ensures FileFor(agentId) !in directory ==> memory == []
    {
      var name := FileFor(agentId);
      if name !in directory {
        return [];
      }
      match directory[name]
      case Malformed => memory := [];
      case WellFormed(data) => memory := data.messages;
    }

    /** `addToMemory(for:message:)`. */
    method AddToMemory(agentId: Uuid, message: string)
      modifies this
      ensures directory == Added(old(directory), agentId, message)
      ensures var after := Load(directory, agentId);
        0 < |after| <= MemoryCap && after[|after| - 1] == message
    {
      var memory := LoadMemory(agentId);
      memory := memory + [message];
      if |memory| > MemoryCap {
        memory := memory[|memory| - MemoryCap..];
      }
      SaveMemory(agentId, memory);
      AddThenLoad(old(directory), agentId, message);
    }

    /** `clearMemory(for:)`: removing a file that is not there fails and is
        only logged, so the directory stays as it was. */
    method ClearMemory(agentId: Uuid)
      modifies this
      ensures directory == Cleared(old(directory), agentId)
      ensures Load(directory, agentId) == []
    {
      var name := FileFor(agentId);
      if name in directory {
        directory := directory - {name};
      }
    }

    /** `getAllMemories`: one entry per `.json` file that decodes, carrying
        the agent id stored inside the file, in directory-listing order.
        `files` names the file each entry was read from. */
    method GetAllMemories() returns (memories: seq<(Uuid, seq<string>)>, ghost files: seq<FileName>)
      ensures |memories| == |files| == |Readable(directory)|
      ensures forall f :: f in files <==> f in Readable(directory)
      ensures forall i, j | 0 <= i < j < |files| :: files[i] != files[j]
      ensures forall i | 0 <= i < |files| ::
        files[i] in directory && directory[files[i]] == WellFormed(MemoryData(memories[i].0, memories[i].1))
    {
      var listing := directory.Keys;
      memories, files := [], [];
      while listing != {}
        invariant listing <= directory.Keys
        invariant |memories| == |files|
        invariant forall f :: f in files <==> f in Readable(directory) && f !in listing
        invariant forall i, j | 0 <= i < j < |files| :: files[i] != files[j]
        invariant forall i | 0 <= i < |files| ::
          files[i] in directory &&
          directory[files[i]] == WellFormed(MemoryData(memories[i].0, memories[i].1))
        decreases |listing|
      {
        var f :| f in listing;
        if f.ext == MemoryExtension {
          match directory[f]
          case Malformed =>
          case WellFormed(data) =>
            memories := memories + [(data.agentId, data.messages)];
            files := files + [f];
        }
        listing := listing - {f};
      }
      DistinctCovering(files, Readable(directory));
    }
  }

  /** A list without repeats that holds exactly the members of a set is as
      long as the set is large. */
  lemma {:induction false} DistinctCovering<T>(xs: seq<T>, s: set<T>)
    requires forall x :: x in xs <==> x in s
    requires forall i, j | 0 <= i < j < |xs| :: xs[i] != xs[j]
    ensures |xs| == |s|
    decreases |xs|
  {
    if |xs| > 0 {
      var last := xs[|xs| - 1];
      var init := xs[..|xs| - 1];
      forall x
        ensures x in init <==> x in s - {last}
      {
        if x in init {
          var k :| 0 <= k < |init| && init[k] == x;
          assert xs[k] == x;
        }
        if x in s - {last} {
          var k :| 0 <= k < |xs| && xs[k] == x;
          assert k != |xs| - 1;
          assert init[k] == x;
        }
      }
      DistinctCovering(init, s - {last});
    }
  }
}

/**
 * The status bar: the modules named in the configuration, resolved through
 * the registry in declaration order; a cache with one slot of blocks per
 * module; the drain that moves whatever the modules have produced into the
 * cache; and the frame that concatenates the cache and goes to the stream.
 */
module Status {
  import opened Wrappers
  import opened Settings
  import opened Blocks
  import opened Registry
  import opened Stream
  import Header

  /** The fatal error for a module declaration without a string `name`. */
  const NO_NAME: string := "module name not defined"

  /** A declaration carries its module's name as a string. */
  predicate Named(d: ModuleConfig) {
    HasString(d, "name")
  }

  /** A declaration's `config` mapping; a missing or mistyped one reads as empty. */
  function DeclConfig(d: ModuleConfig): ModuleConfig {
    if "config" in d && d["config"].Map? then d["config"].m else map[]
  }

  /** The module a declaration loads, or the registry's error. */
  function Load(entries: map<string, Constructor>, d: ModuleConfig): Result<Module, string>
    requires Named(d)
  {
    GetModule(entries, d["name"].s, DeclConfig(d))
  }

  /** A declaration that names a registered module. */
  predicate Loads(entries: map<string, Constructor>, d: ModuleConfig) {
    Named(d) && d["name"].s in entries
  }

  /**
   * NewStatus's resolution of the declarations: fatal at the first
   * declaration without a name, otherwise the modules that loaded, in order,
   * with the rejected names skipped.
   */
  function Resolved(decls: seq<ModuleConfig>, entries: map<string, Constructor>): Result<seq<Module>, string>
    decreases |decls|
  {
    if |decls| == 0 then Success([])
    else
      match Resolved(decls[..|decls| - 1], entries)
      case Failure(e) => Failure(e)
      case Success(mods) =>
        var d := decls[|decls| - 1];
        if !Named(d) then Failure(NO_NAME)
        else
          match Load(entries, d)
          case Success(m) => Success(mods + [m])
          case Failure(_) => Success(mods)
  }

  /** How many of the declarations load. */
  function LoadCount(decls: seq<ModuleConfig>, entries: map<string, Constructor>): nat
    decreases |decls|
  {
    if |decls| == 0 then 0
    else LoadCount(decls[..|decls| - 1], entries) + (if Loads(entries, decls[|decls| - 1]) then 1 else 0)
  }

  /** Resolution is fatal exactly when some declaration has no string name, and then with NO_NAME. */
  lemma {:induction false} ResolvedFatal(decls: seq<ModuleConfig>, entries: map<string, Constructor>)
    ensures Resolved(decls, entries).Failure? <==> exists i :: 0 <= i < |decls| && !Named(decls[i])
    ensures Resolved(decls, entries).Failure? ==> Resolved(decls, entries).error == NO_NAME
  {
    if |decls| > 0 {
      var init := decls[..|decls| - 1];
      ResolvedFatal(init, entries);
      if exists i :: 0 <= i < |init| && !Named(init[i]) {
        var i :| 0 <= i < |init| && !Named(init[i]);
        assert decls[i] == init[i];
      }
      if exists i :: 0 <= i < |decls| && !Named(decls[i]) {
        var i :| 0 <= i < |decls| && !Named(decls[i]);
        if i < |init| {
          assert init[i] == decls[i];
        }
      }
    }
  }

  /**
   * A successful resolution holds one module per loading declaration: the
   * i-th declaration, when it loads, gives the module at the position that
   * counts the loading declarations before it, built from its own name and
   * config.
   */
  lemma {:induction false} ResolvedOrder(decls: seq<ModuleConfig>, entries: map<string, Constructor>)
    requires Resolved(decls, entries).Success?
    ensures |Resolved(decls, entries).value| == LoadCount(decls, entries)
    ensures forall i :: 0 <= i < |decls| && Loads(entries, decls[i]) ==>
      LoadCount(decls[..i], entries) < LoadCount(decls, entries) &&
      Resolved(decls, entries).value[LoadCount(decls[..i], entries)] == Module(entries[decls[i]["name"].s], DeclConfig(decls[i]))
  {
    if |decls| > 0 {
      var n := |decls| - 1;
      var init := decls[..n];
      ResolvedOrder(init, entries);
      var mods := Resolved(init, entries).value;
      forall i | 0 <= i < |decls| && Loads(entries, decls[i])
        ensures LoadCount(decls[..i], entries) < LoadCount(decls, entries)
        ensures Resolved(decls, entries).value[LoadCount(decls[..i], entries)] == Module(entries[decls[i]["name"].s], DeclConfig(decls[i]))
      {
        if i < n {
          assert init[i] == decls[i];
          assert init[..i] == decls[..i];
        } else {
          assert decls[..i] == init;
        }
      }
    }
  }

  /** Once a prefix of the declarations is fatal, so are all of them. */
  lemma {:induction false} FatalPrefix(decls: seq<ModuleConfig>, entries: map<string, Constructor>, k: nat)
    requires k <= |decls|
    requires Resolved(decls[..k], entries).Failure?
    ensures Resolved(decls, entries) == Resolved(decls[..k], entries)
    decreases |decls| - k
  {
    if k < |decls| {
      var next := decls[..k + 1];
      assert next[..k] == decls[..k];
      FatalPrefix(decls, entries, k + 1);
    } else {
      assert decls[..k] == decls;
    }
  }

  /** The loop of NewStatus that builds the module list. */
  method ResolveModules(decls: seq<ModuleConfig>, entries: map<string, Constructor>) returns (r: Result<seq<Module>, string>)
    ensures r == Resolved(decls, entries)
  {
    var mods: seq<Module> := [];
    var i := 0;
    while i < |decls|
      invariant 0 <= i <= |decls|
      invariant Resolved(decls[..i], entries) == Success(mods)
    {
      var d := decls[i];
      assert decls[..i + 1][..i] == decls[..i];
      if !Named(d) {
        FatalPrefix(decls, entries, i + 1);
        return Failure(NO_NAME);
      }
      var m := GetModule(entries, d["name"].s, DeclConfig(d));
      if m.Success? {
        mods := mods + [m.value];
      }
      i := i + 1;
    }
    assert decls[..i] == decls;
    return Success(mods);
  }

  /** flattenCache's result: the slots in module order, each slot's blocks in order. */
  function Flatten(slots: seq<seq<Block>>): seq<Block>
    decreases |slots|
  {
    if |slots| == 0 then [] else Flatten(slots[..|slots| - 1]) + slots[|slots| - 1]
  }

  function TotalLength(slots: seq<seq<Block>>): nat
    decreases |slots|
  {
    if |slots| == 0 then 0 else TotalLength(slots[..|slots| - 1]) + |slots[|slots| - 1]|
  }

  /** The flattened cache has as many blocks as all slots together. */
  lemma {:induction false} FlattenLength(slots: seq<seq<Block>>)
    ensures |Flatten(slots)| == TotalLength(slots)
  {
    if |slots| > 0 {
      FlattenLength(slots[..|slots| - 1]);
    }
  }

  /** Flattening a prefix of the slots gives a prefix of the flattened cache. */
  lemma {:induction false} FlattenPrefix(slots: seq<seq<Block>>, k: nat)
    requires k <= |slots|
    ensures |Flatten(slots[..k])| <= |Flatten(slots)|
    ensures Flatten(slots[..k]) == Flatten(slots)[..|Flatten(slots[..k])|]
    decreases |slots| - k
  {
    if k < |slots| {
      FlattenPrefix(slots, k + 1);
      var next := slots[..k + 1];
      assert next[..k] == slots[..k];
      assert Flatten(next) == Flatten(slots[..k]) + slots[k];
    } else {
      assert slots[..k] == slots;
    }
  }

  /** Block j of slot i sits in the flattened cache right after everything in the slots before i. */
  lemma FlattenIndex(slots: seq<seq<Block>>, i: nat, j: nat)
    requires i < |slots| && j < |slots[i]|
    ensures |Flatten(slots[..i])| + j < |Flatten(slots)|
    ensures Flatten(slots)[|Flatten(slots[..i])| + j] == slots[i][j]
  {
    FlattenPrefix(slots, i + 1);
    var next := slots[..i + 1];
    assert next[..i] == slots[..i];
    assert Flatten(next) == Flatten(slots[..i]) + slots[i];
  }

  /** A slot after one drain step: the oldest pending value if its module had one, else what it held. */
  function Drained(slot: seq<Block>, queue: seq<seq<Block>>): seq<Block> {
    if queue == [] then slot else queue[0]
  }

  /** A module's pending values after one drain step: all but the oldest. */
  function Remaining(queue: seq<seq<Block>>): seq<seq<Block>> {
    if queue == [] then [] else queue[1..]
  }

  /**
   * The status bar's state. The modules' update channels are not part of it:
   * each drain receives the values the modules have sent and not yet had
   * taken, one queue per module, oldest first.
   */
  class Status {
    const modules: seq<Module>
    const config: Header.Config
    const cache: array<seq<Block>>
    /** Everything written to standard output so far. */
    var stdout: string
    /** The flattened caches rendered so far, in order. */
    ghost var frames: seq<seq<Block>>

    /** One cache slot per module, and the stream laid out as the protocol requires. */
    ghost predicate Valid()
      reads this
    {
      cache.Length == |modules| && stdout == Unlines(StreamLines(config, frames))
    }

    /**
     * The status bar for the resolved modules, with an empty cache, and the
     * stream opened by the header line and the `[` line that render writes
     * first.
     */
    constructor (mods: seq<Module>, c: Header.Config)
      ensures modules == mods && config == c
      ensures fresh(cache) && cache.Length == |mods|
      ensures forall i :: 0 <= i < cache.Length ==> cache[i] == []
      ensures frames == []
      ensures Valid()
    {
      modules := mods;
      config := c;
      cache := new seq<Block>[|mods|](_ => []);
      stdout := "";
      frames := [];
      new;
      Write(Header.HeaderText(c));
      Write("[");
      StreamOpened(c);
    }

    /** One line on standard output. */
    method Write(line: string)
      modifies this
      ensures stdout == old(stdout) + line + "\n"
      ensures frames == old(frames)
    {
      stdout := stdout + line + "\n";
    }

    /**
     * updateCache: for each module in turn, a non-blocking receive. A module
     * with a value pending hands over its oldest one, which replaces its
     * slot; every other slot keeps its blocks. Reports whether any slot was
     * replaced.
     */
    method UpdateCache(queues: seq<seq<seq<Block>>>) returns (dirty: bool, rest: seq<seq<seq<Block>>>)
      requires |queues| == cache.Length
      modifies cache
      ensures forall i :: 0 <= i < cache.Length ==> cache[i] == Drained(old(cache[i]), queues[i])
      ensures |rest| == |queues|
      ensures forall i :: 0 <= i < |queues| ==> rest[i] == Remaining(queues[i])
      ensures dirty <==> exists i :: 0 <= i < |queues| && queues[i] != []
    {
      dirty := false;
      rest := [];
      var i := 0;
      while i < |queues|
        invariant 0 <= i <= |queues|
        invariant |rest| == i
        invariant forall j :: 0 <= j < i ==> cache[j] == Drained(old(cache[j]), queues[j]) && rest[j] == Remaining(queues[j])
        invariant forall j :: i <= j < cache.Length ==> cache[j] == old(cache[j])
        invariant dirty <==> exists j :: 0 <= j < i && queues[j] != []
      {
        if queues[i] != [] {
          cache[i] := queues[i][0];
          dirty := true;
        }
        rest := rest + [Remaining(queues[i])];
        i := i + 1;
      }
    }

    /** flattenCache: every slot's blocks, slot after slot. */
    method FlattenCache() returns (f: seq<Block>)
      ensures f == Flatten(cache[..])
    {
      f := [];
      var i := 0;
      while i < cache.Length
        invariant 0 <= i <= cache.Length
        invariant f == Flatten(cache[..i])
      {
        var ab := cache[i];
        var j := 0;
        while j < |ab|
          invariant 0 <= j <= |ab|
          invariant f == Flatten(cache[..i]) + ab[..j]
        {
          f := f + [ab[j]];
          j := j + 1;
        }
        assert ab[..j] == ab;
        assert cache[..i + 1][..i] == cache[..i];
        i := i + 1;
      }
      assert cache[..i] == cache[..];
    }

    /** One pass of render's loop after an update signal: the flattened cache as one more frame line. */
    method RenderFrame()
      requires Valid()
      modifies this
      ensures Valid()
      ensures frames == old(frames) + [Flatten(cache[..])]
      ensures stdout == old(stdout) + FrameLine(Flatten(cache[..])) + "\n"
    {
      var f := FlattenCache();
      Write(FrameLine(f));
      StreamGrows(config, frames, f);
      frames := frames + [f];
    }

    /**
     * One pass of watchModules with the render it triggers: drain the
     * modules, and render a frame exactly when a slot was replaced. A pass in
     * which no module has anything pending writes nothing.
     */
    method Step(queues: seq<seq<seq<Block>>>) returns (rest: seq<seq<seq<Block>>>)
      requires Valid() && |queues| == cache.Length
      modifies this, cache
      ensures Valid()
      ensures forall i :: 0 <= i < cache.Length ==> cache[i] == Drained(old(cache[i]), queues[i])
      ensures |rest| == |queues| && forall i :: 0 <= i < |queues| ==> rest[i] == Remaining(queues[i])
      ensures (exists i :: 0 <= i < |queues| && queues[i] != []) ==> frames == old(frames) + [Flatten(cache[..])]
      ensures (forall i :: 0 <= i < |queues| ==> queues[i] == []) ==> frames == old(frames) && stdout == old(stdout)
    {
      var dirty;
      dirty, rest := UpdateCache(queues);
      if dirty {
        RenderFrame();
      }
    }
  }

  /** The values module i has sent before the status bar first drains it; a position not in the map has none. */
  function PendingAt(pending: map<nat, seq<seq<Block>>>, i: nat): seq<seq<Block>> {
    if i in pending then pending[i] else []
  }

  /**
   * NewStatus: resolve the declared modules (fatal when one has no name),
   * size the cache to the modules that loaded, and drain once, ignoring
   * whether anything arrived. Modules that send a first value while they are
   * constructed have it taken into their slot here.
   */
  method NewStatus(c: Header.Config, entries: map<string, Constructor>, pending: map<nat, seq<seq<Block>>>)
    returns (r: Result<Status, string>, rest: seq<seq<seq<Block>>>)
    ensures r.Failure? <==> Resolved(c.modules, entries).Failure?
    ensures r.Failure? ==> r.error == NO_NAME && rest == []
    ensures r.Success? ==> Resolved(c.modules, entries) == Success(r.value.modules)
    ensures r.Success? ==> fresh(r.value.cache) && r.value.Valid() && r.value.frames == []
    ensures r.Success? ==> r.value.config == c && r.value.stdout == Unlines(StreamLines(c, []))
    ensures r.Success? ==> forall i :: 0 <= i < r.value.cache.Length ==> r.value.cache[i] == Drained([], PendingAt(pending, i))
    ensures r.Success? ==> |rest| == r.value.cache.Length && forall i :: 0 <= i < |rest| ==> rest[i] == Remaining(PendingAt(pending, i))
  {
    var mods := ResolveModules(c.modules, entries);
    if mods.Failure? {
      ResolvedFatal(c.modules, entries);
      return Failure(mods.error), [];
    }
    var s := new Status(mods.value, c);
    var queues := seq(|mods.value|, i requires 0 <= i => PendingAt(pending, i));
    var ignored;
    ignored, rest := s.UpdateCache(queues);
    return Success(s), rest;
  }
}

// The symbol table (src/interpreter/symbol-table.h).
module Scopes {
  import opened Wrappers

  type Frame<V> = map<string, V>

  // ----- stacks of frames, innermost last -----

  function Find<V>(frames: seq<Frame<V>>, name: string): Option<V> {
    if frames == [] then None
    else if name in frames[|frames| - 1] then Some(frames[|frames| - 1][name])
    else Find(frames[..|frames| - 1], name)
  }

  // The innermost binding of the name gets the value, if there is one.
  function Rebind<V>(frames: seq<Frame<V>>, name: string, v: V): (r: seq<Frame<V>>)
    ensures |r| == |frames| && forall i :: 0 <= i < |r| ==> r[i].Keys == frames[i].Keys
  {
    if frames == [] then []
    else
      var top := frames[|frames| - 1];
      if name in top then frames[..|frames| - 1] + [top[name := v]]
      else Rebind(frames[..|frames| - 1], name, v) + [top]
  }

  function Bind<V>(frames: seq<Frame<V>>, name: string, v: V): seq<Frame<V>>
    requires frames != []
  {
    frames[|frames| - 1 := frames[|frames| - 1][name := v]]
  }

  // Assignment: an existing name is changed where it is, a new one belongs
  // to the innermost frame.
  function Assigned<V>(frames: seq<Frame<V>>, name: string, v: V): seq<Frame<V>>
    requires frames != []
  {
    if Find(frames, name).Some? then Rebind(frames, name, v) else Bind(frames, name, v)
  }

  function Cut<V>(frames: seq<Frame<V>>, height: nat): seq<Frame<V>> {
    if |frames| <= height then frames else frames[..height]
  }

  class SymbolTable<V(==)> {
    var contexts: seq<Frame<V>>
    var level: int

    predicate Valid()
      reads this
    {
      contexts != [] && level == |contexts| - 1
    }

    constructor ()
      ensures Valid() && contexts == [map[]]
    {
      contexts, level := [map[]], 0;
    }

    method Push()
      requires Valid()
      modifies this
      ensures Valid() && contexts == old(contexts) + [map[]]
    {
      level := level + 1;
      contexts := contexts + [map[]];
    }

    // The outermost frame stays.
    method Pop()
      requires Valid()
      modifies this
      ensures Valid() && contexts == if old(level) == 0 then old(contexts) else old(contexts)[..old(level)]
    {
      if level == 0 { return; }
      contexts := contexts[..|contexts| - 1];
      level := level - 1;
    }

    // A loop that would not end from a lower level.
    method Unwind(target: int)
      requires Valid() && 0 <= target <= level
      modifies this
      ensures Valid() && level == target && contexts == Cut(old(contexts), target + 1)
    {
      while level != target
        invariant Valid() && target <= level <= old(level) && contexts == old(contexts)[..level + 1]
        decreases level - target
      {
        Pop();
      }
    }

    method Insert(name: string, v: V) returns (isNew: bool)
      requires Valid()
      modifies this
      ensures Valid() && isNew == (name !in old(contexts)[old(level)])
      ensures contexts == if isNew then Bind(old(contexts), name, v) else old(contexts)
    {
      isNew := name !in contexts[level];
      if isNew {
        contexts := contexts[level := contexts[level][name := v]];
      }
    }

    method ReplaceLocal(name: string, v: V) returns (known: bool)
      requires Valid()
      modifies this
      ensures Valid() && known == (name in old(contexts)[old(level)])
      ensures contexts == if known then Bind(old(contexts), name, v) else old(contexts)
    {
      known := name in contexts[level];
      if known {
        contexts := contexts[level := contexts[level][name := v]];
      }
    }

    method Replace(name: string, v: V) returns (known: bool)
      requires Valid()
      modifies this
      ensures Valid() && contexts == Rebind(old(contexts), name, v)
      ensures known == Find(old(contexts), name).Some?
    {
      ghost var all := contexts;
      var ix := |contexts|;
      assert all[..ix] == all;
      while ix > 0
        invariant 0 <= ix <= |contexts| && Valid() && contexts == all
        invariant Find(all, name) == Find(all[..ix], name)
        invariant Rebind(all, name, v) == Rebind(all[..ix], name, v) + all[ix..]
      {
        RebindStep(all, ix, name, v);
        if name in contexts[ix - 1] {
          contexts := contexts[ix - 1 := contexts[ix - 1][name := v]];
          return true;
        }
        ix := ix - 1;
      }
      return false;
    }

    static lemma RebindStep(all: seq<Frame<V>>, ix: nat, name: string, v: V)
      requires 0 < ix <= |all|
      ensures Find(all[..ix], name) == if name in all[ix - 1] then Some(all[ix - 1][name]) else Find(all[..ix - 1], name)
      ensures Rebind(all[..ix], name, v) + all[ix..]
              == if name in all[ix - 1] then all[ix - 1 := all[ix - 1][name := v]]
                 else Rebind(all[..ix - 1], name, v) + all[ix - 1..]
    {
      assert all[..ix][..ix - 1] == all[..ix - 1];
      assert all[ix - 1..] == [all[ix - 1]] + all[ix..];
    }

    method Lookup(name: string) returns (r: Option<V>)
      requires Valid()
      ensures r == Find(contexts, name)
    {
      var ix := |contexts|;
      assert contexts[..ix] == contexts;
      while ix > 0
        invariant 0 <= ix <= |contexts|
        invariant Find(contexts, name) == Find(contexts[..ix], name)
      {
        assert contexts[..ix][..ix - 1] == contexts[..ix - 1];
        if name in contexts[ix - 1] {
          return Some(contexts[ix - 1][name]);
        }
        ix := ix - 1;
      }
      return None;
    }
  }
}

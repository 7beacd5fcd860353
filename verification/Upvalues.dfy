/** Resolution of names over the stack of functions being compiled. A name
    that an enclosing function declares is reached through a chain of upvalue
    descriptors, one per function in between. */
module Upvalues {
  import opened Syntax
  import opened Machine
  import Semantics

  datatype UpvalueSpec = UpvalueSpec(isLocal: bool, index: nat)

  datatype UpvalueBinding = UpvalueBinding(name: string, spec: UpvalueSpec)

  /** One function under compilation: declared names, allocated slots, and the
      names captured so far. */
  datatype Level = Level(locals: map<string, nat>, slots: nat, upvalues: seq<UpvalueBinding>)

  // ----- lexical addressing -----

  datatype Address = Address(depth: nat, slot: nat)

  /** The innermost of the first `n` functions that declares the name. */
  function Innermost(ls: seq<Level>, n: nat, name: string): Option<Address>
    requires n <= |ls|
  {
    if n == 0 then None
    else if name in ls[n - 1].locals then Some(Address(n - 1, ls[n - 1].locals[name]))
    else Innermost(ls, n - 1, name)
  }

  /** Where the chain of descriptors of upvalue `j` of function `i` ends. */
  function Follow(ls: seq<Level>, i: nat, j: nat): Option<Address>
    requires i < |ls|
    decreases i
  {
    if i == 0 || j >= |ls[i].upvalues| then None
    else
      var spec := ls[i].upvalues[j].spec;
      if spec.isLocal then Some(Address(i - 1, spec.index)) else Follow(ls, i - 1, spec.index)
  }

  ghost predicate LevelOk(ls: seq<Level>, i: nat)
    requires i < |ls|
  {
    && (forall n :: n in ls[i].locals ==> ls[i].locals[n] < ls[i].slots)
    && (forall j :: 0 <= j < |ls[i].upvalues| ==> UpvalueOk(ls, i, j))
    && (forall j, k :: 0 <= j < k < |ls[i].upvalues| ==> ls[i].upvalues[j].name != ls[i].upvalues[k].name)
  }

  /** An upvalue leads to the innermost enclosing declaration of its name, by
      a descriptor that is in range of the enclosing function. */
  ghost predicate UpvalueOk(ls: seq<Level>, i: nat, j: nat)
    requires i < |ls| && j < |ls[i].upvalues|
  {
    var u := ls[i].upvalues[j];
    && i > 0
    && (if u.spec.isLocal then u.spec.index < ls[i - 1].slots else u.spec.index < |ls[i - 1].upvalues|)
    && Follow(ls, i, j).Some? && Follow(ls, i, j) == Innermost(ls, i, u.name)
  }

  ghost predicate AllOk(ls: seq<Level>) {
    forall i :: 0 <= i < |ls| ==> LevelOk(ls, i)
  }

  // ----- the scope that code is generated in -----

  /** The upvalue index of each captured name. */
  function CapturedNames(us: seq<UpvalueBinding>): (m: map<string, nat>)
    ensures forall n :: n in m ==> m[n] < |us| && us[m[n]].name == n
    ensures forall j :: 0 <= j < |us| ==> us[j].name in m
  {
    if us == [] then map[]
    else CapturedNames(us[..|us| - 1])[us[|us| - 1].name := |us| - 1]
  }

  /** A function's names as its code addresses them. */
  function ScopeOf(l: Level): Semantics.Scope {
    Semantics.Scope(l.locals, CapturedNames(l.upvalues))
  }

  /** `r` is what the name denotes in the last function. */
  ghost predicate Denotes(ls: seq<Level>, name: string, r: VarRef)
    requires |ls| > 0
  {
    var n := |ls| - 1;
    match r
    case Local(slot) => Innermost(ls, n + 1, name) == Some(Address(n, slot))
    case Upvalue(u) => u < |ls[n].upvalues| && ls[n].upvalues[u].name == name
                       && Innermost(ls, n + 1, name).Some? && Follow(ls, n, u) == Innermost(ls, n + 1, name)
    case Global(g) => g == name && Innermost(ls, n + 1, name).None?
  }

  /** Code addresses a name in the finished scope as it did when the name was
      resolved, whatever has been captured since. */
  lemma DenotesScope(ls: seq<Level>, ms: seq<Level>, name: string, r: VarRef)
    requires |ls| > 0 && AllOk(ls) && AllOk(ms) && Grows(ls, ms) && Denotes(ls, name, r)
    ensures Denotes(ms, name, r) && Semantics.Resolve(ScopeOf(ms[|ms| - 1]), name) == r
  {
    var n := |ls| - 1;
    assert LevelOk(ms, n) && LevelOk(ls, n);
    InnermostSame(ls, ms, n + 1, name);
    InnermostBelow(ls, n, name);
    match r
    case Local(_) =>
    case Upvalue(u) =>
      assert ms[n].upvalues[u] == ls[n].upvalues[u];
      FollowSame(ls, ms, n, u);
      FollowBelow(ls, n, u);
    case Global(_) =>
      forall j | 0 <= j < |ms[n].upvalues| ensures ms[n].upvalues[j].name != name {
        assert UpvalueOk(ms, n, j);
      }
  }

  /** A name denotes one thing. */
  lemma DenotesOne(ls: seq<Level>, name: string, r: VarRef, q: VarRef)
    requires |ls| > 0 && LevelOk(ls, |ls| - 1) && Denotes(ls, name, r) && Denotes(ls, name, q)
    ensures r == q
  {
    var n := |ls| - 1;
    if r.Upvalue? {
      FollowBelow(ls, n, r.index);
    }
    if q.Upvalue? {
      FollowBelow(ls, n, q.index);
    }
  }

  lemma {:induction false} FollowBelow(ls: seq<Level>, i: nat, j: nat)
    requires i < |ls| && Follow(ls, i, j).Some?
    ensures Follow(ls, i, j).value.depth < i
    decreases i
  {
    var spec := ls[i].upvalues[j].spec;
    if !spec.isLocal {
      FollowBelow(ls, i - 1, spec.index);
    }
  }

  // ----- growth -----

  /** Captures are only added, at the end. */
  ghost predicate Grows(ls: seq<Level>, ms: seq<Level>) {
    |ls| == |ms| && forall i :: 0 <= i < |ls| ==>
      ms[i].locals == ls[i].locals && ms[i].slots == ls[i].slots && ls[i].upvalues <= ms[i].upvalues
  }

  lemma GrowsSelf(ls: seq<Level>)
    ensures Grows(ls, ls)
  {
  }

  lemma GrowsTrans(a: seq<Level>, b: seq<Level>, c: seq<Level>)
    requires Grows(a, b) && Grows(b, c)
    ensures Grows(a, c)
  {
  }

  lemma {:induction false} InnermostSame(ls: seq<Level>, ms: seq<Level>, n: nat, name: string)
    requires n <= |ls| && n <= |ms| && forall i :: 0 <= i < n ==> ms[i].locals == ls[i].locals
    ensures Innermost(ls, n, name) == Innermost(ms, n, name)
    decreases n
  {
    if n > 0 {
      InnermostSame(ls, ms, n - 1, name);
    }
  }

  /** Earlier indices keep their meaning. */
  lemma {:induction false} FollowSame(ls: seq<Level>, ms: seq<Level>, i: nat, j: nat)
    requires i < |ls| && i < |ms| && forall k :: 0 <= k <= i ==> ls[k].upvalues <= ms[k].upvalues
    requires Follow(ls, i, j).Some?
    ensures Follow(ms, i, j) == Follow(ls, i, j)
    decreases i
  {
    assert ms[i].upvalues[j] == ls[i].upvalues[j];
    if !ls[i].upvalues[j].spec.isLocal {
      FollowSame(ls, ms, i - 1, ls[i].upvalues[j].spec.index);
    }
  }

  lemma UpvalueStays(ls: seq<Level>, ms: seq<Level>, i: nat, j: nat)
    requires Grows(ls, ms) && i < |ls| && j < |ls[i].upvalues| && UpvalueOk(ls, i, j)
    ensures j < |ms[i].upvalues| && ms[i].upvalues[j] == ls[i].upvalues[j] && UpvalueOk(ms, i, j)
  {
    assert ls[i].upvalues <= ms[i].upvalues;
    FollowSame(ls, ms, i, j);
    InnermostSame(ls, ms, i, ls[i].upvalues[j].name);
    assert ls[i - 1].upvalues <= ms[i - 1].upvalues;
  }

  /** A new capture at level `i`. */
  function WithUpvalue(ls: seq<Level>, i: nat, b: UpvalueBinding): seq<Level>
    requires i < |ls|
  {
    ls[i := ls[i].(upvalues := ls[i].upvalues + [b])]
  }

  ghost predicate Captured(ls: seq<Level>, i: nat, name: string)
    requires i < |ls|
  {
    exists j :: 0 <= j < |ls[i].upvalues| && ls[i].upvalues[j].name == name
  }

  lemma UpvalueAdded(ls: seq<Level>, i: nat, b: UpvalueBinding)
    requires AllOk(ls) && 0 < i < |ls| && !Captured(ls, i, b.name)
    requires if b.spec.isLocal then b.name in ls[i - 1].locals && ls[i - 1].locals[b.name] == b.spec.index
             else b.name !in ls[i - 1].locals && b.spec.index < |ls[i - 1].upvalues|
                  && ls[i - 1].upvalues[b.spec.index].name == b.name
    ensures var ms := WithUpvalue(ls, i, b);
            AllOk(ms) && Grows(ls, ms) && Follow(ms, i, |ls[i].upvalues|) == Innermost(ls, i, b.name)
  {
    hide Innermost, Follow;
    var ms := WithUpvalue(ls, i, b);
    var n := |ls[i].upvalues|;
    assert Grows(ls, ms);
    forall k | 0 <= k < |ms| ensures LevelOk(ms, k) {
      assert LevelOk(ls, k);
      forall j | 0 <= j < |ms[k].upvalues| ensures UpvalueOk(ms, k, j) {
        if k == i && j == n {
          AddedOk(ls, i, b);
        } else {
          UpvalueStays(ls, ms, k, j);
        }
      }
    }
    AddedOk(ls, i, b);
  }

  lemma AddedOk(ls: seq<Level>, i: nat, b: UpvalueBinding)
    requires AllOk(ls) && 0 < i < |ls|
    requires if b.spec.isLocal then b.name in ls[i - 1].locals && ls[i - 1].locals[b.name] == b.spec.index
             else b.name !in ls[i - 1].locals && b.spec.index < |ls[i - 1].upvalues|
                  && ls[i - 1].upvalues[b.spec.index].name == b.name
    ensures var ms := WithUpvalue(ls, i, b);
            UpvalueOk(ms, i, |ls[i].upvalues|) && Follow(ms, i, |ls[i].upvalues|) == Innermost(ls, i, b.name)
  {
    var ms := WithUpvalue(ls, i, b);
    assert LevelOk(ls, i - 1);
    InnermostSame(ls, ms, i, b.name);
    if !b.spec.isLocal {
      assert UpvalueOk(ls, i - 1, b.spec.index);
      FollowSame(ls, ms, i - 1, b.spec.index);
    }
  }

  // ----- the compiler's scope stack -----

  class ScopeStack {
    var levels: seq<Level>

    constructor ()
      ensures levels == [] && AllOk(levels)
    {
      levels := [];
    }

    /** Entering a function whose parameters take the first slots; the last
        parameter of a name is the one it denotes. */
    method Push(params: seq<string>)
      requires AllOk(levels)
      modifies this
      ensures AllOk(levels) && |levels| == |old(levels)| + 1 && levels[..|old(levels)|] == old(levels)
      ensures forall n :: n in levels[|levels| - 1].locals <==> n in params
      ensures forall n :: n in params ==>
                levels[|levels| - 1].locals[n] < |params| && params[levels[|levels| - 1].locals[n]] == n
      ensures forall n, j :: n in params && levels[|levels| - 1].locals[n] < j < |params| ==> params[j] != n
      ensures levels[|levels| - 1].upvalues == [] && levels[|levels| - 1].slots == |params|
    {
      var locals: map<string, nat> := map[];
      var i := 0;
      while i < |params|
        invariant 0 <= i <= |params| && forall n :: n in locals <==> n in params[..i]
        invariant forall n :: n in locals ==> locals[n] < i && params[locals[n]] == n
        invariant forall n, j :: n in locals && locals[n] < j < i ==> params[j] != n
      {
        locals := locals[params[i] := i];
        i := i + 1;
      }
      assert params[..i] == params;
      ghost var before := levels;
      levels := levels + [Level(locals, |params|, [])];
      PushedOk(before, Level(locals, |params|, []));
    }

    /** Leaving a function with its finished descriptors, all in range of the
        function around it, and reaching what they should. */
    method Pop() returns (upvalues: seq<UpvalueBinding>)
      requires AllOk(levels) && |levels| > 0
      modifies this
      ensures levels == old(levels)[..|old(levels)| - 1] && AllOk(levels)
      ensures upvalues == old(levels)[|old(levels)| - 1].upvalues
      ensures LevelOk(old(levels), |old(levels)| - 1)
    {
      var n := |levels| - 1;
      assert LevelOk(levels, n);
      upvalues := levels[n].upvalues;
      PoppedOk(levels);
      levels := levels[..n];
    }

    /** A binding of the current function. */
    method DeclareLocal(name: string) returns (slot: nat)
      requires AllOk(levels) && |levels| > 0
      modifies this
      ensures AllOk(levels) && |levels| == |old(levels)|
      ensures levels[..|levels| - 1] == old(levels)[..|levels| - 1]
      ensures var a, b := old(levels)[|levels| - 1], levels[|levels| - 1];
              && b.upvalues == a.upvalues && slot < b.slots
              && (if name in a.locals then b == a && slot == a.locals[name]
                  else b.locals == a.locals[name := slot] && slot == a.slots && b.slots == a.slots + 1)
    {
      var n := |levels| - 1;
      assert LevelOk(levels, n);
      if name in levels[n].locals {
        return levels[n].locals[name];
      }
      slot := levels[n].slots;
      DeclaredOk(levels, name, slot);
      levels := levels[n := levels[n].(locals := levels[n].locals[name := slot], slots := slot + 1)];
    }

    /** Register a captured name, once. */
    method AddUpvalue(i: nat, name: string, spec: UpvalueSpec) returns (index: nat)
      requires AllOk(levels) && 0 < i < |levels|
      requires if spec.isLocal then name in levels[i - 1].locals && levels[i - 1].locals[name] == spec.index
               else name !in levels[i - 1].locals && spec.index < |levels[i - 1].upvalues|
                    && levels[i - 1].upvalues[spec.index].name == name
      modifies this
      ensures AllOk(levels) && Grows(old(levels), levels)
      ensures index < |levels[i].upvalues| && levels[i].upvalues[index].name == name
      ensures forall k :: 0 <= k < |levels| && k != i ==> levels[k] == old(levels)[k]
    {
      var j := 0;
      while j < |levels[i].upvalues|
        invariant 0 <= j <= |levels[i].upvalues| && levels == old(levels)
        invariant forall k :: 0 <= k < j ==> levels[i].upvalues[k].name != name
      {
        if levels[i].upvalues[j].name == name {
          return j;
        }
        j := j + 1;
      }
      UpvalueAdded(levels, i, UpvalueBinding(name, spec));
      index := |levels[i].upvalues|;
      levels := WithUpvalue(levels, i, UpvalueBinding(name, spec));
    }

    /** Capture a name that function `i` or one around it declares, for
        function `i + 1`. */
    method ResolveUpvalue(name: string, i: nat) returns (r: Option<nat>)
      requires AllOk(levels) && i + 1 < |levels|
      modifies this
      ensures AllOk(levels) && Grows(old(levels), levels)
      ensures r.None? <==> Innermost(old(levels), i + 1, name).None?
      ensures r.Some? ==> r.value < |levels[i + 1].upvalues| && levels[i + 1].upvalues[r.value].name == name
      ensures r.None? ==> levels == old(levels)
      decreases i
    {
      if name in levels[i].locals {
        var index := AddUpvalue(i + 1, name, UpvalueSpec(true, levels[i].locals[name]));
        return Some(index);
      }
      if i == 0 {
        return None;
      }
      var outer := ResolveUpvalue(name, i - 1);
      if outer.None? {
        return None;
      }
      ghost var middle := levels;
      var index := AddUpvalue(i + 1, name, UpvalueSpec(false, outer.value));
      GrowsTrans(old(levels), middle, levels);
      return Some(index);
    }

    /** What a name denotes in the current function: its own slot, an upvalue
        that leads to the innermost enclosing declaration, or a global. */
    method ResolveVar(name: string) returns (r: VarRef)
      requires AllOk(levels) && |levels| > 0
      modifies this
      ensures AllOk(levels) && Grows(old(levels), levels)
      ensures Denotes(levels, name, r)
    {
      var n := |levels| - 1;
      if name in levels[n].locals {
        return Local(levels[n].locals[name]);
      }
      if n >= 1 {
        var u := ResolveUpvalue(name, n - 1);
        InnermostSame(old(levels), levels, n, name);
        if u.Some? {
          assert LevelOk(levels, n) && UpvalueOk(levels, n, u.value);
          return Upvalue(u.value);
        }
      }
      return Global(name);
    }

    /** Capture everything visible, for code that is compiled at run time. */
    method CaptureVisibleEnvironment()
      requires AllOk(levels) && |levels| > 0
      modifies this
      ensures AllOk(levels) && Grows(old(levels), levels)
      ensures var n := |levels| - 1;
              forall name :: Innermost(levels, n, name).Some? && name !in levels[n].locals ==> Captured(levels, n, name)
    {
      var n := |levels| - 1;
      if n == 0 {
        return;
      }
      ghost var start := levels;
      var names := VisibleNames(levels, n);
      ghost var all := names;
      while names != {}
        invariant AllOk(levels) && Grows(start, levels) && names <= all
        invariant forall name :: name in all - names && Innermost(start, n, name).Some? && name !in levels[n].locals ==>
                    Captured(levels, n, name)
        decreases names
      {
        var name :| name in names;
        names := names - {name};
        ghost var before := levels;
        if name !in levels[n].locals {
          var r := ResolveVar(name);
          GrowsTrans(start, before, levels);
          InnermostSame(start, levels, n, name);
          NowCaptured(levels, n, name, r);
        }
        forall k | k in all - names && k != name && Innermost(start, n, k).Some? && k !in levels[n].locals
          ensures Captured(levels, n, k)
        {
          StillCaptured(before, levels, n, k);
        }
      }
      forall name | Innermost(levels, n, name).Some? && name !in levels[n].locals ensures Captured(levels, n, name) {
        InnermostSame(start, levels, n, name);
        InnermostVisible(start, n, name);
      }
    }
  }

  function VisibleNames(ls: seq<Level>, n: nat): set<string>
    requires n <= |ls|
  {
    if n == 0 then {}
    else VisibleNames(ls, n - 1) + ls[n - 1].locals.Keys + (set b | b in ls[n - 1].upvalues :: b.name)
  }

  lemma {:induction false} InnermostVisible(ls: seq<Level>, n: nat, name: string)
    requires n <= |ls| && Innermost(ls, n, name).Some?
    ensures name in VisibleNames(ls, n)
    decreases n
  {
    if name !in ls[n - 1].locals {
      InnermostVisible(ls, n - 1, name);
    }
  }

  lemma NowCaptured(ls: seq<Level>, n: nat, name: string, r: VarRef)
    requires AllOk(ls) && n < |ls| && name !in ls[n].locals && Innermost(ls, n + 1, name) == Innermost(ls, n, name)
    requires r.Upvalue? ==> r.index < |ls[n].upvalues| && ls[n].upvalues[r.index].name == name
    requires r.Local? ==> Innermost(ls, n + 1, name) == Some(Address(n, r.slot))
    requires r.Global? ==> Innermost(ls, n + 1, name).None?
    ensures Innermost(ls, n, name).Some? ==> Captured(ls, n, name)
  {
    InnermostBelow(ls, n, name);
  }

  lemma {:induction false} InnermostBelow(ls: seq<Level>, n: nat, name: string)
    requires n <= |ls|
    ensures Innermost(ls, n, name).Some? ==> Innermost(ls, n, name).value.depth < n
    decreases n
  {
    if n > 0 {
      InnermostBelow(ls, n - 1, name);
    }
  }

  lemma StillCaptured(ls: seq<Level>, ms: seq<Level>, n: nat, name: string)
    requires Grows(ls, ms) && n < |ls| && Captured(ls, n, name)
    ensures Captured(ms, n, name)
  {
    var j :| 0 <= j < |ls[n].upvalues| && ls[n].upvalues[j].name == name;
    assert ls[n].upvalues <= ms[n].upvalues;
    assert ms[n].upvalues[j] == ls[n].upvalues[j];
  }

  lemma PushedOk(ls: seq<Level>, l: Level)
    requires AllOk(ls) && l.upvalues == [] && forall n :: n in l.locals ==> l.locals[n] < l.slots
    ensures AllOk(ls + [l])
  {
    var ms := ls + [l];
    forall i | 0 <= i < |ms| ensures LevelOk(ms, i) {
      if i < |ls| {
        assert LevelOk(ls, i);
        forall j | 0 <= j < |ms[i].upvalues| ensures UpvalueOk(ms, i, j) {
          assert UpvalueOk(ls, i, j);
          FollowSame(ls, ms, i, j);
          InnermostSame(ls, ms, i, ls[i].upvalues[j].name);
        }
      }
    }
  }

  lemma PoppedOk(ls: seq<Level>)
    requires AllOk(ls) && |ls| > 0
    ensures AllOk(ls[..|ls| - 1])
  {
    var ms := ls[..|ls| - 1];
    forall i | 0 <= i < |ms| ensures LevelOk(ms, i) {
      assert LevelOk(ls, i);
      forall j | 0 <= j < |ms[i].upvalues| ensures UpvalueOk(ms, i, j) {
        assert UpvalueOk(ls, i, j);
        FollowSame(ls, ms, i, j);
        InnermostSame(ls, ms, i, ls[i].upvalues[j].name);
      }
    }
  }

  /** A declaration in the last function is seen by none of its captures. */
  lemma DeclaredOk(ls: seq<Level>, name: string, slot: nat)
    requires AllOk(ls) && |ls| > 0 && slot == ls[|ls| - 1].slots
    ensures var n := |ls| - 1;
            AllOk(ls[n := ls[n].(locals := ls[n].locals[name := slot], slots := slot + 1)])
  {
    var n := |ls| - 1;
    var ms := ls[n := ls[n].(locals := ls[n].locals[name := slot], slots := slot + 1)];
    forall i | 0 <= i < |ms| ensures LevelOk(ms, i) {
      assert LevelOk(ls, i);
      forall j | 0 <= j < |ms[i].upvalues| ensures UpvalueOk(ms, i, j) {
        assert UpvalueOk(ls, i, j);
        FollowSame(ls, ms, i, j);
        InnermostSame(ls, ms, i, ls[i].upvalues[j].name);
      }
    }
  }

  // ----- frames at run time -----

  /** The cells of a running function: its slots, and what its closure
      captured. */
  datatype Frame = Frame(cells: seq<nat>, captured: seq<nat>)

  /** The cell that a descriptor denotes when a closure is made in `f`. */
  function Capture(spec: UpvalueSpec, f: Frame): Option<nat> {
    var from := if spec.isLocal then f.cells else f.captured;
    if spec.index < |from| then Some(from[spec.index]) else None
  }

  /** Each running function was closed over in the one around it. */
  ghost predicate Closures(ls: seq<Level>, fs: seq<Frame>) {
    && |fs| == |ls|
    && (forall i :: 0 <= i < |ls| ==> |fs[i].cells| == ls[i].slots && |fs[i].captured| == |ls[i].upvalues|)
    && (forall i, j :: 0 < i < |ls| && 0 <= j < |ls[i].upvalues| ==>
          Capture(ls[i].upvalues[j].spec, fs[i - 1]) == Some(fs[i].captured[j]))
  }

  /** The cell that an upvalue instruction reads is the slot of the innermost
      enclosing function that declares the name. */
  lemma {:induction false} CapturedCell(ls: seq<Level>, fs: seq<Frame>, i: nat, j: nat)
    requires AllOk(ls) && Closures(ls, fs) && i < |ls| && j < |ls[i].upvalues|
    ensures var a := Innermost(ls, i, ls[i].upvalues[j].name);
            a.Some? && a.value.depth < i && a.value.slot < |fs[a.value.depth].cells|
            && fs[i].captured[j] == fs[a.value.depth].cells[a.value.slot]
    decreases i
  {
    assert LevelOk(ls, i) && UpvalueOk(ls, i, j);
    var spec := ls[i].upvalues[j].spec;
    assert Capture(spec, fs[i - 1]) == Some(fs[i].captured[j]);
    InnermostBelow(ls, i, ls[i].upvalues[j].name);
    if !spec.isLocal {
      CapturedCell(ls, fs, i - 1, spec.index);
      assert LevelOk(ls, i - 1) && UpvalueOk(ls, i - 1, spec.index);
    }
  }
}

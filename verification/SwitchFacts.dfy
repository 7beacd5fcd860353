/** Case tests emitted with open jumps, and patched once the bodies have their
    addresses. */
module SwitchFacts {
  import opened Syntax
  import opened Machine
  import opened Semantics
  import opened CodeGen
  import opened Lengths
  import opened StmtGen

  datatype CaseJump = CaseJump(index: nat, at: nat)

  /** The tests before any body has an address. */
  function TestsOpen(cases: CaseList, pc: nat, tmp: nat, T: Tables, sc: Scope): Code {
    match cases
    case CNil => Code([], T)
    case CCons(c, tail) =>
      match c.test
      case None => TestsOpen(tail, pc, tmp, T, sc)
      case Some(e) =>
        var t := GenExpr(e, pc + 1, T, sc);
        var rest := TestsOpen(tail, pc + |t.code| + 3, tmp, t.tabs, sc);
        Code(TestHead(tmp, t.code) + [Instr(JumpIfTrue, 0)] + rest.code, rest.tabs)
  }

  function TestHead(tmp: nat, test: seq<Instr>): seq<Instr> {
    [Instr(LdaLocal, tmp)] + test + [Bare(BinaryOp(StrictEq))]
  }

  /** Which jump belongs to which case. */
  function TestJumps(cases: CaseList, i: nat, pc: nat, T: Tables, sc: Scope): seq<CaseJump> {
    match cases
    case CNil => []
    case CCons(c, tail) =>
      match c.test
      case None => TestJumps(tail, i + 1, pc, T, sc)
      case Some(e) =>
        var t := GenExpr(e, pc + 1, T, sc);
        [CaseJump(i, pc + |t.code| + 2)] + TestJumps(tail, i + 1, pc + |t.code| + 3, t.tabs, sc)
  }

  ghost predicate JumpsIn(jumps: seq<CaseJump>, starts: seq<nat>, size: nat) {
    forall j :: j in jumps ==> j.at < size && j.index < |starts|
  }

  function PatchCases(code: seq<Instr>, jumps: seq<CaseJump>, starts: seq<nat>): (r: seq<Instr>)
    requires JumpsIn(jumps, starts, |code|)
    ensures |r| == |code|
    decreases |jumps|
  {
    if jumps == [] then code
    else
      var j := jumps[0];
      assert j in jumps && forall k :: k in jumps[1..] ==> k in jumps;
      PatchCases(code[j.at := Instr(code[j.at].op, starts[j.index])], jumps[1..], starts)
  }

  /** The starts of the bodies, case number `i` first. */
  ghost predicate StartsAt(starts: seq<nat>, i: nat, cases: CaseList, pb: nat, sh: Shape, sc: Scope) {
    i + CaseCount(cases) <= |starts|
    && forall j: nat :: i <= j < i + CaseCount(cases) ==> starts[j] == BodyStart(cases, j - i, pb, sh, sc)
  }

  /** A `default` adds no test, and neither does the end of the cases. */
  lemma NoTestJump(cases: CaseList, i: nat, pc: nat, T: Tables, sc: Scope)
    ensures cases.CNil? ==> TestJumps(cases, i, pc, T, sc) == []
    ensures cases.CCons? && cases.head.test.None?
            ==> TestJumps(cases, i, pc, T, sc) == TestJumps(cases.tail, i + 1, pc, T, sc)
  {
    hide GenExpr;
  }

  lemma StartsNext(starts: seq<nat>, i: nat, c: Case, tail: CaseList, pb: nat, sh: Shape, sc: Scope)
    requires StartsAt(starts, i, CCons(c, tail), pb, sh, sc)
    ensures i < |starts| && starts[i] == pb && StartsAt(starts, i + 1, tail, pb + LenList(c.body, sh, sc), sh, sc)
  {
    hide LenList;
    assert starts[i] == BodyStart(CCons(c, tail), 0, pb, sh, sc);
    forall j: nat | i + 1 <= j < i + 1 + CaseCount(tail)
      ensures starts[j] == BodyStart(tail, j - i - 1, pb + LenList(c.body, sh, sc), sh, sc)
    {
      assert starts[j] == BodyStart(CCons(c, tail), j - i, pb, sh, sc);
    }
  }

  /** Patched tests are the tests generated with the addresses known. */
  lemma {:induction false} TestsPatched(cases: CaseList, i: nat, first: seq<Instr>, tmp: nat, T: Tables, pb: nat,
                                        sh: Shape, sc: Scope, starts: seq<nat>, last: seq<Instr>)
    requires StartsAt(starts, i, cases, pb, sh, sc)
    ensures var open := TestsOpen(cases, |first|, tmp, T, sc);
            var done := GenTests(cases, |first|, tmp, pb, sh, T, sc);
            var jumps := TestJumps(cases, i, |first|, T, sc);
            && open.tabs == done.tabs && |open.code| == |done.code|
            && JumpsIn(jumps, starts, |first + open.code|)
            && PatchCases(first + open.code + last, jumps, starts) == first + done.code + last
    decreases cases, 0
  {
    hide GenExpr, LenList, StartsAt, BodyStart;
    match cases
    case CNil =>
    case CCons(c, tail) =>
      StartsNext(starts, i, c, tail, pb, sh, sc);
      match c.test
      case None => TestsPatched(tail, i + 1, first, tmp, T, pb + LenList(c.body, sh, sc), sh, sc, starts, last);
      case Some(e) => TestPatched(c, tail, i, first, tmp, T, pb, sh, sc, starts, last);
  }

  lemma {:induction false} TestPatched(c: Case, tail: CaseList, i: nat, first: seq<Instr>, tmp: nat, T: Tables, pb: nat,
                                       sh: Shape, sc: Scope, starts: seq<nat>, last: seq<Instr>)
    requires c.test.Some? && StartsAt(starts, i, CCons(c, tail), pb, sh, sc)
    ensures var cases := CCons(c, tail);
            var open := TestsOpen(cases, |first|, tmp, T, sc);
            var done := GenTests(cases, |first|, tmp, pb, sh, T, sc);
            var jumps := TestJumps(cases, i, |first|, T, sc);
            && open.tabs == done.tabs && |open.code| == |done.code|
            && JumpsIn(jumps, starts, |first + open.code|)
            && PatchCases(first + open.code + last, jumps, starts) == first + done.code + last
    decreases tail, 1
  {
    hide GenExpr, LenList, StartsAt, BodyStart, PatchCases, JumpsIn;
    StartsNext(starts, i, c, tail, pb, sh, sc);
    var t := GenExpr(c.test.value, |first| + 1, T, sc);
    var h := TestHead(tmp, t.code);
    var next := first + h + [Instr(JumpIfTrue, pb)];
    TestsPatched(tail, i + 1, next, tmp, t.tabs, pb + LenList(c.body, sh, sc), sh, sc, starts, last);
    var rest := TestsOpen(tail, |next|, tmp, t.tabs, sc);
    var gen := GenTests(tail, |next|, tmp, pb + LenList(c.body, sh, sc), sh, t.tabs, sc);
    HeadJump(tmp, t.code, pb, gen.code);
    OpenSplit(first, h, rest.code, last, pb);
    var jump := CaseJump(i, |first| + |h|);
    var later := TestJumps(tail, i + 1, |next|, t.tabs, sc);
    var open := h + [Instr(JumpIfTrue, 0)] + rest.code;
    assert TestJumps(CCons(c, tail), i, |first|, T, sc) == [jump] + later;
    assert |next + rest.code| == |first + open|;
    JumpsCons(jump, later, starts, |first + open|);
    JumpsWiden([jump] + later, starts, |first + open|, |first + open + last|);
    PatchFirst(first + open + last, jump, later, starts);
    assert next + gen.code + last == first + (h + [Instr(JumpIfTrue, pb)] + gen.code) + last;
  }

  lemma JumpsCons(j: CaseJump, rest: seq<CaseJump>, starts: seq<nat>, size: nat)
    requires j.at < size && j.index < |starts| && JumpsIn(rest, starts, size)
    ensures JumpsIn([j] + rest, starts, size)
  {
  }

  lemma JumpsWiden(jumps: seq<CaseJump>, starts: seq<nat>, size: nat, more: nat)
    requires JumpsIn(jumps, starts, size) && size <= more
    ensures JumpsIn(jumps, starts, more)
  {
  }

  lemma PatchFirst(code: seq<Instr>, j: CaseJump, rest: seq<CaseJump>, starts: seq<nat>)
    requires JumpsIn([j] + rest, starts, |code|)
    ensures j.at < |code| && j.index < |starts| && JumpsIn(rest, starts, |code|)
    ensures PatchCases(code, [j] + rest, starts)
            == PatchCases(code[j.at := Instr(code[j.at].op, starts[j.index])], rest, starts)
  {
    assert j in [j] + rest && forall k :: k in rest ==> k in [j] + rest;
    assert ([j] + rest)[1..] == rest;
  }

  lemma HeadJump(tmp: nat, test: seq<Instr>, pb: nat, rest: seq<Instr>)
    ensures [Instr(LdaLocal, tmp)] + test + [Bare(BinaryOp(StrictEq)), Instr(JumpIfTrue, pb)] + rest
            == TestHead(tmp, test) + [Instr(JumpIfTrue, pb)] + rest
  {
  }

  lemma OpenSplit(first: seq<Instr>, h: seq<Instr>, rest: seq<Instr>, last: seq<Instr>, pb: nat)
    ensures var code := first + (h + [Instr(JumpIfTrue, 0)] + rest) + last;
            var at := |first| + |h|;
            code[at := Instr(code[at].op, pb)] == first + h + [Instr(JumpIfTrue, pb)] + rest + last
  {
  }

  /** The last `default` seen so far, or a later one. */
  function LaterDefault(cases: CaseList, i: nat, seen: Option<nat>): Option<nat> {
    var later := DefaultIndex(cases, i);
    if later.Some? then later else seen
  }

  lemma {:induction false} OpenLength(cases: CaseList, pc: nat, tmp: nat, T: Tables, sc: Scope)
    ensures |TestsOpen(cases, pc, tmp, T, sc).code| == LenTests(cases, sc)
  {
    hide GenExpr, LenExpr;
    match cases
    case CNil =>
    case CCons(c, tail) =>
      match c.test
      case None => OpenLength(tail, pc, tmp, T, sc);
      case Some(e) =>
        var t := GenExpr(e, pc + 1, T, sc);
        ExprLength(e, pc + 1, T, sc);
        OpenLength(tail, pc + |t.code| + 3, tmp, t.tabs, sc);
  }

  /** One case test and the rest of them. */
  lemma TestsNext(code: seq<Instr>, c: Case, tail: CaseList, i: nat, tmp: nat, T: Tables, sc: Scope)
    requires c.test.Some?
    ensures var t := GenExpr(c.test.value, |code| + 1, T, sc);
            var next := code + TestHead(tmp, t.code) + [Instr(JumpIfTrue, 0)];
            && code + TestsOpen(CCons(c, tail), |code|, tmp, T, sc).code
               == next + TestsOpen(tail, |next|, tmp, t.tabs, sc).code
            && TestsOpen(CCons(c, tail), |code|, tmp, T, sc).tabs == TestsOpen(tail, |next|, tmp, t.tabs, sc).tabs
            && TestJumps(CCons(c, tail), i, |code|, T, sc)
               == [CaseJump(i, |next| - 1)] + TestJumps(tail, i + 1, |next|, t.tabs, sc)
  {
    hide GenExpr;
    var t := GenExpr(c.test.value, |code| + 1, T, sc);
    var head := TestHead(tmp, t.code) + [Instr(JumpIfTrue, 0)];
    var rest := TestsOpen(tail, |code| + |head|, tmp, t.tabs, sc);
    assert code + (head + rest.code) == code + TestHead(tmp, t.code) + [Instr(JumpIfTrue, 0)] + rest.code;
  }

  /** The starts recorded while `rest` is still to be compiled at `pc`. */
  ghost predicate StartsSoFar(starts: seq<nat>, rest: CaseList, pc: nat, cases: CaseList, pb: nat, sh: Shape,
                              sc: Scope) {
    && |starts| + CaseCount(rest) == CaseCount(cases)
    && (forall k: nat :: k < |starts| ==> starts[k] == BodyStart(cases, k, pb, sh, sc))
    && (forall k: nat :: |starts| <= k ==> BodyStart(rest, k - |starts|, pc, sh, sc) == BodyStart(cases, k, pb, sh, sc))
  }

  lemma SoFarStart(cases: CaseList, pb: nat, sh: Shape, sc: Scope)
    ensures StartsSoFar([], cases, pb, cases, pb, sh, sc)
  {
  }

  lemma SoFarEnd(starts: seq<nat>, pc: nat, cases: CaseList, pb: nat, sh: Shape, sc: Scope)
    requires StartsSoFar(starts, CNil, pc, cases, pb, sh, sc)
    ensures StartsAt(starts, 0, cases, pb, sh, sc)
  {
    hide BodyStart;
  }

  lemma BodiesSize(cases: CaseList, sh: Shape, sc: Scope)
    requires cases.CCons?
    ensures LenBodies(cases, sh, sc) == LenList(cases.head.body, sh, sc) + LenBodies(cases.tail, sh, sc)
  {
    hide LenList;
  }

  lemma SoFarNext(starts: seq<nat>, rest: CaseList, pc: nat, cases: CaseList, pb: nat, sh: Shape, sc: Scope)
    requires rest.CCons? && StartsSoFar(starts, rest, pc, cases, pb, sh, sc)
    ensures StartsSoFar(starts + [pc], rest.tail, pc + LenList(rest.head.body, sh, sc), cases, pb, sh, sc)
  {
    hide LenList;
    var n := |starts|;
    assert BodyStart(rest, n - n, pc, sh, sc) == pc;
    forall k: nat | n + 1 <= k
      ensures BodyStart(rest.tail, k - n - 1, pc + LenList(rest.head.body, sh, sc), sh, sc)
              == BodyStart(cases, k, pb, sh, sc)
    {
      assert BodyStart(rest, k - n, pc, sh, sc) == BodyStart(cases, k, pb, sh, sc);
    }
  }
}
